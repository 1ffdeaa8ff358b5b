/**
 * The world the repository-creation job talks to, reduced to what decides its
 * control flow: the records it is given (assignment, user), the record it
 * builds (the assignment repository), and, for each call into the Creator or
 * into persistence, whether that call succeeds or raises
 * `Creator::Result::Error` with some message.
 *
 * The ordered plan of provider steps and the reference definition of "run the
 * plan up to and including the first step that raises" also live here; the job
 * itself is proved to follow them.
 */
module Environment {

  datatype Option<T> = None | Some(value: T)

  type AssignmentId = nat
  type UserId = nat
  /** The GitHub repository id handed back by the Creator. */
  type RepoId = nat

  /** The assignment that will own the repository; `starterCode` is `assignment.starter_code?`. */
  datatype Assignment = Assignment(id: AssignmentId, starterCode: bool)

  datatype User = User(id: UserId)

  /** The AssignmentRepo record the job builds: the GitHub repository id and its owner. */
  datatype AssignmentRepo = AssignmentRepo(githubRepoId: RepoId, user: UserId)

  /**
   * The message carried by a `Creator::Result::Error`. The Creator's constants
   * are symbolic values here, pairwise distinct. `Unlisted` stands for every
   * other message the Creator may raise (for instance from the capacity check).
   */
  datatype ErrorMessage =
    | RepositoryCreationFailed
    | CollaboratorAdditionFailed
    | StarterCodeImportFailed
    | DefaultErrorMessage
    | Unlisted(code: nat)

  /** Outcome of a Creator call that returns nothing of interest. */
  datatype StepResult = Succeeded | Raised(message: ErrorMessage)

  /** Outcome of `create_github_repository!`. */
  datatype CreateResult = Created(id: RepoId) | CreateRaised(message: ErrorMessage)

  /** Outcome of `assignment_repo.save!`: success, or `ActiveRecord::RecordInvalid`. */
  datatype SaveResult = Saved | RecordInvalid

  /**
   * What each external call would do if the job reached it. The job consults an
   * entry only when it reaches the corresponding call.
   */
  datatype World = World(
    capacity: StepResult,
    create: CreateResult,
    addCollaborator: StepResult,
    pushStarterCode: StepResult,
    save: SaveResult)

  /** The steps of one attempt that can raise, in the order the job runs them. */
  datatype Step = VerifyCapacity | CreateRepository | AddCollaborator | PushStarterCode | Save

  /** The steps an attempt runs when nothing raises; pushing starter code only with starter code. */
  function Plan(starterCode: bool): seq<Step> {
    [VerifyCapacity, CreateRepository, AddCollaborator]
      + (if starterCode then [PushStarterCode] else [])
      + [Save]
  }

  /** The plan is verify, create, add collaborator, then push starter code exactly when there is some, then save. */
  lemma PlanShape(starterCode: bool)
    ensures |Plan(starterCode)| == if starterCode then 5 else 4
    ensures Plan(starterCode)[..3] == [VerifyCapacity, CreateRepository, AddCollaborator]
    ensures Plan(starterCode)[|Plan(starterCode)| - 1] == Save
    ensures PushStarterCode in Plan(starterCode) <==> starterCode
  {
    if !starterCode {
      assert forall i :: 0 <= i < 4 ==> Plan(false)[i] != PushStarterCode;
    }
  }

  /** Whether `step` raises in `w`. */
  predicate Fails(step: Step, w: World) {
    match step
    case VerifyCapacity => w.capacity.Raised?
    case CreateRepository => w.create.CreateRaised?
    case AddCollaborator => w.addCollaborator.Raised?
    case PushStarterCode => w.pushStarterCode.Raised?
    case Save => w.save.RecordInvalid?
  }

  /**
   * The message of the `Creator::Result::Error` that a failing step leads to.
   * A failing save is re-raised with `DEFAULT_ERROR_MESSAGE`.
   */
  function FailureMessage(step: Step, w: World): ErrorMessage
    requires Fails(step, w)
  {
    match step
    case VerifyCapacity => w.capacity.message
    case CreateRepository => w.create.message
    case AddCollaborator => w.addCollaborator.message
    case PushStarterCode => w.pushStarterCode.message
    case Save => DefaultErrorMessage
  }

  /** The first step of `plan` that raises in `w`, if any. */
  function FirstFailure(plan: seq<Step>, w: World): Option<Step>
  {
    if plan == [] then None
    else if Fails(plan[0], w) then Some(plan[0])
    else FirstFailure(plan[1..], w)
  }

  /** The steps executed when `plan` runs and the first raising step ends the run. */
  function RunThrough(plan: seq<Step>, w: World): seq<Step>
  {
    if plan == [] then []
    else if Fails(plan[0], w) then [plan[0]]
    else [plan[0]] + RunThrough(plan[1..], w)
  }

  /** One step in front of a plan runs first, and ends the run when it raises. */
  lemma RunThroughCons(s: Step, rest: seq<Step>, w: World)
    ensures RunThrough([s] + rest, w) == if Fails(s, w) then [s] else [s] + RunThrough(rest, w)
    ensures FirstFailure([s] + rest, w) == if Fails(s, w) then Some(s) else FirstFailure(rest, w)
  {
    assert ([s] + rest)[1..] == rest;
  }

  /** The run of the job's plan, written out case by case. */
  lemma PlanRun(starterCode: bool, w: World)
    ensures RunThrough(Plan(starterCode), w) ==
              if Fails(VerifyCapacity, w) then [VerifyCapacity]
              else if Fails(CreateRepository, w) then [VerifyCapacity, CreateRepository]
              else if Fails(AddCollaborator, w) then [VerifyCapacity, CreateRepository, AddCollaborator]
              else if starterCode && Fails(PushStarterCode, w) then [VerifyCapacity, CreateRepository, AddCollaborator, PushStarterCode]
              else Plan(starterCode)
    ensures FirstFailure(Plan(starterCode), w) ==
              if Fails(VerifyCapacity, w) then Some(VerifyCapacity)
              else if Fails(CreateRepository, w) then Some(CreateRepository)
              else if Fails(AddCollaborator, w) then Some(AddCollaborator)
              else if starterCode && Fails(PushStarterCode, w) then Some(PushStarterCode)
              else if Fails(Save, w) then Some(Save)
              else None
  {
    var tail := if starterCode then [PushStarterCode] + [Save] else [Save];
    assert Plan(starterCode) == [VerifyCapacity] + ([CreateRepository] + ([AddCollaborator] + tail));
    RunThroughCons(VerifyCapacity, [CreateRepository] + ([AddCollaborator] + tail), w);
    RunThroughCons(CreateRepository, [AddCollaborator] + tail, w);
    RunThroughCons(AddCollaborator, tail, w);
    assert [Save] == [Save] + [];
    RunThroughCons(Save, [], w);
    if starterCode {
      RunThroughCons(PushStarterCode, [Save], w);
    }
  }

  /**
   * Running a plan executes a prefix of it, in order; every executed step but
   * the last succeeds; the run is the whole plan exactly when nothing raises,
   * and otherwise it ends with the first raising step.
   */
  lemma {:induction false} RunThroughStopsAtFirstFailure(plan: seq<Step>, w: World)
    ensures RunThrough(plan, w) <= plan
    ensures forall i :: 0 <= i < |RunThrough(plan, w)| - 1 ==> !Fails(RunThrough(plan, w)[i], w)
    ensures FirstFailure(plan, w).None? <==> RunThrough(plan, w) == plan && forall i :: 0 <= i < |plan| ==> !Fails(plan[i], w)
    ensures FirstFailure(plan, w).Some? ==>
              |RunThrough(plan, w)| > 0 &&
              RunThrough(plan, w)[|RunThrough(plan, w)| - 1] == FirstFailure(plan, w).value &&
              Fails(FirstFailure(plan, w).value, w)
    decreases |plan|
  {
    if plan != [] && !Fails(plan[0], w) {
      var rest := plan[1..];
      RunThroughStopsAtFirstFailure(rest, w);
      assert plan == [plan[0]] + rest;
      var r := RunThrough(plan, w);
      assert r == [plan[0]] + RunThrough(rest, w);
      forall i | 0 <= i < |r| - 1 ensures !Fails(r[i], w) {
        if i > 0 { assert r[i] == RunThrough(rest, w)[i - 1]; }
      }
      if FirstFailure(plan, w).None? {
        forall i | 0 <= i < |plan| ensures !Fails(plan[i], w) {
          if i > 0 { assert plan[i] == rest[i - 1]; }
        }
      }
      if RunThrough(plan, w) == plan && forall i :: 0 <= i < |plan| ==> !Fails(plan[i], w) {
        assert RunThrough(rest, w) == rest;
        forall i | 0 <= i < |rest| ensures !Fails(rest[i], w) {
          assert rest[i] == plan[i + 1];
        }
      }
    }
  }
}
