/**
 * The invitation status the job reads and writes, and the side effects it
 * issues, recorded as events of a trace: status writes, ActionCable
 * broadcasts, Creator calls, the save, log lines, statsd metrics and
 * enqueued jobs. Functions over traces give the views the properties are
 * stated in: the steps called, the status last written, and whether every
 * status write followed a legal edge.
 */
module Effects {
  import opened Environment

  /** The provisioning states of an invitation status. */
  datatype Status = Waiting | CreatingRepo | ImportingStarterCode | Completed | ErroredCreatingRepo

  /** The guard of `perform`: it acts only on `waiting?` or `errored_creating_repo?`. */
  predicate MayProvision(s: Status) {
    s == Waiting || s == ErroredCreatingRepo
  }

  /**
   * The transition graph of the provisioning state machine: a fresh or
   * errored invitation starts creating, and creating ends by importing
   * starter code, completing, going back to waiting for a retry, or erroring.
   */
  predicate Legal(from: Status, to: Status) {
    match from
    case Waiting => to == CreatingRepo
    case ErroredCreatingRepo => to == CreatingRepo
    case CreatingRepo => to != CreatingRepo
    case ImportingStarterCode => false
    case Completed => false
  }

  /** Progress texts: `CREATE_REPO`, `IMPORT_STARTER_CODE`, `Creator::REPOSITORY_CREATION_COMPLETE`. */
  datatype Text = CreateRepo | ImportStarterCode | RepositoryCreationComplete

  /** The two payload shapes broadcast to a user's channel. */
  datatype Payload = Progress(text: Text, status: Status) | Failure(error: ErrorMessage, status: Status)

  /** The statsd counters the job increments. */
  datatype Counter = CreateSuccess | RepoFail | AddingCollaboratorFail | ImportingStarterCodeFail | GenericFail
  {
    predicate IsFailure() { this != CreateSuccess }
  }

  /** The statsd key of each counter. */
  function CounterName(c: Counter): string {
    match c
    case CreateSuccess => "v2_exercise_repo.create.success"
    case RepoFail => "v2_exercise_repo.create.repo.fail"
    case AddingCollaboratorFail => "v2_exercise_repo.create.adding_collaborator.fail"
    case ImportingStarterCodeFail => "v2_exercise_repo.create.importing_starter_code.fail"
    case GenericFail => "v2_exercise_repo.create.fail"
  }

  /** The statsd key of the timing sample. */
  const TimingName: string := "v2_exercise_repo.create.time"

  /** Different counters are reported under different keys, none of them the timing key. */
  lemma CounterNamesDistinct(c: Counter, d: Counter)
    ensures c != d ==> CounterName(c) != CounterName(d)
    ensures CounterName(c) != TimingName
  {
  }

  /** The warnings the job logs: the validation error of `save!`, and the rescued error's message. */
  datatype LogLine = RecordInvalidLogged | ErrorLogged(message: ErrorMessage)

  datatype Event =
    | StatusChanged(to: Status)
    | Broadcast(channel: UserId, payload: Payload)
    | CallVerifyCapacity
    | CallCreateRepository
    | CallAddCollaborator(repo: RepoId)
    | CallPushStarterCode(repo: RepoId)
    | CallSave(record: AssignmentRepo)
    | CallDelete(repoId: Option<RepoId>)
    | Warn(line: LogLine)
    | Timing
    | Increment(counter: Counter)
    | EnqueuePorterStatus(record: AssignmentRepo, user: UserId)
    | EnqueueRetry(assignment: AssignmentId, user: UserId, retries: int)

  /** The plan step an event is the call of, if it is one. */
  function StepOf(e: Event): seq<Step> {
    match e
    case CallVerifyCapacity => [VerifyCapacity]
    case CallCreateRepository => [CreateRepository]
    case CallAddCollaborator(_) => [AddCollaborator]
    case CallPushStarterCode(_) => [PushStarterCode]
    case CallSave(_) => [Save]
    case _ => []
  }

  /** The events the Creator steps and the save contribute: their calls and the validation warning. */
  predicate IsStepEvent(e: Event) {
    || e.CallVerifyCapacity? || e.CallCreateRepository? || e.CallAddCollaborator?
    || e.CallPushStarterCode? || e.CallSave? || e == Warn(RecordInvalidLogged)
  }

  /** The plan steps called in `trace`, in order. */
  function CallSteps(trace: seq<Event>): seq<Step>
    decreases |trace|
  {
    if trace == [] then []
    else CallSteps(trace[..|trace| - 1]) + StepOf(trace[|trace| - 1])
  }

  /** How often `e` occurs in `trace`. */
  function Count(trace: seq<Event>, e: Event): nat {
    multiset(trace)[e]
  }

  /** The status last written in `trace`, or `initial` when none was. */
  function LastStatus(initial: Status, trace: seq<Event>): Status
    decreases |trace|
  {
    if trace == [] then initial
    else if trace[|trace| - 1].StatusChanged? then trace[|trace| - 1].to
    else LastStatus(initial, trace[..|trace| - 1])
  }

  /** Every status write in `trace`, starting from `initial`, takes a legal edge. */
  predicate LegalWrites(initial: Status, trace: seq<Event>)
    decreases |trace|
  {
    trace == [] ||
    (LegalWrites(initial, trace[..|trace| - 1]) &&
     (trace[|trace| - 1].StatusChanged? ==>
        Legal(LastStatus(initial, trace[..|trace| - 1]), trace[|trace| - 1].to)))
  }

  /** An event appended to a trace adds its own step, if any, to the steps called. */
  lemma CallStepsSnoc(t: seq<Event>, e: Event)
    ensures CallSteps(t + [e]) == CallSteps(t) + StepOf(e)
  {
    assert (t + [e])[..|t|] == t;
  }

  /** The steps called in two consecutive stretches of a trace are those of each stretch, in order. */
  lemma {:induction false} CallStepsAppend(a: seq<Event>, b: seq<Event>)
    ensures CallSteps(a + b) == CallSteps(a) + CallSteps(b)
    decreases |b|
  {
    if b != [] {
      var b' := b[..|b| - 1];
      assert (a + b)[..|a + b| - 1] == a + b';
      CallStepsAppend(a, b');
    } else {
      assert a + b == a;
    }
  }

  /** The status last written after two stretches is that of the second, started from the first's. */
  lemma {:induction false} LastStatusAppend(initial: Status, a: seq<Event>, b: seq<Event>)
    ensures LastStatus(initial, a + b) == LastStatus(LastStatus(initial, a), b)
    decreases |b|
  {
    if b != [] {
      var b' := b[..|b| - 1];
      assert (a + b)[..|a + b| - 1] == a + b';
      LastStatusAppend(initial, a, b');
    } else {
      assert a + b == a;
    }
  }

  /** Two stretches write legally exactly when each does, the second starting where the first left off. */
  lemma {:induction false} LegalWritesAppend(initial: Status, a: seq<Event>, b: seq<Event>)
    ensures LegalWrites(initial, a + b) <==> LegalWrites(initial, a) && LegalWrites(LastStatus(initial, a), b)
    decreases |b|
  {
    if b != [] {
      var b' := b[..|b| - 1];
      assert (a + b)[..|a + b| - 1] == a + b';
      LegalWritesAppend(initial, a, b');
      LastStatusAppend(initial, a, b');
    } else {
      assert a + b == a;
    }
  }

  /** A stretch with no status write leaves the last status alone and writes legally. */
  lemma {:induction false} NoWrites(initial: Status, trace: seq<Event>)
    requires forall i :: 0 <= i < |trace| ==> !trace[i].StatusChanged?
    ensures LastStatus(initial, trace) == initial
    ensures LegalWrites(initial, trace)
    decreases |trace|
  {
    if trace != [] {
      NoWrites(initial, trace[..|trace| - 1]);
    }
  }
}
