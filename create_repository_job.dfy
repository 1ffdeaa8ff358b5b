/**
 * `AssignmentRepo::CreateGitHubRepositoryJob#perform`: guard on the
 * invitation status, mark it `creating_repo`, run the Creator steps and the
 * save, then either finish (importing starter code or completed) or rescue
 * the `Creator::Result::Error`: delete what was created and either re-enqueue
 * with one retry fewer or mark the invitation errored and count the failure.
 *
 * `Attempt` is the specification of one `perform` call as a function of the
 * status it finds and of what the outside world does; `Perform` is the
 * imperative job, proved to produce exactly `Attempt`'s final status and
 * trace; the lemmas state what the job promises about `Attempt`.
 */
module CreateRepositoryJob {
  import opened Environment
  import opened Effects

  /** The invitation status record for (assignment, user); the job writes its `status` in place. */
  class InviteStatus {
    var status: Status

    constructor (initial: Status)
      ensures status == initial
    {
      status := initial;
    }

    /** The enum bang writers (`creating_repo!`, `waiting!`, ...): write a new status. */
    method Update(to: Status)
      modifies this
      ensures status == to
    {
      status := to;
    }
  }

  /** The statsd failure counter chosen by the `case` over the rescued error's message. */
  function Classify(m: ErrorMessage): (c: Counter)
    ensures c.IsFailure()
    ensures c == RepoFail <==> m == RepositoryCreationFailed
    ensures c == AddingCollaboratorFail <==> m == CollaboratorAdditionFailed
    ensures c == ImportingStarterCodeFail <==> m == StarterCodeImportFailed
    ensures c == GenericFail <==> m !in {RepositoryCreationFailed, CollaboratorAdditionFailed, StarterCodeImportFailed}
  {
    match m
    case RepositoryCreationFailed => RepoFail
    case CollaboratorAdditionFailed => AddingCollaboratorFail
    case StarterCodeImportFailed => ImportingStarterCodeFail
    case _ => GenericFail
  }

  /** How the Creator steps and the save end: with a saved record, or with an error. */
  datatype StepsOutcome =
    | Done(events: seq<Event>, record: AssignmentRepo)
    | Failed(events: seq<Event>, repoId: Option<RepoId>, message: ErrorMessage)

  /**
   * The Creator calls and the save, up to the first one that raises: first
   * `verify_organization_has_private_repos_available!`. `repoId` of a failure
   * is the GitHub id of the built record, absent before creation.
   */
  function Steps(a: Assignment, u: User, w: World): StepsOutcome {
    var t := [CallVerifyCapacity];
    if w.capacity.Raised? then Failed(t, None, w.capacity.message)
    else CreateStep(a, u, w, t)
  }

  /** `create_github_repository!`, whose id the built AssignmentRepo record holds. */
  function CreateStep(a: Assignment, u: User, w: World, t: seq<Event>): StepsOutcome {
    var t' := t + [CallCreateRepository];
    if w.create.CreateRaised? then Failed(t', None, w.create.message)
    else CollaboratorStep(a, w, t', AssignmentRepo(w.create.id, u.id))
  }

  /** `add_user_to_repository!`, then the push only when the assignment has starter code. */
  function CollaboratorStep(a: Assignment, w: World, t: seq<Event>, record: AssignmentRepo): StepsOutcome {
    var t' := t + [CallAddCollaborator(record.githubRepoId)];
    if w.addCollaborator.Raised? then Failed(t', Some(record.githubRepoId), w.addCollaborator.message)
    else if a.starterCode then StarterCodeStep(w, t', record)
    else SaveStep(w, t', record)
  }

  /** `push_starter_code!`. */
  function StarterCodeStep(w: World, t: seq<Event>, record: AssignmentRepo): StepsOutcome {
    var t' := t + [CallPushStarterCode(record.githubRepoId)];
    if w.pushStarterCode.Raised? then Failed(t', Some(record.githubRepoId), w.pushStarterCode.message)
    else SaveStep(w, t', record)
  }

  /** `save!`; a validation failure is logged and re-raised with `DEFAULT_ERROR_MESSAGE`. */
  function SaveStep(w: World, t: seq<Event>, record: AssignmentRepo): StepsOutcome {
    var t' := t + [CallSave(record)];
    if w.save.RecordInvalid? then
      Failed(t' + [Warn(RecordInvalidLogged)], Some(record.githubRepoId), DefaultErrorMessage)
    else
      Done(t', record)
  }

  /** Final status and effects of one `perform` call. */
  datatype Outcome = Outcome(status: Status, trace: seq<Event>)

  /** The success branch after the save: metrics, then hand-off or completion. */
  function Finish(a: Assignment, u: User, record: AssignmentRepo): Outcome {
    var metrics := [Timing, Increment(CreateSuccess)];
    if a.starterCode then
      Outcome(ImportingStarterCode,
              metrics + [StatusChanged(ImportingStarterCode),
                         Broadcast(u.id, Progress(ImportStarterCode, ImportingStarterCode)),
                         EnqueuePorterStatus(record, u.id)])
    else
      Outcome(Completed,
              metrics + [StatusChanged(Completed),
                         Broadcast(u.id, Progress(RepositoryCreationComplete, Completed))])
  }

  /** The rescue of a `Creator::Result::Error`: delete, log, then retry or give up. */
  function Rescue(a: Assignment, u: User, retries: int, m: ErrorMessage, repoId: Option<RepoId>): Outcome {
    var cleanup := [CallDelete(repoId), Warn(ErrorLogged(m))];
    if retries > 0 then
      Outcome(Waiting, cleanup + [StatusChanged(Waiting), EnqueueRetry(a.id, u.id, retries - 1)])
    else
      Outcome(ErroredCreatingRepo,
              cleanup + [StatusChanged(ErroredCreatingRepo),
                         Broadcast(u.id, Failure(m, ErroredCreatingRepo)),
                         Increment(Classify(m))])
  }

  /** The two events every attempt that passes the guard starts with. */
  function Opening(u: User): seq<Event> {
    [StatusChanged(CreatingRepo), Broadcast(u.id, Progress(CreateRepo, CreatingRepo))]
  }

  /** One `perform` call on an invitation found in status `found`. */
  function Attempt(found: Status, a: Assignment, u: User, retries: int, w: World): Outcome {
    if !MayProvision(found) then Outcome(found, [])
    else
      var steps := Steps(a, u, w);
      var closing := Close(a, u, retries, steps);
      Outcome(closing.status, Opening(u) + steps.events + closing.trace)
  }

  /** What follows the steps: the success branch, or the rescue of their error. */
  function Close(a: Assignment, u: User, retries: int, steps: StepsOutcome): Outcome {
    match steps
    case Done(_, record) => Finish(a, u, record)
    case Failed(_, repoId, m) => Rescue(a, u, retries, m, repoId)
  }

  /**
   * The job. `retries` defaults to 0, as in the job's signature. `world` says
   * what each external call does; `trace` is the sequence of effects issued,
   * in order.
   */
  method Perform(invite: InviteStatus, assignment: Assignment, user: User, retries: int := 0, world: World)
    returns (trace: seq<Event>)
    modifies invite
    ensures invite.status == Attempt(old(invite.status), assignment, user, retries, world).status
    ensures trace == Attempt(old(invite.status), assignment, user, retries, world).trace
  {
    trace := [];
    if !MayProvision(invite.status) {
      return;
    }
    invite.Update(CreatingRepo);
    trace := trace + [StatusChanged(invite.status)];
    trace := trace + [Broadcast(user.id, Progress(CreateRepo, invite.status))];

    assert trace == Opening(user);

    var steps := RunCreatorSteps(assignment, user, world);
    trace := trace + steps.events;
    match steps
    case Done(_, record) =>
      var effects := FinishCreation(invite, assignment, user, record);
      trace := trace + effects;
    case Failed(_, repoId, m) =>
      var effects := RescueCreatorError(invite, assignment, user, retries, m, repoId);
      trace := trace + effects;
  }

  /**
   * The Creator calls and the save, run until one raises: the events they
   * issue, and either the saved record or the rescued error together with
   * `assignment_repo.try(:github_repo_id)`. This is the statement form of
   * `Steps` and its step functions, proved equal to them.
   */
  method RunCreatorSteps(assignment: Assignment, user: User, world: World) returns (steps: StepsOutcome)
    ensures steps == Steps(assignment, user, world)
  {
    var events := [CallVerifyCapacity];
    if world.capacity.Raised? {
      return Failed(events, None, world.capacity.message);
    }
    events := events + [CallCreateRepository];
    if world.create.CreateRaised? {
      return Failed(events, None, world.create.message);
    }
    var record := AssignmentRepo(world.create.id, user.id);
    events := events + [CallAddCollaborator(record.githubRepoId)];
    if world.addCollaborator.Raised? {
      return Failed(events, Some(record.githubRepoId), world.addCollaborator.message);
    }
    if assignment.starterCode {
      events := events + [CallPushStarterCode(record.githubRepoId)];
      if world.pushStarterCode.Raised? {
        return Failed(events, Some(record.githubRepoId), world.pushStarterCode.message);
      }
    }
    events := events + [CallSave(record)];
    if world.save.RecordInvalid? {
      events := events + [Warn(RecordInvalidLogged)];
      return Failed(events, Some(record.githubRepoId), DefaultErrorMessage);
    }
    return Done(events, record);
  }

  /** The success branch after the save: timing and success metrics, then hand-off or completion. */
  method FinishCreation(invite: InviteStatus, assignment: Assignment, user: User, record: AssignmentRepo)
    returns (effects: seq<Event>)
    modifies invite
    ensures invite.status == Finish(assignment, user, record).status
    ensures effects == Finish(assignment, user, record).trace
  {
    effects := [Timing, Increment(CreateSuccess)];
    if assignment.starterCode {
      invite.Update(ImportingStarterCode);
      effects := effects + [StatusChanged(invite.status)];
      effects := effects + [Broadcast(user.id, Progress(ImportStarterCode, invite.status))];
      effects := effects + [EnqueuePorterStatus(record, user.id)];
    } else {
      invite.Update(Completed);
      effects := effects + [StatusChanged(invite.status)];
      effects := effects + [Broadcast(user.id, Progress(RepositoryCreationComplete, invite.status))];
    }
  }

  /** The `rescue Creator::Result::Error` clause of the job, run on error message `m`. */
  method RescueCreatorError(invite: InviteStatus, assignment: Assignment, user: User, retries: int,
                            m: ErrorMessage, repoId: Option<RepoId>)
    returns (effects: seq<Event>)
    modifies invite
    ensures invite.status == Rescue(assignment, user, retries, m, repoId).status
    ensures effects == Rescue(assignment, user, retries, m, repoId).trace
  {
    effects := [CallDelete(repoId), Warn(ErrorLogged(m))];
    if retries > 0 {
      invite.Update(Waiting);
      effects := effects + [StatusChanged(invite.status), EnqueueRetry(assignment.id, user.id, retries - 1)];
    } else {
      invite.Update(ErroredCreatingRepo);
      effects := effects + [StatusChanged(invite.status)];
      effects := effects + [Broadcast(user.id, Failure(m, invite.status))];
      effects := effects + [Increment(Classify(m))];
    }
  }
}
