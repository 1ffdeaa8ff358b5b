/**
 * What one `perform` call promises, stated about `Attempt` (and so, through
 * the contract of `Perform`, about the job itself).
 */
module JobProperties {
  import opened Environment
  import opened Effects
  import opened CreateRepositoryJob

  /** The GitHub id a failure hands to the delete: absent when the failure came before creation. */
  function IdToDelete(s: Step, w: World): Option<RepoId> {
    if s == VerifyCapacity || s == CreateRepository then None
    else if w.create.Created? then Some(w.create.id)
    else None
  }

  /** The record the job builds once the repository is created. */
  function BuiltRecord(u: User, w: World): Option<AssignmentRepo> {
    if w.create.Created? then Some(AssignmentRepo(w.create.id, u.id)) else None
  }

  /** The summary of a run of `plan` from the steps' point of view, given the trace `t` before it. */
  ghost predicate RunsThrough(o: StepsOutcome, t: seq<Event>, plan: seq<Step>, w: World, record: Option<AssignmentRepo>) {
    CallsRunThrough(o, t, plan, w) && EndsAsPlan(o, plan, w, record)
  }

  /** After the calls in `t`, the outcome's events call the steps of `plan` up to and including its first failure. */
  ghost predicate CallsRunThrough(o: StepsOutcome, t: seq<Event>, plan: seq<Step>, w: World) {
    CallSteps(o.events) == CallSteps(t) + RunThrough(plan, w)
  }

  /** The outcome succeeds with `record` exactly when no step of `plan` fails, and otherwise carries the first failure. */
  ghost predicate EndsAsPlan(o: StepsOutcome, plan: seq<Step>, w: World, record: Option<AssignmentRepo>) {
    && (o.Done? <==> FirstFailure(plan, w).None?)
    && (o.Done? ==> record == Some(o.record))
    && (o.Failed? ==>
          FirstFailure(plan, w).Some? &&
          Fails(FirstFailure(plan, w).value, w) &&
          o.message == FailureMessage(FirstFailure(plan, w).value, w) &&
          o.repoId == IdToDelete(FirstFailure(plan, w).value, w))
  }

  /** The plan holding only the save runs the save, and fails exactly when the save does. */
  lemma SavePlan(w: World)
    ensures RunThrough([Save], w) == [Save]
    ensures FirstFailure([Save], w) == if Fails(Save, w) then Some(Save) else None
  {
    assert [Save][1..] == [];
  }

  lemma SaveStepRuns(w: World, t: seq<Event>, record: AssignmentRepo)
    requires w.create.Created? && record.githubRepoId == w.create.id
    ensures RunsThrough(SaveStep(w, t, record), t, [Save], w, Some(record))
  {
    if w.save.RecordInvalid? {
      InvalidSaveRuns(w, t, record);
    } else {
      ValidSaveRuns(w, t, record);
    }
  }

  /** An invalid record: the save is called, the warning logged, and the failure is the save's. */
  lemma InvalidSaveRuns(w: World, t: seq<Event>, record: AssignmentRepo)
    requires w.create.Created? && record.githubRepoId == w.create.id && w.save.RecordInvalid?
    ensures RunsThrough(SaveStep(w, t, record), t, [Save], w, Some(record))
  {
    var t' := t + [CallSave(record)];
    var events := t' + [Warn(RecordInvalidLogged)];
    SavePlan(w);
    assert SaveStep(w, t, record) == Failed(events, Some(record.githubRepoId), DefaultErrorMessage);
    assert CallSteps(events) == CallSteps(t) + [Save] by {
      CallStepsSnoc(t, CallSave(record));
      CallStepsSnoc(t', Warn(RecordInvalidLogged));
      assert CallSteps(t') + [] == CallSteps(t');
    }
  }

  /** A valid record: the save is called and the steps end with it. */
  lemma ValidSaveRuns(w: World, t: seq<Event>, record: AssignmentRepo)
    requires w.create.Created? && record.githubRepoId == w.create.id && w.save.Saved?
    ensures RunsThrough(SaveStep(w, t, record), t, [Save], w, Some(record))
  {
    var t' := t + [CallSave(record)];
    SavePlan(w);
    assert SaveStep(w, t, record) == Done(t', record);
    assert CallSteps(t') == CallSteps(t) + [Save] by {
      CallStepsSnoc(t, CallSave(record));
    }
  }

  lemma StarterCodeStepRuns(w: World, t: seq<Event>, record: AssignmentRepo)
    requires w.create.Created? && record.githubRepoId == w.create.id
    ensures RunsThrough(StarterCodeStep(w, t, record), t, [PushStarterCode, Save], w, Some(record))
  {
    var t' := t + [CallPushStarterCode(record.githubRepoId)];
    assert [PushStarterCode, Save] == [PushStarterCode] + [Save];
    if w.pushStarterCode.Raised? {
      RunThroughCons(PushStarterCode, [Save], w);
      CallStepsSnoc(t, CallPushStarterCode(record.githubRepoId));
    } else {
      assert RunsThrough(SaveStep(w, t', record), t', [Save], w, Some(record)) by {
        SaveStepRuns(w, t', record);
      }
      assert StarterCodeStep(w, t, record) == SaveStep(w, t', record);
      RunsThroughAfter(SaveStep(w, t', record), t, CallPushStarterCode(record.githubRepoId), PushStarterCode, [Save], w, Some(record));
    }
  }

  /** The plan steps after the collaborator is added. */
  function PlanTail(starterCode: bool): seq<Step> {
    if starterCode then [PushStarterCode, Save] else [Save]
  }

  lemma CollaboratorStepRuns(a: Assignment, w: World, t: seq<Event>, record: AssignmentRepo)
    requires w.create.Created? && record.githubRepoId == w.create.id
    ensures RunsThrough(CollaboratorStep(a, w, t, record), t, [AddCollaborator] + PlanTail(a.starterCode), w, Some(record))
  {
    var t' := t + [CallAddCollaborator(record.githubRepoId)];
    var tail := PlanTail(a.starterCode);
    RunThroughCons(AddCollaborator, tail, w);
    CallStepsSnoc(t, CallAddCollaborator(record.githubRepoId));
    if !w.addCollaborator.Raised? {
      var inner := if a.starterCode then StarterCodeStep(w, t', record) else SaveStep(w, t', record);
      assert RunsThrough(inner, t', tail, w, Some(record)) by {
        if a.starterCode {
          StarterCodeStepRuns(w, t', record);
        } else {
          SaveStepRuns(w, t', record);
        }
      }
      assert CollaboratorStep(a, w, t, record) == inner;
      RunsThroughAfter(inner, t, CallAddCollaborator(record.githubRepoId), AddCollaborator, tail, w, Some(record));
    }
  }

  /** A succeeding step in front: its call comes first, and the rest of the summary carries over. */
  lemma RunsThroughAfter(o: StepsOutcome, t: seq<Event>, call: Event, step: Step, tail: seq<Step>, w: World,
                         record: Option<AssignmentRepo>)
    requires StepOf(call) == [step] && !Fails(step, w)
    requires RunsThrough(o, t + [call], tail, w, record)
    ensures RunsThrough(o, t, [step] + tail, w, record)
  {
    CallsAfter(o, t, call, step, tail, w);
    EndsAfter(o, step, tail, w, record);
  }

  lemma CallsAfter(o: StepsOutcome, t: seq<Event>, call: Event, step: Step, tail: seq<Step>, w: World)
    requires StepOf(call) == [step] && !Fails(step, w)
    requires CallsRunThrough(o, t + [call], tail, w)
    ensures CallsRunThrough(o, t, [step] + tail, w)
  {
    assert RunThrough([step] + tail, w) == [step] + RunThrough(tail, w) by {
      RunThroughCons(step, tail, w);
    }
    assert CallSteps(t + [call]) == CallSteps(t) + [step] by {
      CallStepsSnoc(t, call);
    }
    Regroup(CallSteps(o.events), CallSteps(t), step, RunThrough(tail, w), RunThrough([step] + tail, w));
  }

  lemma Regroup(x: seq<Step>, pre: seq<Step>, s: Step, rest: seq<Step>, full: seq<Step>)
    requires x == (pre + [s]) + rest && full == [s] + rest
    ensures x == pre + full
  {
  }

  lemma EndsAfter(o: StepsOutcome, step: Step, tail: seq<Step>, w: World, record: Option<AssignmentRepo>)
    requires !Fails(step, w)
    requires EndsAsPlan(o, tail, w, record)
    ensures EndsAsPlan(o, [step] + tail, w, record)
  {
    RunThroughCons(step, tail, w);
  }

  lemma CreateStepRuns(a: Assignment, u: User, w: World, t: seq<Event>)
    ensures RunsThrough(CreateStep(a, u, w, t), t, [CreateRepository] + ([AddCollaborator] + PlanTail(a.starterCode)), w, BuiltRecord(u, w))
  {
    var t' := t + [CallCreateRepository];
    var rest := [AddCollaborator] + PlanTail(a.starterCode);
    RunThroughCons(CreateRepository, rest, w);
    CallStepsSnoc(t, CallCreateRepository);
    if w.create.Created? {
      var record := AssignmentRepo(w.create.id, u.id);
      assert RunsThrough(CollaboratorStep(a, w, t', record), t', rest, w, Some(record)) by {
        CollaboratorStepRuns(a, w, t', record);
      }
      assert CreateStep(a, u, w, t) == CollaboratorStep(a, w, t', record);
      RunsThroughAfter(CollaboratorStep(a, w, t', record), t, CallCreateRepository, CreateRepository, rest, w, Some(record));
    }
  }

  /** The steps called are the plan run through its first failure; the failure's message is that step's. */
  lemma StepsRunThroughPlan(a: Assignment, u: User, w: World)
    ensures RunsThrough(Steps(a, u, w), [], Plan(a.starterCode), w, BuiltRecord(u, w))
  {
    var rest := [CreateRepository] + ([AddCollaborator] + PlanTail(a.starterCode));
    assert Plan(a.starterCode) == [VerifyCapacity] + rest;
    if w.capacity.Raised? {
      RunThroughCons(VerifyCapacity, rest, w);
      CallStepsSnoc([], CallVerifyCapacity);
    } else {
      assert RunsThrough(CreateStep(a, u, w, [CallVerifyCapacity]), [CallVerifyCapacity], rest, w, BuiltRecord(u, w)) by {
        CreateStepRuns(a, u, w, [CallVerifyCapacity]);
      }
      assert Steps(a, u, w) == CreateStep(a, u, w, [CallVerifyCapacity]);
      assert [] + [CallVerifyCapacity] == [CallVerifyCapacity];
      RunsThroughAfter(CreateStep(a, u, w, [CallVerifyCapacity]), [], CallVerifyCapacity, VerifyCapacity, rest, w, BuiltRecord(u, w));
    }
  }

  /** A single event calls its own step, if any. */
  lemma CallStepsSingle(e: Event)
    ensures CallSteps([e]) == StepOf(e)
  {
    assert [e][..0] == [];
  }

  /** The opening of an attempt calls no plan step. */
  lemma OpeningCallsNothing(u: User)
    ensures CallSteps(Opening(u)) == []
  {
    assert Opening(u) == [StatusChanged(CreatingRepo)] + [Broadcast(u.id, Progress(CreateRepo, CreatingRepo))];
    CallStepsSingle(StatusChanged(CreatingRepo));
    CallStepsSingle(Broadcast(u.id, Progress(CreateRepo, CreatingRepo)));
    CallStepsAppend([StatusChanged(CreatingRepo)], [Broadcast(u.id, Progress(CreateRepo, CreatingRepo))]);
  }

  /** A status other than `waiting` or `errored_creating_repo` makes the call a no-op, and only such a status does. */
  lemma GuardRefusesQuietly(found: Status, a: Assignment, u: User, retries: int, w: World)
    ensures !MayProvision(found) ==> Attempt(found, a, u, retries, w) == Outcome(found, [])
    ensures MayProvision(found) ==> Attempt(found, a, u, retries, w).trace != []
  {
  }

  /** Past the guard, the first effects are the `creating_repo` write and its broadcast, before any call. */
  lemma CreatingRepoComesFirst(found: Status, a: Assignment, u: User, retries: int, w: World)
    requires MayProvision(found)
    ensures var t := Attempt(found, a, u, retries, w).trace;
            |t| > 2 &&
            t[0] == StatusChanged(CreatingRepo) &&
            t[1] == Broadcast(u.id, Progress(CreateRepo, CreatingRepo)) &&
            CallSteps(t) == CallSteps(t[2..])
  {
    var steps := Steps(a, u, w);
    var o := Attempt(found, a, u, retries, w);
    var rest := steps.events + Close(a, u, retries, steps).trace;
    assert o.trace == Opening(u) + rest;
    assert o.trace[2..] == rest;
    CallStepsAppend(Opening(u), rest);
    OpeningCallsNothing(u);
  }

  /**
   * Past the guard, the Creator calls and the save follow the plan (verify
   * capacity, create, add collaborator, push starter code only with starter
   * code, save) and stop at the first one that raises.
   */
  lemma CallsFollowPlan(found: Status, a: Assignment, u: User, retries: int, w: World)
    requires MayProvision(found)
    ensures CallSteps(Attempt(found, a, u, retries, w).trace) == RunThrough(Plan(a.starterCode), w)
  {
    var steps := Steps(a, u, w);
    var o := Attempt(found, a, u, retries, w);
    var closing := Close(a, u, retries, steps).trace;
    StepsRunThroughPlan(a, u, w);
    CallStepsAppend(Opening(u), steps.events);
    CallStepsAppend(Opening(u) + steps.events, closing);
    OpeningCallsNothing(u);
    CloseShape(a, u, retries, steps);
    ClosingCallsNothing(closing);
  }

  /**
   * In every run, `add_user_to_repository!` and `push_starter_code!` are
   * called only once the repository exists, and always on the created
   * repository's id.
   */
  lemma CallsOnCreatedRepo(found: Status, a: Assignment, u: User, retries: int, w: World)
    ensures OnCreatedRepo(Attempt(found, a, u, retries, w).trace, w)
  {
    var o := Attempt(found, a, u, retries, w);
    if MayProvision(found) {
      var steps := Steps(a, u, w);
      var closing := Close(a, u, retries, steps).trace;
      StepsEvents(a, u, w);
      CloseShape(a, u, retries, steps);
      assert OnCreatedRepo(Opening(u), w);
      assert OnCreatedRepo(closing, w) by {
        forall i | 0 <= i < |closing|
          ensures !closing[i].CallAddCollaborator? && !closing[i].CallPushStarterCode?
        {
          assert StepOf(closing[i]) == [];
        }
      }
      OnCreatedRepoAppend(Opening(u), steps.events, w);
      OnCreatedRepoAppend(Opening(u) + steps.events, closing, w);
      assert o.trace == Opening(u) + steps.events + closing;
    }
  }

  lemma OnCreatedRepoAppend(t: seq<Event>, t': seq<Event>, w: World)
    requires OnCreatedRepo(t, w) && OnCreatedRepo(t', w)
    ensures OnCreatedRepo(t + t', w)
  {
    forall i | 0 <= i < |t + t'| && ((t + t')[i].CallAddCollaborator? || (t + t')[i].CallPushStarterCode?)
      ensures w.create.Created? && (t + t')[i].repo == w.create.id
    {
      if i >= |t| {
        assert (t + t')[i] == t'[i - |t|];
      }
    }
  }

  /** Every ending calls no plan step and writes exactly one status, other than `creating_repo`, third. */
  lemma CloseShape(a: Assignment, u: User, retries: int, steps: StepsOutcome)
    ensures var c := Close(a, u, retries, steps);
            c.status != CreatingRepo && |c.trace| > 2 && c.trace[2] == StatusChanged(c.status) &&
            (forall i :: 0 <= i < |c.trace| ==> StepOf(c.trace[i]) == []) &&
            (forall i :: 0 <= i < |c.trace| && i != 2 ==> !c.trace[i].StatusChanged?)
  {
    var c := Close(a, u, retries, steps);
    match steps
    case Done(_, record) =>
      if a.starterCode {
        assert c.trace == [Timing, Increment(CreateSuccess), StatusChanged(ImportingStarterCode),
                           Broadcast(u.id, Progress(ImportStarterCode, ImportingStarterCode)),
                           EnqueuePorterStatus(record, u.id)];
      } else {
        assert c.trace == [Timing, Increment(CreateSuccess), StatusChanged(Completed),
                           Broadcast(u.id, Progress(RepositoryCreationComplete, Completed))];
      }
    case Failed(_, repoId, m) =>
      if retries > 0 {
        assert c.trace == [CallDelete(repoId), Warn(ErrorLogged(m)), StatusChanged(Waiting),
                           EnqueueRetry(a.id, u.id, retries - 1)];
      } else {
        assert c.trace == [CallDelete(repoId), Warn(ErrorLogged(m)), StatusChanged(ErroredCreatingRepo),
                           Broadcast(u.id, Failure(m, ErroredCreatingRepo)), Increment(Classify(m))];
      }
  }

  /** The endings of an attempt call no plan step. */
  lemma {:induction false} ClosingCallsNothing(t: seq<Event>)
    requires forall i :: 0 <= i < |t| ==> StepOf(t[i]) == []
    ensures CallSteps(t) == []
    decreases |t|
  {
    if t != [] { ClosingCallsNothing(t[..|t| - 1]); }
  }

  /**
   * Every status write of an attempt takes a legal edge of the state machine,
   * and the final status is the last one written (the found one when none is).
   */
  lemma StatusWritesAreLegal(found: Status, a: Assignment, u: User, retries: int, w: World)
    ensures LegalWrites(found, Attempt(found, a, u, retries, w).trace)
    ensures LastStatus(found, Attempt(found, a, u, retries, w).trace) == Attempt(found, a, u, retries, w).status
  {
    var o := Attempt(found, a, u, retries, w);
    if MayProvision(found) {
      var steps := Steps(a, u, w);
      var closing := Close(a, u, retries, steps).trace;
      assert Opening(u) == [StatusChanged(CreatingRepo)] + [Broadcast(u.id, Progress(CreateRepo, CreatingRepo))];
      LastStatusAppend(found, [StatusChanged(CreatingRepo)], [Broadcast(u.id, Progress(CreateRepo, CreatingRepo))]);
      LegalWritesAppend(found, [StatusChanged(CreatingRepo)], [Broadcast(u.id, Progress(CreateRepo, CreatingRepo))]);
      assert LastStatus(found, Opening(u)) == CreatingRepo;
      assert LegalWrites(found, Opening(u));
      NoWrites(CreatingRepo, steps.events);
      LastStatusAppend(found, Opening(u), steps.events);
      LegalWritesAppend(found, Opening(u), steps.events);
      CloseShape(a, u, retries, steps);
      ClosingWrites(closing, 2, o.status);
      LastStatusAppend(found, Opening(u) + steps.events, closing);
      LegalWritesAppend(found, Opening(u) + steps.events, closing);
    }
  }

  /** An ending whose only status write, at index `k`, leaves `creating_repo` writes legally and leaves that status last. */
  lemma ClosingWrites(closing: seq<Event>, k: nat, to: Status)
    requires to != CreatingRepo
    requires k < |closing| && closing[k] == StatusChanged(to)
    requires forall i :: 0 <= i < |closing| && i != k ==> !closing[i].StatusChanged?
    ensures LegalWrites(CreatingRepo, closing)
    ensures LastStatus(CreatingRepo, closing) == to
  {
    var pre, mid, post := closing[..k], [closing[k]], closing[k + 1..];
    assert closing == pre + mid + post;
    assert LastStatus(CreatingRepo, pre) == CreatingRepo && LegalWrites(CreatingRepo, pre) by {
      NoWrites(CreatingRepo, pre);
    }
    assert LastStatus(to, post) == to && LegalWrites(to, post) by {
      forall i | 0 <= i < |post| ensures !post[i].StatusChanged? {
        assert post[i] == closing[k + 1 + i];
      }
      NoWrites(to, post);
    }
    assert LastStatus(CreatingRepo, pre + mid) == to && LegalWrites(CreatingRepo, pre + mid) by {
      LastStatusAppend(CreatingRepo, pre, mid);
      LegalWritesAppend(CreatingRepo, pre, mid);
      assert LastStatus(CreatingRepo, mid) == to;
      assert LegalWrites(CreatingRepo, mid) by {
        assert mid[..0] == [];
      }
    }
    LastStatusAppend(CreatingRepo, pre + mid, post);
    LegalWritesAppend(CreatingRepo, pre + mid, post);
  }

  /** Every collaborator and starter-code call in `t` is made on the repository the create call returned. */
  ghost predicate OnCreatedRepo(t: seq<Event>, w: World) {
    forall i :: 0 <= i < |t| && (t[i].CallAddCollaborator? || t[i].CallPushStarterCode?) ==>
      w.create.Created? && t[i].repo == w.create.id
  }

  /**
   * The steps contribute only their own calls and the validation warning, the
   * collaborator and starter-code calls go to the created repository, and a
   * successful run ends with the save of the record it built.
   */
  lemma StepsEvents(a: Assignment, u: User, w: World)
    ensures var o := Steps(a, u, w);
            (forall i :: 0 <= i < |o.events| ==> IsStepEvent(o.events[i])) &&
            OnCreatedRepo(o.events, w) &&
            (o.Done? ==> |o.events| > 0 && o.events[|o.events| - 1] == CallSave(o.record) &&
                         BuiltRecord(u, w) == Some(o.record))
  {
    var o := Steps(a, u, w);
    assert OnCreatedRepo(o.events, w) by {
      StepsOnCreatedRepo(a, u, w);
    }
    if w.capacity.Raised? {
      assert o.events == [CallVerifyCapacity];
    } else if w.create.CreateRaised? {
      assert o.events == [CallVerifyCapacity, CallCreateRepository];
    } else {
      var r := AssignmentRepo(w.create.id, u.id);
      var pre := [CallVerifyCapacity, CallCreateRepository, CallAddCollaborator(r.githubRepoId)];
      var t := if a.starterCode then pre + [CallPushStarterCode(r.githubRepoId)] else pre;
      assert forall i :: 0 <= i < |t| ==> IsStepEvent(t[i]);
      if w.addCollaborator.Raised? {
        assert o.events == pre;
      } else if a.starterCode && w.pushStarterCode.Raised? {
        assert o.events == t;
      } else {
        assert o == SaveStep(w, t, r);
        if w.save.RecordInvalid? {
          assert o.events == t + [CallSave(r), Warn(RecordInvalidLogged)];
        } else {
          assert o.events == t + [CallSave(r)];
        }
      }
    }
  }

  /** The collaborator and starter-code calls of the steps go to the created repository. */
  lemma StepsOnCreatedRepo(a: Assignment, u: User, w: World)
    ensures OnCreatedRepo(Steps(a, u, w).events, w)
  {
    if !w.capacity.Raised? {
      CreateStepOnCreatedRepo(a, u, w, [CallVerifyCapacity]);
    }
  }

  lemma CreateStepOnCreatedRepo(a: Assignment, u: User, w: World, t: seq<Event>)
    requires OnCreatedRepo(t, w)
    ensures OnCreatedRepo(CreateStep(a, u, w, t).events, w)
  {
    var t' := t + [CallCreateRepository];
    OnCreatedRepoAppend(t, [CallCreateRepository], w);
    if w.create.Created? {
      CollaboratorStepOnCreatedRepo(a, w, t', AssignmentRepo(w.create.id, u.id));
    }
  }

  lemma CollaboratorStepOnCreatedRepo(a: Assignment, w: World, t: seq<Event>, record: AssignmentRepo)
    requires w.create.Created? && record.githubRepoId == w.create.id
    requires OnCreatedRepo(t, w)
    ensures OnCreatedRepo(CollaboratorStep(a, w, t, record).events, w)
  {
    var t' := t + [CallAddCollaborator(record.githubRepoId)];
    OnCreatedRepoAppend(t, [CallAddCollaborator(record.githubRepoId)], w);
    if !w.addCollaborator.Raised? {
      if a.starterCode {
        StarterCodeStepOnCreatedRepo(w, t', record);
      } else {
        SaveStepOnCreatedRepo(w, t', record);
      }
    }
  }

  lemma StarterCodeStepOnCreatedRepo(w: World, t: seq<Event>, record: AssignmentRepo)
    requires w.create.Created? && record.githubRepoId == w.create.id
    requires OnCreatedRepo(t, w)
    ensures OnCreatedRepo(StarterCodeStep(w, t, record).events, w)
  {
    var t' := t + [CallPushStarterCode(record.githubRepoId)];
    OnCreatedRepoAppend(t, [CallPushStarterCode(record.githubRepoId)], w);
    if !w.pushStarterCode.Raised? {
      SaveStepOnCreatedRepo(w, t', record);
    }
  }

  lemma SaveStepOnCreatedRepo(w: World, t: seq<Event>, record: AssignmentRepo)
    requires OnCreatedRepo(t, w)
    ensures OnCreatedRepo(SaveStep(w, t, record).events, w)
  {
    var t' := t + [CallSave(record)];
    OnCreatedRepoAppend(t, [CallSave(record)], w);
    OnCreatedRepoAppend(t', [Warn(RecordInvalidLogged)], w);
  }

  /** The save is the first step to raise exactly when every Creator step succeeds and the record is invalid. */
  lemma SaveFailsFirst(a: Assignment, w: World)
    ensures FirstFailure(Plan(a.starterCode), w) == Some(Save) <==>
              !w.capacity.Raised? && w.create.Created? && !w.addCollaborator.Raised? &&
              !(a.starterCode && w.pushStarterCode.Raised?) && w.save.RecordInvalid?
  {
    PlanRun(a.starterCode, w);
  }

  /** The validation warning is logged once when the save is what raises, and otherwise never. */
  lemma ValidationWarning(a: Assignment, u: User, w: World)
    ensures Count(Steps(a, u, w).events, Warn(RecordInvalidLogged)) ==
              if FirstFailure(Plan(a.starterCode), w) == Some(Save) then 1 else 0
  {
    SaveFailsFirst(a, w);
    SaveWarning(a, u, w);
  }

  lemma SaveWarning(a: Assignment, u: User, w: World)
    ensures Count(Steps(a, u, w).events, Warn(RecordInvalidLogged)) ==
              if !w.capacity.Raised? && w.create.Created? && !w.addCollaborator.Raised? &&
                 !(a.starterCode && w.pushStarterCode.Raised?) && w.save.RecordInvalid? then 1 else 0
  {
    if !w.capacity.Raised? {
      CreateStepWarns(a, u, w, [CallVerifyCapacity]);
    }
  }

  lemma CreateStepWarns(a: Assignment, u: User, w: World, t: seq<Event>)
    ensures Count(CreateStep(a, u, w, t).events, Warn(RecordInvalidLogged)) ==
              Count(t, Warn(RecordInvalidLogged)) +
              if w.create.Created? && !w.addCollaborator.Raised? &&
                 !(a.starterCode && w.pushStarterCode.Raised?) && w.save.RecordInvalid? then 1 else 0
  {
    var t' := t + [CallCreateRepository];
    if w.create.Created? {
      CollaboratorStepWarns(a, w, t', AssignmentRepo(w.create.id, u.id));
    }
  }

  lemma CollaboratorStepWarns(a: Assignment, w: World, t: seq<Event>, record: AssignmentRepo)
    ensures Count(CollaboratorStep(a, w, t, record).events, Warn(RecordInvalidLogged)) ==
              Count(t, Warn(RecordInvalidLogged)) +
              if !w.addCollaborator.Raised? && !(a.starterCode && w.pushStarterCode.Raised?) && w.save.RecordInvalid?
              then 1 else 0
  {
    var t' := t + [CallAddCollaborator(record.githubRepoId)];
    if !w.addCollaborator.Raised? {
      if a.starterCode {
        StarterCodeStepWarns(w, t', record);
      } else {
        SaveStepWarns(w, t', record);
      }
    }
  }

  lemma StarterCodeStepWarns(w: World, t: seq<Event>, record: AssignmentRepo)
    ensures Count(StarterCodeStep(w, t, record).events, Warn(RecordInvalidLogged)) ==
              Count(t, Warn(RecordInvalidLogged)) + if !w.pushStarterCode.Raised? && w.save.RecordInvalid? then 1 else 0
  {
    if !w.pushStarterCode.Raised? {
      SaveStepWarns(w, t + [CallPushStarterCode(record.githubRepoId)], record);
    }
  }

  /** The save step logs the validation warning once when the record is invalid. */
  lemma SaveStepWarns(w: World, t: seq<Event>, record: AssignmentRepo)
    ensures Count(SaveStep(w, t, record).events, Warn(RecordInvalidLogged)) ==
              Count(t, Warn(RecordInvalidLogged)) + if w.save.RecordInvalid? then 1 else 0
  {
  }
}
