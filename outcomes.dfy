/**
 * How one `perform` call ends, stated about `Attempt`: the success branch
 * (metrics after the save, then the hand-off to the starter-code import or
 * completion), the rescue (delete what was created, log the error), and the
 * two ways the rescue goes on (re-enqueue while retries remain, otherwise the
 * errored status, the failure broadcast and exactly one classified counter).
 */
module Outcomes {
  import opened Environment
  import opened Effects
  import opened CreateRepositoryJob
  import opened JobProperties

  /** An event no Creator step or save contributes occurs in the steps' events not at all. */
  lemma {:induction false} AbsentFromSteps(events: seq<Event>, e: Event)
    requires forall i :: 0 <= i < |events| ==> IsStepEvent(events[i])
    requires !IsStepEvent(e)
    ensures Count(events, e) == 0
  {
    assert forall i :: 0 <= i < |events| ==> events[i] != e;
    assert e !in events;
  }

  /** How often `e` occurs in the opening: the `creating_repo` write and its broadcast, once each. */
  function OpeningTally(u: User, e: Event): nat {
    if e == StatusChanged(CreatingRepo) || e == Broadcast(u.id, Progress(CreateRepo, CreatingRepo)) then 1 else 0
  }

  /** The opening holds the `creating_repo` write and its broadcast, once each, and no other event. */
  lemma OpeningCounts(u: User, e: Event)
    ensures Count(Opening(u), e) == OpeningTally(u, e)
  {
  }

  /**
   * How the steps end: with the record built from the created repository when
   * nothing raises, and otherwise with the first failing step's message and
   * the id of whatever was created before it.
   */
  lemma StepsEnd(a: Assignment, u: User, w: World)
    ensures var o := Steps(a, u, w);
            var f := FirstFailure(Plan(a.starterCode), w);
            (o.Done? <==> f.None?) &&
            (o.Done? ==> w.create.Created? && o.record == AssignmentRepo(w.create.id, u.id)) &&
            (o.Failed? ==> Fails(f.value, w) && o.message == FailureMessage(f.value, w) && o.repoId == IdToDelete(f.value, w))
  {
    StepsRunThroughPlan(a, u, w);
    StepsEvents(a, u, w);
  }

  /** Every event that is neither a step call nor the validation warning occurs in `t` as often as in the opening and `closing` together. */
  ghost predicate SplitsAs(t: seq<Event>, u: User, closing: seq<Event>) {
    forall e :: !IsStepEvent(e) ==> Count(t, e) == Count(Opening(u), e) + Count(closing, e)
  }

  lemma AttemptSplits(found: Status, a: Assignment, u: User, retries: int, w: World)
    requires MayProvision(found)
    ensures SplitsAs(Attempt(found, a, u, retries, w).trace, u, Close(a, u, retries, Steps(a, u, w)).trace)
  {
    forall e | !IsStepEvent(e)
      ensures Count(Attempt(found, a, u, retries, w).trace, e) ==
                Count(Opening(u), e) + Count(Close(a, u, retries, Steps(a, u, w)).trace, e)
    {
      NonStepCount(found, a, u, retries, w, e);
    }
  }

  /**
   * Past the guard, an event that is neither a step call nor the validation
   * warning occurs in an attempt as often as in its opening and its ending together.
   */
  lemma NonStepCount(found: Status, a: Assignment, u: User, retries: int, w: World, e: Event)
    requires MayProvision(found)
    requires !IsStepEvent(e)
    ensures Count(Attempt(found, a, u, retries, w).trace, e) ==
              Count(Opening(u), e) + Count(Close(a, u, retries, Steps(a, u, w)).trace, e)
  {
    var steps := Steps(a, u, w);
    assert Attempt(found, a, u, retries, w).trace == Opening(u) + steps.events + Close(a, u, retries, steps).trace;
    StepsEvents(a, u, w);
    AbsentFromSteps(steps.events, e);
  }

  /**
   * When nothing raises: the repository was created; the timing sample and
   * the success counter are issued once each; with starter code the status
   * becomes `importing_starter_code`, the "Importing starter code" progress is
   * broadcast once and the porter status job for the saved record is enqueued once, and the invitation is never marked completed;
   * without it the status becomes `completed` with the completion broadcast
   * once and no porter job. Nothing is deleted, no failure is counted or
   * broadcast and nothing is re-enqueued.
   */
  lemma SuccessEnding(found: Status, a: Assignment, u: User, retries: int, w: World)
    requires MayProvision(found)
    requires FirstFailure(Plan(a.starterCode), w).None?
    ensures w.create.Created?
    ensures var o := Attempt(found, a, u, retries, w);
            var record := AssignmentRepo(w.create.id, u.id);
            Count(o.trace, Timing) == 1 &&
            Count(o.trace, Increment(CreateSuccess)) == 1 &&
            (a.starterCode ==>
               o.status == ImportingStarterCode &&
               Count(o.trace, Broadcast(u.id, Progress(ImportStarterCode, ImportingStarterCode))) == 1 &&
               Count(o.trace, EnqueuePorterStatus(record, u.id)) == 1 &&
               Count(o.trace, StatusChanged(Completed)) == 0) &&
            (!a.starterCode ==>
               o.status == Completed &&
               Count(o.trace, Broadcast(u.id, Progress(RepositoryCreationComplete, Completed))) == 1 &&
               (forall r, v :: Count(o.trace, EnqueuePorterStatus(r, v)) == 0)) &&
            (forall c: Counter :: c.IsFailure() ==> Count(o.trace, Increment(c)) == 0) &&
            (forall id :: Count(o.trace, CallDelete(id)) == 0) &&
            (forall x, y, n :: Count(o.trace, EnqueueRetry(x, y, n)) == 0) &&
            (forall ch, m, s :: Count(o.trace, Broadcast(ch, Failure(m, s))) == 0)
  {
    StepsEnd(a, u, w);
    var steps := Steps(a, u, w);
    AttemptFinishSplit(found, a, u, retries, w);
    SuccessCounts(Attempt(found, a, u, retries, w).trace, a, u, steps.record);
    SuccessQuiet(Attempt(found, a, u, retries, w).trace, a, u, steps.record);
    HandOffCounts(Attempt(found, a, u, retries, w).trace, a, u, steps.record);
  }

  /** The metrics and the absent rescue of the success branch, lifted to the whole trace. */
  lemma SuccessCounts(t: seq<Event>, a: Assignment, u: User, record: AssignmentRepo)
    requires FinishSplit(t, a, u, record)
    ensures Count(t, Timing) == 1 &&
            Count(t, Increment(CreateSuccess)) == 1 &&
            (forall c: Counter :: c.IsFailure() ==> Count(t, Increment(c)) == 0) &&
            (forall id :: Count(t, CallDelete(id)) == 0)
  {
  }

  /** The success branch neither re-enqueues nor broadcasts a failure, lifted to the whole trace. */
  lemma SuccessQuiet(t: seq<Event>, a: Assignment, u: User, record: AssignmentRepo)
    requires FinishSplit(t, a, u, record)
    ensures (forall x, y, n :: Count(t, EnqueueRetry(x, y, n)) == 0) &&
            (forall ch, m, s :: Count(t, Broadcast(ch, Failure(m, s))) == 0)
  {
  }

  /** The hand-off of the success branch, lifted to the whole trace. */
  lemma HandOffCounts(t: seq<Event>, a: Assignment, u: User, record: AssignmentRepo)
    requires FinishSplit(t, a, u, record)
    ensures a.starterCode ==>
              Count(t, Broadcast(u.id, Progress(ImportStarterCode, ImportingStarterCode))) == 1 &&
              Count(t, EnqueuePorterStatus(record, u.id)) == 1 &&
              Count(t, StatusChanged(Completed)) == 0
    ensures !a.starterCode ==>
              Count(t, Broadcast(u.id, Progress(RepositoryCreationComplete, Completed))) == 1 &&
              (forall r, v :: Count(t, EnqueuePorterStatus(r, v)) == 0)
  {
  }

  /**
   * When nothing raises, the record with the created repository's id is saved,
   * and right after the save come the timing sample and the success counter.
   */
  lemma SaveThenMetrics(found: Status, a: Assignment, u: User, retries: int, w: World)
    requires MayProvision(found)
    requires FirstFailure(Plan(a.starterCode), w).None?
    ensures w.create.Created?
    ensures var o := Attempt(found, a, u, retries, w);
            exists k :: 0 <= k < |o.trace| - 2 &&
                        o.trace[k] == CallSave(AssignmentRepo(w.create.id, u.id)) &&
                        o.trace[k + 1] == Timing && o.trace[k + 2] == Increment(CreateSuccess)
  {
    StepsEnd(a, u, w);
    StepsEvents(a, u, w);
    var steps := Steps(a, u, w);
    var o := Attempt(found, a, u, retries, w);
    var c := Finish(a, u, steps.record);
    assert Close(a, u, retries, steps) == c;
    assert o.trace == Opening(u) + steps.events + c.trace;
    var k := 2 + |steps.events| - 1;
    assert o.trace[k] == steps.events[|steps.events| - 1];
    assert o.trace[k + 1] == c.trace[0] && o.trace[k + 2] == c.trace[1];
  }

  /**
   * When some step raises: the delete is called once, with the GitHub id of
   * the record built so far (none before creation) and with no other
   * argument; the error is logged once; no success metric is issued and no
   * porter job is enqueued.
   */
  lemma FailureCleansUp(found: Status, a: Assignment, u: User, retries: int, w: World)
    requires MayProvision(found)
    requires FirstFailure(Plan(a.starterCode), w).Some?
    ensures Fails(FirstFailure(Plan(a.starterCode), w).value, w)
    ensures var s := FirstFailure(Plan(a.starterCode), w).value;
            var o := Attempt(found, a, u, retries, w);
            (forall id :: Count(o.trace, CallDelete(id)) == if id == IdToDelete(s, w) then 1 else 0) &&
            Count(o.trace, Warn(ErrorLogged(FailureMessage(s, w)))) == 1 &&
            Count(o.trace, Timing) == 0 &&
            Count(o.trace, Increment(CreateSuccess)) == 0 &&
            (forall r, v :: Count(o.trace, EnqueuePorterStatus(r, v)) == 0)
  {
    StepsEnd(a, u, w);
    var steps := Steps(a, u, w);
    AttemptRescueSplit(found, a, u, retries, w);
    CleanupCounts(Attempt(found, a, u, retries, w).trace, a, u, retries, steps.message, steps.repoId);
    RescueQuiet(Attempt(found, a, u, retries, w).trace, a, u, retries, steps.message, steps.repoId);
  }

  /** The delete of every rescue, lifted to the whole trace. */
  lemma CleanupCounts(t: seq<Event>, a: Assignment, u: User, retries: int, m: ErrorMessage, repoId: Option<RepoId>)
    requires RescueSplit(t, a, u, retries, m, repoId)
    ensures (forall id :: Count(t, CallDelete(id)) == if id == repoId then 1 else 0) &&
            Count(t, Warn(ErrorLogged(m))) == 1
  {
  }

  /** No rescue issues a success metric or enqueues the porter job, lifted to the whole trace. */
  lemma RescueQuiet(t: seq<Event>, a: Assignment, u: User, retries: int, m: ErrorMessage, repoId: Option<RepoId>)
    requires RescueSplit(t, a, u, retries, m, repoId)
    ensures Count(t, Timing) == 0 &&
            Count(t, Increment(CreateSuccess)) == 0 &&
            (forall r, v :: Count(t, EnqueuePorterStatus(r, v)) == 0)
  {
  }

  /** How often `e` occurs in the success branch: metrics, then the hand-off or the completion. */
  function FinishTally(a: Assignment, u: User, record: AssignmentRepo, e: Event): nat {
    (if e == Timing then 1 else 0) + (if e == Increment(CreateSuccess) then 1 else 0) +
    if a.starterCode then
      (if e == StatusChanged(ImportingStarterCode) then 1 else 0) +
      (if e == Broadcast(u.id, Progress(ImportStarterCode, ImportingStarterCode)) then 1 else 0) +
      (if e == EnqueuePorterStatus(record, u.id) then 1 else 0)
    else
      (if e == StatusChanged(Completed) then 1 else 0) +
      (if e == Broadcast(u.id, Progress(RepositoryCreationComplete, Completed)) then 1 else 0)
  }

  /** How often `e` occurs in a rescue: delete and log, then the retry or the give-up. */
  function RescueTally(a: Assignment, u: User, retries: int, m: ErrorMessage, repoId: Option<RepoId>, e: Event): nat {
    (if e == CallDelete(repoId) then 1 else 0) + (if e == Warn(ErrorLogged(m)) then 1 else 0) +
    if retries > 0 then
      (if e == StatusChanged(Waiting) then 1 else 0) + (if e == EnqueueRetry(a.id, u.id, retries - 1) then 1 else 0)
    else
      (if e == StatusChanged(ErroredCreatingRepo) then 1 else 0) +
      (if e == Broadcast(u.id, Failure(m, ErroredCreatingRepo)) then 1 else 0) +
      (if e == Increment(Classify(m)) then 1 else 0)
  }

  /** The success branch issues each event as often as its tally says. */
  lemma FinishCount(a: Assignment, u: User, record: AssignmentRepo, e: Event)
    ensures Count(Finish(a, u, record).trace, e) == FinishTally(a, u, record, e)
  {
    if a.starterCode {
      HandOffCount(a, u, record, e);
    } else {
      CompletionCount(a, u, record, e);
    }
  }

  /** The success branch with starter code holds the metrics, the import status, its broadcast and the porter job, once each. */
  lemma HandOffCount(a: Assignment, u: User, record: AssignmentRepo, e: Event)
    requires a.starterCode
    ensures Count(Finish(a, u, record).trace, e) ==
              (if e == Timing then 1 else 0) + (if e == Increment(CreateSuccess) then 1 else 0) +
              (if e == StatusChanged(ImportingStarterCode) then 1 else 0) +
              (if e == Broadcast(u.id, Progress(ImportStarterCode, ImportingStarterCode)) then 1 else 0) +
              (if e == EnqueuePorterStatus(record, u.id) then 1 else 0)
  {
  }

  /** The success branch without starter code holds the metrics, the completed status and its broadcast, once each. */
  lemma CompletionCount(a: Assignment, u: User, record: AssignmentRepo, e: Event)
    requires !a.starterCode
    ensures Count(Finish(a, u, record).trace, e) ==
              (if e == Timing then 1 else 0) + (if e == Increment(CreateSuccess) then 1 else 0) +
              (if e == StatusChanged(Completed) then 1 else 0) +
              (if e == Broadcast(u.id, Progress(RepositoryCreationComplete, Completed)) then 1 else 0)
  {
  }

  /** A rescue issues each event as often as its tally says. */
  lemma RescueCount(a: Assignment, u: User, retries: int, m: ErrorMessage, repoId: Option<RepoId>, e: Event)
    ensures Count(Rescue(a, u, retries, m, repoId).trace, e) == RescueTally(a, u, retries, m, repoId, e)
  {
    if retries > 0 {
      RetryRescueCount(a, u, retries, m, repoId, e);
    } else {
      GiveUpRescueCount(a, u, retries, Classify(m), m, repoId, e);
    }
  }

  /** A rescue with retries left holds the delete, the log line, the `waiting` write and the re-enqueue, once each. */
  lemma RetryRescueCount(a: Assignment, u: User, retries: int, m: ErrorMessage, repoId: Option<RepoId>, e: Event)
    requires retries > 0
    ensures Count(Rescue(a, u, retries, m, repoId).trace, e) ==
              (if e == CallDelete(repoId) then 1 else 0) + (if e == Warn(ErrorLogged(m)) then 1 else 0) +
              (if e == StatusChanged(Waiting) then 1 else 0) + (if e == EnqueueRetry(a.id, u.id, retries - 1) then 1 else 0)
  {
  }

  /**
   * A rescue without retries holds the delete, the log line, the errored
   * write, the failure broadcast and counter `c`, once each. `c` is
   * `Classify(m)`, passed separately to keep the proof cheap.
   */
  lemma GiveUpRescueCount(a: Assignment, u: User, retries: int, c: Counter, m: ErrorMessage, repoId: Option<RepoId>, e: Event)
    requires retries <= 0 && c == Classify(m)
    ensures Count(Rescue(a, u, retries, m, repoId).trace, e) ==
              (if e == CallDelete(repoId) then 1 else 0) + (if e == Warn(ErrorLogged(m)) then 1 else 0) +
              (if e == StatusChanged(ErroredCreatingRepo) then 1 else 0) +
              (if e == Broadcast(u.id, Failure(m, ErroredCreatingRepo)) then 1 else 0) +
              (if e == Increment(c) then 1 else 0)
  {
  }

  /** A trace split as an opening and a success branch, with each event outside the steps counted by the tallies. */
  ghost predicate FinishSplit(t: seq<Event>, a: Assignment, u: User, record: AssignmentRepo) {
    forall e :: !IsStepEvent(e) ==> Count(t, e) == OpeningTally(u, e) + FinishTally(a, u, record, e)
  }

  /** A trace split as an opening and a rescue, with each event outside the steps counted by the tallies. */
  ghost predicate RescueSplit(t: seq<Event>, a: Assignment, u: User, retries: int, m: ErrorMessage, repoId: Option<RepoId>) {
    forall e :: !IsStepEvent(e) ==> Count(t, e) == OpeningTally(u, e) + RescueTally(a, u, retries, m, repoId, e)
  }

  /** A successful attempt splits as its opening and its success branch. */
  lemma AttemptFinishSplit(found: Status, a: Assignment, u: User, retries: int, w: World)
    requires MayProvision(found)
    requires Steps(a, u, w).Done?
    ensures FinishSplit(Attempt(found, a, u, retries, w).trace, a, u, Steps(a, u, w).record)
  {
    AttemptSplits(found, a, u, retries, w);
    FinishSplits(Attempt(found, a, u, retries, w).trace, a, u, retries, Steps(a, u, w));
  }

  /** A failed attempt splits as its opening and its rescue. */
  lemma AttemptRescueSplit(found: Status, a: Assignment, u: User, retries: int, w: World)
    requires MayProvision(found)
    requires Steps(a, u, w).Failed?
    ensures var steps := Steps(a, u, w);
            RescueSplit(Attempt(found, a, u, retries, w).trace, a, u, retries, steps.message, steps.repoId)
  {
    AttemptSplits(found, a, u, retries, w);
    RescueSplits(Attempt(found, a, u, retries, w).trace, a, u, retries, Steps(a, u, w));
  }

  /** A trace counted by the opening's and the ending's tallies, whichever ending the steps lead to. */
  ghost predicate Tallied(t: seq<Event>, a: Assignment, u: User, retries: int, steps: StepsOutcome) {
    match steps
    case Done(_, record) => FinishSplit(t, a, u, record)
    case Failed(_, repoId, m) => RescueSplit(t, a, u, retries, m, repoId)
  }

  /** Every attempt past the guard is counted by its tallies. */
  lemma AttemptTallied(found: Status, a: Assignment, u: User, retries: int, w: World)
    requires MayProvision(found)
    ensures Tallied(Attempt(found, a, u, retries, w).trace, a, u, retries, Steps(a, u, w))
  {
    if Steps(a, u, w).Done? {
      AttemptFinishSplit(found, a, u, retries, w);
    } else {
      AttemptRescueSplit(found, a, u, retries, w);
    }
  }

  /** The counts of a split trace, once the ending is known to be the success branch. */
  lemma FinishSplits(t: seq<Event>, a: Assignment, u: User, retries: int, steps: StepsOutcome)
    requires steps.Done?
    requires SplitsAs(t, u, Close(a, u, retries, steps).trace)
    ensures FinishSplit(t, a, u, steps.record)
  {
    var c := Close(a, u, retries, steps).trace;
    assert c == Finish(a, u, steps.record).trace;
    forall e | !IsStepEvent(e) ensures Count(t, e) == OpeningTally(u, e) + FinishTally(a, u, steps.record, e) {
      FinishCount(a, u, steps.record, e);
      OpeningCounts(u, e);
    }
  }

  /** The counts of a split trace, once the ending is known to be a rescue. */
  lemma RescueSplits(t: seq<Event>, a: Assignment, u: User, retries: int, steps: StepsOutcome)
    requires steps.Failed?
    requires SplitsAs(t, u, Close(a, u, retries, steps).trace)
    ensures RescueSplit(t, a, u, retries, steps.message, steps.repoId)
  {
    var c := Close(a, u, retries, steps).trace;
    assert c == Rescue(a, u, retries, steps.message, steps.repoId).trace;
    forall e | !IsStepEvent(e) ensures Count(t, e) == OpeningTally(u, e) + RescueTally(a, u, retries, steps.message, steps.repoId, e) {
      RescueCount(a, u, retries, steps.message, steps.repoId, e);
      OpeningCounts(u, e);
    }
  }

  /**
   * When some step raises, the rescue follows every step call, in source
   * order: the delete, the error log line and the status write, then either
   * the re-enqueue, or the failure broadcast and the classified counter. The
   * delete and the `waiting` write thus come before the re-enqueue, and the
   * trace ends there.
   */
  lemma DeleteAfterCalls(found: Status, a: Assignment, u: User, retries: int, w: World)
    requires MayProvision(found)
    requires FirstFailure(Plan(a.starterCode), w).Some?
    ensures Fails(FirstFailure(Plan(a.starterCode), w).value, w)
    ensures var o := Attempt(found, a, u, retries, w);
            var f := FirstFailure(Plan(a.starterCode), w).value;
            RescueFollows(o, RunThrough(Plan(a.starterCode), w), a, u, retries, FailureMessage(f, w), IdToDelete(f, w))
  {
    StepsEnd(a, u, w);
    StepsRunThroughPlan(a, u, w);
    var steps := Steps(a, u, w);
    var o := Attempt(found, a, u, retries, w);
    var c := Rescue(a, u, retries, steps.message, steps.repoId);
    var pre := Opening(u) + steps.events;
    assert Close(a, u, retries, steps) == c;
    assert o == Outcome(c.status, pre + c.trace);
    assert CallSteps(pre) == RunThrough(Plan(a.starterCode), w) by {
      CallStepsAppend(Opening(u), steps.events);
      OpeningCallsNothing(u);
    }
    RescueOrder(pre, c, a, u, retries, steps.message, steps.repoId);
  }

  /**
   * The outcome `o` holds, right after a prefix that makes the step calls
   * `calls`, the rescue's effects in source order, and nothing after them.
   */
  ghost predicate RescueFollows(o: Outcome, calls: seq<Step>, a: Assignment, u: User, retries: int,
                                m: ErrorMessage, repoId: Option<RepoId>) {
    exists k :: RescueAt(o, k, calls, a, u, retries, m, repoId)
  }

  /** The rescue's effects start at index `k` of `o`'s trace, after the step calls `calls`. */
  ghost predicate RescueAt(o: Outcome, k: int, calls: seq<Step>, a: Assignment, u: User, retries: int,
                           m: ErrorMessage, repoId: Option<RepoId>) {
    0 <= k && k + 3 < |o.trace| &&
    CallSteps(o.trace[..k]) == calls &&
    o.trace[k] == CallDelete(repoId) &&
    o.trace[k + 1] == Warn(ErrorLogged(m)) &&
    o.trace[k + 2] == StatusChanged(o.status) &&
    (retries > 0 ==>
       |o.trace| == k + 4 && o.trace[k + 3] == EnqueueRetry(a.id, u.id, retries - 1)) &&
    (retries <= 0 ==>
       |o.trace| == k + 5 &&
       o.trace[k + 3] == Broadcast(u.id, Failure(m, ErroredCreatingRepo)) &&
       o.trace[k + 4] == Increment(Classify(m)))
  }

  /** Steps `pre` followed by the rescue `c` hold `c`'s effects in order right after `pre`. */
  lemma RescueOrder(pre: seq<Event>, c: Outcome, a: Assignment, u: User, retries: int, m: ErrorMessage, repoId: Option<RepoId>)
    requires c == Rescue(a, u, retries, m, repoId)
    ensures RescueFollows(Outcome(c.status, pre + c.trace), CallSteps(pre), a, u, retries, m, repoId)
  {
    var t := pre + c.trace;
    var k := |pre|;
    assert t[..k] == pre;
    assert forall i :: 0 <= i < |c.trace| ==> t[k + i] == c.trace[i];
    if retries > 0 {
      assert c.trace == [CallDelete(repoId), Warn(ErrorLogged(m)), StatusChanged(Waiting),
                         EnqueueRetry(a.id, u.id, retries - 1)];
    } else {
      assert c.trace == [CallDelete(repoId), Warn(ErrorLogged(m)), StatusChanged(ErroredCreatingRepo),
                         Broadcast(u.id, Failure(m, ErroredCreatingRepo)), Increment(Classify(m))];
    }
    assert t[k + 3] == c.trace[3];
    assert RescueAt(Outcome(c.status, t), k, CallSteps(pre), a, u, retries, m, repoId);
  }

  /**
   * When some step raises and retries remain: the invitation goes back to
   * `waiting` (so a later run provisions again), the job re-enqueues itself
   * once with one retry fewer and never otherwise, it is not marked errored,
   * nothing is counted and no failure is broadcast.
   */
  lemma RetryWithBudget(found: Status, a: Assignment, u: User, retries: int, w: World)
    requires MayProvision(found)
    requires FirstFailure(Plan(a.starterCode), w).Some?
    requires retries > 0
    ensures var o := Attempt(found, a, u, retries, w);
            o.status == Waiting && MayProvision(o.status) &&
            (forall x, y, n :: Count(o.trace, EnqueueRetry(x, y, n)) ==
                                 if x == a.id && y == u.id && n == retries - 1 then 1 else 0) &&
            Count(o.trace, StatusChanged(ErroredCreatingRepo)) == 0 &&
            (forall c: Counter :: Count(o.trace, Increment(c)) == 0) &&
            (forall ch, m, s :: Count(o.trace, Broadcast(ch, Failure(m, s))) == 0)
  {
    StepsEnd(a, u, w);
    var steps := Steps(a, u, w);
    AttemptRescueSplit(found, a, u, retries, w);
    RetryCounts(Attempt(found, a, u, retries, w).trace, a, u, retries, steps.message, steps.repoId);
  }

  /** The ending counts of a rescue that re-enqueues, lifted to the whole trace. */
  lemma RetryCounts(t: seq<Event>, a: Assignment, u: User, retries: int, m: ErrorMessage, repoId: Option<RepoId>)
    requires retries > 0
    requires RescueSplit(t, a, u, retries, m, repoId)
    ensures (forall x, y, n :: Count(t, EnqueueRetry(x, y, n)) ==
                                 if x == a.id && y == u.id && n == retries - 1 then 1 else 0) &&
            Count(t, StatusChanged(ErroredCreatingRepo)) == 0 &&
            (forall c: Counter :: Count(t, Increment(c)) == 0) &&
            (forall ch, m, s :: Count(t, Broadcast(ch, Failure(m, s))) == 0)
  {
  }

  /**
   * When some step raises and no retry remains: the invitation is marked
   * `errored_creating_repo`, the failure with its message is broadcast once to
   * the user and no other failure is, exactly the counter the message
   * classifies to is incremented, once, and the job does not re-enqueue.
   */
  lemma TerminalFailure(found: Status, a: Assignment, u: User, retries: int, w: World)
    requires MayProvision(found)
    requires FirstFailure(Plan(a.starterCode), w).Some?
    requires retries <= 0
    ensures Fails(FirstFailure(Plan(a.starterCode), w).value, w)
    ensures var m := FailureMessage(FirstFailure(Plan(a.starterCode), w).value, w);
            var o := Attempt(found, a, u, retries, w);
            o.status == ErroredCreatingRepo &&
            (forall ch, m', s :: Count(o.trace, Broadcast(ch, Failure(m', s))) ==
                                   if ch == u.id && m' == m && s == ErroredCreatingRepo then 1 else 0) &&
            (forall c: Counter :: Count(o.trace, Increment(c)) == if c == Classify(m) then 1 else 0) &&
            (forall x, y, n :: Count(o.trace, EnqueueRetry(x, y, n)) == 0)
  {
    StepsEnd(a, u, w);
    var steps := Steps(a, u, w);
    AttemptRescueSplit(found, a, u, retries, w);
    TerminalCounts(Attempt(found, a, u, retries, w).trace, a, u, retries, steps.message, steps.repoId);
    TerminalCounter(Attempt(found, a, u, retries, w).trace, a, u, retries, steps.message, steps.repoId);
  }

  /** The failure broadcast of a rescue that gives up, lifted to the whole trace. */
  lemma TerminalCounts(t: seq<Event>, a: Assignment, u: User, retries: int, m: ErrorMessage, repoId: Option<RepoId>)
    requires retries <= 0
    requires RescueSplit(t, a, u, retries, m, repoId)
    ensures (forall ch, m', s :: Count(t, Broadcast(ch, Failure(m', s))) ==
                                   if ch == u.id && m' == m && s == ErroredCreatingRepo then 1 else 0) &&
            (forall x, y, n :: Count(t, EnqueueRetry(x, y, n)) == 0)
  {
  }

  /** The one classified counter of a rescue that gives up, lifted to the whole trace. */
  lemma TerminalCounter(t: seq<Event>, a: Assignment, u: User, retries: int, m: ErrorMessage, repoId: Option<RepoId>)
    requires retries <= 0
    requires RescueSplit(t, a, u, retries, m, repoId)
    ensures forall c: Counter :: Count(t, Increment(c)) == if c == Classify(m) then 1 else 0
  {
  }

  /**
   * An invalid record is reported as an ordinary creation failure: the
   * validation error is logged once, the created repository is deleted, the
   * rescued error carries `DEFAULT_ERROR_MESSAGE` and, once retries are spent,
   * the generic failure counter is the one incremented.
   */
  lemma SaveFailureIsGeneric(found: Status, a: Assignment, u: User, retries: int, w: World)
    requires MayProvision(found)
    requires FirstFailure(Plan(a.starterCode), w) == Some(Save)
    ensures w.create.Created?
    ensures var o := Attempt(found, a, u, retries, w);
            Count(o.trace, Warn(RecordInvalidLogged)) == 1 &&
            Count(o.trace, Warn(ErrorLogged(DefaultErrorMessage))) == 1 &&
            Count(o.trace, CallDelete(Some(w.create.id))) == 1 &&
            (retries <= 0 ==> Count(o.trace, Increment(GenericFail)) == 1)
  {
    SaveFailureEnds(a, u, w);
    var steps := Steps(a, u, w);
    AttemptRescueSplit(found, a, u, retries, w);
    GenericCounts(Attempt(found, a, u, retries, w).trace, a, u, retries, steps.repoId);
    ValidationWarningOnce(found, a, u, retries, w);
  }

  /** A failing save ends the steps with `DEFAULT_ERROR_MESSAGE` and the created repository's id. */
  lemma SaveFailureEnds(a: Assignment, u: User, w: World)
    requires FirstFailure(Plan(a.starterCode), w) == Some(Save)
    ensures w.create.Created?
    ensures Steps(a, u, w) == Failed(Steps(a, u, w).events, Some(w.create.id), DefaultErrorMessage)
  {
    assert w.create.Created? by {
      SaveFailsFirst(a, w);
    }
    StepsEnd(a, u, w);
  }

  /** The rescue of `DEFAULT_ERROR_MESSAGE`, lifted to the whole trace. */
  lemma GenericCounts(t: seq<Event>, a: Assignment, u: User, retries: int, repoId: Option<RepoId>)
    requires RescueSplit(t, a, u, retries, DefaultErrorMessage, repoId)
    ensures Count(t, Warn(ErrorLogged(DefaultErrorMessage))) == 1
    ensures Count(t, CallDelete(repoId)) == 1
    ensures retries <= 0 ==> Count(t, Increment(GenericFail)) == 1
  {
  }

  /** The validation warning occurs in an attempt exactly when the save is what raises, and then once. */
  lemma ValidationWarningOnce(found: Status, a: Assignment, u: User, retries: int, w: World)
    requires MayProvision(found)
    ensures Count(Attempt(found, a, u, retries, w).trace, Warn(RecordInvalidLogged)) ==
              if FirstFailure(Plan(a.starterCode), w) == Some(Save) then 1 else 0
  {
    var steps := Steps(a, u, w);
    var c := Close(a, u, retries, steps).trace;
    var e := Warn(RecordInvalidLogged);
    assert Attempt(found, a, u, retries, w).trace == Opening(u) + steps.events + c;
    assert Count(Opening(u) + steps.events + c, e) == Count(Opening(u), e) + Count(steps.events, e) + Count(c, e);
    OpeningCounts(u, e);
    ValidationWarning(a, u, w);
    EndingWarnsNot(a, u, retries, steps);
  }

  /** No ending logs the validation warning. */
  lemma EndingWarnsNot(a: Assignment, u: User, retries: int, steps: StepsOutcome)
    ensures Count(Close(a, u, retries, steps).trace, Warn(RecordInvalidLogged)) == 0
  {
    var e := Warn(RecordInvalidLogged);
    match steps
    case Done(_, record) =>
      assert e !in Finish(a, u, record).trace;
    case Failed(_, repoId, m) =>
      assert e !in Rescue(a, u, retries, m, repoId).trace;
  }

  /**
   * The status an attempt past the guard leaves: `importing_starter_code` or
   * `completed` on success, depending on starter code; on failure `waiting`
   * while retries remain and `errored_creating_repo` once they are spent.
   */
  lemma FinalStatus(found: Status, a: Assignment, u: User, retries: int, w: World)
    requires MayProvision(found)
    ensures Attempt(found, a, u, retries, w).status ==
              if FirstFailure(Plan(a.starterCode), w).None? then
                (if a.starterCode then ImportingStarterCode else Completed)
              else if retries > 0 then Waiting
              else ErroredCreatingRepo
  {
    StepsEnd(a, u, w);
  }

  /**
   * After an attempt, a further run provisions again exactly when this one
   * failed; after a success every later run is a no-op.
   */
  lemma NextRun(found: Status, a: Assignment, u: User, retries: int, w: World, retries': int, w': World)
    requires MayProvision(found)
    ensures var o := Attempt(found, a, u, retries, w);
            (MayProvision(o.status) <==> FirstFailure(Plan(a.starterCode), w).Some?) &&
            (FirstFailure(Plan(a.starterCode), w).None? ==> Attempt(o.status, a, u, retries', w') == Outcome(o.status, []))
  {
    StepsEnd(a, u, w);
  }
}
