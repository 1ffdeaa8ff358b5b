/**
 * The chain of runs a failing job starts by re-enqueueing itself with one
 * retry fewer. Each run meets its own world (`worlds[i]` for the i-th run)
 * and finds the status the previous run left. The lemmas bound the number
 * of runs by the retry budget and show that the chain provisions at most
 * once and comes to rest in a final state once enough runs are available.
 */
module RetryChain {
  import opened Environment
  import opened Effects
  import opened CreateRepositoryJob
  import opened JobProperties
  import opened Outcomes

  /** The status the chain leaves, how many runs it made, and all their effects in order. */
  datatype Run = Run(status: Status, attempts: nat, trace: seq<Event>)

  /**
   * Run the job on `found`, then, as long as a run enqueues its retry and a
   * world is left for it, run the retry on the status left behind.
   */
  function Chain(found: Status, a: Assignment, u: User, retries: int, worlds: seq<World>): Run
    decreases |worlds|
  {
    if worlds == [] then Run(found, 0, [])
    else
      var o := Attempt(found, a, u, retries, worlds[0]);
      if EnqueueRetry(a.id, u.id, retries - 1) in o.trace then
        var rest := Chain(o.status, a, u, retries - 1, worlds[1..]);
        Run(rest.status, rest.attempts + 1, o.trace + rest.trace)
      else
        Run(o.status, 1, o.trace)
  }

  /** A run enqueues its retry exactly when it got past the guard, failed, and had retries left. */
  lemma RetryDecision(found: Status, a: Assignment, u: User, retries: int, w: World)
    ensures EnqueueRetry(a.id, u.id, retries - 1) in Attempt(found, a, u, retries, w).trace <==>
              MayProvision(found) && FirstFailure(Plan(a.starterCode), w).Some? && retries > 0
  {
    if MayProvision(found) {
      AttemptTallied(found, a, u, retries, w);
      EndingRetries(Attempt(found, a, u, retries, w).trace, a, u, retries, Steps(a, u, w));
      assert Steps(a, u, w).Failed? <==> FirstFailure(Plan(a.starterCode), w).Some? by {
        StepsEnd(a, u, w);
      }
    }
  }

  /** Only a rescue with retries left, lifted to the whole trace, enqueues the retry. */
  lemma EndingRetries(t: seq<Event>, a: Assignment, u: User, retries: int, steps: StepsOutcome)
    requires Tallied(t, a, u, retries, steps)
    ensures EnqueueRetry(a.id, u.id, retries - 1) in t <==> steps.Failed? && retries > 0
  {
    var e := EnqueueRetry(a.id, u.id, retries - 1);
    assert e in t <==> Count(t, e) > 0;
  }

  /** An attempt writes `errored_creating_repo` at most once, and increments the success counter at most once. */
  lemma AttemptWritesOnce(found: Status, a: Assignment, u: User, retries: int, w: World)
    ensures Count(Attempt(found, a, u, retries, w).trace, StatusChanged(ErroredCreatingRepo)) <= 1
    ensures Count(Attempt(found, a, u, retries, w).trace, Increment(CreateSuccess)) <= 1
  {
    if MayProvision(found) {
      AttemptTallied(found, a, u, retries, w);
      EndingWritesOnce(Attempt(found, a, u, retries, w).trace, a, u, retries, Steps(a, u, w));
    }
  }

  /** Every ending, lifted to the whole trace, writes the errored status and increments the success counter at most once. */
  lemma EndingWritesOnce(t: seq<Event>, a: Assignment, u: User, retries: int, steps: StepsOutcome)
    requires Tallied(t, a, u, retries, steps)
    ensures Count(t, StatusChanged(ErroredCreatingRepo)) <= 1
    ensures Count(t, Increment(CreateSuccess)) <= 1
  {
  }

  /** The chain makes at most one run more than its retry budget, and at most one run per world. */
  lemma {:induction false} ChainIsBounded(found: Status, a: Assignment, u: User, retries: int, worlds: seq<World>)
    ensures Chain(found, a, u, retries, worlds).attempts <= (if retries > 0 then retries else 0) + 1
    ensures Chain(found, a, u, retries, worlds).attempts <= |worlds|
    decreases |worlds|
  {
    if worlds != [] {
      var o := Attempt(found, a, u, retries, worlds[0]);
      RetryDecision(found, a, u, retries, worlds[0]);
      if EnqueueRetry(a.id, u.id, retries - 1) in o.trace {
        ChainIsBounded(o.status, a, u, retries - 1, worlds[1..]);
      }
    }
  }

  /**
   * Across the whole chain the success counter is incremented at most once
   * and the invitation is marked `errored_creating_repo` at most once: only
   * the last run can succeed or give up.
   */
  lemma {:induction false} ChainProvisionsOnce(found: Status, a: Assignment, u: User, retries: int, worlds: seq<World>)
    ensures Count(Chain(found, a, u, retries, worlds).trace, Increment(CreateSuccess)) <= 1
    ensures Count(Chain(found, a, u, retries, worlds).trace, StatusChanged(ErroredCreatingRepo)) <= 1
    decreases |worlds|
  {
    if worlds != [] {
      var w := worlds[0];
      var o := Attempt(found, a, u, retries, w);
      if EnqueueRetry(a.id, u.id, retries - 1) in o.trace {
        var rest := Chain(o.status, a, u, retries - 1, worlds[1..]).trace;
        assert Chain(found, a, u, retries, worlds).trace == o.trace + rest;
        assert Count(o.trace, Increment(CreateSuccess)) == 0 && Count(o.trace, StatusChanged(ErroredCreatingRepo)) == 0 by {
          RetryDecision(found, a, u, retries, w);
          RetriedRunIsQuiet(found, a, u, retries, w);
        }
        assert Count(rest, Increment(CreateSuccess)) <= 1 && Count(rest, StatusChanged(ErroredCreatingRepo)) <= 1 by {
          ChainProvisionsOnce(o.status, a, u, retries - 1, worlds[1..]);
        }
        assert Count(o.trace + rest, Increment(CreateSuccess)) ==
               Count(o.trace, Increment(CreateSuccess)) + Count(rest, Increment(CreateSuccess));
        assert Count(o.trace + rest, StatusChanged(ErroredCreatingRepo)) ==
               Count(o.trace, StatusChanged(ErroredCreatingRepo)) + Count(rest, StatusChanged(ErroredCreatingRepo));
      } else {
        AttemptWritesOnce(found, a, u, retries, w);
      }
    }
  }

  /** A run that retries neither succeeds nor gives up. */
  lemma RetriedRunIsQuiet(found: Status, a: Assignment, u: User, retries: int, w: World)
    requires MayProvision(found) && FirstFailure(Plan(a.starterCode), w).Some? && retries > 0
    ensures Count(Attempt(found, a, u, retries, w).trace, Increment(CreateSuccess)) == 0
    ensures Count(Attempt(found, a, u, retries, w).trace, StatusChanged(ErroredCreatingRepo)) == 0
  {
    var steps := Steps(a, u, w);
    var t := Attempt(found, a, u, retries, w).trace;
    StepsEnd(a, u, w);
    AttemptRescueSplit(found, a, u, retries, w);
    RetryCounts(t, a, u, retries, steps.message, steps.repoId);
    RescueQuiet(t, a, u, retries, steps.message, steps.repoId);
  }

  /**
   * A chain started on a provisionable invitation with a run available for
   * every retry comes to rest: imported, completed or errored, never left
   * waiting or creating.
   */
  lemma {:induction false} ChainSettles(found: Status, a: Assignment, u: User, retries: int, worlds: seq<World>)
    requires MayProvision(found)
    requires |worlds| > (if retries > 0 then retries else 0)
    ensures Chain(found, a, u, retries, worlds).status in {ImportingStarterCode, Completed, ErroredCreatingRepo}
    decreases |worlds|
  {
    var w := worlds[0];
    var o := Attempt(found, a, u, retries, w);
    assert EnqueueRetry(a.id, u.id, retries - 1) in o.trace <==>
             FirstFailure(Plan(a.starterCode), w).Some? && retries > 0 by {
      RetryDecision(found, a, u, retries, w);
    }
    FinalStatus(found, a, u, retries, w);
    if EnqueueRetry(a.id, u.id, retries - 1) in o.trace {
      ChainSettles(o.status, a, u, retries - 1, worlds[1..]);
    }
  }

  /**
   * When every run fails, the chain makes exactly one run more than its
   * (non-negative) budget and ends with the invitation errored.
   */
  lemma {:induction false} ExhaustedRetries(found: Status, a: Assignment, u: User, retries: int, worlds: seq<World>)
    requires MayProvision(found) && retries >= 0
    requires |worlds| > retries
    requires forall i :: 0 <= i < |worlds| ==> FirstFailure(Plan(a.starterCode), worlds[i]).Some?
    ensures Chain(found, a, u, retries, worlds).attempts == retries + 1
    ensures Chain(found, a, u, retries, worlds).status == ErroredCreatingRepo
    decreases |worlds|
  {
    var w := worlds[0];
    var o := Attempt(found, a, u, retries, w);
    RetryDecision(found, a, u, retries, w);
    FinalStatus(found, a, u, retries, w);
    if retries > 0 {
      assert forall i :: 0 <= i < |worlds[1..]| ==> worlds[1..][i] == worlds[i + 1];
      ExhaustedRetries(o.status, a, u, retries - 1, worlds[1..]);
    }
  }
}
