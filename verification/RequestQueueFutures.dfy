/**
 * What the callers of the retrying request queue get (request_queue.py `RequestQueue`): the outcome of each future,
 * tasks that are kept until they have one, and the deadline that a new operation waits for.
 */
module RequestQueueFutures {
  import opened Prelude
  import opened Places
  import opened RequestQueue
  import opened RequestQueueSafety

  // ---- Outcomes ----

  predicate Ends(s: State, a: Action, id: nat) {
    Enabled(s, a) && a.EndOp? && s.workers[a.w].id == id
  }

  predicate Succeeds(s: State, a: Action, id: nat) {
    Ends(s, a, id) && a.outcome.Succeeded?
  }

  /** The operation has raised, or was rate-limited and was the last the task may start. */
  predicate Fails(s: State, a: Action, id: nat) {
    && Ends(s, a, id)
    && (a.outcome.Raised? || (a.outcome.RateLimited? && StartsOf(s.starts, id) >= s.maxAttempts[id]))
  }

  ghost predicate HasSucceeded(trace: seq<State>, actions: seq<Action>, i: nat, id: nat)
    requires |trace| == |actions| + 1
  {
    exists k | 0 <= k < |actions| && k < i :: Succeeds(trace[k], actions[k], id)
  }

  ghost predicate HasFailed(trace: seq<State>, actions: seq<Action>, i: nat, id: nat)
    requires |trace| == |actions| + 1
  {
    exists k | 0 <= k < |actions| && k < i :: Fails(trace[k], actions[k], id)
  }

  lemma PastNext(trace: seq<State>, actions: seq<Action>, i: nat, id: nat)
    requires |trace| == |actions| + 1 && i < |actions|
    ensures HasSucceeded(trace, actions, i + 1, id)
       <==> HasSucceeded(trace, actions, i, id) || Succeeds(trace[i], actions[i], id)
    ensures HasFailed(trace, actions, i + 1, id)
       <==> HasFailed(trace, actions, i, id) || Fails(trace[i], actions[i], id)
  {
  }

  /** The future tells how the task ended; a task that has ended is nowhere any more. */
  predicate FutureOk(s: State, id: nat, succeeded: bool, failed: bool) {
    && !(succeeded && failed)
    && (succeeded || failed ==> Ahead(s, id) + Running(s, id) == 0)
    && (id >= |s.futures| ==> !succeeded && !failed)
    && (id < |s.futures| && s.futures[id] != Cancelled ==>
          && (s.futures[id] == HasResult <==> succeeded)
          && (s.futures[id] == HasException <==> failed))
  }

  lemma FutureMoves(s: State, a: Action, id: nat)
    requires Enabled(s, a) && |s.attempts| == |s.futures| == |s.maxAttempts| && id < |s.futures|
    requires Tries(s, id) == StartsOf(s.starts, id)
    ensures id < |Next(s, a).futures|
    ensures Next(s, a).futures[id] ==
      if s.futures[id] != Pending then s.futures[id]
      else if Succeeds(s, a, id) then HasResult
      else if Fails(s, a, id) then HasException
      else if a == Cancel(id) then Cancelled
      else Pending
  {
  }

  lemma NewFuture(s: State, a: Action, id: nat)
    requires Enabled(s, a) && |s.attempts| == |s.futures| == |s.maxAttempts| && id >= |s.futures|
    ensures id < |Next(s, a).futures| ==> a.Enqueue? && Next(s, a).futures[id] == Pending
    ensures !Succeeds(s, a, id) && !Fails(s, a, id)
  {
  }

  lemma EndingsAreOfRunners(s: State, a: Action, id: nat)
    requires Inv(s) && Enabled(s, a) && (Succeeds(s, a, id) || Fails(s, a, id))
    ensures Running(s, id) == 1 && Ahead(s, id) == 0
    ensures Ahead(Next(s, a), id) + Running(Next(s, a), id) == 0
  {
    assert TaskOk(s, id);
    EndedTaskRuns(s, a.w);
    StepMoves(s, a, id);
  }

  lemma NowhereStaysNowhere(s: State, a: Action, id: nat)
    requires Inv(s) && Enabled(s, a) && id < |s.futures| && Ahead(s, id) + Running(s, id) == 0
    ensures Ahead(Next(s, a), id) + Running(Next(s, a), id) == 0
  {
    assert TaskOk(s, id);
    StepMoves(s, a, id);
  }

  lemma FutureKept(s: State, a: Action, id: nat, succeeded: bool, failed: bool)
    requires Inv(s) && Enabled(s, a) && FutureOk(s, id, succeeded, failed)
    ensures FutureOk(Next(s, a), id, succeeded || Succeeds(s, a, id), failed || Fails(s, a, id))
  {
    assert TaskOk(s, id);
    if id < |s.futures| {
      FutureMoves(s, a, id);
      if Succeeds(s, a, id) || Fails(s, a, id) {
        EndingsAreOfRunners(s, a, id);
      }
      if succeeded || failed {
        NowhereStaysNowhere(s, a, id);
      }
    } else {
      NewFuture(s, a, id);
    }
  }

  lemma {:induction false} ReachableFutures(trace: seq<State>, actions: seq<Action>, i: nat, id: nat)
    requires Run(trace, actions) && i < |trace|
    ensures FutureOk(trace[i], id, HasSucceeded(trace, actions, i, id), HasFailed(trace, actions, i, id))
  {
    if i > 0 {
      ReachableFutures(trace, actions, i - 1, id);
      ReachableInv(trace, actions, i - 1);
      PastNext(trace, actions, i - 1, id);
      FutureKept(trace[i - 1], actions[i - 1], id, HasSucceeded(trace, actions, i - 1, id),
                 HasFailed(trace, actions, i - 1, id));
    }
  }

  /**
   * The caller of a task that was not cancelled gets a result if and only if an operation of the task has succeeded,
   * and an exception if and only if one has raised or was rate-limited as the last that the task may start.
   */
  lemma FuturesTellTheOutcome(trace: seq<State>, actions: seq<Action>, i: nat, id: nat)
    requires Run(trace, actions) && i < |trace| && id < |trace[i].futures| && trace[i].futures[id] != Cancelled
    ensures trace[i].futures[id] == HasResult <==> HasSucceeded(trace, actions, i, id)
    ensures trace[i].futures[id] == HasException <==> HasFailed(trace, actions, i, id)
  {
    ReachableFutures(trace, actions, i, id);
  }

  /** A future that is settled or cancelled stays as it is; what is cancelled has been pending until then. */
  lemma {:induction false} FuturesSettleOnce(trace: seq<State>, actions: seq<Action>, i: nat, j: nat, id: nat)
    requires Run(trace, actions) && i <= j < |trace| && id < |trace[i].futures| && trace[i].futures[id] != Pending
    ensures id < |trace[j].futures| && trace[j].futures[id] == trace[i].futures[id]
    decreases j
  {
    if i < j {
      FuturesSettleOnce(trace, actions, i, j - 1, id);
      ReachableInv(trace, actions, j - 1);
      assert TaskOk(trace[j - 1], id);
      FutureMoves(trace[j - 1], actions[j - 1], id);
    }
  }

  // ---- Tasks are kept ----

  ghost predicate KeptOk(s: State) {
    !s.closed ==> forall id: nat | id < |s.futures| && s.futures[id] == Pending :: Ahead(s, id) + Running(s, id) == 1
  }

  lemma KeptNext(s: State, a: Action, id: nat)
    requires Inv(s) && Enabled(s, a) && !Next(s, a).closed
    requires id < |s.futures| && s.futures[id] == Pending ==> Ahead(s, id) + Running(s, id) == 1
    requires id < |Next(s, a).futures| && Next(s, a).futures[id] == Pending
    ensures Ahead(Next(s, a), id) + Running(Next(s, a), id) == 1
  {
    assert TaskOk(s, id);
    StepMoves(s, a, id);
    if id < |s.futures| {
      FutureMoves(s, a, id);
    } else {
      NewFuture(s, a, id);
    }
  }

  lemma {:induction false} ReachableKept(trace: seq<State>, actions: seq<Action>, i: nat)
    requires Run(trace, actions) && i < |trace|
    ensures KeptOk(trace[i])
  {
    if i > 0 {
      var s, a := trace[i - 1], actions[i - 1];
      ReachableKept(trace, actions, i - 1);
      ReachableInv(trace, actions, i - 1);
      forall id: nat | !trace[i].closed && id < |trace[i].futures| && trace[i].futures[id] == Pending
        ensures Ahead(trace[i], id) + Running(trace[i], id) == 1
      {
        KeptNext(s, a, id);
      }
    }
  }

  /**
   * While the queue is open, a task that was not cancelled has no outcome if and only if it is in exactly one place:
   * queued, delayed after a rate-limited answer, or with a worker. So no task is lost, and none runs on when settled.
   */
  lemma PendingTasksAreKept(trace: seq<State>, actions: seq<Action>, i: nat, id: nat)
    requires Run(trace, actions) && i < |trace| && !trace[i].closed
    requires id < |trace[i].futures| && trace[i].futures[id] != Cancelled
    ensures Ahead(trace[i], id) + Running(trace[i], id) == if trace[i].futures[id] == Pending then 1 else 0
  {
    ReachableKept(trace, actions, i);
    ReachableFutures(trace, actions, i, id);
  }

  // ---- Closing ----

  predicate Still(s: State) {
    s.closed && forall w | 0 <= w < |s.workers| :: s.workers[w].Stopped?
  }

  lemma StillStays(s: State, a: Action)
    requires Enabled(s, a) && (Still(s) || (a.Close? && !s.closed))
    ensures Still(Next(s, a)) && Next(s, a).starts == s.starts
    ensures |Next(s, a).futures| == |s.futures| && forall id | 0 <= id < |s.futures| ::
      Next(s, a).futures[id] == s.futures[id]
      || (s.futures[id] == Pending && Next(s, a).futures[id] == Cancelled && a == Cancel(id))
  {
  }

  /**
   * Once the queue is closed nothing starts any more, and no future is settled: what is pending stays so, unless its
   * caller cancels it.
   */
  lemma {:induction false} NothingRunsAfterClose(trace: seq<State>, actions: seq<Action>, i: nat, j: nat)
    requires Run(trace, actions) && i < j < |trace| && actions[i].Close? && !trace[i].closed
    ensures Still(trace[j]) && trace[j].starts == trace[i].starts
    ensures |trace[j].futures| == |trace[i].futures| && forall id | 0 <= id < |trace[i].futures| ::
      || trace[j].futures[id] == trace[i].futures[id]
      || (trace[i].futures[id] == Pending && trace[j].futures[id] == Cancelled)
    decreases j
  {
    if j > i + 1 {
      NothingRunsAfterClose(trace, actions, i, j - 1);
    }
    StillStays(trace[j - 1], actions[j - 1]);
  }

  // ---- The deadline ----

  predicate BacksOff(a: Action) {
    a.EndOp? && a.outcome.RateLimited?
  }

  /** The backoffs since the last success, oldest first. */
  function Recent(trace: seq<State>, actions: seq<Action>, i: nat): seq<Backoff>
    requires i < |trace| == |actions| + 1
  {
    if i == 0 then []
    else
      var a, before := actions[i - 1], Recent(trace, actions, i - 1);
      if a.EndOp? && a.outcome.Succeeded? then []
      else if BacksOff(a) && trace[i].backoffs != [] then before + [trace[i].backoffs[|trace[i].backoffs| - 1]]
      else before
  }

  /** When the last of the backoffs ends. */
  function LatestEnd(backoffs: seq<Backoff>): real {
    if backoffs == [] then 0.0
    else
      var b := backoffs[|backoffs| - 1];
      Max(LatestEnd(backoffs[..|backoffs| - 1]), b.time + b.delay)
  }

  lemma StepBacksOff(s: State, a: Action)
    requires Enabled(s, a)
    ensures if BacksOff(a) then
        var b := Backoff(s.clock, DelayFor(s, s.backoffAttempts + 1, a.outcome.header, a.outcome.jitter));
        && Next(s, a).backoffs == s.backoffs + [b] && Next(s, a).backoffAttempts == s.backoffAttempts + 1
        && Next(s, a).retryAfter == Max(s.retryAfter, b.time + b.delay)
      else if a.EndOp? && a.outcome.Succeeded? then
        Next(s, a).backoffAttempts == 0 && Next(s, a).retryAfter == 0.0
      else Next(s, a).backoffAttempts == s.backoffAttempts && Next(s, a).retryAfter == s.retryAfter
    ensures Next(s, a).clock >= s.clock
  {
  }

  lemma LatestEndNext(backoffs: seq<Backoff>, b: Backoff)
    ensures LatestEnd(backoffs + [b]) == Max(LatestEnd(backoffs), b.time + b.delay)
  {
    assert (backoffs + [b])[..|backoffs|] == backoffs;
  }

  lemma RecentNext(trace: seq<State>, actions: seq<Action>, i: nat)
    requires Run(trace, actions) && i < |actions|
    ensures var (a, before, after) := (actions[i], Recent(trace, actions, i), Recent(trace, actions, i + 1));
      if a.EndOp? && a.outcome.Succeeded? then after == []
      else if BacksOff(a) then
        var backoffs := trace[i + 1].backoffs;
        backoffs != [] && after == before + [backoffs[|backoffs| - 1]]
      else after == before
  {
    StepBacksOff(trace[i], actions[i]);
  }

  predicate DeadlineOk(s: State, recent: seq<Backoff>) {
    s.backoffAttempts == |recent| && s.retryAfter == LatestEnd(recent) && s.clock >= 0.0
  }

  lemma DeadlineNext(s: State, a: Action, later: State, before: seq<Backoff>, after: seq<Backoff>)
    requires Enabled(s, a) && later == Next(s, a) && DeadlineOk(s, before)
    requires if a.EndOp? && a.outcome.Succeeded? then after == []
      else if BacksOff(a) then later.backoffs != [] && after == before + [later.backoffs[|later.backoffs| - 1]]
      else after == before
    ensures DeadlineOk(later, after)
  {
    StepBacksOff(s, a);
    if BacksOff(a) {
      LatestEndNext(before, later.backoffs[|later.backoffs| - 1]);
    }
  }

  predicate DeadlineAt(trace: seq<State>, actions: seq<Action>, i: nat)
    requires i < |trace| == |actions| + 1
  {
    DeadlineOk(trace[i], Recent(trace, actions, i))
  }

  lemma DeadlineStep(trace: seq<State>, actions: seq<Action>, i: nat)
    requires Run(trace, actions) && 0 < i < |trace| && DeadlineAt(trace, actions, i - 1)
    ensures DeadlineAt(trace, actions, i)
  {
    RecentNext(trace, actions, i - 1);
    DeadlineNext(trace[i - 1], actions[i - 1], trace[i], Recent(trace, actions, i - 1), Recent(trace, actions, i));
  }

  lemma DeadlineAtStart(trace: seq<State>, actions: seq<Action>)
    requires Run(trace, actions)
    ensures DeadlineAt(trace, actions, 0)
  {
  }

  lemma {:induction false} DeadlineIsTheLatest(trace: seq<State>, actions: seq<Action>, i: nat)
    requires Run(trace, actions) && i < |trace|
    ensures DeadlineAt(trace, actions, i)
  {
    if i > 0 {
      DeadlineIsTheLatest(trace, actions, i - 1);
      DeadlineStep(trace, actions, i);
    } else {
      DeadlineAtStart(trace, actions);
    }
  }

  /**
   * For any number of workers: the delay of a backoff is that of its place among those since the last success; and
   * a worker takes the oldest task of the queue and waits until the last of these backoffs ends, no longer.
   */
  lemma TakersWaitForTheLatest(trace: seq<State>, actions: seq<Action>, i: nat)
    requires Run(trace, actions) && i < |actions|
    ensures var (s, a, recent) := (trace[i], actions[i], Recent(trace, actions, i));
      && (BacksOff(a) ==>
            Recent(trace, actions, i + 1) ==
              recent + [Backoff(s.clock, DelayFor(s, |recent| + 1, a.outcome.header, a.outcome.jitter))])
      && (a.Take? ==>
            && trace[i + 1].workers[a.w] == Respecting(s.queue[0], Max(s.clock, LatestEnd(recent)))
            && trace[i + 1].queue == s.queue[1..])
  {
    DeadlineIsTheLatest(trace, actions, i);
    RecentNext(trace, actions, i);
    StepBacksOff(trace[i], actions[i]);
  }
}
