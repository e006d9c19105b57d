/**
 * What the callers of the rate-limited queue get (request_queue.py `RateLimitedRequestQueue`): the outcome of each
 * future, the attempt that a request is at, and that a cancelled request is not called any more.
 */
module RateLimitedFutures {
  import opened Prelude
  import opened Places
  import opened RateLimitedQueue
  import opened RateLimitedSafety

  // ---- Outcomes ----

  predicate Returns(s: State, a: Action, id: nat, outcome: Outcome) {
    Enabled(s, a) && a.Finish? && s.workers[a.w].id == id && a.outcome == outcome
  }

  /** Some call of the request has had the outcome. */
  ghost predicate HasReturned(trace: seq<State>, actions: seq<Action>, i: nat, id: nat, outcome: Outcome)
    requires |trace| == |actions| + 1
  {
    exists k | 0 <= k < |actions| && k < i :: Returns(trace[k], actions[k], id, outcome)
  }

  lemma ReturnedNext(trace: seq<State>, actions: seq<Action>, i: nat, id: nat, outcome: Outcome)
    requires |trace| == |actions| + 1 && i < |actions|
    ensures HasReturned(trace, actions, i + 1, id, outcome)
       <==> HasReturned(trace, actions, i, id, outcome) || Returns(trace[i], actions[i], id, outcome)
  {
  }

  /** The future tells how the request ended; a request that has ended is nowhere any more. */
  predicate FutureOk(s: State, id: nat, succeeded: bool, raised: bool) {
    && !(succeeded && raised)
    && (succeeded || raised ==> id in s.futures && PlacesOf(s, id) == 0)
    && (id in s.futures && s.futures[id] != Cancelled ==>
          && (s.futures[id] == HasResult <==> succeeded)
          && (s.futures[id] == HasException <==> raised))
  }

  /** What becomes of a request's future in one step. */
  predicate FutureMoved(s: State, a: Action, later: State, id: nat)
    requires id in s.futures
  {
    && id in later.futures
    && later.futures[id] ==
       if s.futures[id] != Pending then s.futures[id]
       else if Returns(s, a, id, Succeeded) then HasResult
       else if Returns(s, a, id, Raised) then HasException
       else if a == Cancel(id) then Cancelled
       else Pending
  }

  lemma FinishMovesFuture(s: State, a: Action, later: State, id: nat)
    requires Enabled(s, a) && a.Finish? && id in s.futures && later == Next(s, a)
    ensures FutureMoved(s, a, later, id)
  {
    FinishMovesCount(s, a, later);
  }

  lemma OthersMoveFuture(s: State, a: Action, later: State, id: nat)
    requires Enabled(s, a) && !a.Finish? && id in s.futures && later == Next(s, a)
    ensures FutureMoved(s, a, later, id)
  {
  }

  lemma FutureMoves(s: State, a: Action, id: nat)
    requires Enabled(s, a) && id in s.futures
    ensures FutureMoved(s, a, Next(s, a), id)
  {
    if a.Finish? {
      FinishMovesFuture(s, a, Next(s, a), id);
    } else {
      OthersMoveFuture(s, a, Next(s, a), id);
    }
  }

  lemma NewFuture(s: State, a: Action, id: nat)
    requires Enabled(s, a) && id !in s.futures
    ensures id in Next(s, a).futures ==> a.Enqueue? && a.id == id && Next(s, a).futures[id] == Pending
    ensures forall outcome :: !Returns(s, a, id, outcome)
  {
  }

  lemma CallersAreAlone(s: State, w: nat, id: nat)
    requires PlaceOk(s, id) && w < |s.workers| && s.workers[w].Calling? && s.workers[w].id == id
    ensures id in s.futures && PlacesOf(s, id) == 1
  {
    WorkersRequestIsPlaced(s, w);
  }

  lemma FutureKept(s: State, a: Action, id: nat, succeeded: bool, raised: bool)
    requires PlaceOk(s, id) && Enabled(s, a) && FutureOk(s, id, succeeded, raised)
    ensures FutureOk(Next(s, a), id, succeeded || Returns(s, a, id, Succeeded), raised || Returns(s, a, id, Raised))
  {
    StepMovesPlaces(s, a, id);
    if id in s.futures {
      FutureMoves(s, a, id);
      if Returns(s, a, id, Succeeded) || Returns(s, a, id, Raised) {
        CallersAreAlone(s, a.w, id);
      }
    } else {
      NewFuture(s, a, id);
    }
  }

  lemma {:induction false} ReachableFutures(trace: seq<State>, actions: seq<Action>, i: nat, id: nat)
    requires Run(trace, actions) && i < |trace|
    ensures FutureOk(trace[i], id, HasReturned(trace, actions, i, id, Succeeded),
                     HasReturned(trace, actions, i, id, Raised))
  {
    if i > 0 {
      ReachableFutures(trace, actions, i - 1, id);
      ReachableInv(trace, actions, i - 1);
      ReturnedNext(trace, actions, i - 1, id, Succeeded);
      ReturnedNext(trace, actions, i - 1, id, Raised);
      assert PlaceOk(trace[i - 1], id);
      FutureKept(trace[i - 1], actions[i - 1], id, HasReturned(trace, actions, i - 1, id, Succeeded),
                 HasReturned(trace, actions, i - 1, id, Raised));
    }
  }

  /**
   * The caller of a request that was not cancelled gets a result if and only if a call has succeeded, an exception
   * if and only if one has raised; and until then the request is in exactly one place, and afterwards in none.
   */
  lemma FuturesTellTheOutcome(trace: seq<State>, actions: seq<Action>, i: nat, id: nat)
    requires Run(trace, actions) && i < |trace| && id in trace[i].futures && trace[i].futures[id] != Cancelled
    ensures trace[i].futures[id] == HasResult <==> HasReturned(trace, actions, i, id, Succeeded)
    ensures trace[i].futures[id] == HasException <==> HasReturned(trace, actions, i, id, Raised)
    ensures PlacesOf(trace[i], id) == if trace[i].futures[id] == Pending then 1 else 0
  {
    ReachableFutures(trace, actions, i, id);
    ReachableInv(trace, actions, i);
    assert PlaceOk(trace[i], id);
  }

  // ---- Cancellation ----

  predicate WithWorker(s: State, id: nat) {
    exists w | 0 <= w < |s.workers| :: WorkerLoad(s.workers[w]) == Some(id)
  }

  lemma CancelledStaysAway(s: State, a: Action, id: nat)
    requires Enabled(s, a) && id in s.futures && s.futures[id] == Cancelled && !WithWorker(s, id)
    ensures id in Next(s, a).futures && Next(s, a).futures[id] == Cancelled && !WithWorker(Next(s, a), id)
  {
    FutureMoves(s, a, id);
    forall w | 0 <= w < |Next(s, a).workers| ensures WorkerLoad(Next(s, a).workers[w]) != Some(id) {
      if w < |s.workers| {
        assert WorkerLoad(s.workers[w]) != Some(id);
      }
    }
  }

  /** A request cancelled while no worker has it, queued or asleep, is never called again. */
  lemma {:induction false} CancelledIsNotCalled(
    trace: seq<State>, actions: seq<Action>, i: nat, j: nat, id: nat)
    requires Run(trace, actions) && i <= j < |trace| && id in trace[i].futures && trace[i].futures[id] == Cancelled
    requires !WithWorker(trace[i], id)
    ensures id in trace[j].futures && trace[j].futures[id] == Cancelled && !WithWorker(trace[j], id)
    decreases j
  {
    if i < j {
      CancelledIsNotCalled(trace, actions, i, j - 1, id);
      CancelledStaysAway(trace[j - 1], actions[j - 1], id);
    }
  }

  // ---- Attempts ----

  /** How many rate-limited outcomes the request has had. */
  function Limits(trace: seq<State>, actions: seq<Action>, i: nat, id: nat): nat
    requires i < |trace| == |actions| + 1
  {
    if i == 0 then 0
    else
      Limits(trace, actions, i - 1, id) + if Returns(trace[i - 1], actions[i - 1], id, RateLimited) then 1 else 0
  }

  /** Wherever the request is, its attempt is the number of its rate-limited outcomes. */
  ghost predicate AttemptsAre(s: State, id: nat, n: nat) {
    && (forall k | 0 <= k < |s.queue| && s.queue[k].Request? && s.queue[k].id == id :: s.queue[k].attempt == n)
    && (forall w | 0 <= w < |s.workers| && WorkerLoad(s.workers[w]) == Some(id) :: s.workers[w].attempt == n)
    && (forall k | 0 <= k < |s.delayed| && s.delayed[k].0 == id :: s.delayed[k].1 + 1 == n)
    && (id !in s.futures ==> n == 0)
  }

  lemma NowhereMeansNowhere(s: State, id: nat)
    requires PlacesOf(s, id) == 0
    ensures forall k | 0 <= k < |s.queue| :: ItemLoad(s.queue[k]) != Some(id)
    ensures forall w | 0 <= w < |s.workers| :: WorkerLoad(s.workers[w]) != Some(id)
    ensures forall k | 0 <= k < |s.delayed| :: s.delayed[k].0 != id
  {
    CountPositive(QueueLoads(s.queue), id);
    CountPositive(WorkerLoads(s.workers), id);
    CountPositive(DelayedLoads(s.delayed), id);
    assert forall k | 0 <= k < |s.queue| :: QueueLoads(s.queue)[k] == ItemLoad(s.queue[k]);
    assert forall w | 0 <= w < |s.workers| :: WorkerLoads(s.workers)[w] == WorkerLoad(s.workers[w]);
    assert forall k | 0 <= k < |s.delayed| :: DelayedLoads(s.delayed)[k] == Some(s.delayed[k].0);
  }

  lemma LimitedMovesOn(s: State, w: nat, id: nat, n: nat, later: State)
    requires Returns(s, Finish(w, RateLimited), id, RateLimited) && later == Next(s, Finish(w, RateLimited))
    requires PlaceOk(s, id) && AttemptsAre(s, id, n)
    ensures AttemptsAre(later, id, n + 1)
  {
    CallersAreAlone(s, w, id);
    var without := Goto(s, w, Idle);
    WorkerMoves(s.workers, w, Idle, id);
    NowhereMeansNowhere(without, id);
  }

  lemma RestKeepsAttempts(s: State, id: nat, n: nat)
    requires s.queue != [] && AttemptsAre(s, id, n)
    ensures AttemptsAre(s.(queue := s.queue[1..]), id, n)
    ensures s.queue[0].Request? && s.queue[0].id == id ==> s.queue[0].attempt == n
  {
    assert forall k | 0 <= k < |s.queue| - 1 :: s.queue[1..][k] == s.queue[k + 1];
  }

  lemma TakeKeepsAttempts(s: State, w: nat, id: nat, n: nat, later: State)
    requires Enabled(s, Take(w)) && AttemptsAre(s, id, n) && later == Next(s, Take(w))
    ensures AttemptsAre(later, id, n)
  {
    RestKeepsAttempts(s, id, n);
    var rest := s.(queue := s.queue[1..]);
    assert later == rest || later == rest.(workers := rest.workers[w := later.workers[w]]);
  }

  lemma EnqueueKeepsAttempts(s: State, a: Action, id: nat, n: nat, later: State)
    requires Enabled(s, a) && a.Enqueue? && PlaceOk(s, id) && AttemptsAre(s, id, n) && later == Next(s, a)
    ensures AttemptsAre(later, id, n)
  {
    if id !in s.futures {
      NowhereMeansNowhere(s, id);
    }
  }

  lemma RequeueKeepsAttempts(s: State, k: nat, id: nat, n: nat, later: State)
    requires Enabled(s, Requeue(k)) && AttemptsAre(s, id, n) && later == Next(s, Requeue(k))
    ensures AttemptsAre(later, id, n)
  {
  }

  lemma AcquireKeepsAttempts(s: State, w: nat, id: nat, n: nat, later: State)
    requires Enabled(s, Acquire(w)) && AttemptsAre(s, id, n) && later == Next(s, Acquire(w))
    ensures AttemptsAre(later, id, n)
  {
    assert later.queue == s.queue && later.delayed == s.delayed && later.futures == s.futures;
    assert WorkerLoad(s.workers[w]) == Some(s.workers[w].id);
  }

  lemma FinishKeepsAttempts(s: State, a: Action, id: nat, n: nat, later: State)
    requires Enabled(s, a) && a.Finish? && AttemptsAre(s, id, n) && later == Next(s, a)
    requires !Returns(s, a, id, RateLimited)
    ensures AttemptsAre(later, id, n)
  {
    assert later.queue == s.queue && later.workers == s.workers[a.w := Idle];
    assert later.futures.Keys == s.futures.Keys;
  }

  lemma OthersKeepAttempts(s: State, a: Action, id: nat, n: nat, later: State)
    requires Enabled(s, a) && (a.Start? || a.Cancel? || a.Close?) && AttemptsAre(s, id, n) && later == Next(s, a)
    ensures AttemptsAre(later, id, n)
  {
    assert later.delayed == s.delayed && later.futures.Keys == s.futures.Keys;
  }

  lemma AttemptsNext(s: State, a: Action, id: nat, n: nat, later: State)
    requires Enabled(s, a) && PlaceOk(s, id) && AttemptsAre(s, id, n) && later == Next(s, a)
    requires !Returns(s, a, id, RateLimited)
    ensures AttemptsAre(later, id, n)
  {
    match a
    case Take(w) => TakeKeepsAttempts(s, w, id, n, later);
    case Enqueue(_, _) => EnqueueKeepsAttempts(s, a, id, n, later);
    case Requeue(k) => RequeueKeepsAttempts(s, k, id, n, later);
    case Acquire(w) => AcquireKeepsAttempts(s, w, id, n, later);
    case Finish(_, _) => FinishKeepsAttempts(s, a, id, n, later);
    case _ => OthersKeepAttempts(s, a, id, n, later);
  }

  lemma AttemptsStep(trace: seq<State>, actions: seq<Action>, i: nat, id: nat)
    requires Run(trace, actions) && i < |actions| && AttemptsAre(trace[i], id, Limits(trace, actions, i, id))
    ensures AttemptsAre(trace[i + 1], id, Limits(trace, actions, i + 1, id))
  {
    var s, a, n := trace[i], actions[i], Limits(trace, actions, i, id);
    ReachableInv(trace, actions, i);
    assert PlaceOk(s, id);
    if Returns(s, a, id, RateLimited) {
      LimitedMovesOn(s, a.w, id, n, trace[i + 1]);
    } else {
      AttemptsNext(s, a, id, n, trace[i + 1]);
    }
  }

  /**
   * A request queued, sleeping or with a worker is at the attempt that counts its rate-limited outcomes; the next
   * one after a sleep is one more.
   */
  lemma {:induction false} AttemptsCountTheLimits(trace: seq<State>, actions: seq<Action>, i: nat, id: nat)
    requires Run(trace, actions) && i < |trace|
    ensures AttemptsAre(trace[i], id, Limits(trace, actions, i, id))
  {
    if i > 0 {
      AttemptsCountTheLimits(trace, actions, i - 1, id);
      AttemptsStep(trace, actions, i - 1, id);
    }
  }

  // ---- Sentinels ----

  function Stops(queue: seq<Item>): seq<Option<nat>> {
    seq(|queue|, i requires 0 <= i < |queue| => if queue[i].Sentinel? then Some(0) else None)
  }

  function Exits(workers: seq<Worker>): seq<Option<nat>> {
    seq(|workers|, i requires 0 <= i < |workers| => if workers[i].Exited? then Some(0) else None)
  }

  /** The sentinels queued, and the workers that have taken theirs. */
  function Sentinelled(s: State): nat {
    Count(Stops(s.queue), 0) + Count(Exits(s.workers), 0)
  }

  lemma {:induction false} SentinelsCount(n: nat)
    ensures Count(Stops(Sentinels(n)), 0) == n
  {
    if n > 0 {
      SentinelsCount(n - 1);
      assert Stops(Sentinels(n)) == Stops(Sentinels(n - 1)) + [Some(0)];
      CountAppended(Stops(Sentinels(n - 1)), Some(0), 0);
    }
  }

  lemma StopsAppended(queue: seq<Item>, x: Item)
    requires x.Request?
    ensures Count(Stops(queue + [x]), 0) == Count(Stops(queue), 0)
  {
    assert Stops(queue + [x]) == Stops(queue) + [None];
    CountAppended(Stops(queue), None, 0);
  }

  lemma StopsTaken(queue: seq<Item>)
    requires queue != []
    ensures Count(Stops(queue), 0) == Count(Stops(queue[1..]), 0) + if queue[0].Sentinel? then 1 else 0
  {
    CountRemoved(Stops(queue), 0, 0);
    assert Stops(queue)[..0] + Stops(queue)[1..] == Stops(queue[1..]);
  }

  lemma ExitsMove(workers: seq<Worker>, w: nat, x: Worker)
    requires w < |workers|
    ensures Count(Exits(workers[w := x]), 0) + (if workers[w].Exited? then 1 else 0)
         == Count(Exits(workers), 0) + if x.Exited? then 1 else 0
  {
    var load: Option<nat> := if x.Exited? then Some(0) else None;
    assert Exits(workers[w := x]) == Exits(workers)[w := load];
    CountReplaced(Exits(workers), w, load, 0);
  }

  lemma CloseSentinels(s: State)
    requires !s.closed
    ensures Sentinelled(Next(s, Close)) == Sentinelled(s) + |s.workers|
  {
    SentinelsCount(|s.workers|);
    assert Stops(s.queue + Sentinels(|s.workers|)) == Stops(s.queue) + Stops(Sentinels(|s.workers|));
    CountJoined(Stops(s.queue), Stops(Sentinels(|s.workers|)), 0);
  }

  lemma TakeKeepsSentinels(s: State, w: nat)
    requires Enabled(s, Take(w))
    ensures Sentinelled(Next(s, Take(w))) == Sentinelled(s)
  {
    StopsTaken(s.queue);
    ExitsMove(s.workers, w, Next(s, Take(w)).workers[w]);
  }

  lemma WorkerKeepsSentinels(s: State, a: Action, later: State)
    requires Enabled(s, a) && (a.Acquire? || a.Finish?) && later == Next(s, a)
    ensures Sentinelled(later) == Sentinelled(s)
  {
    assert later.queue == s.queue;
    ExitsMove(s.workers, a.w, later.workers[a.w]);
  }

  lemma QueueKeepsSentinels(s: State, a: Action, later: State)
    requires Enabled(s, a) && (a.Enqueue? || a.Requeue?) && later == Next(s, a)
    ensures Sentinelled(later) == Sentinelled(s)
  {
    if later.queue != s.queue {
      assert later.queue == s.queue + [later.queue[|s.queue|]];
      StopsAppended(s.queue, later.queue[|s.queue|]);
    }
  }

  lemma StartKeepsSentinels(s: State, later: State)
    requires later == Next(s, Start)
    ensures Sentinelled(later) == Sentinelled(s)
  {
    CountPositive(Exits(s.workers), 0);
    CountPositive(Exits(later.workers), 0);
  }

  lemma StepMovesSentinels(s: State, a: Action)
    requires Enabled(s, a)
    ensures Sentinelled(Next(s, a)) == Sentinelled(s) + if a.Close? && !s.closed then |s.workers| else 0
  {
    match a
    case Start => StartKeepsSentinels(s, Next(s, a));
    case Enqueue(_, _) => QueueKeepsSentinels(s, a, Next(s, a));
    case Requeue(_) => QueueKeepsSentinels(s, a, Next(s, a));
    case Take(w) => TakeKeepsSentinels(s, w);
    case Acquire(_) => WorkerKeepsSentinels(s, a, Next(s, a));
    case Finish(_, _) => WorkerKeepsSentinels(s, a, Next(s, a));
    case Close => if !s.closed { CloseSentinels(s); }
    case Cancel(_) =>
  }

  lemma ClosedStaysClosed(s: State, a: Action)
    requires Enabled(s, a)
    ensures s.closed || a.Close? ==> Next(s, a).closed
    ensures !s.closed && !a.Close? ==> !Next(s, a).closed
  {
  }

  /**
   * However often `close` is called, each worker gets one sentinel: those queued and those taken by workers that have
   * left are together as many as there were workers at the first call, and before it there are none.
   */
  lemma {:induction false} CloseStopsEachWorkerOnce(trace: seq<State>, actions: seq<Action>, i: nat, j: nat)
    requires Run(trace, actions) && i <= j < |trace| && !trace[i].closed
    ensures Sentinelled(trace[i]) == 0
    ensures i < j && actions[i].Close? ==> trace[j].closed && Sentinelled(trace[j]) == |trace[i].workers|
    decreases j
  {
    if i < j {
      CloseStopsEachWorkerOnce(trace, actions, i, j - 1);
      StepMovesSentinels(trace[j - 1], actions[j - 1]);
      ClosedStaysClosed(trace[j - 1], actions[j - 1]);
    } else if i > 0 {
      ClosedStaysClosed(trace[i - 1], actions[i - 1]);
      CloseStopsEachWorkerOnce(trace, actions, i - 1, i - 1);
      StepMovesSentinels(trace[i - 1], actions[i - 1]);
    }
  }
}
