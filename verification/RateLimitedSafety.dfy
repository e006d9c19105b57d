/** Proofs about the rate-limited request queue. */
module RateLimitedSafety {
  import opened Prelude
  import opened Places
  import opened RateLimitedQueue

  // ---- Requests move, and are neither lost nor copied ----

  lemma WorkerMoves(workers: seq<Worker>, w: nat, x: Worker, id: nat)
    requires w < |workers|
    ensures Count(WorkerLoads(workers[w := x]), id) + One(WorkerLoad(workers[w]), id)
         == Count(WorkerLoads(workers), id) + One(WorkerLoad(x), id)
  {
    assert WorkerLoads(workers[w := x]) == WorkerLoads(workers)[w := WorkerLoad(x)];
    CountReplaced(WorkerLoads(workers), w, WorkerLoad(x), id);
  }

  lemma ItemQueued(queue: seq<Item>, x: Item, id: nat)
    ensures Count(QueueLoads(queue + [x]), id) == Count(QueueLoads(queue), id) + One(ItemLoad(x), id)
  {
    assert QueueLoads(queue + [x]) == QueueLoads(queue) + [ItemLoad(x)];
    CountAppended(QueueLoads(queue), ItemLoad(x), id);
  }

  lemma ItemTaken(queue: seq<Item>, id: nat)
    requires queue != []
    ensures Count(QueueLoads(queue), id) == Count(QueueLoads(queue[1..]), id) + One(ItemLoad(queue[0]), id)
  {
    CountRemoved(QueueLoads(queue), 0, id);
    assert QueueLoads(queue)[..0] + QueueLoads(queue)[1..] == QueueLoads(queue[1..]);
  }

  lemma SentinelsQueued(queue: seq<Item>, n: nat, id: nat)
    ensures Count(QueueLoads(queue + Sentinels(n)), id) == Count(QueueLoads(queue), id)
  {
    assert QueueLoads(queue + Sentinels(n)) == QueueLoads(queue) + QueueLoads(Sentinels(n));
    CountJoined(QueueLoads(queue), QueueLoads(Sentinels(n)), id);
    CountPositive(QueueLoads(Sentinels(n)), id);
  }

  lemma RequestDelayed(delayed: seq<(nat, nat)>, x: (nat, nat), id: nat)
    ensures Count(DelayedLoads(delayed + [x]), id) == Count(DelayedLoads(delayed), id) + One(Some(x.0), id)
  {
    assert DelayedLoads(delayed + [x]) == DelayedLoads(delayed) + [Some(x.0)];
    CountAppended(DelayedLoads(delayed), Some(x.0), id);
  }

  lemma RequestWoken(delayed: seq<(nat, nat)>, k: nat, id: nat)
    requires k < |delayed|
    ensures Count(DelayedLoads(delayed), id)
         == Count(DelayedLoads(delayed[..k] + delayed[k + 1..]), id) + One(Some(delayed[k].0), id)
  {
    CountRemoved(DelayedLoads(delayed), k, id);
    assert DelayedLoads(delayed[..k] + delayed[k + 1..]) == DelayedLoads(delayed)[..k] + DelayedLoads(delayed)[k + 1..];
  }

  /** The request that a step brings in, and the one it takes out of every place. */
  function Arriving(s: State, a: Action): Option<nat> {
    if a.Enqueue? then Some(a.id) else None
  }

  predicate DroppedAtTake(s: State) {
    s.queue != [] && s.queue[0].Request? && s.queue[0].id in s.futures && s.futures[s.queue[0].id] == Cancelled
  }

  function Leaving(s: State, a: Action): Option<nat>
    requires Enabled(s, a)
  {
    match a
    case Take(w) => if s.queue[0].Request? && DroppedAtTake(s) then Some(s.queue[0].id) else None
    case Finish(w, outcome) => if outcome.RateLimited? then None else Some(s.workers[w].id)
    case Requeue(k) => if s.futures[s.delayed[k].0] == Cancelled then Some(s.delayed[k].0) else None
    case _ => None
  }

  /** A worker takes a sentinel and leaves, or a request, which it drops if it has been cancelled. */
  lemma SentinelMovesPlaces(s: State, w: nat, later: State, id: nat)
    requires Enabled(s, Take(w)) && s.queue[0].Sentinel? && later == Next(s, Take(w))
    ensures PlacesOf(later, id) == PlacesOf(s, id)
  {
    ItemTaken(s.queue, id);
    WorkerMoves(s.workers, w, Exited, id);
  }

  lemma DroppedMovesPlaces(s: State, w: nat, later: State, id: nat)
    requires Enabled(s, Take(w)) && DroppedAtTake(s) && later == Next(s, Take(w))
    ensures PlacesOf(later, id) + One(Some(s.queue[0].id), id) == PlacesOf(s, id)
  {
    ItemTaken(s.queue, id);
  }

  lemma TakenMovesPlaces(s: State, w: nat, later: State, id: nat)
    requires Enabled(s, Take(w)) && s.queue[0].Request? && !DroppedAtTake(s) && later == Next(s, Take(w))
    ensures PlacesOf(later, id) == PlacesOf(s, id)
  {
    ItemTaken(s.queue, id);
    WorkerMoves(s.workers, w, Holding(s.queue[0].id, s.queue[0].attempt), id);
  }

  lemma TakeMovesPlaces(s: State, w: nat, id: nat)
    requires Enabled(s, Take(w))
    ensures PlacesOf(Next(s, Take(w)), id) + One(Leaving(s, Take(w)), id) == PlacesOf(s, id)
  {
    if s.queue[0].Sentinel? {
      SentinelMovesPlaces(s, w, Next(s, Take(w)), id);
    } else if DroppedAtTake(s) {
      DroppedMovesPlaces(s, w, Next(s, Take(w)), id);
    } else {
      TakenMovesPlaces(s, w, Next(s, Take(w)), id);
    }
  }

  lemma FinishMovesPlaces(s: State, w: nat, outcome: Outcome, id: nat)
    requires Enabled(s, Finish(w, outcome))
    ensures PlacesOf(Next(s, Finish(w, outcome)), id) + One(Leaving(s, Finish(w, outcome)), id) == PlacesOf(s, id)
  {
    WorkerMoves(s.workers, w, Idle, id);
    RequestDelayed(s.delayed, (s.workers[w].id, s.workers[w].attempt), id);
  }

  lemma WakingMovesPlaces(s: State, k: nat, later: State, id: nat)
    requires Enabled(s, Requeue(k)) && s.futures[s.delayed[k].0] != Cancelled && later == Next(s, Requeue(k))
    ensures PlacesOf(later, id) == PlacesOf(s, id)
  {
    RequestWoken(s.delayed, k, id);
    ItemQueued(s.queue, Request(s.delayed[k].0, s.delayed[k].1 + 1), id);
  }

  lemma RequeueMovesPlaces(s: State, k: nat, id: nat)
    requires Enabled(s, Requeue(k))
    ensures PlacesOf(Next(s, Requeue(k)), id) + One(Leaving(s, Requeue(k)), id) == PlacesOf(s, id)
  {
    if s.futures[s.delayed[k].0] != Cancelled {
      WakingMovesPlaces(s, k, Next(s, Requeue(k)), id);
    } else {
      RequestWoken(s.delayed, k, id);
    }
  }

  /** Requests move between places, and are neither lost nor copied. */
  lemma StepMovesPlaces(s: State, a: Action, id: nat)
    requires Enabled(s, a)
    ensures PlacesOf(Next(s, a), id) + One(Leaving(s, a), id) == PlacesOf(s, id) + One(Arriving(s, a), id)
  {
    match a
    case Start => {
      CountPositive(WorkerLoads(Next(s, Start).workers), id);
      CountPositive(WorkerLoads(s.workers), id);
    }
    case Enqueue(added, _) => ItemQueued(s.queue, Request(added, 0), id);
    case Take(w) => TakeMovesPlaces(s, w, id);
    case Acquire(w) => WorkerMoves(s.workers, w, Next(s, a).workers[w], id);
    case Finish(w, outcome) => FinishMovesPlaces(s, w, outcome, id);
    case Requeue(k) => RequeueMovesPlaces(s, k, id);
    case Cancel(_) =>
    case Close => SentinelsQueued(s.queue, |s.workers|, id);
  }

  // ---- Every live request is in exactly one place ----

  lemma WorkersRequestIsPlaced(s: State, w: nat)
    requires w < |s.workers| && (s.workers[w].Holding? || s.workers[w].Calling?)
    ensures PlacesOf(s, s.workers[w].id) >= 1
  {
    assert WorkerLoads(s.workers)[w] == Some(s.workers[w].id);
    CountPositive(WorkerLoads(s.workers), s.workers[w].id);
  }

  lemma DelayedRequestIsPlaced(s: State, k: nat)
    requires k < |s.delayed|
    ensures PlacesOf(s, s.delayed[k].0) >= 1
  {
    assert DelayedLoads(s.delayed)[k] == Some(s.delayed[k].0);
    CountPositive(DelayedLoads(s.delayed), s.delayed[k].0);
  }

  /** The lookups of hosts and futures in the steps never fail. */
  lemma PlacedRequestsAreKnown(s: State)
    requires Inv(s)
    ensures forall w | 0 <= w < |s.workers| && (s.workers[w].Holding? || s.workers[w].Calling?) ::
      s.workers[w].id in s.futures && s.workers[w].id in s.hosts
    ensures forall k | 0 <= k < |s.delayed| :: s.delayed[k].0 in s.futures
  {
    forall w | 0 <= w < |s.workers| && (s.workers[w].Holding? || s.workers[w].Calling?)
      ensures s.workers[w].id in s.futures && s.workers[w].id in s.hosts
    {
      WorkersRequestIsPlaced(s, w);
      assert PlaceOk(s, s.workers[w].id);
    }
    forall k | 0 <= k < |s.delayed| ensures s.delayed[k].0 in s.futures {
      DelayedRequestIsPlaced(s, k);
      assert PlaceOk(s, s.delayed[k].0);
    }
  }

  /** How a step moves the future of a request. */
  lemma StepMovesFuture(s: State, a: Action, id: nat)
    requires Enabled(s, a)
    ensures id in s.futures ==> id in Next(s, a).futures
    ensures id !in s.futures && id in Next(s, a).futures ==>
      Arriving(s, a) == Some(id) && Next(s, a).futures[id] == Pending
    ensures id in s.futures && Next(s, a).futures[id] != s.futures[id] ==>
      && s.futures[id] == Pending
      && ((a == Cancel(id) && Next(s, a).futures[id] == Cancelled) || (a.Finish? && Leaving(s, a) == Some(id)))
    ensures id in s.futures && s.futures[id] == Pending && a.Finish? && Leaving(s, a) == Some(id) ==>
      Next(s, a).futures[id] == HasResult || Next(s, a).futures[id] == HasException
  {
  }

  lemma LeaversAreLoaded(s: State, a: Action, id: nat)
    requires Enabled(s, a) && Leaving(s, a) == Some(id)
    ensures id in s.futures && PlacesOf(s, id) >= 1
    ensures a.Finish? || s.futures[id] == Cancelled
  {
    if a.Take? {
      assert QueueLoads(s.queue)[0] == Some(id);
      CountPositive(QueueLoads(s.queue), id);
    } else if a.Finish? {
      WorkersRequestIsPlaced(s, a.w);
    } else {
      DelayedRequestIsPlaced(s, a.k);
    }
  }

  lemma PlaceKept(s: State, a: Action, id: nat)
    requires Enabled(s, a) && PlaceOk(s, id)
    ensures PlaceOk(Next(s, a), id)
  {
    StepMovesPlaces(s, a, id);
    StepMovesFuture(s, a, id);
    if Leaving(s, a) == Some(id) {
      LeaversAreLoaded(s, a, id);
    }
  }

  lemma PlacedKept(s: State, a: Action)
    requires Placed(s) && Enabled(s, a)
    ensures Placed(Next(s, a))
  {
    forall id: nat ensures PlaceOk(Next(s, a), id) {
      assert PlaceOk(s, id);
      PlaceKept(s, a, id);
    }
  }

  // ---- Semaphores ----

  lemma CallMoves(s: State, host: string, w: nat, x: Worker)
    requires w < |s.workers|
    ensures Count(HostLoads(s.hosts, host, s.workers[w := x]), 0) + One(HostLoad(s.hosts, host, s.workers[w]), 0)
         == InFlight(s, host) + One(HostLoad(s.hosts, host, x), 0)
  {
    assert HostLoads(s.hosts, host, s.workers[w := x]) ==
      HostLoads(s.hosts, host, s.workers)[w := HostLoad(s.hosts, host, x)];
    CountReplaced(HostLoads(s.hosts, host, s.workers), w, HostLoad(s.hosts, host, x), 0);
  }

  lemma NewcomersAreNotCalled(s: State, id: nat, name: string, host: string)
    requires Inv(s) && id !in s.futures
    ensures HostLoads(s.hosts[id := name], host, s.workers) == HostLoads(s.hosts, host, s.workers)
  {
    PlacedRequestsAreKnown(s);
  }

  lemma CallKeepsBalance(s: State, a: Action, host: string)
    requires Balanced(s, host) && Enabled(s, a) && (a.Take? || a.Acquire?)
    ensures Balanced(Next(s, a), host)
  {
    CallMoves(s, host, a.w, Next(s, a).workers[a.w]);
  }

  lemma FinishKeepsBalance(s: State, a: Action, host: string)
    requires Balanced(s, host) && Enabled(s, a) && a.Finish?
    ensures Balanced(Next(s, a), host)
  {
    CallMoves(s, host, a.w, Idle);
  }

  lemma StepKeepsBalance(s: State, a: Action, host: string)
    requires Balanced(s, host) && Enabled(s, a)
    requires a.Enqueue? ==> HostLoads(s.hosts[a.id := a.host], host, s.workers) == HostLoads(s.hosts, host, s.workers)
    ensures Balanced(Next(s, a), host)
  {
    match a
    case Start => {
      CountPositive(HostLoads(s.hosts, host, Next(s, a).workers), 0);
      CountPositive(HostLoads(s.hosts, host, s.workers), 0);
    }
    case Take(_) => CallKeepsBalance(s, a, host);
    case Acquire(_) => CallKeepsBalance(s, a, host);
    case Finish(_, _) => FinishKeepsBalance(s, a, host);
    case _ =>
  }

  lemma SemaphoreKept(s: State, a: Action, host: string)
    requires Inv(s) && Enabled(s, a)
    ensures Balanced(Next(s, a), host)
  {
    if a.Enqueue? {
      NewcomersAreNotCalled(s, a.id, a.host, host);
    }
    assert Balanced(s, host);
    StepKeepsBalance(s, a, host);
  }

  // ---- Counters, order and repeats ----

  lemma ResultsAfter(futures: map<nat, Future>, id: nat, future: Future)
    requires id in futures ==> futures[id] != HasResult
    ensures Results(futures[id := future]) == Results(futures) + if future == HasResult then {id} else {}
    ensures futures[id := future].Keys == futures.Keys + {id}
  {
  }

  lemma FinishMovesCount(s: State, a: Action, later: State)
    requires Enabled(s, a) && a.Finish? && later == Next(s, a)
    ensures later.hosts == s.hosts && later.totalEnqueued == s.totalEnqueued
    ensures var id := s.workers[a.w].id;
      if s.futures[id] != Pending || a.outcome.RateLimited? then
        later.futures == s.futures && later.completed == s.completed
      else if a.outcome.Succeeded? then
        later.futures == s.futures[id := HasResult] && later.completed == s.completed + 1
      else later.futures == s.futures[id := HasException] && later.completed == s.completed
  {
  }

  lemma FinishKeepsCount(s: State, a: Action, later: State)
    requires Counted(s) && Enabled(s, a) && a.Finish? && later == Next(s, a)
    ensures Counted(later)
  {
    var id := s.workers[a.w].id;
    FinishMovesCount(s, a, later);
    if later.futures != s.futures {
      ResultsAfter(s.futures, id, later.futures[id]);
      assert s.futures.Keys + {id} == s.futures.Keys;
    }
  }

  lemma EnqueueMovesCount(s: State, id: nat, host: string)
    requires Enabled(s, Enqueue(id, host))
    ensures var later := Next(s, Enqueue(id, host));
      && later.futures == s.futures[id := Pending] && later.hosts == s.hosts[id := host]
      && later.completed == s.completed && later.totalEnqueued == s.totalEnqueued + 1
  {
  }

  lemma EnqueueKeepsCount(s: State, id: nat, host: string, later: State)
    requires Counted(s) && Enabled(s, Enqueue(id, host)) && later == Next(s, Enqueue(id, host))
    ensures Counted(later)
  {
    EnqueueMovesCount(s, id, host);
    ResultsAfter(s.futures, id, Pending);
    assert later.hosts.Keys == s.hosts.Keys + {id} == later.futures.Keys;
    assert |s.futures.Keys + {id}| == |s.futures.Keys| + 1;
  }

  lemma CancelKeepsCount(s: State, id: nat)
    requires Counted(s) && Enabled(s, Cancel(id))
    ensures Counted(Next(s, Cancel(id)))
  {
    if s.futures[id] == Pending {
      ResultsAfter(s.futures, id, Cancelled);
      assert s.futures.Keys + {id} == s.futures.Keys;
    }
  }

  lemma CountedKept(s: State, a: Action)
    requires Counted(s) && Enabled(s, a)
    ensures Counted(Next(s, a))
  {
    match a
    case Finish(_, _) => FinishKeepsCount(s, a, Next(s, a));
    case Enqueue(id, host) => EnqueueKeepsCount(s, id, host, Next(s, a));
    case Cancel(id) => CancelKeepsCount(s, id);
    case _ =>
  }

  lemma TakeKeepsOrder(s: State, w: nat)
    requires Ordered(s) && Enabled(s, Take(w))
    ensures Ordered(Next(s, Take(w)))
  {
    assert forall i | 0 <= i < |s.queue| - 1 :: s.queue[1..][i] == s.queue[i + 1];
  }

  lemma AppendKeepsOrder(s: State, a: Action)
    requires Ordered(s) && Enabled(s, a) && (a.Enqueue? || a.Requeue?)
    ensures Ordered(Next(s, a))
  {
  }

  lemma CloseKeepsOrder(s: State)
    requires Ordered(s)
    ensures Ordered(Next(s, Close))
  {
  }

  /** No other step touches the queue or makes a worker leave. */
  lemma OthersKeepOrder(s: State, a: Action, later: State)
    requires Ordered(s) && Enabled(s, a) && (a.Start? || a.Acquire? || a.Finish? || a.Cancel?) && later == Next(s, a)
    ensures Ordered(later)
  {
    assert later.queue == s.queue && later.closed == s.closed;
    forall w | 0 <= w < |later.workers| && later.workers[w].Exited? ensures w < |s.workers| && s.workers[w].Exited? {
    }
  }

  lemma OrderedKept(s: State, a: Action)
    requires Ordered(s) && Enabled(s, a)
    ensures Ordered(Next(s, a))
  {
    if a.Take? {
      TakeKeepsOrder(s, a.w);
    } else if a.Enqueue? || a.Requeue? {
      AppendKeepsOrder(s, a);
    } else if a.Close? {
      CloseKeepsOrder(s);
    } else {
      OthersKeepOrder(s, a, Next(s, a));
    }
  }

  lemma RequeueKeepsRepeats(s: State, k: nat)
    requires RepeatsAreLimited(s) && Enabled(s, Requeue(k))
    ensures RepeatsAreLimited(Next(s, Requeue(k)))
  {
  }

  lemma FinishKeepsRepeats(s: State, w: nat, outcome: Outcome)
    requires RepeatsAreLimited(s) && Enabled(s, Finish(w, outcome))
    ensures RepeatsAreLimited(Next(s, Finish(w, outcome)))
  {
  }

  lemma TakeKeepsRepeats(s: State, w: nat)
    requires RepeatsAreLimited(s) && Enabled(s, Take(w))
    ensures RepeatsAreLimited(Next(s, Take(w)))
  {
  }

  lemma RepeatsKept(s: State, a: Action)
    requires RepeatsAreLimited(s) && Enabled(s, a)
    ensures RepeatsAreLimited(Next(s, a))
  {
    match a
    case Requeue(k) => RequeueKeepsRepeats(s, k);
    case Finish(w, outcome) => FinishKeepsRepeats(s, w, outcome);
    case Take(w) => TakeKeepsRepeats(s, w);
    case _ =>
  }

  lemma StepKeepsInv(s: State, a: Action)
    requires Inv(s) && Enabled(s, a)
    ensures Inv(Next(s, a))
  {
    PlacedKept(s, a);
    forall host: string ensures Balanced(Next(s, a), host) {
      SemaphoreKept(s, a, host);
    }
    CountedKept(s, a);
    OrderedKept(s, a);
    RepeatsKept(s, a);
  }

  lemma {:induction false} ReachableInv(trace: seq<State>, actions: seq<Action>, i: nat)
    requires Run(trace, actions) && i < |trace|
    ensures Inv(trace[i])
  {
    if i > 0 {
      ReachableInv(trace, actions, i - 1);
      StepKeepsInv(trace[i - 1], actions[i - 1]);
    }
  }

  // ---- Whole runs ----

  /**
   * Conservation: in every reachable state an unsettled, uncancelled request is in exactly one place;
   * calls in flight never exceed the host's limit, nor completions the requests enqueued.
   */
  lemma RequestsAreConserved(trace: seq<State>, actions: seq<Action>, i: nat)
    requires Run(trace, actions) && i < |trace|
    ensures forall id | id in trace[i].futures && trace[i].futures[id] == Pending :: PlacesOf(trace[i], id) == 1
    ensures forall host :: InFlight(trace[i], host) <= trace[i].perHostLimit
    ensures trace[i].completed == |Results(trace[i].futures)| <= |trace[i].futures| == trace[i].totalEnqueued
  {
    ReachableInv(trace, actions, i);
    var s := trace[i];
    forall id | id in s.futures && s.futures[id] == Pending ensures PlacesOf(s, id) == 1 {
      assert PlaceOk(s, id);
    }
    forall host ensures InFlight(s, host) <= s.perHostLimit {
      assert Balanced(s, host);
    }
    SubsetIsNoLarger(Results(s.futures), s.futures.Keys);
  }

  /** A future is settled or cancelled at most once. */
  lemma {:induction false} SettledOnce(trace: seq<State>, actions: seq<Action>, i: nat, j: nat, id: nat)
    requires Run(trace, actions) && i <= j < |trace|
    requires id in trace[i].futures
    ensures id in trace[j].futures
    ensures trace[i].futures[id] != Pending ==> trace[j].futures[id] == trace[i].futures[id]
    decreases j
  {
    if i < j {
      SettledOnce(trace, actions, i, j - 1, id);
      StepMovesFuture(trace[j - 1], actions[j - 1], id);
    }
  }

  /** `close` has returned: the workers it waited for have all left. */
  predicate Drained(s: State) {
    s.closed && s.workers != [] && forall w | 0 <= w < |s.workers| :: s.workers[w].Exited?
  }

  /** The request waits for its delay. */
  predicate Asleep(s: State, id: nat) {
    exists k | 0 <= k < |s.delayed| :: s.delayed[k].0 == id
  }

  /** The request waits in the queue. */
  predicate Queued(s: State, id: nat) {
    exists k | 0 <= k < |s.queue| :: s.queue[k].Request? && s.queue[k].id == id
  }

  lemma LoadsAreWaiting(s: State, id: nat)
    ensures Some(id) in QueueLoads(s.queue) <==> Queued(s, id)
    ensures Some(id) in DelayedLoads(s.delayed) <==> Asleep(s, id)
  {
    forall k | 0 <= k < |s.queue| ensures QueueLoads(s.queue)[k] == ItemLoad(s.queue[k]) {
    }
    forall k | 0 <= k < |s.delayed| ensures DelayedLoads(s.delayed)[k] == Some(s.delayed[k].0) {
    }
  }

  /** Whom no worker has: pending, unless it was cancelled, exactly while it waits. */
  lemma WaitingIsPending(s: State, id: nat)
    requires PlaceOk(s, id) && id in s.futures && Some(id) !in WorkerLoads(s.workers)
    ensures s.futures[id] == Pending <==> s.futures[id] != Cancelled && (Asleep(s, id) || Queued(s, id))
  {
    CountPositive(WorkerLoads(s.workers), id);
    CountPositive(QueueLoads(s.queue), id);
    CountPositive(DelayedLoads(s.delayed), id);
    LoadsAreWaiting(s, id);
  }

  /**
   * Graceful drain: once `close` of a started queue has returned, every request ever enqueued has been
   * settled, was cancelled, or has received a rate-limited outcome; and it is pending if and only if it was not
   * cancelled and still waits, asleep or queued.
   */
  lemma CloseDrainsTheQueue(trace: seq<State>, actions: seq<Action>, i: nat, id: nat)
    requires Run(trace, actions) && i < |trace| && Drained(trace[i]) && id in trace[i].futures
    ensures trace[i].futures[id] != Pending || id in trace[i].limited
    ensures trace[i].futures[id] == Pending <==>
      trace[i].futures[id] != Cancelled && (Asleep(trace[i], id) || Queued(trace[i], id))
  {
    ReachableInv(trace, actions, i);
    var s := trace[i];
    assert PlaceOk(s, id);
    WaitingIsPending(s, id);
    assert s.workers[0].Exited?;
    if s.futures[id] == Pending && Queued(s, id) {
      var k :| 0 <= k < |s.queue| && s.queue[k].Request? && s.queue[k].id == id;
      assert s.queue[k].attempt > 0;
    }
  }

  /** After the drain nothing is ever settled any more: a request still pending can only be cancelled. */
  lemma {:induction false} NothingSettlesAfterDrain(trace: seq<State>, actions: seq<Action>, i: nat, j: nat, id: nat)
    requires Run(trace, actions) && i <= j < |trace| && Drained(trace[i]) && id in trace[i].futures
    ensures Drained(trace[j]) && id in trace[j].futures
    ensures trace[j].futures[id] == trace[i].futures[id] || trace[j].futures[id] == Cancelled
    decreases j
  {
    if i < j {
      NothingSettlesAfterDrain(trace, actions, i, j - 1, id);
      var s, a := trace[j - 1], actions[j - 1];
      StepMovesFuture(s, a, id);
      assert forall w | 0 <= w < |s.workers| :: s.workers[w].Exited?;
    }
  }

  // ---- A request that `close` strands ----

  lemma Extended(trace: seq<State>, actions: seq<Action>, a: Action) returns (longer: seq<State>, more: seq<Action>)
    requires Run(trace, actions) && Enabled(trace[|actions|], a)
    ensures Run(longer, more) && |more| == |actions| + 1
    ensures longer[|more|] == Next(trace[|actions|], a)
  {
    longer, more := trace + [Next(trace[|actions|], a)], actions + [a];
  }

  function Fresh(maxWorkers: nat, perHostLimit: nat): State {
    State(maxWorkers, perHostLimit, [], [], [], map[], map[], map[], false, 0, 0, {})
  }

  function IdleWorkers(n: nat): seq<Worker> {
    seq(n, _ => Idle)
  }

  /** The only request has been called once, was rate-limited, and sleeps. */
  ghost predicate Stranded(s: State) {
    && s.futures == map[0 := Pending] && s.delayed == [(0, 0)] && s.limited == {0}
  }

  lemma RequestIsCalled(maxWorkers: nat, perHostLimit: nat, host: string)
    returns (trace: seq<State>, actions: seq<Action>)
    requires maxWorkers >= 1 && perHostLimit >= 1
    ensures Run(trace, actions)
    ensures trace[|actions|] == Fresh(maxWorkers, perHostLimit).(
      workers := IdleWorkers(maxWorkers)[0 := Calling(0, 0)], futures := map[0 := Pending], hosts := map[0 := host],
      permits := map[host := perHostLimit - 1], totalEnqueued := 1)
  {
    trace, actions := [Fresh(maxWorkers, perHostLimit)], [];
    trace, actions := Extended(trace, actions, Start);
    trace, actions := Extended(trace, actions, Enqueue(0, host));
    trace, actions := Extended(trace, actions, Take(0));
    assert trace[|actions|].workers == IdleWorkers(maxWorkers)[0 := Holding(0, 0)];
    trace, actions := Extended(trace, actions, Acquire(0));
    assert trace[|actions|].workers == IdleWorkers(maxWorkers)[0 := Calling(0, 0)];
  }

  /** The first `k` workers have left, and a sentinel waits for each other one. */
  ghost predicate Departing(s: State, n: nat, k: nat) {
    && s.closed && |s.workers| == n && k <= n && s.queue == Sentinels(n - k)
    && (forall w | 0 <= w < k :: s.workers[w].Exited?) && (forall w | k <= w < n :: s.workers[w].Idle?)
  }

  lemma RequestIsLimited(maxWorkers: nat, perHostLimit: nat, host: string)
    returns (trace: seq<State>, actions: seq<Action>)
    requires maxWorkers >= 1 && perHostLimit >= 1
    ensures Run(trace, actions) && Stranded(trace[|actions|])
    ensures Departing(trace[|actions|], maxWorkers, 0)
  {
    trace, actions := RequestIsCalled(maxWorkers, perHostLimit, host);
    trace, actions := Extended(trace, actions, Finish(0, RateLimited));
    assert trace[|actions|].workers == IdleWorkers(maxWorkers);
    trace, actions := Extended(trace, actions, Close);
  }

  lemma {:induction false} WorkersLeave(trace: seq<State>, actions: seq<Action>, n: nat, k: nat)
    returns (longer: seq<State>, more: seq<Action>)
    requires Run(trace, actions) && Stranded(trace[|actions|]) && Departing(trace[|actions|], n, k)
    ensures Run(longer, more) && Stranded(longer[|more|]) && Departing(longer[|more|], n, n)
    decreases n - k
  {
    longer, more := trace, actions;
    if k < n {
      longer, more := Extended(trace, actions, Take(k));
      assert longer[|more|].queue == Sentinels(n - k - 1);
      longer, more := WorkersLeave(longer, more, n, k + 1);
    }
  }

  /**
   * For any number of workers and any host limit, a run in which `close` returns while a request still waits for
   * its retry: its future is pending, and so it remains unless its caller cancels it.
   */
  lemma CloseMayStrandARequest(maxWorkers: nat, perHostLimit: nat, host: string)
    returns (trace: seq<State>, actions: seq<Action>)
    requires maxWorkers >= 1 && perHostLimit >= 1
    ensures Run(trace, actions) && Drained(trace[|actions|])
    ensures trace[|actions|].futures == map[0 := Pending] && trace[|actions|].limited == {0}
  {
    trace, actions := RequestIsLimited(maxWorkers, perHostLimit, host);
    trace, actions := WorkersLeave(trace, actions, maxWorkers, 0);
  }
}
