/** Proofs about the retrying request queue: bounded work, and operations that wait for the deadline. */
module RequestQueueSafety {
  import opened Prelude
  import opened Places
  import opened RequestQueue

  // ---- Tasks move between places ----

  lemma WorkerMoves(workers: seq<Worker>, w: nat, x: Worker, running: bool, id: nat)
    requires w < |workers|
    ensures Count(WorkerLoads(workers[w := x], running), id) + One(WorkerLoad(workers[w], running), id)
         == Count(WorkerLoads(workers, running), id) + One(WorkerLoad(x, running), id)
  {
    assert WorkerLoads(workers[w := x], running) == WorkerLoads(workers, running)[w := WorkerLoad(x, running)];
    CountReplaced(WorkerLoads(workers, running), w, WorkerLoad(x, running), id);
  }

  lemma SlotAppended(ids: seq<nat>, x: nat, id: nat)
    ensures Count(Slots(ids + [x]), id) == Count(Slots(ids), id) + One(Some(x), id)
  {
    assert Slots(ids + [x]) == Slots(ids) + [Some(x)];
    CountAppended(Slots(ids), Some(x), id);
  }

  lemma SlotRemoved(ids: seq<nat>, k: nat, id: nat)
    requires k < |ids|
    ensures Count(Slots(ids), id) == Count(Slots(ids[..k] + ids[k + 1..]), id) + One(Some(ids[k]), id)
  {
    CountRemoved(Slots(ids), k, id);
    assert Slots(ids[..k] + ids[k + 1..]) == Slots(ids)[..k] + Slots(ids)[k + 1..];
  }

  lemma WorkersStop(n: nat, running: bool, id: nat)
    ensures Count(WorkerLoads(seq(n, _ => Stopped), running), id) == 0
  {
    CountPositive(WorkerLoads(seq(n, _ => Stopped), running), id);
  }

  /** The task that a step makes wait for an operation, the one it starts, and the one whose operation it ends. */
  function Entering(s: State, a: Action): Option<nat>
    requires Enabled(s, a)
  {
    match a
    case Enqueue(_) => Some(|s.attempts|)
    case EndOp(w, outcome) =>
      var id := s.workers[w].id;
      if outcome.RateLimited? && s.attempts[id] < s.maxAttempts[id] then Some(id) else None
    case _ => None
  }

  function Starting(s: State, a: Action): Option<nat>
    requires Enabled(s, a)
  {
    if a.StartOp? then Some(s.workers[a.w].id) else None
  }

  function Ending(s: State, a: Action): Option<nat>
    requires Enabled(s, a)
  {
    if a.EndOp? then Some(s.workers[a.w].id) else None
  }

  ghost predicate Moved(s: State, a: Action, later: State, id: nat)
    requires Enabled(s, a)
  {
    && Ahead(later, id) + One(Starting(s, a), id) <= Ahead(s, id) + One(Entering(s, a), id)
    && Running(later, id) + One(Ending(s, a), id) <= Running(s, id) + One(Starting(s, a), id)
    && (!later.closed ==>
          && Ahead(later, id) + One(Starting(s, a), id) == Ahead(s, id) + One(Entering(s, a), id)
          && Running(later, id) + One(Ending(s, a), id) == Running(s, id) + One(Starting(s, a), id))
    && Tries(later, id) == Tries(s, id) + One(Starting(s, a), id)
    && StartsOf(later.starts, id) == StartsOf(s.starts, id) + One(Starting(s, a), id)
  }

  lemma TakeKeepsRunning(s: State, w: nat, id: nat)
    requires Enabled(s, Take(w))
    ensures Running(Next(s, Take(w)), id) == Running(s, id)
  {
    WorkerMoves(s.workers, w, Next(s, Take(w)).workers[w], true, id);
  }

  lemma TakeKeepsAhead(s: State, w: nat, id: nat)
    requires Enabled(s, Take(w))
    ensures Ahead(Next(s, Take(w)), id) == Ahead(s, id)
  {
    SlotRemoved(s.queue, 0, id);
    assert s.queue[..0] + s.queue[1..] == s.queue[1..];
    WorkerMoves(s.workers, w, Next(s, Take(w)).workers[w], false, id);
  }

  lemma TakeMoves(s: State, a: Action, id: nat)
    requires Enabled(s, a) && a.Take?
    ensures Moved(s, a, Next(s, a), id)
  {
    TakeKeepsRunning(s, a.w, id);
    TakeKeepsAhead(s, a.w, id);
  }

  lemma StartMoves(s: State, a: Action, id: nat)
    requires Enabled(s, a) && a.StartOp?
    ensures Moved(s, a, Next(s, a), id)
  {
    var task := s.workers[a.w].id;
    WorkerMoves(s.workers, a.w, Executing(task), false, id);
    WorkerMoves(s.workers, a.w, Executing(task), true, id);
    assert Next(s, a).starts[..|s.starts|] == s.starts;
  }

  lemma BackingOffMoves(s: State, task: nat, delay: real, id: nat)
    requires Known(s, task)
    ensures Ahead(BackedOff(s, task, delay), id)
         == Ahead(s, id) + if s.attempts[task] < s.maxAttempts[task] then One(Some(task), id) else 0
    ensures BackedOff(s, task, delay).workers == s.workers && BackedOff(s, task, delay).attempts == s.attempts
    ensures BackedOff(s, task, delay).starts == s.starts
  {
    SlotAppended(s.delayed, task, id);
  }

  lemma FreeingMoves(s: State, w: nat, free: Worker, id: nat)
    requires w < |s.workers| && s.workers[w].Executing? && (free.Stopped? || free.Waiting?)
    ensures Ahead(Goto(s, w, free), id) == Ahead(s, id)
    ensures Running(Goto(s, w, free), id) + One(Some(s.workers[w].id), id) == Running(s, id)
  {
    WorkerMoves(s.workers, w, free, false, id);
    WorkerMoves(s.workers, w, free, true, id);
  }

  lemma EndMoves(s: State, a: Action, id: nat)
    requires Enabled(s, a) && a.EndOp?
    ensures Moved(s, a, Next(s, a), id)
  {
    var free := if s.closed then Stopped else Waiting;
    var freed := Goto(s, a.w, free);
    FreeingMoves(s, a.w, free, id);
    if a.outcome.RateLimited? {
      var delay := DelayFor(s, s.backoffAttempts + 1, a.outcome.header, a.outcome.jitter);
      assert Next(s, a) == BackedOff(freed, s.workers[a.w].id, delay);
      BackingOffMoves(freed, s.workers[a.w].id, delay, id);
    }
  }

  lemma RequeueMoves(s: State, a: Action, id: nat)
    requires Enabled(s, a) && a.Requeue?
    ensures Moved(s, a, Next(s, a), id)
  {
    SlotRemoved(s.delayed, a.k, id);
    SlotAppended(s.queue, s.delayed[a.k], id);
  }

  lemma StepMoves(s: State, a: Action, id: nat)
    requires Enabled(s, a)
    ensures Moved(s, a, Next(s, a), id)
  {
    match a
    case Enqueue(_) => SlotAppended(s.queue, |s.attempts|, id);
    case Take(_) => TakeMoves(s, a, id);
    case StartOp(_) => StartMoves(s, a, id);
    case EndOp(_, _) => EndMoves(s, a, id);
    case Requeue(_) => RequeueMoves(s, a, id);
    case Close => {
      WorkersStop(|s.workers|, false, id);
      WorkersStop(|s.workers|, true, id);
    }
    case _ =>
  }

  // ---- Bounded work ----

  lemma EndedTaskRuns(s: State, w: nat)
    requires w < |s.workers| && s.workers[w].Executing?
    ensures Running(s, s.workers[w].id) >= 1
  {
    assert WorkerLoads(s.workers, true)[w] == Some(s.workers[w].id);
    CountPositive(WorkerLoads(s.workers, true), s.workers[w].id);
  }

  lemma TaskKept(s: State, a: Action, later: State, id: nat)
    requires Enabled(s, a) && TaskOk(s, id) && Moved(s, a, later, id)
    requires |s.attempts| == |s.maxAttempts|
    requires later.maxAttempts == if a.Enqueue? then s.maxAttempts + [a.maxAttempts] else s.maxAttempts
    ensures TaskOk(later, id)
  {
    if Ending(s, a) == Some(id) {
      EndedTaskRuns(s, a.w);
    }
  }

  lemma SumRaised(xs: seq<nat>, i: nat)
    requires i < |xs|
    ensures Sum(xs[i := xs[i] + 1]) == Sum(xs) + 1
  {
    var ys := xs[i := xs[i] + 1];
    if i < |xs| - 1 {
      SumRaised(xs[..|xs| - 1], i);
      assert ys[..|xs| - 1] == xs[..|xs| - 1][i := xs[i] + 1];
    } else {
      assert ys[..|xs| - 1] == xs[..|xs| - 1];
    }
  }

  /** The budget pays one for every operation started, and only a new task adds to it. */
  lemma StepSpendsBudget(s: State, a: Action)
    requires Enabled(s, a)
    ensures Budget(Next(s, a)) == Budget(s)
      - (if a.StartOp? then 1 else 0) + (if a.Enqueue? then Cap(a.maxAttempts) else 0)
    ensures Sum(Next(s, a).attempts) == Sum(s.attempts) + |Next(s, a).starts| - |s.starts|
  {
    match a
    case StartOp(w) => SumRaised(s.attempts, s.workers[w].id);
    case Enqueue(max) => {
      assert (s.attempts + [0])[..|s.attempts|] == s.attempts;
      assert (s.maxAttempts + [max])[..|s.maxAttempts|] == s.maxAttempts;
    }
    case _ =>
  }

  lemma StepKeepsLengths(s: State, a: Action)
    requires Enabled(s, a) && |s.attempts| == |s.futures| == |s.maxAttempts|
    ensures |Next(s, a).attempts| == |Next(s, a).futures| == |Next(s, a).maxAttempts|
    ensures Next(s, a).maxAttempts == if a.Enqueue? then s.maxAttempts + [a.maxAttempts] else s.maxAttempts
  {
  }

  lemma StepKeepsInv(s: State, a: Action)
    requires Inv(s) && Enabled(s, a)
    ensures Inv(Next(s, a))
  {
    var later := Next(s, a);
    StepKeepsLengths(s, a);
    StepSpendsBudget(s, a);
    forall id: nat ensures TaskOk(later, id) {
      assert TaskOk(s, id);
      StepMoves(s, a, id);
      TaskKept(s, a, later, id);
    }
  }

  lemma InitInv(s: State)
    requires Init(s)
    ensures Inv(s)
  {
    forall id: nat ensures TaskOk(s, id) {
      CountPositive(WorkerLoads(s.workers, false), id);
      CountPositive(WorkerLoads(s.workers, true), id);
    }
  }

  lemma {:induction false} ReachableInv(trace: seq<State>, actions: seq<Action>, i: nat)
    requires Run(trace, actions) && i < |trace|
    ensures Inv(trace[i])
  {
    if i == 0 {
      InitInv(trace[0]);
    } else {
      ReachableInv(trace, actions, i - 1);
      StepKeepsInv(trace[i - 1], actions[i - 1]);
    }
  }

  lemma {:induction false} SumWithinCaps(attempts: seq<nat>, maxAttempts: seq<int>)
    requires |attempts| == |maxAttempts|
    requires forall id | 0 <= id < |attempts| :: attempts[id] <= Cap(maxAttempts[id])
    ensures Sum(attempts) <= Caps(maxAttempts)
  {
    if attempts != [] {
      SumWithinCaps(attempts[..|attempts| - 1], maxAttempts[..|attempts| - 1]);
    }
  }

  /**
   * Bounded work: a task's operation runs at most max(1, max_attempts) times, whatever the answers, and
   * all the tasks together start no more than their budgets.
   */
  lemma WorkIsBounded(trace: seq<State>, actions: seq<Action>, i: nat)
    requires Run(trace, actions) && i < |trace|
    ensures |trace[i].attempts| == |trace[i].maxAttempts|
    ensures forall id: nat ::
      StartsOf(trace[i].starts, id) <= if id < |trace[i].maxAttempts| then Cap(trace[i].maxAttempts[id]) else 0
    ensures |trace[i].starts| <= Caps(trace[i].maxAttempts)
    ensures Budget(trace[i]) >= 0
  {
    ReachableInv(trace, actions, i);
    var s := trace[i];
    forall id: nat ensures StartsOf(s.starts, id) <= if id < |s.maxAttempts| then Cap(s.maxAttempts[id]) else 0 {
      assert TaskOk(s, id);
    }
    forall id | 0 <= id < |s.attempts| ensures s.attempts[id] <= Cap(s.maxAttempts[id]) {
      assert TaskOk(s, id);
    }
    SumWithinCaps(s.attempts, s.maxAttempts);
  }

  // ---- The retry deadline ----

  lemma {:induction false} DoublingGrows(base: real, n: nat, m: nat)
    requires n <= m && base >= 0.0
    ensures base <= Doubled(base, n) <= Doubled(base, m)
  {
    if n < m {
      DoublingGrows(base, n, m - 1);
    } else if n > 0 {
      DoublingGrows(base, n - 1, n - 1);
    }
  }

  lemma JitteredGrows(cap: real, x: real, y: real, header: Option<real>, jitter: real)
    requires x <= y && jitter >= 0.0
    ensures Jittered(cap, x, header, jitter) <= Jittered(cap, y, header, jitter) <= cap
    ensures header.Some? ==> Jittered(cap, x, header, jitter) >= Min(cap, header.value + jitter)
    ensures Jittered(cap, x, header, jitter) >= Min(cap, x + jitter)
  {
  }

  lemma DelaysGrow(s: State, n: nat, m: nat, header: Option<real>, jitter: real)
    requires 1 <= n <= m && s.baseBackoff >= 0.0 && jitter >= 0.0
    ensures DelayFor(s, n, header, jitter) <= DelayFor(s, m, header, jitter) <= s.maxBackoff
    ensures header.Some? ==> DelayFor(s, n, header, jitter) >= Min(s.maxBackoff, header.value + jitter)
    ensures DelayFor(s, n, header, jitter) >= Min(s.maxBackoff, s.baseBackoff + jitter)
    ensures s.maxBackoff >= 0.0 ==> DelayFor(s, 1, None, 0.0) == Min(s.maxBackoff, s.baseBackoff)
    ensures s.maxBackoff >= 0.0 ==> DelayFor(s, n + 1, None, 0.0) == Min(s.maxBackoff, 2.0 * DelayFor(s, n, None, 0.0))
  {
    DoublingGrows(s.baseBackoff, n - 1, n);
    DoublingGrows(s.baseBackoff, n - 1, m - 1);
    JitteredGrows(s.maxBackoff, Doubled(s.baseBackoff, n - 1), Doubled(s.baseBackoff, m - 1), header, jitter);
    JitteredGrows(s.maxBackoff, s.baseBackoff, Doubled(s.baseBackoff, n - 1), header, jitter);
  }

  /** The earliest time at which an operation may start again, after a rate-limited answer. */
  function Deadline(s: State, a: Action): real
    requires Enabled(s, a) && a.EndOp? && a.outcome.RateLimited?
  {
    s.clock + DelayFor(s, s.backoffAttempts + 1, a.outcome.header, a.outcome.jitter)
  }

  lemma BackoffKept(s: State, a: Action, b: Backoff)
    requires Enabled(s, a) && BackoffOk(s, b) && |s.workers| <= 1 && s.clock >= 0.0
    ensures BackoffOk(Next(s, a), b)
  {
  }

  lemma BackingOffWaits(s: State, id: nat, delay: real)
    requires Known(s, id) && (s.workers == [] || !(s.workers[0].Respecting? || s.workers[0].Executing?))
    ensures BackedOff(s, id, delay).backoffs == s.backoffs + [Backoff(s.clock, delay)]
    ensures BackoffOk(BackedOff(s, id, delay), Backoff(s.clock, delay))
  {
  }

  lemma NewBackoffOk(s: State, a: Action)
    requires Enabled(s, a) && |s.workers| <= 1 && a.EndOp? && a.outcome.RateLimited?
    ensures |Next(s, a).backoffs| == |s.backoffs| + 1
    ensures var b := Next(s, a).backoffs[|s.backoffs|]; BackoffOk(Next(s, a), b) && b.time + b.delay == Deadline(s, a)
    ensures s.backoffs <= Next(s, a).backoffs
  {
    var free := Goto(s, a.w, if s.closed then Stopped else Waiting);
    BackingOffWaits(free, s.workers[a.w].id, DelayFor(s, s.backoffAttempts + 1, a.outcome.header, a.outcome.jitter));
  }

  lemma StepKeepsBackoffs(s: State, a: Action)
    requires Enabled(s, a)
    ensures (a.EndOp? && a.outcome.RateLimited?) || Next(s, a).backoffs == s.backoffs
    ensures s.backoffs <= Next(s, a).backoffs
    ensures |Next(s, a).workers| == |s.workers| && Next(s, a).clock >= s.clock
  {
  }

  lemma StepKeepsDeadlines(s: State, a: Action)
    requires DeadlinesOk(s) && Enabled(s, a)
    ensures DeadlinesOk(Next(s, a))
  {
    var later := Next(s, a);
    StepKeepsBackoffs(s, a);
    if a.EndOp? && a.outcome.RateLimited? {
      NewBackoffOk(s, a);
    }
    forall k | 0 <= k < |later.backoffs| ensures BackoffOk(later, later.backoffs[k]) {
      if k < |s.backoffs| {
        BackoffKept(s, a, s.backoffs[k]);
      }
    }
  }

  lemma {:induction false} ReachableDeadlines(trace: seq<State>, actions: seq<Action>, i: nat)
    requires Run(trace, actions) && i < |trace| && |trace[0].workers| <= 1
    ensures DeadlinesOk(trace[i])
  {
    if i > 0 {
      ReachableDeadlines(trace, actions, i - 1);
      StepKeepsDeadlines(trace[i - 1], actions[i - 1]);
    }
  }

  lemma {:induction false} BackoffsAreKept(trace: seq<State>, actions: seq<Action>, i: nat, j: nat)
    requires Run(trace, actions) && i <= j < |trace|
    ensures trace[i].backoffs <= trace[j].backoffs
    decreases j
  {
    if i < j {
      BackoffsAreKept(trace, actions, i, j - 1);
      StepKeepsBackoffs(trace[j - 1], actions[j - 1]);
    }
  }

  /**
   * With the default single worker, no operation starts before the deadline of any earlier backoff: its time
   * plus the exponential or requested delay, jittered and capped.
   */
  lemma SingleWorkerWaits(trace: seq<State>, actions: seq<Action>, i: nat, j: nat)
    requires Run(trace, actions) && |trace[0].workers| <= 1
    requires i < j < |actions|
    requires actions[i].EndOp? && actions[i].outcome.RateLimited? && actions[j].StartOp?
    ensures trace[j].clock >= Deadline(trace[i], actions[i])
  {
    ReachableDeadlines(trace, actions, i);
    NewBackoffOk(trace[i], actions[i]);
    BackoffsAreKept(trace, actions, i + 1, j);
    ReachableDeadlines(trace, actions, j);
    var k := |trace[i].backoffs|;
    assert trace[j].backoffs[k] == trace[i + 1].backoffs[k];
    assert BackoffOk(trace[j], trace[j].backoffs[k]);
  }

  lemma Extended(trace: seq<State>, actions: seq<Action>, a: Action) returns (longer: seq<State>, more: seq<Action>)
    requires Run(trace, actions) && Enabled(trace[|actions|], a)
    ensures Run(longer, more) && more == actions + [a] && longer == trace + [Next(trace[|actions|], a)]
  {
    longer, more := trace + [Next(trace[|actions|], a)], actions + [a];
  }

  function Fresh(n: nat, base: real, cap: real): State {
    State(base, cap, [], seq(n, _ => Waiting), [], [], [], [], 0.0, 0.0, 0, false, [], [])
  }

  lemma TwoTasksTaken(n: nat, base: real, cap: real) returns (trace: seq<State>, actions: seq<Action>)
    requires n >= 2
    ensures Run(trace, actions) && trace[0] == Fresh(n, base, cap) && |actions| == 4
    ensures trace[4] == Fresh(n, base, cap).(
      workers := Fresh(n, base, cap).workers[0 := Respecting(0, 0.0)][1 := Respecting(1, 0.0)],
      maxAttempts := [5, 5], attempts := [0, 0], futures := [Pending, Pending])
  {
    trace, actions := [Fresh(n, base, cap)], [];
    trace, actions := Extended(trace, actions, Enqueue(5));
    trace, actions := Extended(trace, actions, Enqueue(5));
    assert trace[|actions|] == Fresh(n, base, cap).(
      queue := [0, 1], maxAttempts := [5, 5], attempts := [0, 0], futures := [Pending, Pending]);
    trace, actions := Extended(trace, actions, Take(0));
    trace, actions := Extended(trace, actions, Take(1));
  }

  /**
   * With two workers or more, whatever the positive base and cap, the wait is not kept: a worker that took its
   * task before the backoff starts at once.
   */
  lemma SecondWorkerMayNotWait(n: nat, base: real, cap: real) returns (trace: seq<State>, actions: seq<Action>)
    requires n >= 2 && base > 0.0 && cap > 0.0
    ensures Run(trace, actions) && trace[0] == Fresh(n, base, cap) && |actions| == 7
    ensures actions[5].EndOp? && actions[5].outcome.RateLimited? && actions[6].StartOp?
    ensures trace[6].clock < Deadline(trace[5], actions[5])
  {
    trace, actions := TwoTasksTaken(n, base, cap);
    trace, actions := Extended(trace, actions, StartOp(0));
    trace, actions := Extended(trace, actions, EndOp(0, RateLimited(None, 0.0)));
    trace, actions := Extended(trace, actions, StartOp(1));
  }
}
