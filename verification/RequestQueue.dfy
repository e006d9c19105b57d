/**
 * One host of the retrying request queue (request_queue.py `RequestQueue`): its FIFO queue, workers,
 * retry deadline, delayed requeues and futures, over real time. Task `id` is the `id`-th enqueued.
 * Retry headers are numeric and the jitter drawn is not negative.
 */
module RequestQueue {
  import opened Prelude
  import opened Places

  datatype Worker =
    | Waiting                        // at the queue
    | Respecting(id: nat, wake: real) // sleeping until the retry deadline it saw
    | Executing(id: nat)
    | Stopped

  datatype Future = Pending | HasResult | HasException | Cancelled

  datatype Outcome = Raised | Succeeded | RateLimited(header: Option<real>, jitter: real)

  datatype Backoff = Backoff(time: real, delay: real)

  datatype State = State(
    baseBackoff: real,
    maxBackoff: real,
    queue: seq<nat>,
    workers: seq<Worker>,
    delayed: seq<nat>,
    maxAttempts: seq<int>,
    attempts: seq<nat>,
    futures: seq<Future>,
    clock: real,
    retryAfter: real,
    backoffAttempts: nat,
    closed: bool,
    starts: seq<(nat, real)>, // history: task and time of every operation started
    backoffs: seq<Backoff>    // history: every backoff, with its time and delay
  )

  datatype Action =
    | Tick(now: real)
    | Enqueue(maxAttempts: int)
    | Take(w: nat)
    | StartOp(w: nat)
    | EndOp(w: nat, outcome: Outcome)
    | Requeue(k: nat)
    | Cancel(id: nat)
    | Close

  function Min(x: real, y: real): real {
    if x <= y then x else y
  }

  function Max(x: real, y: real): real {
    if x >= y then x else y
  }

  /** `base * 2 ** n` */
  function Doubled(base: real, n: nat): real {
    if n == 0 then base else 2.0 * Doubled(base, n - 1)
  }

  function Jittered(cap: real, exponential: real, header: Option<real>, jitter: real): real {
    var asked := if header.Some? then header.value else 0.0;
    Min(cap, Max(Min(cap, exponential), asked) + jitter)
  }

  /** The `n`-th backoff in a row waits the exponential delay or what the header asks, jittered and capped. */
  function DelayFor(s: State, n: nat, header: Option<real>, jitter: real): real
    requires n >= 1
  {
    Jittered(s.maxBackoff, Doubled(s.baseBackoff, n - 1), header, jitter)
  }

  predicate Known(s: State, id: nat) {
    id < |s.attempts| && id < |s.futures| && id < |s.maxAttempts|
  }

  predicate Enabled(s: State, a: Action) {
    match a
    case Tick(now) => s.clock <= now
    case Enqueue(_) => !s.closed
    case Take(w) => w < |s.workers| && s.workers[w].Waiting? && s.queue != []
    case StartOp(w) =>
      w < |s.workers| && s.workers[w].Respecting? && s.workers[w].wake <= s.clock && Known(s, s.workers[w].id)
    case EndOp(w, outcome) =>
      && w < |s.workers| && s.workers[w].Executing? && Known(s, s.workers[w].id)
      && (outcome.RateLimited? ==> outcome.jitter >= 0.0)
    case Requeue(k) => k < |s.delayed|
    case Cancel(id) => id < |s.futures|
    case Close => true
  }

  function Goto(s: State, w: nat, worker: Worker): State
    requires w < |s.workers|
  {
    s.(workers := s.workers[w := worker])
  }

  function Settled(s: State, id: nat, future: Future): State
    requires id < |s.futures|
  {
    if s.futures[id] != Pending then s else s.(futures := s.futures[id := future])
  }

  function BackedOff(s: State, id: nat, delay: real): State
    requires Known(s, id)
  {
    var later := s.(
      backoffAttempts := s.backoffAttempts + 1,
      retryAfter := Max(s.retryAfter, s.clock + delay),
      backoffs := s.backoffs + [Backoff(s.clock, delay)]);
    if s.attempts[id] >= s.maxAttempts[id] then Settled(later, id, HasException)
    else later.(delayed := s.delayed + [id])
  }

  function Ended(s: State, w: nat, outcome: Outcome): State
    requires Enabled(s, EndOp(w, outcome))
  {
    var id := s.workers[w].id;
    var free := Goto(s, w, if s.closed then Stopped else Waiting);
    match outcome
    case Raised => Settled(free, id, HasException)
    case Succeeded => Settled(free.(backoffAttempts := 0, retryAfter := 0.0), id, HasResult)
    case RateLimited(header, jitter) => BackedOff(free, id, DelayFor(s, s.backoffAttempts + 1, header, jitter))
  }

  function Next(s: State, a: Action): State
    requires Enabled(s, a)
  {
    match a
    case Tick(now) => s.(clock := now)
    case Enqueue(maxAttempts) =>
      s.(queue := s.queue + [|s.attempts|], maxAttempts := s.maxAttempts + [maxAttempts],
         attempts := s.attempts + [0], futures := s.futures + [Pending])
    case Take(w) =>
      var wake := if s.retryAfter > 0.0 && s.clock < s.retryAfter then s.retryAfter else s.clock;
      Goto(s, w, Respecting(s.queue[0], wake)).(queue := s.queue[1..])
    case StartOp(w) =>
      var id := s.workers[w].id;
      Goto(s, w, Executing(id)).(attempts := s.attempts[id := s.attempts[id] + 1], starts := s.starts + [(id, s.clock)])
    case EndOp(w, outcome) => Ended(s, w, outcome)
    case Requeue(k) =>
      var woken := s.(delayed := s.delayed[..k] + s.delayed[k + 1..]);
      if s.closed then woken else woken.(queue := s.queue + [s.delayed[k]])
    case Cancel(id) => Settled(s, id, Cancelled)
    case Close => s.(closed := true, workers := seq(|s.workers|, _ => Stopped)) // the workers are cancelled
  }

  ghost predicate Init(s: State) {
    && s.queue == [] && s.delayed == [] && s.maxAttempts == [] && s.attempts == [] && s.futures == []
    && (forall w | 0 <= w < |s.workers| :: s.workers[w].Waiting?)
    && s.clock >= 0.0 && s.retryAfter == 0.0 && s.backoffAttempts == 0 && !s.closed && s.starts == []
      && s.backoffs == []
  }

  ghost predicate Run(trace: seq<State>, actions: seq<Action>) {
    && |trace| == |actions| + 1
    && Init(trace[0])
    && forall i {:trigger actions[i]} | 0 <= i < |actions| ::
      Enabled(trace[i], actions[i]) && trace[i + 1] == Next(trace[i], actions[i])
  }

  // ---- Where the tasks are, and how many operations they may still run ----

  function Slots(ids: seq<nat>): seq<Option<nat>> {
    seq(|ids|, i requires 0 <= i < |ids| => Some(ids[i]))
  }

  function WorkerLoad(x: Worker, running: bool): Option<nat> {
    match x
    case Respecting(id, _) => if running then None else Some(id)
    case Executing(id) => if running then Some(id) else None
    case _ => None
  }

  function WorkerLoads(workers: seq<Worker>, running: bool): seq<Option<nat>> {
    seq(|workers|, i requires 0 <= i < |workers| => WorkerLoad(workers[i], running))
  }

  /** In how many places the task waits for its next operation. */
  function Ahead(s: State, id: nat): nat {
    Count(Slots(s.queue), id) + Count(WorkerLoads(s.workers, false), id) + Count(Slots(s.delayed), id)
  }

  /** How many workers run the task's operation. */
  function Running(s: State, id: nat): nat {
    Count(WorkerLoads(s.workers, true), id)
  }

  function Tries(s: State, id: nat): nat {
    if id < |s.attempts| then s.attempts[id] else 0
  }

  /** The operations a task may run: its maximum, and one at the least. */
  function Cap(maxAttempts: int): nat {
    if maxAttempts >= 1 then maxAttempts else 1
  }

  function Caps(maxAttempts: seq<int>): nat {
    if maxAttempts == [] then 0 else Caps(maxAttempts[..|maxAttempts| - 1]) + Cap(maxAttempts[|maxAttempts| - 1])
  }

  function Sum(xs: seq<nat>): nat {
    if xs == [] then 0 else Sum(xs[..|xs| - 1]) + xs[|xs| - 1]
  }

  function StartsOf(starts: seq<(nat, real)>, id: nat): nat {
    if starts == [] then 0
    else StartsOf(starts[..|starts| - 1], id) + if starts[|starts| - 1].0 == id then 1 else 0
  }

  /** A task is in at most one place; while it waits, an attempt is left for it. */
  predicate TaskOk(s: State, id: nat) {
    && Ahead(s, id) + Running(s, id) <= 1
    && Tries(s, id) == StartsOf(s.starts, id)
    && (if id < |s.maxAttempts| then Tries(s, id) + Ahead(s, id) <= Cap(s.maxAttempts[id])
        else Ahead(s, id) + Running(s, id) == 0)
  }

  ghost predicate Inv(s: State) {
    && |s.attempts| == |s.futures| == |s.maxAttempts|
    && (forall id: nat :: TaskOk(s, id))
    && Sum(s.attempts) == |s.starts|
  }

  /** The operations that may still be started. */
  function Budget(s: State): int {
    Caps(s.maxAttempts) - Sum(s.attempts)
  }

  // ---- The retry deadline, for the default single worker ----

  predicate Over(b: Backoff, time: real) {
    b.time + b.delay <= time
  }

  /** Every backoff is over, or the deadline in force waits for it; a worker about to start has waited for it. */
  predicate BackoffOk(s: State, b: Backoff) {
    && (Over(b, s.clock) || Over(b, s.retryAfter))
    && (s.workers != [] ==>
          && (s.workers[0].Respecting? ==> Over(b, s.workers[0].wake))
          && (s.workers[0].Executing? ==> Over(b, s.clock)))
  }

  ghost predicate DeadlinesOk(s: State) {
    && s.clock >= 0.0
    && |s.workers| <= 1
    && forall k | 0 <= k < |s.backoffs| :: BackoffOk(s, s.backoffs[k])
  }
}
