/**
 * The rate-limited request queue (request_queue.py `RateLimitedRequestQueue`) as a state machine over
 * its FIFO queue, its workers, the per-host semaphores, the delayed requeues and the callers' futures.
 * Steps are the stretches between two awaits; the sleeps only delay them. Request functions raise
 * ordinary exceptions at most.
 */
module RateLimitedQueue {
  import opened Prelude
  import opened Places

  /** A queued entry: the sentinel that stops a worker, or a request with its attempt. */
  datatype Item = Sentinel | Request(id: nat, attempt: nat)

  datatype Worker =
    | Idle
    | Holding(id: nat, attempt: nat) // sleeping off a backoff, or waiting for the host's semaphore
    | Calling(id: nat, attempt: nat)
    | Exited

  datatype Future = Pending | HasResult | HasException | Cancelled

  datatype Outcome = Raised | RateLimited | Succeeded

  datatype State = State(
    maxWorkers: nat,
    perHostLimit: nat,
    queue: seq<Item>,
    workers: seq<Worker>,
    delayed: seq<(nat, nat)>, // requeues that are asleep: request and attempt
    futures: map<nat, Future>,
    hosts: map<nat, string>,
    permits: map<string, nat>, // free permits of the hosts that have a semaphore
    closed: bool,
    totalEnqueued: nat,
    completed: nat,
    limited: set<nat>          // history: requests that have received a rate-limited outcome
  )

  datatype Action =
    | Start
    | Enqueue(id: nat, host: string)
    | Take(w: nat)
    | Acquire(w: nat)
    | Finish(w: nat, outcome: Outcome)
    | Requeue(k: nat)
    | Cancel(id: nat)
    | Close

  function Permits(s: State, host: string): nat {
    if host in s.permits then s.permits[host] else s.perHostLimit
  }

  predicate Enabled(s: State, a: Action) {
    match a
    case Start => true
    case Enqueue(id, _) => !s.closed && id !in s.futures
    case Take(w) => w < |s.workers| && s.workers[w].Idle? && s.queue != []
    case Acquire(w) =>
      w < |s.workers| && s.workers[w].Holding? && s.workers[w].id in s.hosts && Permits(s, s.hosts[s.workers[w].id]) > 0
    case Finish(w, _) =>
      w < |s.workers| && s.workers[w].Calling? && s.workers[w].id in s.hosts && s.workers[w].id in s.futures
    case Requeue(k) => k < |s.delayed| && s.delayed[k].0 in s.futures
    case Cancel(id) => id in s.futures
    case Close => true
  }

  function Sentinels(n: nat): seq<Item> {
    seq(n, _ => Sentinel)
  }

  function Goto(s: State, w: nat, worker: Worker): State
    requires w < |s.workers|
  {
    s.(workers := s.workers[w := worker])
  }

  function Settled(s: State, id: nat, future: Future): State
    requires id in s.futures
  {
    if s.futures[id] != Pending then s else s.(futures := s.futures[id := future])
  }

  function Finished(s: State, w: nat, outcome: Outcome): State
    requires Enabled(s, Finish(w, outcome))
  {
    var (id, attempt) := (s.workers[w].id, s.workers[w].attempt);
    var host := s.hosts[id];
    var freed := Goto(s, w, Idle).(permits := s.permits[host := Permits(s, host) + 1]);
    match outcome
    case Raised => Settled(freed, id, HasException)
    case RateLimited => freed.(delayed := s.delayed + [(id, attempt)], limited := s.limited + {id})
    case Succeeded =>
      if s.futures[id] == Pending then Settled(freed, id, HasResult).(completed := s.completed + 1) else freed
  }

  function Taken(s: State, w: nat): State
    requires Enabled(s, Take(w))
  {
    var rest := s.(queue := s.queue[1..]);
    match s.queue[0]
    case Sentinel => Goto(rest, w, Exited)
    case Request(id, attempt) =>
      if id in s.futures && s.futures[id] == Cancelled then rest else Goto(rest, w, Holding(id, attempt))
  }

  function Next(s: State, a: Action): State
    requires Enabled(s, a)
  {
    match a
    case Start => if s.workers != [] then s else s.(workers := seq(s.maxWorkers, _ => Idle))
    case Enqueue(id, host) =>
      s.(queue := s.queue + [Request(id, 0)], futures := s.futures[id := Pending], hosts := s.hosts[id := host],
         totalEnqueued := s.totalEnqueued + 1)
    case Take(w) => Taken(s, w)
    case Acquire(w) =>
      var host := s.hosts[s.workers[w].id];
      Goto(s, w, Calling(s.workers[w].id, s.workers[w].attempt)).(permits := s.permits[host := Permits(s, host) - 1])
    case Finish(w, outcome) => Finished(s, w, outcome)
    case Requeue(k) =>
      var (id, attempt) := s.delayed[k];
      var woken := s.(delayed := s.delayed[..k] + s.delayed[k + 1..]);
      if s.futures[id] == Cancelled then woken else woken.(queue := s.queue + [Request(id, attempt + 1)])
    case Cancel(id) => Settled(s, id, Cancelled)
    case Close => if s.closed then s else s.(closed := true, queue := s.queue + Sentinels(|s.workers|))
  }

  ghost predicate Init(s: State) {
    && s.maxWorkers > 0 && s.perHostLimit > 0
    && s.queue == [] && s.workers == [] && s.delayed == [] && s.futures == map[] && s.hosts == map[]
      && s.permits == map[]
    && !s.closed && s.totalEnqueued == 0 && s.completed == 0 && s.limited == {}
  }

  ghost predicate Run(trace: seq<State>, actions: seq<Action>) {
    && |trace| == |actions| + 1
    && Init(trace[0])
    && forall i {:trigger actions[i]} | 0 <= i < |actions| ::
      Enabled(trace[i], actions[i]) && trace[i + 1] == Next(trace[i], actions[i])
  }

  // ---- Where the requests are ----

  function ItemLoad(x: Item): Option<nat> {
    if x.Request? then Some(x.id) else None
  }

  function WorkerLoad(x: Worker): Option<nat> {
    if x.Holding? || x.Calling? then Some(x.id) else None
  }

  function QueueLoads(queue: seq<Item>): seq<Option<nat>> {
    seq(|queue|, i requires 0 <= i < |queue| => ItemLoad(queue[i]))
  }

  function WorkerLoads(workers: seq<Worker>): seq<Option<nat>> {
    seq(|workers|, i requires 0 <= i < |workers| => WorkerLoad(workers[i]))
  }

  function DelayedLoads(delayed: seq<(nat, nat)>): seq<Option<nat>> {
    seq(|delayed|, i requires 0 <= i < |delayed| => Some(delayed[i].0))
  }

  /** In how many places - queue, workers, delayed requeues - the request is. */
  function PlacesOf(s: State, id: nat): nat {
    Count(QueueLoads(s.queue), id) + Count(WorkerLoads(s.workers), id) + Count(DelayedLoads(s.delayed), id)
  }

  function HostLoad(hosts: map<nat, string>, host: string, x: Worker): Option<nat> {
    if x.Calling? && x.id in hosts && hosts[x.id] == host then Some(0) else None
  }

  function HostLoads(hosts: map<nat, string>, host: string, workers: seq<Worker>): seq<Option<nat>> {
    seq(|workers|, i requires 0 <= i < |workers| => HostLoad(hosts, host, workers[i]))
  }

  /** How many calls to the host are in flight. */
  function InFlight(s: State, host: string): nat {
    Count(HostLoads(s.hosts, host, s.workers), 0)
  }

  // ---- What holds in every reachable state ----

  /** A request that is neither settled nor cancelled is in one place, a settled one is in none. */
  predicate PlaceOk(s: State, id: nat) {
    if id !in s.futures then PlacesOf(s, id) == 0
    else match s.futures[id]
      case Pending => PlacesOf(s, id) == 1
      case Cancelled => PlacesOf(s, id) <= 1
      case _ => PlacesOf(s, id) == 0
  }

  ghost predicate Placed(s: State) {
    forall id: nat :: PlaceOk(s, id)
  }

  predicate Balanced(s: State, host: string) {
    InFlight(s, host) + Permits(s, host) == s.perHostLimit
  }

  ghost predicate SemaphoresOk(s: State) {
    forall host: string :: Balanced(s, host)
  }

  ghost function Results(futures: map<nat, Future>): set<nat> {
    set id | id in futures && futures[id] == HasResult
  }

  ghost predicate Counted(s: State) {
    s.completed == |Results(s.futures)| && s.totalEnqueued == |s.futures| && s.hosts.Keys == s.futures.Keys
  }

  /** The sentinels come with closing; behind one, and once a worker has left, only repeated attempts queue. */
  ghost predicate Ordered(s: State) {
    && (forall i | 0 <= i < |s.queue| && s.queue[i].Sentinel? :: s.closed)
    && (forall i, j | 0 <= i < j < |s.queue| && s.queue[i].Sentinel? && s.queue[j].Request? :: s.queue[j].attempt > 0)
    && (forall w | 0 <= w < |s.workers| && s.workers[w].Exited? ::
          s.closed && forall j | 0 <= j < |s.queue| && s.queue[j].Request? :: s.queue[j].attempt > 0)
  }

  /** A repeated attempt, queued or asleep, is one after a rate-limited outcome. */
  ghost predicate RepeatsAreLimited(s: State) {
    && (forall i | 0 <= i < |s.queue| && s.queue[i].Request? && s.queue[i].attempt > 0 :: s.queue[i].id in s.limited)
    && (forall k | 0 <= k < |s.delayed| :: s.delayed[k].0 in s.limited)
  }

  ghost predicate Inv(s: State) {
    Placed(s) && SemaphoresOk(s) && Counted(s) && Ordered(s) && RepeatsAreLimited(s)
  }
}
