/**
 * The durable intake (intake.py `_publish_once`, function_app.py `dispatch_pending_webhooks`): stage
 * the event, send what the store holds, mark it sent. Requests, retries and timer dispatches
 * interleave step by step and may crash between two steps; a send may succeed although its caller
 * crashes. Staging is create, then read back, as in the Azure store; the memory and SQLite stores do
 * both at once. The broker drops a message whose id it has seen.
 */
module Inbox {
  import opened Prelude
  import opened Events
  import opened Outbox
  import opened Text
  import Payloads

  datatype Message = Message(id: Digest, body: EventEnvelope)

  datatype Broker = Broker(queue: seq<Message>, seen: set<Digest>)

  /** `service_bus_message_id` */
  function MessageId(e: EventEnvelope): Digest {
    Payloads.EventKey(e)
  }

  function Delivered(b: Broker, m: Message): Broker {
    if m.id in b.seen then b else Broker(b.queue + [m], b.seen + {m.id})
  }

  datatype Pc =
    | Staging(event: EventEnvelope)
    | Reading(event: EventEnvelope, created: bool)
    | Sending(event: EventEnvelope)
    | Marking(event: EventEnvelope)
    | Duplicate(created: bool)
    | Over

  datatype State = State(
    records: Table<Key, Stored>,
    workers: map<nat, Pc>,
    sends: seq<EventEnvelope>, // history: every event handed to the broker
    broker: Broker
  )

  datatype Action =
    | Begin(w: nat, event: EventEnvelope)
    | CreateRecord(w: nat, container: Option<string>) // where payloads are offloaded to, if anywhere
    | ReadBack(w: nat)
    | Send(w: nat)
    | Mark(w: nat)
    | Crash(w: nat)
    | TimerPick(w: nat, key: Key)

  /** What the store keeps for dispatch: the event itself, or its claim check. */
  function Dispatched(e: EventEnvelope, container: Option<string>): EventEnvelope {
    match container
    case None => e
    case Some(c) => Payloads.Prepared(c, e)
  }

  predicate Enabled(s: State, a: Action) {
    match a
    case Begin(w, _) => w !in s.workers
    case CreateRecord(w, _) => w in s.workers && s.workers[w].Staging?
    case ReadBack(w) => w in s.workers && s.workers[w].Reading? && KeyOf(s.workers[w].event) in s.records
    case Send(w) => w in s.workers && s.workers[w].Sending?
    case Mark(w) => w in s.workers && s.workers[w].Marking?
    case Crash(w) => w in s.workers
    case TimerPick(w, key) => w !in s.workers && key in s.records && s.records[key].state == Pending
  }

  function Goto(s: State, w: nat, pc: Pc): State {
    s.(workers := s.workers[w := pc])
  }

  function Next(s: State, a: Action): State
    requires Enabled(s, a)
  {
    match a
    case Begin(w, event) => Goto(s, w, Staging(event))
    case CreateRecord(w, container) =>
      var event := s.workers[w].event;
      Goto(s, w, Reading(event, KeyOf(event) !in s.records)).(
        records := Created(s.records, KeyOf(event), Stored(Dispatched(event, container), PayloadHash(event))))
    case ReadBack(w) =>
      var pc := s.workers[w];
      match StageAnswer(s.records, pc.event, pc.created, Reject) {
        case Err(_) => Goto(s, w, Over)
        case Ok(staged) =>
          if staged.state == Sent then Goto(s, w, Duplicate(staged.created)) else Goto(s, w, Sending(staged.event))
      }
    case Send(w) =>
      var event := s.workers[w].event;
      Goto(s, w, Marking(event)).(
        sends := s.sends + [event], broker := Delivered(s.broker, Message(MessageId(event), event)))
    case Mark(w) => Goto(s, w, Over).(records := MarkedSent(s.records, KeyOf(s.workers[w].event)))
    case Crash(w) => Goto(s, w, Over)
    case TimerPick(w, key) => Goto(s, w, Sending(s.records[key].content.event))
  }

  function Start(): State {
    State(map[], map[], [], Broker([], {}))
  }

  // ---- What holds in every reachable state ----

  ghost predicate IsStored(s: State, e: EventEnvelope) {
    KeyOf(e) in s.records && s.records[KeyOf(e)].content.event == e
  }

  ghost predicate WorkerOk(s: State, pc: Pc) {
    match pc
    case Reading(event, _) => KeyOf(event) in s.records
    case Sending(event) => IsStored(s, event)
    case Marking(event) => IsStored(s, event) && event in s.sends
    case _ => true
  }

  /** The queue holds one message for every message id sent, and its body is an event sent under that id. */
  ghost predicate BrokerOk(s: State) {
    && (forall i, j | 0 <= i < j < |s.broker.queue| :: s.broker.queue[i].id != s.broker.queue[j].id)
    && (forall m | m in s.broker.queue :: m.id in s.broker.seen && m.body in s.sends && m.id == MessageId(m.body))
    && (forall d | d in s.broker.seen :: exists m :: m in s.broker.queue && m.id == d)
    && (forall e | e in s.sends :: MessageId(e) in s.broker.seen)
  }

  ghost predicate Inv(s: State) {
    && (forall k | k in s.records :: KeyOf(s.records[k].content.event) == k)
    && (forall w | w in s.workers :: WorkerOk(s, s.workers[w]))
    && (forall e | e in s.sends :: IsStored(s, e))
    && (forall k | k in s.records && s.records[k].state == Sent :: s.records[k].content.event in s.sends)
    && BrokerOk(s)
  }

  ghost predicate Grows(s: State, later: State) {
    Extends(s.records, later.records) && s.sends <= later.sends && s.broker.queue <= later.broker.queue
  }

  lemma StepGrows(s: State, a: Action)
    requires Enabled(s, a)
    ensures Grows(s, Next(s, a))
  {
  }

  lemma DeliveryKeepsBroker(s: State, e: EventEnvelope)
    requires BrokerOk(s)
    ensures BrokerOk(s.(sends := s.sends + [e], broker := Delivered(s.broker, Message(MessageId(e), e))))
  {
    var m := Message(MessageId(e), e);
    var later := s.(sends := s.sends + [e], broker := Delivered(s.broker, m));
    forall d | d in later.broker.seen ensures exists n :: n in later.broker.queue && n.id == d {
      if d in s.broker.seen {
        var n :| n in s.broker.queue && n.id == d;
        assert n in later.broker.queue;
      } else {
        assert m in later.broker.queue;
      }
    }
  }

  lemma WorkerStaysOk(s: State, later: State, pc: Pc)
    requires WorkerOk(s, pc) && Grows(s, later)
    ensures WorkerOk(later, pc)
  {
  }

  lemma StepperKept(s: State, a: Action, w: nat)
    requires Inv(s) && Enabled(s, a) && w in Next(s, a).workers
    requires w in s.workers ==> Next(s, a).workers[w] != s.workers[w]
    ensures WorkerOk(Next(s, a), Next(s, a).workers[w])
  {
    if w in s.workers {
      assert WorkerOk(s, s.workers[w]);
    }
  }

  lemma WorkersKept(s: State, a: Action, w: nat)
    requires Inv(s) && Enabled(s, a) && w in Next(s, a).workers
    ensures WorkerOk(Next(s, a), Next(s, a).workers[w])
  {
    if w in s.workers && Next(s, a).workers[w] == s.workers[w] {
      StepGrows(s, a);
      WorkerStaysOk(s, Next(s, a), s.workers[w]);
    } else {
      StepperKept(s, a, w);
    }
  }

  lemma KeysKept(s: State, a: Action)
    requires (forall k | k in s.records :: KeyOf(s.records[k].content.event) == k) && Enabled(s, a)
    ensures forall k | k in Next(s, a).records :: KeyOf(Next(s, a).records[k].content.event) == k
  {
  }

  lemma SentKept(s: State, a: Action, later: State)
    requires Inv(s) && Enabled(s, a) && later == Next(s, a)
    ensures forall k | k in later.records && later.records[k].state == Sent ::
      later.records[k].content.event in later.sends
  {
    StepGrows(s, a);
    if a.Mark? {
      assert WorkerOk(s, s.workers[a.w]);
    }
  }

  lemma StepSends(s: State, a: Action)
    requires Enabled(s, a)
    ensures if a.Send? then
        var event := s.workers[a.w].event;
        Next(s, a).sends == s.sends + [event]
        && Next(s, a).broker == Delivered(s.broker, Message(MessageId(event), event))
      else Next(s, a).sends == s.sends && Next(s, a).broker == s.broker
  {
  }

  lemma BrokerKept(s: State, a: Action, later: State)
    requires BrokerOk(s) && Enabled(s, a) && later == Next(s, a)
    ensures BrokerOk(later)
  {
    StepSends(s, a);
    if a.Send? {
      DeliveryKeepsBroker(s, s.workers[a.w].event);
    }
  }

  lemma SendsKept(s: State, a: Action, later: State)
    requires Inv(s) && Enabled(s, a) && later == Next(s, a)
    ensures forall e | e in later.sends :: IsStored(later, e)
  {
    StepSends(s, a);
    StepGrows(s, a);
    if a.Send? {
      assert WorkerOk(s, s.workers[a.w]);
    }
  }

  lemma StepKeepsInv(s: State, a: Action)
    requires Inv(s) && Enabled(s, a)
    ensures Inv(Next(s, a))
  {
    var later := Next(s, a);
    KeysKept(s, a);
    SentKept(s, a, later);
    SendsKept(s, a, later);
    BrokerKept(s, a, later);
    forall w | w in later.workers ensures WorkerOk(later, later.workers[w]) {
      WorkersKept(s, a, w);
    }
  }

  /** Only `Begin` brings an event to be staged. */
  lemma EventsOnlyMove(s: State, a: Action, w: nat)
    requires Enabled(s, a) && w in Next(s, a).workers
    requires Next(s, a).workers[w].Staging? || Next(s, a).workers[w].Reading?
    ensures var event := Next(s, a).workers[w].event;
      if w in s.workers then (s.workers[w].Staging? || s.workers[w].Reading?) && s.workers[w].event == event
      else a == Begin(w, event)
  {
  }

  ghost predicate Run(trace: seq<State>, actions: seq<Action>) {
    && |trace| == |actions| + 1
    && trace[0] == Start()
    && forall i {:trigger actions[i]} | 0 <= i < |actions| ::
      Enabled(trace[i], actions[i]) && trace[i + 1] == Next(trace[i], actions[i])
  }

  lemma {:induction false} ReachableInv(trace: seq<State>, actions: seq<Action>, i: nat)
    requires Run(trace, actions) && i < |trace|
    ensures Inv(trace[i])
  {
    if i > 0 {
      ReachableInv(trace, actions, i - 1);
      StepKeepsInv(trace[i - 1], actions[i - 1]);
    }
  }

  lemma {:induction false} RunGrows(trace: seq<State>, actions: seq<Action>, i: nat, j: nat)
    requires Run(trace, actions) && i <= j < |trace|
    ensures Grows(trace[i], trace[j])
    decreases j
  {
    if i < j {
      RunGrows(trace, actions, i, j - 1);
      StepGrows(trace[j - 1], actions[j - 1]);
    }
  }

  /** Staged content is for ever, a send is never taken back, and a sent record has been published. */
  lemma StagedRecordsAreDurable(trace: seq<State>, actions: seq<Action>, i: nat, j: nat, k: Key)
    requires Run(trace, actions) && i <= j < |trace| && k in trace[i].records
    ensures k in trace[j].records && trace[j].records[k].content == trace[i].records[k].content
    ensures trace[i].records[k].state == Sent ==> trace[j].records[k].state == Sent
    ensures trace[j].records[k].state == Sent ==> trace[j].records[k].content.event in trace[j].sends
  {
    RunGrows(trace, actions, i, j);
    ReachableInv(trace, actions, j);
  }

  lemma MessageIdsAreInjective(e: EventEnvelope, f: EventEnvelope)
    requires 0 as char !in e.source && 0 as char !in f.source && MessageId(e) == MessageId(f)
    ensures KeyOf(e) == KeyOf(f)
  {
    SplitAtFirst(e.source, f.source, e.id, f.id, 0 as char);
  }

  /**
   * All publications of a key carry the stored envelope under one message id; the broker enqueues
   * it exactly once, and never drops one key's message for another's.
   */
  lemma KeysAreEnqueuedOnce(trace: seq<State>, actions: seq<Action>, i: nat)
    requires Run(trace, actions) && i < |trace|
    requires forall e | e in trace[i].sends :: 0 as char !in e.source
    ensures forall e, f | e in trace[i].sends && f in trace[i].sends && KeyOf(e) == KeyOf(f) ::
      e == f && IsStored(trace[i], e) && MessageId(e) == MessageId(f)
    ensures forall e | e in trace[i].sends :: Message(MessageId(e), e) in trace[i].broker.queue
    ensures forall m, n | 0 <= m < n < |trace[i].broker.queue| ::
      KeyOf(trace[i].broker.queue[m].body) != KeyOf(trace[i].broker.queue[n].body)
  {
    ReachableInv(trace, actions, i);
    var s := trace[i];
    forall e | e in s.sends ensures Message(MessageId(e), e) in s.broker.queue {
      assert MessageId(e) in s.broker.seen;
      var m :| m in s.broker.queue && m.id == MessageId(e);
      MessageIdsAreInjective(m.body, e);
      assert IsStored(s, m.body) && IsStored(s, e);
    }
    forall e, f | e in s.sends && f in s.sends && KeyOf(e) == KeyOf(f) ensures e == f {
      assert IsStored(s, e) && IsStored(s, f);
    }
    forall m, n | 0 <= m < n < |s.broker.queue| ensures KeyOf(s.broker.queue[m].body) != KeyOf(s.broker.queue[n].body) {
      assert s.broker.queue[m] in s.broker.queue && s.broker.queue[n] in s.broker.queue;
      var (e, f) := (s.broker.queue[m].body, s.broker.queue[n].body);
      assert KeyOf(e) == KeyOf(f) ==> MessageId(e) == MessageId(f);
    }
  }

  // ---- When a creator finds its record sent ----

  /** The step marks the record sent. */
  predicate Marks(s: State, a: Action, key: Key) {
    Enabled(s, a) && a.Mark? && KeyOf(s.workers[a.w].event) == key
  }

  predicate Holds(s: State, key: Key, content: Stored, sent: bool) {
    key in s.records && s.records[key] == Record(content, if sent then Sent else Pending)
  }

  lemma StepMarks(s: State, a: Action, later: State, key: Key, content: Stored, sent: bool)
    requires Enabled(s, a) && later == Next(s, a) && Holds(s, key, content, sent)
    ensures Holds(later, key, content, sent || Marks(s, a, key))
  {
  }

  /** Some step from `i` on and before `j` marks the record sent. */
  ghost predicate MarkedBetween(trace: seq<State>, actions: seq<Action>, i: nat, j: nat, key: Key)
    requires i <= j <= |actions| <= |trace|
  {
    exists k | i <= k < j :: Marks(trace[k], actions[k], key)
  }

  lemma MarkedNext(trace: seq<State>, actions: seq<Action>, i: nat, j: nat, key: Key)
    requires i < j <= |actions| <= |trace|
    ensures MarkedBetween(trace, actions, i, j, key)
       <==> MarkedBetween(trace, actions, i, j - 1, key) || Marks(trace[j - 1], actions[j - 1], key)
  {
  }

  lemma StepAt(trace: seq<State>, actions: seq<Action>, i: nat) returns (s: State, a: Action)
    requires Run(trace, actions) && i < |actions|
    ensures s == trace[i] && a == actions[i] && Enabled(s, a) && trace[i + 1] == Next(s, a)
  {
    s, a := trace[i], actions[i];
  }

  lemma SentWhenMarkedNext(
    trace: seq<State>, actions: seq<Action>, i: nat, j: nat, key: Key, content: Stored, sent: bool)
    requires Run(trace, actions) && i <= j < |actions| && Holds(trace[j], key, content, sent)
    requires sent <==> MarkedBetween(trace, actions, i, j, key)
    ensures Holds(trace[j + 1], key, content, MarkedBetween(trace, actions, i, j + 1, key))
  {
    MarkedNext(trace, actions, i, j + 1, key);
    var s, a := StepAt(trace, actions, j);
    StepMarks(s, a, trace[j + 1], key, content, sent);
  }

  lemma {:induction false} SentWhenMarked(
    trace: seq<State>, actions: seq<Action>, i: nat, j: nat, key: Key, content: Stored)
    requires Run(trace, actions) && i <= j < |trace| && Holds(trace[i], key, content, false)
    ensures Holds(trace[j], key, content, MarkedBetween(trace, actions, i, j, key))
    decreases j
  {
    if i < j {
      SentWhenMarked(trace, actions, i, j - 1, key, content);
      SentWhenMarkedNext(trace, actions, i, j - 1, key, content, MarkedBetween(trace, actions, i, j - 1, key));
    }
  }

  /** A worker that waits to read its record back goes on waiting, or is past reading for good. */
  predicate Awaits(s: State, w: nat, e: EventEnvelope) {
    w in s.workers && (s.workers[w] == Reading(e, true) || !(s.workers[w].Staging? || s.workers[w].Reading?))
  }

  lemma StepAwaits(s: State, a: Action, w: nat, e: EventEnvelope)
    requires Enabled(s, a) && Awaits(s, w, e)
    ensures Awaits(Next(s, a), w, e)
  {
  }

  lemma {:induction false} CreatorAwaits(
    trace: seq<State>, actions: seq<Action>, i: nat, j: nat, w: nat, e: EventEnvelope)
    requires Run(trace, actions) && i <= j < |trace| && Awaits(trace[i], w, e)
    ensures Awaits(trace[j], w, e)
    decreases j
  {
    if i < j {
      CreatorAwaits(trace, actions, i, j - 1, w, e);
      StepAwaits(trace[j - 1], actions[j - 1], w, e);
    }
  }

  lemma CreatorReadsItsRecord(s: State, w: nat, e: EventEnvelope, container: Option<string>)
    requires Enabled(s, ReadBack(w)) && s.workers[w] == Reading(e, true)
    requires s.records[KeyOf(e)].content == Stored(Dispatched(e, container), PayloadHash(e))
    ensures Next(s, ReadBack(w)).workers[w]
         == if s.records[KeyOf(e)].state == Sent then Duplicate(true) else Sending(Dispatched(e, container))
  {
  }

  lemma CreationAwaits(s: State, w: nat, container: Option<string>, e: EventEnvelope)
    requires Enabled(s, CreateRecord(w, container)) && e == s.workers[w].event && KeyOf(e) !in s.records
    ensures var later := Next(s, CreateRecord(w, container));
      && later.workers[w] == Reading(e, true) && KeyOf(e) in later.records
      && later.records[KeyOf(e)] == Record(Stored(Dispatched(e, container), PayloadHash(e)), Pending)
  {
  }

  /** While a worker waits to read its record back, a step that marks the record is another worker's. */
  lemma MarkersAreOthers(s: State, a: Action, w: nat, e: EventEnvelope, key: Key)
    requires Marks(s, a, key) && w in s.workers && s.workers[w] == Reading(e, true)
    ensures a.w != w
  {
  }

  lemma PastReadingIsFinal(s: State, a: Action, w: nat)
    requires Enabled(s, a) && w in s.workers && !(s.workers[w].Staging? || s.workers[w].Reading?)
    ensures w in Next(s, a).workers && !(Next(s, a).workers[w].Staging? || Next(s, a).workers[w].Reading?)
  {
  }

  /** Who reads at `j` has been waiting at every `k` before. */
  lemma {:induction false} CreatorStillWaits(
    trace: seq<State>, actions: seq<Action>, i: nat, k: nat, j: nat, w: nat, e: EventEnvelope)
    requires Run(trace, actions) && i <= k <= j < |trace| && Awaits(trace[i], w, e)
    requires w in trace[j].workers && trace[j].workers[w].Reading?
    ensures w in trace[k].workers && trace[k].workers[w] == Reading(e, true)
    decreases j - k
  {
    CreatorAwaits(trace, actions, i, k, w, e);
    if k < j {
      CreatorStillWaits(trace, actions, i, k + 1, j, w, e);
      if trace[k].workers[w] != Reading(e, true) {
        PastReadingIsFinal(trace[k], actions[k], w);
      }
    }
  }

  /**
   * The creator of a record reads it back, calls its delivery a duplicate if and only if the record was marked
   * sent in between, and otherwise sends it itself. If it was marked, then by another worker, and the stored
   * event has been sent.
   */
  lemma CreatorFindsItSentIfMarked(
    trace: seq<State>, actions: seq<Action>, i: nat, j: nat, w: nat, container: Option<string>)
    requires Run(trace, actions) && i < j < |actions|
    requires actions[i] == CreateRecord(w, container) && actions[j] == ReadBack(w)
    requires KeyOf(trace[i].workers[w].event) !in trace[i].records
    ensures var e := trace[i].workers[w].event;
      && KeyOf(e) in trace[j].records
      && (trace[j].records[KeyOf(e)].state == Sent <==> MarkedBetween(trace, actions, i + 1, j, KeyOf(e)))
      && trace[j + 1].workers[w] == (if MarkedBetween(trace, actions, i + 1, j, KeyOf(e)) then Duplicate(true)
                                     else Sending(Dispatched(e, container)))
      && (forall k | i < k < j && Marks(trace[k], actions[k], KeyOf(e)) :: actions[k].w != w)
      && (MarkedBetween(trace, actions, i + 1, j, KeyOf(e)) ==> Dispatched(e, container) in trace[j].sends)
  {
    var e := trace[i].workers[w].event;
    CreationAwaits(trace[i], w, container, e);
    SentWhenMarked(trace, actions, i + 1, j, KeyOf(e), Stored(Dispatched(e, container), PayloadHash(e)));
    CreatorAwaits(trace, actions, i + 1, j, w, e);
    CreatorReadsItsRecord(trace[j], w, e, container);
    ReachableInv(trace, actions, j);
    forall k | i < k < j && Marks(trace[k], actions[k], KeyOf(e)) ensures actions[k].w != w {
      CreatorStillWaits(trace, actions, i + 1, k, j, w, e);
      MarkersAreOthers(trace[k], actions[k], w, e, KeyOf(e));
    }
  }

  lemma Extended(trace: seq<State>, actions: seq<Action>, a: Action) returns (longer: seq<State>, more: seq<Action>)
    requires Run(trace, actions) && Enabled(trace[|actions|], a)
    ensures Run(longer, more) && |more| == |actions| + 1 && trace <= longer && actions <= more
    ensures longer[|more|] == Next(trace[|actions|], a)
  {
    longer, more := trace + [Next(trace[|actions|], a)], actions + [a];
  }

  /** The timer sends and marks the record before its creator reads it back: created, yet a duplicate. */
  lemma CreatorMayFindItSent(e: EventEnvelope) returns (trace: seq<State>, actions: seq<Action>)
    ensures Run(trace, actions)
    ensures 1 in trace[|actions|].workers && trace[|actions|].workers[1] == Duplicate(true)
  {
    trace, actions := [Start()], [];
    trace, actions := Extended(trace, actions, Begin(1, e));
    trace, actions := Extended(trace, actions, CreateRecord(1, None));
    trace, actions := Extended(trace, actions, TimerPick(2, KeyOf(e)));
    trace, actions := Extended(trace, actions, Send(2));
    trace, actions := Extended(trace, actions, Mark(2));
    trace, actions := Extended(trace, actions, ReadBack(1));
  }

  // ---- Recovery ----

  /** The run goes on, from where it was. */
  ghost predicate Continues(trace: seq<State>, actions: seq<Action>, longer: seq<State>, more: seq<Action>) {
    Run(longer, more) && trace <= longer && actions <= more
  }

  lemma TimerSends(trace: seq<State>, actions: seq<Action>, w: nat, key: Key)
    returns (longer: seq<State>, more: seq<Action>)
    requires Run(trace, actions) && key in trace[|actions|].records && w !in trace[|actions|].workers
    requires trace[|actions|].records[key].state == Pending
    requires KeyOf(trace[|actions|].records[key].content.event) == key
    ensures Continues(trace, actions, longer, more)
    ensures longer[|more|].records == MarkedSent(trace[|actions|].records, key)
    ensures longer[|more|].sends == trace[|actions|].sends + [trace[|actions|].records[key].content.event]
  {
    longer, more := Extended(trace, actions, TimerPick(w, key));
    longer, more := Extended(longer, more, Send(w));
    longer, more := Extended(longer, more, Mark(w));
  }

  /**
   * Whatever has crashed, a staged record is never lost: from every reachable state the timer can send the stored
   * event and mark it, with no help from anyone.
   */
  lemma PendingRecordsCanBeRecovered(trace: seq<State>, actions: seq<Action>, key: Key)
    returns (longer: seq<State>, more: seq<Action>)
    requires Run(trace, actions) && key in trace[|actions|].records
    ensures Continues(trace, actions, longer, more) && key in longer[|more|].records
    ensures longer[|more|].records[key] == Record(trace[|actions|].records[key].content, Sent)
    ensures trace[|actions|].records[key].content.event in longer[|more|].sends
  {
    ReachableInv(trace, actions, |actions|);
    assert KeyOf(trace[|actions|].records[key].content.event) == key;
    longer, more := trace, actions;
    if trace[|actions|].records[key].state == Pending {
      var w := UnusedNumber(trace[|actions|].workers.Keys);
      assert w !in trace[|actions|].workers.Keys;
      longer, more := TimerSends(trace, actions, w, key);
    }
  }
}
