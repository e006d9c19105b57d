/**
 * OneDrive notification batches (intake.py `onedrive`): the whole batch is validated before anything is
 * sent, and equivalent notifications collapse into one event per subscription and kind of signal. Sends
 * go straight to the broker; the verdict on a client state is a parameter, and so are the fresh ids.
 */
module OneDriveBatch {
  import opened Prelude
  import opened Events

  datatype BatchError =
    | ValueNotArray
    | NotObject
    | WrongClientState
    | NoSubscription
    | NoResource
    | WrongSubscription
    | WrongResource
    | WrongTenant
    | SendFailed

  /** What the deployment expects; None and the empty text expect nothing. */
  datatype Expected = Expected(subscription: Option<string>, resource: Option<string>, tenant: Option<string>)

  datatype Signal = Signal(subscriptionId: string, resource: string, tenantId: string, lifecycleEvent: string,
    changeType: Json)

  type Key = (string, string)

  datatype Group = Group(first: Signal, notificationCount: nat)

  // ---- One notification ----

  function SignalOf(fields: map<string, Json>, render: Json -> string): Signal {
    Signal(
      TextAt(fields, "subscriptionId", render),
      TextAt(fields, "resource", render),
      TextAt(fields, "tenantId", render),
      TextAt(fields, "lifecycleEvent", render),
      if "changeType" in fields && Truthy(fields["changeType"]) then fields["changeType"] else JText("updated"))
  }

  predicate Differs(text: string, expected: Option<string>) {
    expected.Some? && expected.value != "" && text != expected.value
  }

  function SignalError(s: Signal, expected: Expected): Option<BatchError> {
    if s.subscriptionId == "" then Some(NoSubscription)
    else if s.lifecycleEvent == "" && s.resource == "" then Some(NoResource)
    else if Differs(s.subscriptionId, expected.subscription) then Some(WrongSubscription)
    else if s.lifecycleEvent == "" && Differs(s.resource, expected.resource) then Some(WrongResource)
    else if Differs(s.tenantId, expected.tenant) then Some(WrongTenant)
    else None
  }

  function Parsed(n: Json, expected: Expected, render: Json -> string, stateOk: Json -> bool)
      : Result<Signal, BatchError>
  {
    if !n.JObject? then Err(NotObject)
    else if !stateOk(if "clientState" in n.fields then n.fields["clientState"] else JNull) then Err(WrongClientState)
    else
      var s := SignalOf(n.fields, render);
      match SignalError(s, expected)
      case Some(error) => Err(error)
      case None => Ok(s)
  }

  function Kind(lifecycleEvent: string): string {
    if lifecycleEvent != "" then "lifecycle:" + lifecycleEvent else "updated"
  }

  function KeyOf(s: Signal): Key {
    (s.subscriptionId, Kind(s.lifecycleEvent))
  }

  /** Signals of one key name the same subscription and the same lifecycle event. */
  lemma KeysIdentifySignals(s: Signal, t: Signal)
    ensures KeyOf(s) == KeyOf(t) <==> s.subscriptionId == t.subscriptionId && s.lifecycleEvent == t.lifecycleEvent
  {
    assert "lifecycle:"[0] == 'l' && "updated"[0] == 'u';
    if KeyOf(s) == KeyOf(t) && s.lifecycleEvent != "" && t.lifecycleEvent != "" {
      assert s.lifecycleEvent == Kind(s.lifecycleEvent)[10..] && t.lifecycleEvent == Kind(t.lifecycleEvent)[10..];
    } else if s.lifecycleEvent != "" {
      assert Kind(s.lifecycleEvent)[0] == 'l';
    } else if t.lifecycleEvent != "" {
      assert Kind(t.lifecycleEvent)[0] == 'l';
    }
  }

  // ---- Grouping ----

  /** How many of the signals have the key. */
  function Occurrences(signals: seq<Signal>, key: Key): nat {
    if signals == [] then 0
    else Occurrences(signals[..|signals| - 1], key) + if KeyOf(signals[|signals| - 1]) == key then 1 else 0
  }

  /** The position of the key's first signal, or the number of signals if it has none. */
  function First(signals: seq<Signal>, key: Key): (f: nat)
    ensures f <= |signals|
    ensures f < |signals| ==> KeyOf(signals[f]) == key
    ensures forall j | 0 <= j < f :: KeyOf(signals[j]) != key
  {
    if signals == [] then 0
    else
      var front := signals[..|signals| - 1];
      var f := First(front, key);
      if f < |front| || KeyOf(signals[|front|]) == key then f else f + 1
  }

  /** The group of a key: opened by its first signal, and counting all of them. */
  predicate IsGroup(signals: seq<Signal>, key: Key, group: Group) {
    && First(signals, key) < |signals|
    && group.first == signals[First(signals, key)]
    && group.notificationCount == Occurrences(signals, key)
  }

  predicate Distinct<T(==)>(xs: seq<T>) {
    forall i, j | 0 <= i < j < |xs| :: xs[i] != xs[j]
  }

  predicate InOrder(signals: seq<Signal>, order: seq<Key>) {
    forall a, b | 0 <= a < b < |order| :: First(signals, order[a]) < First(signals, order[b])
  }

  /** The keys in the order of their first signals, and the group of each. */
  ghost predicate IsGrouping(signals: seq<Signal>, order: seq<Key>, groups: map<Key, Group>) {
    && (forall key :: key in order <==> key in groups)
    && (forall key | key in groups :: IsGroup(signals, key, groups[key]))
    && (forall i | 0 <= i < |signals| :: KeyOf(signals[i]) in groups)
    && InOrder(signals, order)
  }

  lemma FirstGrows(signals: seq<Signal>, s: Signal, key: Key)
    ensures First(signals + [s], key) ==
      if First(signals, key) < |signals| || KeyOf(s) == key then First(signals, key) else |signals| + 1
  {
    assert (signals + [s])[..|signals|] == signals;
  }

  lemma OccurrencesGrow(signals: seq<Signal>, s: Signal, key: Key)
    ensures Occurrences(signals + [s], key) == Occurrences(signals, key) + if KeyOf(s) == key then 1 else 0
  {
    assert (signals + [s])[..|signals|] == signals;
  }

  lemma {:induction false} OccurrencesAreFound(signals: seq<Signal>, key: Key)
    ensures Occurrences(signals, key) > 0 <==> First(signals, key) < |signals|
  {
    if signals != [] {
      OccurrencesAreFound(signals[..|signals| - 1], key);
    }
  }

  function Counted(groups: map<Key, Group>, s: Signal): map<Key, Group> {
    var key := KeyOf(s);
    if key in groups then groups[key := groups[key].(notificationCount := groups[key].notificationCount + 1)]
    else groups[key := Group(s, 1)]
  }

  function Seen(order: seq<Key>, groups: map<Key, Group>, s: Signal): seq<Key> {
    if KeyOf(s) in groups then order else order + [KeyOf(s)]
  }

  lemma GroupKept(signals: seq<Signal>, groups: map<Key, Group>, s: Signal, key: Key)
    requires key in groups ==> IsGroup(signals, key, groups[key])
    requires key !in groups ==> First(signals, key) == |signals|
    requires key in Counted(groups, s)
    ensures IsGroup(signals + [s], key, Counted(groups, s)[key])
  {
    OccurrencesGrow(signals, s, key);
    FirstGrows(signals, s, key);
    OccurrencesAreFound(signals, key);
  }

  lemma PlaceKept(signals: seq<Signal>, order: seq<Key>, groups: map<Key, Group>, s: Signal, a: nat)
    requires IsGrouping(signals, order, groups) && a < |order|
    ensures First(signals + [s], order[a]) == First(signals, order[a]) < |signals|
  {
    assert order[a] in order && IsGroup(signals, order[a], groups[order[a]]);
    FirstGrows(signals, s, order[a]);
  }

  lemma NewcomersComeLast(signals: seq<Signal>, order: seq<Key>, groups: map<Key, Group>, s: Signal)
    requires IsGrouping(signals, order, groups)
    ensures InOrder(signals + [s], Seen(order, groups, s))
  {
    var seen := Seen(order, groups, s);
    forall a, b | 0 <= a < b < |seen| ensures First(signals + [s], seen[a]) < First(signals + [s], seen[b]) {
      PlaceKept(signals, order, groups, s, a);
      if b < |order| {
        PlaceKept(signals, order, groups, s, b);
      } else {
        FirstGrows(signals, s, seen[b]);
      }
    }
  }

  lemma GroupingKept(signals: seq<Signal>, order: seq<Key>, groups: map<Key, Group>, s: Signal)
    requires IsGrouping(signals, order, groups)
    ensures IsGrouping(signals + [s], Seen(order, groups, s), Counted(groups, s))
  {
    NewcomersComeLast(signals, order, groups, s);
    forall key | key in Counted(groups, s) ensures IsGroup(signals + [s], key, Counted(groups, s)[key]) {
      GroupKept(signals, groups, s, key);
    }
  }

  function TotalCount(order: seq<Key>, groups: map<Key, Group>): nat
    requires forall key | key in order :: key in groups
  {
    if order == [] then 0
    else TotalCount(order[..|order| - 1], groups) + groups[order[|order| - 1]].notificationCount
  }

  function TotalOccurrences(order: seq<Key>, signals: seq<Signal>): nat {
    if order == [] then 0
    else TotalOccurrences(order[..|order| - 1], signals) + Occurrences(signals, order[|order| - 1])
  }

  lemma {:induction false} TotalGrows(order: seq<Key>, signals: seq<Signal>, s: Signal)
    requires Distinct(order)
    ensures TotalOccurrences(order, signals + [s])
         == TotalOccurrences(order, signals) + if KeyOf(s) in order then 1 else 0
  {
    if order != [] {
      var front, last := order[..|order| - 1], order[|order| - 1];
      TotalGrows(front, signals, s);
      OccurrencesGrow(signals, s, last);
      assert order == front + [last];
    }
  }

  lemma {:induction false} EmptyTotal(order: seq<Key>)
    ensures TotalOccurrences(order, []) == 0
  {
    if order != [] {
      EmptyTotal(order[..|order| - 1]);
    }
  }

  lemma {:induction false} EverySignalIsCounted(order: seq<Key>, signals: seq<Signal>)
    requires Distinct(order) && forall s | s in signals :: KeyOf(s) in order
    ensures TotalOccurrences(order, signals) == |signals|
  {
    if signals == [] {
      EmptyTotal(order);
    } else {
      var front, last := signals[..|signals| - 1], signals[|signals| - 1];
      EverySignalIsCounted(order, front);
      TotalGrows(order, front, last);
      assert signals == front + [last];
    }
  }

  lemma {:induction false} CountsAreOccurrences(signals: seq<Signal>, order: seq<Key>, groups: map<Key, Group>)
    requires forall key | key in order :: key in groups && groups[key].notificationCount == Occurrences(signals, key)
    ensures TotalCount(order, groups) == TotalOccurrences(order, signals)
  {
    if order != [] {
      CountsAreOccurrences(signals, order[..|order| - 1], groups);
    }
  }

  /** Conservation: the notification counts of the groups sum to the number of notifications. */
  lemma CountsSumToBatch(signals: seq<Signal>, order: seq<Key>, groups: map<Key, Group>)
    requires IsGrouping(signals, order, groups)
    ensures Distinct(order) && TotalCount(order, groups) == TotalOccurrences(order, signals) == |signals|
  {
    CountsAreOccurrences(signals, order, groups);
    forall s | s in signals ensures KeyOf(s) in order {
      var i :| 0 <= i < |signals| && signals[i] == s;
    }
    EverySignalIsCounted(order, signals);
  }

  lemma GroupsAreTheKeys(signals: seq<Signal>, order: seq<Key>, groups: map<Key, Group>, key: Key)
    requires IsGrouping(signals, order, groups)
    ensures key in order <==> First(signals, key) < |signals|
  {
  }

  /** The first key of an ordered list comes before all its keys. */
  lemma HeadComesFirst(signals: seq<Signal>, order: seq<Key>, key: Key)
    requires InOrder(signals, order) && key in order
    ensures First(signals, order[0]) <= First(signals, key)
    ensures First(signals, order[0]) == First(signals, key) ==> key == order[0]
  {
    var i :| 0 <= i < |order| && order[i] == key;
    assert i > 0 ==> First(signals, order[0]) < First(signals, order[i]);
  }

  lemma TailKeys(signals: seq<Signal>, order: seq<Key>, key: Key)
    requires InOrder(signals, order) && order != []
    ensures key in order[1..] <==> key in order && key != order[0]
  {
    if key in order && key != order[0] {
      var i :| 0 <= i < |order| && order[i] == key;
      assert order[1..][i - 1] == key;
    }
  }

  /** The two lists have the same keys. */
  ghost predicate SameKeys(order: seq<Key>, other: seq<Key>) {
    forall key :: key in order <==> key in other
  }

  lemma HeadsAgree(signals: seq<Signal>, order: seq<Key>, other: seq<Key>)
    requires InOrder(signals, order) && InOrder(signals, other) && SameKeys(order, other) && order != []
    ensures other != [] && order[0] == other[0]
  {
    assert order[0] in order;
    assert other[0] in other;
    HeadComesFirst(signals, order, other[0]);
    HeadComesFirst(signals, other, order[0]);
  }

  lemma TailsAgree(signals: seq<Signal>, order: seq<Key>, other: seq<Key>)
    requires InOrder(signals, order) && InOrder(signals, other) && SameKeys(order, other)
    requires order != [] && other != [] && order[0] == other[0]
    ensures SameKeys(order[1..], other[1..]) && InOrder(signals, order[1..]) && InOrder(signals, other[1..])
  {
    forall key ensures key in order[1..] <==> key in other[1..] {
      TailKeys(signals, order, key);
      TailKeys(signals, other, key);
    }
  }

  lemma {:induction false} SortedIsUnique(signals: seq<Signal>, order: seq<Key>, other: seq<Key>)
    requires InOrder(signals, order) && InOrder(signals, other) && SameKeys(order, other)
    ensures order == other
  {
    if order != [] {
      HeadsAgree(signals, order, other);
      TailsAgree(signals, order, other);
      SortedIsUnique(signals, order[1..], other[1..]);
      assert order == [order[0]] + order[1..] && other == [other[0]] + other[1..];
    } else if other != [] {
      HeadsAgree(signals, other, order);
    }
  }

  /** A batch has one grouping only: the order of the first signals leaves no choice. */
  lemma {:induction false} GroupingIsUnique(signals: seq<Signal>, order: seq<Key>, groups: map<Key, Group>,
      other: seq<Key>, others: map<Key, Group>)
    requires IsGrouping(signals, order, groups) && IsGrouping(signals, other, others)
    ensures order == other && groups == others
  {
    forall key ensures key in order <==> key in other {
      GroupsAreTheKeys(signals, order, groups, key);
      GroupsAreTheKeys(signals, other, others, key);
    }
    SortedIsUnique(signals, order, other);
  }

  /** All notifications parse, to these signals. */
  predicate AllParsed(
    notifications: seq<Json>, expected: Expected, render: Json -> string, stateOk: Json -> bool, signals: seq<Signal>) {
    && |signals| == |notifications|
    && forall i | 0 <= i < |signals| :: Parsed(notifications[i], expected, render, stateOk) == Ok(signals[i])
  }

  predicate AllValid(notifications: seq<Json>, expected: Expected, render: Json -> string, stateOk: Json -> bool) {
    forall i | 0 <= i < |notifications| :: Parsed(notifications[i], expected, render, stateOk).Ok?
  }

  /** The first notification that does not parse fails with this error. */
  predicate FirstError(
    notifications: seq<Json>, expected: Expected, render: Json -> string, stateOk: Json -> bool, error: BatchError) {
    exists i ::
      && 0 <= i < |notifications| && Parsed(notifications[i], expected, render, stateOk) == Err(error)
      && AllValid(notifications[..i], expected, render, stateOk)
  }

  lemma ParsedGrow(
    notifications: seq<Json>, expected: Expected, render: Json -> string, stateOk: Json -> bool, signals: seq<Signal>,
    i: nat)
    requires i < |notifications| && AllParsed(notifications[..i], expected, render, stateOk, signals)
    requires Parsed(notifications[i], expected, render, stateOk).Ok?
    ensures AllParsed(notifications[..i + 1], expected, render, stateOk,
                      signals + [Parsed(notifications[i], expected, render, stateOk).value])
  {
    assert forall j | 0 <= j < i :: notifications[..i + 1][j] == notifications[..i][j];
  }

  method Record(order: seq<Key>, groups: map<Key, Group>, s: Signal) returns (seen: seq<Key>, counted: map<Key, Group>)
    ensures seen == Seen(order, groups, s) && counted == Counted(groups, s)
  {
    seen, counted := order, groups;
    if KeyOf(s) !in counted {
      counted := counted[KeyOf(s) := Group(s, 0)];
      seen := seen + [KeyOf(s)];
    }
    var group := counted[KeyOf(s)];
    counted := counted[KeyOf(s) := group.(notificationCount := group.notificationCount + 1)];
  }

  /** Validate the batch and group its signals; the first invalid notification decides the error. */
  method Grouped(notifications: seq<Json>, expected: Expected, render: Json -> string, stateOk: Json -> bool)
    returns (failure: Option<BatchError>, order: seq<Key>, groups: map<Key, Group>, signals: seq<Signal>)
    ensures failure.None? ==>
      AllParsed(notifications, expected, render, stateOk, signals) && IsGrouping(signals, order, groups)
    ensures failure.Some? ==> FirstError(notifications, expected, render, stateOk, failure.value)
  {
    failure, order, groups, signals := None, [], map[], [];
    for i := 0 to |notifications|
      invariant failure.None?
      invariant AllParsed(notifications[..i], expected, render, stateOk, signals)
      invariant IsGrouping(signals, order, groups)
    {
      var parsed := Parsed(notifications[i], expected, render, stateOk);
      if parsed.Err? {
        failure := Some(parsed.error);
        assert AllValid(notifications[..i], expected, render, stateOk);
        return;
      }
      var s := parsed.value;
      ParsedGrow(notifications, expected, render, stateOk, signals, i);
      GroupingKept(signals, order, groups, s);
      order, groups := Record(order, groups, s);
      signals := signals + [s];
    }
    assert notifications[..|notifications|] == notifications;
  }

  // ---- Publishing ----

  function TextOr(text: string, otherwise: Option<string>): Json {
    if text != "" then JText(text) else if otherwise.Some? then JText(otherwise.value) else JNull
  }

  function EventOf(group: Group, expected: Expected, uuid: string, now: string): EventEnvelope {
    var s := group.first;
    EventEnvelope(
      s.subscriptionId + ":" + uuid,
      "onedrive",
      if s.lifecycleEvent != "" then "drive.lifecycle." + s.lifecycleEvent else "drive.updated",
      map[
        "subscriptionId" := JText(s.subscriptionId),
        "resource" := TextOr(s.resource, expected.resource),
        "tenantId" := TextOr(s.tenantId, expected.tenant),
        "changeType" := s.changeType,
        "lifecycleEvent" := TextOr(s.lifecycleEvent, None),
        "notificationCount" := JNumber(group.notificationCount)
      ],
      s.subscriptionId,
      now,
      if s.resource != "" then Some(s.resource) else if expected.resource != Some("") then expected.resource else None,
      map["tenant_id" := TextOr(s.tenantId, expected.tenant), "signal_kind" := JText(Kind(s.lifecycleEvent))],
      "1")
  }

  /** The events to send, group by group. */
  ghost predicate AreEventsOf(events: seq<EventEnvelope>, order: seq<Key>, groups: map<Key, Group>, expected: Expected,
      uuids: nat -> string, now: string)
  {
    && |events| == |order|
    && forall i | 0 <= i < |order| ::
         order[i] in groups && events[i] == EventOf(groups[order[i]], expected, uuids(i), now)
  }

  lemma OneMoreEvent(events: seq<EventEnvelope>, order: seq<Key>, groups: map<Key, Group>, expected: Expected,
      uuids: nat -> string, now: string, n: nat)
    requires n < |order| && order[n] in groups && AreEventsOf(events, order[..n], groups, expected, uuids, now)
    ensures AreEventsOf(events + [EventOf(groups[order[n]], expected, uuids(n), now)], order[..n + 1], groups,
                        expected, uuids, now)
  {
    var more := events + [EventOf(groups[order[n]], expected, uuids(n), now)];
    forall i | 0 <= i < n + 1
      ensures order[..n + 1][i] in groups
      ensures more[i] == EventOf(groups[order[..n + 1][i]], expected, uuids(i), now)
    {
      if i < n {
        assert order[..n][i] == order[..n + 1][i];
      }
    }
  }

  lemma {:induction false} EventsExist(
    order: seq<Key>, groups: map<Key, Group>, expected: Expected, uuids: nat -> string, now: string, n: nat)
    returns (events: seq<EventEnvelope>)
    requires n <= |order| && forall i | 0 <= i < |order| :: order[i] in groups
    ensures AreEventsOf(events, order[..n], groups, expected, uuids, now)
  {
    if n == 0 {
      return [];
    }
    events := EventsExist(order, groups, expected, uuids, now, n - 1);
    OneMoreEvent(events, order, groups, expected, uuids, now, n - 1);
    events := events + [EventOf(groups[order[n - 1]], expected, uuids(n - 1), now)];
  }

  /** The events of a batch: its grouping, spelled as envelopes in the order of the groups' first signals. */
  ghost predicate IsBatch(
    signals: seq<Signal>, events: seq<EventEnvelope>, expected: Expected, uuids: nat -> string, now: string) {
    exists order, groups :: IsGrouping(signals, order, groups)
      && AreEventsOf(events, order, groups, expected, uuids, now)
  }

  /** Either every event is sent, or those before the first that the broker refuses. */
  ghost predicate SentInOrder(
    before: seq<EventEnvelope>, after: seq<EventEnvelope>, events: seq<EventEnvelope>, accepts: EventEnvelope -> bool,
    all: bool) {
    exists n ::
      && 0 <= n <= |events| && after == before + events[..n]
      && (forall k | 0 <= k < n :: accepts(events[k]))
      && (if all then n == |events| else n < |events| && !accepts(events[n]))
  }

  class EventPublisher {
    var sent: seq<EventEnvelope>

    constructor ()
      ensures sent == []
    {
      sent := [];
    }

    method Publish(event: EventEnvelope, accepts: EventEnvelope -> bool) returns (ok: bool)
      modifies this
      ensures ok == accepts(event)
      ensures sent == if ok then old(sent) + [event] else old(sent)
    {
      ok := accepts(event);
      if ok {
        sent := sent + [event];
      }
    }
  }

  /** The first `n` events have been sent, each accepted. */
  ghost predicate SentSoFar(
    before: seq<EventEnvelope>, after: seq<EventEnvelope>, events: seq<EventEnvelope>, accepts: EventEnvelope -> bool,
    n: nat)
  {
    n <= |events| && after == before + events[..n] && forall k | 0 <= k < n :: accepts(events[k])
  }

  lemma SentOneMore(
    before: seq<EventEnvelope>, after: seq<EventEnvelope>, events: seq<EventEnvelope>, accepts: EventEnvelope -> bool,
    n: nat)
    requires SentSoFar(before, after, events, accepts, n) && n < |events|
    ensures accepts(events[n]) ==> SentSoFar(before, after + [events[n]], events, accepts, n + 1)
    ensures !accepts(events[n]) ==> SentInOrder(before, after, events, accepts, false)
  {
    assert before + events[..n] + [events[n]] == before + events[..n + 1];
  }

  method PublishGroups(
    publisher: EventPublisher, order: seq<Key>, groups: map<Key, Group>, expected: Expected,
    uuids: nat -> string, now: string, accepts: EventEnvelope -> bool)
    returns (accepted: nat, all: bool, ghost events: seq<EventEnvelope>)
    requires forall key | key in order :: key in groups
    modifies publisher
    ensures AreEventsOf(events, order, groups, expected, uuids, now)
    ensures SentInOrder(old(publisher.sent), publisher.sent, events, accepts, all)
    ensures all ==> accepted == |order|
  {
    events := EventsExist(order, groups, expected, uuids, now, |order|);
    assert order[..|order|] == order;
    accepted := 0;
    for i := 0 to |order|
      invariant accepted == i
      invariant SentSoFar(old(publisher.sent), publisher.sent, events, accepts, i)
    {
      var event := EventOf(groups[order[i]], expected, uuids(i), now);
      assert event == events[i];
      SentOneMore(old(publisher.sent), publisher.sent, events, accepts, i);
      all := publisher.Publish(event, accepts);
      if !all {
        return;
      }
      accepted := accepted + 1;
    }
    all := true;
  }

  /**
   * A whole batch. An invalid notification means that nothing is sent; otherwise the events of the batch
   * are sent in order, all of them unless the broker refuses one, which ends the call there.
   */
  method OneDrive(
    publisher: EventPublisher, value: Json, expected: Expected, render: Json -> string, stateOk: Json -> bool,
    uuids: nat -> string, now: string, accepts: EventEnvelope -> bool)
    returns (r: Result<nat, BatchError>, ghost signals: seq<Signal>, ghost events: seq<EventEnvelope>)
    modifies publisher
    ensures !value.JArray? ==> r == Err(ValueNotArray) && publisher.sent == old(publisher.sent)
    ensures value.JArray? && !AllValid(value.items, expected, render, stateOk) ==>
      r.Err? && FirstError(value.items, expected, render, stateOk, r.error) && publisher.sent == old(publisher.sent)
    ensures value.JArray? && AllValid(value.items, expected, render, stateOk) ==>
      && AllParsed(value.items, expected, render, stateOk, signals) && IsBatch(signals, events, expected, uuids, now)
      && (r == Ok(|events|) || r == Err(SendFailed))
      && SentInOrder(old(publisher.sent), publisher.sent, events, accepts, r.Ok?)
  {
    signals, events := [], [];
    if !value.JArray? {
      return Err(ValueNotArray), signals, events;
    }
    var failure, order, groups, parsed := Grouped(value.items, expected, render, stateOk);
    if failure.Some? {
      return Err(failure.value), signals, events;
    }
    signals := parsed;
    var accepted, all;
    accepted, all, events := PublishGroups(publisher, order, groups, expected, uuids, now, accepts);
    r := if all then Ok(accepted) else Err(SendFailed);
  }

  // ---- What the events tell of the notifications ----

  predicate IsFieldOrExpected(j: Json, text: string, expected: Option<string>) {
    if text != "" then j == JText(text) else if expected.Some? then j == JText(expected.value) else j == JNull
  }

  predicate HasFields(event: EventEnvelope) {
    && event.data.Keys
       == {"subscriptionId", "resource", "tenantId", "changeType", "lifecycleEvent", "notificationCount"}
    && event.metadata.Keys == {"tenant_id", "signal_kind"}
  }

  /** The event tells what kind of signal this is, an update or a lifecycle event. */
  predicate TellsKind(event: EventEnvelope, lifecycleEvent: string)
    requires HasFields(event)
  {
    if lifecycleEvent == "" then
      && event.kind == "drive.updated" && event.metadata["signal_kind"] == JText("updated")
      && event.data["lifecycleEvent"] == JNull
    else
      && event.kind == "drive.lifecycle." + lifecycleEvent
      && event.metadata["signal_kind"] == JText("lifecycle:" + lifecycleEvent)
      && event.data["lifecycleEvent"] == JText(lifecycleEvent)
  }

  /** The event tells where a signal came from, and what has changed. */
  predicate TellsOrigin(event: EventEnvelope, first: Signal, expected: Expected)
    requires HasFields(event)
  {
    && event.data["subscriptionId"] == JText(first.subscriptionId) && event.correlationId == first.subscriptionId
    && IsFieldOrExpected(event.data["resource"], first.resource, expected.resource)
    && IsFieldOrExpected(event.data["tenantId"], first.tenantId, expected.tenant)
    && event.metadata["tenant_id"] == event.data["tenantId"] && event.data["changeType"] == first.changeType
    && (event.subject.Some? <==> first.resource != "" || (expected.resource.Some? && expected.resource.value != ""))
    && (event.subject.Some? ==> event.subject.value != "" && event.data["resource"] == JText(event.subject.value))
  }

  /** The event stands for the signals at these places, the first of which it describes. */
  predicate StandsFor(event: EventEnvelope, signals: seq<Signal>, f: nat, key: Key, expected: Expected,
      uuid: string, now: string)
  {
    && HasFields(event) && f < |signals| && KeyOf(signals[f]) == key
    && (forall j | 0 <= j < f :: KeyOf(signals[j]) != key)
    && TellsOrigin(event, signals[f], expected)
    && (forall j | 0 <= j < |signals| && KeyOf(signals[j]) == key :: TellsKind(event, signals[j].lifecycleEvent))
    && event.data["notificationCount"] == JNumber(Occurrences(signals, key))
    && event.source == "onedrive" && event.id == signals[f].subscriptionId + ":" + uuid
    && event.receivedAt == now && event.version == "1"
  }

  lemma EventStandsFor(
    signals: seq<Signal>, key: Key, group: Group, expected: Expected, uuid: string, now: string)
    requires IsGroup(signals, key, group)
    ensures StandsFor(EventOf(group, expected, uuid, now), signals, First(signals, key), key, expected, uuid, now)
  {
    var event := EventOf(group, expected, uuid, now);
    forall j | 0 <= j < |signals| && KeyOf(signals[j]) == key
      ensures HasFields(event) && TellsKind(event, signals[j].lifecycleEvent)
    {
      KeysIdentifySignals(signals[j], group.first);
    }
  }

  /**
   * Exactly one event per subscription and kind of signal, which tells the kind of all its signals and the origin
   * of their first; and the notification counts of the events sum to the length of the batch.
   */
  lemma BatchIsConserved(
    signals: seq<Signal>, events: seq<EventEnvelope>, expected: Expected, uuids: nat -> string, now: string)
    returns (order: seq<Key>)
    requires IsBatch(signals, events, expected, uuids, now)
    ensures |events| == |order| && Distinct(order)
    ensures forall key :: key in order <==> First(signals, key) < |signals|
    ensures forall i | 0 <= i < |events| ::
      StandsFor(events[i], signals, First(signals, order[i]), order[i], expected, uuids(i), now)
    ensures TotalOccurrences(order, signals) == |signals|
  {
    var keys, groups :| IsGrouping(signals, keys, groups) && AreEventsOf(events, keys, groups, expected, uuids, now);
    order := keys;
    CountsSumToBatch(signals, order, groups);
    forall key ensures key in order <==> First(signals, key) < |signals| {
      GroupsAreTheKeys(signals, order, groups, key);
    }
    forall i | 0 <= i < |events|
      ensures StandsFor(events[i], signals, First(signals, order[i]), order[i], expected, uuids(i), now)
    {
      assert order[i] in order && IsGroup(signals, order[i], groups[order[i]]);
      EventStandsFor(signals, order[i], groups[order[i]], expected, uuids(i), now);
    }
  }

  // ---- Which notifications are valid ----

  /** Texts are read as they are, and what is absent as empty. */
  predicate Reads(fields: map<string, Json>, key: string, text: string) {
    && (key in fields && fields[key].JText? ==> text == fields[key].text)
    && (key !in fields || fields[key] in {JNull, JBool(false), JNumber(0), JArray([]), JObject(map[])} ==> text == "")
  }

  predicate Unmet(text: string, expected: Option<string>) {
    expected !in {None, Some(""), Some(text)}
  }

  /** Everything that is wrong with a signal, in the order in which it is reported. */
  function Faults(s: Signal, expected: Expected): seq<BatchError> {
    (if s.subscriptionId == "" then [NoSubscription] else [])
    + (if s.resource == "" && s.lifecycleEvent == "" then [NoResource] else [])
    + (if Unmet(s.subscriptionId, expected.subscription) then [WrongSubscription] else [])
    + (if Unmet(s.resource, expected.resource) && s.lifecycleEvent == "" then [WrongResource] else [])
    + (if Unmet(s.tenantId, expected.tenant) then [WrongTenant] else [])
  }

  lemma FirstFault(s: Signal, expected: Expected)
    ensures SignalError(s, expected) == if Faults(s, expected) == [] then None else Some(Faults(s, expected)[0])
  {
    forall text, x ensures Unmet(text, x) <==> Differs(text, x) {
    }
  }

  /**
   * A notification is rejected for its form, then for its client state, then for its first fault, and is valid if it
   * has none; a valid one is read field by field. A lifecycle event needs no resource, and not the expected one.
   */
  lemma NotificationsAreJudged(n: Json, expected: Expected, render: Json -> string, stateOk: Json -> bool)
    ensures var parsed := Parsed(n, expected, render, stateOk);
      && (parsed == Err(NotObject) <==> !n.JObject?)
      && (n.JObject? ==>
            var state := if "clientState" in n.fields then n.fields["clientState"] else JNull;
            var s := SignalOf(n.fields, render);
            && (parsed == Err(WrongClientState) <==> !stateOk(state))
            && (stateOk(state) ==>
                  parsed == if Faults(s, expected) == [] then Ok(s) else Err(Faults(s, expected)[0])))
    ensures n.JObject? ==>
      var s := SignalOf(n.fields, render);
      && Reads(n.fields, "subscriptionId", s.subscriptionId) && Reads(n.fields, "resource", s.resource)
      && Reads(n.fields, "tenantId", s.tenantId) && Reads(n.fields, "lifecycleEvent", s.lifecycleEvent)
      && s.changeType == if "changeType" !in n.fields || !Truthy(n.fields["changeType"]) then JText("updated")
                         else n.fields["changeType"]
  {
    if n.JObject? {
      FirstFault(SignalOf(n.fields, render), expected);
    }
  }
}
