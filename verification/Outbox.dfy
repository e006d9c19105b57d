/**
 * Durable staged records (idempotency.py). The table operations below are what the memory, SQLite
 * and Azure Table stores do to a row; the class is the memory store over them.
 */
module Outbox {
  import opened Prelude
  import opened Events

  datatype RecordState = Pending | Sent

  datatype Record<C> = Record(content: C, state: RecordState)

  type Table<K, C> = map<K, Record<C>>

  /** Insert-if-absent: `create_entity`, `INSERT OR IGNORE`, or the dictionary test. */
  function Created<K, C>(t: Table<K, C>, k: K, content: C): Table<K, C> {
    if k in t then t else t[k := Record(content, Pending)]
  }

  function MarkedSent<K, C>(t: Table<K, C>, k: K): Table<K, C> {
    if k in t then t[k := t[k].(state := Sent)] else t
  }

  /** Later tables keep every record, its content untouched, and never take a send back. */
  ghost predicate Extends<K, C>(t: Table<K, C>, later: Table<K, C>) {
    forall k | k in t ::
      k in later && later[k].content == t[k].content && (t[k].state == Sent ==> later[k].state == Sent)
  }

  lemma ExtendsTransitive<K, C>(t: Table<K, C>, u: Table<K, C>, v: Table<K, C>)
    requires Extends(t, u) && Extends(u, v)
    ensures Extends(t, v)
  {
  }

  // ---- The memory store ----

  type Key = (string, string)

  datatype Stored = Stored(event: EventEnvelope, payloadHash: Digest)

  datatype StagedEvent = StagedEvent(event: EventEnvelope, state: RecordState, created: bool)

  datatype Policy = Reject | FirstWins

  datatype StageError = PayloadReused

  function KeyOf(e: EventEnvelope): Key {
    (e.source, e.id)
  }

  /** What `stage` answers about the table it leaves: the winner, unless the payload was reused. */
  function StageAnswer(t: Table<Key, Stored>, e: EventEnvelope, created: bool, policy: Policy)
      : Result<StagedEvent, StageError>
    requires KeyOf(e) in t
  {
    var record := t[KeyOf(e)];
    if record.content.payloadHash != PayloadHash(e) && policy == Reject then Err(PayloadReused)
    else Ok(StagedEvent(record.content.event, record.state, created))
  }

  /** What `get` answers: the stored event and its state, never as created. */
  function Found(t: Table<Key, Stored>, key: Key): Option<StagedEvent> {
    if key in t then Some(StagedEvent(t[key].content.event, t[key].state, false)) else None
  }

  /**
   * Whatever `stage` has answered, `get` finds in every later table: the same event, sent if it was; and
   * staging any event of the key again answers what `get` finds, unless it is refused for its payload.
   */
  lemma LookupFindsTheWinner(
    t: Table<Key, Stored>, later: Table<Key, Stored>, e: EventEnvelope, created: bool, policy: Policy,
    again: EventEnvelope)
    requires KeyOf(e) in t && StageAnswer(t, e, created, policy).Ok? && Extends(t, later) && KeyOf(again) == KeyOf(e)
    ensures var staged := StageAnswer(t, e, created, policy).value;
      var found := Found(later, KeyOf(e));
      && found.Some? && found.value.event == staged.event
      && (staged.state == Sent ==> found.value.state == Sent)
      && Created(later, KeyOf(again), Stored(again, PayloadHash(again))) == later
      && (StageAnswer(later, again, false, policy) == Ok(found.value)
          <==> policy == FirstWins || PayloadHash(again) == t[KeyOf(e)].content.payloadHash)
  {
  }

  function PendingEvents(t: Table<Key, Stored>, order: seq<Key>): seq<EventEnvelope>
    requires forall k | k in order :: k in t
  {
    if order == [] then []
    else (if t[order[0]].state == Pending then [t[order[0]].content.event] else []) + PendingEvents(t, order[1..])
  }

  /** The pending listing is complete: exactly the records not yet sent. */
  lemma {:induction false} PendingEventsAreTheUnsent(t: Table<Key, Stored>, order: seq<Key>, e: EventEnvelope)
    requires forall k | k in order :: k in t && KeyOf(t[k].content.event) == k
    ensures e in PendingEvents(t, order) <==>
      KeyOf(e) in order && t[KeyOf(e)] == Record(t[KeyOf(e)].content.(event := e), Pending)
  {
    if order != [] {
      PendingEventsAreTheUnsent(t, order[1..], e);
    }
  }

  lemma {:induction false} PendingSplit(t: Table<Key, Stored>, first: seq<Key>, rest: seq<Key>)
    requires forall k | k in first + rest :: k in t
    ensures forall k | k in first || k in rest :: k in t
    ensures PendingEvents(t, first + rest) == PendingEvents(t, first) + PendingEvents(t, rest)
  {
    forall k | k in first || k in rest ensures k in t {
      assert k in first + rest;
    }
    if first == [] {
      assert first + rest == rest;
    } else {
      assert (first + rest)[1..] == first[1..] + rest;
      PendingSplit(t, first[1..], rest);
    }
  }

  predicate Distinct(order: seq<Key>) {
    forall i, j | 0 <= i < j < |order| :: order[i] != order[j]
  }

  function Unsent(t: Table<Key, Stored>, order: seq<Key>): set<Key> {
    set k | k in order && k in t && t[k].state == Pending
  }

  lemma {:induction false} UnsentAreCounted(t: Table<Key, Stored>, order: seq<Key>)
    requires (forall k | k in order :: k in t) && Distinct(order)
    ensures |PendingEvents(t, order)| == |Unsent(t, order)|
  {
    if order != [] {
      UnsentAreCounted(t, order[1..]);
      assert order == [order[0]] + order[1..];
      assert order[0] !in Unsent(t, order[1..]);
      assert Unsent(t, order)
          == (if t[order[0]].state == Pending then {order[0]} else {}) + Unsent(t, order[1..]);
    }
  }

  /** The pending listing, cut to the limit. */
  function Listing(t: Table<Key, Stored>, order: seq<Key>, limit: nat): seq<EventEnvelope>
    requires forall k | k in order :: k in t
  {
    var all := PendingEvents(t, order);
    if |all| <= limit then all else all[..limit]
  }

  lemma InPrefixOrNot<T>(before: seq<T>, x: T, after: seq<T>, limit: nat)
    requires x !in before
    ensures var all := before + [x] + after;
      x in (if |all| <= limit then all else all[..limit]) <==> |before| < limit
  {
    var all := before + [x] + after;
    assert all[|before|] == x;
    if limit <= |before| {
      assert all[..limit] == before[..limit];
    } else if limit < |all| {
      assert all[..limit][|before|] == x;
    }
  }

  /** A limited listing shows an unsent record if and only if fewer than `limit` unsent ones were stored before it. */
  lemma ListedIfFewBefore(t: Table<Key, Stored>, order: seq<Key>, limit: nat, j: nat)
    requires (forall k | k in order :: k in t && KeyOf(t[k].content.event) == k) && Distinct(order)
    requires j < |order| && t[order[j]].state == Pending
    ensures t[order[j]].content.event in Listing(t, order, limit) <==> |Unsent(t, order[..j])| < limit
  {
    var e := t[order[j]].content.event;
    assert order == order[..j] + ([order[j]] + order[j + 1..]);
    PendingSplit(t, order[..j], [order[j]] + order[j + 1..]);
    var before, after := PendingEvents(t, order[..j]), PendingEvents(t, order[j + 1..]);
    assert ([order[j]] + order[j + 1..])[1..] == order[j + 1..];
    assert PendingEvents(t, order) == before + [e] + after;
    PendingEventsAreTheUnsent(t, order[..j], e);
    UnsentAreCounted(t, order[..j]);
    InPrefixOrNot(before, e, after, limit);
  }

  lemma PendingAppended(t: Table<Key, Stored>, order: seq<Key>, i: nat, all: seq<EventEnvelope>)
    requires (forall k | k in order :: k in t) && i < |order|
    ensures all + PendingEvents(t, order[i..])
         == (if t[order[i]].state == Pending then all + [t[order[i]].content.event] else all) +
           PendingEvents(t, order[i + 1..])
  {
    assert order[i..][0] == order[i] && order[i..][1..] == order[i + 1..];
    var rest, event := PendingEvents(t, order[i + 1..]), t[order[i]].content.event;
    assert all + ([event] + rest) == all + [event] + rest;
    assert [] + rest == rest;
  }

  /** What is stored under a key is an event of that key, with its hash. */
  predicate IsUnder(key: Key, content: Stored) {
    KeyOf(content.event) == key && content.payloadHash == PayloadHash(content.event)
  }

  lemma MarkingExtends(t: Table<Key, Stored>, key: Key)
    ensures Extends(t, MarkedSent(t, key))
    ensures forall k | k in t :: MarkedSent(t, key)[k].content == t[k].content
    ensures MarkedSent(t, key).Keys == t.Keys
  {
  }

  class MemoryIdempotencyStore {
    const policy: Policy
    var records: Table<Key, Stored>
    var order: seq<Key> // insertion order of the dictionary

    constructor (policy: Policy)
      ensures this.policy == policy && records == map[] && Valid()
    {
      this.policy := policy;
      records := map[];
      order := [];
    }

    ghost predicate Valid()
      reads this
    {
      && (forall k :: k in order <==> k in records)
      && Distinct(order)
      && (forall k | k in records :: IsUnder(k, records[k].content))
    }

    method GetStaged(source: string, id: string) returns (r: Option<StagedEvent>)
      requires Valid()
      ensures r == Found(records, (source, id))
      ensures r.Some? ==> KeyOf(r.value.event) == (source, id)
      ensures r.Some? ==> StageAnswer(records, r.value.event, false, policy) == Ok(r.value)
    {
      if (source, id) !in records {
        return None;
      }
      var record := records[(source, id)];
      return Some(StagedEvent(record.content.event, record.state, false));
    }

    method Stage(e: EventEnvelope) returns (r: Result<StagedEvent, StageError>)
      requires Valid()
      modifies this
      ensures Valid() && Extends(old(records), records)
      ensures records == Created(old(records), KeyOf(e), Stored(e, PayloadHash(e)))
      ensures r == StageAnswer(records, e, KeyOf(e) !in old(records), policy)
      ensures r.Ok? && r.value.created ==> r.value == StagedEvent(e, Pending, true)
    {
      var key := (e.source, e.id);
      var payloadHash := PayloadHash(e);
      if key in records {
        var record := records[key];
        if record.content.payloadHash != payloadHash && policy == Reject {
          return Err(PayloadReused);
        }
        return Ok(StagedEvent(record.content.event, record.state, false));
      }
      records := records[key := Record(Stored(e, payloadHash), Pending)];
      order := order + [key];
      return Ok(StagedEvent(e, Pending, true));
    }

    method MarkSent(e: EventEnvelope) returns (ok: bool)
      requires Valid()
      modifies this
      ensures Valid() && Extends(old(records), records)
      ensures ok <==> KeyOf(e) in old(records)
      ensures records == MarkedSent(old(records), KeyOf(e)) && order == old(order)
    {
      var key := (e.source, e.id);
      MarkingExtends(records, key);
      if key !in records {
        return false;
      }
      records := records[key := records[key].(state := Sent)];
      return true;
    }

    method ListPending(limit: nat) returns (events: seq<EventEnvelope>)
      requires Valid()
      ensures events == Listing(records, order, limit)
    {
      var all: seq<EventEnvelope> := [];
      for i := 0 to |order|
        invariant PendingEvents(records, order) == all + PendingEvents(records, order[i..])
      {
        PendingAppended(records, order, i, all);
        if records[order[i]].state == Pending {
          all := all + [records[order[i]].content.event];
        }
      }
      events := if |all| <= limit then all else all[..limit];
    }
  }
}
