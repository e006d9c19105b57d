/**
 * What one publisher of the inbox does with one delivery, in every run: whether it finds a duplicate, a reused id,
 * or an event to send, and that it does nothing else.
 */
module InboxWorkers {
  import opened Prelude
  import opened Events
  import opened Outbox
  import opened Inbox
  import Payloads

  // ---- Where a record comes from ----

  /** The step creates the record of its event's key. */
  predicate Creates(s: State, a: Action, key: Key) {
    Enabled(s, a) && a.CreateRecord? && KeyOf(s.workers[a.w].event) == key && key !in s.records
  }

  /** Every record has been created in some step, by the first event of its key to be staged. */
  lemma {:induction false} RecordsAreCreated(trace: seq<State>, actions: seq<Action>, j: nat, key: Key) returns (i: nat)
    requires Run(trace, actions) && j < |trace| && key in trace[j].records
    ensures i < j && Creates(trace[i], actions[i], key)
  {
    if key in trace[j - 1].records {
      i := RecordsAreCreated(trace, actions, j - 1, key);
    } else {
      i := j - 1;
    }
  }

  /** Of the publishers that wait to read this record back, the creator alone believes to have created it. */
  predicate BelievesRightly(s: State, key: Key, creator: nat, w: nat) {
    w in s.workers && s.workers[w].Reading? && KeyOf(s.workers[w].event) == key ==>
      (s.workers[w].created <==> w == creator)
  }

  lemma BeliefNext(s: State, a: Action, key: Key, creator: nat, e: EventEnvelope, w: nat)
    requires Enabled(s, a) && key in s.records && Awaits(s, creator, e) && KeyOf(e) == key
    requires BelievesRightly(s, key, creator, w)
    ensures BelievesRightly(Next(s, a), key, creator, w)
  {
  }

  lemma {:induction false} ReadersBelieveRightly(trace: seq<State>, actions: seq<Action>, i: nat, j: nat, w: nat)
    requires Run(trace, actions) && i < j < |trace| && actions[i].CreateRecord?
    requires Creates(trace[i], actions[i], KeyOf(trace[i].workers[actions[i].w].event))
    ensures BelievesRightly(trace[j], KeyOf(trace[i].workers[actions[i].w].event), actions[i].w, w)
    decreases j
  {
    var v, e := actions[i].w, trace[i].workers[actions[i].w].event;
    CreationAwaits(trace[i], v, actions[i].container, e);
    if j == i + 1 {
      ReachableInv(trace, actions, i);
      if w in trace[i].workers {
        assert WorkerOk(trace[i], trace[i].workers[w]);
      }
    } else {
      ReadersBelieveRightly(trace, actions, i, j - 1, w);
      CreatorAwaits(trace, actions, i + 1, j - 1, v, e);
      RunGrows(trace, actions, i + 1, j - 1);
      BeliefNext(trace[j - 1], actions[j - 1], KeyOf(e), v, e, w);
    }
  }

  // ---- What a reader is told ----

  lemma ReaderIsTold(s: State, w: nat, content: Stored, sent: bool)
    requires Enabled(s, ReadBack(w)) && Holds(s, KeyOf(s.workers[w].event), content, sent)
    ensures Next(s, ReadBack(w)).workers[w] ==
      if content.payloadHash != PayloadHash(s.workers[w].event) then Over
      else if sent then Duplicate(s.workers[w].created) else Sending(content.event)
  {
  }

  /**
   * A publisher `w` reads back the record that `v` created at step `i`. If its event differs from the creator's in
   * more than the receipt time, it ends. Otherwise it answers duplicate if and only if the record was marked sent
   * in between, and else it sends what was stored for the creator's event. It calls itself creator if it is `v`.
   */
  lemma ReadersAreAnswered(trace: seq<State>, actions: seq<Action>, i: nat, j: nat, w: nat)
    requires Run(trace, actions) && i < j < |actions| && actions[j] == ReadBack(w)
    requires Creates(trace[i], actions[i], KeyOf(trace[j].workers[w].event))
    ensures var (f, e) := (trace[i].workers[actions[i].w].event, trace[j].workers[w].event);
      var marked := MarkedBetween(trace, actions, i + 1, j, KeyOf(e));
      trace[j + 1].workers[w] ==
        if e.(receivedAt := f.receivedAt) != f then Over
        else if marked then Duplicate(w == actions[i].w)
        else Sending(Dispatched(f, actions[i].container))
  {
    var (v, container) := (actions[i].w, actions[i].container);
    var (f, e) := (trace[i].workers[v].event, trace[j].workers[w].event);
    var content := Stored(Dispatched(f, container), PayloadHash(f));
    CreationAwaits(trace[i], v, container, f);
    SentWhenMarked(trace, actions, i + 1, j, KeyOf(e), content);
    ReadersBelieveRightly(trace, actions, i, j, w);
    ReaderIsTold(trace[j], w, content, MarkedBetween(trace, actions, i + 1, j, KeyOf(e)));
    PayloadHashIgnoresReceiptTimeOnly(e, f);
  }

  // ---- What it does then ----

  predicate Steps(a: Action, w: nat) {
    a.w == w
  }

  predicate Finished(pc: Pc) {
    pc.Over? || pc.Duplicate?
  }

  lemma FinishedIsKept(s: State, a: Action, w: nat)
    requires Enabled(s, a) && w in s.workers && Finished(s.workers[w])
    ensures w in Next(s, a).workers && Finished(Next(s, a).workers[w])
    ensures Steps(a, w) ==> Next(s, a) == s.(workers := Next(s, a).workers)
  {
  }

  /** Who has found a duplicate or a reused id never sends or marks anything again. */
  lemma {:induction false} FinishedPublishersAreSilent(
    trace: seq<State>, actions: seq<Action>, j: nat, k: nat, w: nat)
    requires Run(trace, actions) && j <= k < |trace| && w in trace[j].workers && Finished(trace[j].workers[w])
    ensures w in trace[k].workers && Finished(trace[k].workers[w])
    ensures k < |actions| && Steps(actions[k], w) ==> trace[k + 1] == trace[k].(workers := trace[k + 1].workers)
    decreases k
  {
    if j < k {
      FinishedPublishersAreSilent(trace, actions, j, k - 1, w);
      FinishedIsKept(trace[k - 1], actions[k - 1], w);
    }
    if k < |actions| {
      FinishedIsKept(trace[k], actions[k], w);
    }
  }

  /** How far a publisher is with sending the event. */
  predicate IsSending(pc: Pc, e: EventEnvelope) {
    pc == Sending(e) || pc == Marking(e) || pc == Over
  }

  /** It hands over the very event, once, and then marks it. */
  predicate SendsNext(s: State, later: State, w: nat, e: EventEnvelope)
    requires w in s.workers
  {
    match s.workers[w]
    case Sending(_) =>
      && later.workers == s.workers[w := Marking(e)] && later.sends == s.sends + [e] && later.records == s.records
      && MessageId(e) in later.broker.seen
    case Marking(_) =>
      && later == s.(workers := s.workers[w := Over], records := later.records)
      && (KeyOf(e) in s.records ==> KeyOf(e) in later.records && later.records[KeyOf(e)].state == Sent)
    case _ => later == s.(workers := later.workers)
  }

  lemma SendingNext(s: State, a: Action, w: nat, e: EventEnvelope)
    requires Enabled(s, a) && w in s.workers && IsSending(s.workers[w], e)
    ensures w in Next(s, a).workers && IsSending(Next(s, a).workers[w], e)
    ensures Steps(a, w) && !a.Crash? ==> SendsNext(s, Next(s, a), w, e)
  {
  }

  /** Who has found an event to send sends it, marks it, and does nothing else, unless it crashes. */
  lemma {:induction false} SendersSendTheStored(
    trace: seq<State>, actions: seq<Action>, j: nat, k: nat, w: nat, e: EventEnvelope)
    requires Run(trace, actions) && j <= k < |trace| && w in trace[j].workers && trace[j].workers[w] == Sending(e)
    ensures w in trace[k].workers && IsSending(trace[k].workers[w], e)
    ensures k < |actions| && Steps(actions[k], w) && !actions[k].Crash? ==> SendsNext(trace[k], trace[k + 1], w, e)
    decreases k
  {
    if j < k {
      SendersSendTheStored(trace, actions, j, k - 1, w, e);
      SendingNext(trace[k - 1], actions[k - 1], w, e);
    }
    if k < |actions| {
      SendingNext(trace[k], actions[k], w, e);
    }
  }

  predicate IsToSend(s: State, w: nat, e: EventEnvelope) {
    w in s.workers && s.workers[w] == Sending(e)
  }

  predicate IsSent(s: State, key: Key) {
    key in s.records && s.records[key].state == Sent
  }

  lemma SentIsNotTakenUp(s: State, a: Action, w: nat, e: EventEnvelope, later: State)
    requires Enabled(s, a) && later == Next(s, a) && IsSent(s, KeyOf(e)) && !IsToSend(s, w, e)
    requires forall k | k in s.records :: KeyOf(s.records[k].content.event) == k
    ensures IsSent(later, KeyOf(e)) && !IsToSend(later, w, e)
    ensures a.TimerPick? ==> a.key != KeyOf(e)
  {
  }

  /** Once a record is sent, the timer does not pick it; and only who was sending it before can send it once more. */
  lemma {:induction false} SentRecordsAreNotTakenUp(
    trace: seq<State>, actions: seq<Action>, i: nat, j: nat, w: nat, e: EventEnvelope)
    requires Run(trace, actions) && i <= j < |trace| && IsSent(trace[i], KeyOf(e)) && !IsToSend(trace[i], w, e)
    ensures IsSent(trace[j], KeyOf(e)) && !IsToSend(trace[j], w, e)
    ensures j < |actions| && actions[j].TimerPick? ==> actions[j].key != KeyOf(e)
    ensures j < |actions| && actions[j] == Send(w) ==>
      |trace[j + 1].sends| == |trace[j].sends| + 1 && trace[j + 1].sends[|trace[j].sends|] != e
    decreases j
  {
    if i < j {
      SentRecordsAreNotTakenUp(trace, actions, i, j - 1, w, e);
      ReachableInv(trace, actions, j - 1);
      SentIsNotTakenUp(trace[j - 1], actions[j - 1], w, e, trace[j]);
    }
    if j < |actions| {
      StepSends(trace[j], actions[j]);
    }
  }

  // ---- What is sent ----

  /**
   * What is sent stands for the event: without offloading it is the event, and a claim check is redeemed, after any
   * later uploads, exactly if the event has a receipt time and no empty subject.
   */
  lemma SentEventsStandForEvents(e: EventEnvelope, container: string, other: Option<string>, blobs: Payloads.Blobs,
      later: seq<EventEnvelope>, now: string, render: Json -> string)
    requires Payloads.ContentAddressed(blobs) && !Payloads.IsPointer(e) && now != ""
    requires other.None? || other == Some(container)
    ensures var stored := Payloads.UploadedAll(Payloads.Uploaded(blobs, e), later);
      var redeemed := Payloads.Resolved(container, stored, Dispatched(e, other), now, render);
      redeemed == Ok(e) <==> other.None? || (e.receivedAt != "" && e.subject != Some(""))
    ensures KeyOf(Dispatched(e, other)) == KeyOf(e) && MessageId(Dispatched(e, other)) == MessageId(e)
  {
    if other.Some? {
      Payloads.ClaimCheckRoundTrip(container, blobs, e, later, now, render);
    }
  }
}
