/**
 * What one worker of the result outbox does with one message, in every run: a result found sent is left alone, a
 * pending one is dispatched as it was staged, and what is published answers an event that has arrived.
 */
module ResultWorkers {
  import opened Prelude
  import opened Outbox
  import opened ResultOutbox

  function ActorOf<O, K>(a: Action<O, K>): Option<nat> {
    match a
    case StageAnalysis(_, _) => None
    case MarkAnalysis(_) => None
    case _ => Some(a.w)
  }

  lemma OthersLeaveItAlone<O, K>(s: State<O, K>, a: Action<O, K>, w: nat)
    requires Enabled(s, a) && w in s.workers && ActorOf(a) != Some(w)
    ensures w in Next(s, a).workers && Next(s, a).workers[w] == s.workers[w]
  {
  }

  /** The worker looks at the record of its event, before processing it or after staging its own result. */
  predicate Looks<O, K>(s: State<O, K>, a: Action<O, K>, w: nat, key: RecordKey) {
    && Enabled(s, a) && (a == Lookup(w) || a == ReadBack(w))
    && key == EventKey(s.workers[w].event)
  }

  // ---- A result found sent ----

  /** Nothing is left to do, but perhaps to abandon an own result. */
  predicate Silent<O, K>(pc: Pc<O, K>) {
    pc.Over? || (pc.Abandoning? && pc.sent)
  }

  lemma SilenceIsKept<O, K>(s: State<O, K>, a: Action<O, K>, w: nat)
    requires Enabled(s, a) && w in s.workers && Silent(s.workers[w])
    ensures w in Next(s, a).workers && Silent(Next(s, a).workers[w])
    ensures s.workers[w].Over? ==> Next(s, a).workers[w].Over?
    ensures ActorOf(a) == Some(w) ==> Next(s, a) == s.(workers := Next(s, a).workers)
  {
  }

  lemma SentIsSilence<O, K>(s: State<O, K>, a: Action<O, K>, w: nat, key: RecordKey)
    requires Looks(s, a, w, key) && key in s.records && s.records[key].state == Sent
    ensures w in Next(s, a).workers && Silent(Next(s, a).workers[w])
    ensures a.Lookup? ==> Next(s, a).workers[w].Over?
  {
  }

  /**
   * Once a result is marked sent, a worker that looks it up, for a message delivered again or after staging a
   * result of its own, drops the message: in no later step does it process, publish or mark anything.
   */
  lemma {:induction false} SentResultsAreLeftAlone<O, K>(
    trace: seq<State<O, K>>, actions: seq<Action<O, K>>, i: nat, j: nat, k: nat, w: nat, key: RecordKey)
    requires Run(trace, actions) && i <= j < k < |trace|
    requires key in trace[i].records && trace[i].records[key].state == Sent && Looks(trace[j], actions[j], w, key)
    ensures w in trace[k].workers && Silent(trace[k].workers[w])
    ensures actions[j].Lookup? ==> trace[k].workers[w].Over?
    ensures k < |actions| && ActorOf(actions[k]) == Some(w) ==>
      trace[k + 1] == trace[k].(workers := trace[k + 1].workers)
  {
    if k == j + 1 {
      RunGrows(trace, actions, i, j);
      SentIsSilence(trace[j], actions[j], w, key);
    } else {
      SentResultsAreLeftAlone(trace, actions, i, j, k - 1, w, key);
      SilenceIsKept(trace[k - 1], actions[k - 1], w);
    }
    if k < |actions| {
      SilenceIsKept(trace[k], actions[k], w);
    }
  }

  /** The worker has the record in hand and is about to publish it. */
  predicate WillPublish<O, K>(s: State<O, K>, w: nat, key: RecordKey) {
    && w in s.workers
    && ((s.workers[w].Dispatching? && s.workers[w].key == key)
        || (s.workers[w].Abandoning? && s.workers[w].key == key && !s.workers[w].sent))
  }

  lemma SentIsNotTakenUp<O, K>(s: State<O, K>, a: Action<O, K>, w: nat, key: RecordKey)
    requires Enabled(s, a) && key in s.records && s.records[key].state == Sent && !WillPublish(s, w, key)
    ensures !WillPublish(Next(s, a), w, key)
    ensures a.TimerPick? ==> a.key != key
    ensures a == Publish(w) && key.ResultKey? && Next(s, a).published != s.published ==>
      Next(s, a).published[|s.published|].0 != key.privateId
  {
  }

  /**
   * Once a record is sent, the timer does not pick it; and only a worker that had it in hand before can publish it
   * once more.
   */
  lemma {:induction false} SentRecordsAreNotTakenUp<O, K>(
    trace: seq<State<O, K>>, actions: seq<Action<O, K>>, i: nat, j: nat, w: nat, key: RecordKey)
    requires Run(trace, actions) && i <= j < |actions|
    requires key in trace[i].records && trace[i].records[key].state == Sent && !WillPublish(trace[i], w, key)
    ensures !WillPublish(trace[j], w, key)
    ensures actions[j].TimerPick? ==> actions[j].key != key
    ensures actions[j] == Publish(w) && key.ResultKey? && trace[j + 1].published != trace[j].published ==>
      trace[j + 1].published[|trace[j].published|].0 != key.privateId
    decreases j
  {
    RunGrows(trace, actions, i, j);
    if i < j {
      SentRecordsAreNotTakenUp(trace, actions, i, j - 1, w, key);
      RunGrows(trace, actions, i, j - 1);
      SentIsNotTakenUp(trace[j - 1], actions[j - 1], w, key);
    }
    SentIsNotTakenUp(trace[j], actions[j], w, key);
  }

  /** A checkpoint that the analysis has marked is never picked by the timer again. */
  lemma MarkedCheckpointsAreNotPicked<O, K>(
    trace: seq<State<O, K>>, actions: seq<Action<O, K>>, i: nat, j: nat, id: string)
    requires Run(trace, actions) && i < j < |actions| && actions[i] == MarkAnalysis(id)
    requires AnalysisKey(id) in trace[i].records
    ensures actions[j].TimerPick? ==> actions[j].key != AnalysisKey(id)
  {
    RunGrows(trace, actions, i + 1, j);
  }

  /** A look at an event without a record begins to process it, and is the only step that does. */
  lemma LookupsBeginProcessing<O, K>(s: State<O, K>, a: Action<O, K>, w: nat)
    requires Enabled(s, a) && (w in s.workers ==> !s.workers[w].Processing?)
    ensures w in Next(s, a).workers && Next(s, a).workers[w].Processing? <==>
      a == Lookup(w) && EventKey(s.workers[w].event) !in s.records
    ensures w in Next(s, a).workers && Next(s, a).workers[w].Processing? ==>
      Next(s, a).begun == s.begun + [EventKey(s.workers[w].event)]
  {
  }

  // ---- A result found pending ----

  /** How far the worker is with dispatching the stored result. */
  ghost predicate Dispatches<O, K>(pc: Pc<O, K>, key: RecordKey, content: Content<O, K>) {
    if pc.Abandoning? then pc.key == key && pc.content == content && !pc.sent
    else pc.Over? || (InHand(pc) && pc.key == key && pc.content == content)
  }

  /** Every step but a crash takes it further: it publishes the stored result, acknowledges it, and marks it. */
  ghost predicate TakesFurther<O, K>(s: State<O, K>, later: State<O, K>, w: nat, key: RecordKey, content: Content<O, K>)
    requires w in s.workers && w in later.workers
  {
    match s.workers[w]
    case Abandoning(_, _, _, _) => later == s.(workers := s.workers[w := Dispatching(key, content)])
    case Dispatching(_, _) =>
      key.ResultKey? && Dispatchable(content) ==>
        later == s.(workers := s.workers[w := Announced(key, content)],
                    published := s.published + [(key.privateId, PublicOf(key.privateId, content))])
    case Announced(_, _) => later == s.(workers := s.workers[w := Acknowledged(key, content)])
    case Acknowledged(_, _) =>
      && later == s.(workers := s.workers[w := Over], records := later.records)
      && key in later.records && later.records[key] == Record(content, Sent)
    case _ => true
  }

  lemma StepTakesFurther<O, K>(s: State<O, K>, a: Action<O, K>, w: nat, key: RecordKey, content: Content<O, K>)
    requires Enabled(s, a) && w in s.workers && Dispatches(s.workers[w], key, content)
    requires key in s.records && s.records[key].content == content
    ensures w in Next(s, a).workers && Dispatches(Next(s, a).workers[w], key, content)
    ensures ActorOf(a) == Some(w) && !a.Crash? ==> TakesFurther(s, Next(s, a), w, key, content)
  {
  }

  lemma PendingIsDispatched<O, K>(s: State<O, K>, a: Action<O, K>, w: nat, key: RecordKey)
    requires Looks(s, a, w, key) && key in s.records && s.records[key].state == Pending
    ensures var (pc, content) := (Next(s, a).workers[w], s.records[key].content);
      if a.ReadBack? && !s.workers[w].created then pc == Abandoning(s.workers[w].result, key, content, false)
      else pc == Dispatching(key, content)
  {
  }

  /**
   * A worker that finds the result pending dispatches the stored one, whoever staged it: from then on each of its
   * steps but a crash first abandons its own result if another's won, and then publishes the stored one,
   * acknowledges it, and marks it sent.
   */
  lemma {:induction false} PendingResultsAreDispatched<O, K>(
    trace: seq<State<O, K>>, actions: seq<Action<O, K>>, j: nat, k: nat, w: nat, key: RecordKey)
    requires Run(trace, actions) && j < k < |trace|
    requires Looks(trace[j], actions[j], w, key) && key in trace[j].records && trace[j].records[key].state == Pending
    ensures var content := trace[j].records[key].content;
      && w in trace[k].workers && Dispatches(trace[k].workers[w], key, content)
      && (k == j + 1 ==> !trace[k].workers[w].Over?)
      && (k < |actions| && ActorOf(actions[k]) == Some(w) && !actions[k].Crash? ==>
            w in trace[k + 1].workers && TakesFurther(trace[k], trace[k + 1], w, key, content))
  {
    var content := trace[j].records[key].content;
    if k == j + 1 {
      PendingIsDispatched(trace[j], actions[j], w, key);
    } else {
      PendingResultsAreDispatched(trace, actions, j, k - 1, w, key);
      RunGrows(trace, actions, j, k - 1);
      StepTakesFurther(trace[k - 1], actions[k - 1], w, key, content);
    }
    if k < |actions| {
      RunGrows(trace, actions, j, k);
      StepTakesFurther(trace[k], actions[k], w, key, content);
    }
  }

  // ---- What is published ----

  /** The event has arrived with some message. */
  ghost predicate Arrived<O(!new), K(!new)>(actions: seq<Action<O, K>>, i: nat, e: Event) {
    exists k | 0 <= k < |actions| && k < i :: actions[k].Arrive? && actions[k].event == e
  }

  predicate Finishes<O(==), K(==)>(s: State<O, K>, a: Action<O, K>, e: Event, r: ProcessingResult<O, K>) {
    a.Finish? && a.result == r && a.w in s.workers && s.workers[a.w] == Processing(e)
  }

  /** Some call of `process` has answered the event with the result. */
  ghost predicate Processed<O(!new), K(!new)>(
    trace: seq<State<O, K>>, actions: seq<Action<O, K>>, i: nat, e: Event, r: ProcessingResult<O, K>)
    requires |trace| == |actions| + 1
  {
    exists k | 0 <= k < |actions| && k < i :: Finishes(trace[k], actions[k], e, r)
  }

  ghost predicate Known<O(!new), K(!new)>(
    trace: seq<State<O, K>>, actions: seq<Action<O, K>>, i: nat, pc: Pc<O, K>)
    requires |trace| == |actions| + 1
  {
    && (pc.Received? || pc.Processing? || pc.Staging? || pc.Reading? ==> Arrived(actions, i, pc.event))
    && (pc.Staging? || pc.Reading? ==>
          && Processed(trace, actions, i, pc.event, pc.result)
          && pc.result.eventId == pc.event.id && pc.result.correlationId == pc.event.correlationId)
  }

  /** The record holds what `process` has answered to an event of that key. */
  ghost predicate Answers<O(!new), K(!new)>(trace: seq<State<O, K>>, actions: seq<Action<O, K>>, i: nat,
      key: RecordKey, content: Content<O, K>, e: Event, r: ProcessingResult<O, K>)
    requires |trace| == |actions| + 1
  {
    && key == EventKey(e) && content == PrivateOf(e, r) && Arrived(actions, i, e) && Processed(trace, actions, i, e, r)
    && r.eventId == e.id && r.correlationId == e.correlationId
  }

  ghost predicate Explained<O(!new), K(!new)>(
    trace: seq<State<O, K>>, actions: seq<Action<O, K>>, i: nat, key: RecordKey, content: Content<O, K>)
    requires |trace| == |actions| + 1
  {
    content.Private? ==> exists e, r :: Answers(trace, actions, i, key, content, e, r)
  }

  lemma KnownNext<O(!new), K(!new)>(trace: seq<State<O, K>>, actions: seq<Action<O, K>>, i: nat, w: nat)
    requires Run(trace, actions) && i < |actions| && w in trace[i + 1].workers
    requires w in trace[i].workers ==> Known(trace, actions, i, trace[i].workers[w])
    ensures Known(trace, actions, i + 1, trace[i + 1].workers[w])
  {
    var s, a := trace[i], actions[i];
    if ActorOf(a) != Some(w) {
      OthersLeaveItAlone(s, a, w);
    }
  }

  lemma ExplainedNext<O(!new), K(!new)>(trace: seq<State<O, K>>, actions: seq<Action<O, K>>, i: nat, key: RecordKey)
    requires Run(trace, actions) && i < |actions| && key in trace[i + 1].records
    requires forall w | w in trace[i].workers :: Known(trace, actions, i, trace[i].workers[w])
    requires key in trace[i].records ==> Explained(trace, actions, i, key, trace[i].records[key].content)
    ensures Explained(trace, actions, i + 1, key, trace[i + 1].records[key].content)
  {
    var s, a, content := trace[i], actions[i], trace[i + 1].records[key].content;
    StepGrows(s, a);
    if content.Private? {
      if key in s.records {
        var e, r :| Answers(trace, actions, i, key, content, e, r);
        assert Answers(trace, actions, i + 1, key, content, e, r);
      } else {
        var (e, r) := (s.workers[a.w].event, s.workers[a.w].result);
        assert Known(trace, actions, i, s.workers[a.w]);
        assert Answers(trace, actions, i + 1, key, content, e, r);
      }
    }
  }

  lemma {:induction false} EverythingIsExplained<O(!new), K(!new)>(
    trace: seq<State<O, K>>, actions: seq<Action<O, K>>, i: nat)
    requires Run(trace, actions) && i < |trace|
    ensures forall w | w in trace[i].workers :: Known(trace, actions, i, trace[i].workers[w])
    ensures forall k | k in trace[i].records :: Explained(trace, actions, i, k, trace[i].records[k].content)
  {
    if i > 0 {
      EverythingIsExplained(trace, actions, i - 1);
      forall w | w in trace[i].workers ensures Known(trace, actions, i, trace[i].workers[w]) {
        KnownNext(trace, actions, i - 1, w);
      }
      forall k | k in trace[i].records ensures Explained(trace, actions, i, k, trace[i].records[k].content) {
        ExplainedNext(trace, actions, i - 1, k);
      }
    }
  }

  /**
   * Whatever is published answers an event that has arrived: under that event's own id, with its correlation,
   * receipt time and subject, and with the status and output that a `process` call for that event has returned.
   */
  lemma ResultsAnswerTheirEvents<O(!new), K(!new)>(
    trace: seq<State<O, K>>, actions: seq<Action<O, K>>, i: nat, send: (string, Public<O>))
    returns (e: Event, r: ProcessingResult<O, K>)
    requires Run(trace, actions) && i < |trace| && send in trace[i].published
    ensures Arrived(actions, i, e) && Processed(trace, actions, i, e, r)
    ensures send.0 == e.source + ":" + e.id && send.1.id == send.0 + ":result" && send.1.eventId == e.id
    ensures send.1.correlationId == e.correlationId
    ensures send.1.receivedAt == e.receivedAt && send.1.subject == e.subject
    ensures send.1.status == r.status && send.1.output == r.output
  {
    ReachableInv(trace, actions, i);
    EverythingIsExplained(trace, actions, i);
    assert FromWinner(trace[i], send);
    var key := ResultKey(send.0);
    assert Explained(trace, actions, i, key, trace[i].records[key].content);
    e, r :| Answers(trace, actions, i, key, trace[i].records[key].content, e, r);
  }
}
