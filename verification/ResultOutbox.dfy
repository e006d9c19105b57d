/**
 * The result outbox of the queue worker (function_app.py): look up the stored winner, process,
 * stage a private result (the first one wins), publish, acknowledge, mark sent. Any number of
 * workers and timer dispatches interleave step by step, and each may crash between two steps.
 *
 * `O` is the public output of a processing run and `K` its private checkpoint.
 */
module ResultOutbox {
  import opened Prelude
  import opened Outbox
  import opened Text

  datatype Event = Event(source: string, id: string, correlationId: string, receivedAt: string, subject: Option<string>)

  datatype ProcessingResult<O, K> = ProcessingResult(
    eventId: string, correlationId: string, status: string, output: O, checkpoint: Option<K>)

  /** What the shared store holds: private results, and the analysis checkpoints of the providers. */
  datatype Content<O, K> =
    | Private(result: ProcessingResult<O, K>, receivedAt: string, subject: Option<string>)
    | Analysis(text: string)

  datatype RecordKey = ResultKey(privateId: string) | AnalysisKey(checkpointId: string)

  datatype Public<O> = Public(
    id: string, correlationId: string, receivedAt: string, subject: Option<string>,
    eventId: string, status: string, output: O)

  function PrivateId(source: string, id: string): string {
    source + ":" + id
  }

  function EventKey(e: Event): RecordKey {
    ResultKey(PrivateId(e.source, e.id))
  }

  lemma PrivateIdsAreInjective(s: string, i: string, t: string, j: string)
    requires ColonFree(s) && ColonFree(t) && PrivateId(s, i) == PrivateId(t, j)
    ensures s == t && i == j
  {
    SplitAtFirst(s, t, i, j, ':');
  }

  function ResultId(privateId: string): string {
    privateId + ":result"
  }

  /** `from_private_record` accepts the record: it is a result and names its event and status. */
  predicate Dispatchable<O, K>(c: Content<O, K>) {
    c.Private? && c.result.eventId != "" && c.result.correlationId != "" && c.result.status != ""
  }

  /** The public envelope built from a record: the checkpoint stays private. */
  function PublicOf<O, K>(privateId: string, c: Content<O, K>): Public<O>
    requires c.Private?
  {
    Public(ResultId(privateId), c.result.correlationId, c.receivedAt, c.subject,
           c.result.eventId, c.result.status, c.result.output)
  }

  datatype Pc<O, K> =
    | Received(event: Event)
    | Processing(event: Event)
    | Staging(event: Event, result: ProcessingResult<O, K>)
    | Reading(event: Event, result: ProcessingResult<O, K>, created: bool)
    | Abandoning(result: ProcessingResult<O, K>, key: RecordKey, content: Content<O, K>, sent: bool)
    | Dispatching(key: RecordKey, content: Content<O, K>)
    | Announced(key: RecordKey, content: Content<O, K>)
    | Acknowledged(key: RecordKey, content: Content<O, K>)
    | Over

  datatype State<O, K> = State(
    records: Table<RecordKey, Content<O, K>>,
    workers: map<nat, Pc<O, K>>,
    published: seq<(string, Public<O>)>, // history: private id and public envelope of every send
    begun: seq<RecordKey>                // history: every start of a `process` call
  )

  datatype Action<O, K> =
    | Arrive(w: nat, event: Event)
    | Lookup(w: nat)
    | Finish(w: nat, result: ProcessingResult<O, K>)
    | CreateRecord(w: nat)
    | ReadBack(w: nat)
    | Abandon(w: nat)
    | Publish(w: nat)
    | Ack(w: nat)
    | Mark(w: nat)
    | Crash(w: nat)
    | TimerPick(w: nat, key: RecordKey)
    | StageAnalysis(checkpointId: string, text: string)
    | MarkAnalysis(checkpointId: string)

  function Start<O, K>(): State<O, K> {
    State(map[], map[], [], [])
  }

  function PrivateOf<O, K>(event: Event, result: ProcessingResult<O, K>): Content<O, K> {
    Private(result, event.receivedAt, event.subject)
  }

  predicate At<O, K>(s: State<O, K>, w: nat) {
    w in s.workers
  }

  predicate Enabled<O, K>(s: State<O, K>, a: Action<O, K>) {
    match a
    case Arrive(w, _) => !At(s, w)
    case Lookup(w) => At(s, w) && s.workers[w].Received?
    case Finish(w, r) =>
      && At(s, w) && s.workers[w].Processing?
      && r.eventId == s.workers[w].event.id && r.correlationId == s.workers[w].event.correlationId
    case CreateRecord(w) => At(s, w) && s.workers[w].Staging?
    case ReadBack(w) => At(s, w) && s.workers[w].Reading? && EventKey(s.workers[w].event) in s.records
    case Abandon(w) => At(s, w) && s.workers[w].Abandoning?
    case Publish(w) => At(s, w) && s.workers[w].Dispatching?
    case Ack(w) => At(s, w) && s.workers[w].Announced?
    case Mark(w) => At(s, w) && s.workers[w].Acknowledged?
    case Crash(w) => At(s, w)
    case TimerPick(w, key) => !At(s, w) && key in s.records && s.records[key].state == Pending
    case StageAnalysis(_, _) => true
    case MarkAnalysis(_) => true
  }

  function Goto<O, K>(s: State<O, K>, w: nat, pc: Pc<O, K>): State<O, K> {
    s.(workers := s.workers[w := pc])
  }

  function Next<O, K>(s: State<O, K>, a: Action<O, K>): State<O, K>
    requires Enabled(s, a)
  {
    match a
    case Arrive(w, event) => Goto(s, w, Received(event))
    case Lookup(w) =>
      var event := s.workers[w].event;
      var key := EventKey(event);
      if key !in s.records then Goto(s, w, Processing(event)).(begun := s.begun + [key])
      else if s.records[key].state == Sent then Goto(s, w, Over)
      else Goto(s, w, Dispatching(key, s.records[key].content))
    case Finish(w, r) => Goto(s, w, Staging(s.workers[w].event, r))
    case CreateRecord(w) =>
      var (event, r) := (s.workers[w].event, s.workers[w].result);
      var key := EventKey(event);
      Goto(s, w, Reading(event, r, key !in s.records)).(records := Created(s.records, key, PrivateOf(event, r)))
    case ReadBack(w) =>
      var pc := s.workers[w];
      var key := EventKey(pc.event);
      var record := s.records[key];
      if !pc.created then Goto(s, w, Abandoning(pc.result, key, record.content, record.state == Sent))
      else if record.state == Sent then Goto(s, w, Over)
      else Goto(s, w, Dispatching(key, record.content))
    case Abandon(w) =>
      var pc := s.workers[w];
      if pc.sent then Goto(s, w, Over) else Goto(s, w, Dispatching(pc.key, pc.content))
    case Publish(w) =>
      var (key, content) := (s.workers[w].key, s.workers[w].content);
      if key.ResultKey? && Dispatchable(content)
      then Goto(s, w, Announced(key, content)).(
             published := s.published + [(key.privateId, PublicOf(key.privateId, content))])
      else Goto(s, w, Over) // ValueError, logged by the caller
    case Ack(w) => Goto(s, w, Acknowledged(s.workers[w].key, s.workers[w].content))
    case Mark(w) => Goto(s, w, Over).(records := MarkedSent(s.records, s.workers[w].key))
    case Crash(w) => Goto(s, w, Over)
    case TimerPick(w, key) => Goto(s, w, Dispatching(key, s.records[key].content))
    case StageAnalysis(id, text) => s.(records := Created(s.records, AnalysisKey(id), Analysis(text)))
    case MarkAnalysis(id) => s.(records := MarkedSent(s.records, AnalysisKey(id)))
  }

  // ---- What holds in every reachable state ----

  predicate InHand<O, K>(pc: Pc<O, K>) {
    pc.Abandoning? || pc.Dispatching? || pc.Announced? || pc.Acknowledged?
  }

  ghost predicate RecordsTyped<O, K>(s: State<O, K>) {
    forall k | k in s.records :: k.ResultKey? <==> s.records[k].content.Private?
  }

  ghost predicate IsPublished<O, K>(s: State<O, K>, key: RecordKey)
    requires key in s.records
  {
    && key.ResultKey? && s.records[key].content.Private?
    && (key.privateId, PublicOf(key.privateId, s.records[key].content)) in s.published
  }

  /** What a worker holds is what the store holds; once announced, it has been published. */
  ghost predicate WorkerSound<O, K>(s: State<O, K>, pc: Pc<O, K>) {
    && (InHand(pc) ==> pc.key in s.records && s.records[pc.key].content == pc.content)
    && (pc.Announced? || pc.Acknowledged? ==> pc.key.ResultKey? && IsPublished(s, pc.key))
    && (pc.Reading? ==> EventKey(pc.event) in s.records)
  }

  /** Every send carried the envelope built from the record that the store holds. */
  ghost predicate FromWinner<O, K>(s: State<O, K>, send: (string, Public<O>)) {
    && ResultKey(send.0) in s.records
    && Dispatchable(s.records[ResultKey(send.0)].content)
    && send.1 == PublicOf(send.0, s.records[ResultKey(send.0)].content)
  }

  ghost predicate Inv<O, K>(s: State<O, K>) {
    && RecordsTyped(s)
    && (forall w | w in s.workers :: WorkerSound(s, s.workers[w]))
    && (forall send | send in s.published :: FromWinner(s, send))
    && (forall k | k in s.records && k.ResultKey? && s.records[k].state == Sent :: IsPublished(s, k))
  }

  /** Stored winners never change and histories only grow. */
  ghost predicate Grows<O, K>(s: State<O, K>, later: State<O, K>) {
    Extends(s.records, later.records) && s.published <= later.published && s.begun <= later.begun
  }

  lemma GrowsTransitive<O, K>(s: State<O, K>, t: State<O, K>, u: State<O, K>)
    requires Grows(s, t) && Grows(t, u)
    ensures Grows(s, u)
  {
  }

  lemma StepGrows<O, K>(s: State<O, K>, a: Action<O, K>)
    requires Enabled(s, a)
    ensures Grows(s, Next(s, a))
  {
  }

  /** A worker that does not step is sound in every grown state. */
  lemma SoundnessKept<O, K>(s: State<O, K>, later: State<O, K>, pc: Pc<O, K>)
    requires WorkerSound(s, pc) && Grows(s, later)
    ensures WorkerSound(later, pc)
  {
  }

  lemma PublisherStaysSound<O, K>(s: State<O, K>, w: nat)
    requires Inv(s) && Enabled(s, Publish(w))
    ensures WorkerSound(Next(s, Publish(w)), Next(s, Publish(w)).workers[w])
  {
    assert WorkerSound(s, s.workers[w]);
    var later := Next(s, Publish(w));
    var pc := later.workers[w];
    if pc.Announced? {
      assert later.published[|s.published|] == (pc.key.privateId, PublicOf(pc.key.privateId, pc.content));
    }
  }

  lemma StepperStaysSound<O, K>(s: State<O, K>, a: Action<O, K>, w: nat)
    requires Inv(s) && Enabled(s, a) && !a.Publish? && w in Next(s, a).workers
    requires w in s.workers ==> Next(s, a).workers[w] != s.workers[w]
    ensures WorkerSound(Next(s, a), Next(s, a).workers[w])
  {
    if w in s.workers {
      assert WorkerSound(s, s.workers[w]);
    }
  }

  lemma PublishMovesOne<O, K>(s: State<O, K>, w: nat, v: nat)
    requires Enabled(s, Publish(w)) && v != w && v in Next(s, Publish(w)).workers
    ensures v in s.workers && Next(s, Publish(w)).workers[v] == s.workers[v]
  {
  }

  lemma WorkersStaySound<O, K>(s: State<O, K>, a: Action<O, K>, w: nat)
    requires Inv(s) && Enabled(s, a) && w in Next(s, a).workers
    ensures WorkerSound(Next(s, a), Next(s, a).workers[w])
  {
    if w in s.workers && Next(s, a).workers[w] == s.workers[w] {
      StepGrows(s, a);
      SoundnessKept(s, Next(s, a), s.workers[w]);
    } else if a.Publish? {
      if a.w != w {
        PublishMovesOne(s, a.w, w);
      }
      PublisherStaysSound(s, w);
    } else {
      StepperStaysSound(s, a, w);
    }
  }

  lemma StepKeepsInv<O, K>(s: State<O, K>, a: Action<O, K>)
    requires Inv(s) && Enabled(s, a)
    ensures Inv(Next(s, a))
  {
    StepGrows(s, a);
    var later := Next(s, a);
    forall w | w in later.workers ensures WorkerSound(later, later.workers[w]) {
      WorkersStaySound(s, a, w);
    }
    forall send | send in later.published ensures FromWinner(later, send) {
      if send in s.published {
        assert FromWinner(s, send);
      } else {
        assert WorkerSound(s, s.workers[a.w]);
      }
    }
    forall k | k in later.records && k.ResultKey? && later.records[k].state == Sent ensures IsPublished(later, k) {
      if k in s.records && s.records[k].state == Sent {
        assert IsPublished(s, k);
      } else {
        assert WorkerSound(s, s.workers[a.w]);
      }
    }
  }

  predicate HasResult<O, K>(pc: Pc<O, K>) {
    pc.Staging? || pc.Reading? || pc.Abandoning?
  }

  /** Only `Finish` brings a result into play; afterwards it just moves along. */
  lemma ResultsOnlyMove<O, K>(s: State<O, K>, a: Action<O, K>, w: nat)
    requires Enabled(s, a) && w in Next(s, a).workers && HasResult(Next(s, a).workers[w])
    ensures var pc := Next(s, a).workers[w];
      || a == Finish(w, pc.result)
      || (w in s.workers && HasResult(s.workers[w]) && s.workers[w].result == pc.result)
  {
  }

  lemma ContentsOnlyMove<O, K>(s: State<O, K>, a: Action<O, K>, k: RecordKey)
    requires Enabled(s, a) && k in Next(s, a).records && Next(s, a).records[k].content.Private?
    ensures var content := Next(s, a).records[k].content;
      || (k in s.records && s.records[k].content == content)
      || (k !in s.records && a.CreateRecord? && s.workers[a.w].Staging? && s.workers[a.w].result == content.result)
  {
  }

  // ---- Runs ----

  ghost predicate Run<O, K>(trace: seq<State<O, K>>, actions: seq<Action<O, K>>) {
    && |trace| == |actions| + 1
    && trace[0] == Start()
    && forall i {:trigger actions[i]} | 0 <= i < |actions| ::
      Enabled(trace[i], actions[i]) && trace[i + 1] == Next(trace[i], actions[i])
  }

  lemma {:induction false} ReachableInv<O, K>(trace: seq<State<O, K>>, actions: seq<Action<O, K>>, i: nat)
    requires Run(trace, actions) && i < |trace|
    ensures Inv(trace[i])
  {
    if i > 0 {
      ReachableInv(trace, actions, i - 1);
      StepKeepsInv(trace[i - 1], actions[i - 1]);
    }
  }

  lemma {:induction false} RunGrows<O, K>(trace: seq<State<O, K>>, actions: seq<Action<O, K>>, i: nat, j: nat)
    requires Run(trace, actions) && i <= j < |trace|
    ensures Grows(trace[i], trace[j])
    decreases j
  {
    if i < j {
      RunGrows(trace, actions, i, j - 1);
      StepGrows(trace[j - 1], actions[j - 1]);
      GrowsTransitive(trace[i], trace[j - 1], trace[j]);
    }
  }

  /**
   * In every run, all results ever published for one event are one envelope, the one built from the
   * winner staged for it; and a result record is marked sent only once that envelope is published.
   */
  lemma ResultsAgree<O, K>(trace: seq<State<O, K>>, actions: seq<Action<O, K>>, i: nat)
    requires Run(trace, actions) && i < |trace|
    ensures forall a, b | a in trace[i].published && b in trace[i].published && a.0 == b.0 :: a == b
    ensures forall a | a in trace[i].published :: FromWinner(trace[i], a)
    ensures forall k | k in trace[i].records && k.ResultKey? && trace[i].records[k].state == Sent ::
      IsPublished(trace[i], k)
  {
    ReachableInv(trace, actions, i);
    forall a, b | a in trace[i].published && b in trace[i].published && a.0 == b.0 ensures a == b {
      assert FromWinner(trace[i], a) && FromWinner(trace[i], b);
    }
  }

  /** Different events, with sources free of colons, never share a public result id. */
  lemma ResultIdsIdentifyEvents(s: string, i: string, t: string, j: string)
    requires ColonFree(s) && ColonFree(t) && ResultId(PrivateId(s, i)) == ResultId(PrivateId(t, j))
    ensures s == t && i == j
  {
    var a, b := PrivateId(s, i), PrivateId(t, j);
    assert |a| == |b|;
    assert a == ResultId(a)[..|a|] && b == ResultId(b)[..|b|];
    PrivateIdsAreInjective(s, i, t, j);
  }

  /** Once the winner for an event is staged, no worker that then looks begins a `process` call. */
  lemma NoProcessingAfterWinner<O, K>(trace: seq<State<O, K>>, actions: seq<Action<O, K>>, i: nat, j: nat)
    requires Run(trace, actions) && i <= j < |actions|
    requires actions[j].Lookup? && EventKey(trace[j].workers[actions[j].w].event) in trace[i].records
    ensures trace[j + 1].begun == trace[j].begun
    ensures !trace[j + 1].workers[actions[j].w].Processing?
  {
    RunGrows(trace, actions, i, j);
  }

  /** A pending analysis checkpoint picked up by the timer is never published. */
  lemma CheckpointsAreNeverPublished<O, K>(trace: seq<State<O, K>>, actions: seq<Action<O, K>>, j: nat)
    requires Run(trace, actions) && j < |actions|
    requires actions[j].Publish? && trace[j].workers[actions[j].w].key.AnalysisKey?
    ensures trace[j + 1].published == trace[j].published
    ensures trace[j].workers[actions[j].w].content.Analysis? && !Dispatchable(trace[j].workers[actions[j].w].content)
  {
    ReachableInv(trace, actions, j);
    assert WorkerSound(trace[j], trace[j].workers[actions[j].w]);
  }

  // ---- Recovery ----

  /** The run goes on, from where it was. */
  ghost predicate Continues<O, K>(
    trace: seq<State<O, K>>, actions: seq<Action<O, K>>, longer: seq<State<O, K>>, more: seq<Action<O, K>>)
  {
    Run(longer, more) && trace <= longer && actions <= more
  }

  lemma Extended<O, K>(trace: seq<State<O, K>>, actions: seq<Action<O, K>>, a: Action<O, K>)
    returns (longer: seq<State<O, K>>, more: seq<Action<O, K>>)
    requires Run(trace, actions) && Enabled(trace[|actions|], a)
    ensures Continues(trace, actions, longer, more) && |more| == |actions| + 1
    ensures longer[|more|] == Next(trace[|actions|], a)
  {
    longer, more := trace + [Next(trace[|actions|], a)], actions + [a];
  }

  /**
   * Whatever has crashed, a staged result is never lost: from every reachable state the timer can publish a
   * dispatchable winner and mark it sent, with no help from anyone.
   */
  lemma PendingResultsCanBeRecovered<O, K>(trace: seq<State<O, K>>, actions: seq<Action<O, K>>, key: RecordKey)
    returns (longer: seq<State<O, K>>, more: seq<Action<O, K>>)
    requires Run(trace, actions) && key in trace[|actions|].records && key.ResultKey?
    requires Dispatchable(trace[|actions|].records[key].content)
    ensures Continues(trace, actions, longer, more) && key in longer[|more|].records
    ensures longer[|more|].records[key] == Record(trace[|actions|].records[key].content, Sent)
    ensures IsPublished(longer[|more|], key)
  {
    longer, more := trace, actions;
    if trace[|actions|].records[key].state == Pending {
      var w := UnusedNumber(trace[|actions|].workers.Keys);
      assert w !in trace[|actions|].workers.Keys;
      longer, more := Extended(longer, more, TimerPick(w, key));
      longer, more := Extended(longer, more, Publish(w));
      longer, more := Extended(longer, more, Ack(w));
      longer, more := Extended(longer, more, Mark(w));
    }
    ReachableInv(longer, more, |more|);
  }

  /** And only a dispatchable winner is ever marked sent, so these are exactly the results that can be recovered. */
  lemma SentResultsAreDispatchable<O, K>(trace: seq<State<O, K>>, actions: seq<Action<O, K>>, i: nat, key: RecordKey)
    requires Run(trace, actions) && i < |trace| && key in trace[i].records && key.ResultKey?
    requires trace[i].records[key].state == Sent
    ensures Dispatchable(trace[i].records[key].content)
  {
    ReachableInv(trace, actions, i);
    assert IsPublished(trace[i], key);
    assert FromWinner(trace[i], (key.privateId, PublicOf(key.privateId, trace[i].records[key].content)));
  }
}
