/**
 * Concurrent and crashing runs of the checkpointed analysis (worker.py `_analyze`) over one shared
 * store. Providers are nondeterministic: each call may answer differently, or fail.
 */
module AnalysisProtocol {
  import opened Prelude
  import opened Events
  import opened Outbox
  import opened Text
  import opened Analysis

  /** The event a run analyses, with its choice of provider, and the providers that the routing names, in order. */
  datatype Job = Job(source: string, id: string, selected: string, names: seq<string>)

  datatype Pc =
    | Looking
    | Calling
    | Staging(answer: AnalysisResult)
    | Reading
    | Marking(data: map<string, Json>)
    | Checking(data: map<string, Json>)
    | Completed
    | Failed

  datatype Worker = Worker(job: Job, results: seq<AnalysisResult>, pc: Pc)

  /** A provider call: the event, the provider, and what it answered. */
  datatype ProviderCall = ProviderCall(source: string, id: string, provider: string, answer: AnalysisResult)

  datatype State = State(
    routing: Routing,
    records: Table<string, map<string, Json>>,
    workers: map<nat, Worker>,
    called: seq<(string, string, string)>,  // history: the event and provider of every provider call begun
    origins: map<string, ProviderCall>      // history: the call whose answer each checkpoint holds
  )

  datatype Action =
    | Begin(w: nat, source: string, id: string, selected: string)
    | Look(w: nat)
    | Answered(w: nat, answer: AnalysisResult)
    | CreateRecord(w: nat)
    | ReadBack(w: nat)
    | Mark(w: nat)
    | Check(w: nat)
    | Crash(w: nat)

  predicate Running(s: State, w: nat) {
    w in s.workers && |s.workers[w].results| < |s.workers[w].job.names|
  }

  function Provider(worker: Worker): string
    requires |worker.results| < |worker.job.names|
  {
    worker.job.names[|worker.results|]
  }

  function IdOf(worker: Worker): string
    requires |worker.results| < |worker.job.names|
  {
    CheckpointId(worker.job.source, worker.job.id, Provider(worker))
  }

  predicate Enabled(s: State, a: Action) {
    match a
    case Begin(w, _, _, _) => w !in s.workers
    case Look(w) => Running(s, w) && s.workers[w].pc.Looking?
    case Answered(w, _) => Running(s, w) && s.workers[w].pc.Calling?
    case CreateRecord(w) => Running(s, w) && s.workers[w].pc.Staging?
    case ReadBack(w) => Running(s, w) && s.workers[w].pc.Reading? && IdOf(s.workers[w]) in s.records
    case Mark(w) => Running(s, w) && s.workers[w].pc.Marking?
    case Check(w) => Running(s, w) && s.workers[w].pc.Checking?
    case Crash(w) => w in s.workers && !s.workers[w].pc.Completed?
  }

  function Goto(s: State, w: nat, pc: Pc): State
    requires w in s.workers
  {
    s.(workers := s.workers[w := s.workers[w].(pc := pc)])
  }

  function Held(record: Record<map<string, Json>>): Pc {
    if record.state == Sent then Checking(record.content) else Marking(record.content)
  }

  function Begun(routing: Routing, source: string, id: string, selected: string): Worker {
    match ProviderNames(routing, selected)
    case Err(_) => Worker(Job(source, id, selected, []), [], Failed)
    case Ok(names) => Worker(Job(source, id, selected, names), [], if names == [] then Completed else Looking)
  }

  function Next(s: State, a: Action): State
    requires Enabled(s, a)
  {
    match a
    case Begin(w, source, id, selected) =>
      s.(workers := s.workers[w := Begun(s.routing, source, id, selected)])
    case Look(w) =>
      var worker := s.workers[w];
      if IdOf(worker) in s.records then Goto(s, w, Held(s.records[IdOf(worker)]))
      else Goto(s, w, Calling).(called := s.called + [(worker.job.source, worker.job.id, Provider(worker))])
    case Answered(w, answer) => Goto(s, w, Staging(answer))
    case CreateRecord(w) =>
      var worker := s.workers[w];
      var id := IdOf(worker);
      Goto(s, w, Reading).(
        records := Created(s.records, id, AnalysisDict(worker.pc.answer)),
        origins := if id in s.records then s.origins
                   else s.origins[id := ProviderCall(worker.job.source, worker.job.id, Provider(worker),
                     worker.pc.answer)])
    case ReadBack(w) => Goto(s, w, Held(s.records[IdOf(s.workers[w])]))
    case Mark(w) => Goto(s, w, Checking(s.workers[w].pc.data)).(records := MarkedSent(s.records, IdOf(s.workers[w])))
    case Check(w) =>
      var worker := s.workers[w];
      (match Interpreted(worker.pc.data, Provider(worker))
       case Err(_) => Goto(s, w, Failed)
       case Ok(result) =>
         var results := worker.results + [result];
         var pc := if |results| == |worker.job.names| then Completed else Looking;
         s.(workers := s.workers[w := Worker(worker.job, results, pc)]))
    case Crash(w) => Goto(s, w, Failed)
  }

  function Start(routing: Routing): State {
    State(routing, map[], map[], [], map[])
  }

  // ---- What holds in every reachable state ----

  /** The first results of a worker are what the stored checkpoints of its providers say. */
  ghost predicate ResultsRead(s: State, worker: Worker) {
    && |worker.results| <= |worker.job.names|
    && forall k | 0 <= k < |worker.results| ::
         var id := CheckpointId(worker.job.source, worker.job.id, worker.job.names[k]);
         id in s.records && Interpreted(s.records[id].content, worker.job.names[k]) == Ok(worker.results[k])
  }

  /** A worker's providers are the ones its event is routed to; without any routing it has failed. */
  predicate Routed(routing: Routing, worker: Worker) {
    match ProviderNames(routing, worker.job.selected)
    case Ok(names) => worker.job.names == names
    case Err(_) => worker.job.names == [] && worker.pc.Failed?
  }

  predicate HoldsData(pc: Pc) {
    pc.Marking? || pc.Checking?
  }

  ghost predicate WorkerOk(s: State, worker: Worker) {
    && Routed(s.routing, worker)
    && ResultsRead(s, worker)
    && (worker.pc.Completed? ==> |worker.results| == |worker.job.names|)
    && (|worker.results| < |worker.job.names| && HoldsData(worker.pc) ==>
          IdOf(worker) in s.records && s.records[IdOf(worker)].content == worker.pc.data)
  }

  ghost predicate OriginOk(s: State, id: string) {
    && id in s.origins
    && var call := s.origins[id];
    && id == CheckpointId(call.source, call.id, call.provider)
    && id in s.records && s.records[id].content == AnalysisDict(call.answer)
    && (call.source, call.id, call.provider) in s.called
    && exists w :: w in s.workers && s.workers[w].job.source == call.source && s.workers[w].job.id == call.id
                   && call.provider in s.workers[w].job.names
  }

  ghost predicate Inv(s: State) {
    && (forall w | w in s.workers :: WorkerOk(s, s.workers[w]))
    && (forall id | id in s.records :: OriginOk(s, id))
    && (forall w | w in s.workers && (s.workers[w].pc.Calling? || s.workers[w].pc.Staging?) ::
          |s.workers[w].results| < |s.workers[w].job.names|
          && (s.workers[w].job.source, s.workers[w].job.id, Provider(s.workers[w])) in s.called)
  }

  lemma StepExtends(s: State, a: Action)
    requires Enabled(s, a)
    ensures Extends(s.records, Next(s, a).records) && s.called <= Next(s, a).called
    ensures Next(s, a).routing == s.routing
    ensures forall w | w in s.workers :: w in Next(s, a).workers && Next(s, a).workers[w].job == s.workers[w].job
    ensures forall id | id in s.records && id in s.origins ::
      id in Next(s, a).origins && Next(s, a).origins[id] == s.origins[id]
  {
  }

  lemma ResultsStillRead(s: State, later: State, worker: Worker)
    requires ResultsRead(s, worker) && Extends(s.records, later.records)
    ensures ResultsRead(later, worker)
  {
    forall k | 0 <= k < |worker.results|
      ensures var id := CheckpointId(worker.job.source, worker.job.id, worker.job.names[k]);
        id in later.records && Interpreted(later.records[id].content, worker.job.names[k]) == Ok(worker.results[k])
    {
      assert CheckpointId(worker.job.source, worker.job.id, worker.job.names[k]) in s.records;
    }
  }

  lemma ResultAppended(s: State, worker: Worker, result: AnalysisResult)
    requires ResultsRead(s, worker) && |worker.results| < |worker.job.names| && IdOf(worker) in s.records
    requires Interpreted(s.records[IdOf(worker)].content, Provider(worker)) == Ok(result)
    ensures ResultsRead(s, worker.(results := worker.results + [result]))
  {
    var longer := worker.results + [result];
    forall k | 0 <= k < |longer|
      ensures var id := CheckpointId(worker.job.source, worker.job.id, worker.job.names[k]);
        id in s.records && Interpreted(s.records[id].content, worker.job.names[k]) == Ok(longer[k])
    {
      if k < |worker.results| {
        assert CheckpointId(worker.job.source, worker.job.id, worker.job.names[k]) in s.records;
      }
    }
  }

  lemma CheckerKept(s: State, w: nat)
    requires Inv(s) && Enabled(s, Check(w))
    ensures WorkerOk(Next(s, Check(w)), Next(s, Check(w)).workers[w])
  {
    var worker := s.workers[w];
    assert WorkerOk(s, worker);
    var answer := Interpreted(worker.pc.data, Provider(worker));
    if answer.Ok? {
      ResultAppended(s, worker, answer.value);
      ResultsStillRead(s, Next(s, Check(w)), worker.(results := worker.results + [answer.value]));
    } else {
      ResultsStillRead(s, Next(s, Check(w)), worker);
    }
  }

  /** A worker whose step is no check keeps its results, and holds at most what the store holds. */
  lemma StepMovesWorker(s: State, a: Action, w: nat)
    requires Enabled(s, a) && w in Next(s, a).workers && w in s.workers && a != Check(w)
    ensures var (worker, later) := (s.workers[w], Next(s, a).workers[w]);
      && later.results == worker.results && later.job == worker.job
      && (later.pc.Completed? ==> worker.pc.Completed?) && (worker.pc.Failed? ==> later.pc.Failed?)
      && (|worker.results| < |worker.job.names| && HoldsData(later.pc) && later.pc != worker.pc ==>
            || (IdOf(worker) in s.records && later.pc.data == s.records[IdOf(worker)].content)
            || (worker.pc.Marking? && later.pc.data == worker.pc.data))
  {
  }

  lemma StillOk(s: State, later: State, worker: Worker, moved: Worker)
    requires WorkerOk(s, worker) && Extends(s.records, later.records) && later.routing == s.routing
    requires moved.results == worker.results && moved.job == worker.job
    requires (moved.pc.Completed? ==> worker.pc.Completed?) && (worker.pc.Failed? ==> moved.pc.Failed?)
    requires |worker.results| < |worker.job.names| && HoldsData(moved.pc) && moved.pc != worker.pc ==>
      || (IdOf(worker) in s.records && moved.pc.data == s.records[IdOf(worker)].content)
      || (worker.pc.Marking? && moved.pc.data == worker.pc.data)
    ensures WorkerOk(later, moved)
  {
    ResultsStillRead(s, later, worker);
    assert ResultsRead(later, worker) ==> ResultsRead(later, moved);
  }

  lemma WorkersKept(s: State, a: Action, w: nat)
    requires Inv(s) && Enabled(s, a) && w in Next(s, a).workers
    ensures WorkerOk(Next(s, a), Next(s, a).workers[w])
  {
    if a == Check(w) {
      CheckerKept(s, w);
    } else if w in s.workers {
      StepExtends(s, a);
      StepMovesWorker(s, a, w);
      assert WorkerOk(s, s.workers[w]);
      StillOk(s, Next(s, a), s.workers[w], Next(s, a).workers[w]);
    }
  }

  lemma OriginKept(s: State, a: Action, id: string)
    requires Inv(s) && Enabled(s, a) && id in Next(s, a).records
    ensures OriginOk(Next(s, a), id)
  {
    StepExtends(s, a);
    if id in s.records {
      assert OriginOk(s, id);
      var call := s.origins[id];
      var w :| w in s.workers && s.workers[w].job.source == call.source && s.workers[w].job.id == call.id
        && call.provider in s.workers[w].job.names;
      assert w in Next(s, a).workers && Next(s, a).workers[w].job == s.workers[w].job;
    } else {
      assert a.CreateRecord? && id == IdOf(s.workers[a.w]);
      assert a.w in Next(s, a).workers && Next(s, a).workers[a.w].job == s.workers[a.w].job;
    }
  }

  lemma CallersMove(s: State, a: Action, w: nat)
    requires Enabled(s, a) && w in Next(s, a).workers
    requires Next(s, a).workers[w].pc.Calling? || Next(s, a).workers[w].pc.Staging?
    ensures w in s.workers && Next(s, a).workers[w].job == s.workers[w].job
      && Next(s, a).workers[w].results == s.workers[w].results
    ensures
      || s.workers[w].pc.Calling? || s.workers[w].pc.Staging?
      || (a == Look(w) && Running(s, w) && Next(s, a).called ==
            s.called + [(s.workers[w].job.source, s.workers[w].job.id, Provider(s.workers[w]))])
  {
  }

  lemma CallersKept(s: State, a: Action, w: nat)
    requires Inv(s) && Enabled(s, a) && w in Next(s, a).workers
    requires Next(s, a).workers[w].pc.Calling? || Next(s, a).workers[w].pc.Staging?
    ensures var worker := Next(s, a).workers[w];
      |worker.results| < |worker.job.names| && (worker.job.source, worker.job.id, Provider(worker)) in Next(s, a).called
  {
    StepExtends(s, a);
    CallersMove(s, a, w);
  }

  lemma StepKeepsInv(s: State, a: Action)
    requires Inv(s) && Enabled(s, a)
    ensures Inv(Next(s, a))
  {
    forall w | w in Next(s, a).workers ensures WorkerOk(Next(s, a), Next(s, a).workers[w]) {
      WorkersKept(s, a, w);
    }
    forall id | id in Next(s, a).records ensures OriginOk(Next(s, a), id) {
      OriginKept(s, a, id);
    }
    forall w | w in Next(s, a).workers && (Next(s, a).workers[w].pc.Calling? || Next(s, a).workers[w].pc.Staging?)
      ensures |Next(s, a).workers[w].results| < |Next(s, a).workers[w].job.names|
      ensures (Next(s, a).workers[w].job.source, Next(s, a).workers[w].job.id,
        Provider(Next(s, a).workers[w])) in Next(s, a).called
    {
      CallersKept(s, a, w);
    }
  }

  ghost predicate Run(trace: seq<State>, actions: seq<Action>) {
    && |trace| == |actions| + 1
    && trace[0] == Start(trace[0].routing)
    && forall i {:trigger actions[i]} | 0 <= i < |actions| ::
      Enabled(trace[i], actions[i]) && trace[i + 1] == Next(trace[i], actions[i])
  }

  lemma {:induction false} ReachableInv(trace: seq<State>, actions: seq<Action>, i: nat)
    requires Run(trace, actions) && i < |trace|
    ensures Inv(trace[i])
  {
    if i > 0 {
      ReachableInv(trace, actions, i - 1);
      StepKeepsInv(trace[i - 1], actions[i - 1]);
    }
  }

  lemma {:induction false} RunExtends(trace: seq<State>, actions: seq<Action>, i: nat, j: nat)
    requires Run(trace, actions) && i <= j < |trace|
    ensures Extends(trace[i].records, trace[j].records) && trace[i].routing == trace[j].routing
    decreases j
  {
    if i < j {
      RunExtends(trace, actions, i, j - 1);
      StepExtends(trace[j - 1], actions[j - 1]);
      ExtendsTransitive(trace[i].records, trace[j - 1].records, trace[j].records);
    }
  }

  predicate SameEvent(v: Job, w: Job) {
    v.source == w.source && v.id == w.id && v.selected == w.selected
  }

  /**
   * All completed runs for one event, whenever they complete, return the same analyses, one from each provider
   * that the event is routed to and in that order.
   */
  lemma CompletedRunsAgree(trace: seq<State>, actions: seq<Action>, i: nat, j: nat, v: nat, w: nat)
    requires Run(trace, actions) && i <= j < |trace|
    requires v in trace[i].workers && trace[i].workers[v].pc.Completed?
    requires w in trace[j].workers && trace[j].workers[w].pc.Completed?
    requires SameEvent(trace[i].workers[v].job, trace[j].workers[w].job)
    ensures trace[i].workers[v].results == trace[j].workers[w].results
    ensures var worker := trace[j].workers[w];
      var names := ProviderNames(trace[0].routing, worker.job.selected);
      && names.Ok? && |worker.results| == |names.value|
      && forall k | 0 <= k < |worker.results| :: worker.results[k].provider == names.value[k]
  {
    ReachableInv(trace, actions, i);
    ReachableInv(trace, actions, j);
    RunExtends(trace, actions, 0, j);
    RunExtends(trace, actions, i, j);
    var (first, second) := (trace[i].workers[v], trace[j].workers[w]);
    assert WorkerOk(trace[i], first) && WorkerOk(trace[j], second);
    ResultsStillRead(trace[i], trace[j], first);
    forall k | 0 <= k < |first.results| ensures first.results[k] == second.results[k] {
      var (id, name) := (CheckpointId(first.job.source, first.job.id, first.job.names[k]), first.job.names[k]);
      assert Interpreted(trace[j].records[id].content, name) == Ok(first.results[k]);
      assert Interpreted(trace[j].records[id].content, name) == Ok(second.results[k]);
    }
  }

  /** A run that looks after a provider's checkpoint is staged does not call that provider. */
  lemma StagedProvidersAreNotCalled(trace: seq<State>, actions: seq<Action>, i: nat, j: nat)
    requires Run(trace, actions) && i <= j < |actions| && actions[j].Look?
    requires IdOf(trace[j].workers[actions[j].w]) in trace[i].records
    ensures trace[j + 1].called == trace[j].called
    ensures !trace[j + 1].workers[actions[j].w].pc.Calling?
  {
    RunExtends(trace, actions, i, j);
  }

  ghost predicate ColonFreeNames(s: State) {
    && (forall w | w in s.workers :: ColonFree(s.workers[w].job.source))
    && (forall p | p in s.routing.providers :: ColonFree(p))
  }

  lemma JobsAreColonFree(s: State, w: nat, provider: string)
    requires ColonFreeNames(s) && w in s.workers && WorkerOk(s, s.workers[w]) && provider in s.workers[w].job.names
    ensures ColonFree(s.workers[w].job.source) && ColonFree(provider)
  {
    RoutedProvidersAreConfigured(s.routing, s.workers[w].job.selected);
  }

  /**
   * With sources and configured provider names free of colons, a completed run's analyses come from calls made
   * for this very event and these very providers, never from another event's checkpoint; and a provider's
   * validated answer is returned as the provider gave it.
   */
  lemma AnalysesBelongToTheEvent(trace: seq<State>, actions: seq<Action>, i: nat, w: nat, k: nat)
    requires Run(trace, actions) && i < |trace| && ColonFreeNames(trace[i])
    requires w in trace[i].workers && trace[i].workers[w].pc.Completed? && k < |trace[i].workers[w].job.names|
    ensures var (worker, job) := (trace[i].workers[w], trace[i].workers[w].job);
      && |worker.results| == |job.names|
      && (job.source, job.id, job.names[k]) in trace[i].called
      && exists answer :: ProviderCall(job.source, job.id, job.names[k], answer) in trace[i].origins.Values
                          && Interpreted(AnalysisDict(answer), job.names[k]) == Ok(worker.results[k])
                          && (IsAnswerOf(answer, job.names[k]) ==> worker.results[k] == answer)
  {
    ReachableInv(trace, actions, i);
    var (s, worker) := (trace[i], trace[i].workers[w]);
    assert WorkerOk(s, worker);
    var id := CheckpointId(worker.job.source, worker.job.id, worker.job.names[k]);
    assert OriginOk(s, id);
    var call := s.origins[id];
    var v :| v in s.workers && s.workers[v].job.source == call.source && s.workers[v].job.id == call.id
      && call.provider in s.workers[v].job.names;
    JobsAreColonFree(s, w, worker.job.names[k]);
    JobsAreColonFree(s, v, call.provider);
    CheckpointIdsAreInjective(
      worker.job.source, worker.job.id, worker.job.names[k], call.source, call.id, call.provider);
    assert call == ProviderCall(worker.job.source, worker.job.id, worker.job.names[k], call.answer);
    assert call in s.origins.Values;
    if IsAnswerOf(call.answer, worker.job.names[k]) {
      AnswersReadBack(call.answer, worker.job.names[k]);
    }
  }
}
