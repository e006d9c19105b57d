/** Structured analyses, provider routing, and the checkpointed analysis loop (analysis.py, worker.py). */
module Analysis {
  import opened Prelude
  import opened Events
  import opened Outbox
  import opened Text

  datatype AnalysisResult = AnalysisResult(
    summary: string, category: string, urgency: string, recommendedAction: string,
    requiresHumanApproval: bool, provider: string, model: string)

  datatype AnalysisError =
    | MissingAnalysisField
    | InvalidUrgency
    | ApprovalNotBoolean
    | EmptyText
    | InvalidIdentity
    | UnknownProvider
    | ProviderFailed

  const REQUIRED := {"summary", "category", "urgency", "recommended_action", "requires_human_approval"}

  predicate NonBlank(j: Json) {
    j.JText? && Strip(j.text) != ""
  }

  function ValidateAnalysis(v: map<string, Json>, provider: string, model: string)
      : Result<AnalysisResult, AnalysisError>
  {
    if !(REQUIRED <= v.Keys) then Err(MissingAnalysisField)
    else if v["urgency"] !in {JText("low"), JText("medium"), JText("high")} then Err(InvalidUrgency)
    else if !v["requires_human_approval"].JBool? then Err(ApprovalNotBoolean)
    else if !NonBlank(v["summary"]) || !NonBlank(v["category"]) || !NonBlank(v["recommended_action"])
      then Err(EmptyText)
    else Ok(AnalysisResult(
      Strip(v["summary"].text), Strip(v["category"].text), v["urgency"].text, Strip(v["recommended_action"].text),
      true, provider, model))
  }

  function AnalysisDict(r: AnalysisResult): map<string, Json> {
    map[
      "summary" := JText(r.summary),
      "category" := JText(r.category),
      "urgency" := JText(r.urgency),
      "recommended_action" := JText(r.recommendedAction),
      "requires_human_approval" := JBool(r.requiresHumanApproval),
      "provider" := JText(r.provider),
      "model" := JText(r.model)
    ]
  }

  lemma DictFields(r: AnalysisResult)
    ensures REQUIRED <= AnalysisDict(r).Keys
    ensures AnalysisDict(r)["summary"] == JText(r.summary) && AnalysisDict(r)["category"] == JText(r.category)
    ensures AnalysisDict(r)["urgency"] == JText(r.urgency)
    ensures AnalysisDict(r)["recommended_action"] == JText(r.recommendedAction)
    ensures AnalysisDict(r)["requires_human_approval"] == JBool(r.requiresHumanApproval)
  {
  }

  predicate Stripped(s: string) {
    s != "" && Strip(s) == s
  }

  lemma DictValidates(r: AnalysisResult, provider: string, model: string)
    requires Stripped(r.summary) && Stripped(r.category) && Stripped(r.recommendedAction)
    requires r.urgency in {"low", "medium", "high"}
    ensures ValidateAnalysis(AnalysisDict(r), provider, model)
         == Ok(r.(requiresHumanApproval := true, provider := provider, model := model))
  {
    DictFields(r);
  }

  /** A validated analysis is a fixed point of validation, and always asks for human approval. */
  lemma ValidationIsStable(v: map<string, Json>, provider: string, model: string)
    requires ValidateAnalysis(v, provider, model).Ok?
    ensures ValidateAnalysis(v, provider, model).value.requiresHumanApproval
    ensures ValidateAnalysis(AnalysisDict(ValidateAnalysis(v, provider, model).value), provider, model)
         == ValidateAnalysis(v, provider, model)
  {
    StripCharacterised(v["summary"].text);
    StripCharacterised(v["category"].text);
    StripCharacterised(v["recommended_action"].text);
    DictValidates(ValidateAnalysis(v, provider, model).value, provider, model);
  }

  /** The dictionary names every field of the analysis, with texts to be trimmed and whatever flag. */
  predicate Spells(v: map<string, Json>, r: AnalysisResult) {
    && REQUIRED <= v.Keys && v["requires_human_approval"].JBool?
    && r.urgency in {"low", "medium", "high"} && v["urgency"] == JText(r.urgency)
    && v["summary"].JText? && Strip(v["summary"].text) == r.summary != ""
    && v["category"].JText? && Strip(v["category"].text) == r.category != ""
    && v["recommended_action"].JText? && Strip(v["recommended_action"].text) == r.recommendedAction != ""
  }

  /** A dictionary is accepted exactly if it spells an analysis; that one is returned, marked for approval. */
  lemma ValidationAcceptsSpellings(v: map<string, Json>, provider: string, model: string, r: AnalysisResult)
    ensures ValidateAnalysis(v, provider, model) == Ok(r)
       <==> Spells(v, r) && r.requiresHumanApproval && r.provider == provider && r.model == model
  {
    assert REQUIRED <= v.Keys && Spells(v, r) ==> v["urgency"] in {JText("low"), JText("medium"), JText("high")};
  }

  function TextField(data: map<string, Json>, key: string): string {
    if key in data && data[key].JText? then data[key].text else ""
  }

  /** What the loop makes of a stored checkpoint for the provider it asks about. */
  function Interpreted(data: map<string, Json>, providerName: string): Result<AnalysisResult, AnalysisError> {
    var (provider, model) := (TextField(data, "provider"), TextField(data, "model"));
    if provider != providerName || model == "" then Err(InvalidIdentity)
    else ValidateAnalysis(data, provider, model)
  }

  /** A checkpoint is read for a provider exactly if it names this provider and a model, and spells the analysis. */
  lemma CheckpointsNameTheirProvider(data: map<string, Json>, providerName: string, r: AnalysisResult)
    ensures Interpreted(data, providerName) == Ok(r) <==>
      && TextField(data, "provider") == providerName == r.provider && TextField(data, "model") == r.model != ""
      && Spells(data, r) && r.requiresHumanApproval
  {
    ValidationAcceptsSpellings(data, TextField(data, "provider"), TextField(data, "model"), r);
  }

  /** The loop returns a provider's own validated answer unchanged. */
  lemma InterpretationIsFaithful(v: map<string, Json>, provider: string, model: string)
    requires ValidateAnalysis(v, provider, model).Ok? && model != ""
    ensures Interpreted(AnalysisDict(ValidateAnalysis(v, provider, model).value), provider) ==
      ValidateAnalysis(v, provider, model)
  {
    ValidationIsStable(v, provider, model);
    var d := AnalysisDict(ValidateAnalysis(v, provider, model).value);
    assert d["provider"] == JText(provider) && d["model"] == JText(model);
  }

  /** A provider's answer is what validation makes of some model output, under its own name and model. */
  ghost predicate IsAnswerOf(answer: AnalysisResult, provider: string) {
    answer.model != "" && exists v :: ValidateAnalysis(v, provider, answer.model) == Ok(answer)
  }

  lemma AnswersReadBack(answer: AnalysisResult, provider: string)
    requires IsAnswerOf(answer, provider)
    ensures Interpreted(AnalysisDict(answer), provider) == Ok(answer)
  {
    var v :| ValidateAnalysis(v, provider, answer.model) == Ok(answer);
    InterpretationIsFaithful(v, provider, answer.model);
  }

  // ---- Routing and checkpoint ids ----

  /** The configured providers in order, and the default choice. */
  datatype Routing = Routing(providers: seq<string>, default: string)

  /** `selected` is the event's choice, or empty. */
  function ProviderNames(routing: Routing, selected: string): Result<seq<string>, AnalysisError> {
    var choice := if selected != "" then selected else routing.default;
    if choice == "both" then Ok(routing.providers)
    else if choice in routing.providers then Ok([choice])
    else Err(UnknownProvider)
  }

  /** Routing names configured providers only. */
  lemma RoutedProvidersAreConfigured(routing: Routing, selected: string)
    requires ProviderNames(routing, selected).Ok?
    ensures forall name | name in ProviderNames(routing, selected).value :: name in routing.providers
  {
  }

  function CheckpointId(source: string, id: string, provider: string): string {
    source + ":" + id + ":" + provider
  }

  /** Event ids may hold colons; the ids of checkpoints still never clash. */
  lemma CheckpointIdsAreInjective(s: string, i: string, p: string, t: string, j: string, q: string)
    requires ColonFree(s) && ColonFree(t) && ColonFree(p) && ColonFree(q)
    requires CheckpointId(s, i, p) == CheckpointId(t, j, q)
    ensures s == t && i == j && p == q
  {
    SplitAtLast(s + ":" + i, t + ":" + j, p, q, ':');
    SplitAtFirst(s, t, i, j, ':');
  }

  const CHECKPOINT_SOURCE := "analysis-checkpoint"

  function CheckpointEvent(e: EventEnvelope, provider: string, r: AnalysisResult): EventEnvelope {
    EventEnvelope(
      CheckpointId(e.source, e.id, provider), CHECKPOINT_SOURCE, "analysis.completed", AnalysisDict(r),
      e.correlationId, e.receivedAt, e.subject, map[], "1")
  }

  function CheckpointKey(e: EventEnvelope, provider: string): Key {
    (CHECKPOINT_SOURCE, CheckpointId(e.source, e.id, provider))
  }

  /** A checkpoint goes by its event's correlation, receipt time and subject, and reads back as the answer. */
  lemma CheckpointsCarryTheirEvent(e: EventEnvelope, provider: string, answer: AnalysisResult)
    requires IsAnswerOf(answer, provider)
    ensures var checkpoint := CheckpointEvent(e, provider, answer);
      && Interpreted(checkpoint.data, provider) == Ok(answer)
      && checkpoint.id == e.source + ":" + e.id + ":" + provider && KeyOf(checkpoint) == CheckpointKey(e, provider)
      && checkpoint.correlationId == e.correlationId && checkpoint.receivedAt == e.receivedAt
      && checkpoint.subject == e.subject
  {
    AnswersReadBack(answer, provider);
  }

  /** The analyses that the stored checkpoints of the first `n` providers stand for. */
  ghost predicate ReadFrom(records: Table<Key, Stored>, e: EventEnvelope, names: seq<string>,
      results: seq<AnalysisResult>)
  {
    && |results| <= |names|
    && forall k | 0 <= k < |results| ::
         && CheckpointKey(e, names[k]) in records
         && Interpreted(records[CheckpointKey(e, names[k])].content.event.data, names[k]) == Ok(results[k])
  }

  lemma ReadFromKept(records: Table<Key, Stored>, later: Table<Key, Stored>, e: EventEnvelope, names: seq<string>,
      results: seq<AnalysisResult>)
    requires ReadFrom(records, e, names, results) && Extends(records, later)
    ensures ReadFrom(later, e, names, results)
  {
  }

  predicate NoneStaged(records: Table<Key, Stored>, e: EventEnvelope, names: seq<string>) {
    forall name | name in names :: CheckpointKey(e, name) !in records
  }

  lemma ReadFromAppended(
    records: Table<Key, Stored>, e: EventEnvelope, names: seq<string>, results: seq<AnalysisResult>,
    result: AnalysisResult)
    requires ReadFrom(records, e, names, results) && |results| < |names|
    requires CheckpointKey(e, names[|results|]) in records
    requires Interpreted(records[CheckpointKey(e, names[|results|])].content.event.data, names[|results|]) == Ok(result)
    ensures ReadFrom(records, e, names, results + [result])
  {
  }

  /** What stops the loop at the `k`-th provider: it is asked and fails, or its checkpoint is not its analysis. */
  ghost predicate Stops(records: Table<Key, Stored>, e: EventEnvelope, names: seq<string>,
      answers: seq<Option<AnalysisResult>>, k: nat, error: AnalysisError)
    requires |answers| == |names|
  {
    && k < |names|
    && var key := CheckpointKey(e, names[k]);
       if key in records then Interpreted(records[key].content.event.data, names[k]) == Err(error)
       else answers[k].None? && error == ProviderFailed
  }

  /** One provider's checkpoint: read it, or call the provider and stage its answer; then mark it sent. */
  method Checkpointed(store: MemoryIdempotencyStore, e: EventEnvelope, name: string, answer: Option<AnalysisResult>)
    returns (r: Result<EventEnvelope, AnalysisError>, asked: bool)
    requires store.Valid() && store.policy == FirstWins
    modifies store
    ensures store.Valid() && Extends(old(store.records), store.records)
    ensures asked <==> CheckpointKey(e, name) !in old(store.records)
    ensures r.Ok? <==> (asked ==> answer.Some?)
    ensures r.Err? ==> r.error == ProviderFailed && store.records == old(store.records)
    ensures forall key | key in store.records :: key in old(store.records) || key == CheckpointKey(e, name)
    ensures r.Ok? ==>
      var key := CheckpointKey(e, name);
      key in store.records && store.records[key].content.event == r.value && store.records[key].state == Sent
    ensures r.Ok? && asked ==> r.value == CheckpointEvent(e, name, answer.value)
  {
    var staged := store.GetStaged(CHECKPOINT_SOURCE, CheckpointId(e.source, e.id, name));
    asked := staged.None?;
    if staged.None? {
      if answer.None? {
        return Err(ProviderFailed), asked;
      }
      var outcome := store.Stage(CheckpointEvent(e, name, answer.value));
      staged := Some(outcome.value);
    }
    if staged.value.state != Sent {
      var _ := store.MarkSent(staged.value.event);
    }
    return Ok(staged.value.event), asked;
  }

  /** Whatever is new in the store, a called provider's checkpoint is. */
  ghost predicate NewAreCalled(before: Table<Key, Stored>, records: Table<Key, Stored>, e: EventEnvelope,
      called: seq<string>)
  {
    forall key | key in records && key !in before :: exists name :: name in called && key == CheckpointKey(e, name)
  }

  /** The first providers have been read, and just those that had no checkpoint were called. */
  ghost predicate Analyzed(before: Table<Key, Stored>, records: Table<Key, Stored>, e: EventEnvelope,
      names: seq<string>, results: seq<AnalysisResult>, called: seq<string>)
  {
    && Extends(before, records) && ReadFrom(records, e, names, results)
    && NoneStaged(before, e, called) && NewAreCalled(before, records, e, called)
  }

  /** The loop has stopped at the provider after those whose analyses were read. */
  ghost predicate Stopped(records: Table<Key, Stored>, e: EventEnvelope, names: seq<string>,
      answers: seq<Option<AnalysisResult>>, error: AnalysisError)
    requires |answers| == |names|
  {
    exists results: seq<AnalysisResult> ::
      ReadFrom(records, e, names, results) && Stops(records, e, names, answers, |results|, error)
  }

  lemma StillAnalyzed(before: Table<Key, Stored>, middle: Table<Key, Stored>, records: Table<Key, Stored>,
      e: EventEnvelope, names: seq<string>, results: seq<AnalysisResult>, called: seq<string>, asked: bool)
    requires Analyzed(before, middle, e, names, results, called) && |results| < |names| && Extends(middle, records)
    requires asked <==> CheckpointKey(e, names[|results|]) !in middle
    requires forall key | key in records :: key in middle || key == CheckpointKey(e, names[|results|])
    ensures Analyzed(before, records, e, names, results, if asked then called + [names[|results|]] else called)
  {
    ExtendsTransitive(before, middle, records);
    ReadFromKept(middle, records, e, names, results);
    var more := if asked then called + [names[|results|]] else called;
    forall key | key in records && key !in before ensures exists name :: name in more && key == CheckpointKey(e, name) {
      if key in middle {
        var name :| name in called && key == CheckpointKey(e, name);
        assert name in more;
      } else {
        assert names[|results|] in more;
      }
    }
  }

  /** One turn of the loop, at the provider after those whose analyses are `results`. */
  method AnalyzeNext(store: MemoryIdempotencyStore, e: EventEnvelope, names: seq<string>,
      answers: seq<Option<AnalysisResult>>, results: seq<AnalysisResult>, called: seq<string>,
      ghost before: Table<Key, Stored>)
    returns (r: Result<AnalysisResult, AnalysisError>, more: seq<string>)
    requires store.Valid() && store.policy == FirstWins && |answers| == |names| && |results| < |names|
    requires Analyzed(before, store.records, e, names, results, called)
    modifies store
    ensures store.Valid()
    ensures Analyzed(before, store.records, e, names, if r.Ok? then results + [r.value] else results, more)
    ensures r.Err? ==> Stops(store.records, e, names, answers, |results|, r.error)
  {
    ghost var middle := store.records;
    var name := names[|results|];
    var staged, asked := Checkpointed(store, e, name, answers[|results|]);
    StillAnalyzed(before, middle, store.records, e, names, results, called, asked);
    more := if asked then called + [name] else called;
    if staged.Err? {
      return Err(staged.error), more;
    }
    r := Interpreted(staged.value.data, name);
    if r.Ok? {
      ReadFromAppended(store.records, e, names, results, r.value);
    }
  }

  /**
   * The analysis loop over the memory store. `answers[k]` is what provider `names[k]` would answer if
   * called, None for a failure; `called` are the providers that are called.
   */
  method Analyze(store: MemoryIdempotencyStore, e: EventEnvelope, names: seq<string>,
      answers: seq<Option<AnalysisResult>>)
    returns (r: Result<seq<AnalysisResult>, AnalysisError>, called: seq<string>)
    requires store.Valid() && store.policy == FirstWins && |answers| == |names|
    modifies store
    ensures store.Valid() && Extends(old(store.records), store.records)
    ensures NoneStaged(old(store.records), e, called) && NewAreCalled(old(store.records), store.records, e, called)
    ensures r.Ok? ==> |r.value| == |names| && ReadFrom(store.records, e, names, r.value)
    ensures r.Err? ==> Stopped(store.records, e, names, answers, r.error)
  {
    called := [];
    var results: seq<AnalysisResult> := [];
    for k := 0 to |names|
      invariant store.Valid()
      invariant |results| == k && Analyzed(old(store.records), store.records, e, names, results, called)
    {
      var result;
      result, called := AnalyzeNext(store, e, names, answers, results, called, old(store.records));
      if result.Err? {
        return Err(result.error), called;
      }
      results := results + [result.value];
    }
    return Ok(results), called;
  }
}
