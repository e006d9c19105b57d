/**
 * Private records of processing results (worker.py `ProcessingResult`) over JSON: what the result outbox
 * stores, publishes, and accepts when it reads a record back.
 */
module Results {
  import opened Prelude
  import opened Events
  import opened Analysis
  import opened ResultOutbox

  /** Without a checkpoint, the empty dictionary is stored. */
  type StoredResult = ProcessingResult<map<string, Json>, map<string, Json>>

  predicate Canonical(r: StoredResult) {
    r.checkpoint != Some(map[])
  }

  datatype RecordError = NotARecord | MissingResultField

  /** What is published of a result. */
  function ToPublic(r: StoredResult): map<string, Json> {
    map["event_id" := JText(r.eventId), "correlation_id" := JText(r.correlationId), "status" := JText(r.status),
        "output" := JObject(r.output)]
  }

  /** What is stored of a result. */
  function ToPrivateRecord(r: StoredResult): map<string, Json> {
    ToPublic(r)["checkpoint" := JObject(if r.checkpoint.Some? then r.checkpoint.value else map[])]
  }

  function FromPrivateRecord(v: map<string, Json>, render: Json -> string): Result<StoredResult, RecordError> {
    var checkpoint := if "checkpoint" in v then v["checkpoint"] else JObject(map[]);
    if "output" !in v || !v["output"].JObject? || !checkpoint.JObject? then Err(NotARecord)
    else
      var (eventId, correlationId, status) :=
        (TextAt(v, "event_id", render), TextAt(v, "correlation_id", render), TextAt(v, "status", render));
      if eventId == "" || correlationId == "" || status == "" then Err(MissingResultField)
      else Ok(ProcessingResult(eventId, correlationId, status, v["output"].fields,
                                  if checkpoint.fields == map[] then None else Some(checkpoint.fields)))
  }

  /** A result survives its private record exactly when it names its event, its correlation and its status. */
  lemma PrivateRecordRoundTrip(r: StoredResult, render: Json -> string)
    requires Canonical(r)
    ensures FromPrivateRecord(ToPrivateRecord(r), render) ==
      if r.eventId != "" && r.correlationId != "" && r.status != "" then Ok(r) else Err(MissingResultField)
    ensures FromPrivateRecord(ToPrivateRecord(r) - {"checkpoint"}, render) ==
      FromPrivateRecord(ToPrivateRecord(r.(checkpoint := None)), render)
  {
    var v := ToPrivateRecord(r);
    assert v - {"checkpoint"} == ToPublic(r) == ToPrivateRecord(r.(checkpoint := None)) - {"checkpoint"};
    assert v["output"] == JObject(r.output);
    assert v["event_id"] == JText(r.eventId) && v["correlation_id"] == JText(r.correlationId)
      && v["status"] == JText(r.status);
  }

  /** The public result tells everything but the checkpoint, and nothing of the checkpoint. */
  lemma PublicResultsHideCheckpoints(r: StoredResult, q: StoredResult)
    ensures ToPublic(r) == ToPublic(q) <==> r.(checkpoint := q.checkpoint) == q
    ensures ToPublic(r).Keys == {"event_id", "correlation_id", "status", "output"}
    ensures ToPublic(r)["event_id"] == JText(r.eventId) && ToPublic(r)["correlation_id"] == JText(r.correlationId)
    ensures ToPublic(r)["status"] == JText(r.status) && ToPublic(r)["output"] == JObject(r.output)
  {
    if ToPublic(r) == ToPublic(q) {
      assert ToPublic(r)["event_id"] == ToPublic(q)["event_id"];
      assert ToPublic(r)["correlation_id"] == ToPublic(q)["correlation_id"];
      assert ToPublic(r)["status"] == ToPublic(q)["status"] && ToPublic(r)["output"] == ToPublic(q)["output"];
    }
  }

  /**
   * The outbox dispatches exactly the records that are accepted when read back: complete results, and
   * never an analysis checkpoint of the same store.
   */
  lemma DispatchableIsAccepted(
    r: StoredResult, receivedAt: string, subject: Option<string>, a: AnalysisResult, text: string,
    render: Json -> string)
    requires Canonical(r)
    ensures Dispatchable(Private(r, receivedAt, subject)) <==> FromPrivateRecord(ToPrivateRecord(r), render) == Ok(r)
    ensures !Dispatchable<map<string, Json>, map<string, Json>>(ResultOutbox.Analysis(text))
    ensures FromPrivateRecord(AnalysisDict(a), render) == Err(NotARecord)
  {
    PrivateRecordRoundTrip(r, render);
    assert "output" !in AnalysisDict(a);
  }
}
