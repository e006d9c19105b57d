/** The canonical event envelope (events.py) over abstract JSON and SHA-256. */
module Events {
  import opened Prelude

  /** JSON values. The serializer is taken to be injective, so a JSON text is its value. */
  datatype Json =
    | JNull
    | JBool(flag: bool)
    | JNumber(number: int)
    | JText(text: string)
    | JArray(items: seq<Json>)
    | JObject(fields: map<string, Json>)
    | JReference(container: string, name: BlobName, sha256: Digest) // an object spelling a blob reference

  /** What is hashed or stored: the canonical text of a JSON value, or a plain text. */
  datatype Bytes = JsonBytes(json: Json) | TextBytes(plain: string)

  /** SHA-256, injective on the contents in play. */
  datatype Digest = Sha256(of: Bytes)

  /** events/{safeSource}/{eventKey}/{content}.json */
  datatype BlobName = BlobName(safeSource: string, eventKey: Digest, content: Digest)

  predicate Truthy(j: Json) {
    match j
    case JNull => false
    case JBool(b) => b
    case JNumber(n) => n != 0
    case JText(s) => s != ""
    case JArray(items) => items != []
    case JObject(fields) => fields != map[]
    case JReference(_, _, _) => true
  }

  predicate IsMapping(j: Json) {
    j.JObject? || j.JReference?
  }

  datatype EventEnvelope = EventEnvelope(
    id: string,
    source: string,
    kind: string,
    data: map<string, Json>,
    correlationId: string,
    receivedAt: string,
    subject: Option<string>,
    metadata: map<string, Json>,
    version: string
  )

  datatype EnvelopeError = MissingFields | DataNotObject | MetadataNotObject

  function SubjectJson(subject: Option<string>): Json {
    match subject
    case None => JNull
    case Some(s) => JText(s)
  }

  function ToDict(e: EventEnvelope): map<string, Json> {
    map[
      "id" := JText(e.id),
      "source" := JText(e.source),
      "type" := JText(e.kind),
      "data" := JObject(e.data),
      "correlation_id" := JText(e.correlationId),
      "received_at" := JText(e.receivedAt),
      "subject" := SubjectJson(e.subject),
      "metadata" := JObject(e.metadata),
      "version" := JText(e.version)
    ]
  }

  /** Python's `str()` on a JSON value; `render` stands for every value that is not a text. */
  function Str(j: Json, render: Json -> string): string {
    if j.JText? then j.text else render(j)
  }

  /** `str(v.get(key) or "")` */
  function TextAt(v: map<string, Json>, key: string, render: Json -> string): string {
    if key in v && Truthy(v[key]) then Str(v[key], render) else ""
  }

  const REQUIRED_FIELDS := {"id", "source", "type", "data", "correlation_id"}
  const OPTIONAL_FIELDS := {"received_at", "subject", "metadata", "version"}

  function FromDict(v: map<string, Json>, now: string, render: Json -> string): Result<EventEnvelope, EnvelopeError> {
    if !(REQUIRED_FIELDS <= v.Keys) then Err(MissingFields)
    else if !v["data"].JObject? then Err(DataNotObject)
    else if "metadata" in v && !v["metadata"].JObject? then Err(MetadataNotObject)
    else Ok(EventEnvelope(
      Str(v["id"], render),
      Str(v["source"], render),
      Str(v["type"], render),
      v["data"].fields,
      Str(v["correlation_id"], render),
      if "received_at" in v && Truthy(v["received_at"]) then Str(v["received_at"], render) else now,
      if "subject" in v && Truthy(v["subject"]) then Some(Str(v["subject"], render)) else None,
      if "metadata" in v then v["metadata"].fields else map[],
      if "version" in v then Str(v["version"], render) else "1"
    ))
  }

  /** An envelope survives serialization exactly when its receipt time is set and its subject is not the empty text. */
  lemma SerializationRoundTrip(e: EventEnvelope, now: string, render: Json -> string)
    requires now != ""
    ensures FromDict(ToDict(e), now, render).Ok?
    ensures FromDict(ToDict(e), now, render).value.id == e.id
    ensures FromDict(ToDict(e), now, render).value.source == e.source
    ensures FromDict(ToDict(e), now, render) == Ok(e) <==> e.receivedAt != "" && e.subject != Some("")
  {
    var v := ToDict(e);
    assert v["subject"] == SubjectJson(e.subject);
    var back := FromDict(v, now, render).value;
    assert back.receivedAt == if e.receivedAt != "" then e.receivedAt else now;
    assert back.subject == if e.subject == Some("") then None else e.subject;
  }

  lemma DictKeys(e: EventEnvelope)
    ensures ToDict(e).Keys == REQUIRED_FIELDS + OPTIONAL_FIELDS
  {
  }

  lemma DictWithout(e: EventEnvelope, missing: set<string>)
    requires missing <= OPTIONAL_FIELDS
    ensures var v := ToDict(e) - missing;
      && v.Keys == REQUIRED_FIELDS + (OPTIONAL_FIELDS - missing)
      && v["id"] == JText(e.id) && v["source"] == JText(e.source) && v["type"] == JText(e.kind)
      && v["data"] == JObject(e.data) && v["correlation_id"] == JText(e.correlationId)
      && ("received_at" in v ==> v["received_at"] == JText(e.receivedAt))
      && ("subject" in v ==> v["subject"] == SubjectJson(e.subject))
      && ("metadata" in v ==> v["metadata"] == JObject(e.metadata))
      && ("version" in v ==> v["version"] == JText(e.version))
  {
    DictKeys(e);
    assert (ToDict(e) - missing).Keys == ToDict(e).Keys - missing;
  }

  /** A field left out is read as its default - the present time, none, nothing, "1" - or refused if required. */
  lemma MissingFieldsDefault(e: EventEnvelope, missing: set<string>, now: string, render: Json -> string)
    requires missing <= ToDict(e).Keys && e.receivedAt != "" && e.subject != Some("")
    ensures FromDict(ToDict(e) - missing, now, render) ==
      if !(missing <= OPTIONAL_FIELDS) then Err(MissingFields)
      else Ok(e.(
        receivedAt := if "received_at" in missing then now else e.receivedAt,
        subject := if "subject" in missing then None else e.subject,
        metadata := if "metadata" in missing then map[] else e.metadata,
        version := if "version" in missing then "1" else e.version))
  {
    DictKeys(e);
    if missing <= OPTIONAL_FIELDS {
      DictWithout(e, missing);
    } else {
      var key :| key in missing && key !in OPTIONAL_FIELDS;
      assert key in REQUIRED_FIELDS && key !in (ToDict(e) - missing).Keys;
    }
  }

  /** Data and metadata must be objects. */
  lemma OnlyObjectsAreRead(e: EventEnvelope, bad: Json, now: string, render: Json -> string)
    requires !bad.JObject?
    ensures FromDict(ToDict(e)["data" := bad], now, render) == Err(DataNotObject)
    ensures FromDict(ToDict(e)["metadata" := bad], now, render) == Err(MetadataNotObject)
  {
  }

  /** What is hashed of an envelope. */
  function ContentOf(e: EventEnvelope): map<string, Json> {
    ToDict(e) - {"received_at"}
  }

  /** The hash of the provider content: everything but the receipt time. */
  function PayloadHash(e: EventEnvelope): Digest {
    Sha256(JsonBytes(JObject(ContentOf(e))))
  }

  lemma ContentFields(e: EventEnvelope)
    ensures {"id", "source", "type", "data", "metadata", "correlation_id", "version", "subject"} <= ContentOf(e).Keys
    ensures ContentOf(e)["id"] == JText(e.id) && ContentOf(e)["source"] == JText(e.source)
    ensures ContentOf(e)["type"] == JText(e.kind) && ContentOf(e)["data"] == JObject(e.data)
    ensures ContentOf(e)["metadata"] == JObject(e.metadata) && ContentOf(e)["version"] == JText(e.version)
    ensures ContentOf(e)["correlation_id"] == JText(e.correlationId)
    ensures ContentOf(e)["subject"] == SubjectJson(e.subject)
  {
  }

  lemma ContentDeterminesFields(e: EventEnvelope, f: EventEnvelope)
    requires ContentOf(e) == ContentOf(f)
    ensures e.(receivedAt := f.receivedAt) == f
  {
    ContentFields(e);
    ContentFields(f);
    assert e.subject == f.subject;
  }

  /** Two envelopes hash alike exactly when they differ at most in their receipt time. */
  lemma PayloadHashIgnoresReceiptTimeOnly(e: EventEnvelope, f: EventEnvelope)
    ensures PayloadHash(e) == PayloadHash(f) <==> e.(receivedAt := f.receivedAt) == f
  {
    if ContentOf(e) == ContentOf(f) {
      ContentDeterminesFields(e, f);
    }
    if e.(receivedAt := f.receivedAt) == f {
      assert ContentOf(e) == ContentOf(f);
    }
  }
}
