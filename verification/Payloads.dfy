/** Content-addressed claim-check storage of event payloads (payloads.py). */
module Payloads {
  import opened Prelude
  import opened Events
  import opened Text

  const POINTER_KEY := "_event_blob"
  const OFFLOADED_KEY := "payload_offloaded"

  datatype PayloadError =
    | InvalidIntegrityMetadata
    | InvalidReference
    | BlobNotFound
    | IntegrityCheckFailed
    | NotAnEnvelope
    | IdentityMismatch

  datatype Blob = Blob(payload: Bytes, sha256: Digest, payloadHash: Digest)

  type Blobs = map<BlobName, Blob>

  predicate IsPointer(e: EventEnvelope) {
    && OFFLOADED_KEY in e.metadata && Truthy(e.metadata[OFFLOADED_KEY])
    && POINTER_KEY in e.data && IsMapping(e.data[POINTER_KEY])
  }

  function PayloadOf(e: EventEnvelope): Bytes {
    JsonBytes(JObject(ToDict(e)))
  }

  function EventKey(e: EventEnvelope): Digest {
    Sha256(TextBytes(e.source + [0 as char] + e.id))
  }

  function SafeChar(c: char): char {
    if 'A' <= c <= 'Z' then 'a' + (c - 'A')
    else if 'a' <= c <= 'z' || '0' <= c <= '9' || c == '-' then c
    else '-'
  }

  function StripDashes(s: string): string {
    if s != "" && s[0] == '-' then StripDashes(s[1..])
    else if s != "" && s[|s| - 1] == '-' then StripDashes(s[..|s| - 1])
    else s
  }

  function SafeChars(source: string): string {
    seq(|source|, i requires 0 <= i < |source| => SafeChar(source[i]))
  }

  function SafeSource(source: string): string {
    var safe := StripDashes(SafeChars(source));
    if safe == "" then "unknown" else safe
  }

  predicate IsSafe(c: char) {
    'a' <= c <= 'z' || '0' <= c <= '9' || c == '-'
  }

  /** A text to stand in a blob's name: not empty, of lower-case letters, digits and inner dashes. */
  predicate IsSafeText(s: string) {
    s != "" && s[0] != '-' && s[|s| - 1] != '-' && forall c | c in s :: IsSafe(c)
  }

  /** The stripped text is what lies between dashes only. */
  lemma {:induction false} StripDashesCharacterised(s: string) returns (i: nat, j: nat)
    ensures i <= j <= |s| && StripDashes(s) == s[i..j]
    ensures forall k | 0 <= k < i || j <= k < |s| :: s[k] == '-'
    ensures i < j ==> s[i] != '-' && s[j - 1] != '-'
    decreases |s|
  {
    if s != "" && s[0] == '-' {
      i, j := StripDashesCharacterised(s[1..]);
      i, j := i + 1, j + 1;
      assert forall k | 1 <= k < |s| :: s[k] == s[1..][k - 1];
    } else if s != "" && s[|s| - 1] == '-' {
      i, j := StripDashesCharacterised(s[..|s| - 1]);
    } else {
      i, j := 0, |s|;
    }
  }

  lemma SafeCharsIgnoreCase(source: string, other: string)
    requires DifferInCaseOnly(source, other)
    ensures SafeChars(source) == SafeChars(other)
  {
  }

  lemma SafeTextsAreKept(source: string)
    requires IsSafeText(source)
    ensures SafeSource(source) == source
  {
    assert forall k | 0 <= k < |source| :: source[k] in source;
    assert SafeChars(source) == source;
  }

  /** The source's part of a blob's name is safe, the source itself if that is safe, and the same for any case. */
  lemma SourcesAreMadeSafe(source: string, other: string)
    ensures IsSafeText(SafeSource(source))
    ensures IsSafeText(source) ==> SafeSource(source) == source
    ensures DifferInCaseOnly(source, other) ==> SafeSource(source) == SafeSource(other)
  {
    var i, j := StripDashesCharacterised(SafeChars(source));
    if IsSafeText(source) {
      SafeTextsAreKept(source);
    }
    if DifferInCaseOnly(source, other) {
      SafeCharsIgnoreCase(source, other);
    }
  }

  function BlobNameOf(e: EventEnvelope): BlobName {
    BlobName(SafeSource(e.source), EventKey(e), Sha256(PayloadOf(e)))
  }

  function BlobOf(e: EventEnvelope): Blob {
    Blob(PayloadOf(e), Sha256(PayloadOf(e)), PayloadHash(e))
  }

  /** The small envelope that travels on queues in place of `e`. */
  function Prepared(container: string, e: EventEnvelope): EventEnvelope {
    if IsPointer(e) then e
    else e.(
      data := map[POINTER_KEY := JReference(container, BlobNameOf(e), Sha256(PayloadOf(e)))],
      metadata := e.metadata[OFFLOADED_KEY := JBool(true)]
    )
  }

  /** The blobs after `prepare(e)`: an existing blob is never overwritten. */
  function Uploaded(blobs: Blobs, e: EventEnvelope): Blobs {
    if IsPointer(e) || BlobNameOf(e) in blobs then blobs else blobs[BlobNameOf(e) := BlobOf(e)]
  }

  function UploadedAll(blobs: Blobs, es: seq<EventEnvelope>): Blobs
    decreases |es|
  {
    if es == [] then blobs else UploadedAll(Uploaded(blobs, es[0]), es[1..])
  }

  function Resolved(container: string, blobs: Blobs, e: EventEnvelope, now: string, render: Json -> string)
    : Result<EventEnvelope, PayloadError>
  {
    if !IsPointer(e) then Ok(e)
    else match e.data[POINTER_KEY]
      case JReference(c, name, sha256) =>
        if c != container then Err(InvalidReference)
        else if name !in blobs then Err(BlobNotFound)
        else if Sha256(blobs[name].payload) != sha256 then Err(IntegrityCheckFailed)
        else if !blobs[name].payload.JsonBytes? || !blobs[name].payload.json.JObject? then Err(NotAnEnvelope)
        else (match FromDict(blobs[name].payload.json.fields, now, render)
          case Err(_) => Err(NotAnEnvelope)
          case Ok(full) => if full.id != e.id || full.source != e.source then Err(IdentityMismatch) else Ok(full))
      case _ => Err(InvalidReference)
  }

  /** Every blob is what some envelope uploads under that envelope's own name. */
  ghost predicate ContentAddressed(blobs: Blobs) {
    forall name | name in blobs :: exists e :: name == BlobNameOf(e) && blobs[name] == BlobOf(e)
  }

  lemma PayloadDeterminesEnvelope(e: EventEnvelope, f: EventEnvelope)
    requires PayloadOf(e) == PayloadOf(f)
    ensures e == f
  {
    assert ToDict(e) == ToDict(f);
    assert ToDict(e)["received_at"] == ToDict(f)["received_at"];
    assert ContentOf(e) == ContentOf(f);
    PayloadHashIgnoresReceiptTimeOnly(e, f);
  }

  lemma ExistingBlobIsTheSame(blobs: Blobs, e: EventEnvelope)
    requires ContentAddressed(blobs) && BlobNameOf(e) in blobs
    ensures blobs[BlobNameOf(e)] == BlobOf(e)
  {
    var f :| BlobNameOf(e) == BlobNameOf(f) && blobs[BlobNameOf(e)] == BlobOf(f);
    PayloadDeterminesEnvelope(e, f);
  }

  lemma UploadKeepsStore(blobs: Blobs, e: EventEnvelope)
    requires ContentAddressed(blobs)
    ensures ContentAddressed(Uploaded(blobs, e))
    ensures forall name | name in blobs :: name in Uploaded(blobs, e) && Uploaded(blobs, e)[name] == blobs[name]
  {
    var after := Uploaded(blobs, e);
    forall name | name in after ensures exists f :: name == BlobNameOf(f) && after[name] == BlobOf(f) {
      if name !in blobs {
        assert name == BlobNameOf(e) && after[name] == BlobOf(e);
      }
    }
  }

  /** Uploads never overwrite, whatever is stored. */
  lemma {:induction false} UploadsNeverOverwrite(blobs: Blobs, es: seq<EventEnvelope>)
    ensures forall name | name in blobs :: name in UploadedAll(blobs, es) && UploadedAll(blobs, es)[name] == blobs[name]
    decreases |es|
  {
    if es != [] {
      UploadsNeverOverwrite(Uploaded(blobs, es[0]), es[1..]);
    }
  }

  /** Any history of uploads keeps every blob, unchanged, and every name true to its content. */
  lemma {:induction false} HistoryKeepsStore(blobs: Blobs, es: seq<EventEnvelope>)
    requires ContentAddressed(blobs)
    ensures ContentAddressed(UploadedAll(blobs, es))
    ensures forall name | name in blobs :: name in UploadedAll(blobs, es) && UploadedAll(blobs, es)[name] == blobs[name]
    decreases |es|
  {
    if es != [] {
      UploadKeepsStore(blobs, es[0]);
      HistoryKeepsStore(Uploaded(blobs, es[0]), es[1..]);
    }
  }

  /** Every stored payload hashes to the digest in its name and to the digest in its metadata. */
  lemma StoredBlobsMatchTheirNames(blobs: Blobs, es: seq<EventEnvelope>, name: BlobName)
    requires ContentAddressed(blobs) && name in UploadedAll(blobs, es)
    ensures var blob := UploadedAll(blobs, es)[name];
      Sha256(blob.payload) == name.content == blob.sha256
  {
    HistoryKeepsStore(blobs, es);
  }

  /** Preparing again, or preparing what is already a pointer, changes nothing. */
  lemma PrepareIsIdempotent(container: string, blobs: Blobs, e: EventEnvelope)
    ensures IsPointer(Prepared(container, e))
    ensures Prepared(container, Prepared(container, e)) == Prepared(container, e)
    ensures Uploaded(blobs, Prepared(container, e)) == blobs
    ensures Prepared(container, e).id == e.id && Prepared(container, e).source == e.source
    ensures Prepared(container, e).(data := e.data, metadata := e.metadata) == e
    ensures Prepared(container, e).metadata - {OFFLOADED_KEY} == e.metadata - {OFFLOADED_KEY}
  {
    var p := Prepared(container, e);
    assert !IsPointer(e) ==> POINTER_KEY in p.data && p.metadata[OFFLOADED_KEY] == JBool(true);
  }

  /** An envelope whose metadata do not say so is no claim check, whatever its data: it is its own event. */
  lemma UnflaggedIsItself(container: string, blobs: Blobs, e: EventEnvelope, now: string, render: Json -> string)
    requires OFFLOADED_KEY !in e.metadata || e.metadata[OFFLOADED_KEY] in {JBool(false), JNull}
    ensures Resolved(container, blobs, e, now, render) == Ok(e)
    ensures Uploaded(blobs, e).Keys == blobs.Keys + {BlobNameOf(e)} && Prepared(container, e) != e
  {
    PrepareIsIdempotent(container, blobs, e);
  }

  lemma RedeemStored(container: string, blobs: Blobs, e: EventEnvelope, now: string, render: Json -> string)
    requires !IsPointer(e) && now != ""
    requires BlobNameOf(e) in blobs && blobs[BlobNameOf(e)] == BlobOf(e)
    ensures Resolved(container, blobs, Prepared(container, e), now, render) == Ok(e)
       <==> e.receivedAt != "" && e.subject != Some("")
  {
    var pointer, fields := Prepared(container, e), ToDict(e);
    PrepareIsIdempotent(container, blobs, e);
    assert pointer.data[POINTER_KEY] == JReference(container, BlobNameOf(e), Sha256(PayloadOf(e)));
    assert blobs[BlobNameOf(e)].payload == JsonBytes(JObject(fields));
    SerializationRoundTrip(e, now, render);
    assert Resolved(container, blobs, pointer, now, render) == Ok(FromDict(fields, now, render).value);
  }

  /**
   * The claim check redeems to the very envelope after any later uploads, exactly when that
   * envelope has a receipt time and no empty subject.
   */
  lemma ClaimCheckRoundTrip(
    container: string, blobs: Blobs, e: EventEnvelope, later: seq<EventEnvelope>, now: string, render: Json -> string)
    requires ContentAddressed(blobs) && !IsPointer(e) && now != ""
    ensures Resolved(container, UploadedAll(Uploaded(blobs, e), later), Prepared(container, e), now, render) == Ok(e)
       <==> e.receivedAt != "" && e.subject != Some("")
  {
    var name := BlobNameOf(e);
    if name in blobs {
      ExistingBlobIsTheSame(blobs, e);
    }
    UploadKeepsStore(blobs, e);
    assert Uploaded(blobs, e)[name] == BlobOf(e);
    HistoryKeepsStore(Uploaded(blobs, e), later);
    RedeemStored(container, UploadedAll(Uploaded(blobs, e), later), e, now, render);
  }

  /** The pointer refers to what `e` has uploaded, and goes by its id and source. */
  ghost predicate Redeems(container: string, blobs: Blobs, p: EventEnvelope, e: EventEnvelope) {
    && BlobNameOf(e) in blobs && p.id == e.id && p.source == e.source
    && POINTER_KEY in p.data && p.data[POINTER_KEY] == JReference(container, BlobNameOf(e), Sha256(PayloadOf(e)))
  }

  lemma RedeemedIsResolved(
    container: string, blobs: Blobs, p: EventEnvelope, e: EventEnvelope, now: string, render: Json -> string)
    requires ContentAddressed(blobs) && IsPointer(p) && now != "" && Redeems(container, blobs, p, e)
    ensures Resolved(container, blobs, p, now, render) == Ok(FromDict(ToDict(e), now, render).value)
  {
    ExistingBlobIsTheSame(blobs, e);
    SerializationRoundTrip(e, now, render);
  }

  lemma ResolvedIsRedeemed(
    container: string, blobs: Blobs, p: EventEnvelope, now: string, render: Json -> string)
    returns (e: EventEnvelope)
    requires ContentAddressed(blobs) && IsPointer(p) && now != "" && Resolved(container, blobs, p, now, render).Ok?
    ensures Redeems(container, blobs, p, e)
  {
    var name := p.data[POINTER_KEY].name;
    e :| name == BlobNameOf(e) && blobs[name] == BlobOf(e);
    SerializationRoundTrip(e, now, render);
  }

  /**
   * A pointer is redeemed exactly when it names a blob of this container, by its digest, that some envelope of
   * the pointer's own id and source has uploaded; and what comes back is that envelope, as serialisation gives it.
   */
  lemma ResolvedIsAuthentic(
    container: string, blobs: Blobs, p: EventEnvelope, full: EventEnvelope, now: string, render: Json -> string)
    requires ContentAddressed(blobs) && IsPointer(p) && now != ""
    ensures Resolved(container, blobs, p, now, render) == Ok(full)
       <==> exists e :: Redeems(container, blobs, p, e) && FromDict(ToDict(e), now, render) == Ok(full)
  {
    if Resolved(container, blobs, p, now, render) == Ok(full) {
      var e := ResolvedIsRedeemed(container, blobs, p, now, render);
      RedeemedIsResolved(container, blobs, p, e, now, render);
      SerializationRoundTrip(e, now, render);
    }
    forall e | Redeems(container, blobs, p, e) && FromDict(ToDict(e), now, render) == Ok(full)
      ensures Resolved(container, blobs, p, now, render) == Ok(full)
    {
      RedeemedIsResolved(container, blobs, p, e, now, render);
    }
  }

  class AzureBlobEventPayloadStore {
    const container: string
    var blobs: Blobs

    constructor (container: string)
      ensures this.container == container && blobs == map[] && ContentAddressed(blobs)
    {
      this.container := container;
      blobs := map[];
    }

    method Prepare(e: EventEnvelope) returns (r: Result<EventEnvelope, PayloadError>)
      requires ContentAddressed(blobs)
      modifies this
      ensures r == Ok(Prepared(container, e))
      ensures blobs == Uploaded(old(blobs), e) && ContentAddressed(blobs)
    {
      UploadKeepsStore(blobs, e);
      if IsPointer(e) {
        return Ok(e);
      }
      var payload := PayloadOf(e);
      var contentHash := Sha256(payload);
      var payloadHash := PayloadHash(e);
      var name := BlobName(SafeSource(e.source), EventKey(e), contentHash);
      if name in blobs {
        ExistingBlobIsTheSame(blobs, e);
        if blobs[name].sha256 != contentHash || blobs[name].payloadHash != payloadHash {
          return Err(InvalidIntegrityMetadata);
        }
      } else {
        blobs := blobs[name := Blob(payload, contentHash, payloadHash)];
      }
      var reference := JReference(container, name, contentHash);
      r := Ok(EventEnvelope(
        e.id, e.source, e.kind, map[POINTER_KEY := reference], e.correlationId,
        e.receivedAt, e.subject, e.metadata[OFFLOADED_KEY := JBool(true)], e.version));
    }

    method Resolve(e: EventEnvelope, now: string, render: Json -> string)
      returns (r: Result<EventEnvelope, PayloadError>)
      ensures r == Resolved(container, blobs, e, now, render)
      ensures r.Ok? ==> r.value.id == e.id && r.value.source == e.source
    {
      if !IsPointer(e) {
        return Ok(e);
      }
      var reference := e.data[POINTER_KEY];
      if !reference.JReference? || reference.container != container {
        return Err(InvalidReference);
      }
      if reference.name !in blobs {
        return Err(BlobNotFound);
      }
      var payload := blobs[reference.name].payload;
      if Sha256(payload) != reference.sha256 {
        return Err(IntegrityCheckFailed);
      }
      if !payload.JsonBytes? || !payload.json.JObject? {
        return Err(NotAnEnvelope);
      }
      var full := FromDict(payload.json.fields, now, render);
      if full.Err? {
        return Err(NotAnEnvelope);
      }
      if full.value.id != e.id || full.value.source != e.source {
        return Err(IdentityMismatch);
      }
      return Ok(full.value);
    }
  }
}
