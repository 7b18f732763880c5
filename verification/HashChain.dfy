/** The hash chain over the audit events of a run.  The hash is any function from texts to
    non-empty texts; where it matters that it has no collisions, injectivity is assumed. */
module HashChain {
  import opened Basics
  import opened CanonicalJson

  const GENESIS := "0000000000000000000000000000000000000000000000000000000000000000"

  /** The keys hashed for every event, with null where a field is absent. */
  const HASH_FIELD_KEYS := [
    "actor", "duration_ms", "event_type", "metadata", "occurred_at", "parent_event_id",
    "prev_hash", "run_id", "seq", "step_id", "tab_id", "url"]

  // ---------- the hashed text of a field mapping ----------

  predicate HasAllKeys(fields: map<string, Value>) {
    forall k :: k in HASH_FIELD_KEYS ==> k in fields
  }

  function Payload(fields: map<string, Value>): Json
    requires HasAllKeys(fields)
  {
    JObject(map k | k in HASH_FIELD_KEYS :: Canonical(fields[k]))
  }

  /** canonicalize_event_fields: a missing key is an error, other keys are ignored. */
  function EventText(fields: map<string, Value>): Result<string> {
    if HasAllKeys(fields) then Ok(Print(Payload(fields))) else Err("KeyError")
  }

  /** The text is fixed by the values of the hashed keys, and fixes them. */
  lemma EventTextUnambiguous(f: map<string, Value>, g: map<string, Value>)
    requires HasAllKeys(f) && HasAllKeys(g)
    ensures EventText(f) == EventText(g)
            <==> forall k :: k in HASH_FIELD_KEYS ==> SameValue(f[k], g[k])
  {
    hide SameValue;
    PrintInjective(Payload(f), Payload(g));
    PayloadsEqual(f, g);
    forall k | k in HASH_FIELD_KEYS ensures Canonical(f[k]) == Canonical(g[k]) <==> SameValue(f[k], g[k]) {
      CanonicalIffSame(f[k], g[k]);
    }
  }

  lemma PayloadsEqual(f: map<string, Value>, g: map<string, Value>)
    requires HasAllKeys(f) && HasAllKeys(g)
    ensures Payload(f) == Payload(g)
            <==> forall k :: k in HASH_FIELD_KEYS ==> Canonical(f[k]) == Canonical(g[k])
  {
    var p, q := Payload(f).fields, Payload(g).fields;
    if p == q {
      forall k | k in HASH_FIELD_KEYS ensures Canonical(f[k]) == Canonical(g[k]) {
        assert p[k] == Canonical(f[k]) && q[k] == Canonical(g[k]);
      }
    }
    if forall k :: k in HASH_FIELD_KEYS ==> Canonical(f[k]) == Canonical(g[k]) {
      assert p == q;
    }
  }

  // ---------- event rows ----------

  /** One agent_events row.  Identifiers and the timestamp are given by the text they are
      hashed as; `id` and `eventHash` take no part in the hash. */
  datatype Event = Event(
    id: string,
    runId: string,
    seqNo: int,
    eventType: string,
    occurredAt: string,
    actor: string,
    metadata: Option<seq<(string, Value)>>,
    prevHash: Option<string>,
    stepId: Option<string>,
    parentId: Option<string>,
    url: Option<string>,
    tabId: Option<string>,
    durationMs: Option<int>,
    eventHash: Option<string>)

  function OrNull(text: Option<string>): Value {
    if text.Some? then VText(text.value) else VNull
  }

  function Metadata(e: Event): Value {
    VMapping(e.metadata.GetOr([]))
  }

  /** The stored previous hash; null and the empty text both stand for the genesis hash. */
  function StoredPrev(e: Event): string {
    if e.prevHash.GetOr("") == "" then GENESIS else e.prevHash.value
  }

  function HashFields(e: Event): map<string, Value> {
    map[
      "actor" := VString(e.actor),
      "duration_ms" := if e.durationMs.Some? then VInt(e.durationMs.value) else VNull,
      "event_type" := VString(e.eventType),
      "metadata" := Metadata(e),
      "occurred_at" := VText(e.occurredAt),
      "parent_event_id" := OrNull(e.parentId),
      "prev_hash" := VString(StoredPrev(e)),
      "run_id" := VText(e.runId),
      "seq" := VInt(e.seqNo),
      "step_id" := OrNull(e.stepId),
      "tab_id" := OrNull(e.tabId),
      "url" := OrNull(e.url)]
  }

  lemma RowsHaveAllKeys(e: Event)
    ensures HasAllKeys(HashFields(e))
  {
  }

  function Preimage(e: Event): string {
    RowsHaveAllKeys(e);
    EventText(HashFields(e)).value
  }

  /** Two rows agree on every hashed field. */
  ghost predicate SameHashed(e: Event, f: Event) {
    && e.runId == f.runId && e.seqNo == f.seqNo && e.eventType == f.eventType
    && e.occurredAt == f.occurredAt && e.actor == f.actor
    && SameValue(Metadata(e), Metadata(f))
    && StoredPrev(e) == StoredPrev(f)
    && e.stepId == f.stepId && e.parentId == f.parentId && e.url == f.url && e.tabId == f.tabId
    && e.durationMs == f.durationMs
  }

  ghost predicate SameAt(e: Event, f: Event, k: string) {
    k in HashFields(e) && k in HashFields(f) && SameValue(HashFields(e)[k], HashFields(f)[k])
  }

  lemma SameWho(e: Event, f: Event)
    ensures SameAt(e, f, "actor") && SameAt(e, f, "event_type") <==> e.actor == f.actor && e.eventType == f.eventType
  {
  }

  lemma SameWhat(e: Event, f: Event)
    ensures SameAt(e, f, "metadata") && SameAt(e, f, "url")
            <==> SameValue(Metadata(e), Metadata(f)) && e.url == f.url
  {
  }

  lemma SameWhen(e: Event, f: Event)
    ensures SameAt(e, f, "occurred_at") && SameAt(e, f, "duration_ms")
            <==> e.occurredAt == f.occurredAt && e.durationMs == f.durationMs
  {
  }

  lemma SameWhere(e: Event, f: Event)
    ensures SameAt(e, f, "seq") && SameAt(e, f, "tab_id") <==> e.seqNo == f.seqNo && e.tabId == f.tabId
  {
  }

  lemma SameLinks(e: Event, f: Event)
    ensures SameAt(e, f, "parent_event_id") && SameAt(e, f, "prev_hash") && SameAt(e, f, "run_id")
            && SameAt(e, f, "step_id")
            <==> e.parentId == f.parentId && StoredPrev(e) == StoredPrev(f) && e.runId == f.runId
                 && e.stepId == f.stepId
  {
  }

  lemma KeysByName(k: string)
    ensures k in HASH_FIELD_KEYS <==>
      || k == "actor" || k == "event_type" || k == "metadata" || k == "url"
      || k == "occurred_at" || k == "duration_ms" || k == "seq" || k == "tab_id"
      || k == "parent_event_id" || k == "prev_hash" || k == "run_id" || k == "step_id"
  {
    assert HASH_FIELD_KEYS[0] == "actor" && HASH_FIELD_KEYS[1] == "duration_ms";
    assert HASH_FIELD_KEYS[2] == "event_type" && HASH_FIELD_KEYS[3] == "metadata";
    assert HASH_FIELD_KEYS[4] == "occurred_at" && HASH_FIELD_KEYS[5] == "parent_event_id";
    assert HASH_FIELD_KEYS[6] == "prev_hash" && HASH_FIELD_KEYS[7] == "run_id";
    assert HASH_FIELD_KEYS[8] == "seq" && HASH_FIELD_KEYS[9] == "step_id";
    assert HASH_FIELD_KEYS[10] == "tab_id" && HASH_FIELD_KEYS[11] == "url";
  }

  lemma SameKeysSameFields(e: Event, f: Event)
    requires forall k :: k in HASH_FIELD_KEYS ==> SameAt(e, f, k)
    ensures SameHashed(e, f)
  {
    hide HashFields, SameAt, Metadata, SameValue;
    KeysByName("actor");
    KeysByName("event_type");
    KeysByName("metadata");
    KeysByName("url");
    SameWho(e, f);
    SameWhat(e, f);
    KeysByName("occurred_at");
    KeysByName("duration_ms");
    KeysByName("seq");
    KeysByName("tab_id");
    SameWhen(e, f);
    SameWhere(e, f);
    KeysByName("parent_event_id");
    KeysByName("prev_hash");
    KeysByName("run_id");
    KeysByName("step_id");
    SameLinks(e, f);
  }

  lemma SameFieldsSameKeys(e: Event, f: Event, k: string)
    requires SameHashed(e, f) && k in HASH_FIELD_KEYS
    ensures SameAt(e, f, k)
  {
    hide HashFields, SameAt, Metadata, SameValue;
    KeysByName(k);
    SameWho(e, f);
    SameWhat(e, f);
    SameWhen(e, f);
    SameWhere(e, f);
    SameLinks(e, f);
  }

  /** Equal preimages mean equal hashed fields, and conversely. */
  lemma PreimageUnambiguous(e: Event, f: Event)
    ensures Preimage(e) == Preimage(f) <==> SameHashed(e, f)
  {
    hide HashFields, SameHashed, SameValue, Payload;
    RowsHaveAllKeys(e);
    RowsHaveAllKeys(f);
    EventTextUnambiguous(HashFields(e), HashFields(f));
    if Preimage(e) == Preimage(f) {
      assert forall k :: k in HASH_FIELD_KEYS ==> SameAt(e, f, k);
      SameKeysSameFields(e, f);
    }
    if SameHashed(e, f) {
      forall k | k in HASH_FIELD_KEYS ensures SameAt(e, f, k) {
        SameFieldsSameKeys(e, f, k);
      }
    }
  }

  // ---------- digests ----------

  /** compute_event_hash for a row, given the hash function. */
  type EventDigest = Event -> string

  function ComputeEventHash(hash: string -> string): EventDigest {
    (e: Event) => hash(Preimage(e))
  }

  /** The digest of a row determines its hashed fields. */
  ghost predicate Binding(digest: EventDigest) {
    forall e, f :: digest(e) == digest(f) ==> SameHashed(e, f)
  }

  /** The digest looks at the hashed fields only. */
  ghost predicate FieldsOnly(digest: EventDigest) {
    forall e, f :: SameHashed(e, f) ==> digest(e) == digest(f)
  }

  ghost predicate NeverEmpty(digest: EventDigest) {
    forall e :: digest(e) != ""
  }

  lemma HashIsOfFieldsOnly(hash: string -> string)
    ensures FieldsOnly(ComputeEventHash(hash))
  {
    forall e, f | SameHashed(e, f) ensures ComputeEventHash(hash)(e) == ComputeEventHash(hash)(f) {
      PreimageUnambiguous(e, f);
    }
  }

  lemma CollisionFreeHashBinds(hash: string -> string)
    requires Injective(hash)
    ensures Binding(ComputeEventHash(hash))
  {
    forall e, f | ComputeEventHash(hash)(e) == ComputeEventHash(hash)(f) ensures SameHashed(e, f) {
      PreimageUnambiguous(e, f);
    }
  }

  lemma HashIsNeverEmpty(hash: string -> string)
    requires forall text :: hash(text) != ""
    ensures NeverEmpty(ComputeEventHash(hash))
  {
    forall e ensures ComputeEventHash(hash)(e) != "" {
      assert ComputeEventHash(hash)(e) == hash(Preimage(e));
    }
  }

  // ---------- the chain ----------

  /** The hash the event at index `i` must name as its predecessor. */
  function ExpectedPrev(events: seq<Event>, i: nat): string
    requires i <= |events|
  {
    if i == 0 then GENESIS else events[i - 1].eventHash.GetOr("")
  }

  predicate LinkHolds(digest: EventDigest, events: seq<Event>, i: nat)
    requires i < |events|
  {
    && events[i].seqNo == i + 1
    && StoredPrev(events[i]) == ExpectedPrev(events, i)
    && events[i].eventHash.GetOr("") != ""
    && events[i].eventHash == Some(digest(events[i]))
  }

  predicate ValidChain(digest: EventDigest, events: seq<Event>) {
    forall i :: 0 <= i < |events| ==> LinkHolds(digest, events, i)
  }

  method VerifyEventsChain(digest: EventDigest, events: seq<Event>) returns (ok: bool)
    ensures ok <==> ValidChain(digest, events)
  {
    if events == [] { return true; }
    var expectedPrev := GENESIS;
    var index := 0;
    while index < |events|
      invariant 0 <= index <= |events|
      invariant expectedPrev == ExpectedPrev(events, index)
      invariant forall i :: 0 <= i < index ==> LinkHolds(digest, events, i)
    {
      var event := events[index];
      ghost var link := LinkHolds(digest, events, index);
      if event.seqNo != index + 1 { return false; }
      var storedPrev := StoredPrev(event);
      if storedPrev != expectedPrev { return false; }
      if event.eventHash.GetOr("") == "" { return false; }
      var recomputed := digest(event);
      if recomputed != event.eventHash.value { return false; }
      expectedPrev := event.eventHash.value;
      index := index + 1;
    }
    return true;
  }

  lemma ChainPrefix(digest: EventDigest, events: seq<Event>, n: nat)
    requires ValidChain(digest, events) && n <= |events|
    ensures ValidChain(digest, events[..n])
  {
    forall i | 0 <= i < n ensures LinkHolds(digest, events[..n], i) {
      assert LinkHolds(digest, events, i);
    }
  }

  lemma ChainExtends(digest: EventDigest, events: seq<Event>, e: Event)
    requires ValidChain(digest, events) && NeverEmpty(digest)
    requires e.seqNo == |events| + 1 && StoredPrev(e) == ExpectedPrev(events, |events|)
    requires e.eventHash == Some(digest(e))
    ensures ValidChain(digest, events + [e])
  {
    forall i | 0 <= i < |events + [e]| ensures LinkHolds(digest, events + [e], i) {
      if i < |events| { assert LinkHolds(digest, events, i); }
    }
  }

  ghost predicate SameHistory(a: seq<Event>, b: seq<Event>) {
    |a| == |b| && forall i :: 0 <= i < |a| ==> SameHashed(a[i], b[i])
  }

  lemma LinkedAlike(x: Event, y: Event)
    ensures SameHashed(x, y) ==> x.seqNo == y.seqNo && StoredPrev(x) == StoredPrev(y)
  {
  }

  lemma SameHistoryGrows(a: seq<Event>, b: seq<Event>, x: Event, y: Event)
    requires SameHistory(a, b) && SameHashed(x, y)
    ensures SameHistory(a + [x], b + [y])
  {
    hide SameHashed;
  }

  /** Chains with the same last hash agree in their last events, in length, and in the hash
      before the last. */
  lemma LastLinksAgree(digest: EventDigest, a: seq<Event>, b: seq<Event>)
    requires Binding(digest) && ValidChain(digest, a) && ValidChain(digest, b)
    requires a != [] && b != [] && a[|a| - 1].eventHash == b[|b| - 1].eventHash
    ensures SameHashed(a[|a| - 1], b[|b| - 1]) && |a| == |b|
    ensures |a| > 1 ==> a[|a| - 2].eventHash == b[|b| - 2].eventHash
  {
    hide SameHashed;
    var x, y := a[|a| - 1], b[|b| - 1];
    assert LinkHolds(digest, a, |a| - 1) && LinkHolds(digest, b, |b| - 1);
    assert digest(x) == digest(y);
    LinkedAlike(x, y);
    if |a| > 1 { assert LinkHolds(digest, a, |a| - 2) && LinkHolds(digest, b, |b| - 2); }
  }

  /** The last hash of a chain fixes its length and every hashed field of every event. */
  lemma {:induction false} LastHashFixesHistory(digest: EventDigest, a: seq<Event>, b: seq<Event>)
    requires Binding(digest) && ValidChain(digest, a) && ValidChain(digest, b)
    requires a != [] && b != [] && a[|a| - 1].eventHash == b[|b| - 1].eventHash
    ensures SameHistory(a, b)
  {
    LastLinksAgree(digest, a, b);
    hide SameHashed, LinkHolds, Binding;
    if |a| > 1 {
      var initA, initB := a[..|a| - 1], b[..|b| - 1];
      ChainPrefix(digest, a, |a| - 1);
      ChainPrefix(digest, b, |b| - 1);
      LastHashFixesHistory(digest, initA, initB);
      assert a == initA + [a[|a| - 1]] && b == initB + [b[|b| - 1]];
      SameHistoryGrows(initA, initB, a[|a| - 1], b[|b| - 1]);
    }
  }

  /** A chain altered in any hashed field, shortened, or lengthened in the middle, while
      its last hash is kept, is rejected. */
  lemma AlteredChainIsRejected(digest: EventDigest, a: seq<Event>, b: seq<Event>)
    requires Binding(digest) && ValidChain(digest, a) && !SameHistory(a, b)
    requires a != [] && b != [] && a[|a| - 1].eventHash == b[|b| - 1].eventHash
    ensures !ValidChain(digest, b)
  {
    if ValidChain(digest, b) { LastHashFixesHistory(digest, a, b); }
  }
}
