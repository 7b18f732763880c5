/** The audit writer, its signed checkpoints, and the verifier of a stored history.
    A private key is a signing function, a public key a test of message and signature. */
module SignedAudit {
  import opened Basics
  import opened CanonicalJson
  import opened HashChain

  type Signer = string -> string
  type PublicKey = (string, string) -> bool

  const CHECKPOINT_DOMAIN := "browser-use-audit-checkpoint:v1" + ['\0']

  predicate TerminalEventType(eventType: string) {
    eventType in ["run_succeeded", "run_failed", "run_cancelled", "approval_denied", "approval_timeout"]
  }

  /** The signed message.  Run ids and digests are plain ASCII, on which the escaping and
      the non-escaping printer agree. */
  function CheckpointMessage(runId: string, seqNo: int, chainHash: string): string {
    CHECKPOINT_DOMAIN
    + Print(JObject(map["chain_hash" := JString(chainHash), "run_id" := JString(runId), "seq" := JInt(seqNo)]))
  }

  lemma MessageUnambiguous(r: string, n: int, h: string, r': string, n': int, h': string)
    requires CheckpointMessage(r, n, h) == CheckpointMessage(r', n', h')
    ensures r == r' && n == n' && h == h'
  {
    var x := JObject(map["chain_hash" := JString(h), "run_id" := JString(r), "seq" := JInt(n)]);
    var y := JObject(map["chain_hash" := JString(h'), "run_id" := JString(r'), "seq" := JInt(n')]);
    DropSame(CHECKPOINT_DOMAIN, Print(x), Print(y));
    PrintInjective(x, y);
    assert x.fields["chain_hash"] == y.fields["chain_hash"];
    assert x.fields["run_id"] == y.fields["run_id"];
    assert x.fields["seq"] == y.fields["seq"];
  }

  datatype Checkpoint = Checkpoint(runId: string, seqNo: int, chainHash: string, keyId: string, signature: string)

  predicate VerifyCheckpointSignature(publicKey: PublicKey, c: Checkpoint) {
    publicKey(CheckpointMessage(c.runId, c.seqNo, c.chainHash), c.signature)
  }

  // ---------- the verifier ----------

  /** A checkpoint names the hash of an event of the history and is signed under a known key. */
  predicate CheckpointHolds(events: seq<Event>, c: Checkpoint, keys: map<string, PublicKey>) {
    && 1 <= c.seqNo <= |events|
    && events[c.seqNo - 1].eventHash == Some(c.chainHash)
    && c.keyId in keys
    && VerifyCheckpointSignature(keys[c.keyId], c)
  }

  predicate Accepts(
    digest: EventDigest, events: seq<Event>, checkpoints: seq<Checkpoint>, keys: map<string, PublicKey>,
    runTerminal: bool)
  {
    && events != [] && ValidChain(digest, events) && checkpoints != []
    && (forall i :: 0 <= i < |checkpoints| ==> CheckpointHolds(events, checkpoints[i], keys))
    && (runTerminal || TerminalEventType(events[|events| - 1].eventType) ==>
          checkpoints[|checkpoints| - 1].seqNo == |events|)
  }

  /** verify_run_audit on the rows of one run, events and checkpoints by ascending seq. */
  method VerifyRunAudit(
    digest: EventDigest, events: seq<Event>, checkpoints: seq<Checkpoint>, keys: map<string, PublicKey>,
    runTerminal: bool)
    returns (ok: bool)
    ensures ok <==> Accepts(digest, events, checkpoints, keys, runTerminal)
  {
    if events == [] { return false; }
    var chained := VerifyEventsChain(digest, events);
    if !chained { return false; }
    if checkpoints == [] { return false; }
    var signed := VerifyCheckpoints(digest, events, checkpoints, keys);
    if !signed { return false; }
    var lastEvent := events[|events| - 1];
    assert LinkHolds(digest, events, |events| - 1);
    if (runTerminal || TerminalEventType(lastEvent.eventType))
       && checkpoints[|checkpoints| - 1].seqNo != lastEvent.seqNo {
      return false;
    }
    return true;
  }

  method VerifyCheckpoints(
    ghost digest: EventDigest, events: seq<Event>, checkpoints: seq<Checkpoint>, keys: map<string, PublicKey>)
    returns (ok: bool)
    requires ValidChain(digest, events)
    ensures ok <==> forall i :: 0 <= i < |checkpoints| ==> CheckpointHolds(events, checkpoints[i], keys)
  {
    hide CheckpointMessage, ValidChain;
    var eventHashes := HashesBySeq(digest, events);
    var i := 0;
    while i < |checkpoints|
      invariant 0 <= i <= |checkpoints|
      invariant forall j :: 0 <= j < i ==> CheckpointHolds(events, checkpoints[j], keys)
    {
      var c := checkpoints[i];
      ghost var holds := CheckpointHolds(events, c, keys);
      if c.seqNo !in eventHashes || eventHashes[c.seqNo] != c.chainHash { return false; }
      if c.keyId !in keys || !VerifyCheckpointSignature(keys[c.keyId], c) { return false; }
      i := i + 1;
    }
    return true;
  }

  /** The dictionary from sequence number to event hash. */
  method HashesBySeq(ghost digest: EventDigest, events: seq<Event>) returns (hashes: map<int, string>)
    requires ValidChain(digest, events)
    ensures forall n :: n in hashes <==> 1 <= n <= |events|
    ensures forall n :: n in hashes ==> events[n - 1].eventHash == Some(hashes[n])
  {
    hashes := map[];
    for i := 0 to |events|
      invariant forall n :: n in hashes <==> 1 <= n <= i
      invariant forall n :: n in hashes ==> events[n - 1].eventHash == Some(hashes[n])
    {
      assert LinkHolds(digest, events, i);
      hashes := hashes[events[i].seqNo := events[i].eventHash.value];
    }
  }

  // ---------- what an accepted history proves ----------

  /** One use of a private key: the history of a run as it was when its head was signed. */
  datatype Signing = Signing(runId: string, history: seq<Event>)

  predicate ProperSigning(digest: EventDigest, g: Signing) {
    g.history != [] && ValidChain(digest, g.history)
  }

  function SigningMessage(g: Signing): string
    requires g.history != []
  {
    CheckpointMessage(g.runId, |g.history|, g.history[|g.history| - 1].eventHash.GetOr(""))
  }

  /** No checkpoint presented is forged: if it verifies under a known key, its message was
      signed, and every signing was one of a proper chain head. */
  ghost predicate Unforged(
    digest: EventDigest, checkpoints: seq<Checkpoint>, keys: map<string, PublicKey>, ledger: seq<Signing>)
  {
    && (forall g :: g in ledger ==> ProperSigning(digest, g))
    && forall c :: c in checkpoints && c.keyId in keys && VerifyCheckpointSignature(keys[c.keyId], c) ==>
         exists g :: g in ledger && SigningMessage(g) == CheckpointMessage(c.runId, c.seqNo, c.chainHash)
  }

  lemma SigningOf(
    digest: EventDigest, checkpoints: seq<Checkpoint>, c: Checkpoint, keys: map<string, PublicKey>,
    ledger: seq<Signing>)
    returns (g: Signing)
    requires Unforged(digest, checkpoints, keys, ledger)
    requires c in checkpoints && c.keyId in keys && VerifyCheckpointSignature(keys[c.keyId], c)
    ensures g in ledger && ProperSigning(digest, g)
    ensures SigningMessage(g) == CheckpointMessage(c.runId, c.seqNo, c.chainHash)
  {
    g :| g in ledger && SigningMessage(g) == CheckpointMessage(c.runId, c.seqNo, c.chainHash);
  }

  lemma SigningNamesHead(digest: EventDigest, c: Checkpoint, g: Signing)
    requires ProperSigning(digest, g) && SigningMessage(g) == CheckpointMessage(c.runId, c.seqNo, c.chainHash)
    ensures g.runId == c.runId && |g.history| == c.seqNo
    ensures g.history[|g.history| - 1].eventHash == Some(c.chainHash)
  {
    var h := g.history;
    MessageUnambiguous(c.runId, c.seqNo, c.chainHash, g.runId, |h|, h[|h| - 1].eventHash.GetOr(""));
    assert LinkHolds(digest, h, |h| - 1);
  }

  /** The events up to the checkpoint are those of the history that was signed. */
  ghost predicate Attests(g: Signing, events: seq<Event>, c: Checkpoint) {
    g.runId == c.runId && 1 <= c.seqNo <= |events| && SameHistory(events[..c.seqNo], g.history)
  }

  ghost predicate Attested(ledger: seq<Signing>, events: seq<Event>, c: Checkpoint) {
    exists g :: g in ledger && Attests(g, events, c)
  }

  lemma CheckpointFixesPrefix(
    digest: EventDigest, events: seq<Event>, checkpoints: seq<Checkpoint>, c: Checkpoint,
    keys: map<string, PublicKey>, ledger: seq<Signing>)
    returns (g: Signing)
    requires Binding(digest) && Unforged(digest, checkpoints, keys, ledger)
    requires ValidChain(digest, events) && c in checkpoints && CheckpointHolds(events, c, keys)
    ensures g in ledger && Attests(g, events, c)
  {
    hide Unforged, ValidChain, CheckpointMessage;
    g := SigningOf(digest, checkpoints, c, keys, ledger);
    SigningNamesHead(digest, c, g);
    ChainPrefix(digest, events, c.seqNo);
    LastHashFixesHistory(digest, events[..c.seqNo], g.history);
  }

  /** In an accepted history the events up to each checkpoint are those that were there
      when the checkpoint was signed; when the run is over, that is the whole history. */
  lemma AcceptedHistoryWasSigned(
    digest: EventDigest, events: seq<Event>, checkpoints: seq<Checkpoint>, keys: map<string, PublicKey>,
    runTerminal: bool, ledger: seq<Signing>)
    requires Binding(digest) && Unforged(digest, checkpoints, keys, ledger)
    requires Accepts(digest, events, checkpoints, keys, runTerminal)
    ensures forall i :: 0 <= i < |checkpoints| ==> Attested(ledger, events, checkpoints[i])
    ensures runTerminal || TerminalEventType(events[|events| - 1].eventType) ==>
              exists g :: g in ledger && SameHistory(events, g.history)
  {
    forall i | 0 <= i < |checkpoints|
      ensures Attested(ledger, events, checkpoints[i])
    {
      var g := CheckpointFixesPrefix(digest, events, checkpoints, checkpoints[i], keys, ledger);
    }
    if runTerminal || TerminalEventType(events[|events| - 1].eventType) {
      var last := checkpoints[|checkpoints| - 1];
      var g := CheckpointFixesPrefix(digest, events, checkpoints, last, keys, ledger);
      assert events[..|events|] == events;
    }
  }
}
