/** The append-only audit writer: sequence number, previous hash, digest and checkpoint in
    one step, and what every history it builds satisfies. */
module AuditTrail {
  import opened Basics
  import opened CanonicalJson
  import opened HashChain
  import opened SignedAudit

  /** The key in use when an event is written; keys may be rotated between events. */
  datatype CheckpointSettings = CheckpointSettings(privateKey: Option<Signer>, keyId: string, interval: nat)

  datatype Redactor = Redactor(value: Value -> Value, text: string -> string)

  datatype Request = Request(
    eventId: string, eventType: string, payload: Option<Value>, actor: string, stepId: Option<string>,
    parentId: Option<string>, url: Option<string>, tabId: Option<string>, durationMs: Option<int>,
    occurredAt: string)

  /** The rows of one run: whether the run row exists and is terminal, its events and its
      checkpoints, both in the order they were inserted. */
  datatype AuditLog = AuditLog(
    runId: string, present: bool, terminal: bool, events: seq<Event>, checkpoints: seq<Checkpoint>)

  // ---------- one append ----------

  /** The row with the highest sequence number. */
  function NewestRow(events: seq<Event>): Option<Event> {
    if events == [] then None
    else
      var e, before := events[|events| - 1], NewestRow(events[..|events| - 1]);
      if before.Some? && before.value.seqNo > e.seqNo then before else Some(e)
  }

  function RedactedPayload(redactor: Redactor, payload: Option<Value>): seq<(string, Value)> {
    var redacted := redactor.value(payload.GetOr(VMapping([])));
    if redacted.VMapping? then redacted.entries else [("value", redacted)]
  }

  /** The row to insert, with its digest. */
  function NewRow(digest: EventDigest, redactor: Redactor, log: AuditLog, q: Request): Event {
    var last := NewestRow(log.events);
    var prev :=
      if last.None? || last.value.eventHash.GetOr("") == "" then GENESIS else last.value.eventHash.value;
    var row := Event(
      q.eventId, log.runId, if last.None? then 1 else last.value.seqNo + 1, q.eventType, q.occurredAt, q.actor,
      Some(RedactedPayload(redactor, q.payload)), Some(prev), q.stepId, q.parentId,
      if q.url.Some? then Some(redactor.text(q.url.value)) else None, q.tabId, q.durationMs, None);
    row.(eventHash := Some(digest(row)))
  }

  predicate Due(settings: CheckpointSettings, seqNo: int, terminal: bool) {
    settings.privateKey.Some? && (terminal || (settings.interval != 0 && seqNo % settings.interval == 0))
  }

  function SignedHead(settings: CheckpointSettings, e: Event): Checkpoint
    requires settings.privateKey.Some? && e.eventHash.Some?
  {
    var message := CheckpointMessage(e.runId, e.seqNo, e.eventHash.value);
    Checkpoint(e.runId, e.seqNo, e.eventHash.value, settings.keyId, settings.privateKey.value(message))
  }

  predicate AlreadyCheckpointed(checkpoints: seq<Checkpoint>, e: Event) {
    exists i :: 0 <= i < |checkpoints| && checkpoints[i].runId == e.runId && checkpoints[i].seqNo == e.seqNo
  }

  function MaybeCheckpoint(
    settings: CheckpointSettings, checkpoints: seq<Checkpoint>, e: Event, terminal: bool): seq<Checkpoint>
  {
    if e.eventHash.GetOr("") == "" || !Due(settings, e.seqNo, terminal) then checkpoints
    else if AlreadyCheckpointed(checkpoints, e) then checkpoints
    else checkpoints + [SignedHead(settings, e)]
  }

  predicate Refused(log: AuditLog, q: Request) {
    q.actor !in ["agent", "human", "system"] || q.eventType == "" || !log.present
  }

  function Append(
    digest: EventDigest, redactor: Redactor, settings: CheckpointSettings, log: AuditLog, q: Request): Result<AuditLog>
  {
    if Refused(log, q) then Err("AuditWriterError")
    else
      var row := NewRow(digest, redactor, log, q);
      var terminal := TerminalEventType(q.eventType) || log.terminal;
      Ok(log.(events := log.events + [row],
         checkpoints := MaybeCheckpoint(settings, log.checkpoints, row, terminal)))
  }

  // ---------- whole histories ----------

  datatype Op =
    | AppendOp(settings: CheckpointSettings, request: Request)
    | StatusOp(terminal: bool)

  function Apply(digest: EventDigest, redactor: Redactor, log: AuditLog, op: Op): AuditLog {
    match op
    case StatusOp(terminal) => log.(terminal := terminal)
    case AppendOp(settings, q) =>
      var r := Append(digest, redactor, settings, log, q);
      if r.Ok? then r.value else log
  }

  /** All the rows written for a run that was created and then saw `ops`. */
  function Written(digest: EventDigest, redactor: Redactor, runId: string, ops: seq<Op>): AuditLog {
    if ops == [] then AuditLog(runId, true, false, [], [])
    else Apply(digest, redactor, Written(digest, redactor, runId, ops[..|ops| - 1]), ops[|ops| - 1])
  }

  /** Per event written: the settings it was due for a checkpoint under, if it was due
      when it was appended. */
  function Boundaries(
    digest: EventDigest, redactor: Redactor, runId: string, ops: seq<Op>): seq<Option<CheckpointSettings>>
  {
    if ops == [] then []
    else
      var init, op := ops[..|ops| - 1], ops[|ops| - 1];
      var log, due := Written(digest, redactor, runId, init), Boundaries(digest, redactor, runId, init);
      if op.StatusOp? || Refused(log, op.request) then due
      else
        var terminal := TerminalEventType(op.request.eventType) || log.terminal;
        due + [if Due(op.settings, |log.events| + 1, terminal) then Some(op.settings) else None]
  }

  /** One checkpoint for every due event, in order, and no other. */
  function DueCheckpoints(events: seq<Event>, due: seq<Option<CheckpointSettings>>): seq<Checkpoint>
    requires |events| == |due|
  {
    if events == [] then []
    else
      var n := |events| - 1;
      DueCheckpoints(events[..n], due[..n])
      + if due[n].Some? && due[n].value.privateKey.Some? && events[n].eventHash.Some?
        then [SignedHead(due[n].value, events[n])] else []
  }

  ghost predicate WellWritten(
    digest: EventDigest, log: AuditLog, due: seq<Option<CheckpointSettings>>)
  {
    && log.present
    && |due| == |log.events|
    && ValidChain(digest, log.events)
    && (forall i :: 0 <= i < |log.events| ==> log.events[i].runId == log.runId)
    && (forall i :: 0 <= i < |due| && due[i].Some? ==> due[i].value.privateKey.Some?)
    && log.checkpoints == DueCheckpoints(log.events, due)
  }

  lemma NewestIsLast(digest: EventDigest, events: seq<Event>)
    requires ValidChain(digest, events)
    ensures NewestRow(events) == if events == [] then None else Some(events[|events| - 1])
  {
    if |events| > 1 {
      ChainPrefix(digest, events, |events| - 1);
      NewestIsLast(digest, events[..|events| - 1]);
      assert LinkHolds(digest, events, |events| - 1) && LinkHolds(digest, events, |events| - 2);
    }
  }

  /** Checkpoints exist only for events already written. */
  lemma {:induction false} CheckpointsAreOld(events: seq<Event>, due: seq<Option<CheckpointSettings>>, n: int)
    requires |events| == |due| && forall i :: 0 <= i < |events| ==> events[i].seqNo <= n
    ensures forall i :: 0 <= i < |DueCheckpoints(events, due)| ==> DueCheckpoints(events, due)[i].seqNo <= n
  {
    if events != [] { CheckpointsAreOld(events[..|events| - 1], due[..|events| - 1], n); }
  }

  lemma RowExtendsChain(digest: EventDigest, redactor: Redactor, log: AuditLog, q: Request)
    requires ValidChain(digest, log.events) && FieldsOnly(digest) && NeverEmpty(digest)
    ensures ValidChain(digest, log.events + [NewRow(digest, redactor, log, q)])
    ensures NewRow(digest, redactor, log, q).seqNo == |log.events| + 1
  {
    NewestIsLast(digest, log.events);
    var row := NewRow(digest, redactor, log, q);
    if log.events != [] { assert LinkHolds(digest, log.events, |log.events| - 1); }
    RowHash(digest, redactor, log, q);
    ChainExtends(digest, log.events, row);
  }

  lemma RowHash(digest: EventDigest, redactor: Redactor, log: AuditLog, q: Request)
    requires FieldsOnly(digest)
    ensures NewRow(digest, redactor, log, q).eventHash == Some(digest(NewRow(digest, redactor, log, q)))
  {
    var row := NewRow(digest, redactor, log, q);
    SameAsItself(Metadata(row));
    assert SameHashed(row, row.(eventHash := None));
  }

  lemma NewCheckpointIsFirst(digest: EventDigest, log: AuditLog, due: seq<Option<CheckpointSettings>>, row: Event)
    requires WellWritten(digest, log, due) && row.seqNo == |log.events| + 1
    ensures !AlreadyCheckpointed(log.checkpoints, row)
  {
    forall i | 0 <= i < |log.events| ensures log.events[i].seqNo <= |log.events| {
      assert LinkHolds(digest, log.events, i);
    }
    CheckpointsAreOld(log.events, due, |log.events|);
  }

  lemma DueCheckpointsGrow(
    events: seq<Event>, due: seq<Option<CheckpointSettings>>, e: Event, d: Option<CheckpointSettings>)
    requires |events| == |due| && e.eventHash.Some? && (d.Some? ==> d.value.privateKey.Some?)
    ensures DueCheckpoints(events + [e], due + [d])
            == DueCheckpoints(events, due) + if d.Some? then [SignedHead(d.value, e)] else []
  {
    assert (events + [e])[..|events|] == events && (due + [d])[..|due|] == due;
  }

  lemma AppendKeepsWellWritten(
    digest: EventDigest, redactor: Redactor, settings: CheckpointSettings, log: AuditLog, q: Request,
    due: seq<Option<CheckpointSettings>>)
    requires FieldsOnly(digest) && NeverEmpty(digest) && WellWritten(digest, log, due) && !Refused(log, q)
    ensures
      var terminal := TerminalEventType(q.eventType) || log.terminal;
      var d := if Due(settings, |log.events| + 1, terminal) then Some(settings) else None;
      WellWritten(digest, Append(digest, redactor, settings, log, q).value, due + [d])
  {
    hide NewRow, FieldsOnly, NeverEmpty, ValidChain, SignedHead, SameHashed;
    var row := NewRow(digest, redactor, log, q);
    RowExtendsChain(digest, redactor, log, q);
    RowBasics(digest, redactor, log, q);
    NewCheckpointIsFirst(digest, log, due, row);
    var terminal := TerminalEventType(q.eventType) || log.terminal;
    var d := if Due(settings, |log.events| + 1, terminal) then Some(settings) else None;
    DueCheckpointsGrow(log.events, due, row, d);
  }

  lemma RowBasics(digest: EventDigest, redactor: Redactor, log: AuditLog, q: Request)
    requires NeverEmpty(digest)
    ensures var row := NewRow(digest, redactor, log, q);
            row.runId == log.runId && row.eventHash.GetOr("") != "" && row.eventType == q.eventType
  {
  }

  /** Whatever is appended and however the run's status changes in between, the rows form
      a verified chain with exactly one checkpoint per event that was due when appended. */
  lemma {:induction false} HistoriesAreWellWritten(digest: EventDigest, redactor: Redactor, runId: string, ops: seq<Op>)
    requires FieldsOnly(digest) && NeverEmpty(digest)
    ensures WellWritten(digest, Written(digest, redactor, runId, ops), Boundaries(digest, redactor, runId, ops))
    ensures Written(digest, redactor, runId, ops).runId == runId
  {
    if ops != [] {
      var init, op := ops[..|ops| - 1], ops[|ops| - 1];
      HistoriesAreWellWritten(digest, redactor, runId, init);
      var log, due := Written(digest, redactor, runId, init), Boundaries(digest, redactor, runId, init);
      if op.AppendOp? && !Refused(log, op.request) {
        AppendKeepsWellWritten(digest, redactor, op.settings, log, op.request, due);
      }
    }
  }

  // ---------- what is stored for a request ----------

  /** One append that was accepted: the keys in use, the request, and whether the run was
      terminal at that moment. */
  datatype Moment = Moment(settings: CheckpointSettings, request: Request, terminal: bool)

  predicate Wellformed(q: Request) {
    (q.actor == "agent" || q.actor == "human" || q.actor == "system") && q.eventType != ""
  }

  /** The last status change decides whether the run is terminal; a new run is not. */
  predicate TerminalAfter(ops: seq<Op>) {
    ops != []
    && (if ops[|ops| - 1].StatusOp? then ops[|ops| - 1].terminal else TerminalAfter(ops[..|ops| - 1]))
  }

  function Moments(ops: seq<Op>): seq<Moment> {
    if ops == [] then []
    else
      var init, op := ops[..|ops| - 1], ops[|ops| - 1];
      if op.AppendOp? && Wellformed(op.request)
      then Moments(init) + [Moment(op.settings, op.request, TerminalAfter(init))]
      else Moments(init)
  }

  /** The row holds the request, each field in its own column, payload and URL redacted. */
  predicate Holds(redactor: Redactor, runId: string, row: Event, q: Request, seqNo: int) {
    && row.id == q.eventId && row.runId == runId && row.seqNo == seqNo
    && row.eventType == q.eventType && row.actor == q.actor && row.occurredAt == q.occurredAt
    && row.stepId == q.stepId && row.parentId == q.parentId && row.tabId == q.tabId && row.durationMs == q.durationMs
    && (q.url.None? ==> row.url.None?) && (q.url.Some? ==> row.url == Some(redactor.text(q.url.value)))
    && var redacted := redactor.value(if q.payload.Some? then q.payload.value else VMapping([]));
       row.metadata == Some(if redacted.VMapping? then redacted.entries else [("value", redacted)])
  }

  /** A checkpoint is wanted under a key, at a terminal event, in a terminal run, or at a
      multiple of the interval. */
  predicate Wanted(m: Moment, seqNo: int) {
    && m.settings.privateKey.Some?
    && (|| m.request.eventType == "run_succeeded" || m.request.eventType == "run_failed"
        || m.request.eventType == "run_cancelled" || m.request.eventType == "approval_denied"
        || m.request.eventType == "approval_timeout"
        || m.terminal
        || (m.settings.interval != 0 && seqNo % m.settings.interval == 0))
  }

  /** Row for row the log holds the requests, and a checkpoint was due where it is wanted. */
  ghost predicate Match(
    redactor: Redactor, runId: string, events: seq<Event>, due: seq<Option<CheckpointSettings>>, ms: seq<Moment>)
  {
    && |events| == |ms| == |due|
    && (forall n :: 0 <= n < |ms| ==> Holds(redactor, runId, events[n], ms[n].request, n + 1))
    && (forall n :: 0 <= n < |ms| ==> due[n] == if Wanted(ms[n], n + 1) then Some(ms[n].settings) else None)
  }

  lemma OneMoreMatches(
    redactor: Redactor, runId: string, events: seq<Event>, due: seq<Option<CheckpointSettings>>, ms: seq<Moment>,
    row: Event, d: Option<CheckpointSettings>, m: Moment)
    requires Match(redactor, runId, events, due, ms) && Holds(redactor, runId, row, m.request, |events| + 1)
    requires d == if Wanted(m, |events| + 1) then Some(m.settings) else None
    ensures Match(redactor, runId, events + [row], due + [d], ms + [m])
  {
    hide Holds, Wanted;
  }

  lemma {:induction false} MomentsAreWritten(digest: EventDigest, redactor: Redactor, runId: string, ops: seq<Op>)
    requires FieldsOnly(digest) && NeverEmpty(digest)
    ensures
      var log := Written(digest, redactor, runId, ops);
      && Match(redactor, runId, log.events, Boundaries(digest, redactor, runId, ops), Moments(ops))
      && log.present && log.terminal == TerminalAfter(ops)
  {
    if ops != [] {
      hide NewRow, Holds, FieldsOnly, NeverEmpty, ValidChain, Wanted, Due, TerminalEventType, MaybeCheckpoint;
      hide WellWritten;
      var init, op := ops[..|ops| - 1], ops[|ops| - 1];
      MomentsAreWritten(digest, redactor, runId, init);
      var log, due := Written(digest, redactor, runId, init), Boundaries(digest, redactor, runId, init);
      if op.AppendOp? && Wellformed(op.request) {
        var terminal := TerminalEventType(op.request.eventType) || log.terminal;
        RowHoldsRequest(digest, redactor, runId, init, op.request);
        DueIsWanted(op.settings, op.request, log.terminal, |log.events| + 1);
        hide Match;
        OneMoreMatches(redactor, runId, log.events, due, Moments(init), NewRow(digest, redactor, log, op.request),
                       if Due(op.settings, |log.events| + 1, terminal) then Some(op.settings) else None,
                       Moment(op.settings, op.request, log.terminal));
      }
    }
  }

  lemma RowHoldsRequest(digest: EventDigest, redactor: Redactor, runId: string, before: seq<Op>, q: Request)
    requires FieldsOnly(digest) && NeverEmpty(digest)
    ensures var log := Written(digest, redactor, runId, before);
            Holds(redactor, runId, NewRow(digest, redactor, log, q), q, |log.events| + 1)
  {
    HistoriesAreWellWritten(digest, redactor, runId, before);
    hide Written, Boundaries;
    RowExtendsChain(digest, redactor, Written(digest, redactor, runId, before), q);
    hide ValidChain, FieldsOnly, NeverEmpty;
  }

  lemma DueIsWanted(settings: CheckpointSettings, q: Request, terminal: bool, seqNo: int)
    ensures Due(settings, seqNo, TerminalEventType(q.eventType) || terminal)
            <==> Wanted(Moment(settings, q, terminal), seqNo)
  {
  }

  /** The checkpoint of a row under the key in use. */
  predicate Signs(c: Checkpoint, row: Event, settings: CheckpointSettings) {
    && settings.privateKey.Some?
    && c.runId == row.runId && c.seqNo == row.seqNo && Some(c.chainHash) == row.eventHash
    && c.keyId == settings.keyId
    && c.signature == settings.privateKey.value(CheckpointMessage(row.runId, row.seqNo, c.chainHash))
  }

  lemma {:induction false} DueCheckpointIsThere(
    digest: EventDigest, log: AuditLog, due: seq<Option<CheckpointSettings>>, n: nat, i: nat)
    requires WellWritten(digest, log, due) && i < n <= |log.events| && due[i].Some?
    ensures log.events[i].eventHash.Some?
    ensures SignedHead(due[i].value, log.events[i]) in DueCheckpoints(log.events[..n], due[..n])
  {
    hide SignedHead, ValidChain;
    var m := n - 1;
    assert log.events[..n][..m] == log.events[..m] && due[..n][..m] == due[..m];
    HashIsThere(digest, log.events, i);
    if i < m { DueCheckpointIsThere(digest, log, due, m, i); }
  }

  lemma HashIsThere(digest: EventDigest, events: seq<Event>, i: nat)
    requires ValidChain(digest, events) && i < |events|
    ensures events[i].eventHash.Some? && events[i].seqNo == i + 1
  {
    assert LinkHolds(digest, events, i);
  }

  lemma {:induction false} CheckpointIsOfDueEvent(
    digest: EventDigest, log: AuditLog, due: seq<Option<CheckpointSettings>>, n: nat, c: Checkpoint) returns (i: nat)
    requires WellWritten(digest, log, due) && n <= |log.events| && c in DueCheckpoints(log.events[..n], due[..n])
    ensures i < n && due[i].Some? && log.events[i].eventHash.Some? && c == SignedHead(due[i].value, log.events[i])
  {
    hide SignedHead, ValidChain;
    var m := n - 1;
    assert log.events[..n][..m] == log.events[..m] && due[..n][..m] == due[..m];
    if c in DueCheckpoints(log.events[..m], due[..m]) {
      i := CheckpointIsOfDueEvent(digest, log, due, m, c);
    } else {
      i := m;
    }
  }

  lemma CheckpointsAreThoseDue(digest: EventDigest, log: AuditLog, due: seq<Option<CheckpointSettings>>, n: nat)
    requires WellWritten(digest, log, due) && n < |log.events|
    ensures due[n].Some? ==> exists c :: c in log.checkpoints && c.seqNo == n + 1
    ensures forall c :: c in log.checkpoints && c.seqNo == n + 1 ==>
              due[n].Some? && Signs(c, log.events[n], due[n].value)
  {
    hide CheckpointMessage, ValidChain, DueCheckpoints;
    assert log.events[..|log.events|] == log.events && due[..|due|] == due;
    HashIsThere(digest, log.events, n);
    if due[n].Some? { DueCheckpointIsThere(digest, log, due, |log.events|, n); }
    forall c | c in log.checkpoints && c.seqNo == n + 1
      ensures due[n].Some? && Signs(c, log.events[n], due[n].value)
    {
      var i := CheckpointIsOfDueEvent(digest, log, due, |log.events|, c);
      HashIsThere(digest, log.events, i);
    }
  }

  /** What every history stores: for each accepted request its row, in order and numbered
      from 1, and a checkpoint exactly for those at which one was wanted. */
  lemma StoredAsRequested(
    digest: EventDigest, redactor: Redactor, runId: string, ops: seq<Op>, n: nat)
    requires FieldsOnly(digest) && NeverEmpty(digest) && n < |Moments(ops)|
    ensures
      var log, ms := Written(digest, redactor, runId, ops), Moments(ops);
      && |log.events| == |ms|
      && Holds(redactor, runId, log.events[n], ms[n].request, n + 1)
      && ((exists c :: c in log.checkpoints && c.seqNo == n + 1) <==> Wanted(ms[n], n + 1))
      && (forall c :: c in log.checkpoints && c.seqNo == n + 1 ==> Signs(c, log.events[n], ms[n].settings))
  {
    hide FieldsOnly, NeverEmpty, Written, Boundaries, Moments, Holds, Wanted, Signs, WellWritten;
    MomentsAreWritten(digest, redactor, runId, ops);
    HistoriesAreWellWritten(digest, redactor, runId, ops);
    var log, due := Written(digest, redactor, runId, ops), Boundaries(digest, redactor, runId, ops);
    CheckpointsAreThoseDue(digest, log, due, n);
  }

  // ---------- writer and verifier agree ----------

  /** The verifier knows the public key of every private key that was used. */
  ghost predicate KeysMatch(due: seq<Option<CheckpointSettings>>, keys: map<string, PublicKey>) {
    forall i :: 0 <= i < |due| && due[i].Some? && due[i].value.privateKey.Some? ==>
      && due[i].value.keyId in keys
      && forall m :: keys[due[i].value.keyId](m, due[i].value.privateKey.value(m))
  }

  lemma SignedHeadHolds(
    digest: EventDigest, events: seq<Event>, i: nat, settings: CheckpointSettings, keys: map<string, PublicKey>)
    requires ValidChain(digest, events) && i < |events| && settings.privateKey.Some? && settings.keyId in keys
    requires forall m :: keys[settings.keyId](m, settings.privateKey.value(m))
    ensures events[i].eventHash.Some? && CheckpointHolds(events, SignedHead(settings, events[i]), keys)
  {
    hide CheckpointMessage;
    assert LinkHolds(digest, events, i);
    var c := SignedHead(settings, events[i]);
    var m := CheckpointMessage(c.runId, c.seqNo, c.chainHash);
    assert keys[settings.keyId](m, settings.privateKey.value(m));
  }

  lemma {:induction false} DueCheckpointsHold(
    digest: EventDigest, events: seq<Event>, due: seq<Option<CheckpointSettings>>, n: nat, keys: map<string, PublicKey>)
    requires ValidChain(digest, events) && |events| == |due| && n <= |events| && KeysMatch(due, keys)
    ensures forall c :: c in DueCheckpoints(events[..n], due[..n]) ==> CheckpointHolds(events, c, keys)
  {
    if n > 0 {
      hide CheckpointHolds, ValidChain, SignedHead;
      DueCheckpointsHold(digest, events, due, n - 1, keys);
      assert events[..n][..n - 1] == events[..n - 1] && due[..n][..n - 1] == due[..n - 1];
      if due[n - 1].Some? && due[n - 1].value.privateKey.Some? {
        SignedHeadHolds(digest, events, n - 1, due[n - 1].value, keys);
      }
    }
  }

  /** The last checkpoint is that of the last event exactly when that event was due. */
  lemma LastCheckpoint(digest: EventDigest, log: AuditLog, due: seq<Option<CheckpointSettings>>)
    requires WellWritten(digest, log, due) && log.checkpoints != []
    ensures log.checkpoints[|log.checkpoints| - 1].seqNo == |log.events| <==> due[|due| - 1].Some?
  {
    assert log.events != [];
    var n := |log.events| - 1;
    var before := DueCheckpoints(log.events[..n], due[..n]);
    assert LinkHolds(digest, log.events, n);
    assert log.checkpoints == before + if due[n].Some? then [SignedHead(due[n].value, log.events[n])] else [];
    forall i | 0 <= i < n ensures log.events[..n][i].seqNo <= n {
      assert LinkHolds(digest, log.events, i);
    }
    CheckpointsAreOld(log.events[..n], due[..n], n);
  }

  /** A history of this writer is accepted exactly when it has a checkpoint and, if the run
      or its last event is terminal, the last event was due when it was appended. */
  lemma AcceptedIff(
    digest: EventDigest, redactor: Redactor, runId: string, ops: seq<Op>, keys: map<string, PublicKey>)
    requires FieldsOnly(digest) && NeverEmpty(digest)
    requires KeysMatch(Boundaries(digest, redactor, runId, ops), keys)
    ensures
      var log, due := Written(digest, redactor, runId, ops), Boundaries(digest, redactor, runId, ops);
      |due| == |log.events| &&
      (Accepts(digest, log.events, log.checkpoints, keys, log.terminal) <==>
        && log.events != [] && log.checkpoints != []
        && (log.terminal || TerminalEventType(log.events[|log.events| - 1].eventType) ==> due[|due| - 1].Some?))
  {
    hide CheckpointHolds, ValidChain, SignedHead, FieldsOnly, NeverEmpty;
    var log, due := Written(digest, redactor, runId, ops), Boundaries(digest, redactor, runId, ops);
    HistoriesAreWellWritten(digest, redactor, runId, ops);
    assert log.events[..|log.events|] == log.events && due[..|due|] == due;
    if log.checkpoints != [] {
      DueCheckpointsHold(digest, log.events, due, |due|, keys);
      LastCheckpoint(digest, log, due);
    }
  }

  predicate AlwaysSigned(ops: seq<Op>) {
    forall i :: 0 <= i < |ops| && ops[i].AppendOp? ==> ops[i].settings.privateKey.Some?
  }

  /** Whether the run was terminal when the last of its rows was appended. */
  predicate TerminalAtLastAppend(digest: EventDigest, redactor: Redactor, runId: string, ops: seq<Op>) {
    ops != [] &&
    var init, op := ops[..|ops| - 1], ops[|ops| - 1];
    var log := Written(digest, redactor, runId, init);
    if op.StatusOp? || Refused(log, op.request) then TerminalAtLastAppend(digest, redactor, runId, init)
    else log.terminal
  }

  /** With a signing key always configured, the last row was due if it is a terminal event
      or the run was terminal when it was appended. */
  lemma {:induction false} LastWasDue(digest: EventDigest, redactor: Redactor, runId: string, ops: seq<Op>)
    requires FieldsOnly(digest) && NeverEmpty(digest) && AlwaysSigned(ops)
    ensures
      var log, due := Written(digest, redactor, runId, ops), Boundaries(digest, redactor, runId, ops);
      && |due| == |log.events|
      && (log.events != []
          && (TerminalAtLastAppend(digest, redactor, runId, ops)
              || TerminalEventType(log.events[|log.events| - 1].eventType)) ==>
            due[|due| - 1].Some?)
  {
    hide NewRow, FieldsOnly, NeverEmpty, ValidChain, TerminalEventType;
    if ops != [] {
      var init, op := ops[..|ops| - 1], ops[|ops| - 1];
      LastWasDue(digest, redactor, runId, init);
      var log := Written(digest, redactor, runId, init);
      if op.AppendOp? && !Refused(log, op.request) {
        RowBasics(digest, redactor, log, op.request);
        assert op.settings.privateKey.Some?;
      }
    }
  }

  /** With a signing key always configured, a history is accepted as soon as it has a
      checkpoint, unless the run turned terminal after its last row was appended. */
  lemma AcceptedOnceCheckpointed(
    digest: EventDigest, redactor: Redactor, runId: string, ops: seq<Op>, keys: map<string, PublicKey>)
    requires FieldsOnly(digest) && NeverEmpty(digest) && AlwaysSigned(ops)
    requires KeysMatch(Boundaries(digest, redactor, runId, ops), keys)
    requires Written(digest, redactor, runId, ops).terminal ==> TerminalAtLastAppend(digest, redactor, runId, ops)
    ensures var log := Written(digest, redactor, runId, ops);
            Accepts(digest, log.events, log.checkpoints, keys, log.terminal) <==> log.checkpoints != []
  {
    hide CheckpointHolds, ValidChain, SignedHead, FieldsOnly, NeverEmpty, NewRow, KeysMatch, TerminalEventType;
    AcceptedIff(digest, redactor, runId, ops, keys);
    LastWasDue(digest, redactor, runId, ops);
    HistoriesAreWellWritten(digest, redactor, runId, ops);
  }

  // ---------- what has been signed ----------

  /** The uses of private keys in a history: each due event's history up to that event. */
  function LedgerOf(runId: string, events: seq<Event>, due: seq<Option<CheckpointSettings>>): seq<Signing>
    requires |events| == |due|
  {
    if events == [] then []
    else
      var n := |events| - 1;
      LedgerOf(runId, events[..n], due[..n]) + if due[n].Some? then [Signing(runId, events)] else []
  }

  lemma {:induction false} LedgerIsOfPrefixes(
    digest: EventDigest, runId: string, events: seq<Event>, due: seq<Option<CheckpointSettings>>, g: Signing)
    requires ValidChain(digest, events) && |events| == |due| && g in LedgerOf(runId, events, due)
    ensures ProperSigning(digest, g) && g.runId == runId
    ensures |g.history| <= |events| && g.history == events[..|g.history|] && due[|g.history| - 1].Some?
  {
    var n := |events| - 1;
    if g in LedgerOf(runId, events[..n], due[..n]) {
      ChainPrefix(digest, events, n);
      LedgerIsOfPrefixes(digest, runId, events[..n], due[..n], g);
      assert g.history == events[..|g.history|];
    } else {
      assert events[..|events|] == events;
    }
  }

  /** The message of a due event's checkpoint is the message of its ledger entry. */
  lemma CheckpointSignsLedgerEntry(digest: EventDigest, events: seq<Event>, runId: string)
    requires ValidChain(digest, events) && events != [] && events[|events| - 1].runId == runId
    ensures var e := events[|events| - 1];
            e.eventHash.Some?
            && CheckpointMessage(e.runId, e.seqNo, e.eventHash.value) == SigningMessage(Signing(runId, events))
  {
    hide CheckpointMessage;
    assert LinkHolds(digest, events, |events| - 1);
  }

  lemma LedgerGrows(
    runId: string, events: seq<Event>, due: seq<Option<CheckpointSettings>>, n: nat, g: Signing)
    requires |events| == |due| && n < |events| && g in LedgerOf(runId, events[..n], due[..n])
    ensures g in LedgerOf(runId, events[..n + 1], due[..n + 1])
  {
    assert events[..n + 1][..n] == events[..n] && due[..n + 1][..n] == due[..n];
  }

  /** Every checkpoint the writer adds has the message of a ledger entry. */
  lemma {:induction false} CheckpointIsInLedger(
    digest: EventDigest, log: AuditLog, due: seq<Option<CheckpointSettings>>, n: nat, c: Checkpoint)
    returns (g: Signing)
    requires WellWritten(digest, log, due) && n <= |log.events|
    requires c in DueCheckpoints(log.events[..n], due[..n])
    ensures g in LedgerOf(log.runId, log.events[..n], due[..n]) && g.history != []
    ensures SigningMessage(g) == CheckpointMessage(c.runId, c.seqNo, c.chainHash)
  {
    hide CheckpointMessage, ValidChain;
    var i := n - 1;
    assert log.events[..n][..i] == log.events[..i] && due[..n][..i] == due[..i];
    if c in DueCheckpoints(log.events[..i], due[..i]) {
      g := CheckpointIsInLedger(digest, log, due, i, c);
      LedgerGrows(log.runId, log.events, due, i, g);
    } else {
      g := Signing(log.runId, log.events[..n]);
      ChainPrefix(digest, log.events, n);
      CheckpointSignsLedgerEntry(digest, log.events[..n], log.runId);
    }
  }

  /** The checkpoints that the writer itself stored are never forged, whichever keys the
      verifier knows: what AcceptedRowsWereWritten asks for holds of every history that
      AcceptedIff speaks of. */
  lemma OwnCheckpointsAreUnforged(
    digest: EventDigest, redactor: Redactor, runId: string, ops: seq<Op>, keys: map<string, PublicKey>)
    requires FieldsOnly(digest) && NeverEmpty(digest)
    ensures
      var log, due := Written(digest, redactor, runId, ops), Boundaries(digest, redactor, runId, ops);
      WellWritten(digest, log, due) && Unforged(digest, log.checkpoints, keys, LedgerOf(runId, log.events, due))
  {
    hide CheckpointMessage, ValidChain, Binding, DueCheckpoints, LedgerOf;
    HistoriesAreWellWritten(digest, redactor, runId, ops);
    var log, due := Written(digest, redactor, runId, ops), Boundaries(digest, redactor, runId, ops);
    forall g | g in LedgerOf(runId, log.events, due) ensures ProperSigning(digest, g) {
      LedgerIsOfPrefixes(digest, runId, log.events, due, g);
    }
    var n := |log.events|;
    assert log.events[..n] == log.events && due[..n] == due;
    forall c | c in log.checkpoints
      ensures exists g :: g in LedgerOf(runId, log.events, due)
                          && SigningMessage(g) == CheckpointMessage(c.runId, c.seqNo, c.chainHash)
    {
      var g := CheckpointIsInLedger(digest, log, due, n, c);
    }
  }

  /** Up to the checkpoint at `i` the rows presented are the first rows written, cut at one
      that was due; if it is the last checkpoint of a finished run, all of them are. */
  ghost predicate Genuine(
    log: AuditLog, due: seq<Option<CheckpointSettings>>, events: seq<Event>, checkpoints: seq<Checkpoint>,
    runTerminal: bool, i: nat)
    requires |due| == |log.events| && i < |checkpoints| && events != []
  {
    var n := checkpoints[i].seqNo;
    && 1 <= n <= |events| && n <= |log.events| && due[n - 1].Some?
    && SameHistory(events[..n], log.events[..n])
    && (i == |checkpoints| - 1 && (runTerminal || TerminalEventType(events[|events| - 1].eventType)) ==>
          n == |events|)
  }

  /** Rows presented for a run whose writer built `log`, accepted although they may have
      been altered since: up to each checkpoint they are a prefix of the rows written, cut
      at an event that was signed; when the run is over, so is the whole history.  Other
      runs may be signed with the same keys. */
  lemma AcceptedRowsWereWritten(
    digest: EventDigest, log: AuditLog, due: seq<Option<CheckpointSettings>>, others: seq<Signing>,
    events: seq<Event>, checkpoints: seq<Checkpoint>, keys: map<string, PublicKey>, runTerminal: bool, i: nat)
    requires Binding(digest) && WellWritten(digest, log, due)
    requires Unforged(digest, checkpoints, keys, LedgerOf(log.runId, log.events, due) + others)
    requires forall g :: g in others ==> g.runId != log.runId
    requires Accepts(digest, events, checkpoints, keys, runTerminal)
    requires i < |checkpoints| && checkpoints[i].runId == log.runId
    ensures Genuine(log, due, events, checkpoints, runTerminal, i)
  {
    hide SameHashed, CheckpointMessage, Unforged, SignedHead, ValidChain;
    var c := checkpoints[i];
    var ledger := LedgerOf(log.runId, log.events, due) + others;
    var g := CheckpointFixesPrefix(digest, events, checkpoints, c, keys, ledger);
    LedgerIsOfPrefixes(digest, log.runId, log.events, due, g);
  }

  /** All of it for the digest that the code computes, with a hash that has no collisions and
      is never empty.  What the writer stored is accepted exactly when it is checkpointed as
      the verifier wants; and rows presented instead, if they are accepted with checkpoints
      that are not forged, are up to each checkpoint of the run those that were written. */
  lemma HashedHistoriesAreGenuine(
    hash: string -> string, redactor: Redactor, runId: string, ops: seq<Op>, keys: map<string, PublicKey>,
    others: seq<Signing>, events: seq<Event>, checkpoints: seq<Checkpoint>, runTerminal: bool, i: nat)
    requires Injective(hash) && forall text :: hash(text) != ""
    requires KeysMatch(Boundaries(ComputeEventHash(hash), redactor, runId, ops), keys)
    requires forall g :: g in others ==> g.runId != runId
    ensures
      var digest := ComputeEventHash(hash);
      var log, due := Written(digest, redactor, runId, ops), Boundaries(digest, redactor, runId, ops);
      && |due| == |log.events|
      && Unforged(digest, log.checkpoints, keys, LedgerOf(runId, log.events, due))
      && (Accepts(digest, log.events, log.checkpoints, keys, log.terminal) <==>
          && log.events != [] && log.checkpoints != []
          && (log.terminal || TerminalEventType(log.events[|log.events| - 1].eventType) ==> due[|due| - 1].Some?))
      && (Unforged(digest, checkpoints, keys, LedgerOf(runId, log.events, due) + others)
          && Accepts(digest, events, checkpoints, keys, runTerminal)
          && i < |checkpoints| && checkpoints[i].runId == runId ==>
            Genuine(log, due, events, checkpoints, runTerminal, i))
  {
    hide Injective, KeysMatch, Boundaries, Written, Unforged, Accepts, Genuine, WellWritten, LedgerOf;
    var digest := ComputeEventHash(hash);
    HashIsOfFieldsOnly(hash);
    CollisionFreeHashBinds(hash);
    HashIsNeverEmpty(hash);
    var log, due := Written(digest, redactor, runId, ops), Boundaries(digest, redactor, runId, ops);
    AcceptedIff(digest, redactor, runId, ops, keys);
    OwnCheckpointsAreUnforged(digest, redactor, runId, ops, keys);
    HistoriesAreWellWritten(digest, redactor, runId, ops);
    if Unforged(digest, checkpoints, keys, LedgerOf(runId, log.events, due) + others)
       && Accepts(digest, events, checkpoints, keys, runTerminal)
       && i < |checkpoints| && checkpoints[i].runId == runId {
      AcceptedRowsWereWritten(digest, log, due, others, events, checkpoints, keys, runTerminal, i);
    }
  }

  // ---------- the writer as an object ----------

  class AuditWriter {
    const digest: EventDigest
    const redactor: Redactor
    const settings: CheckpointSettings
    const runId: string
    var present: bool
    var terminal: bool
    var events: seq<Event>
    var checkpoints: seq<Checkpoint>

    function View(): AuditLog
      reads this
    {
      AuditLog(runId, present, terminal, events, checkpoints)
    }

    constructor (digest: EventDigest, redactor: Redactor, settings: CheckpointSettings, stored: AuditLog)
      ensures this.digest == digest && this.redactor == redactor && this.settings == settings && View() == stored
    {
      this.digest, this.redactor, this.settings := digest, redactor, settings;
      runId, present, terminal := stored.runId, stored.present, stored.terminal;
      events, checkpoints := stored.events, stored.checkpoints;
    }

    /** select ... order by seq desc limit 1 */
    method LastRow() returns (last: Option<Event>)
      ensures last == NewestRow(events)
    {
      last := None;
      for i := 0 to |events|
        invariant last == NewestRow(events[..i])
      {
        assert events[..i + 1][..i] == events[..i];
        if last.None? || last.value.seqNo <= events[i].seqNo { last := Some(events[i]); }
      }
      assert events[..|events|] == events;
    }

    method FindCheckpoint(row: Event) returns (found: bool)
      ensures found <==> AlreadyCheckpointed(checkpoints, row)
    {
      for i := 0 to |checkpoints|
        invariant forall j :: 0 <= j < i ==> checkpoints[j].runId != row.runId || checkpoints[j].seqNo != row.seqNo
      {
        if checkpoints[i].runId == row.runId && checkpoints[i].seqNo == row.seqNo { return true; }
      }
      return false;
    }

    method WriteCheckpoint(row: Event, isTerminal: bool)
      modifies this`checkpoints
      ensures checkpoints == MaybeCheckpoint(settings, old(checkpoints), row, isTerminal)
      ensures checkpoints == old(checkpoints) <==>
              || settings.privateKey.None? || row.eventHash.GetOr("") == ""
              || (!isTerminal && (settings.interval == 0 || row.seqNo % settings.interval != 0))
              || exists c :: c in old(checkpoints) && c.runId == row.runId && c.seqNo == row.seqNo
      ensures checkpoints != old(checkpoints) ==>
              && |checkpoints| == |old(checkpoints)| + 1 && old(checkpoints) <= checkpoints
              && Signs(checkpoints[|checkpoints| - 1], row, settings)
    {
      if settings.privateKey.None? || row.eventHash.GetOr("") == "" { return; }
      if !isTerminal && (settings.interval == 0 || row.seqNo % settings.interval != 0) { return; }
      var existing := FindCheckpoint(row);
      if existing { return; }
      checkpoints := checkpoints + [SignedHead(settings, row)];
    }

    /** One append under the row lock of its run. */
    method AppendEvent(q: Request) returns (r: Result<Event>)
      modifies this`events, this`checkpoints
      ensures
        var outcome := Append(digest, redactor, settings, old(View()), q);
        && (outcome.Ok? <==> r.Ok?)
        && View() == (if outcome.Ok? then outcome.value else old(View()))
        && (r.Ok? ==> events == old(events) + [r.value])
      ensures r.Ok? <==> present && Wellformed(q)
      ensures r.Ok? ==> Holds(redactor, runId, r.value, q, r.value.seqNo)
    {
      if q.actor !in ["agent", "human", "system"] { return Err("AuditWriterError"); }
      if q.eventType == "" { return Err("AuditWriterError"); }
      if !present { return Err("AuditWriterError"); }
      var last := LastRow();
      var nextSeq := 1;
      var prevHash := GENESIS;
      if last.Some? {
        nextSeq := last.value.seqNo + 1;
        if last.value.eventHash.GetOr("") != "" { prevHash := last.value.eventHash.value; }
      }
      var row := Event(
        q.eventId, runId, nextSeq, q.eventType, q.occurredAt, q.actor, Some(RedactedPayload(redactor, q.payload)),
        Some(prevHash), q.stepId, q.parentId, if q.url.Some? then Some(redactor.text(q.url.value)) else None,
        q.tabId, q.durationMs, None);
      row := row.(eventHash := Some(digest(row)));
      assert row == NewRow(digest, redactor, View(), q);
      events := events + [row];
      WriteCheckpoint(row, TerminalEventType(q.eventType) || terminal);
      return Ok(row);
    }
  }
}
