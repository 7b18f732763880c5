/** The shared state of one run: its row, its approval rows, the in-process control
    signals, and the trace of everything that matters for safety.  The operator
    services are functions from one such state to the next; each is one atomic step. */
module RunModel {
  import opened Basics

  datatype RunStatus =
    | Queued | Running | Paused | AwaitingApproval | AwaitingHuman
    | Succeeded | Failed | Cancelled
  {
    predicate Terminal() {
      Succeeded? || Failed? || Cancelled?
    }
  }

  /** `finished` says whether finished_at is set; the clock value itself is not modelled. */
  datatype RunRow = RunRow(status: RunStatus, finished: bool)

  datatype ApprovalStatus = Requested | Granted | Denied

  datatype Verdict = Grant | Deny

  datatype Signals = Signals(decision: Option<Verdict>, stepRetryArmed: bool, pendingApproval: Option<nat>)

  const NO_SIGNALS := Signals(None, false, None)

  datatype ActionKind = BrowserAction | Extract | Done

  /** A decided action; `gated` is what the approval policy answered for it. */
  datatype Action = Action(kind: ActionKind, gated: bool)

  /** An action together with the trace position of the observation it was decided from
      and the approval row its gate created, if any. */
  datatype Decision = Decision(action: Action, observedAt: nat, approval: Option<nat>)

  datatype AuditKind =
    | RunStarted | ObservationCaptured | DecisionMade | ApprovalRequested | ApprovalTimeout
    | FreshObserve | ActionRequested | ActionCompleted | ActionFailed | StepRetry
    | ModelCall | ModelCallFailed | ResearchEvidence | ResearchResult
    | RunSucceeded | RunFailed | RunCancelled
    | RunPaused | RunResumed | RetryRequested | TakeoverStarted | TakeoverEnded
    | ApprovalGranted | ApprovalDenied
  {
    predicate TerminalType() {
      RunSucceeded? || RunFailed? || RunCancelled? || ApprovalDenied? || ApprovalTimeout?
    }
  }

  datatype Writer =
    | PauseCall | ResumeCall | CancelCall | RetryCall | TakeCall | ReleaseCall
    | ApproveCall | RejectCall | StartCall | RecoverCall | LoopSetStatus | OutcomePersisted

  datatype Event =
    | StatusWritten(writer: Writer, from: RunStatus, to: RunStatus)
    | LoopStarted
    | GateOpened(row: nat, action: Action, observedAt: nat)
    | ApprovedRow(row: nat)
    | RejectedRow(row: nat)
    | HoldSeen          // a gate's takeover poll found the run held by a human
    | HoldMissed        // the following wait found a hold that the takeover poll had not
    | Observed
    | ExecStarted(decision: Decision)   // the inner browser port receives execute
    | GuardPassed                       // the guarded port's poll found no hold
    | ExecRefused                       // the guarded port answers with a refusal
    | Appended(byLoop: bool, kind: AuditKind)

  // ---------- what a trace has established so far ----------

  /** What a trace says about approval gates: the decision each row was opened for, the
      rows approved and rejected, and the rows that have authorised an execute. */
  datatype GateBook = GateBook(
    opening: map<nat, (Action, nat)>, approved: set<nat>, rejected: set<nat>, executed: set<nat>)

  /** Trace positions (or -1) of the last hold a takeover poll saw, of the last release of
      control and of the last observation; whether every hold seen before that observation
      had been released by then; and whether the guarded port has polled since the last
      execute and found no hold. */
  datatype HoldBook =
    HoldBook(seenAt: int, releasedAt: int, observedAt: int, settledThen: bool, guardClear: bool)
  {
    predicate Settled() { seenAt == -1 || seenAt < releasedAt }
  }

  /** Observations, terminal appends and last append of the loop since it started, and
      whether a human has denied an approval since. */
  datatype AppendBook = AppendBook(observations: nat, terminals: nat, last: Option<AuditKind>, denied: bool)

  /** A running summary of a trace.  `sound` stays true as long as every event was
      justified by the events before it. */
  datatype History = History(
    length: nat,
    status: RunStatus,
    cancelled: bool,
    execsAfterCancel: nat,
    gates: GateBook,
    holds: HoldBook,
    appends: AppendBook,
    sound: bool)

  const EMPTY_HISTORY :=
    History(0, Queued, false, 0, GateBook(map[], {}, {}, {}), HoldBook(-1, -1, -1, false, false),
            AppendBook(0, 0, None, false), true)

  /** An execute is authorised: a gated action by an approval of the row its own gate
      opened, used once; never twice after a cancel; on an observation made after every
      hold a takeover poll has seen was released; never after the loop itself recorded a
      timeout, a cancel or another end. */
  predicate JustifiedExec(h: History, d: Decision) {
    && (d.action.gated ==> d.approval.Some?)
    && (d.approval.Some? ==> Authorised(h.gates, d))
    && (h.cancelled ==> h.execsAfterCancel == 0)
    && FreshlyObserved(h.holds, d.observedAt)
    && h.holds.guardClear
    && h.appends.terminals == 0
  }

  predicate Authorised(g: GateBook, d: Decision)
    requires d.approval.Some?
  {
    && d.approval.value in g.opening
    && g.opening[d.approval.value] == (d.action, d.observedAt)
    && d.approval.value in g.approved
    && d.approval.value !in g.executed
  }

  predicate FreshlyObserved(k: HoldBook, at: nat) {
    k.observedAt == at && k.settledThen && k.seenAt < at
  }

  predicate JustifiedWrite(h: History, writer: Writer, from: RunStatus, to: RunStatus) {
    && from == h.status
    && (from.Cancelled? ==> to.Cancelled?)
    && (from.Succeeded? ==> to.Succeeded?)
    && (from.Failed? && !to.Failed? ==> writer == RetryCall)
  }

  predicate Justified(h: History, e: Event) {
    match e
    case StatusWritten(writer, from, to) => JustifiedWrite(h, writer, from, to)
    case GateOpened(row, _, _) => row !in h.gates.opening
    case ApprovedRow(row) => row in h.gates.opening && row !in h.gates.approved && row !in h.gates.rejected
    case RejectedRow(row) => row in h.gates.opening && row !in h.gates.approved && row !in h.gates.rejected
    case ExecStarted(d) => JustifiedExec(h, d)
    case _ => true
  }

  function NoteGate(g: GateBook, e: Event): GateBook {
    match e
    case GateOpened(row, action, at) => g.(opening := g.opening[row := (action, at)])
    case ApprovedRow(row) => g.(approved := g.approved + {row})
    case RejectedRow(row) => g.(rejected := g.rejected + {row})
    case ExecStarted(d) =>
      if d.approval.Some? then g.(executed := g.executed + {d.approval.value}) else g
    case _ => g
  }

  function NoteHold(k: HoldBook, now: nat, e: Event): HoldBook {
    match e
    case StatusWritten(_, from, to) =>
      if from.AwaitingHuman? && !to.AwaitingHuman? then k.(releasedAt := now) else k
    case HoldSeen => k.(seenAt := now)
    case Observed => k.(observedAt := now, settledThen := k.Settled())
    case GuardPassed => k.(guardClear := true)
    case ExecRefused => k.(guardClear := false)
    case ExecStarted(_) => k.(guardClear := false)
    case _ => k
  }

  function NoteAppend(a: AppendBook, e: Event): AppendBook {
    match e
    case LoopStarted => AppendBook(0, 0, None, false)
    case Observed => a.(observations := a.observations + 1)
    case Appended(byLoop, kind) =>
      if byLoop
      then a.(terminals := if kind.TerminalType() then a.terminals + 1 else a.terminals, last := Some(kind))
      else a.(denied := a.denied || kind.ApprovalDenied?)
    case _ => a
  }

  function Note(h: History, e: Event): History {
    History(
      h.length + 1,
      if e.StatusWritten? then e.to else h.status,
      h.cancelled || (e.StatusWritten? && e.to.Cancelled?),
      if e.ExecStarted? && h.cancelled then h.execsAfterCancel + 1 else h.execsAfterCancel,
      NoteGate(h.gates, e),
      NoteHold(h.holds, h.length, e),
      NoteAppend(h.appends, e),
      h.sound && Justified(h, e))
  }

  function Summary(t: seq<Event>): History {
    if t == [] then EMPTY_HISTORY else Note(Summary(t[..|t| - 1]), t[|t| - 1])
  }

  // ---------- the stored state and the helpers of the services ----------

  datatype Db = Db(
    run: RunRow,
    approvals: seq<ApprovalStatus>,
    objects: seq<Signals>,
    hub: Option<nat>,
    trace: seq<Event>,
    past: History)
  {
    predicate Held() { run.status.AwaitingHuman? }
    predicate CancelRequested() { run.status.Cancelled? }
    predicate IsPaused() { run.status.Paused? }
  }

  /** The summary kept in the state is the summary of the trace kept in the state. */
  predicate Faithful(db: Db) {
    db.past == Summary(db.trace) && db.past.length == |db.trace|
  }

  function Log(db: Db, e: Event): (db': Db)
    ensures Faithful(db) ==> Faithful(db')
  {
    assert (db.trace + [e])[..|db.trace|] == db.trace;
    db.(trace := db.trace + [e], past := Note(db.past, e))
  }

  function Append(db: Db, byLoop: bool, kind: AuditKind): Db {
    Log(db, Appended(byLoop, kind))
  }

  function Write(db: Db, writer: Writer, to: RunStatus, finished: bool): Db {
    Log(db.(run := RunRow(to, finished)), StatusWritten(writer, db.run.status, to))
  }

  /** hub.signals_for(run): the registered object, created on first use. */
  function SignalsFor(db: Db): (r: (Db, nat)) {
    match db.hub
    case Some(i) => (db, i)
    case None => (db.(objects := db.objects + [NO_SIGNALS], hub := Some(|db.objects|)), |db.objects|)
  }

  function SetSignals(db: Db, i: nat, s: Signals): Db {
    if i < |db.objects| then db.(objects := db.objects[i := s]) else db
  }

  function SignalsAt(db: Db, i: nat): Signals {
    if i < |db.objects| then db.objects[i] else NO_SIGNALS
  }

  /** The newest row still requested. */
  function PendingApproval(rows: seq<ApprovalStatus>): (r: Option<nat>)
    ensures r.Some? ==> r.value < |rows| && rows[r.value].Requested?
    ensures r.Some? ==> forall i :: r.value < i < |rows| ==> !rows[i].Requested?
    ensures r.None? ==> forall i :: 0 <= i < |rows| ==> !rows[i].Requested?
  {
    if rows == [] then None
    else if rows[|rows| - 1].Requested? then Some(|rows| - 1)
    else PendingApproval(rows[..|rows| - 1])
  }

  // ---------- operator services ----------

  function PauseRun(db: Db): Result<Db> {
    match db.run.status
    case Paused => Ok(db)
    case Running => Ok(Append(Write(db, PauseCall, Paused, db.run.finished), false, RunPaused))
    case _ => Err("cannot pause run")
  }

  function ResumeRun(db: Db): Result<Db> {
    match db.run.status
    case Running => Ok(db)
    case Paused => Ok(Append(Write(db, ResumeCall, Running, db.run.finished), false, RunResumed))
    case _ => Err("cannot resume run")
  }

  function CancelRun(db: Db): Db {
    if db.run.status.Terminal() then db
    else Append(Write(db, CancelCall, Cancelled, true), false, RunCancelled)
  }

  function RetryRun(db: Db): Result<Db> {
    match db.run.status
    case Failed =>
      Ok(Append(Write(db, RetryCall, Queued, false), false, RetryRequested).(hub := None))
    case Running | Paused =>
      var (db1, i) := SignalsFor(Append(db, false, RetryRequested));
      Ok(SetSignals(db1, i, SignalsAt(db1, i).(stepRetryArmed := true)))
    case _ => Err("cannot retry run")
  }

  function TakeControl(db: Db): Result<Db> {
    match db.run.status
    case AwaitingHuman => Ok(db)
    case Running | Paused =>
      Ok(Append(Write(db, TakeCall, AwaitingHuman, db.run.finished), false, TakeoverStarted))
    case _ => Err("cannot take control")
  }

  function ReleaseControl(db: Db): Result<Db> {
    match db.run.status
    case Running => Ok(db)
    case AwaitingHuman =>
      Ok(Append(Write(db, ReleaseCall, Running, db.run.finished), false, TakeoverEnded))
    case _ => Err("cannot release control")
  }

  /** What an approve or reject call commits: row, run status and audit event. */
  function CommitDecision(db: Db, row: nat, granted: bool): Db
    requires row < |db.approvals|
  {
    var db1 := db.(approvals := db.approvals[row := if granted then Granted else Denied]);
    var db2 := Log(db1, if granted then ApprovedRow(row) else RejectedRow(row));
    var db3 :=
      if granted then Write(db2, ApproveCall, Running, db.run.finished)
      else Write(db2, RejectCall, Failed, true);
    Append(db3, false, if granted then ApprovalGranted else ApprovalDenied)
  }

  /** hub.set_approval_decision */
  function DeliverDecision(db: Db, granted: bool): Db {
    var (db1, i) := SignalsFor(db);
    SetSignals(db1, i, SignalsAt(db1, i).(decision := Some(if granted then Grant else Deny)))
  }

  /** Approve or reject: row, run status, audit event and signal in one step. */
  function Decide(db: Db, granted: bool): Result<Db> {
    if !db.run.status.AwaitingApproval? then Err("run is not awaiting approval")
    else match PendingApproval(db.approvals)
      case None => Err("run has no pending approval")
      case Some(row) => Ok(DeliverDecision(CommitDecision(db, row, granted), granted))
  }

  // ---------- services called by the loop and the worker ----------

  function CreatePendingApproval(db: Db, d: Decision): (r: (Db, nat)) {
    var row := |db.approvals|;
    var db1 := Log(db.(approvals := db.approvals + [Requested]), GateOpened(row, d.action, d.observedAt));
    var (db2, i) := SignalsFor(db1);
    (SetSignals(db2, i, SignalsAt(db2, i).(pendingApproval := Some(row))), row)
  }

  function MarkTimedOut(db: Db, row: Option<nat>): Db {
    var target := if row.Some? then row else PendingApproval(db.approvals);
    if target.Some? && target.value < |db.approvals| && db.approvals[target.value].Requested?
    then db.(approvals := db.approvals[target.value := Denied])
    else db
  }

  /** The loop's set_status closure: spares CANCELLED and AWAITING_HUMAN, nothing else. */
  function SetStatus(db: Db, to: RunStatus): Db {
    if db.run.status.Cancelled? || db.run.status.AwaitingHuman? then db
    else Write(db, LoopSetStatus, to, to.Terminal() || db.run.finished)
  }

  function PersistOutcome(db: Db, outcome: RunStatus): Db {
    if db.run.status.Cancelled? && !outcome.Cancelled? then db
    else if db.run.status.Paused? && outcome.Running? then db
    else if db.run.status.AwaitingHuman? && outcome.Running? then db
    else if db.run.status.Failed? && outcome.Failed? && db.run.finished then db
    else Write(db, OutcomePersisted, outcome, outcome.Terminal() || db.run.finished)
  }

  predicate Interrupted(s: RunStatus) {
    s.Running? || s.Paused? || s.AwaitingApproval? || s.AwaitingHuman?
  }

  /** What startup recovery does to a run whose worker was lost. */
  function RecoverRun(db: Db): Db {
    if !Interrupted(db.run.status) then db
    else
      var db1 := Write(db, RecoverCall, Failed, true);
      var db2 := if db.run.status.AwaitingApproval? then MarkTimedOut(db1, None) else db1;
      Append(db2, false, RunFailed)
  }

  /** RunWorker.start_run on the row: refused when terminal, otherwise the run is running. */
  function StartRun(db: Db): Result<Db> {
    if db.run.status.Terminal() then Err("run is already terminal")
    else if db.run.status.Running? then Ok(db)
    else Ok(Write(db, StartCall, Running, db.run.finished))
  }
}
