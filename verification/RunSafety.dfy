/** Safety of the run-control protocol over every interleaving of the loop with operator
    calls, worker starts and restarts: statements about the traces of all runs. */
module RunSafety {
  import opened Basics
  import opened RunModel
  import opened RunSteps
  import opened RunInvariant
  import opened RunTrace

  // ---------- reachable states ----------

  /** A step only adds to the trace: the summary stays the summary of the trace, and a
      cancel once recorded stays recorded. */
  predicate Extends(db: Db, db': Db) {
    (db.past.cancelled ==> db'.past.cancelled) && (Faithful(db) ==> Faithful(db'))
  }

  lemma TaskStartExtends(w: World, o: Outside)
    requires w.pc.Idle? || w.pc.Spawned? || w.pc.LoopHead?
    ensures Extends(w.db, LoopStep(w, o).db) && LoopStep(w, o).config == w.config
  {
    hide NoteHold, NoteAppend, Justified;
  }

  lemma GatePollExtends(w: World, o: Outside)
    requires w.pc.GateFirstCancel? || w.pc.GateTakeover? || w.pc.GateHumanCancel? || w.pc.GateHumanHeld?
    ensures Extends(w.db, LoopStep(w, o).db) && LoopStep(w, o).config == w.config
  {
    hide NoteHold, NoteAppend, Justified;
  }

  lemma GateExitExtends(w: World, o: Outside)
    requires w.pc.GatePauseCancel? || w.pc.GatePauseHeld? || w.pc.GateLastCancel?
    ensures Extends(w.db, LoopStep(w, o).db) && LoopStep(w, o).config == w.config
  {
    hide NoteHold, NoteAppend, Justified;
  }

  lemma ObserveExtends(w: World, o: Outside)
    requires w.pc.Observing? || w.pc.Deciding?
    ensures Extends(w.db, LoopStep(w, o).db) && LoopStep(w, o).config == w.config
  {
    hide NoteHold, NoteAppend, Justified;
  }

  lemma OpenGateExtends(w: World, o: Outside)
    requires w.pc.OpeningGate?
    ensures Extends(w.db, LoopStep(w, o).db) && LoopStep(w, o).config == w.config
  {
    hide NoteHold, NoteAppend, Justified;
  }

  lemma WaitExtends(w: World, o: Outside)
    requires w.pc.SettingAwaiting? || w.pc.ApprovalCancel? || w.pc.ApprovalTake? || w.pc.ApprovalDeadline?
    ensures Extends(w.db, LoopStep(w, o).db) && LoopStep(w, o).config == w.config
  {
    hide NoteHold, NoteAppend, Justified;
  }

  lemma VerdictExtends(w: World, o: Outside)
    requires w.pc.FinalizingTimeout? || w.pc.SettingFailed? || w.pc.SettingRunning?
    ensures Extends(w.db, LoopStep(w, o).db) && LoopStep(w, o).config == w.config
  {
    hide NoteHold, NoteAppend, Justified;
  }

  lemma ReadExtends(w: World, o: Outside)
    requires w.pc.Reading?
    ensures Extends(w.db, LoopStep(w, o).db) && LoopStep(w, o).config == w.config
  {
    hide NoteHold, NoteAppend, Justified;
  }

  lemma ModelExtends(w: World, o: Outside)
    requires w.pc.Modelling?
    ensures Extends(w.db, LoopStep(w, o).db) && LoopStep(w, o).config == w.config
  {
    hide NoteHold, NoteAppend, Justified;
  }

  lemma RecordExtends(w: World, o: Outside)
    requires w.pc.Recording?
    ensures Extends(w.db, LoopStep(w, o).db) && LoopStep(w, o).config == w.config
  {
    hide NoteHold, NoteAppend, Justified;
  }

  lemma RequestExtends(w: World, o: Outside)
    requires w.pc.Requesting?
    ensures Extends(w.db, LoopStep(w, o).db) && LoopStep(w, o).config == w.config
  {
    hide NoteHold, NoteAppend, Justified;
  }

  lemma ExecuteExtends(w: World, o: Outside)
    requires w.pc.GuardPoll? || w.pc.Executing?
    ensures Extends(w.db, LoopStep(w, o).db) && LoopStep(w, o).config == w.config
  {
    hide NoteHold, NoteAppend, Justified;
  }

  lemma FinishExtends(w: World, o: Outside)
    requires w.pc.Finishing?
    ensures Extends(w.db, LoopStep(w, o).db) && LoopStep(w, o).config == w.config
  {
    hide NoteHold, NoteAppend, Justified;
  }

  lemma FailExtends(w: World, o: Outside)
    requires w.pc.Failing?
    ensures Extends(w.db, LoopStep(w, o).db) && LoopStep(w, o).config == w.config
  {
    hide NoteHold, NoteAppend, Justified;
  }

  lemma LeaveExtends(w: World, o: Outside)
    requires w.pc.Returned? || w.pc.Discarding?
    ensures Extends(w.db, LoopStep(w, o).db) && LoopStep(w, o).config == w.config
  {
    hide NoteHold, NoteAppend, Justified;
  }

  lemma LoopStepExtends(w: World, o: Outside)
    ensures Extends(w.db, LoopStep(w, o).db) && LoopStep(w, o).config == w.config
  {
    hide Extends, LoopStep;
    match w.pc
    case Idle => TaskStartExtends(w, o);
    case Spawned => TaskStartExtends(w, o);
    case LoopHead => TaskStartExtends(w, o);
    case GateFirstCancel => GatePollExtends(w, o);
    case GateTakeover => GatePollExtends(w, o);
    case GateHumanCancel => GatePollExtends(w, o);
    case GateHumanHeld => GatePollExtends(w, o);
    case GatePauseCancel => GateExitExtends(w, o);
    case GatePauseHeld => GateExitExtends(w, o);
    case GateLastCancel => GateExitExtends(w, o);
    case Observing => ObserveExtends(w, o);
    case Deciding => ObserveExtends(w, o);
    case OpeningGate => OpenGateExtends(w, o);
    case SettingAwaiting => WaitExtends(w, o);
    case ApprovalCancel => WaitExtends(w, o);
    case ApprovalTake => WaitExtends(w, o);
    case ApprovalDeadline => WaitExtends(w, o);
    case FinalizingTimeout => VerdictExtends(w, o);
    case SettingFailed => VerdictExtends(w, o);
    case SettingRunning => VerdictExtends(w, o);
    case Reading => ReadExtends(w, o);
    case Modelling => ModelExtends(w, o);
    case Recording => RecordExtends(w, o);
    case Requesting => RequestExtends(w, o);
    case GuardPoll => ExecuteExtends(w, o);
    case Executing => ExecuteExtends(w, o);
    case Finishing => FinishExtends(w, o);
    case Failing => FailExtends(w, o);
    case Returned => LeaveExtends(w, o);
    case Discarding => LeaveExtends(w, o);
  }

  lemma DecideExtends(db: Db, granted: bool)
    ensures RunModel.Decide(db, granted).Ok? ==> Extends(db, RunModel.Decide(db, granted).value)
  {
    hide NoteHold, NoteAppend, Justified;
  }

  lemma RecoverExtends(db: Db)
    ensures Extends(db, RecoverRun(db.(hub := None)))
  {
    hide NoteHold, NoteAppend, Justified;
  }

  lemma ControlExtends(db: Db, call: Call)
    requires call.TakeControl? || call.ReleaseControl? || call.Start? || call.Retry?
    ensures Serve(db, call).Ok? ==> Extends(db, Serve(db, call).value)
  {
    hide NoteHold, NoteAppend, Justified;
  }

  lemma PauseExtends(db: Db, call: Call)
    requires call.Pause? || call.Resume? || call.Cancel?
    ensures Serve(db, call).Ok? ==> Extends(db, Serve(db, call).value)
  {
    hide NoteHold, NoteAppend, Justified;
  }

  lemma ServeExtends(db: Db, call: Call)
    ensures Serve(db, call).Ok? ==> Extends(db, Serve(db, call).value)
  {
    if call.Approve? || call.Reject? {
      DecideExtends(db, call.Approve?);
    } else if call.Restart? {
      RecoverExtends(db);
    } else if call.Pause? || call.Resume? || call.Cancel? {
      PauseExtends(db, call);
    } else {
      ControlExtends(db, call);
    }
  }

  lemma StepExtends(w: World, l: Label)
    ensures Extends(w.db, Step(w, l).db) && Step(w, l).config == w.config
  {
    match l
    case OfLoop(o) => LoopStepExtends(w, o);
    case OfOperator(call) => ServeExtends(w.db, call);
  }

  ghost predicate Reached(w: World) {
    Inv(w) && Faithful(w.db)
  }

  /** Every state of every history that starts with a created run. */
  lemma {:induction false} EveryStateIsSafe(config: Config, labels: seq<Label>)
    ensures Reached(Run(Created(config), labels))
  {
    if labels != [] {
      var before := labels[..|labels| - 1];
      EveryStateIsSafe(config, before);
      StepKeeps(Run(Created(config), before), labels[|labels| - 1]);
    }
  }

  lemma StepKeeps(w: World, l: Label)
    requires Reached(w)
    ensures Reached(Step(w, l))
  {
    StepExtends(w, l);
    match l
    case OfLoop(o) => LoopStepKeeps(w, o);
    case OfOperator(call) => OperateKeeps(w, call);
  }

  // ---------- approval ----------

  /** Every execute of an action that needs approval has its own gate and its own earlier
      approve call on the row that gate created; no row authorises twice, is approved twice,
      or authorises although it was rejected; and nothing is executed by a loop that has
      already recorded a timeout, a cancel or another end of its own. */
  ghost predicate ExecutesWereApproved(t: seq<Event>) {
    && (forall i :: 0 <= i < |t| && t[i].ExecStarted? && t[i].decision.action.gated ==>
          exists k: nat, j: nat :: AuthorisedBy(t, k, j, i))
    && (forall i, i' :: 0 <= i < i' < |t| && t[i].ExecStarted? && t[i'].ExecStarted? ==>
          (t[i].decision.approval.Some? ==> t[i].decision.approval != t[i'].decision.approval))
    && (forall j, j' :: 0 <= j < j' < |t| && t[j].ApprovedRow? ==> t[j] != t[j'])
    && (forall i, j :: 0 <= i < |t| && 0 <= j < |t| && t[i].ExecStarted? && t[i].decision.approval.Some? ==>
          t[j] != RejectedRow(t[i].decision.approval.value))
    && (forall i :: 0 <= i < |t| && t[i].ExecStarted? ==> RunTrace.Quiet(OwnAppends(SinceStart(t[..i]))))
  }

  lemma GatedExecutesWereApproved(config: Config, labels: seq<Label>)
    ensures ExecutesWereApproved(Run(Created(config), labels).db.trace)
  {
    EveryStateIsSafe(config, labels);
    SoundExecutesWereApproved(Run(Created(config), labels).db.trace);
  }

  lemma SoundExecutesWereApproved(t: seq<Event>)
    requires Summary(t).sound
    ensures ExecutesWereApproved(t)
  {
    hide AuthorisedBy, Quiet, Note;
    forall i | 0 <= i < |t| && t[i].ExecStarted?
      ensures t[i].decision.action.gated ==> exists k: nat, j: nat :: AuthorisedBy(t, k, j, i)
      ensures RunTrace.Quiet(OwnAppends(SinceStart(t[..i])))
    {
      if t[i].decision.action.gated { var k, j := GatedExecuteWasApproved(t, i); }
      ExecutesBeforeAnyEnd(t, i);
    }
    forall i, i' | 0 <= i < i' < |t|
      ensures t[i].ExecStarted? && t[i'].ExecStarted? && t[i].decision.approval.Some?
              ==> t[i].decision.approval != t[i'].decision.approval
      ensures t[i].ApprovedRow? ==> t[i] != t[i']
    {
      RowsAuthoriseOnce(t, i, i');
    }
    forall i, j | 0 <= i < |t| && 0 <= j < |t| && t[i].ExecStarted? && t[i].decision.approval.Some?
      ensures t[j] != RejectedRow(t[i].decision.approval.value)
    {
      RejectedRowsAuthoriseNothing(t, i, j);
    }
  }

  // ---------- cancel ----------

  /** Once cancelled, always cancelled, whatever the loop, the worker and the operators do. */
  lemma {:induction false} CancelIsForever(config: Config, labels: seq<Label>, more: seq<Label>)
    requires Run(Created(config), labels).db.run.status.Cancelled?
    ensures Run(Created(config), labels + more).db.run.status.Cancelled?
  {
    hide Step, Inv, Faithful;
    if more == [] {
      assert labels + more == labels;
    } else {
      var before, l := more[..|more| - 1], more[|more| - 1];
      CancelIsForever(config, labels, before);
      EveryStateIsSafe(config, labels + before);
      assert (labels + more)[..|labels + more| - 1] == labels + before;
      StepKeepsCancelled(Run(Created(config), labels + before), l);
    }
  }

  lemma StepKeepsCancelled(w: World, l: Label)
    requires Reached(w) && w.db.run.status.Cancelled?
    ensures Step(w, l).db.run.status.Cancelled?
  {
    StepKeeps(w, l);
    StepExtends(w, l);
  }

  /** A cancel call at any point of any history: a run that is not over is cancelled and
      finished, with the two entries of the call; one that is over is left as it is. */
  lemma CancelTakesEffect(config: Config, labels: seq<Label>)
    ensures
      var before, after := Run(Created(config), labels).db, Run(Created(config), labels + [OfOperator(Cancel)]).db;
      if before.run.status in {Succeeded, Failed, Cancelled} then after == before
      else
        && after.run == RunRow(Cancelled, true)
        && after.trace == before.trace
           + [StatusWritten(CancelCall, before.run.status, Cancelled), Appended(false, AuditKind.RunCancelled)]
        && after.approvals == before.approvals && after.objects == before.objects && after.hub == before.hub
  {
    assert (labels + [OfOperator(Cancel)])[..|labels|] == labels;
    hide Note;
  }

  /** After a cancel in a trace every status written is cancelled again, and at most one
      further execute starts. */
  ghost predicate CancelRespected(t: seq<Event>) {
    forall c :: 0 <= c < |t| && t[c].StatusWritten? && t[c].to.Cancelled? ==>
      && Executes(t[c + 1..]) <= 1
      && forall j :: c < j < |t| && t[j].StatusWritten? ==> t[j].to.Cancelled?
  }

  lemma AtMostOneExecuteAfterCancel(config: Config, labels: seq<Label>)
    ensures CancelRespected(Run(Created(config), labels).db.trace)
  {
    hide Run, Created, CancelRespected;
    EveryStateIsSafe(config, labels);
    CancelsAreRespected(Run(Created(config), labels));
  }

  lemma CancelsAreRespected(w: World)
    requires Reached(w)
    ensures CancelRespected(w.db.trace)
  {
    hide Executes, BookInv, FreshInv, AppendInv, BudgetInv, CancelInv;
    var t := w.db.trace;
    forall c | 0 <= c < |t| && t[c].StatusWritten? && t[c].to.Cancelled?
      ensures Executes(t[c + 1..]) <= 1
      ensures forall j :: c < j < |t| && t[j].StatusWritten? ==> t[j].to.Cancelled?
    {
      CancelLimitsExecutes(w, c);
      forall j | c < j < |t| && t[j].StatusWritten? ensures t[j].to.Cancelled? {
        WritesAfterCancel(t, c, j);
      }
    }
  }

  lemma CancelLimitsExecutes(w: World, c: nat)
    requires Reached(w) && c < |w.db.trace| && w.db.trace[c].StatusWritten? && w.db.trace[c].to.Cancelled?
    ensures Executes(w.db.trace[c + 1..]) <= 1
  {
    hide BookInv, FreshInv, AppendInv, BudgetInv;
    var t := w.db.trace;
    var upTo, rest := t[..c + 1], t[c + 1..];
    assert upTo[..|upTo| - 1] == t[..c];
    assert t == upTo + rest;
    ExecutesAfterCancel(upTo, rest);
  }

  // ---------- run status ----------

  /** A terminal status is left only by retrying a failed run. */
  ghost predicate TerminalStatusesStay(t: seq<Event>) {
    forall i :: 0 <= i < |t| && t[i].StatusWritten? && t[i].from.Terminal() && t[i].to != t[i].from ==>
      t[i].from.Failed? && t[i].writer == RetryCall
  }

  lemma FinishedExactlyWhenTerminal(config: Config, labels: seq<Label>)
    ensures var db := Run(Created(config), labels).db;
            && (db.run.finished <==> db.run.status.Terminal())
            && TerminalStatusesStay(db.trace)
  {
    EveryStateIsSafe(config, labels);
    SoundTerminalStatusesStay(Run(Created(config), labels).db.trace);
  }

  lemma SoundTerminalStatusesStay(t: seq<Event>)
    requires Summary(t).sound
    ensures TerminalStatusesStay(t)
  {
    forall i | 0 <= i < |t| && t[i].StatusWritten? && t[i].from.Terminal() && t[i].to != t[i].from
      ensures t[i].from.Failed? && t[i].writer == RetryCall
    {
      SummaryOfPrefix(t, i);
    }
  }

  // ---------- takeover ----------

  /** A hold that a gate's takeover poll has seen is released, and the page observed anew,
      before anything is executed; and the inner port receives an execute only after its
      guard has polled and found no hold. */
  ghost predicate TakeoverRespected(t: seq<Event>) {
    && (forall i, j :: 0 <= i < j < |t| && t[i].HoldSeen? && t[j].ExecStarted? ==>
          exists r: nat :: ReobservedAfterRelease(t, i, r, j))
    && (forall j :: 0 <= j < |t| && t[j].ExecStarted? ==> exists g: nat :: GuardedAt(t, g, j))
  }

  /** The guard's last answer before the execute at `j` was given at `g`, and was "not held". */
  predicate GuardedAt(t: seq<Event>, g: nat, j: nat) {
    g < j < |t| && t[g].GuardPassed? && forall k :: g < k < j ==> !t[k].ExecStarted? && !t[k].ExecRefused?
  }

  lemma HoldsAreRespected(config: Config, labels: seq<Label>)
    ensures TakeoverRespected(Run(Created(config), labels).db.trace)
  {
    EveryStateIsSafe(config, labels);
    SoundHoldsAreRespected(Run(Created(config), labels).db.trace);
  }

  lemma SoundHoldsAreRespected(t: seq<Event>)
    requires Summary(t).sound
    ensures TakeoverRespected(t)
  {
    forall i, j | 0 <= i < j < |t| && t[i].HoldSeen? && t[j].ExecStarted?
      ensures exists r: nat :: ReobservedAfterRelease(t, i, r, j)
    {
      var r := HoldThenExecuteReobserves(t, i, j);
    }
    forall j | 0 <= j < |t| && t[j].ExecStarted?
      ensures exists g: nat :: GuardedAt(t, g, j)
    {
      SummaryOfPrefix(t, j);
      var g := GuardRecorded(t[..j]);
      forall k | g < k < j ensures !t[k].ExecStarted? && !t[k].ExecRefused? {
        assert t[k] == t[..j][k];
      }
      assert GuardedAt(t, g, j);
    }
  }

  // ---------- one run of the loop ----------

  /** The loop closed its part of the audit log: exactly one terminal kind, as its last own
      append, fitting the outcome it returned. */
  predicate ClosedLog(own: seq<AuditKind>, outcome: RunStatus) {
    own != [] && RunTrace.Quiet(own[..|own| - 1]) && Closes(own[|own| - 1], outcome)
  }

  /** The loop returned failed because a human denied its newest approval row: it left the
      terminal entry to the service that denied the row. */
  predicate ClosedByDenial(db: Db, outcome: RunStatus) {
    && outcome.Failed?
    && RunTrace.Quiet(OwnAppends(SinceStart(db.trace)))
    && Appended(false, ApprovalDenied) in SinceStart(db.trace)
    && |db.approvals| > 0 && RejectedRow(|db.approvals| - 1) in db.trace
  }

  /** What the stored state shows of a loop that has returned `outcome`. */
  predicate Closed(db: Db, maxSteps: nat, outcome: RunStatus) {
    && Observations(SinceStart(db.trace)) <= maxSteps
    && (ClosedLog(OwnAppends(SinceStart(db.trace)), outcome) || ClosedByDenial(db, outcome))
  }

  /** Whenever the loop has returned: at most max_steps observations since it started, and
      a closed audit log, by the loop itself or by the denial of its newest approval row. */
  lemma LoopEndsWithOneTerminalEvent(config: Config, labels: seq<Label>)
    ensures var w := Run(Created(config), labels);
            w.pc.Returned? ==> Closed(w.db, config.maxSteps, w.outcome)
  {
    EveryStateIsSafe(config, labels);
    ConfigFixed(config, labels);
    ReturnedLoopIsClosed(Run(Created(config), labels));
  }

  lemma ReturnedLoopIsClosed(w: World)
    requires Reached(w)
    ensures w.pc.Returned? ==> Closed(w.db, w.config.maxSteps, w.outcome)
  {
    hide BookInv, FreshInv, CancelInv;
    AppendsRecorded(w.db.trace);
    DenialRecorded(w.db.trace);
    if NewestRejected(w.db) { RejectionOf(w.db.trace, |w.db.approvals| - 1); }
  }

  lemma {:induction false} ConfigFixed(config: Config, labels: seq<Label>)
    ensures Run(Created(config), labels).config == config
  {
    if labels != [] {
      var before := labels[..|labels| - 1];
      ConfigFixed(config, before);
      StepExtends(Run(Created(config), before), labels[|labels| - 1]);
    }
  }

  // ---------- all of it ----------

  /** What every reachable trace obeys. */
  ghost predicate TraceIsSafe(t: seq<Event>) {
    ExecutesWereApproved(t) && CancelRespected(t) && TakeoverRespected(t) && TerminalStatusesStay(t)
  }

  lemma ReachedIsSafe(w: World)
    requires Reached(w)
    ensures TraceIsSafe(w.db.trace)
  {
    hide Inv, ExecutesWereApproved, CancelRespected, TakeoverRespected, TerminalStatusesStay;
    InvIsSound(w);
    SoundExecutesWereApproved(w.db.trace);
    CancelsAreRespected(w);
    SoundHoldsAreRespected(w.db.trace);
    SoundTerminalStatusesStay(w.db.trace);
  }

  lemma InvIsSound(w: World)
    requires Reached(w)
    ensures Summary(w.db.trace).sound
  {
  }
}
