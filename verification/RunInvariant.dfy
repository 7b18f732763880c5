/** The inductive invariant of the run-control step system, and the proof that every
    step of the loop and every operator call keeps it. */
module RunInvariant {
  import opened Basics
  import opened RunModel
  import opened RunSteps

  // ---------- regions of the program counter ----------

  predicate Working(s: RunStatus) {
    s.Running? || s.Paused? || s.AwaitingHuman? || s.Cancelled?
  }

  predicate InGate(pc: Pc) {
    pc.GateFirstCancel? || pc.GateTakeover? || pc.GateHumanCancel? || pc.GateHumanHeld?
    || pc.GatePauseCancel? || pc.GatePauseHeld? || pc.GateLastCancel?
  }

  predicate Waiting(pc: Pc) {
    pc.ApprovalCancel? || pc.ApprovalTake? || pc.ApprovalDeadline?
  }

  /** The loop is past its approval wait and about to return. */
  predicate Leaving(pc: Pc) {
    pc.FinalizingTimeout? || pc.SettingFailed? || pc.Returned? || pc.Discarding?
  }

  /** The loop holds its signals object and is neither waiting for approval nor leaving. */
  predicate Bound(pc: Pc) {
    !pc.Idle? && !pc.Spawned? && !Waiting(pc) && !Leaving(pc)
  }

  /** The approval gate of w.d, if it needed one, has been passed. */
  predicate Cleared(w: World) {
    w.pc.SettingRunning? || w.pc.Reading? || w.pc.Modelling? || w.pc.Recording?
    || PastLastCancelPoll(w.pc)
    || (InGate(w.pc) && (w.where.BeforeExecute? || w.where.BeforeModel? || w.where.AfterModel?))
  }

  predicate GateOpen(pc: Pc) {
    pc.SettingAwaiting? || Waiting(pc)
  }

  /** The loop still means to act on the observation at w.d.observedAt. */
  predicate Acting(w: World) {
    w.pc.Deciding? || w.pc.OpeningGate? || GateOpen(w.pc) || Cleared(w)
    || (InGate(w.pc) && w.where.BeforeDecide?)
  }

  predicate WaitingForHuman(w: World) {
    w.waited && (w.pc.GateHumanCancel? || w.pc.GateHumanHeld?)
  }

  predicate PastLastCancelPoll(pc: Pc) {
    pc.Requesting? || pc.GuardPoll? || pc.Executing?
  }

  // ---------- the invariant, by concern ----------

  predicate StatusAt(w: World) {
    var s := w.db.run.status;
    if w.pc.Idle? || w.pc.Discarding? then s.Queued? || s.Terminal()
    else if w.pc.FinalizingTimeout? || w.pc.SettingFailed? then !s.Succeeded?
    else if w.pc.Returned? then
      && w.outcome.Terminal()
      && !s.Succeeded?
      && (w.outcome.Cancelled? ==> s.Cancelled?)
      && (w.outcome.Succeeded? ==> Working(s))
    else if Waiting(w.pc) then
      var verdict := SignalsAt(w.db, w.signals).decision;
      && !s.Succeeded?
      && (s.AwaitingApproval? ==> verdict.None?)
      && (s.Failed? || s.Queued? ==> NewestRejected(w.db))
    else Working(s)
  }

  predicate StatusInv(w: World) {
    && w.db.past.status == w.db.run.status
    && (w.db.run.finished <==> w.db.run.status.Terminal())
    && (w.db.past.cancelled <==> w.db.run.status.Cancelled?)
    && StatusAt(w)
  }

  predicate SignalInv(w: World) {
    && (w.db.hub.Some? ==> w.db.hub.value < |w.db.objects|)
    && (w.pc.Idle? && w.db.hub.Some? && !w.db.run.status.Terminal() ==> w.db.objects[w.db.hub.value].decision.None?)
    && (w.pc.Spawned? && w.db.hub.Some? ==> w.db.objects[w.db.hub.value].decision.None?)
    && (Bound(w.pc) ==> w.db.hub == Some(w.signals) && w.db.objects[w.signals].decision.None?)
    && (Waiting(w.pc) ==> w.signals < |w.db.objects|)
    && (Waiting(w.pc) && !NewestRejected(w.db) ==> w.db.hub == Some(w.signals))
  }

  /** `d` was gated, and its gate's row is the newest one and has authorised nothing yet. */
  predicate OwnsNewestRow(rows: nat, g: GateBook, d: Decision) {
    && d.approval.Some?
    && d.approval.value == rows - 1
    && d.approval.value in g.opening
    && g.opening[d.approval.value] == (d.action, d.observedAt)
    && d.approval.value !in g.executed
  }

  /** The rows and what the trace says about them. */
  ghost predicate RowsInv(rows: seq<ApprovalStatus>, g: GateBook) {
    && (forall r: nat :: r in g.opening <==> r < |rows|)
    && (forall r :: r in g.approved ==> r < |rows| && rows[r].Granted?)
    && (forall r :: r in g.rejected ==> r < |rows| && rows[r].Denied?)
    && (forall r :: r in g.executed ==> r < |rows|)
  }

  /** While the loop waits: its row is open until a verdict arrives in its own signals. */
  predicate WaitInv(rows: seq<ApprovalStatus>, g: GateBook, s: RunStatus, verdict: Option<Verdict>) {
    && |rows| > 0
    && (s.AwaitingApproval? ==> rows[|rows| - 1].Requested?)
    && (verdict == Some(Grant) ==> |rows| - 1 in g.approved)
    && (verdict == Some(Deny) ==> |rows| - 1 in g.rejected)
  }

  predicate ClearedInv(rows: nat, g: GateBook, d: Decision) {
    && (d.action.gated ==> d.approval.Some?)
    && (d.approval.Some? ==> OwnsNewestRow(rows, g, d) && d.approval.value in g.approved)
  }

  predicate VerdictInv(w: World) {
    && (GateOpen(w.pc) ==> OwnsNewestRow(|w.db.approvals|, w.db.past.gates, w.d))
    && (w.pc.SettingAwaiting? ==> |w.db.approvals| > 0 && w.db.approvals[|w.db.approvals| - 1].Requested?)
    && (Waiting(w.pc) ==>
          WaitInv(w.db.approvals, w.db.past.gates, w.db.run.status, SignalsAt(w.db, w.signals).decision))
    && (Cleared(w) ==> ClearedInv(|w.db.approvals|, w.db.past.gates, w.d))
    && (w.pc.OpeningGate? ==> w.d.approval.None?)
  }

  predicate FreshInv(w: World) {
    var k := w.db.past.holds;
    && (w.pc.Executing? ==> k.guardClear)
    && w.db.past.length == |w.db.trace|
    && k.seenAt < w.db.past.length
    && k.observedAt < w.db.past.length
    && (k.Settled() || (w.db.Held() && WaitingForHuman(w)))
    && (InGate(w.pc) && w.where.MidStep() && w.waited ==> WaitingForHuman(w))
    && (Acting(w) ==>
          && k.observedAt == w.d.observedAt
          && k.settledThen
          && (k.seenAt < k.observedAt || WaitingForHuman(w)))
  }

  predicate CancelInv(w: World) {
    var h := w.db.past;
    && h.execsAfterCancel <= 1
    && (!h.cancelled ==> h.execsAfterCancel == 0)
    && (PastLastCancelPoll(w.pc) ==> h.execsAfterCancel == 0)
  }

  /** The terminal audit kinds the loop may close a given outcome with. */
  predicate Closes(k: AuditKind, outcome: RunStatus) {
    match outcome
    case Succeeded => k.RunSucceeded?
    case Cancelled => k.RunCancelled?
    case Failed => k.RunFailed? || k.ApprovalTimeout?
    case _ => false
  }

  /** Since the loop started it appended one terminal kind, as its last event, and that
      kind fits `outcome`. */
  predicate ClosedBy(a: AppendBook, outcome: RunStatus) {
    a.terminals == 1 && a.last.Some? && Closes(a.last.value, outcome)
  }

  predicate NewestRejected(db: Db) {
    |db.approvals| > 0 && |db.approvals| - 1 in db.past.gates.rejected
  }

  predicate AppendInv(w: World) {
    var a := w.db.past.appends;
    if w.pc.Idle? || w.pc.Spawned? || w.pc.Discarding? then true
    else if w.pc.SettingFailed? then ClosedBy(a, Failed)
    else if w.pc.Returned? then
      ClosedBy(a, w.outcome) || (w.outcome.Failed? && a.terminals == 0 && a.denied && NewestRejected(w.db))
    else
      && a.terminals == 0
      && (Waiting(w.pc) && NewestRejected(w.db) ==> a.denied)
  }

  predicate BudgetInv(w: World) {
    var seen := w.db.past.appends.observations;
    if w.pc.Idle? || w.pc.Discarding? then true
    else if w.pc.Spawned? then w.steps == 0
    else
      && w.steps <= w.config.maxSteps
      && seen <= w.steps
      && (w.pc.Observing? || (InGate(w.pc) && w.where.BeforeObserve?) ==> seen < w.steps)
      && (InGate(w.pc) && w.where.BetweenSteps? ==> w.steps < w.config.maxSteps)
  }

  ghost predicate BookInv(w: World) {
    && StatusInv(w)
    && SignalInv(w)
    && RowsInv(w.db.approvals, w.db.past.gates)
    && VerdictInv(w)
  }

  predicate FlowInv(w: World) {
    && FreshInv(w)
    && CancelInv(w)
    && AppendInv(w)
    && BudgetInv(w)
    && w.db.past.sound
  }

  ghost predicate Inv(w: World) {
    BookInv(w) && FlowInv(w)
  }

  // ---------- small moves ----------

  lemma OwnKeeps(w: World, kind: AuditKind)
    requires Inv(w) && Bound(w.pc) && !kind.TerminalType()
    ensures Inv(Own(w, kind))
  {
  }

  lemma FinishKeeps(w: World, kind: AuditKind, outcome: RunStatus)
    requires Inv(w) && (Bound(w.pc) || w.pc.FinalizingTimeout?)
    requires kind.TerminalType() && Closes(kind, outcome)
    requires outcome.Succeeded? ==> Working(w.db.run.status)
    requires outcome.Cancelled? ==> w.db.run.status.Cancelled?
    requires WaitingForHuman(w) ==> !w.db.Held()
    ensures Inv(Finish(w, kind, outcome))
  {
  }

  lemma ToHeadKeeps(w: World)
    requires Inv(w) && Bound(w.pc) && !WaitingForHuman(w)
    ensures Inv(At(w, LoopHead))
  {
  }

  /** What a gate relies on when the loop enters it. */
  predicate MayEnter(w: World, where: Where) {
    && Bound(w.pc)
    && !WaitingForHuman(w)
    && (where.BetweenSteps? ==> w.steps < w.config.maxSteps)
    && (where.BeforeObserve? ==> w.db.past.appends.observations < w.steps)
    && (where.MidStep() ==> FreshlyObserved(w.db.past.holds, w.d.observedAt))
    && (where.MidStep() && !where.BeforeDecide? ==>
          ClearedInv(|w.db.approvals|, w.db.past.gates, w.d))
  }

  lemma EnterGateKeeps(w: World, where: Where)
    requires Inv(w) && MayEnter(w, where)
    ensures Inv(EnterGate(w, where))
  {
  }

  // ---------- every step of the loop keeps it ----------

  lemma SpawnedStepKeeps(w: World, o: Outside)
    requires Inv(w) && w.pc.Spawned?
    ensures Inv(SpawnedStep(w, o))
  {
    if o.raises {
      RaiseAtStartKeeps(w);
    } else {
      BindKeeps(w);
      var (db, i) := SignalsFor(w.db);
      OwnKeeps(At(w.(db := Log(db, LoopStarted), signals := i), LoopHead), RunStarted);
    }
  }

  lemma RaiseAtStartKeeps(w: World)
    requires Inv(w) && w.pc.Spawned?
    ensures Inv(Raise(w.(db := Log(w.db, LoopStarted))))
  {
    StartedKeeps(w);
    FinishKeeps(At(w.(db := Log(w.db, LoopStarted)), FinalizingTimeout), RunFailed, Failed);
  }

  lemma StartedKeeps(w: World)
    requires Inv(w) && w.pc.Spawned?
    ensures Inv(At(w.(db := Log(w.db, LoopStarted)), FinalizingTimeout))
  {
  }

  lemma BindKeeps(w: World)
    requires Inv(w) && w.pc.Spawned?
    ensures var (db, i) := SignalsFor(w.db);
            Inv(At(w.(db := Log(db, LoopStarted), signals := i), LoopHead))
  {
    BindKeepsBooks(w);
    BindKeepsFlow(w);
    hide BookInv, FlowInv;
  }

  lemma BindKeepsBooks(w: World)
    requires BookInv(w) && w.pc.Spawned?
    ensures var (db, i) := SignalsFor(w.db);
            BookInv(At(w.(db := Log(db, LoopStarted), signals := i), LoopHead))
  {
  }

  lemma BindKeepsFlow(w: World)
    requires Inv(w) && w.pc.Spawned?
    ensures var (db, i) := SignalsFor(w.db);
            FlowInv(At(w.(db := Log(db, LoopStarted), signals := i), LoopHead))
  {
    hide RowsInv, VerdictInv, SignalInv;
  }

  lemma HeadStepKeeps(w: World)
    requires Inv(w) && w.pc.LoopHead?
    ensures Inv(HeadStep(w))
  {
    if w.steps < w.config.maxSteps { EnterGateKeeps(w, BetweenSteps); }
    else { FinishKeeps(w, RunFailed, Failed); }
  }

  /** A cancel poll of a gate that finds nothing moves on to the poll after it. */
  lemma NextPollKeeps(w: World)
    requires Inv(w)
    ensures w.pc.GateFirstCancel? ==> Inv(At(w, GateTakeover))
    ensures w.pc.GateHumanCancel? ==> Inv(At(w, GateHumanHeld))
    ensures w.pc.GatePauseCancel? ==> Inv(At(w, GatePauseHeld))
  {
    hide Inv;
    if w.pc.GateFirstCancel? { AfterFirstPollKeeps(w); }
    if w.pc.GateHumanCancel? || w.pc.GatePauseCancel? { AfterWaitPollKeeps(w); }
  }

  lemma AfterFirstPollKeeps(w: World)
    requires Inv(w) && w.pc.GateFirstCancel?
    ensures Inv(At(w, GateTakeover))
  {
  }

  lemma AfterWaitPollKeeps(w: World)
    requires Inv(w)
    ensures w.pc.GateHumanCancel? ==> Inv(At(w, GateHumanHeld))
    ensures w.pc.GatePauseCancel? ==> Inv(At(w, GatePauseHeld))
  {
  }

  lemma CancelPollKeeps(w: World, next: Pc)
    requires Inv(w) && Bound(w.pc)
    requires !w.db.CancelRequested() ==> Inv(At(w, next))
    ensures Inv(CancelPoll(w, next))
  {
    if w.db.CancelRequested() { FinishKeeps(w, AuditKind.RunCancelled, Cancelled); }
  }

  lemma TakeoverPollKeeps(w: World)
    requires Inv(w) && w.pc.GateTakeover?
    ensures Inv(TakeoverPoll(w))
  {
    TakeoverPollKeepsBooks(w);
    TakeoverPollKeepsFlow(w);
    hide BookInv, FlowInv;
  }

  lemma TakeoverPollKeepsBooks(w: World)
    requires BookInv(w) && w.pc.GateTakeover?
    ensures BookInv(TakeoverPoll(w))
  {
  }

  lemma TakeoverPollKeepsFlow(w: World)
    requires Inv(w) && w.pc.GateTakeover?
    ensures FlowInv(TakeoverPoll(w))
  {
  }

  lemma HeldPollKeeps(w: World)
    requires Inv(w) && w.pc.GateHumanHeld?
    ensures Inv(HeldPoll(w))
  {
    if w.db.Held() { StillHeldKeeps(w); }
    else if w.waited && w.where.MidStep() { DiscardStepKeeps(w); }
  }

  lemma StillHeldKeeps(w: World)
    requires Inv(w) && w.pc.GateHumanHeld? && w.db.Held()
    ensures Inv(HeldPoll(w))
  {
  }

  lemma DiscardStepKeeps(w: World)
    requires Inv(w) && w.pc.GateHumanHeld? && !w.db.Held()
    ensures Inv(DiscardStep(w))
  {
    var w1 := At(w, LoopHead);
    assert Inv(w1);
    OwnKeeps(w1, FreshObserve);
  }

  lemma PassGateKeeps(w: World)
    requires Inv(w) && w.pc.GateLastCancel? && !w.db.CancelRequested()
    ensures Inv(PassGate(w))
  {
    match w.where
    case BetweenSteps => NewStepKeeps(w);
    case BeforeObserve => ToObservingKeeps(w);
    case BeforeDecide => ToObservingKeeps(w);
    case BeforeExecute => ToActionKeeps(w);
    case BeforeModel => ToModelKeeps(w);
    case AfterModel => ToModelKeeps(w);
  }

  lemma ToObservingKeeps(w: World)
    requires Inv(w) && w.pc.GateLastCancel?
    ensures w.where.BeforeObserve? ==> Inv(At(w, Observing))
    ensures w.where.BeforeDecide? ==> Inv(At(w, Deciding))
  {
  }

  lemma ToModelKeeps(w: World)
    requires Inv(w) && w.pc.GateLastCancel?
    ensures w.where.BeforeModel? ==> Inv(At(w, Modelling))
    ensures w.where.AfterModel? ==> Inv(At(w, Recording))
  {
  }

  lemma ToActionKeeps(w: World)
    requires Inv(w) && w.pc.GateLastCancel? && !w.db.CancelRequested() && w.where.BeforeExecute?
    ensures Inv(At(w, Requesting)) && Inv(w.(pc := Reading, round := 0))
  {
  }

  lemma StepCountedKeeps(w: World)
    requires Inv(w) && w.pc.GateLastCancel? && w.where.BetweenSteps?
    ensures Inv(At(w, LoopHead).(steps := w.steps + 1))
  {
  }

  lemma NewStepKeeps(w: World)
    requires Inv(w) && w.pc.GateLastCancel? && w.where.BetweenSteps?
    ensures Inv(EnterGate(w.(steps := w.steps + 1), BeforeObserve))
  {
    StepCountedKeeps(w);
    hide RowsInv, SignalInv, CancelInv, AppendInv, StatusInv, VerdictInv;
    EnterGateKeeps(At(w, LoopHead).(steps := w.steps + 1), BeforeObserve);
  }

  lemma ObserveStepKeeps(w: World, o: Outside)
    requires Inv(w) && w.pc.Observing?
    ensures Inv(ObserveStep(w, o))
  {
    hide Inv;
    if o.raises {
      ObserveRaisesKeeps(w);
    } else {
      var w1 := w.(db := Log(w.db, Observed), d := w.d.(observedAt := |w.db.trace|));
      ObservedKeeps(w);
      NotedKeeps(At(w1, Deciding));
    }
  }

  lemma ObserveRaisesKeeps(w: World)
    requires Inv(w) && w.pc.Observing?
    ensures Inv(Raise(w))
  {
    hide RowsInv, SignalInv, VerdictInv, CancelInv, AppendInv, BudgetInv;
    FinishKeeps(w, RunFailed, Failed);
  }

  lemma NotedKeeps(w: World)
    requires Inv(w) && w.pc.Deciding?
    ensures Inv(EnterGate(Own(w, ObservationCaptured), BeforeDecide))
  {
    hide RowsInv, SignalInv, VerdictInv, CancelInv, AppendInv, BudgetInv;
    OwnKeeps(w, ObservationCaptured);
    EnterGateKeeps(Own(w, ObservationCaptured), BeforeDecide);
  }

  lemma ObservedKeeps(w: World)
    requires Inv(w) && w.pc.Observing?
    ensures Inv(At(w.(db := Log(w.db, Observed), d := w.d.(observedAt := |w.db.trace|)), Deciding))
  {
    ObservedKeepsBooks(w);
    ObservedKeepsFlow(w);
    hide BookInv, FlowInv;
  }

  lemma ObservedKeepsBooks(w: World)
    requires BookInv(w) && w.pc.Observing?
    ensures BookInv(At(w.(db := Log(w.db, Observed), d := w.d.(observedAt := |w.db.trace|)), Deciding))
  {
  }

  lemma ObservedKeepsFlow(w: World)
    requires Inv(w) && w.pc.Observing?
    ensures FlowInv(At(w.(db := Log(w.db, Observed), d := w.d.(observedAt := |w.db.trace|)), Deciding))
  {
    hide RowsInv, VerdictInv, SignalInv;
  }

  lemma DecideStepKeeps(w: World, o: Outside)
    requires Inv(w) && w.pc.Deciding?
    ensures Inv(DecideStep(w, o))
  {
    if o.raises {
      FinishKeeps(w, RunFailed, Failed);
    } else {
      OwnKeeps(w, DecisionMade);
      DecidedKeeps(Own(w, DecisionMade), o.action);
    }
  }

  lemma DecidedKeeps(w: World, action: Action)
    requires Inv(w) && w.pc.Deciding?
    ensures var w1 := w.(d := Decision(action, w.d.observedAt, None));
            if action.gated then Inv(At(w1, OpeningGate)) else Inv(EnterGate(w1, BeforeExecute))
  {
    var w1 := w.(d := Decision(action, w.d.observedAt, None));
    assert Inv(w1);
    if !action.gated { EnterGateKeeps(w1, BeforeExecute); }
  }

  lemma OpenGateStepKeeps(w: World, o: Outside)
    requires Inv(w) && w.pc.OpeningGate?
    ensures Inv(OpenGateStep(w, o))
  {
    if o.raises { FinishKeeps(w, RunFailed, Failed); }
    else { OwnKeeps(w, ApprovalRequested); CreatedRowKeeps(Own(w, ApprovalRequested)); }
  }

  lemma CreatedRowKeeps(w: World)
    requires Inv(w) && w.pc.OpeningGate?
    ensures var (db, row) := CreatePendingApproval(w.db, w.d);
            Inv(w.(db := db, d := w.d.(approval := Some(row)), pc := SettingAwaiting))
  {
    CreatedRowKeepsBooks(w);
    CreatedRowKeepsFlow(w);
    hide BookInv, FlowInv;
  }

  lemma CreatedRowKeepsBooks(w: World)
    requires BookInv(w) && w.pc.OpeningGate?
    ensures var (db, row) := CreatePendingApproval(w.db, w.d);
            BookInv(w.(db := db, d := w.d.(approval := Some(row)), pc := SettingAwaiting))
  {
    hide NoteHold, NoteAppend, Justified;
  }

  lemma CreatedRowKeepsFlow(w: World)
    requires Inv(w) && w.pc.OpeningGate?
    ensures var (db, row) := CreatePendingApproval(w.db, w.d);
            FlowInv(w.(db := db, d := w.d.(approval := Some(row)), pc := SettingAwaiting))
  {
    hide VerdictInv, SignalInv;
  }

  lemma SetAwaitingStepKeeps(w: World)
    requires Inv(w) && w.pc.SettingAwaiting?
    ensures Inv(SetAwaitingStep(w))
  {
    SetAwaitingStepKeepsBooks(w);
    SetAwaitingStepKeepsFlow(w);
    hide BookInv, FlowInv;
  }

  lemma SetAwaitingStepKeepsBooks(w: World)
    requires BookInv(w) && w.pc.SettingAwaiting?
    ensures BookInv(SetAwaitingStep(w))
  {
    hide NoteHold, NoteAppend, Justified;
  }

  lemma SetAwaitingStepKeepsFlow(w: World)
    requires Inv(w) && w.pc.SettingAwaiting?
    ensures FlowInv(SetAwaitingStep(w))
  {
    assert !NewestRejected(w.db);
    hide RowsInv, VerdictInv, NoteGate;
  }

  lemma ApprovalCancelKeeps(w: World)
    requires Inv(w) && w.pc.ApprovalCancel?
    ensures Inv(CancelPoll(w, ApprovalTake))
  {
    if w.db.CancelRequested() { CancelledWaitKeeps(w); }
  }

  lemma CancelledWaitKeeps(w: World)
    requires Inv(w) && w.pc.ApprovalCancel? && w.db.CancelRequested()
    ensures Inv(Finish(w, AuditKind.RunCancelled, Cancelled))
  {
  }

  lemma TakeStepKeeps(w: World)
    requires Inv(w) && w.pc.ApprovalTake?
    ensures Inv(TakeStep(w))
  {
    match SignalsAt(w.db, w.signals).decision
    case None => NothingTakenKeeps(w);
    case Some(Grant) => GrantTakenKeeps(w);
    case Some(Deny) => DenialTakenKeeps(w);
  }

  lemma GrantTakenKeeps(w: World)
    requires Inv(w) && w.pc.ApprovalTake? && SignalsAt(w.db, w.signals).decision == Some(Grant)
    ensures Inv(TakeStep(w))
  {
  }

  lemma DenialTakenKeeps(w: World)
    requires Inv(w) && w.pc.ApprovalTake? && SignalsAt(w.db, w.signals).decision == Some(Deny)
    ensures Inv(TakeStep(w))
  {
  }

  lemma NothingTakenKeeps(w: World)
    requires Inv(w) && w.pc.ApprovalTake? && SignalsAt(w.db, w.signals).decision.None?
    ensures Inv(TakeStep(w))
  {
    var own := SignalsAt(w.db, w.signals);
    assert SetSignals(w.db, w.signals, own.(decision := None)) == w.db by {
      assert w.db.objects[w.signals := own] == w.db.objects;
    }
  }

  lemma DeadlineStepKeeps(w: World, o: Outside)
    requires Inv(w) && w.pc.ApprovalDeadline?
    ensures Inv(DeadlineStep(w, o))
  {
  }

  lemma TimeoutStepKeeps(w: World)
    requires Inv(w) && w.pc.FinalizingTimeout?
    ensures Inv(TimeoutStep(w))
  {
    MarkedKeeps(w);
    TimedOutKeeps(w.(db := MarkTimedOut(w.db, w.d.approval)));
  }

  lemma MarkedKeeps(w: World)
    requires Inv(w) && w.pc.FinalizingTimeout?
    ensures Inv(w.(db := MarkTimedOut(w.db, w.d.approval)))
  {
  }

  lemma TimedOutKeeps(w: World)
    requires Inv(w) && w.pc.FinalizingTimeout?
    ensures Inv(At(Own(w, ApprovalTimeout), SettingFailed))
  {
  }

  lemma SetFailedKeeps(w: World)
    requires Inv(w) && w.pc.SettingFailed?
    ensures Inv(w.(db := SetStatus(w.db, Failed), pc := Returned, outcome := Failed))
  {
  }

  lemma SetRunningKeeps(w: World)
    requires Inv(w) && w.pc.SettingRunning?
    ensures Inv(EnterGate(w.(db := SetStatus(w.db, Running)), BeforeExecute))
  {
    var w1 := w.(db := SetStatus(w.db, Running));
    assert Inv(w1);
    EnterGateKeeps(w1, BeforeExecute);
  }

  lemma ReadStepKeeps(w: World, o: Outside)
    requires Inv(w) && w.pc.Reading?
    ensures Inv(ReadStep(w, o))
  {
    if !w.config.research || o.raises { FinishKeeps(w, RunFailed, Failed); }
    ToHeadKeeps(w);
    EnterGateKeeps(w, BeforeModel);
  }

  lemma ModelStepKeeps(w: World, o: Outside)
    requires Inv(w) && w.pc.Modelling?
    ensures Inv(ModelStep(w, o))
  {
    hide RowsInv, SignalInv, CancelInv, AppendInv, BudgetInv;
    OwnKeeps(w, ModelCallFailed);
    OwnKeeps(w, ModelCall);
    if o.raises {
      FinishKeeps(if o.ok then w else Own(w, ModelCallFailed), RunFailed, Failed);
    } else {
      EnterGateKeeps(if o.more || w.d.action.kind.Done? then Own(w, ModelCall) else w, AfterModel);
    }
  }

  lemma RecordStepKeeps(w: World)
    requires Inv(w) && w.pc.Recording?
    ensures Inv(RecordStep(w))
  {
    if w.d.action.kind.Extract? {
      OwnKeeps(w, ResearchEvidence);
      ToHeadKeeps(Own(w, ResearchEvidence));
    } else {
      OwnKeeps(w, ResearchResult);
      FinishKeeps(Own(w, ResearchResult), RunSucceeded, Succeeded);
    }
  }

  lemma RequestStepKeeps(w: World, o: Outside)
    requires Inv(w) && w.pc.Requesting?
    ensures Inv(RequestStep(w, o))
  {
    if o.raises {
      hide RowsInv, VerdictInv, SignalInv, CancelInv, AppendInv, BudgetInv;
      OwnKeeps(w, ActionFailed);
      FinishKeeps(if o.ok then w else Own(w, ActionFailed), RunFailed, Failed);
    } else {
      OwnKeeps(w, ActionRequested);
      ToGuardKeeps(Own(w, ActionRequested));
    }
  }

  lemma ToGuardKeeps(w: World)
    requires Inv(w) && w.pc.Requesting?
    ensures Inv(At(w, GuardPoll))
  {
  }

  lemma GuardStepKeeps(w: World)
    requires Inv(w) && w.pc.GuardPoll?
    ensures Inv(GuardStep(w))
  {
    if w.db.Held() { RefusedKeeps(w); }
  }

  lemma RefusedKeeps(w: World)
    requires Inv(w) && w.pc.GuardPoll?
    ensures Inv(w.(db := Log(w.db, ExecRefused), pc := Failing))
  {
    RefusedKeepsBooks(w);
    RefusedKeepsFlow(w);
    hide BookInv, FlowInv;
  }

  lemma RefusedKeepsBooks(w: World)
    requires BookInv(w) && w.pc.GuardPoll?
    ensures BookInv(w.(db := Log(w.db, ExecRefused), pc := Failing))
  {
  }

  lemma RefusedKeepsFlow(w: World)
    requires Inv(w) && w.pc.GuardPoll?
    ensures FlowInv(w.(db := Log(w.db, ExecRefused), pc := Failing))
  {
    hide RowsInv, VerdictInv, SignalInv;
  }

  lemma ExecutingKeeps(w: World)
    requires Inv(w) && w.pc.Executing?
    ensures Inv(w.(db := Log(w.db, ExecStarted(w.d)), pc := Finishing))
  {
  }

  lemma FinishStepKeeps(w: World, o: Outside)
    requires Inv(w) && w.pc.Finishing?
    ensures Inv(FinishStep(w, o))
  {
    hide RowsInv, VerdictInv, SignalInv, CancelInv, AppendInv, BudgetInv;
    OwnKeeps(w, ActionFailed);
    OwnKeeps(w, ActionCompleted);
    if o.raises {
      FinishKeeps(if o.ok then w else Own(w, ActionFailed), RunFailed, Failed);
    } else if !o.ok {
      ToFailingKeeps(w);
    } else if o.done || w.d.action.kind.Done? {
      FinishKeeps(Own(w, ActionCompleted), RunSucceeded, Succeeded);
    } else {
      ToHeadKeeps(Own(w, ActionCompleted));
    }
  }

  lemma ToFailingKeeps(w: World)
    requires Inv(w) && w.pc.Finishing?
    ensures Inv(At(w, Failing))
  {
  }

  lemma FailStepKeeps(w: World, o: Outside)
    requires Inv(w) && w.pc.Failing?
    ensures Inv(FailStep(w, o))
  {
    if o.raises {
      FinishKeeps(w, RunFailed, Failed);
    } else {
      OwnKeeps(w, ActionFailed);
      DisarmKeeps(Own(w, ActionFailed));
    }
  }

  lemma DisarmKeeps(w: World)
    requires Inv(w) && w.pc.Failing?
    ensures var own := SignalsAt(w.db, w.signals);
            var w2 := w.(db := SetSignals(w.db, w.signals, own.(stepRetryArmed := false)));
            if own.stepRetryArmed then Inv(At(Own(w2, StepRetry), LoopHead)) else Inv(Raise(w2))
  {
    var own := SignalsAt(w.db, w.signals);
    var w2 := w.(db := SetSignals(w.db, w.signals, own.(stepRetryArmed := false)));
    assert Inv(w2);
    if own.stepRetryArmed {
      OwnKeeps(w2, StepRetry);
      ToHeadKeeps(Own(w2, StepRetry));
    } else {
      FinishKeeps(w2, RunFailed, Failed);
    }
  }

  lemma PersistKeeps(w: World)
    requires Inv(w) && w.pc.Returned?
    ensures Inv(At(w.(db := PersistOutcome(w.db, w.outcome)), Discarding))
  {
  }

  lemma DiscardKeeps(w: World)
    requires Inv(w) && w.pc.Discarding?
    ensures Inv(At(w.(db := w.db.(hub := None)), Idle))
  {
  }

  lemma GateStepKeeps(w: World, o: Outside)
    requires Inv(w) && InGate(w.pc)
    ensures Inv(LoopStep(w, o))
  {
    hide Inv;
    match w.pc
    case GateFirstCancel => NextPollKeeps(w); CancelPollKeeps(w, GateTakeover);
    case GateTakeover => TakeoverPollKeeps(w);
    case GateHumanCancel => NextPollKeeps(w); CancelPollKeeps(w, GateHumanHeld);
    case GateHumanHeld => HeldPollKeeps(w);
    case GatePauseCancel => NextPollKeeps(w); CancelPollKeeps(w, GatePauseHeld);
    case GatePauseHeld => PausePollKeeps(w);
    case GateLastCancel =>
      if w.db.CancelRequested() { CancelPollKeeps(w, w.pc); } else { PassGateKeeps(w); }
  }

  lemma PausePollKeeps(w: World)
    requires Inv(w) && w.pc.GatePauseHeld?
    ensures Inv(At(w, GatePauseCancel)) && Inv(At(w, GateLastCancel))
  {
    PausePollKeepsBooks(w);
    PausePollKeepsFlow(w);
    hide BookInv, FlowInv;
  }

  lemma PausePollKeepsBooks(w: World)
    requires BookInv(w) && w.pc.GatePauseHeld?
    ensures BookInv(At(w, GatePauseCancel)) && BookInv(At(w, GateLastCancel))
  {
  }

  lemma PausePollKeepsFlow(w: World)
    requires FlowInv(w) && w.pc.GatePauseHeld?
    ensures FlowInv(At(w, GatePauseCancel)) && FlowInv(At(w, GateLastCancel))
  {
  }

  lemma LoopStepKeeps(w: World, o: Outside)
    requires Inv(w)
    ensures Inv(LoopStep(w, o))
  {
    hide Inv;
    match w.pc
    case Idle =>
    case Spawned => SpawnedStepKeeps(w, o);
    case LoopHead => HeadStepKeeps(w);
    case Observing => ObserveStepKeeps(w, o);
    case Deciding => DecideStepKeeps(w, o);
    case OpeningGate => OpenGateStepKeeps(w, o);
    case SettingAwaiting => SetAwaitingStepKeeps(w);
    case ApprovalCancel => ApprovalCancelKeeps(w);
    case ApprovalTake => TakeStepKeeps(w);
    case ApprovalDeadline => DeadlineStepKeeps(w, o);
    case FinalizingTimeout => TimeoutStepKeeps(w);
    case SettingFailed => SetFailedKeeps(w);
    case SettingRunning => SetRunningKeeps(w);
    case Reading => ReadStepKeeps(w, o);
    case Modelling => ModelStepKeeps(w, o);
    case Recording => RecordStepKeeps(w);
    case Requesting => RequestStepKeeps(w, o);
    case GuardPoll => GuardStepKeeps(w);
    case Executing => ExecutingKeeps(w);
    case Finishing => FinishStepKeeps(w, o);
    case Failing => FailStepKeeps(w, o);
    case Returned => PersistKeeps(w);
    case Discarding => DiscardKeeps(w);
    case _ => GateStepKeeps(w, o);
  }

  // ---------- every operator call keeps it ----------

  lemma ServiceAppendKeeps(w: World, kind: AuditKind)
    requires Inv(w)
    ensures Inv(w.(db := Append(w.db, false, kind)))
  {
    ServiceAppendKeepsBooks(w, kind);
    ServiceAppendKeepsFlow(w, kind);
    hide BookInv, FlowInv;
  }

  lemma ServiceAppendKeepsBooks(w: World, kind: AuditKind)
    requires BookInv(w)
    ensures BookInv(w.(db := Append(w.db, false, kind)))
  {
  }

  lemma ServiceAppendKeepsFlow(w: World, kind: AuditKind)
    requires FlowInv(w)
    ensures FlowInv(w.(db := Append(w.db, false, kind)))
  {
  }

  lemma WriteKeepsFlow(w: World, writer: Writer, to: RunStatus, finished: bool)
    requires StatusInv(w) && FlowInv(w) && JustifiedWrite(w.db.past, writer, w.db.run.status, to)
    ensures FlowInv(w.(db := Write(w.db, writer, to, finished)))
  {
  }

  /** A call that writes a status and its audit entry. */
  lemma StatusCallKeepsFlow(w: World, writer: Writer, to: RunStatus, finished: bool, kind: AuditKind)
    requires StatusInv(w) && FlowInv(w) && JustifiedWrite(w.db.past, writer, w.db.run.status, to)
    ensures FlowInv(w.(db := Append(Write(w.db, writer, to, finished), false, kind)))
  {
    hide StatusInv, FlowInv;
    WriteKeepsFlow(w, writer, to, finished);
    ServiceAppendKeepsFlow(w.(db := Write(w.db, writer, to, finished)), kind);
  }

  predicate Active(s: RunStatus) {
    s.Running? || s.Paused? || s.AwaitingHuman?
  }

  lemma ActiveCallKeepsBooks(w: World, writer: Writer, to: RunStatus, kind: AuditKind)
    requires BookInv(w) && Active(w.db.run.status) && Active(to)
    ensures BookInv(w.(db := Append(Write(w.db, writer, to, w.db.run.finished), false, kind)))
  {
    hide RowsInv, OwnsNewestRow, NoteHold, NoteAppend, Justified;
  }

  lemma PauseCallKeeps(w: World)
    requires Inv(w)
    ensures Inv(Operate(w, Pause))
  {
    PauseCallKeepsBooks(w);
    PauseCallKeepsFlow(w);
    hide BookInv, FlowInv;
  }

  lemma PauseCallKeepsBooks(w: World)
    requires BookInv(w)
    ensures BookInv(Operate(w, Pause))
  {
    hide BookInv, Note;
    if w.db.run.status.Running? { ActiveCallKeepsBooks(w, PauseCall, Paused, RunPaused); }
  }

  lemma PauseCallKeepsFlow(w: World)
    requires Inv(w)
    ensures FlowInv(Operate(w, Pause))
  {
    hide FlowInv, RowsInv, VerdictInv, SignalInv;
    if w.db.run.status.Running? { StatusCallKeepsFlow(w, PauseCall, Paused, w.db.run.finished, RunPaused); }
  }

  lemma ResumeCallKeeps(w: World)
    requires Inv(w)
    ensures Inv(Operate(w, Resume))
  {
    ResumeCallKeepsBooks(w);
    ResumeCallKeepsFlow(w);
    hide BookInv, FlowInv;
  }

  lemma ResumeCallKeepsBooks(w: World)
    requires BookInv(w)
    ensures BookInv(Operate(w, Resume))
  {
    hide BookInv, Note;
    if w.db.run.status.Paused? { ActiveCallKeepsBooks(w, ResumeCall, Running, RunResumed); }
  }

  lemma ResumeCallKeepsFlow(w: World)
    requires Inv(w)
    ensures FlowInv(Operate(w, Resume))
  {
    hide FlowInv, RowsInv, VerdictInv, SignalInv;
    if w.db.run.status.Paused? { StatusCallKeepsFlow(w, ResumeCall, Running, w.db.run.finished, RunResumed); }
  }

  lemma CancelCallKeeps(w: World)
    requires Inv(w)
    ensures Inv(Operate(w, Cancel))
  {
    CancelCallKeepsBooks(w);
    CancelCallKeepsFlow(w);
    hide BookInv, FlowInv;
  }

  lemma CancelCallKeepsBooks(w: World)
    requires BookInv(w)
    ensures BookInv(Operate(w, Cancel))
  {
    hide RowsInv, OwnsNewestRow, NoteHold, NoteAppend, Justified;
  }

  lemma CancelCallKeepsFlow(w: World)
    requires Inv(w)
    ensures FlowInv(Operate(w, Cancel))
  {
    hide FlowInv, RowsInv, VerdictInv, SignalInv;
    if !w.db.run.status.Terminal() { StatusCallKeepsFlow(w, CancelCall, Cancelled, true, AuditKind.RunCancelled); }
  }

  lemma RetryCallKeeps(w: World)
    requires Inv(w)
    ensures Inv(Operate(w, Retry))
  {
    if w.db.run.status.Failed? {
      RequeueKeeps(w);
    } else if w.db.run.status.Running? || w.db.run.status.Paused? {
      ServiceAppendKeeps(w, RetryRequested);
      ArmKeeps(w.(db := Append(w.db, false, RetryRequested)));
    }
  }

  lemma RequeueKeeps(w: World)
    requires Inv(w) && w.db.run.status.Failed?
    ensures Inv(w.(db := Append(Write(w.db, RetryCall, Queued, false), false, RetryRequested).(hub := None)))
  {
    var w1 := w.(db := Write(w.db, RetryCall, Queued, false).(hub := None));
    assert Inv(w1);
    ServiceAppendKeeps(w1, RetryRequested);
  }

  lemma ArmKeeps(w: World)
    requires Inv(w) && (w.db.run.status.Running? || w.db.run.status.Paused?)
    ensures var (db1, i) := SignalsFor(w.db);
            Inv(w.(db := SetSignals(db1, i, SignalsAt(db1, i).(stepRetryArmed := true))))
  {
    ArmKeepsBooks(w);
    ArmKeepsFlow(w);
    hide BookInv, FlowInv;
  }

  lemma ArmKeepsBooks(w: World)
    requires BookInv(w) && (w.db.run.status.Running? || w.db.run.status.Paused?)
    ensures var (db1, i) := SignalsFor(w.db);
            BookInv(w.(db := SetSignals(db1, i, SignalsAt(db1, i).(stepRetryArmed := true))))
  {
  }

  lemma ArmKeepsFlow(w: World)
    requires Inv(w) && (w.db.run.status.Running? || w.db.run.status.Paused?)
    ensures var (db1, i) := SignalsFor(w.db);
            FlowInv(w.(db := SetSignals(db1, i, SignalsAt(db1, i).(stepRetryArmed := true))))
  {
    hide RowsInv, VerdictInv;
  }

  lemma TakeControlCallKeeps(w: World)
    requires Inv(w)
    ensures Inv(Operate(w, Call.TakeControl))
  {
    TakeControlCallKeepsBooks(w);
    TakeControlCallKeepsFlow(w);
    hide BookInv, FlowInv;
  }

  lemma TakeControlCallKeepsBooks(w: World)
    requires BookInv(w)
    ensures BookInv(Operate(w, Call.TakeControl))
  {
    hide BookInv, Note;
    if w.db.run.status.Running? || w.db.run.status.Paused? {
      ActiveCallKeepsBooks(w, TakeCall, AwaitingHuman, TakeoverStarted);
    }
  }

  lemma TakeControlCallKeepsFlow(w: World)
    requires Inv(w)
    ensures FlowInv(Operate(w, Call.TakeControl))
  {
    hide FlowInv, RowsInv, VerdictInv, SignalInv;
    if w.db.run.status.Running? || w.db.run.status.Paused? {
      StatusCallKeepsFlow(w, TakeCall, AwaitingHuman, w.db.run.finished, TakeoverStarted);
    }
  }

  lemma ReleaseControlCallKeeps(w: World)
    requires Inv(w)
    ensures Inv(Operate(w, Call.ReleaseControl))
  {
    ReleaseControlCallKeepsBooks(w);
    ReleaseControlCallKeepsFlow(w);
    hide BookInv, FlowInv;
  }

  lemma ReleaseControlCallKeepsBooks(w: World)
    requires BookInv(w)
    ensures BookInv(Operate(w, Call.ReleaseControl))
  {
    hide BookInv, Note;
    if w.db.run.status.AwaitingHuman? { ActiveCallKeepsBooks(w, ReleaseCall, Running, TakeoverEnded); }
  }

  lemma ReleaseControlCallKeepsFlow(w: World)
    requires Inv(w)
    ensures FlowInv(Operate(w, Call.ReleaseControl))
  {
    hide FlowInv, RowsInv, VerdictInv, SignalInv;
    if w.db.run.status.AwaitingHuman? {
      StatusCallKeepsFlow(w, ReleaseCall, Running, w.db.run.finished, TakeoverEnded);
    }
  }

  lemma JudgeCallKeeps(w: World, v: Verdict)
    requires Inv(w)
    ensures Inv(Operate(w, JudgeCall(v)))
  {
    hide Inv, DeliverVerdict, CommitVerdict;
    if w.db.run.status.AwaitingApproval? && PendingApproval(w.db.approvals).Some? {
      CommitVerdictKeeps(w, PendingApproval(w.db.approvals).value, v);
      DeliverVerdictKeeps(CommitVerdict(w, PendingApproval(w.db.approvals).value, v), v);
      JudgeAsMoves(w, v);
    }
  }

  function JudgeCall(v: Verdict): Call {
    if v.Grant? then Approve else Reject
  }

  lemma JudgeAsMoves(w: World, v: Verdict)
    requires w.db.run.status.AwaitingApproval? && PendingApproval(w.db.approvals).Some?
    ensures Operate(w, JudgeCall(v)) == DeliverVerdict(CommitVerdict(w, PendingApproval(w.db.approvals).value, v), v)
  {
    hide Note;
  }

  /** set_approval_decision on the run's object in the hub. */
  function DeliverVerdict(w: World, v: Verdict): World {
    var (db, i) := SignalsFor(w.db);
    w.(db := SetSignals(db, i, SignalsAt(db, i).(decision := Some(v))))
  }

  function JudgeRow(w: World, row: nat, v: Verdict): World
    requires row < |w.db.approvals|
  {
    var db1 := w.db.(approvals := w.db.approvals[row := if v.Grant? then Granted else Denied]);
    var db2 := Log(db1, if v.Grant? then ApprovedRow(row) else RejectedRow(row));
    w.(db := if v.Grant? then Write(db2, ApproveCall, Running, w.db.run.finished)
             else Write(db2, RejectCall, Failed, true))
  }

  /** What an approve or reject call commits: the row, the status and the audit entry. */
  function CommitVerdict(w: World, row: nat, v: Verdict): World
    requires row < |w.db.approvals|
  {
    var w1 := JudgeRow(w, row, v);
    w1.(db := Append(w1.db, false, if v.Grant? then ApprovalGranted else ApprovalDenied))
  }

  function Judged(g: GateBook, v: Verdict): set<nat> {
    if v.Grant? then g.approved else g.rejected
  }

  /** A verdict delivered now can end no wait but that of a gate whose own row was judged so:
      the waiting loop's row was, or the loop reads another object, or there is no loop that
      could still reach a gate. */
  predicate Timely(w: World, v: Verdict) {
    if Waiting(w.pc) then w.db.hub == Some(w.signals) ==> |w.db.approvals| - 1 in Judged(w.db.past.gates, v)
    else Leaving(w.pc) || (w.pc.Idle? && w.db.run.status.Terminal())
  }

  /** The row that is judged while the loop waits is its own. */
  lemma AwaitingMeansWaiting(w: World)
    requires BookInv(w) && w.db.run.status.AwaitingApproval?
    ensures Waiting(w.pc) || Leaving(w.pc)
    ensures Waiting(w.pc) ==> PendingApproval(w.db.approvals) == Some(|w.db.approvals| - 1)
  {
    hide SignalInv, RowsInv;
  }

  lemma CommitVerdictKeeps(w: World, row: nat, v: Verdict)
    requires Inv(w) && w.db.run.status.AwaitingApproval? && PendingApproval(w.db.approvals) == Some(row)
    ensures Inv(CommitVerdict(w, row, v)) && Timely(CommitVerdict(w, row, v), v)
  {
    hide BookInv, FlowInv, CommitVerdict;
    CommitVerdictBooks(w, row, v);
    CommitVerdictFlow(w, row, v);
    AwaitingMeansWaiting(w);
    CommittedParts(w, row, v);
  }

  lemma CommitVerdictBooks(w: World, row: nat, v: Verdict)
    requires BookInv(w) && w.db.run.status.AwaitingApproval? && PendingApproval(w.db.approvals) == Some(row)
    ensures BookInv(CommitVerdict(w, row, v))
  {
    hide BookInv, JudgeRow;
    JudgedRowBooks(w, row, v);
    ServiceAppendKeepsBooks(JudgeRow(w, row, v), if v.Grant? then ApprovalGranted else ApprovalDenied);
  }

  lemma JudgedRowBooks(w: World, row: nat, v: Verdict)
    requires BookInv(w) && w.db.run.status.AwaitingApproval? && PendingApproval(w.db.approvals) == Some(row)
    ensures BookInv(JudgeRow(w, row, v))
  {
    AwaitingMeansWaiting(w);
    JudgedRowStatus(w, row, v);
    JudgedRowSignals(w, row, v);
    JudgedRowRows(w, row, v);
    JudgedRowVerdict(w, row, v);
    hide StatusInv, SignalInv, RowsInv, VerdictInv;
  }

  lemma JudgedRowStatus(w: World, row: nat, v: Verdict)
    requires StatusInv(w) && w.db.run.status.AwaitingApproval? && row < |w.db.approvals|
    requires Waiting(w.pc) || Leaving(w.pc)
    requires Waiting(w.pc) ==> row == |w.db.approvals| - 1
    ensures StatusInv(JudgeRow(w, row, v))
  {
    hide NoteHold, NoteAppend, Justified;
  }

  lemma JudgedRowSignals(w: World, row: nat, v: Verdict)
    requires SignalInv(w) && row < |w.db.approvals| && (Waiting(w.pc) || Leaving(w.pc))
    ensures SignalInv(JudgeRow(w, row, v))
  {
    hide NoteHold, NoteAppend, Justified;
  }

  lemma JudgedRowRows(w: World, row: nat, v: Verdict)
    requires RowsInv(w.db.approvals, w.db.past.gates) && row < |w.db.approvals| && w.db.approvals[row].Requested?
    ensures RowsInv(JudgeRow(w, row, v).db.approvals, JudgeRow(w, row, v).db.past.gates)
  {
    hide NoteHold, NoteAppend, Justified;
  }

  lemma JudgedRowVerdict(w: World, row: nat, v: Verdict)
    requires VerdictInv(w) && StatusInv(w) && w.db.run.status.AwaitingApproval? && row < |w.db.approvals|
    requires Waiting(w.pc) || Leaving(w.pc)
    requires Waiting(w.pc) ==> row == |w.db.approvals| - 1
    ensures VerdictInv(JudgeRow(w, row, v))
  {
    hide NoteHold, NoteAppend, Justified;
  }

  lemma CommitVerdictFlow(w: World, row: nat, v: Verdict)
    requires Inv(w) && w.db.run.status.AwaitingApproval? && PendingApproval(w.db.approvals) == Some(row)
    ensures FlowInv(CommitVerdict(w, row, v))
  {
    AwaitingMeansWaiting(w);
    CommittedFresh(w, row, v);
    CommittedAppends(w, row, v);
    CommittedCounts(w, row, v);
    CommittedIsSound(w, row, v);
    hide FreshInv, AppendInv, BudgetInv, CancelInv, StatusInv, VerdictInv, SignalInv, RowsInv, CommitVerdict;
  }

  lemma CommittedCounts(w: World, row: nat, v: Verdict)
    requires CancelInv(w) && BudgetInv(w) && row < |w.db.approvals|
    ensures CancelInv(CommitVerdict(w, row, v)) && BudgetInv(CommitVerdict(w, row, v))
  {
    hide NoteGate, NoteHold, Justified;
  }

  lemma CommittedFresh(w: World, row: nat, v: Verdict)
    requires FreshInv(w) && w.db.run.status.AwaitingApproval? && row < |w.db.approvals|
    ensures FreshInv(CommitVerdict(w, row, v))
  {
    hide NoteGate, NoteAppend, Justified;
  }

  lemma CommittedAppends(w: World, row: nat, v: Verdict)
    requires AppendInv(w) && row < |w.db.approvals| && (Waiting(w.pc) || Leaving(w.pc))
    ensures AppendInv(CommitVerdict(w, row, v))
  {
    hide CommitVerdict;
    CommittedParts(w, row, v);
  }

  lemma CommittedParts(w: World, row: nat, v: Verdict)
    requires row < |w.db.approvals|
    ensures var w', g, a := CommitVerdict(w, row, v), w.db.past.gates, w.db.past.appends;
            && w' == w.(db := w'.db) && |w'.db.approvals| == |w.db.approvals|
            && w'.db.past.gates == (if v.Grant? then g.(approved := g.approved + {row})
                                    else g.(rejected := g.rejected + {row}))
            && w'.db.past.appends == a.(denied := a.denied || v.Deny?)
  {
    hide NoteHold, Justified, Faithful;
  }

  lemma CommittedIsSound(w: World, row: nat, v: Verdict)
    requires Inv(w) && w.db.run.status.AwaitingApproval? && row < |w.db.approvals| && w.db.approvals[row].Requested?
    ensures CommitVerdict(w, row, v).db.past.sound
  {
    hide FreshInv, AppendInv, VerdictInv, SignalInv, CancelInv, BudgetInv, NoteHold, NoteAppend;
  }

  lemma DeliverVerdictKeeps(w: World, v: Verdict)
    requires Inv(w) && Timely(w, v)
    ensures Inv(DeliverVerdict(w, v))
  {
    DeliverVerdictBooks(w, v);
    DeliverVerdictFlow(w, v);
    hide BookInv, FlowInv;
  }

  lemma DeliverVerdictBooks(w: World, v: Verdict)
    requires BookInv(w) && Timely(w, v)
    ensures BookInv(DeliverVerdict(w, v))
  {
  }

  lemma DeliverVerdictFlow(w: World, v: Verdict)
    requires Inv(w) && Timely(w, v)
    ensures FlowInv(DeliverVerdict(w, v))
  {
    hide RowsInv, VerdictInv;
  }

  lemma StartCallKeeps(w: World)
    requires Inv(w)
    ensures Inv(Operate(w, Start))
  {
    StartCallKeepsBooks(w);
    StartCallKeepsFlow(w);
    hide BookInv, FlowInv;
  }

  lemma StartCallKeepsBooks(w: World)
    requires BookInv(w)
    ensures BookInv(Operate(w, Start))
  {
  }

  lemma StartCallKeepsFlow(w: World)
    requires Inv(w)
    ensures FlowInv(Operate(w, Start))
  {
    hide RowsInv, VerdictInv, SignalInv;
  }

  lemma RestartCallKeeps(w: World)
    requires Inv(w)
    ensures Inv(Operate(w, Restart))
  {
    LostTaskKeeps(w);
    assert Operate(w, Restart) == FailLost(w);
  }

  /** A restart: no task, no signals, and an interrupted run is failed. */
  function FailLost(w: World): World {
    w.(db := RecoverRun(w.db.(hub := None)), pc := Idle)
  }

  lemma LostTaskKeeps(w: World)
    requires Inv(w)
    ensures Inv(FailLost(w))
  {
    LostTaskBooks(w);
    LostTaskFlow(w);
    hide BookInv, FlowInv;
  }

  lemma LostTaskBooks(w: World)
    requires BookInv(w)
    ensures BookInv(FailLost(w))
  {
    LostTaskStatus(w);
    LostTaskRows(w);
    hide StatusInv, RowsInv;
  }

  lemma LostTaskStatus(w: World)
    requires StatusInv(w)
    ensures StatusInv(FailLost(w))
  {
    hide NoteGate, NoteHold, NoteAppend, Justified;
  }

  lemma LostTaskRows(w: World)
    requires RowsInv(w.db.approvals, w.db.past.gates)
    ensures RowsInv(FailLost(w).db.approvals, FailLost(w).db.past.gates)
  {
    hide NoteHold, NoteAppend, Justified;
  }

  lemma LostTaskFlow(w: World)
    requires Inv(w)
    ensures FlowInv(FailLost(w))
  {
    hide RowsInv, VerdictInv, SignalInv;
  }

  lemma OperateKeeps(w: World, call: Call)
    requires Inv(w)
    ensures Inv(Operate(w, call))
  {
    match call
    case Pause => PauseCallKeeps(w);
    case Resume => ResumeCallKeeps(w);
    case Cancel => CancelCallKeeps(w);
    case Retry => RetryCallKeeps(w);
    case TakeControl => TakeControlCallKeeps(w);
    case ReleaseControl => ReleaseControlCallKeeps(w);
    case Approve => JudgeCallKeeps(w, Grant);
    case Reject => JudgeCallKeeps(w, Deny);
    case Start => StartCallKeeps(w);
    case Restart => RestartCallKeeps(w);
  }
}
