/** What the loop does when nothing else happens: the entries it leaves, in order, up to
    the end of a step, of an approval and of a whole run.  The other theorems say what the
    loop never does; these say what it does. */
module RunAlone {
  import opened Basics
  import opened RunModel
  import opened RunSteps

  /** n turns of the loop in a row, each hearing the same from outside. */
  function Alone(w: World, o: Outside, n: nat): World {
    if n == 0 then w else LoopStep(Alone(w, o, n - 1), o)
  }

  lemma {:induction false} AloneOn(w: World, o: Outside, m: nat, n: nat)
    ensures Alone(w, o, m + n) == Alone(Alone(w, o, m), o, n)
  {
    hide LoopStep;
    if n > 0 { AloneOn(w, o, m, n - 1); }
  }

  lemma AloneOnce(w: World, o: Outside)
    ensures Alone(w, o, 1) == LoopStep(w, o)
  {
    assert Alone(w, o, 0) == w;
  }

  function Turns(o: Outside, n: nat): seq<Label> {
    seq(n, i => OfLoop(o))
  }

  /** It is one of the histories all other theorems are about. */
  lemma {:induction false} AloneIsRun(w: World, before: seq<Label>, o: Outside, n: nat)
    ensures Run(w, before + Turns(o, n)) == Alone(Run(w, before), o, n)
  {
    var labels := before + Turns(o, n);
    if n == 0 {
      assert labels == before;
    } else {
      assert labels[..|labels| - 1] == before + Turns(o, n - 1);
      assert labels[|labels| - 1] == OfLoop(o);
      hide LoopStep;
      AloneIsRun(w, before, o, n - 1);
    }
  }

  // ---------- gates ----------

  /** No gate stops a run with this status. */
  predicate Free(s: RunStatus) {
    !s.Cancelled? && !s.AwaitingHuman? && !s.Paused?
  }

  /** A gate of a free run is passed after its seven polls. */
  lemma GatePasses(w: World, o: Outside)
    requires w.pc.GateFirstCancel? && Free(w.db.run.status)
    ensures Alone(w, o, 7) == PassGate(w.(pc := GateLastCancel, waited := false))
  {
    hide PassGate;
    assert Alone(w, o, 1) == w.(pc := GateTakeover);
    assert Alone(w, o, 2) == w.(pc := GateHumanCancel, waited := false);
    assert Alone(w, o, 3) == w.(pc := GateHumanHeld, waited := false);
    assert Alone(w, o, 4) == w.(pc := GatePauseCancel, waited := false);
    assert Alone(w, o, 5) == w.(pc := GatePauseHeld, waited := false);
    assert Alone(w, o, 6) == w.(pc := GateLastCancel, waited := false);
  }

  /** Only the trace, the place, the number of steps and the decision have changed. */
  predicate Moved(w: World, w': World, events: seq<Event>, pc: Pc, steps: nat, d: Decision) {
    && w'.db.trace == w.db.trace + events
    && w'.pc == pc && w'.steps == steps && w'.d == d
    && w'.config == w.config && w'.signals == w.signals
    && w'.db.run == w.db.run && w'.db.approvals == w.db.approvals
    && w'.db.objects == w.db.objects && w'.db.hub == w.db.hub
  }

  // ---------- one step ----------

  const SEEN := [Event.Observed, Appended(true, ObservationCaptured)]

  /** From the head of the loop to the place where the page is observed. */
  lemma ReachesObserving(w: World, o: Outside)
    requires w.pc.LoopHead? && w.steps < w.config.maxSteps && Free(w.db.run.status)
    ensures Moved(w, Alone(w, o, 15), [], Observing, w.steps + 1, w.d)
  {
    hide Alone;
    var w1 := EnterGate(w, BetweenSteps);
    AloneOnce(w, o);
    GatePasses(w1, o);
    AloneOn(w, o, 1, 7);
    var w2 := EnterGate(w1.(waited := false, steps := w.steps + 1), BeforeObserve);
    hide LoopStep;
    GatePasses(w2, o);
    AloneOn(w, o, 8, 7);
  }

  /** The observation is recorded, and the step goes on to its decision. */
  lemma ReachesDeciding(w: World, o: Outside)
    requires w.pc.Observing? && Free(w.db.run.status) && !o.raises
    ensures Moved(w, Alone(w, o, 8), SEEN, Deciding, w.steps, w.d.(observedAt := |w.db.trace|))
  {
    hide Note, Faithful, Alone;
    var w1 := LoopStep(w, o);
    AloneOnce(w, o);
    GatePasses(w1, o);
    AloneOn(w, o, 1, 7);
  }

  /** A step left alone observes first and decides on that observation. */
  lemma StepDecides(w: World, o: Outside)
    requires w.pc.LoopHead? && w.steps < w.config.maxSteps && Free(w.db.run.status) && !o.raises
    ensures var w' := Alone(w, o, 24);
            && Moved(w, w', SEEN + [Appended(true, DecisionMade)],
                     if o.action.gated then OpeningGate else GateFirstCancel,
                     w.steps + 1, Decision(o.action, |w.db.trace|, None))
            && (!o.action.gated ==> w'.where.BeforeExecute?)
  {
    hide Note, Faithful, Alone;
    ReachesObserving(w, o);
    AloneOn(w, o, 15, 8);
    ReachesDeciding(Alone(w, o, 15), o);
    AloneOn(w, o, 23, 1);
    AloneOnce(Alone(w, o, 23), o);
  }

  // ---------- executing ----------

  /** The execute gate of a plain action, and the execute behind it. */
  lemma GateExecutes(w: World, o: Outside)
    requires w.pc.GateFirstCancel? && w.where.BeforeExecute? && Free(w.db.run.status) && !o.raises
    requires w.d.action.kind.BrowserAction? || (w.d.action.kind.Done? && !w.config.research)
    ensures Moved(w, Alone(w, o, 10), [Appended(true, ActionRequested), GuardPassed, ExecStarted(w.d)],
                  Finishing, w.steps, w.d)
  {
    hide Note, Faithful, Alone;
    GatePasses(w, o);
    AloneOn(w, o, 7, 1);
    var w1 := Alone(w, o, 7);
    AloneOnce(w1, o);
    AloneOn(w, o, 8, 1);
    var w2 := Alone(w, o, 8);
    AloneOnce(w2, o);
    AloneOn(w, o, 9, 1);
    AloneOnce(Alone(w, o, 9), o);
  }

  /** The entries of a step up to the execute of its action, the page being observed at trace
      position `at`. */
  function ExecuteEntries(action: Action, at: nat): seq<Event> {
    [Event.Observed, Appended(true, ObservationCaptured), Appended(true, DecisionMade),
     Appended(true, ActionRequested), GuardPassed, ExecStarted(Decision(action, at, None))]
  }

  predicate Plain(w: World, action: Action) {
    !action.gated && (action.kind.BrowserAction? || (action.kind.Done? && !w.config.research))
  }

  /** A plain action is decided, requested and executed once, on the observation the step
      began with. */
  lemma StepExecutes(w: World, o: Outside)
    requires w.pc.LoopHead? && w.steps < w.config.maxSteps && Free(w.db.run.status)
    requires Plain(w, o.action) && !o.raises
    ensures Moved(w, Alone(w, o, 34), ExecuteEntries(o.action, |w.db.trace|), Finishing, w.steps + 1,
                  Decision(o.action, |w.db.trace|, None))
  {
    hide LoopStep, Alone;
    StepDecides(w, o);
    AloneOn(w, o, 24, 10);
    GateExecutes(Alone(w, o, 24), o);
  }

  function StepEntries(action: Action, at: nat): seq<Event> {
    ExecuteEntries(action, at) + [Appended(true, ActionCompleted)]
  }

  /** An execute that succeeds ends the step, or the run if the action was its last. */
  lemma StepSucceeds(w: World, o: Outside)
    requires w.pc.LoopHead? && w.steps < w.config.maxSteps && Free(w.db.run.status)
    requires Plain(w, o.action) && !o.raises && o.ok
    ensures var w' := Alone(w, o, 35); var entries := StepEntries(o.action, |w.db.trace|);
            if o.done || o.action.kind.Done?
            then Moved(w, w', entries + [Appended(true, RunSucceeded)], Returned, w.steps + 1, w'.d)
                 && w'.outcome.Succeeded?
            else Moved(w, w', entries, LoopHead, w.steps + 1, w'.d)
  {
    hide Note, Faithful, Alone;
    StepExecutes(w, o);
    AloneOn(w, o, 34, 1);
    AloneOnce(Alone(w, o, 34), o);
  }

  /** An execute that fails ends the run, unless a step retry was armed: that lets the loop
      take one more step, and is used up. */
  lemma StepFails(w: World, o: Outside)
    requires w.pc.LoopHead? && w.steps < w.config.maxSteps && Free(w.db.run.status)
    requires Plain(w, o.action) && !o.raises && !o.ok && w.signals < |w.db.objects|
    ensures var w' := Alone(w, o, 36); var own := w.db.objects[w.signals];
            && w'.db.trace == w.db.trace + ExecuteEntries(o.action, |w.db.trace|)
                              + [Appended(true, ActionFailed),
                                 Appended(true, if own.stepRetryArmed then StepRetry else RunFailed)]
            && (if own.stepRetryArmed then w'.pc.LoopHead? else w'.pc.Returned? && w'.outcome.Failed?)
            && w'.db.objects == w.db.objects[w.signals := own.(stepRetryArmed := false)]
            && w'.steps == w.steps + 1 && w'.db.run == w.db.run && w'.db.approvals == w.db.approvals
  {
    hide Note, Faithful, Alone;
    StepExecutes(w, o);
    AloneOn(w, o, 34, 1);
    AloneOnce(Alone(w, o, 34), o);
    AloneOn(w, o, 35, 1);
    AloneOnce(Alone(w, o, 35), o);
  }

  // ---------- whole runs ----------

  /** The entries of n steps in a row. */
  function StepsEntries(action: Action, at: nat, n: nat): seq<Event> {
    if n == 0 then [] else StepsEntries(action, at, n - 1) + StepEntries(action, at + 7 * (n - 1))
  }

  lemma {:induction false} StepsCount(action: Action, at: nat, n: nat)
    ensures |StepsEntries(action, at, n)| == 7 * n
  {
    if n > 0 { StepsCount(action, at, n - 1); }
  }

  lemma {:induction false} StepsRepeat(w: World, o: Outside, n: nat)
    requires w.pc.LoopHead? && w.steps + n <= w.config.maxSteps && Free(w.db.run.status)
    requires Plain(w, o.action) && !o.action.kind.Done? && !o.raises && o.ok && !o.done
    ensures var w' := Alone(w, o, 35 * n);
            Moved(w, w', StepsEntries(o.action, |w.db.trace|, n), LoopHead, w.steps + n, w'.d)
  {
    hide LoopStep;
    if n > 0 {
      StepsRepeat(w, o, n - 1);
      StepsCount(o.action, |w.db.trace|, n - 1);
      hide Alone;
      AloneOn(w, o, 35 * (n - 1), 35);
      StepSucceeds(Alone(w, o, 35 * (n - 1)), o);
    }
  }

  /** A start spawns a task for an idle run that has not ended, and does nothing else. */
  lemma StartSpawnsIff(w: World)
    ensures
      var w' := Operate(w, Start);
      if w.pc.Idle? && !w.db.run.status.Terminal() then
        && w'.pc.Spawned? && w'.steps == 0 && w'.db.run == w.db.run.(status := Running)
        && w'.db.trace == w.db.trace + (if w.db.run.status.Running? then []
                                        else [StatusWritten(StartCall, w.db.run.status, Running)])
        && w'.db.approvals == w.db.approvals && w'.db.objects == w.db.objects && w'.db.hub == w.db.hub
      else w' == w
  {
    hide Note, Faithful;
  }

  /** A restart loses the worker and its signals, and fails a run that was under way. */
  lemma RestartFailsRun(w: World)
    ensures
      var w', s := Operate(w, Restart), w.db.run.status;
      && w'.pc.Idle? && w'.db.hub.None?
      && (if s in {Running, Paused, AwaitingApproval, AwaitingHuman} then
            && w'.db.run == RunRow(Failed, true)
            && w'.db.trace == w.db.trace + [StatusWritten(RecoverCall, s, Failed), Appended(false, RunFailed)]
          else w'.db.run == w.db.run && w'.db.trace == w.db.trace && w'.db.approvals == w.db.approvals)
      && (!s.AwaitingApproval? ==> w'.db.approvals == w.db.approvals)
      && (s.AwaitingApproval? && PendingApproval(w.db.approvals).Some? ==>
            w'.db.approvals == w.db.approvals[PendingApproval(w.db.approvals).value := Denied])
  {
    hide Note, Faithful;
  }

  /** The worker starts the loop ... */
  lemma TaskBegins(config: Config, o: Outside)
    requires !o.raises
    ensures var w := Alone(Operate(Created(config), Start), o, 1);
            && w.db.trace == [StatusWritten(StartCall, Queued, Running), LoopStarted, Appended(true, RunStarted)]
            && w.db.run == RunRow(Running, false) && w.db.hub == Some(w.signals) && w.db.objects == [NO_SIGNALS]
            && w.pc.LoopHead? && w.steps == 0 && w.config == config && w.db.approvals == []
  {
    hide Note, Faithful;
    AloneOnce(Operate(Created(config), Start), o);
  }

  /** ... and stores its outcome when it has returned. */
  lemma TaskEnds(w: World, o: Outside)
    requires w.pc.Returned? && w.db.run.status.Running? && w.outcome.Terminal()
    ensures var w' := Alone(w, o, 2);
            && w'.db.trace == w.db.trace + [StatusWritten(OutcomePersisted, Running, w.outcome)]
            && w'.db.run == RunRow(w.outcome, true) && w'.db.hub.None? && w'.pc.Idle?
  {
    hide Note, Faithful, Alone;
    AloneOnce(w, o);
    AloneOn(w, o, 1, 1);
    AloneOnce(Alone(w, o, 1), o);
  }

  const BEGUN := [StatusWritten(StartCall, Queued, Running), LoopStarted, Appended(true, RunStarted)]

  /** A started run that nobody disturbs and whose actions never finish the task executes
      exactly max_steps actions, each on its own observation, and then fails. */
  lemma UndisturbedRunUsesItsSteps(config: Config, o: Outside)
    requires o.action.kind.BrowserAction? && !o.action.gated && !o.raises && o.ok && !o.done
    ensures var w := Run(Created(config), [OfOperator(Start)] + Turns(o, 35 * config.maxSteps + 4));
            && w.db.trace == BEGUN + StepsEntries(o.action, 3, config.maxSteps)
                             + [Appended(true, RunFailed), StatusWritten(OutcomePersisted, Running, Failed)]
            && w.db.run == RunRow(Failed, true) && w.pc.Idle? && w.db.hub.None?
  {
    hide Note, Faithful, Alone;
    var n := config.maxSteps;
    var w0 := Operate(Created(config), Start);
    assert Run(Created(config), [OfOperator(Start)]) == w0 by {
      assert [OfOperator(Start)][..0] == [];
    }
    AloneIsRun(Created(config), [OfOperator(Start)], o, 35 * n + 4);
    TaskBegins(config, o);
    hide Run, Operate;
    var w1 := Alone(w0, o, 1);
    StepsRepeat(w1, o, n);
    AloneOn(w0, o, 1, 35 * n);
    var w2 := Alone(w0, o, 35 * n + 1);
    AloneOn(w0, o, 35 * n + 1, 1);
    AloneOnce(w2, o);
    var w3 := Alone(w0, o, 35 * n + 2);
    AloneOn(w0, o, 35 * n + 2, 2);
    TaskEnds(w3, o);
  }

  // ---------- approval ----------

  /** A gated action opens a row of its own and parks the run before anything is requested;
      without a timeout nothing is waited for. */
  lemma GatedStepParks(w: World, o: Outside)
    requires w.pc.LoopHead? && w.steps < w.config.maxSteps && Free(w.db.run.status)
    requires o.action.gated && !o.raises
    ensures var w' := Alone(w, o, 26); var row := |w.db.approvals|; var at := |w.db.trace|;
            && w'.db.trace == w.db.trace + SEEN
                              + [Appended(true, DecisionMade), Appended(true, AuditKind.ApprovalRequested),
                                 GateOpened(row, o.action, at),
                                 StatusWritten(LoopSetStatus, w.db.run.status, AwaitingApproval)]
            && w'.db.approvals == w.db.approvals + [Requested] && w'.db.run.status.AwaitingApproval?
            && w'.d == Decision(o.action, at, Some(row))
            && w'.pc == if w.config.timed then ApprovalCancel else FinalizingTimeout
  {
    hide Note, Faithful, Alone;
    StepDecides(w, o);
    AloneOn(w, o, 24, 1);
    AloneOnce(Alone(w, o, 24), o);
    AloneOn(w, o, 25, 1);
    AloneOnce(Alone(w, o, 25), o);
  }

  predicate Waiting(w: World) {
    w.pc.ApprovalCancel? || w.pc.ApprovalTake? || w.pc.ApprovalDeadline?
  }

  lemma WaitGoesOn(w: World, o: Outside)
    requires Waiting(w) && !w.db.run.status.Cancelled? && !o.expired
    requires w.signals < |w.db.objects| && w.db.objects[w.signals].decision.None?
    ensures var w' := LoopStep(w, o); Waiting(w') && w'.db == w.db && w'.d == w.d && w'.signals == w.signals
  {
    hide Note, Faithful;
    var own := w.db.objects[w.signals];
    assert own.(decision := None) == own && w.db.objects[w.signals := own] == w.db.objects;
  }

  /** As long as no verdict comes and the time is not up, the loop only waits. */
  lemma {:induction false} UnansweredGateWaits(w: World, o: Outside, n: nat)
    requires Waiting(w) && !w.db.run.status.Cancelled? && !o.expired
    requires w.signals < |w.db.objects| && w.db.objects[w.signals].decision.None?
    ensures var w' := Alone(w, o, n); Waiting(w') && w'.db == w.db && w'.d == w.d && w'.signals == w.signals
  {
    hide LoopStep;
    if n > 0 {
      UnansweredGateWaits(w, o, n - 1);
      WaitGoesOn(Alone(w, o, n - 1), o);
    }
  }

  /** The verdict of this run's newest requested row reaches the waiting loop. */
  predicate Answerable(w: World) {
    && w.pc.ApprovalCancel? && w.db.run.status.AwaitingApproval?
    && w.db.hub == Some(w.signals) && w.signals < |w.db.objects|
    && w.d.approval.Some? && PendingApproval(w.db.approvals) == w.d.approval
  }

  /** The waiting loop takes the grant, once, and is at its execute gate again. */
  lemma GrantIsTaken(w: World, o: Outside)
    requires Answerable(w)
    ensures var w' := Alone(Operate(w, Approve), o, 3); var row := w.d.approval.value;
            && w'.db.trace == w.db.trace
                              + [ApprovedRow(row), StatusWritten(ApproveCall, AwaitingApproval, Running),
                                 Appended(false, ApprovalGranted), StatusWritten(LoopSetStatus, Running, Running)]
            && w'.db.approvals == w.db.approvals[row := Granted] && w'.db.run == w.db.run.(status := Running)
            && w'.pc.GateFirstCancel? && w'.where.BeforeExecute? && w'.d == w.d && w'.config == w.config
            && w'.db.objects == w.db.objects[w.signals := w.db.objects[w.signals].(decision := None)]
  {
    hide Note, Faithful, Alone;
    var w0 := Operate(w, Approve);
    AloneOnce(w0, o);
    AloneOn(w0, o, 1, 1);
    AloneOnce(Alone(w0, o, 1), o);
    AloneOn(w0, o, 2, 1);
    AloneOnce(Alone(w0, o, 2), o);
  }

  /** An approved action is executed, once its gate has been passed again. */
  lemma ApprovedActionIsExecuted(w: World, o: Outside)
    requires Answerable(w) && !o.raises && Plain(w, w.d.action.(gated := false))
    ensures var w' := Alone(Operate(w, Approve), o, 13); var row := w.d.approval.value;
            && w'.db.trace == w.db.trace
                              + [ApprovedRow(row), StatusWritten(ApproveCall, AwaitingApproval, Running),
                                 Appended(false, ApprovalGranted), StatusWritten(LoopSetStatus, Running, Running),
                                 Appended(true, ActionRequested), GuardPassed, ExecStarted(w.d)]
            && w'.db.approvals == w.db.approvals[row := Granted] && w'.pc.Finishing?
  {
    hide Alone, Operate, LoopStep;
    GrantIsTaken(w, o);
    AloneOn(Operate(w, Approve), o, 3, 10);
    GateExecutes(Alone(Operate(w, Approve), o, 3), o);
  }

  /** A rejected action is never requested: the loop returns failed without another entry. */
  lemma RejectedActionEndsRun(w: World, o: Outside)
    requires Answerable(w)
    ensures var w' := Alone(Operate(w, Reject), o, 2); var row := w.d.approval.value;
            && w'.db.trace == w.db.trace
                              + [RejectedRow(row), StatusWritten(RejectCall, AwaitingApproval, Failed),
                                 Appended(false, ApprovalDenied)]
            && w'.db.approvals == w.db.approvals[row := Denied] && w'.db.run == RunRow(Failed, true)
            && w'.pc.Returned? && w'.outcome.Failed?
  {
    hide Note, Faithful, Alone;
    var w0 := Operate(w, Reject);
    AloneOnce(w0, o);
    AloneOn(w0, o, 1, 1);
    AloneOnce(Alone(w0, o, 1), o);
  }

  /** A wait whose time is up denies its row and fails the run. */
  lemma TimedOutGateEndsRun(w: World, o: Outside)
    requires w.pc.ApprovalDeadline? && w.db.run.status.AwaitingApproval? && o.expired
    requires w.d.approval.Some? && w.d.approval.value < |w.db.approvals|
    requires w.db.approvals[w.d.approval.value].Requested?
    ensures var w' := Alone(w, o, 3);
            && w'.db.trace == w.db.trace
                              + [Appended(true, ApprovalTimeout),
                                 StatusWritten(LoopSetStatus, AwaitingApproval, Failed)]
            && w'.db.approvals == w.db.approvals[w.d.approval.value := Denied]
            && w'.db.run == RunRow(Failed, true) && w'.pc.Returned? && w'.outcome.Failed?
  {
    hide Note, Faithful, Alone;
    AloneOnce(w, o);
    AloneOn(w, o, 1, 1);
    AloneOnce(Alone(w, o, 1), o);
    AloneOn(w, o, 2, 1);
    AloneOnce(Alone(w, o, 2), o);
  }

  // ---------- research ----------

  /** The execute gate of a research step leads to the page and to the model's gate: one read,
      or three while more is to be read; a synthesis reads nothing. */
  lemma GateReads(w: World, o: Outside)
    requires w.pc.GateFirstCancel? && w.where.BeforeExecute? && Free(w.db.run.status)
    requires w.config.research && !o.raises
    requires w.d.action.kind.Extract? || w.d.action.kind.Done?
    ensures var n := if o.more && w.d.action.kind.Extract? then 10 else 8; var w' := Alone(w, o, n);
            Moved(w, w', [], GateFirstCancel, w.steps, w.d) && w'.where.BeforeModel?
  {
    hide Note, Faithful, Alone;
    GatePasses(w, o);
    AloneOn(w, o, 7, 1);
    AloneOnce(Alone(w, o, 7), o);
    AloneOn(w, o, 8, 1);
    AloneOnce(Alone(w, o, 8), o);
    AloneOn(w, o, 9, 1);
    AloneOnce(Alone(w, o, 9), o);
  }

  /** From the model's gate to the saved result. */
  lemma ModelIsAsked(w: World, o: Outside)
    requires w.pc.GateFirstCancel? && w.where.BeforeModel? && Free(w.db.run.status) && !o.raises
    requires w.d.action.kind.Extract? || w.d.action.kind.Done?
    ensures var asked := o.more || w.d.action.kind.Done?; var w' := Alone(w, o, 15);
            Moved(w, w', if asked then [Appended(true, ModelCall)] else [], Recording, w.steps, w.d)
  {
    hide Note, Faithful, Alone;
    GatePasses(w, o);
    AloneOn(w, o, 7, 1);
    AloneOnce(Alone(w, o, 7), o);
    var w1 := Alone(w, o, 8);
    GatePasses(w1, o);
    AloneOn(w, o, 8, 7);
  }

  /** A research step saves its evidence and goes on; a synthesis saves its result and ends
      the run. */
  lemma ResearchIsSaved(w: World, o: Outside)
    requires w.pc.GateFirstCancel? && w.where.BeforeExecute? && Free(w.db.run.status)
    requires w.config.research && !o.raises
    requires w.d.action.kind.Extract? || w.d.action.kind.Done?
    ensures var n := if o.more && w.d.action.kind.Extract? then 26 else 24; var w' := Alone(w, o, n);
            if w.d.action.kind.Extract?
            then w'.pc.LoopHead?
                 && w'.db.trace == w.db.trace + (if o.more then [Appended(true, ModelCall)] else [])
                                   + [Appended(true, ResearchEvidence)]
            else w'.pc.Returned? && w'.outcome.Succeeded?
                 && w'.db.trace == w.db.trace + [Appended(true, ModelCall), Appended(true, ResearchResult),
                                                 Appended(true, RunSucceeded)]
  {
    hide Note, Faithful, Alone;
    var n := if o.more && w.d.action.kind.Extract? then 10 else 8;
    GateReads(w, o);
    AloneOn(w, o, n, 15);
    ModelIsAsked(Alone(w, o, n), o);
    AloneOn(w, o, n + 15, 1);
    AloneOnce(Alone(w, o, n + 15), o);
  }

  // ---------- errors and holds ----------

  /** The calls of the loop that can raise; no page is read for an extraction while a human
      holds the browser. */
  predicate CanRaise(w: World) {
    || w.pc.Spawned? || w.pc.Observing? || w.pc.Deciding? || w.pc.OpeningGate? || w.pc.Modelling?
    || w.pc.Requesting? || w.pc.Finishing? || w.pc.Failing?
    || (w.pc.Reading?
        && !(w.config.research && w.d.action.kind.Extract? && w.db.run.status.AwaitingHuman?))
  }

  /** An error ends the run as failed wherever it is raised, and so does research without
      its models; a failed action and a failed model call have an entry of their own before. */
  lemma ErrorEndsRun(w: World, o: Outside)
    requires CanRaise(w) && (o.raises || (w.pc.Reading? && !w.config.research))
    ensures var w' := LoopStep(w, o);
            && w'.db.trace == w.db.trace
                              + (if w.pc.Spawned? then [LoopStarted] else [])
                              + (if o.ok then []
                                 else if w.pc.Requesting? || w.pc.Finishing? then [Appended(true, ActionFailed)]
                                 else if w.pc.Modelling? then [Appended(true, ModelCallFailed)]
                                 else [])
                              + [Appended(true, RunFailed)]
            && w'.pc.Returned? && w'.outcome.Failed? && w'.db.run == w.db.run && w'.db.approvals == w.db.approvals
  {
    hide Note, Faithful;
  }

  /** While a human holds the browser the guarded port answers with a refusal, and that is a
      failed action. */
  lemma HeldActionIsRefused(w: World, o: Outside)
    requires w.pc.GuardPoll? && w.db.run.status.AwaitingHuman? && !o.raises && w.signals < |w.db.objects|
    ensures var w' := Alone(w, o, 2); var armed := w.db.objects[w.signals].stepRetryArmed;
            && w'.db.trace == w.db.trace
                              + [ExecRefused, Appended(true, ActionFailed),
                                 Appended(true, if armed then StepRetry else RunFailed)]
            && (if armed then w'.pc.LoopHead? else w'.pc.Returned? && w'.outcome.Failed?)
  {
    hide Note, Faithful, Alone;
    AloneOnce(w, o);
    AloneOn(w, o, 1, 1);
    AloneOnce(Alone(w, o, 1), o);
  }

  lemma HeldGateWaits(w: World, o: Outside)
    requires w.pc.GateTakeover? && w.db.run.status.AwaitingHuman?
    ensures var held := Alone(w, o, 1);
            && held == w.(db := held.db, pc := GateHumanCancel, waited := true)
            && held.db.trace == w.db.trace + [HoldSeen] && held.db.run == w.db.run
            && Alone(held, o, 2) == held
  {
    hide Note, Faithful, Alone;
    AloneOnce(w, o);
    var held := LoopStep(w, o);
    AloneOnce(held, o);
    AloneOn(held, o, 1, 1);
    AloneOnce(LoopStep(held, o), o);
  }

  lemma ReleasedWaitEnds(w: World, o: Outside)
    requires w.pc.GateHumanCancel? && w.waited && w.db.run.status.AwaitingHuman?
    ensures var w' := Alone(Operate(w, ReleaseControl), o, 2);
            && w'.db.trace == w.db.trace
                              + [StatusWritten(ReleaseCall, AwaitingHuman, Running), Appended(false, TakeoverEnded)]
                              + (if w.where.BeforeDecide? || w.where.BeforeExecute? then [Appended(true, FreshObserve)]
                                 else [])
            && w'.pc == (if w.where.BetweenSteps? || w.where.BeforeObserve? then GatePauseCancel else LoopHead)
            && w'.steps == w.steps && w'.db.run == w.db.run.(status := Running)
  {
    hide Note, Faithful, Alone;
    var released := Operate(w, ReleaseControl);
    AloneOnce(released, o);
    AloneOn(released, o, 1, 1);
    AloneOnce(LoopStep(released, o), o);
  }

  /** A gate that finds the run held waits for the release; in mid-step it then drops the
      step, with a fresh_observe entry before a decision or an execute, and else goes on. */
  lemma ReleasedStepStartsOver(w: World, o: Outside)
    requires w.pc.GateTakeover? && w.db.run.status.AwaitingHuman?
    ensures
      var held := Alone(w, o, 1);
      var w' := Alone(Operate(held, ReleaseControl), o, 2);
      && Alone(held, o, 2) == held
      && w'.db.trace == w.db.trace
                        + [HoldSeen, StatusWritten(ReleaseCall, AwaitingHuman, Running), Appended(false, TakeoverEnded)]
                        + (if w.where.BeforeDecide? || w.where.BeforeExecute? then [Appended(true, FreshObserve)]
                           else [])
      && w'.pc == (if w.where.BetweenSteps? || w.where.BeforeObserve? then GatePauseCancel else LoopHead)
      && w'.steps == w.steps && w'.db.run == w.db.run.(status := Running)
  {
    hide LoopStep, Operate, Alone;
    HeldGateWaits(w, o);
    ReleasedWaitEnds(Alone(w, o, 1), o);
  }
}
