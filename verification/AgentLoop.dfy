/** The agent loop as it is written: nested methods that poll, wait, append and call out.
    What happens around the loop is a script; before each of its atomic actions the loop
    lets the operator calls that come first in the script take effect.  Every method keeps
    the loop in the state of the step system, so that the theorems about all runs of the
    step system are theorems about this code. */
module AgentLoop {
  import opened Basics
  import opened RunModel
  import opened RunSteps
  import opened RunServices
  import opened RunSafety
  import opened RunPause

  /** How a part of the loop ends: go on, start a new step, end the run, or never (the
      script has ended, or a restart has ended its worker). */
  datatype Flow = Go | Again | Stop(outcome: RunStatus) | Over

  predicate CancelPollAt(pc: Pc) {
    pc.GateFirstCancel? || pc.GateHumanCancel? || pc.GatePauseCancel? || pc.ApprovalCancel?
  }

  function AfterCancelPoll(pc: Pc): Pc
    requires CancelPollAt(pc)
  {
    match pc
    case GateFirstCancel => GateTakeover
    case GateHumanCancel => GateHumanHeld
    case GatePauseCancel => GatePauseHeld
    case ApprovalCancel => ApprovalTake
  }

  class AgentLoop {
    const config: Config
    const plane: ControlPlane
    var script: seq<Label>
    var steps: nat
    var signals: nat
    var d: Decision
    ghost const origin: World
    ghost const whole: seq<Label>
    ghost var done: seq<Label>
    ghost var w: World

    /** A spawned task on a run whose stored state is that of `origin`. */
    constructor (config: Config, plane: ControlPlane, script: seq<Label>, ghost origin: World,
                 steps: nat, signals: nat, d: Decision)
      requires plane.View() == origin.db && origin.config == config && origin.pc.Spawned?
      requires origin.steps == steps && origin.signals == signals && origin.d == d
      ensures Valid() && this.config == config && this.plane == plane && this.script == script
      ensures w == this.origin == origin && w.pc.Spawned? && steps == origin.steps && whole == script
    {
      this.config, this.plane, this.script := config, plane, script;
      this.origin, this.whole := origin, script;
      this.steps, this.signals, this.d := steps, signals, d;
      this.done := [];
      this.w := origin;
    }

    /** The loop's variables and the stored state are those of the step system after the
        labels played so far. */
    ghost predicate InStep()
      reads this, plane
    {
      && w == Run(origin, done)
      && plane.View() == w.db
      && w.config == config && w.signals == signals && w.d == d
      && !w.pc.Idle?
    }

    /** ... and these are the script up to what is left of it. */
    ghost predicate Valid()
      reads this, plane
    {
      InStep() && done + script == whole
    }

    /** The same in the middle of the loop's turn, whose label is no longer in the script. */
    ghost predicate Turn(o: Outside)
      reads this, plane
    {
      InStep() && done + ([OfLoop(o)] + script) == whole
    }

    /** Nothing is left to play, or a restart has ended the worker. */
    ghost predicate Lost()
      reads this, plane
    {
      w == Run(origin, done) && plane.View() == w.db && done + script == whole && (w.pc.Idle? || script == [])
    }

    /** The flow and the program counter fit. */
    ghost predicate Ends(flow: Flow)
      reads this, plane
    {
      && (if flow.Over? then Lost() else Valid())
      && (flow.Again? ==> w.pc.LoopHead?)
      && (flow.Stop? ==> w.pc.Returned? && w.outcome == flow.outcome)
    }

    /** Unless its worker is gone, the script has become no longer. */
    ghost predicate Played(flow: Flow, before: nat)
      reads this
    {
      !flow.Over? ==> |script| <= before
    }

    /** The trace ends with these events. */
    ghost predicate Left(events: seq<Event>)
      reads plane
    {
      |events| <= |plane.trace| && plane.trace[|plane.trace| - |events|..] == events
    }

    // ---------- the world around the loop ----------

    /** One operator call, worker start or restart. */
    method Serve(call: Call)
      requires InStep()
      modifies plane, this`w, this`done
      ensures w == Operate(old(w), call) && done == old(done) + [OfOperator(call)] && w == Run(origin, done)
      ensures plane.View() == w.db
    {
      hide Run, Note, Faithful;
      ghost var w1 := Operate(w, call);
      match call {
        case Pause => var ok := plane.Pause();
        case Resume => var ok := plane.Resume();
        case Cancel => plane.Cancel();
        case Retry => var ok := plane.Retry();
        case TakeControl => var ok := plane.Take();
        case ReleaseControl => var ok := plane.Release();
        case Approve => var ok := plane.Judge(true);
        case Reject => var ok := plane.Judge(false);
        case Start =>
        case Restart => plane.hub := None; plane.Recover();
      }
      RunExtends(origin, done, OfOperator(call));
      done := done + [OfOperator(call)];
      w := w1;
    }

    /** Everything in the script up to the loop's next turn, and what that turn brings. */
    method Tick() returns (o: Option<Outside>)
      requires Valid()
      modifies plane, this`script, this`w, this`done
      ensures o.Some? ==> Turn(o.value) && w == old(w).(db := w.db) && |script| < |old(script)|
      ensures o.None? ==> Lost()
    {
      hide Run, Operate;
      while script != []
        invariant Valid() && w == old(w).(db := w.db) && |script| <= |old(script)|
        decreases |script|
      {
        var l := script[0];
        TakeLabel(done, script, whole);
        script := script[1..];
        match l {
          case OfLoop(outside) => return Some(outside);
          case OfOperator(call) =>
            CallKeepsPlace(w, call);
            Serve(call);
            if call.Restart? { return None; }
        }
      }
      return None;
    }

    /** The loop's turn is over: its variables are those after one step of the system. */
    ghost method Advance(o: Outside)
      requires w == Run(origin, done) && done + ([OfLoop(o)] + script) == whole && !LoopStep(w, o).pc.Idle?
      requires var w1 := LoopStep(w, o);
               plane.View() == w1.db && w1.config == config && w1.signals == signals && w1.d == d
      modifies this`w, this`done
      ensures Valid() && w == LoopStep(old(w), o)
    {
      hide Run, LoopStep, Note, Faithful;
      RunExtends(origin, done, OfLoop(o));
      assert (done + [OfLoop(o)]) + script == done + ([OfLoop(o)] + script);
      done := done + [OfLoop(o)];
      w := LoopStep(w, o);
    }

    /** An exception ends the run. */
    method EndFailed(o: Outside)
      requires Turn(o) && LoopStep(w, o) == Raise(w)
      modifies plane, this`w, this`done
      ensures Valid() && w == LoopStep(old(w), o)
    {
      hide Run, LoopStep, Note, Faithful;
      plane.Audit(true, RunFailed);
      Advance(o);
    }

    /** ... and some kinds of errors get an entry of their own first. */
    method EndRaised(o: Outside, kind: AuditKind)
      requires Turn(o) && LoopStep(w, o) == Raise(if o.ok then w else Own(w, kind))
      modifies plane, this`w, this`done
      ensures Valid() && w == LoopStep(old(w), o)
    {
      hide Run, LoopStep, Note, Faithful;
      if !o.ok { plane.Audit(true, kind); }
      plane.Audit(true, RunFailed);
      Advance(o);
    }

    // ---------- the control gate ----------

    method PollCancel() returns (flow: Flow)
      requires Valid() && CancelPollAt(w.pc)
      modifies plane, this`script, this`w, this`done
      ensures Ends(flow) && !flow.Again? && Played(flow, |old(script)|)
      ensures flow.Go? ==> w == old(w).(db := w.db, pc := AfterCancelPoll(old(w.pc))) && |script| < |old(script)|
      ensures flow.Go? ==> !plane.status.Cancelled?
      ensures flow.Stop? ==>
                plane.status.Cancelled? && flow.outcome.Cancelled? && Left([Appended(true, AuditKind.RunCancelled)])
    {
      hide Run, Note, Faithful;
      var o := Tick();
      if o.None? { return Over; }
      if plane.status.Cancelled? {
        plane.Audit(true, AuditKind.RunCancelled);
        Advance(o.value);
        return Stop(Cancelled);
      }
      Advance(o.value);
      return Go;
    }

    /** The takeover poll of a gate. */
    method PollTakeover() returns (o: Option<Outside>, held: bool)
      requires Valid() && w.pc.GateTakeover?
      modifies plane, this`script, this`w, this`done
      ensures o.None? ==> Lost()
      ensures o.Some? ==> Valid() && |script| < |old(script)|
      ensures o.Some? ==> w == old(w).(db := w.db, pc := GateHumanCancel, waited := held)
      ensures o.Some? ==> (held <==> plane.status.AwaitingHuman?) && (held ==> Left([HoldSeen]))
    {
      hide Run, Note, Faithful;
      o := Tick();
      if o.None? { return None, false; }
      held := plane.status.AwaitingHuman?;
      if held { plane.Record(HoldSeen); }
      Advance(o.value);
    }

    /** One look at the hold inside the wait: still held, or the wait ends, and with it the
        step if the takeover poll had seen the hold. */
    method PollHeld(where: Where, waited: bool) returns (flow: Flow, held: bool)
      requires Valid() && w.pc.GateHumanHeld? && w.waited == waited && w.where == where
      modifies plane, this`script, this`w, this`done
      ensures Ends(flow) && !flow.Stop? && Played(flow, |old(script)|)
      ensures flow.Again? ==> w.steps == old(w).steps
      ensures flow.Go? ==> |script| < |old(script)|
      ensures flow.Go? ==> w == old(w).(db := w.db, pc := if held then GateHumanCancel else GatePauseCancel)
      ensures flow.Again? ==> old(w).where.MidStep()
      ensures flow.Go? ==> (held <==> plane.status.AwaitingHuman?) && (!held ==> !(waited && where.MidStep()))
      ensures flow.Again? ==> !plane.status.AwaitingHuman? && waited
    {
      hide Run, Note, Faithful;
      var o := Tick();
      if o.None? { return Over, false; }
      held := plane.status.AwaitingHuman?;
      if held {
        if !waited { plane.Record(HoldMissed); }
        Advance(o.value);
        return Go, true;
      }
      if waited && where.MidStep() {
        if where.BeforeDecide? || where.BeforeExecute? { plane.Audit(true, FreshObserve); }
        Advance(o.value);
        return Again, false;
      }
      Advance(o.value);
      return Go, false;
    }

    /** wait_while_awaiting_human: two looks per turn, until cancelled or no longer held. */
    method WaitWhileAwaitingHuman(where: Where, waited: bool) returns (flow: Flow)
      requires Valid() && w.pc.GateHumanCancel? && w.waited == waited && w.where == where
      modifies plane, this`script, this`w, this`done
      ensures Ends(flow) && Played(flow, |old(script)|)
      ensures flow.Go? ==> w == old(w).(db := w.db, pc := GatePauseCancel) && |script| < |old(script)|
      ensures flow.Again? ==> where.MidStep() && w.steps == old(w).steps
      ensures flow.Go? ==> !plane.status.AwaitingHuman? && !(waited && where.MidStep())
      ensures flow.Again? ==> !plane.status.AwaitingHuman? && waited
    {
      hide Run, Note, Faithful;
      var held := true;
      while true
        invariant Valid() && w == old(w).(db := w.db) && |script| <= |old(script)|
        decreases |script|
      {
        flow := PollCancel();
        if !flow.Go? { return; }
        flow, held := PollHeld(where, waited);
        if !flow.Go? || !held { return; }
      }
    }

    /** One look at the pause inside its wait. */
    method PollPaused() returns (o: Option<Outside>, paused: bool)
      requires Valid() && w.pc.GatePauseHeld?
      modifies plane, this`script, this`w, this`done
      ensures o.None? ==> Lost()
      ensures o.Some? ==> Valid() && |script| < |old(script)|
      ensures o.Some? ==> w == old(w).(db := w.db, pc := if paused then GatePauseCancel else GateLastCancel)
      ensures o.Some? ==> (paused <==> plane.status.Paused?)
    {
      hide Run, Note, Faithful;
      o := Tick();
      if o.None? { return None, false; }
      paused := plane.status.Paused?;
      Advance(o.value);
    }

    /** wait_while_paused */
    method WaitWhilePaused() returns (flow: Flow)
      requires Valid() && w.pc.GatePauseCancel?
      modifies plane, this`script, this`w, this`done
      ensures Ends(flow) && !flow.Again? && Played(flow, |old(script)|)
      ensures flow.Go? ==> w == old(w).(db := w.db, pc := GateLastCancel) && |script| < |old(script)|
      ensures flow.Go? ==> !plane.status.Paused?
    {
      hide Run, Note, Faithful;
      while true
        invariant Valid() && w == old(w).(db := w.db) && |script| <= |old(script)|
        decreases |script|
      {
        flow := PollCancel();
        if !flow.Go? { return; }
        var o, paused := PollPaused();
        if o.None? { return Over; }
        if !paused { return Go; }
      }
    }

    /** The last poll of a gate, after which the loop acts. */
    method PollLast() returns (flow: Flow)
      requires Valid() && w.pc.GateLastCancel?
      modifies plane, this`script, this`w, this`done
      ensures Ends(flow) && !flow.Again? && Played(flow, |old(script)|)
      ensures flow.Go? ==> |script| < |old(script)| && w == PassGate(old(w).(db := w.db))
      ensures flow.Go? ==> !plane.status.Cancelled?
      ensures flow.Stop? ==>
                plane.status.Cancelled? && flow.outcome.Cancelled? && Left([Appended(true, AuditKind.RunCancelled)])
    {
      hide Run, Note, Faithful;
      var o := Tick();
      if o.None? { return Over; }
      if plane.status.Cancelled? {
        plane.Audit(true, AuditKind.RunCancelled);
        Advance(o.value);
        return Stop(Cancelled);
      }
      Advance(o.value);
      return Go;
    }

    /** Where a passed gate leads, all else but the stored state being as it was. */
    ghost predicate Passed(before: World)
      reads this, plane
    {
      exists waited :: w == PassGate(before.(db := w.db, pc := GateLastCancel, waited := waited))
    }

    /** _control_gate: cancel, takeover, pause, cancel again. */
    method ControlGate(where: Where) returns (flow: Flow)
      requires Valid() && w.pc.GateFirstCancel? && w.where == where
      modifies plane, this`script, this`w, this`done
      ensures Ends(flow) && Played(flow, |old(script)|)
      ensures flow.Go? ==> |script| < |old(script)| && Passed(old(w))
      ensures flow.Again? ==> where.MidStep() && w.steps == old(w).steps
      ensures flow.Go? ==> !plane.status.Cancelled?
    {
      hide Run, PassGate;
      flow := PollCancel();
      if !flow.Go? { return; }
      var o, waited := PollTakeover();
      if o.None? { return Over; }
      flow := WaitWhileAwaitingHuman(where, waited);
      if !flow.Go? { return; }
      flow := WaitWhilePaused();
      if !flow.Go? { return; }
      flow := PollLast();
    }

    // ---------- one step ----------

    method Observe() returns (flow: Flow)
      requires Valid() && w.pc.Observing?
      modifies plane, this`script, this`d, this`w, this`done
      ensures Ends(flow) && Played(flow, |old(script)|)
      ensures flow.Go? || flow.Again? ==> w.steps == old(w).steps
      ensures flow.Go? ==> w.pc.GateFirstCancel? && w.where.BeforeDecide?
      ensures !flow.Again?
      ensures flow.Go? ==> Left([Event.Observed, Appended(true, ObservationCaptured)])
      ensures flow.Go? ==> d.observedAt == |plane.trace| - 2
      ensures flow.Stop? ==> Left([Appended(true, RunFailed)])
    {
      hide Run, Note, Faithful;
      var o := Tick();
      if o.None? { return Over; }
      if o.value.raises {
        EndFailed(o.value);
        return Stop(Failed);
      }
      d := d.(observedAt := |plane.trace|);
      plane.Record(Observed);
      plane.Audit(true, ObservationCaptured);
      Advance(o.value);
      return Go;
    }

    method Decide() returns (flow: Flow)
      requires Valid() && w.pc.Deciding?
      modifies plane, this`script, this`d, this`w, this`done
      ensures Ends(flow) && Played(flow, |old(script)|)
      ensures flow.Go? || flow.Again? ==> w.steps == old(w).steps
      ensures flow.Go? ==> if d.action.gated then w.pc.OpeningGate? else w.pc.GateFirstCancel? && w.where.BeforeExecute?
      ensures !flow.Again?
    {
      hide Run, Note, Faithful;
      var o := Tick();
      if o.None? { return Over; }
      if o.value.raises {
        EndFailed(o.value);
        return Stop(Failed);
      }
      plane.Audit(true, DecisionMade);
      d := Decision(o.value.action, d.observedAt, None);
      Advance(o.value);
      return Go;
    }

    // ---------- approval ----------

    /** The approval_requested entry and the pending row. */
    method OpenRow() returns (flow: Flow)
      requires Valid() && w.pc.OpeningGate?
      modifies plane, this`script, this`d, this`w, this`done
      ensures Ends(flow) && Played(flow, |old(script)|)
      ensures flow.Go? || flow.Again? ==> w.steps == old(w).steps
      ensures flow.Go? ==> w.pc.SettingAwaiting?
      ensures !flow.Again?
    {
      hide Run, Note, Faithful;
      var o := Tick();
      if o.None? { return Over; }
      if o.value.raises {
        EndFailed(o.value);
        return Stop(Failed);
      }
      plane.Audit(true, AuditKind.ApprovalRequested);
      var row := plane.OpenApproval(d);
      d := d.(approval := Some(row));
      Advance(o.value);
      return Go;
    }

    /** The awaiting_approval status. */
    method ReportAwaiting() returns (flow: Flow)
      requires Valid() && w.pc.SettingAwaiting?
      modifies plane, this`script, this`d, this`w, this`done
      ensures Ends(flow) && Played(flow, |old(script)|)
      ensures flow.Go? || flow.Again? ==> w.steps == old(w).steps
      ensures flow.Go? ==> if config.timed then w.pc.ApprovalCancel? && !w.recheck else w.pc.FinalizingTimeout?
      ensures flow.Go? || flow.Over?
    {
      hide Run, Note, Faithful;
      var o := Tick();
      if o.None? { return Over; }
      plane.ReportStatus(AwaitingApproval);
      Advance(o.value);
      return Go;
    }

    /** consume_approval_decision: a verdict ends the wait, and is taken only once. */
    method TakeVerdict() returns (flow: Flow, verdict: Option<Verdict>)
      requires Valid() && w.pc.ApprovalTake?
      modifies plane, this`script, this`d, this`w, this`done
      ensures Ends(flow) && Played(flow, |old(script)|)
      ensures flow.Go? || flow.Again? ==> w.steps == old(w).steps
      ensures flow.Go? ==> verdict != Some(Deny) && |script| < |old(script)|
      ensures flow.Go? && verdict.Some? ==> w.pc.SettingRunning?
      ensures flow.Go? && verdict.None? ==>
                if old(w).recheck then w.pc.ApprovalCancel? && !w.recheck else w.pc.ApprovalDeadline?
      ensures flow.Stop? ==> flow.outcome.Failed?
      ensures !flow.Again?
    {
      hide Run, Note, Faithful;
      var o := Tick();
      if o.None? { return Over, None; }
      var own := plane.ReadSignals(signals);
      plane.StoreSignals(signals, own.(decision := None));
      Advance(o.value);
      match own.decision {
        case Some(Deny) => return Stop(Failed), own.decision;
        case Some(Grant) => return Go, own.decision;
        case None => return Go, None;
      }
    }

    method PollDeadline() returns (o: Option<Outside>, expired: bool)
      requires Valid() && w.pc.ApprovalDeadline?
      modifies plane, this`script, this`w, this`done
      ensures o.None? ==> Lost()
      ensures o.Some? ==> Valid() && |script| < |old(script)| && w.steps == old(w).steps
      ensures o.Some? ==> if expired then w.pc.FinalizingTimeout? else w.pc.ApprovalCancel? && w.recheck
    {
      hide Run, Note, Faithful;
      o := Tick();
      if o.None? { return None, false; }
      expired := o.value.expired;
      Advance(o.value);
    }

    /** wait_for_approval_decision: Go with a grant, or with none when the time is up. */
    method WaitForApprovalDecision() returns (flow: Flow, granted: bool)
      requires Valid() && if config.timed then w.pc.ApprovalCancel? && !w.recheck else w.pc.FinalizingTimeout?
      modifies plane, this`script, this`d, this`w, this`done
      ensures Ends(flow) && Played(flow, |old(script)|)
      ensures flow.Go? || flow.Again? ==> w.steps == old(w).steps
      ensures flow.Go? ==> if granted then w.pc.SettingRunning? else w.pc.FinalizingTimeout?
      ensures !flow.Again?
    {
      hide Run, Note, Faithful;
      if !config.timed { return Go, false; }
      while true
        invariant Valid() && w.pc.ApprovalCancel? && !w.recheck && w.steps == old(w).steps
        invariant |script| <= |old(script)|
        decreases |script|
      {
        var verdict: Option<Verdict>;
        flow := PollCancel();
        if !flow.Go? { return flow, false; }
        flow, verdict := TakeVerdict();
        if !flow.Go? { return flow, false; }
        if verdict.Some? { return Go, true; }
        var o, expired := PollDeadline();
        if o.None? { return Over, false; }
        if expired { return Go, false; }
        flow := PollCancel();
        if !flow.Go? { return flow, false; }
        flow, verdict := TakeVerdict();
        if !flow.Go? { return flow, false; }
        if verdict.Some? { return Go, true; }
      }
    }

    /** The timeout is recorded in the row and in the log. */
    method CloseGate() returns (flow: Flow)
      requires Valid() && w.pc.FinalizingTimeout?
      modifies plane, this`script, this`d, this`w, this`done
      ensures Ends(flow) && Played(flow, |old(script)|)
      ensures flow.Go? || flow.Again? ==> w.steps == old(w).steps
      ensures flow.Go? ==> w.pc.SettingFailed?
      ensures flow.Go? || flow.Over?
      ensures flow.Go? ==> Left([Appended(true, ApprovalTimeout)])
    {
      hide Run, Note, Faithful;
      var o := Tick();
      if o.None? { return Over; }
      plane.CloseTimedOut(d.approval);
      plane.Audit(true, ApprovalTimeout);
      Advance(o.value);
      return Go;
    }

    /** The failed status ends the run. */
    method ReportFailed() returns (flow: Flow)
      requires Valid() && w.pc.SettingFailed?
      modifies plane, this`script, this`d, this`w, this`done
      ensures Ends(flow) && Played(flow, |old(script)|)
      ensures flow.Go? || flow.Again? ==> w.steps == old(w).steps
      ensures flow.Stop? || flow.Over?
    {
      hide Run, Note, Faithful;
      var o := Tick();
      if o.None? { return Over; }
      plane.ReportStatus(Failed);
      Advance(o.value);
      return Stop(Failed);
    }

    /** The running status after a grant. */
    method ReportRunning() returns (flow: Flow)
      requires Valid() && w.pc.SettingRunning?
      modifies plane, this`script, this`d, this`w, this`done
      ensures Ends(flow) && Played(flow, |old(script)|)
      ensures flow.Go? || flow.Again? ==> w.steps == old(w).steps
      ensures flow.Go? ==> w.pc.GateFirstCancel? && w.where.BeforeExecute?
      ensures flow.Go? || flow.Over?
    {
      hide Run, Note, Faithful;
      var o := Tick();
      if o.None? { return Over; }
      plane.ReportStatus(Running);
      Advance(o.value);
      return Go;
    }

    /** Ask, wait, and go on only with a grant. */
    method AwaitApproval() returns (flow: Flow)
      requires Valid() && w.pc.OpeningGate?
      modifies plane, this`script, this`d, this`w, this`done
      ensures Ends(flow) && Played(flow, |old(script)|)
      ensures flow.Go? || flow.Again? ==> w.steps == old(w).steps
      ensures flow.Go? ==> w.pc.GateFirstCancel? && w.where.BeforeExecute?
      ensures !flow.Again?
    {
      hide Run, Note, Faithful;
      flow := OpenRow();
      if !flow.Go? { return; }
      flow := ReportAwaiting();
      if !flow.Go? { return; }
      var granted: bool;
      flow, granted := WaitForApprovalDecision();
      if !flow.Go? { return; }
      if !granted {
        flow := CloseGate();
        if !flow.Go? { return; }
        flow := ReportFailed();
        return;
      }
      flow := ReportRunning();
    }

    // ---------- execute ----------

    /** The action_requested entry; filling in the text of a TYPE_TEXT may raise. */
    method RequestAction() returns (flow: Flow)
      requires Valid() && w.pc.Requesting?
      modifies plane, this`script, this`d, this`w, this`done
      ensures Ends(flow) && Played(flow, |old(script)|)
      ensures flow.Go? || flow.Again? ==> w.steps == old(w).steps
      ensures flow.Go? ==> w.pc.GuardPoll?
      ensures !flow.Again?
    {
      hide Run, Note, Faithful;
      var o := Tick();
      if o.None? { return Over; }
      if o.value.raises {
        EndRaised(o.value, ActionFailed);
        return Stop(Failed);
      }
      plane.Audit(true, ActionRequested);
      Advance(o.value);
      return Go;
    }

    /** The guarded port: its own poll, then the inner port, or a refusal. */
    method GuardedExecute() returns (flow: Flow, refused: bool)
      requires Valid() && w.pc.GuardPoll?
      modifies plane, this`script, this`d, this`w, this`done
      ensures Ends(flow) && Played(flow, |old(script)|)
      ensures flow.Go? || flow.Again? ==> w.steps == old(w).steps
      ensures flow.Go? ==> if refused then w.pc.Failing? else w.pc.Finishing?
      ensures flow.Go? || flow.Over?
      ensures flow.Go? ==> if refused then Left([ExecRefused]) else Left([ExecStarted(d)])
      ensures flow.Go? && refused ==> plane.status.AwaitingHuman?
    {
      hide Run, Note, Faithful;
      var o := Tick();
      if o.None? { return Over, false; }
      if plane.status.AwaitingHuman? {
        plane.Record(ExecRefused);
        Advance(o.value);
        return Go, true;
      }
      plane.Record(GuardPassed);
      Advance(o.value);
      flow := ReachInnerPort();
      return flow, false;
    }

    method ReachInnerPort() returns (flow: Flow)
      requires Valid() && w.pc.Executing?
      modifies plane, this`script, this`d, this`w, this`done
      ensures Ends(flow) && Played(flow, |old(script)|)
      ensures flow.Go? || flow.Again? ==> w.steps == old(w).steps
      ensures flow.Go? ==> w.pc.Finishing?
      ensures flow.Go? || flow.Over?
      ensures flow.Go? ==> Left([ExecStarted(d)])
    {
      hide Run, Note, Faithful;
      var o := Tick();
      if o.None? { return Over; }
      plane.Record(ExecStarted(d));
      Advance(o.value);
      return Go;
    }

    /** What the browser answered: Go means that the action failed. */
    method TakeResult() returns (flow: Flow)
      requires Valid() && w.pc.Finishing?
      modifies plane, this`script, this`d, this`w, this`done
      ensures Ends(flow) && Played(flow, |old(script)|)
      ensures flow.Go? || flow.Again? ==> w.steps == old(w).steps
      ensures flow.Go? ==> w.pc.Failing?
      ensures flow.Again? ==> Left([Appended(true, ActionCompleted)])
      ensures flow.Stop? ==> Left([Appended(true, if flow.outcome.Succeeded? then RunSucceeded else RunFailed)])
    {
      hide Run, Note, Faithful;
      var o := Tick();
      if o.None? { return Over; }
      if o.value.raises {
        EndRaised(o.value, ActionFailed);
        return Stop(Failed);
      }
      if !o.value.ok {
        Advance(o.value);
        return Go;
      }
      plane.Audit(true, ActionCompleted);
      if o.value.done || d.action.kind.Done? {
        plane.Audit(true, RunSucceeded);
        Advance(o.value);
        return Stop(Succeeded);
      }
      Advance(o.value);
      return Again;
    }

    /** A failed action: another step if a retry was armed, else the end of the run. */
    method HandleFailure() returns (flow: Flow)
      requires Valid() && w.pc.Failing?
      modifies plane, this`script, this`d, this`w, this`done
      ensures Ends(flow) && Played(flow, |old(script)|)
      ensures flow.Go? || flow.Again? ==> w.steps == old(w).steps
      ensures !flow.Go?
      ensures flow.Again? ==> Left([Appended(true, ActionFailed), Appended(true, StepRetry)])
      ensures flow.Stop? ==> Left([Appended(true, RunFailed)])
    {
      hide Run, Note, Faithful, SetSignals, SignalsAt, PassGate;
      var o := Tick();
      if o.None? { return Over; }
      if o.value.raises {
        EndFailed(o.value);
        return Stop(Failed);
      }
      var own := plane.ReadSignals(signals);
      plane.Audit(true, ActionFailed);
      plane.StoreSignals(signals, own.(stepRetryArmed := false));
      if own.stepRetryArmed {
        plane.Audit(true, StepRetry);
        Advance(o.value);
        return Again;
      }
      plane.Audit(true, RunFailed);
      Advance(o.value);
      return Stop(Failed);
    }

    method Execute() returns (flow: Flow)
      requires Valid() && w.pc.Requesting?
      modifies plane, this`script, this`d, this`w, this`done
      ensures Ends(flow) && Played(flow, |old(script)|)
      ensures flow.Go? || flow.Again? ==> w.steps == old(w).steps
      ensures !flow.Go?
    {
      hide Run, Note, Faithful;
      flow := RequestAction();
      if !flow.Go? { return; }
      var refused: bool;
      flow, refused := GuardedExecute();
      if !flow.Go? { return; }
      if !refused {
        flow := TakeResult();
        if !flow.Go? { return; }
      }
      flow := HandleFailure();
    }

    // ---------- research ----------

    /** One read of the page, or the test for saved evidence before a synthesis. */
    method ReadOnce(round: nat) returns (flow: Flow, more: bool)
      requires Valid() && w.pc.Reading? && w.round == round
      modifies plane, this`script, this`d, this`w, this`done
      ensures Ends(flow) && Played(flow, |old(script)|)
      ensures flow.Go? || flow.Again? ==> w.steps == old(w).steps
      ensures flow.Go? ==> |script| < |old(script)|
      ensures flow.Go? ==>
                if more then w.pc.Reading? && w.round == round + 1
                else w.pc.GateFirstCancel? && w.where.BeforeModel?
      ensures flow.Again? ==> plane.status.AwaitingHuman? && d.action.kind.Extract?
    {
      hide Run, Note, Faithful;
      var o := Tick();
      if o.None? { return Over, false; }
      if !config.research {
        EndFailed(o.value);
        return Stop(Failed), false;
      }
      if d.action.kind.Extract? && plane.status.AwaitingHuman? {
        Advance(o.value);
        return Again, false;
      }
      if o.value.raises {
        EndFailed(o.value);
        return Stop(Failed), false;
      }
      more := d.action.kind.Extract? && o.value.more && round < 2;
      Advance(o.value);
      return Go, more;
    }

    method CallModel() returns (flow: Flow)
      requires Valid() && w.pc.Modelling?
      modifies plane, this`script, this`d, this`w, this`done
      ensures Ends(flow) && Played(flow, |old(script)|)
      ensures flow.Go? || flow.Again? ==> w.steps == old(w).steps
      ensures flow.Go? ==> w.pc.GateFirstCancel? && w.where.AfterModel?
      ensures !flow.Again?
    {
      hide Run, Note, Faithful;
      var o := Tick();
      if o.None? { return Over; }
      if o.value.raises {
        EndRaised(o.value, ModelCallFailed);
        return Stop(Failed);
      }
      if o.value.more || d.action.kind.Done? { plane.Audit(true, ModelCall); }
      Advance(o.value);
      return Go;
    }

    method SaveResearch() returns (flow: Flow)
      requires Valid() && w.pc.Recording?
      modifies plane, this`script, this`d, this`w, this`done
      ensures Ends(flow) && Played(flow, |old(script)|)
      ensures flow.Go? || flow.Again? ==> w.steps == old(w).steps
      ensures !flow.Go?
    {
      hide Run, Note, Faithful;
      var o := Tick();
      if o.None? { return Over; }
      if d.action.kind.Extract? {
        plane.Audit(true, ResearchEvidence);
        Advance(o.value);
        return Again;
      }
      plane.Audit(true, ResearchResult);
      plane.Audit(true, RunSucceeded);
      Advance(o.value);
      return Stop(Succeeded);
    }

    method ResearchStep() returns (flow: Flow)
      requires Valid() && w.pc.Reading? && w.round == 0
      modifies plane, this`script, this`d, this`w, this`done
      ensures Ends(flow) && Played(flow, |old(script)|)
      ensures flow.Go? || flow.Again? ==> w.steps == old(w).steps
      ensures !flow.Go?
    {
      hide Run, Note, Faithful;
      var more, round := true, 0;
      while more
        invariant Valid() && w.steps == old(w).steps && |script| <= |old(script)|
        invariant if more then w.pc.Reading? && w.round == round else w.pc.GateFirstCancel? && w.where.BeforeModel?
        decreases |script|
      {
        flow, more := ReadOnce(round);
        if !flow.Go? { return; }
        round := round + 1;
      }
      flow := ControlGate(BeforeModel);
      if !flow.Go? { return; }
      flow := CallModel();
      if !flow.Go? { return; }
      flow := ControlGate(AfterModel);
      if !flow.Go? { return; }
      flow := SaveResearch();
    }

    // ---------- the step and the run ----------

    /** _step: observe, decide, approve, execute. */
    method Step() returns (flow: Flow)
      requires Valid() && w.pc.GateFirstCancel? && w.where.BeforeObserve?
      modifies plane, this`script, this`d, this`w, this`done
      ensures Ends(flow) && Played(flow, |old(script)|)
      ensures flow.Go? || flow.Again? ==> w.steps == old(w).steps
      ensures !flow.Go?
    {
      hide Run, Note, Faithful;
      flow := ControlGate(BeforeObserve);
      if !flow.Go? { return; }
      flow := Observe();
      if !flow.Go? { return; }
      flow := ControlGate(BeforeDecide);
      if !flow.Go? { return; }
      flow := Decide();
      if !flow.Go? { return; }
      if d.action.gated {
        flow := AwaitApproval();
        if !flow.Go? { return; }
      }
      flow := ControlGate(BeforeExecute);
      if !flow.Go? { return; }
      if d.action.kind.Extract? || (d.action.kind.Done? && config.research) {
        flow := ResearchStep();
      } else {
        flow := Execute();
      }
    }

    /** run_started, unless the loop cannot even begin. */
    method Begin() returns (flow: Flow)
      requires Valid() && w.pc.Spawned?
      modifies plane, this`script, this`signals, this`w, this`done
      ensures Ends(flow) && !flow.Again? && Played(flow, |old(script)|)
      ensures flow.Go? ==> w.pc.LoopHead? && w.steps == old(w).steps
    {
      hide Run, Note, Faithful;
      var o := Tick();
      if o.None? { return Over; }
      if o.value.raises {
        plane.Record(LoopStarted);
        plane.Audit(true, RunFailed);
        Advance(o.value);
        return Stop(Failed);
      }
      var i := plane.ObtainSignals();
      signals := i;
      plane.Record(LoopStarted);
      plane.Audit(true, RunStarted);
      Advance(o.value);
      return Go;
    }

    /** The head of the loop with steps left. */
    method EnterStep(o: Outside)
      requires Turn(o) && w.pc.LoopHead? && w.steps == steps < config.maxSteps
      modifies this`w, this`done
      ensures Valid() && w == EnterGate(old(w), BetweenSteps)
    {
      hide Run, Note, Faithful;
      Advance(o);
    }

    /** The head of the loop with no step left: max_steps_exceeded. */
    method RunOut(o: Outside)
      requires Turn(o) && w.pc.LoopHead? && w.steps == steps >= config.maxSteps
      modifies plane, this`w, this`done
      ensures Valid() && w.pc.Returned? && w.outcome.Failed?
    {
      hide Run, Note, Faithful;
      plane.Audit(true, RunFailed);
      Advance(o);
    }

    /** AgentLoop.run: at most max_steps steps.  It ends in the state of the step system that
        the played part of the script leads to, with that state's outcome; so its own log is
        closed when it returns, whatever happened to the run `before` and meanwhile. */
    method RunLoop(ghost before: seq<Label>) returns (flow: Flow)
      requires Valid() && w.pc.Spawned? && w.steps == steps == 0
      requires origin == Run(Created(config), before)
      modifies plane, this
      ensures flow.Stop? || flow.Over?
      ensures Ends(flow) && TraceIsSafe(plane.trace) && PauseRespected(plane.trace)
      ensures flow.Stop? ==> Closed(plane.View(), config.maxSteps, flow.outcome)
    {
      hide Run, TraceIsSafe, Closed, PauseRespected;
      flow := Repeat();
      CodeObeysTheProtocol(config, before, done);
    }

    /** The head of the loop and its turns. */
    method Repeat() returns (flow: Flow)
      requires Valid() && w.pc.Spawned? && w.steps == steps == 0
      modifies plane, this
      ensures flow.Stop? || flow.Over?
      ensures Ends(flow)
    {
      hide Run, LoopStep, Note, Faithful;
      flow := Begin();
      if !flow.Go? { return; }
      var o := Tick();
      while o.Some? && steps < config.maxSteps
        invariant if o.Some? then Turn(o.value) && w.pc.LoopHead? && w.steps == steps else Lost()
        decreases if o.Some? then |script| + 1 else 0
      {
        EnterStep(o.value);
        flow := ControlGate(BetweenSteps);
        if !flow.Go? { return; }
        steps := steps + 1;
        flow := Step();
        if !flow.Again? { return; }
        o := Tick();
      }
      if o.None? { return Over; }
      RunOut(o.value);
      return Stop(Failed);
    }

    // ---------- the worker around the loop ----------

    /** The outcome is written unless the stored status forbids it. */
    method PersistOutcome(outcome: RunStatus) returns (flow: Flow)
      requires Valid() && w.pc.Returned? && w.outcome == outcome
      modifies plane, this`script, this`w, this`done
      ensures flow.Go? || flow.Over?
      ensures Ends(flow) && (flow.Go? ==> w.pc.Discarding?)
    {
      hide Run, Note, Faithful;
      var o := Tick();
      if o.None? { return Over; }
      plane.Persist(outcome);
      Advance(o.value);
      return Go;
    }

    /** The done callback of the worker drops the signals of the run. */
    method DiscardSignals() returns (flow: Flow)
      requires Valid() && w.pc.Discarding?
      modifies plane, this`script, this`w, this`done
      ensures flow.Go? || flow.Over?
      ensures Lost() && (flow.Go? ==> w.pc.Idle?)
    {
      hide Run, Note, Faithful;
      var o := Tick();
      if o.None? { return Over; }
      plane.hub := None;
      RunExtends(origin, done, OfLoop(o.value));
      assert (done + [OfLoop(o.value)]) + script == done + ([OfLoop(o.value)] + script);
      done := done + [OfLoop(o.value)];
      w := LoopStep(w, o.value);
      return Go;
    }

    /** execute_run: the loop, the outcome, and the end of its worker, all of it a run of the
        step system from the spawned task on.  Whatever happened to the run `before` and
        meanwhile, the trace it leaves is safe. */
    method ExecuteRun(ghost before: seq<Label>) returns (flow: Flow)
      requires Valid() && w.pc.Spawned? && w.steps == steps == 0
      requires origin == Run(Created(config), before)
      modifies plane, this
      ensures flow.Stop? || flow.Over?
      ensures Lost() && (flow.Stop? ==> w.pc.Idle?)
      ensures TraceIsSafe(plane.trace) && PauseRespected(plane.trace)
    {
      hide Run, Note, Faithful, TraceIsSafe, Closed, PauseRespected;
      flow := RunLoop(before);
      if !flow.Stop? { return; }
      var tail := PersistOutcome(flow.outcome);
      if tail.Go? { tail := DiscardSignals(); }
      if !tail.Go? { flow := Over; }
      CodeObeysTheProtocol(config, before, done);
    }
  }

  lemma TakeLabel(done: seq<Label>, script: seq<Label>, whole: seq<Label>)
    requires done + script == whole && script != []
    ensures done + ([script[0]] + script[1..]) == whole
    ensures (done + [script[0]]) + script[1..] == whole
  {
    assert script == [script[0]] + script[1..];
  }

  lemma RunExtends(w: World, labels: seq<Label>, l: Label)
    ensures Run(w, labels + [l]) == Step(Run(w, labels), l)
  {
    assert (labels + [l])[..|labels|] == labels;
  }

  /** A call while the worker lives moves the loop only if it is a restart. */
  lemma CallKeepsPlace(w: World, call: Call)
    requires !w.pc.Idle?
    ensures !call.Restart? ==> Operate(w, call) == w.(db := Operate(w, call).db)
    ensures call.Restart? ==> Operate(w, call).pc.Idle?
  {
  }

  lemma {:induction false} RunConcat(w: World, a: seq<Label>, b: seq<Label>)
    ensures Run(w, a + b) == Run(Run(w, a), b)
  {
    if b == [] {
      assert a + b == a;
    } else {
      RunConcat(w, a, b[..|b| - 1]);
      assert (a + b)[..|a + b| - 1] == a + b[..|b| - 1];
    }
  }

  /** A task of any created run obeys the theorems about all runs. */
  lemma CodeObeysTheProtocol(config: Config, before: seq<Label>, done: seq<Label>)
    ensures var w := Run(Run(Created(config), before), done);
            && TraceIsSafe(w.db.trace) && PauseRespected(w.db.trace)
            && (w.pc.Returned? ==> Closed(w.db, config.maxSteps, w.outcome))
  {
    RunConcat(Created(config), before, done);
    hide Run, Reached, TraceIsSafe, Closed, PauseRespected;
    PausesAreRespected(config, before + done);
    EveryStateIsSafe(config, before + done);
    ReachedIsSafe(Run(Created(config), before + done));
    LoopEndsWithOneTerminalEvent(config, before + done);
  }
}
