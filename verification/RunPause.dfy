/** What a pause does: a loop that has seen it stays parked until it is cleared, and until
    the next status change at most one execute starts. */
module RunPause {
  import opened Basics
  import opened RunModel
  import opened RunSteps
  import opened RunInvariant
  import opened RunTrace
  import opened RunSafety

  // ---------- parked ----------

  predicate Parked(w: World) {
    w.pc.GatePauseCancel? || w.pc.GatePauseHeld?
  }

  /** The stored status is paused before and after every one of the labels. */
  ghost predicate StaysPaused(w: World, labels: seq<Label>) {
    forall n :: 0 <= n <= |labels| ==> Run(w, labels[..n]).db.run.status.Paused?
  }

  lemma ParkedStep(w: World, l: Label)
    requires Parked(w) && w.db.run.status.Paused? && Step(w, l).db.run.status.Paused?
    ensures Parked(Step(w, l)) && Step(w, l) == w.(db := Step(w, l).db, pc := Step(w, l).pc)
    ensures l.OfLoop? ==> Step(w, l).db == w.db
  {
  }

  /** Whatever the loop and the operators do while a parked run stays paused, the loop only
      goes on polling. */
  lemma {:induction false} PausedLoopStaysParked(w: World, labels: seq<Label>)
    requires Parked(w) && StaysPaused(w, labels)
    ensures Parked(Run(w, labels))
    ensures Run(w, labels) == w.(db := Run(w, labels).db, pc := Run(w, labels).pc)
  {
    assert labels[..|labels|] == labels;
    if labels != [] {
      var before := labels[..|labels| - 1];
      forall n | 0 <= n <= |before| ensures Run(w, before[..n]).db.run.status.Paused? {
        assert before[..n] == labels[..n];
      }
      PausedLoopStaysParked(w, before);
      hide Step;
      ParkedStep(Run(w, before), labels[|labels| - 1]);
    }
  }

  /** Once the pause is cleared, the loop leaves its wait at its next look, unless it finds
      the run cancelled. */
  lemma ClearedPauseLetsGo(w: World, o: Outside, o': Outside)
    requires Parked(w) && !w.db.run.status.Paused? && !w.db.run.status.Cancelled?
    ensures w.pc.GatePauseHeld? ==> LoopStep(w, o) == w.(pc := GateLastCancel)
    ensures w.pc.GatePauseCancel? ==> LoopStep(LoopStep(w, o), o') == w.(pc := GateLastCancel)
  {
  }

  // ---------- at most one execute ----------

  /** Executes since the last status was written. */
  function Started(t: seq<Event>): nat {
    if t == [] || t[|t| - 1].StatusWritten? then 0
    else Started(t[..|t| - 1]) + if t[|t| - 1].ExecStarted? then 1 else 0
  }

  /** Every execute of a paused run is the first since the status was written. */
  predicate PausesHold(t: seq<Event>) {
    t != [] ==>
      && PausesHold(t[..|t| - 1])
      && (t[|t| - 1].ExecStarted? && Summary(t[..|t| - 1]).status.Paused? ==> Started(t[..|t| - 1]) == 0)
  }

  lemma LogsGrow()
    ensures forall db: Db, e: Event ::
              && Started(Log(db, e).trace)
                 == (if e.StatusWritten? then 0 else Started(db.trace) + if e.ExecStarted? then 1 else 0)
              && (!e.ExecStarted? ==> PausesHold(Log(db, e).trace) == PausesHold(db.trace))
  {
    forall db: Db, e: Event
      ensures Started(Log(db, e).trace)
              == (if e.StatusWritten? then 0 else Started(db.trace) + if e.ExecStarted? then 1 else 0)
      ensures !e.ExecStarted? ==> PausesHold(Log(db, e).trace) == PausesHold(db.trace)
    {
      assert (db.trace + [e])[..|db.trace|] == db.trace;
    }
  }

  /** The loop can reach the inner port without looking at the pause again. */
  predicate PastPausePoll(w: World) {
    PastLastCancelPoll(w.pc) || (w.pc.GateLastCancel? && w.where.BeforeExecute?)
  }

  predicate PauseInv(w: World) {
    && PausesHold(w.db.trace)
    && (w.db.run.status.Paused? && PastPausePoll(w) ==> Started(w.db.trace) == 0)
  }

  lemma ExecuteKeepsPause(w: World, o: Outside)
    requires PauseInv(w) && Reached(w) && w.pc.Executing?
    ensures PauseInv(LoopStep(w, o))
  {
    assert Summary(w.db.trace).status == w.db.run.status by { hide FlowInv, SignalInv, RowsInv, VerdictInv; }
    var t := w.db.trace + [ExecStarted(w.d)];
    assert t[..|t| - 1] == w.db.trace;
    hide Inv, Note, Faithful, Summary;
  }

  lemma GateKeepsPause(w: World, o: Outside)
    requires PauseInv(w) && (InGate(w.pc) || w.pc.Idle? || w.pc.Spawned? || w.pc.LoopHead?)
    ensures PauseInv(LoopStep(w, o))
  {
    LogsGrow();
    hide Started, PausesHold, Note, Faithful;
  }

  lemma StepKeepsPause(w: World, o: Outside)
    requires PauseInv(w)
    requires w.pc.Observing? || w.pc.Deciding? || w.pc.OpeningGate? || GateOpen(w.pc)
    ensures PauseInv(LoopStep(w, o))
  {
    LogsGrow();
    hide Started, PausesHold, Note, Faithful;
  }

  lemma VerdictKeepsPause(w: World, o: Outside)
    requires PauseInv(w) && (w.pc.Returned? ==> w.outcome.Terminal())
    requires Leaving(w.pc) || w.pc.SettingRunning?
    ensures PauseInv(LoopStep(w, o))
  {
    LogsGrow();
    hide Started, PausesHold, Note, Faithful;
  }

  lemma ActionKeepsPause(w: World, o: Outside)
    requires PauseInv(w)
    requires w.pc.Reading? || w.pc.Modelling? || w.pc.Recording?
    ensures PauseInv(LoopStep(w, o))
  {
    LogsGrow();
    hide Started, PausesHold, Note, Faithful;
  }

  lemma RequestKeepsPause(w: World, o: Outside)
    requires PauseInv(w)
    requires w.pc.Requesting? || w.pc.GuardPoll? || w.pc.Finishing? || w.pc.Failing?
    ensures PauseInv(LoopStep(w, o))
  {
    LogsGrow();
    hide Started, PausesHold, Note, Faithful;
  }

  lemma CallKeepsPause(w: World, call: Call)
    requires PauseInv(w)
    ensures PauseInv(Operate(w, call))
  {
    LogsGrow();
    hide Started, PausesHold, Note, Faithful;
  }

  lemma LabelKeepsPause(w: World, l: Label)
    requires PauseInv(w) && Reached(w)
    ensures PauseInv(Step(w, l))
  {
    assert w.pc.Returned? ==> w.outcome.Terminal() by { hide FlowInv, SignalInv, RowsInv, VerdictInv; }
    hide PauseInv, Reached, LoopStep, Operate;
    match l
    case OfOperator(call) => CallKeepsPause(w, call);
    case OfLoop(o) =>
      if w.pc.Executing? { ExecuteKeepsPause(w, o); }
      else if InGate(w.pc) || w.pc.Idle? || w.pc.Spawned? || w.pc.LoopHead? { GateKeepsPause(w, o); }
      else if w.pc.Observing? || w.pc.Deciding? || w.pc.OpeningGate? || GateOpen(w.pc) { StepKeepsPause(w, o); }
      else if w.pc.Reading? || w.pc.Modelling? || w.pc.Recording? { ActionKeepsPause(w, o); }
      else if w.pc.Requesting? || w.pc.GuardPoll? || w.pc.Finishing? || w.pc.Failing? { RequestKeepsPause(w, o); }
      else { VerdictKeepsPause(w, o); }
  }

  lemma {:induction false} PauseIsKept(config: Config, labels: seq<Label>)
    ensures PauseInv(Run(Created(config), labels))
  {
    if labels != [] {
      var before := labels[..|labels| - 1];
      PauseIsKept(config, before);
      EveryStateIsSafe(config, before);
      hide PauseInv, Reached, Step, Created;
      LabelKeepsPause(Run(Created(config), before), labels[|labels| - 1]);
    }
  }

  // ---------- positions in the trace ----------

  predicate NoWrites(t: seq<Event>, i: int, j: int)
    requires -1 <= i && j <= |t|
  {
    forall k :: i < k < j ==> !t[k].StatusWritten?
  }

  /** Between a write of paused and the next status written at most one execute starts. */
  ghost predicate PauseRespected(t: seq<Event>) {
    forall i, j :: 0 <= i < j <= |t| && t[i].StatusWritten? && t[i].to.Paused? && NoWrites(t, i, j) ==>
      Executes(t[i + 1..j]) <= 1
  }

  lemma {:induction false} SincePause(t: seq<Event>, i: nat, j: nat)
    requires PausesHold(t) && i < j <= |t| && t[i].StatusWritten? && t[i].to.Paused? && NoWrites(t, i, j)
    ensures PausesHold(t[..j]) && Started(t[..j]) == Executes(t[i + 1..j]) <= 1
    ensures Summary(t[..j]).status.Paused?
    decreases |t|
  {
    var init := t[..|t| - 1];
    if j < |t| {
      assert init[..j] == t[..j] && init[i + 1..j] == t[i + 1..j];
      assert forall k :: 0 <= k < |init| ==> init[k] == t[k];
      SincePause(init, i, j);
    } else {
      assert t[..j] == t;
      if i < j - 1 {
        assert init[i + 1..j - 1] == t[i + 1..j][..j - i - 2];
        assert forall k :: 0 <= k < |init| ==> init[k] == t[k];
        SincePause(init, i, j - 1);
        assert init[..j - 1] == init;
      } else {
        assert t[i + 1..j] == [];
      }
    }
  }

  lemma HeldPausesAreRespected(t: seq<Event>)
    requires PausesHold(t)
    ensures PauseRespected(t)
  {
    forall i, j | 0 <= i < j <= |t| && t[i].StatusWritten? && t[i].to.Paused? && NoWrites(t, i, j)
      ensures Executes(t[i + 1..j]) <= 1
    {
      SincePause(t, i, j);
    }
  }

  /** In every history. */
  lemma PausesAreRespected(config: Config, labels: seq<Label>)
    ensures PauseRespected(Run(Created(config), labels).db.trace)
  {
    PauseIsKept(config, labels);
    HeldPausesAreRespected(Run(Created(config), labels).db.trace);
  }
}
