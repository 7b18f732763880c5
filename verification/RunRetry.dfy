/** Step retries are one-shot: over every history the loop has taken no more of them than
    retry calls were made, whichever signals objects came and went in between. */
module RunRetry {
  import opened Basics
  import opened RunModel
  import opened RunSteps

  /** A retry call earns one step retry; a step retry spends it. */
  function Earned(e: Event): int {
    if e == Appended(false, RetryRequested) then 1
    else if e == Appended(true, StepRetry) then -1
    else 0
  }

  function Balance(t: seq<Event>): int {
    if t == [] then 0 else Balance(t[..|t| - 1]) + Earned(t[|t| - 1])
  }

  function Armed(objects: seq<Signals>): nat {
    if objects == [] then 0
    else Armed(objects[..|objects| - 1]) + if objects[|objects| - 1].stepRetryArmed then 1 else 0
  }

  lemma BalanceGrows(t: seq<Event>, e: Event)
    ensures Balance(t + [e]) == Balance(t) + Earned(e)
  {
    assert (t + [e])[..|t|] == t;
  }

  lemma LogsGrow()
    ensures forall db: Db, e: Event :: Balance(Log(db, e).trace) == Balance(db.trace) + Earned(e)
  {
    forall db: Db, e: Event ensures Balance(Log(db, e).trace) == Balance(db.trace) + Earned(e) {
      BalanceGrows(db.trace, e);
    }
  }

  lemma ArmedGrows(objects: seq<Signals>, s: Signals)
    ensures Armed(objects + [s]) == Armed(objects) + if s.stepRetryArmed then 1 else 0
  {
    assert (objects + [s])[..|objects|] == objects;
  }

  lemma {:induction false} ArmedChanges(objects: seq<Signals>, i: nat, s: Signals)
    requires i < |objects|
    ensures Armed(objects[i := s])
            == Armed(objects) - (if objects[i].stepRetryArmed then 1 else 0) + if s.stepRetryArmed then 1 else 0
  {
    var n := |objects| - 1;
    if i < n {
      assert objects[i := s][..n] == objects[..n][i := s];
      ArmedChanges(objects[..n], i, s);
    } else {
      assert objects[i := s][..n] == objects[..n];
    }
  }

  /** Every armed signals object has been earned. */
  predicate Covered(db: Db) {
    Armed(db.objects) <= Balance(db.trace)
  }

  /** The state after a step that neither arms nor takes a step retry. */
  predicate Neutral(db: Db, db': Db) {
    Balance(db'.trace) == Balance(db.trace) && Armed(db'.objects) == Armed(db.objects)
  }

  lemma SignalsForNeutral(db: Db)
    ensures Neutral(db, SignalsFor(db).0)
  {
    ArmedGrows(db.objects, NO_SIGNALS);
  }

  lemma SetSignalsArmed(db: Db, i: nat, s: Signals)
    ensures s.stepRetryArmed == SignalsAt(db, i).stepRetryArmed ==> Neutral(db, SetSignals(db, i, s))
    ensures Armed(SetSignals(db, i, s).objects) <= Armed(db.objects) + 1
    ensures i < |db.objects| && db.objects[i].stepRetryArmed && !s.stepRetryArmed ==>
              Armed(SetSignals(db, i, s).objects) == Armed(db.objects) - 1
    ensures !s.stepRetryArmed ==> Armed(SetSignals(db, i, s).objects) <= Armed(db.objects)
    ensures SetSignals(db, i, s).trace == db.trace
  {
    if i < |db.objects| { ArmedChanges(db.objects, i, s); }
  }

  // ---------- the operator calls ----------

  lemma RetryCovered(db: Db)
    requires Covered(db) && RetryRun(db).Ok?
    ensures Covered(RetryRun(db).value)
  {
    LogsGrow();
    hide Balance, Armed, Note, Faithful;
    if !db.run.status.Failed? {
      var db0 := Append(db, false, RetryRequested);
      SignalsForNeutral(db0);
      var (db1, i) := SignalsFor(db0);
      SetSignalsArmed(db1, i, SignalsAt(db1, i).(stepRetryArmed := true));
    }
  }

  lemma DecideCovered(db: Db, granted: bool)
    requires Covered(db) && RunModel.Decide(db, granted).Ok?
    ensures Covered(RunModel.Decide(db, granted).value)
  {
    LogsGrow();
    hide Balance, Armed, Note, Faithful;
    var row := PendingApproval(db.approvals).value;
    var db1 := db.(approvals := db.approvals[row := if granted then Granted else Denied]);
    var db2 := Log(db1, if granted then ApprovedRow(row) else RejectedRow(row));
    var db3 :=
      if granted then Write(db2, ApproveCall, Running, db.run.finished) else Write(db2, RejectCall, Failed, true);
    var db4 := Append(db3, false, if granted then ApprovalGranted else ApprovalDenied);
    SignalsForNeutral(db4);
    var (db5, i) := SignalsFor(db4);
    SetSignalsArmed(db5, i, SignalsAt(db5, i).(decision := Some(if granted then Grant else Deny)));
  }

  lemma OperateCovered(w: World, call: Call)
    requires Covered(w.db)
    ensures Covered(Operate(w, call).db)
  {
    if call.Retry? {
      if RetryRun(w.db).Ok? { RetryCovered(w.db); }
    } else if call.Approve? || call.Reject? {
      if RunModel.Decide(w.db, call.Approve?).Ok? { DecideCovered(w.db, call.Approve?); }
    } else if call.Restart? || call.Start? {
      WorkerNeutral(w, call);
    } else {
      ControlNeutral(w, call);
    }
  }

  lemma WorkerNeutral(w: World, call: Call)
    requires call.Restart? || call.Start?
    ensures Neutral(w.db, Operate(w, call).db)
  {
    LogsGrow();
    hide Balance, Armed, Note, Faithful;
  }

  lemma ControlNeutral(w: World, call: Call)
    requires call.Pause? || call.Resume? || call.Cancel? || call.TakeControl? || call.ReleaseControl?
    ensures Neutral(w.db, Operate(w, call).db)
  {
    LogsGrow();
    hide Balance, Armed, Note, Faithful;
  }

  // ---------- the loop ----------

  lemma FailStepCovered(w: World, o: Outside)
    requires Covered(w.db)
    ensures Covered(FailStep(w, o).db)
  {
    LogsGrow();
    hide Balance, Armed, Note, Faithful;
    var own := SignalsAt(w.db, w.signals);
    SetSignalsArmed(Own(w, ActionFailed).db, w.signals, own.(stepRetryArmed := false));
  }

  lemma TakeStepNeutral(w: World)
    ensures Neutral(w.db, TakeStep(w).db)
  {
    SetSignalsArmed(w.db, w.signals, SignalsAt(w.db, w.signals).(decision := None));
  }

  lemma SpawnedNeutral(w: World, o: Outside)
    ensures Neutral(w.db, SpawnedStep(w, o).db)
  {
    LogsGrow();
    hide Balance, Armed, Note, Faithful;
    SignalsForNeutral(w.db);
  }

  lemma OpenGateNeutral(w: World, o: Outside)
    ensures Neutral(w.db, OpenGateStep(w, o).db)
  {
    LogsGrow();
    hide Balance, Armed, Note, Faithful;
    var db0 := Append(w.db, true, AuditKind.ApprovalRequested);
    var row := |db0.approvals|;
    var db1 := Log(db0.(approvals := db0.approvals + [Requested]), GateOpened(row, w.d.action, w.d.observedAt));
    SignalsForNeutral(db1);
    var (db2, i) := SignalsFor(db1);
    SetSignalsArmed(db2, i, SignalsAt(db2, i).(pendingApproval := Some(row)));
  }

  /** Every other step only logs events that neither earn nor spend. */
  lemma GateNeutral(w: World, o: Outside)
    requires w.pc.GateFirstCancel? || w.pc.GateTakeover? || w.pc.GateHumanCancel? || w.pc.GateHumanHeld?
             || w.pc.GatePauseCancel? || w.pc.GatePauseHeld? || w.pc.GateLastCancel?
    ensures Neutral(w.db, LoopStep(w, o).db)
  {
    LogsGrow();
    hide Balance, Armed, Note, Faithful;
  }

  lemma StepNeutral(w: World, o: Outside)
    requires w.pc.Idle? || w.pc.LoopHead? || w.pc.Observing? || w.pc.Deciding?
    ensures Neutral(w.db, LoopStep(w, o).db)
  {
    LogsGrow();
    hide Balance, Armed, Note, Faithful;
  }

  lemma ApprovalNeutral(w: World, o: Outside)
    requires w.pc.SettingAwaiting? || w.pc.ApprovalCancel? || w.pc.ApprovalDeadline? || w.pc.FinalizingTimeout?
             || w.pc.SettingFailed? || w.pc.SettingRunning?
    ensures Neutral(w.db, LoopStep(w, o).db)
  {
    LogsGrow();
    hide Balance, Armed, Note, Faithful;
  }

  lemma ResearchNeutral(w: World, o: Outside)
    requires w.pc.Reading? || w.pc.Modelling? || w.pc.Recording?
    ensures Neutral(w.db, LoopStep(w, o).db)
  {
    LogsGrow();
    hide Balance, Armed, Note, Faithful;
  }

  lemma ActNeutral(w: World, o: Outside)
    requires w.pc.Requesting? || w.pc.GuardPoll? || w.pc.Executing?
    ensures Neutral(w.db, LoopStep(w, o).db)
  {
    LogsGrow();
    hide Balance, Armed, Note, Faithful;
  }

  lemma EndNeutral(w: World, o: Outside)
    requires w.pc.Finishing? || w.pc.Returned? || w.pc.Discarding?
    ensures Neutral(w.db, LoopStep(w, o).db)
  {
    LogsGrow();
    hide Balance, Armed, Note, Faithful;
  }

  lemma LoopStepCovered(w: World, o: Outside)
    requires Covered(w.db)
    ensures Covered(LoopStep(w, o).db)
  {
    hide Balance, Armed, Note, Faithful;
    match w.pc
    case Spawned => SpawnedNeutral(w, o);
    case OpeningGate => OpenGateNeutral(w, o);
    case ApprovalTake => TakeStepNeutral(w);
    case Failing => FailStepCovered(w, o);
    case GateFirstCancel => GateNeutral(w, o);
    case GateTakeover => GateNeutral(w, o);
    case GateHumanCancel => GateNeutral(w, o);
    case GateHumanHeld => GateNeutral(w, o);
    case GatePauseCancel => GateNeutral(w, o);
    case GatePauseHeld => GateNeutral(w, o);
    case GateLastCancel => GateNeutral(w, o);
    case Reading => ResearchNeutral(w, o);
    case Modelling => ResearchNeutral(w, o);
    case Recording => ResearchNeutral(w, o);
    case Requesting => ActNeutral(w, o);
    case GuardPoll => ActNeutral(w, o);
    case Executing => ActNeutral(w, o);
    case Finishing => EndNeutral(w, o);
    case Returned => EndNeutral(w, o);
    case Discarding => EndNeutral(w, o);
    case Idle => StepNeutral(w, o);
    case LoopHead => StepNeutral(w, o);
    case Observing => StepNeutral(w, o);
    case Deciding => StepNeutral(w, o);
    case _ => ApprovalNeutral(w, o);
  }

  /** Over every history of a created run: never more step retries than retry calls. */
  lemma {:induction false} StepRetriesWereAskedFor(config: Config, labels: seq<Label>)
    ensures Covered(Run(Created(config), labels).db)
    ensures Balance(Run(Created(config), labels).db.trace) >= 0
  {
    if labels != [] {
      var before, l := labels[..|labels| - 1], labels[|labels| - 1];
      StepRetriesWereAskedFor(config, before);
      hide Balance, Armed, LoopStep, Operate, Created;
      match l
      case OfLoop(o) => LoopStepCovered(Run(Created(config), before), o);
      case OfOperator(call) => OperateCovered(Run(Created(config), before), call);
    }
  }
}
