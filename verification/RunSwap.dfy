/** Two states that differ only in the decision of one signals object stay so: no step sees
    the decision but the one that takes it. */
module RunSwap {
  import opened Basics
  import opened RunModel
  import opened RunSteps
  import opened RunInvariant
  import opened RunDelivery

  /** The same state but for the decision in one signals object. */
  function Swap(w: World, i: nat, g: Option<Verdict>): World
    requires i < |w.db.objects|
  {
    w.(db := w.db.(objects := w.db.objects[i := w.db.objects[i].(decision := g)]))
  }

  predicate Unseen(w: World, i: nat, g: Option<Verdict>, o: Outside)
    requires i < |w.db.objects|
  {
    i < |LoopStep(w, o).db.objects| && LoopStep(Swap(w, i, g), o) == Swap(LoopStep(w, o), i, g)
  }

  lemma TaskUnseen(w: World, i: nat, g: Option<Verdict>, o: Outside)
    requires i < |w.db.objects|
    requires w.pc.Idle? || w.pc.LoopHead? || w.pc.Spawned?
    ensures Unseen(w, i, g, o)
  {
    hide Note, Faithful;
  }

  lemma GatePollUnseen(w: World, i: nat, g: Option<Verdict>, o: Outside)
    requires i < |w.db.objects|
    requires w.pc.GateFirstCancel? || w.pc.GateTakeover? || w.pc.GateHumanCancel? || w.pc.GatePauseCancel?
             || w.pc.GatePauseHeld?
    ensures Unseen(w, i, g, o)
  {
    hide Note, Faithful;
  }

  lemma GateExitUnseen(w: World, i: nat, g: Option<Verdict>, o: Outside)
    requires i < |w.db.objects|
    requires w.pc.GateHumanHeld? || w.pc.GateLastCancel?
    ensures Unseen(w, i, g, o)
  {
    hide Note, Faithful;
  }

  lemma ObserveUnseen(w: World, i: nat, g: Option<Verdict>, o: Outside)
    requires i < |w.db.objects|
    requires w.pc.Observing? || w.pc.Deciding?
    ensures Unseen(w, i, g, o)
  {
    hide Note, Faithful;
  }

  function OpenRow(w: World): World {
    var (db, row) := CreatePendingApproval(w.db, w.d);
    w.(db := db, d := w.d.(approval := Some(row)), pc := SettingAwaiting)
  }

  lemma OpenRowSwapped(w: World, i: nat, g: Option<Verdict>)
    requires i < |w.db.objects|
    ensures i < |OpenRow(w).db.objects| && OpenRow(Swap(w, i, g)) == Swap(OpenRow(w), i, g)
  {
    hide Note, Faithful;
    var u, v := OpenRow(Swap(w, i, g)), Swap(OpenRow(w), i, g);
    assert u.db.objects == v.db.objects;
  }

  lemma OpenGateUnseen(w: World, i: nat, g: Option<Verdict>, o: Outside)
    requires i < |w.db.objects|
    requires w.pc.OpeningGate?
    ensures Unseen(w, i, g, o)
  {
    hide Log, Note, Faithful, CreatePendingApproval;
    OwnSwapped(w, i, g, RunFailed);
    OwnSwapped(w, i, g, ApprovalRequested);
    OpenRowSwapped(Own(w, ApprovalRequested), i, g);
  }

  lemma AwaitUnseen(w: World, i: nat, g: Option<Verdict>, o: Outside)
    requires i < |w.db.objects|
    requires w.pc.SettingAwaiting? || w.pc.ApprovalCancel? || w.pc.ApprovalDeadline?
    ensures Unseen(w, i, g, o)
  {
    hide Note, Faithful;
  }

  lemma TakeUnseen(w: World, i: nat, g: Option<Verdict>, o: Outside)
    requires i < |w.db.objects| && w.signals != i
    requires w.pc.ApprovalTake?
    ensures Unseen(w, i, g, o)
  {
    var u, v := LoopStep(Swap(w, i, g), o), Swap(LoopStep(w, o), i, g);
    assert u.db.objects == v.db.objects;
  }

  lemma TimeoutUnseen(w: World, i: nat, g: Option<Verdict>, o: Outside)
    requires i < |w.db.objects|
    requires w.pc.FinalizingTimeout? || w.pc.SettingFailed? || w.pc.SettingRunning?
    ensures Unseen(w, i, g, o)
  {
    hide Note, Faithful;
  }

  lemma ReadUnseen(w: World, i: nat, g: Option<Verdict>, o: Outside)
    requires i < |w.db.objects|
    requires w.pc.Reading?
    ensures Unseen(w, i, g, o)
  {
    hide Note, Faithful;
  }

  lemma ModelUnseen(w: World, i: nat, g: Option<Verdict>, o: Outside)
    requires i < |w.db.objects|
    requires w.pc.Modelling?
    ensures Unseen(w, i, g, o)
  {
    hide Note, Faithful;
  }

  lemma RecordUnseen(w: World, i: nat, g: Option<Verdict>, o: Outside)
    requires i < |w.db.objects|
    requires w.pc.Recording?
    ensures Unseen(w, i, g, o)
  {
    hide Note, Faithful;
  }

  lemma RequestUnseen(w: World, i: nat, g: Option<Verdict>, o: Outside)
    requires i < |w.db.objects|
    requires w.pc.Requesting? || w.pc.GuardPoll? || w.pc.Executing?
    ensures Unseen(w, i, g, o)
  {
    hide Note, Faithful;
  }

  lemma FinishUnseen(w: World, i: nat, g: Option<Verdict>, o: Outside)
    requires i < |w.db.objects|
    requires w.pc.Finishing?
    ensures Unseen(w, i, g, o)
  {
    hide Note, Faithful;
  }

  lemma OwnSwapped(w: World, i: nat, g: Option<Verdict>, kind: AuditKind)
    requires i < |w.db.objects|
    ensures i < |Own(w, kind).db.objects| && Own(Swap(w, i, g), kind) == Swap(Own(w, kind), i, g)
  {
    hide Note, Faithful;
  }

  function Disarm(w: World): World {
    w.(db := SetSignals(w.db, w.signals, SignalsAt(w.db, w.signals).(stepRetryArmed := false)))
  }

  lemma DisarmSwapped(w: World, i: nat, g: Option<Verdict>)
    requires i < |w.db.objects|
    ensures i < |Disarm(w).db.objects| && Disarm(Swap(w, i, g)) == Swap(Disarm(w), i, g)
  {
    var u, v := Disarm(Swap(w, i, g)), Swap(Disarm(w), i, g);
    assert u.db.objects == v.db.objects;
  }

  lemma FailUnseen(w: World, i: nat, g: Option<Verdict>, o: Outside)
    requires i < |w.db.objects|
    requires w.pc.Failing?
    ensures Unseen(w, i, g, o)
  {
    hide Note, Faithful, SetSignals;
    OwnSwapped(w, i, g, RunFailed);
    OwnSwapped(w, i, g, ActionFailed);
    var w1 := Own(w, ActionFailed);
    DisarmSwapped(w1, i, g);
    OwnSwapped(Disarm(w1), i, g, StepRetry);
    OwnSwapped(Disarm(w1), i, g, RunFailed);
  }

  lemma LeaveUnseen(w: World, i: nat, g: Option<Verdict>, o: Outside)
    requires i < |w.db.objects|
    requires w.pc.Returned? || w.pc.Discarding?
    ensures Unseen(w, i, g, o)
  {
    hide Note, Faithful;
  }

  lemma LoopStepUnseen(w: World, i: nat, g: Option<Verdict>, o: Outside)
    requires i < |w.db.objects| && (w.pc.ApprovalTake? ==> w.signals != i)
    ensures Unseen(w, i, g, o)
  {
    hide Unseen;
    match w.pc
    case Idle => TaskUnseen(w, i, g, o);
    case LoopHead => TaskUnseen(w, i, g, o);
    case Spawned => TaskUnseen(w, i, g, o);
    case GateFirstCancel => GatePollUnseen(w, i, g, o);
    case GateTakeover => GatePollUnseen(w, i, g, o);
    case GateHumanCancel => GatePollUnseen(w, i, g, o);
    case GatePauseCancel => GatePollUnseen(w, i, g, o);
    case GatePauseHeld => GatePollUnseen(w, i, g, o);
    case GateHumanHeld => GateExitUnseen(w, i, g, o);
    case GateLastCancel => GateExitUnseen(w, i, g, o);
    case Observing => ObserveUnseen(w, i, g, o);
    case Deciding => ObserveUnseen(w, i, g, o);
    case OpeningGate => OpenGateUnseen(w, i, g, o);
    case SettingAwaiting => AwaitUnseen(w, i, g, o);
    case ApprovalCancel => AwaitUnseen(w, i, g, o);
    case ApprovalTake => TakeUnseen(w, i, g, o);
    case ApprovalDeadline => AwaitUnseen(w, i, g, o);
    case FinalizingTimeout => TimeoutUnseen(w, i, g, o);
    case SettingFailed => TimeoutUnseen(w, i, g, o);
    case SettingRunning => TimeoutUnseen(w, i, g, o);
    case Reading => ReadUnseen(w, i, g, o);
    case Modelling => ModelUnseen(w, i, g, o);
    case Recording => RecordUnseen(w, i, g, o);
    case Requesting => RequestUnseen(w, i, g, o);
    case GuardPoll => RequestUnseen(w, i, g, o);
    case Executing => RequestUnseen(w, i, g, o);
    case Finishing => FinishUnseen(w, i, g, o);
    case Failing => FailUnseen(w, i, g, o);
    case Returned => LeaveUnseen(w, i, g, o);
    case Discarding => LeaveUnseen(w, i, g, o);
  }

  lemma ControlUnseen(w: World, i: nat, g: Option<Verdict>, call: Call)
    requires i < |w.db.objects| && (call.Pause? || call.Resume? || call.Cancel?)
    ensures i < |Operate(w, call).db.objects| && Operate(Swap(w, i, g), call) == Swap(Operate(w, call), i, g)
  {
    hide Note, Faithful;
  }

  lemma WorkerUnseen(w: World, i: nat, g: Option<Verdict>, call: Call)
    requires i < |w.db.objects| && (call.TakeControl? || call.ReleaseControl? || call.Start?)
    ensures i < |Operate(w, call).db.objects| && Operate(Swap(w, i, g), call) == Swap(Operate(w, call), i, g)
  {
    hide Note, Faithful;
  }

  function Arm(w: World): World {
    var (db, i) := SignalsFor(w.db);
    w.(db := SetSignals(db, i, SignalsAt(db, i).(stepRetryArmed := true)))
  }

  lemma ArmSwapped(w: World, i: nat, g: Option<Verdict>)
    requires i < |w.db.objects|
    ensures i < |Arm(w).db.objects| && Arm(Swap(w, i, g)) == Swap(Arm(w), i, g)
  {
    assert Arm(Swap(w, i, g)).db.objects == Swap(Arm(w), i, g).db.objects;
  }

  lemma RetryUnseen(w: World, i: nat, g: Option<Verdict>)
    requires i < |w.db.objects|
    ensures i < |Operate(w, Retry).db.objects| && Operate(Swap(w, i, g), Retry) == Swap(Operate(w, Retry), i, g)
  {
    hide Note, Faithful, SignalsFor, SetSignals;
    ArmSwapped(w.(db := Append(w.db, false, RetryRequested)), i, g);
  }

  lemma JudgeUnseen(w: World, i: nat, g: Option<Verdict>, v: Verdict) returns (g': Option<Verdict>)
    requires i < |w.db.objects|
    ensures i < |Operate(w, JudgeCall(v)).db.objects|
    ensures Operate(Swap(w, i, g), JudgeCall(v)) == Swap(Operate(w, JudgeCall(v)), i, g')
  {
    hide Note, Faithful;
    g' := if w.db.hub == Some(i) && Judgeable(w).Some? then Some(v) else g;
    if Judgeable(w).Some? {
      JudgeAsMoves(w, v);
      JudgeAsMoves(Swap(w, i, g), v);
      CommitSwapped(w, i, g, Judgeable(w).value, v);
      DeliverySwapped(CommitVerdict(w, Judgeable(w).value, v), i, g, v);
    }
    hide CommitVerdict, DeliverVerdict;
  }

  lemma CommitSwapped(w: World, i: nat, g: Option<Verdict>, row: nat, v: Verdict)
    requires i < |w.db.objects| && row < |w.db.approvals|
    ensures i < |CommitVerdict(w, row, v).db.objects| && CommitVerdict(w, row, v).db.hub == w.db.hub
    ensures CommitVerdict(Swap(w, i, g), row, v) == Swap(CommitVerdict(w, row, v), i, g)
  {
    hide Note, Faithful;
  }

  lemma DeliverySwapped(w: World, i: nat, g: Option<Verdict>, v: Verdict)
    requires i < |w.db.objects|
    ensures i < |DeliverVerdict(w, v).db.objects|
    ensures DeliverVerdict(Swap(w, i, g), v)
            == Swap(DeliverVerdict(w, v), i, if w.db.hub == Some(i) then Some(v) else g)
  {
    var after := Swap(DeliverVerdict(w, v), i, if w.db.hub == Some(i) then Some(v) else g);
    assert DeliverVerdict(Swap(w, i, g), v).db.objects == after.db.objects;
  }
}
