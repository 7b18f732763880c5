/** When exactly a verdict that arrives late can be taken for another gate's: for every state
    of a run, also while a loop is at work. */
module RunLateVerdict {
  import opened Basics
  import opened RunModel
  import opened RunSteps
  import opened RunInvariant
  import opened RunTrace
  import opened RunSafety
  import opened RunTakeover
  import opened RunDelivery
  import opened RunSwap

  /** The loop is about to take a verdict that the row of its own gate was never given. */
  predicate Mistaken(w: World, v: Verdict) {
    && w.pc.ApprovalTake? && SignalsAt(w.db, w.signals).decision == Some(v)
    && OwnRowUnjudged(w, v)
  }

  predicate OwnRowUnjudged(w: World, v: Verdict) {
    && |w.db.approvals| > 0 && w.d.approval == Some(|w.db.approvals| - 1)
    && |w.db.approvals| - 1 !in Judged(w.db.past.gates, v)
  }

  /** A gate of a step that goes on past its takeover poll without starting over. */
  predicate PassesOn(w: World) {
    !w.pc.GateFirstCancel? && !w.pc.GateTakeover? && !WaitingForHuman(w)
  }

  /** The worker of `w`, or the next one if none is at work, may yet open an approval gate or
      wait at one it is opening: this step is not past its gate, or another can begin. */
  predicate GateAhead(w: World) {
    var more := w.steps < w.config.maxSteps;
    match w.pc
    case Idle => w.db.run.status.Queued? && w.config.maxSteps > 0
    case Spawned => w.config.maxSteps > 0
    case Observing => true
    case Deciding => true
    case OpeningGate => true
    case SettingAwaiting => true
    case LoopHead => more
    case SettingRunning => more
    case Modelling => more
    case Requesting => more
    case GuardPoll => more
    case Executing => more
    case Finishing => more
    case Failing => more
    case Reading => more && w.config.research
    case Recording => more && w.d.action.kind.Extract?
    case _ => InGate(w.pc) && GateAheadOfGate(w)
  }

  predicate GateAheadOfGate(w: World) {
    var more := w.steps < w.config.maxSteps;
    match w.where
    case BetweenSteps => true
    case BeforeObserve => true
    case BeforeDecide => more || !WaitingForHuman(w)
    case BeforeExecute => more && (PassesOn(w) ==> w.config.research || !w.d.action.kind.Extract?)
    case BeforeModel => more
    case AfterModel => more && (PassesOn(w) ==> w.d.action.kind.Extract?)
  }

  /** What a caller would have to look at before delivering the verdict. */
  predicate MayMistake(w: World, v: Verdict) {
    if Waiting(w.pc) then !Timely(w, v) && (!w.db.CancelRequested() || w.pc.ApprovalTake?)
    else w.config.timed && !w.db.CancelRequested() && GateAhead(w)
  }

  // ---------- a verdict that no gate will take ----------

  /** No loop will take a decision from the object: it has left the hub and its loop has too,
      or it is in the hub and the worker that reads it has no gate ahead. */
  predicate Mute(w: World, i: nat) {
    && i < |w.db.objects|
    && if w.db.hub == Some(i) then !Waiting(w.pc) && !(w.config.timed && GateAhead(w))
       else (Bound(w.pc) || Waiting(w.pc) ==> w.signals != i)
  }

  lemma TaskStaysMute(w: World, i: nat, o: Outside)
    requires Inv(w) && Mute(w, i)
    requires w.pc.Idle? || w.pc.Spawned? || w.pc.LoopHead?
    ensures Mute(LoopStep(w, o), i)
  {
    hide RowsInv, VerdictInv, StatusInv, CancelInv, AppendInv, Note, Faithful;
  }

  lemma GatePollStaysMute(w: World, i: nat, o: Outside)
    requires Inv(w) && Mute(w, i)
    requires w.pc.GateFirstCancel? || w.pc.GateTakeover? || w.pc.GateHumanCancel? || w.pc.GatePauseCancel?
             || w.pc.GatePauseHeld?
    ensures Mute(LoopStep(w, o), i)
  {
    hide RowsInv, VerdictInv, StatusInv, CancelInv, AppendInv, Note, Faithful;
  }

  lemma GateExitStaysMute(w: World, i: nat, o: Outside)
    requires Inv(w) && Mute(w, i)
    requires w.pc.GateHumanHeld? || w.pc.GateLastCancel?
    ensures Mute(LoopStep(w, o), i)
  {
    hide RowsInv, VerdictInv, StatusInv, CancelInv, AppendInv, Note, Faithful;
  }

  lemma ObserveStaysMute(w: World, i: nat, o: Outside)
    requires Inv(w) && Mute(w, i)
    requires w.pc.Observing? || w.pc.Deciding? || w.pc.OpeningGate?
    ensures Mute(LoopStep(w, o), i)
  {
    hide RowsInv, VerdictInv, StatusInv, CancelInv, AppendInv, Note, Faithful;
  }

  lemma WaitStaysMute(w: World, i: nat, o: Outside)
    requires Inv(w) && Mute(w, i)
    requires GateOpen(w.pc)
    ensures Mute(LoopStep(w, o), i)
  {
    hide RowsInv, VerdictInv, StatusInv, CancelInv, AppendInv, Note, Faithful;
  }

  lemma VerdictStaysMute(w: World, i: nat, o: Outside)
    requires Inv(w) && Mute(w, i)
    requires w.pc.FinalizingTimeout? || w.pc.SettingFailed? || w.pc.SettingRunning?
    ensures Mute(LoopStep(w, o), i)
  {
    hide RowsInv, VerdictInv, StatusInv, CancelInv, AppendInv, Note, Faithful;
  }

  lemma ResearchStaysMute(w: World, i: nat, o: Outside)
    requires Inv(w) && Mute(w, i)
    requires w.pc.Reading? || w.pc.Modelling? || w.pc.Recording?
    ensures Mute(LoopStep(w, o), i)
  {
    hide RowsInv, VerdictInv, StatusInv, CancelInv, AppendInv, Note, Faithful;
  }

  lemma RequestStaysMute(w: World, i: nat, o: Outside)
    requires Inv(w) && Mute(w, i)
    requires w.pc.Requesting? || w.pc.GuardPoll? || w.pc.Executing?
    ensures Mute(LoopStep(w, o), i)
  {
    hide RowsInv, VerdictInv, StatusInv, CancelInv, AppendInv, Note, Faithful;
  }

  lemma FinishStaysMute(w: World, i: nat, o: Outside)
    requires Inv(w) && Mute(w, i)
    requires w.pc.Finishing?
    ensures Mute(LoopStep(w, o), i)
  {
    hide RowsInv, VerdictInv, StatusInv, CancelInv, AppendInv, Note, Faithful;
  }

  lemma LeaveStaysMute(w: World, i: nat, o: Outside)
    requires Inv(w) && Mute(w, i)
    requires w.pc.Failing? || w.pc.Returned? || w.pc.Discarding?
    ensures Mute(LoopStep(w, o), i)
  {
    hide RowsInv, VerdictInv, StatusInv, CancelInv, AppendInv, Note, Faithful;
  }

  lemma LoopStepStaysMute(w: World, i: nat, o: Outside)
    requires Inv(w) && Mute(w, i)
    ensures Mute(LoopStep(w, o), i)
  {
    hide Inv, Mute, LoopStep;
    match w.pc
    case Idle => TaskStaysMute(w, i, o);
    case LoopHead => TaskStaysMute(w, i, o);
    case Spawned => TaskStaysMute(w, i, o);
    case GateFirstCancel => GatePollStaysMute(w, i, o);
    case GateTakeover => GatePollStaysMute(w, i, o);
    case GateHumanCancel => GatePollStaysMute(w, i, o);
    case GatePauseCancel => GatePollStaysMute(w, i, o);
    case GatePauseHeld => GatePollStaysMute(w, i, o);
    case GateHumanHeld => GateExitStaysMute(w, i, o);
    case GateLastCancel => GateExitStaysMute(w, i, o);
    case Observing => ObserveStaysMute(w, i, o);
    case Deciding => ObserveStaysMute(w, i, o);
    case OpeningGate => ObserveStaysMute(w, i, o);
    case SettingAwaiting => WaitStaysMute(w, i, o);
    case ApprovalCancel => WaitStaysMute(w, i, o);
    case ApprovalTake => WaitStaysMute(w, i, o);
    case ApprovalDeadline => WaitStaysMute(w, i, o);
    case FinalizingTimeout => VerdictStaysMute(w, i, o);
    case SettingFailed => VerdictStaysMute(w, i, o);
    case SettingRunning => VerdictStaysMute(w, i, o);
    case Reading => ResearchStaysMute(w, i, o);
    case Modelling => ResearchStaysMute(w, i, o);
    case Recording => ResearchStaysMute(w, i, o);
    case Requesting => RequestStaysMute(w, i, o);
    case GuardPoll => RequestStaysMute(w, i, o);
    case Executing => RequestStaysMute(w, i, o);
    case Finishing => FinishStaysMute(w, i, o);
    case Failing => LeaveStaysMute(w, i, o);
    case Returned => LeaveStaysMute(w, i, o);
    case Discarding => LeaveStaysMute(w, i, o);
  }

  lemma CallStaysMute(w: World, i: nat, call: Call)
    requires Inv(w) && Mute(w, i)
    ensures Mute(Operate(w, call), i)
  {
    hide RowsInv, VerdictInv, FlowInv, Note, Faithful;
  }

  // ---------- a cancelled run takes nothing ----------

  predicate CancelledPast(w: World) {
    w.db.CancelRequested() && !w.pc.ApprovalTake?
  }

  lemma CancelledGateStays(w: World, o: Outside)
    requires CancelledPast(w) && (InGate(w.pc) || w.pc.Idle? || w.pc.Spawned? || w.pc.LoopHead?)
    ensures CancelledPast(LoopStep(w, o))
  {
    hide Note;
  }

  lemma CancelledGapStays(w: World, o: Outside)
    requires CancelledPast(w)
    requires w.pc.Observing? || w.pc.Deciding? || w.pc.OpeningGate? || GateOpen(w.pc) || Leaving(w.pc)
             || w.pc.SettingRunning?
    ensures CancelledPast(LoopStep(w, o))
  {
    hide Note;
  }

  lemma CancelledActionStays(w: World, o: Outside)
    requires CancelledPast(w)
    requires w.pc.Reading? || w.pc.Modelling? || w.pc.Recording? || PastLastCancelPoll(w.pc) || w.pc.Finishing?
             || w.pc.Failing?
    ensures CancelledPast(LoopStep(w, o))
  {
    hide Note;
  }

  lemma CancelledCallStays(w: World, call: Call)
    requires CancelledPast(w)
    ensures CancelledPast(Operate(w, call))
  {
    hide Note;
  }

  lemma CancelledStepStays(w: World, l: Label)
    requires CancelledPast(w)
    ensures CancelledPast(Step(w, l))
  {
    hide LoopStep, Operate;
    match l
    case OfOperator(call) => CancelledCallStays(w, call);
    case OfLoop(o) =>
      if InGate(w.pc) || w.pc.Idle? || w.pc.Spawned? || w.pc.LoopHead? {
        CancelledGateStays(w, o);
      } else if w.pc.Reading? || w.pc.Modelling? || w.pc.Recording? || PastLastCancelPoll(w.pc) || w.pc.Finishing?
                || w.pc.Failing? {
        CancelledActionStays(w, o);
      } else {
        CancelledGapStays(w, o);
      }
  }

  lemma {:induction false} CancelledRunStays(w: World, labels: seq<Label>)
    requires CancelledPast(w)
    ensures CancelledPast(Run(w, labels))
  {
    hide CancelledPast, Step;
    if labels != [] {
      CancelledRunStays(w, labels[..|labels| - 1]);
      CancelledStepStays(Run(w, labels[..|labels| - 1]), labels[|labels| - 1]);
    }
  }

  // ---------- harmless deliveries ----------

  predicate Hushed(w: World, i: nat) {
    i < |w.db.objects| && (CancelledPast(w) || Mute(w, i))
  }

  /** A step of one process from two states that differ in a hushed decision leads to two
      such states. */
  lemma StepUnseen(w: World, i: nat, g: Option<Verdict>, l: Label) returns (g': Option<Verdict>)
    requires Inv(w) && Hushed(w, i) && l != OfOperator(Restart)
    ensures Hushed(Step(w, l), i) && Step(Swap(w, i, g), l) == Swap(Step(w, l), i, g')
  {
    hide Inv, LoopStep, Operate, GateAhead;
    if CancelledPast(w) { CancelledStepStays(w, l); }
    match l
    case OfLoop(o) =>
      LoopStepUnseen(w, i, g, o);
      if Mute(w, i) { LoopStepStaysMute(w, i, o); }
      g' := g;
    case OfOperator(call) =>
      if Mute(w, i) { CallStaysMute(w, i, call); }
      match call {
        case Approve => g' := JudgeUnseen(w, i, g, Grant);
        case Reject => g' := JudgeUnseen(w, i, g, Deny);
        case Retry => RetryUnseen(w, i, g); g' := g;
        case Pause => ControlUnseen(w, i, g, call); g' := g;
        case Resume => ControlUnseen(w, i, g, call); g' := g;
        case Cancel => ControlUnseen(w, i, g, call); g' := g;
        case _ => WorkerUnseen(w, i, g, call); g' := g;
      }
  }

  lemma {:induction false} RunUnseen(w: World, i: nat, g: Option<Verdict>, labels: seq<Label>)
    returns (g': Option<Verdict>)
    requires Reached(w) && Hushed(w, i) && NoRestart(labels)
    ensures Reached(Run(w, labels)) && Hushed(Run(w, labels), i)
    ensures Run(Swap(w, i, g), labels) == Swap(Run(w, labels), i, g')
  {
    hide Hushed, Step, Inv, Faithful;
    g' := g;
    if labels != [] {
      var before, l := labels[..|labels| - 1], labels[|labels| - 1];
      assert NoRestart(before);
      g' := RunUnseen(w, i, g, before);
      var w1 := Run(w, before);
      StepKeeps(w1, l);
      g' := StepUnseen(w1, i, g', l);
    }
  }

  /** The run's signals object, created now if there was none. */
  function Registered(w: World): World {
    w.(db := SignalsFor(w.db).0)
  }

  lemma RegisteredKeeps(w: World)
    requires Reached(w)
    ensures Reached(Registered(w)) && Registered(w).db.hub.Some?
    ensures Registered(w).db.hub.value < |Registered(w).db.objects|
  {
    hide RowsInv, Note;
  }

  lemma DeliveryIsSwap(w: World, v: Verdict)
    requires Registered(w).db.hub.Some? && Registered(w).db.hub.value < |Registered(w).db.objects|
    ensures DeliverVerdict(w, v) == Swap(Registered(w), Registered(w).db.hub.value, Some(v))
  {
  }

  lemma UntimelyIsHushed(w: World, v: Verdict)
    requires Reached(w) && !MayMistake(w, v) && !Timely(w, v)
    ensures Reached(Registered(w)) && Registered(w).db.hub.Some? && Hushed(Registered(w), Registered(w).db.hub.value)
  {
    RegisteredKeeps(w);
    hide RowsInv, VerdictInv, StatusInv, FlowInv, Note;
  }

  /** What holds of a reached state and does not depend on any decision. */
  ghost predicate Unharmed(u: World) {
    && TraceIsSafe(u.db.trace)
    && (u.pc.Returned? ==> Closed(u.db, u.config.maxSteps, u.outcome))
    && !PassedUnapproved(u)
  }

  /** The loop is past a gate that nobody has approved. */
  predicate PassedUnapproved(w: World) {
    w.pc.SettingRunning? && OwnRowUnjudged(w, Grant)
  }

  lemma ReachedIsUnharmed(w: World)
    requires Reached(w)
    ensures Unharmed(w)
  {
    ReachedIsSafe(w);
    ReturnedLoopIsClosed(w);
    hide TraceIsSafe, Closed, StatusInv, SignalInv, RowsInv, FlowInv;
  }

  lemma SwapIsUnharmed(w: World, i: nat, g: Option<Verdict>)
    requires i < |w.db.objects| && Unharmed(w)
    ensures Unharmed(Swap(w, i, g))
  {
    hide TraceIsSafe;
    assert Swap(w, i, g).db.trace == w.db.trace && Swap(w, i, g).db.approvals == w.db.approvals;
  }

  lemma HarmlessDeliveryIsSafe(w: World, v: Verdict, labels: seq<Label>)
    requires Reached(w) && !MayMistake(w, v) && NoRestart(labels)
    ensures Unharmed(Run(DeliverVerdict(w, v), labels))
  {
    hide Inv, Faithful, MayMistake, Timely, Unharmed, Hushed;
    var u := DeliverVerdict(w, v);
    if Timely(w, v) {
      DeliverVerdictKeeps(w, v);
      DeliveryIsFaithful(w, v);
      RunReached(u, labels);
      ReachedIsUnharmed(Run(u, labels));
    } else {
      UntimelyIsHushed(w, v);
      RegisteredKeeps(w);
      var i := Registered(w).db.hub.value;
      DeliveryIsSwap(w, v);
      var g := RunUnseen(Registered(w), i, Some(v), labels);
      ReachedIsUnharmed(Run(Registered(w), labels));
      HushedExists(Run(Registered(w), labels), i);
      SwapIsUnharmed(Run(Registered(w), labels), i, g);
    }
  }

  lemma HushedExists(w: World, i: nat)
    requires Hushed(w, i)
    ensures i < |w.db.objects|
  {
  }

  // ---------- harmful deliveries ----------

  /** A running loop whose signals object holds the verdict, which was given to none but
      existing rows. */
  predicate Loaded(w: World, v: Verdict) {
    && w.db.run.status.Running?
    && Carries(w, v, |w.db.approvals|, Judged(w.db.past.gates, v))
    && forall r :: r in Judged(w.db.past.gates, v) ==> r < |w.db.approvals|
  }

  lemma MistakenFromAwaiting(w0: World, w: World, v: Verdict) returns (w': World)
    requires Leads(w0, w) && w.pc.SettingAwaiting? && Loaded(w, v)
    requires OwnRowUnjudged(w, v)
    ensures Leads(w0, w') && Mistaken(w', v)
  {
    hide Leads;
    w' := CarryToTake(w0, w, v, |w.db.approvals|, Judged(w.db.past.gates, v));
  }

  lemma MistakenFromOpening(w0: World, w: World, v: Verdict) returns (w': World)
    requires Leads(w0, w) && w.pc.OpeningGate? && Loaded(w, v)
    ensures Leads(w0, w') && Mistaken(w', v)
  {
    hide Leads, NoteHold, NoteAppend, Justified;
    OpenGateLeads(w0, w);
    w' := OpenGateStep(w, CALM);
    w' := MistakenFromAwaiting(w0, w', v);
  }

  lemma MistakenFromDeciding(w0: World, w: World, v: Verdict) returns (w': World)
    requires Leads(w0, w) && w.pc.Deciding? && Loaded(w, v)
    ensures Leads(w0, w') && Mistaken(w', v)
  {
    hide Leads, NoteHold, NoteAppend, Justified;
    w' := GatedDecisionLeads(w0, w);
    w' := MistakenFromOpening(w0, w', v);
  }

  lemma MistakenFromObserving(w0: World, w: World, v: Verdict) returns (w': World)
    requires Leads(w0, w) && w.pc.Observing? && Loaded(w, v)
    ensures Leads(w0, w') && Mistaken(w', v)
  {
    hide Leads, Mistaken;
    w' := CarryToDeciding(w0, w, v, |w.db.approvals|, Judged(w.db.past.gates, v));
    w' := MistakenFromDeciding(w0, w', v);
  }

  lemma MistakenFromStart(w0: World, w: World, v: Verdict) returns (w': World)
    requires Leads(w0, w) && w.pc.GateFirstCancel? && w.where.BetweenSteps? && Loaded(w, v)
    ensures Leads(w0, w') && Mistaken(w', v)
  {
    hide Leads, Mistaken;
    w' := CarryToObserving(w0, w, v, |w.db.approvals|, Judged(w.db.past.gates, v));
    w' := MistakenFromObserving(w0, w', v);
  }

  lemma MistakenFromHead(w0: World, w: World, v: Verdict) returns (w': World)
    requires Leads(w0, w) && w.pc.LoopHead? && w.steps < w.config.maxSteps && Loaded(w, v)
    ensures Leads(w0, w') && Mistaken(w', v)
  {
    hide Leads, Mistaken;
    HeadLeads(w0, w);
    w' := MistakenFromStart(w0, EnterGate(w, BetweenSteps), v);
  }

  lemma MistakenFromSpawned(w0: World, w: World, v: Verdict) returns (w': World)
    requires Leads(w0, w) && Finds(w, v) && w.config.timed && w.config.maxSteps > 0
    requires forall r :: r in Judged(w.db.past.gates, v) ==> r < |w.db.approvals|
    ensures Leads(w0, w') && Mistaken(w', v)
  {
    hide Leads, Mistaken, Judged;
    w' := CarryToFirstGate(w0, w, v);
    w' := MistakenFromStart(w0, w', v);
  }

  // ---------- out of a step that is past its gate ----------

  /** A wait for a human that began at the takeover poll starts over when it ends. */
  lemma MistakenFromHumanWait(w0: World, w: World, v: Verdict) returns (w': World)
    requires Leads(w0, w) && WaitingForHuman(w) && w.where.MidStep() && Loaded(w, v)
    requires w.steps < w.config.maxSteps
    ensures Leads(w0, w') && Mistaken(w', v)
  {
    hide Leads, Mistaken, NoteHold, NoteAppend, Justified;
    if w.pc.GateHumanCancel? { HumanPollLeads(w0, w); } else { LeadsCalmly(w0, w); }
    w' := DiscardStep(At(w, GateHumanHeld));
    w' := MistakenFromHead(w0, w', v);
  }

  /** Alike but for status, trace, and the poll the loop has come to. */
  predicate SamePlace(w: World, w': World) {
    && w'.where == w.where && w'.steps == w.steps && w'.config == w.config && w'.signals == w.signals && w'.d == w.d
    && w'.db.hub == w.db.hub && w'.db.objects == w.db.objects && w'.db.approvals == w.db.approvals
    && w'.db.past.gates == w.db.past.gates
  }

  lemma CallLeads(w0: World, w: World, call: Call)
    requires Leads(w0, w) && !w.pc.Idle? && (call.TakeControl? || call.ReleaseControl? || call.Resume?)
    requires call.TakeControl? ==> w.db.run.status.Running?
    requires call.ReleaseControl? ==> w.db.run.status.AwaitingHuman?
    requires call.Resume? ==> w.db.run.status.Paused?
    ensures Leads(w0, Operate(w, call)) && SamePlace(w, Operate(w, call))
    ensures Operate(w, call).pc == w.pc && Operate(w, call).waited == w.waited
    ensures Operate(w, call).db.run.status == if call.TakeControl? then AwaitingHuman else Running
  {
    LeadsOn(w0, w, OfOperator(call));
    hide Leads, NoteHold, NoteAppend, Justified;
  }

  lemma HoldLeads(w0: World, w: World) returns (w': World)
    requires Leads(w0, w) && w.pc.GateTakeover? && w.db.run.status.Running?
    ensures Leads(w0, w') && WaitingForHuman(w') && w'.db.run.status.Running? && SamePlace(w, w')
  {
    hide Leads, Operate;
    CallLeads(w0, w, Call.TakeControl);
    w' := Operate(w, Call.TakeControl);
    LeadsCalmly(w0, w');
    SeenHold(w');
    w' := TakeoverPoll(w');
    CallLeads(w0, w', Call.ReleaseControl);
    w' := Operate(w', Call.ReleaseControl);
  }

  lemma SeenHold(w: World)
    requires w.pc.GateTakeover? && w.db.Held()
    ensures LoopStep(w, CALM) == TakeoverPoll(w) && SamePlace(w, TakeoverPoll(w))
    ensures WaitingForHuman(TakeoverPoll(w)) && TakeoverPoll(w).db.Held()
  {
    hide NoteHold, NoteAppend, Justified;
  }

  lemma MistakenFromMidGate(w0: World, w: World, v: Verdict) returns (w': World)
    requires Leads(w0, w) && (w.pc.GateFirstCancel? || w.pc.GateTakeover?) && w.where.MidStep() && Loaded(w, v)
    requires w.steps < w.config.maxSteps
    ensures Leads(w0, w') && Mistaken(w', v)
  {
    hide Leads, Mistaken;
    if w.pc.GateFirstCancel? { FirstPollLeads(w0, w); }
    w' := HoldLeads(w0, At(w, GateTakeover));
    w' := MistakenFromHumanWait(w0, w', v);
  }

  lemma RetryArms(w: World, v: Verdict)
    requires w.pc.Failing? && Loaded(w, v)
    ensures var w' := Operate(w, Retry);
            && w' == w.(db := w'.db) && Loaded(w', v) && SignalsAt(w'.db, w'.signals).stepRetryArmed
  {
    hide NoteHold, NoteAppend, Justified;
  }

  lemma ArmedGoesOn(w: World, v: Verdict)
    requires w.pc.Failing? && Loaded(w, v) && SignalsAt(w.db, w.signals).stepRetryArmed
    ensures var w' := FailStep(w, CALM);
            w'.pc.LoopHead? && w'.steps == w.steps && w'.config == w.config && Loaded(w', v)
  {
    hide NoteHold, NoteAppend, Justified;
  }

  lemma FailLeads(w0: World, w: World)
    requires Leads(w0, w) && w.pc.Failing?
    ensures Leads(w0, FailStep(w, CALM))
  {
    hide Leads, FailStep;
    LeadsCalmly(w0, w);
  }

  lemma MistakenFromFailing(w0: World, w: World, v: Verdict) returns (w': World)
    requires Leads(w0, w) && w.pc.Failing? && Loaded(w, v) && w.steps < w.config.maxSteps
    ensures Leads(w0, w') && Mistaken(w', v)
  {
    hide Leads, Mistaken, Loaded, FailStep, RetryRun, LoopStep;
    LeadsOn(w0, w, OfOperator(Retry));
    RetryArms(w, v);
    var w1 := Operate(w, Retry);
    FailLeads(w0, w1);
    ArmedGoesOn(w1, v);
    w' := MistakenFromHead(w0, FailStep(w1, CALM), v);
  }

  const FAILED_CALL := CALM.(ok := false)

  lemma MistakenFromFinishing(w0: World, w: World, v: Verdict) returns (w': World)
    requires Leads(w0, w) && w.pc.Finishing? && Loaded(w, v) && w.steps < w.config.maxSteps
    ensures Leads(w0, w') && Mistaken(w', v)
  {
    hide Leads, Mistaken;
    LeadsOn(w0, w, OfLoop(FAILED_CALL));
    w' := MistakenFromFailing(w0, At(w, Failing), v);
  }

  lemma MistakenFromAction(w0: World, w: World, v: Verdict) returns (w': World)
    requires Leads(w0, w) && PastLastCancelPoll(w.pc) && Loaded(w, v) && w.steps < w.config.maxSteps
    ensures Leads(w0, w') && Mistaken(w', v)
    decreases if w.pc.Requesting? then 2 else if w.pc.GuardPoll? then 1 else 0
  {
    hide Leads, Mistaken, NoteHold, NoteAppend, Justified;
    if w.pc.Requesting? {
      RequestLeads(w0, w);
      w' := MistakenFromAction(w0, At(Own(w, ActionRequested), GuardPoll), v);
    } else if w.pc.GuardPoll? {
      GuardLeads(w0, w);
      w' := MistakenFromAction(w0, w.(db := Log(w.db, GuardPassed), pc := Executing), v);
    } else {
      ExecuteLeads(w0, w);
      w' := MistakenFromFinishing(w0, w.(db := Log(w.db, ExecStarted(w.d)), pc := Finishing), v);
    }
  }

  lemma MistakenFromResearch(w0: World, w: World, v: Verdict) returns (w': World)
    requires Leads(w0, w) && Loaded(w, v) && w.steps < w.config.maxSteps
    requires w.pc.SettingRunning? || (w.pc.Reading? && w.config.research) || w.pc.Modelling?
             || (w.pc.Recording? && w.d.action.kind.Extract?)
    ensures Leads(w0, w') && Mistaken(w', v)
  {
    hide Leads, Mistaken, NoteHold, NoteAppend, Justified;
    LeadsCalmly(w0, w);
    w' := LoopStep(w, CALM);
    if w.pc.Recording? { w' := MistakenFromHead(w0, w', v); } else { w' := MistakenFromMidGate(w0, w', v); }
  }

  lemma RestOfGateLeads(w0: World, w: World) returns (w': World)
    requires Leads(w0, w) && InGate(w.pc) && w.db.run.status.Running? && !(WaitingForHuman(w) && w.where.MidStep())
    ensures Leads(w0, PassGate(w')) && w' == w.(pc := GateLastCancel, waited := w'.waited)
  {
    hide Leads, PassGate;
    w' := w;
    if w'.pc.GateFirstCancel? { LeadsCalmly(w0, w'); w' := At(w', GateTakeover); }
    if w'.pc.GateTakeover? { LeadsCalmly(w0, w'); w' := w'.(pc := GateHumanCancel, waited := false); }
    if w'.pc.GateHumanCancel? { LeadsCalmly(w0, w'); w' := At(w', GateHumanHeld); }
    if w'.pc.GateHumanHeld? { LeadsCalmly(w0, w'); w' := At(w', GatePauseCancel); }
    if w'.pc.GatePauseCancel? { LeadsCalmly(w0, w'); w' := At(w', GatePauseHeld); }
    if w'.pc.GatePauseHeld? { LeadsCalmly(w0, w'); w' := At(w', GateLastCancel); }
    LeadsCalmly(w0, w');
  }

  /** Past the gate the step goes on to where the verdict can be taken, or to another step. */
  lemma MistakenFromPassed(w0: World, w: World, v: Verdict) returns (w': World)
    requires Leads(w0, PassGate(w)) && w.pc.GateLastCancel? && Loaded(w, v)
    requires GateAheadOfGate(w)
    ensures Leads(w0, w') && Mistaken(w', v)
  {
    hide Leads, Mistaken;
    w' := PassGate(w);
    match w.where
    case BetweenSteps =>
      GateIsPassed(w0, w');
      w' := MistakenFromObserving(w0, PassGate(w'.(pc := GateLastCancel, waited := false)), v);
    case BeforeObserve => w' := MistakenFromObserving(w0, w', v);
    case BeforeDecide => w' := MistakenFromDeciding(w0, w', v);
    case BeforeExecute =>
      if w'.pc.Reading? { w' := MistakenFromResearch(w0, w', v); } else { w' := MistakenFromAction(w0, w', v); }
    case BeforeModel => w' := MistakenFromResearch(w0, w', v);
    case AfterModel => w' := MistakenFromResearch(w0, w', v);
  }

  lemma MistakenFromGate(w0: World, w: World, v: Verdict) returns (w': World)
    requires Leads(w0, w) && InGate(w.pc) && Loaded(w, v) && GateAheadOfGate(w)
    ensures Leads(w0, w') && Mistaken(w', v)
  {
    hide Leads, Mistaken, PassGate;
    if WaitingForHuman(w) && w.where.MidStep() {
      w' := MistakenFromHumanWait(w0, w, v);
    } else if (w.pc.GateFirstCancel? || w.pc.GateTakeover?) && w.where.MidStep() && w.steps < w.config.maxSteps {
      w' := MistakenFromMidGate(w0, w, v);
    } else {
      w' := RestOfGateLeads(w0, w);
      w' := MistakenFromPassed(w0, w', v);
    }
  }

  lemma MistakenFromBound(w0: World, w: World, v: Verdict) returns (w': World)
    requires Leads(w0, w) && Bound(w.pc) && Loaded(w, v) && GateAhead(w)
    requires w.pc.SettingAwaiting? ==> OwnRowUnjudged(w, v)
    ensures Leads(w0, w') && Mistaken(w', v)
  {
    hide Leads, Mistaken, Loaded, GateAheadOfGate;
    match w.pc
    case LoopHead => w' := MistakenFromHead(w0, w, v);
    case Observing => w' := MistakenFromObserving(w0, w, v);
    case Deciding => w' := MistakenFromDeciding(w0, w, v);
    case OpeningGate => w' := MistakenFromOpening(w0, w, v);
    case SettingAwaiting => w' := MistakenFromAwaiting(w0, w, v);
    case SettingRunning => w' := MistakenFromResearch(w0, w, v);
    case Reading => w' := MistakenFromResearch(w0, w, v);
    case Modelling => w' := MistakenFromResearch(w0, w, v);
    case Recording => w' := MistakenFromResearch(w0, w, v);
    case Requesting => w' := MistakenFromAction(w0, w, v);
    case GuardPoll => w' := MistakenFromAction(w0, w, v);
    case Executing => w' := MistakenFromAction(w0, w, v);
    case Finishing => w' := MistakenFromFinishing(w0, w, v);
    case Failing => w' := MistakenFromFailing(w0, w, v);
    case _ => w' := MistakenFromGate(w0, w, v);
  }

  /** A paused or held run goes on when it is resumed or released. */
  lemma GoesOn(w0: World, w: World) returns (w': World)
    requires Leads(w0, w) && !w.pc.Idle? && Active(w.db.run.status)
    ensures Leads(w0, w') && SamePlace(w, w') && w'.pc == w.pc && w'.waited == w.waited && w'.db.run.status.Running?
  {
    hide Leads, Operate;
    w' := w;
    if w.db.run.status.Paused? { CallLeads(w0, w, Resume); w' := Operate(w, Resume); }
    if w.db.run.status.AwaitingHuman? { CallLeads(w0, w, Call.ReleaseControl); w' := Operate(w, Call.ReleaseControl); }
  }

  lemma DeadlineLeads(w0: World, w: World)
    requires Leads(w0, w) && w.pc.ApprovalDeadline?
    ensures Leads(w0, w.(pc := ApprovalCancel, recheck := true))
  {
    LeadsCalmly(w0, w);
  }

  /** The waiting loop comes to its next look at the decision. */
  lemma MistakenFromWait(w: World, v: Verdict) returns (w': World)
    requires Reached(w) && Waiting(w.pc) && MayMistake(w, v)
    ensures Leads(DeliverVerdict(w, v), w') && Mistaken(w', v)
  {
    hide Leads, Inv, Faithful, MayMistake, DeliverVerdict, Mistaken, OwnRowUnjudged;
    WaitsUnjudged(w, v);
    LeadsNowhere(DeliverVerdict(w, v));
    w' := MistakenFromPoll(DeliverVerdict(w, v), DeliverVerdict(w, v), v);
  }

  lemma MistakenFromPoll(w0: World, w: World, v: Verdict) returns (w': World)
    requires Leads(w0, w) && Waiting(w.pc) && OwnRowUnjudged(w, v)
    requires SignalsAt(w.db, w.signals).decision == Some(v) && (w.db.CancelRequested() ==> w.pc.ApprovalTake?)
    ensures Leads(w0, w') && Mistaken(w', v)
  {
    hide Leads;
    w' := w;
    if w'.pc.ApprovalDeadline? { DeadlineLeads(w0, w'); w' := w'.(pc := ApprovalCancel, recheck := true); }
    if w'.pc.ApprovalCancel? { FirstWaitPollLeads(w0, w'); w' := At(w', ApprovalTake); }
  }

  lemma WaitsUnjudged(w: World, v: Verdict)
    requires Inv(w) && Waiting(w.pc) && MayMistake(w, v)
    ensures var u := DeliverVerdict(w, v);
            && u.pc == w.pc && OwnRowUnjudged(u, v) && SignalsAt(u.db, u.signals).decision == Some(v)
            && (u.db.CancelRequested() ==> u.pc.ApprovalTake?)
  {
    hide RowsInv, StatusInv, FlowInv;
  }

  /** The delivered verdict lies in the hub, the rest of the state is as it was. */
  lemma DeliveredParts(w: World, v: Verdict)
    requires SignalInv(w)
    ensures var u := DeliverVerdict(w, v);
            && u == w.(db := w.db.(objects := u.db.objects, hub := u.db.hub))
            && u.db.hub.Some? && u.db.hub.value < |u.db.objects| && u.db.objects[u.db.hub.value].decision == Some(v)
  {
  }

  lemma MistakenFromIdle(w: World, v: Verdict) returns (w': World)
    requires Reached(w) && w.pc.Idle? && MayMistake(w, v)
    ensures Leads(DeliverVerdict(w, v), w') && Mistaken(w', v)
  {
    hide Mistaken, FlowInv, VerdictInv, StatusInv, Faithful, DeliverVerdict, NoteHold, NoteAppend, Justified;
    DeliveredParts(w, v);
    var u := DeliverVerdict(w, v);
    LeadsNowhere(u);
    LeadsOn(u, u, OfOperator(Start));
    hide Leads;
    w' := MistakenFromSpawned(u, Operate(u, Start), v);
  }

  lemma MistakenFromNewTask(w: World, v: Verdict) returns (w': World)
    requires Reached(w) && w.pc.Spawned? && MayMistake(w, v)
    ensures Leads(DeliverVerdict(w, v), w') && Mistaken(w', v)
  {
    assert Active(w.db.run.status) by { hide SignalInv, RowsInv, VerdictInv, FlowInv; }
    assert w.steps == 0 by { hide BookInv, FreshInv, CancelInv, AppendInv; }
    hide Leads, Mistaken, FlowInv, VerdictInv, StatusInv, Faithful, DeliverVerdict;
    DeliveredParts(w, v);
    var u := DeliverVerdict(w, v);
    LeadsNowhere(u);
    w' := GoesOn(u, u);
    w' := MistakenFromSpawned(u, w', v);
  }

  lemma MistakenAtWork(w: World, v: Verdict) returns (w': World)
    requires Reached(w) && Bound(w.pc) && MayMistake(w, v)
    ensures Leads(DeliverVerdict(w, v), w') && Mistaken(w', v)
  {
    var u := DeliverVerdict(w, v);
    LeadsNowhere(u);
    hide Leads, Mistaken;
    w' := GoesOn(u, u);
    w' := MistakenFromBound(u, w', v);
  }

  lemma OthersAreAtWork(w: World, v: Verdict)
    requires MayMistake(w, v) && !Waiting(w.pc) && !w.pc.Idle? && !w.pc.Spawned?
    ensures Bound(w.pc)
  {
  }

  lemma HarmfulDeliveryMistakes(w: World, v: Verdict) returns (w': World)
    requires Reached(w) && MayMistake(w, v)
    ensures Leads(DeliverVerdict(w, v), w') && Mistaken(w', v)
  {
    hide Reached, MayMistake, Mistaken, DeliverVerdict;
    if Waiting(w.pc) {
      w' := MistakenFromWait(w, v);
    } else if w.pc.Idle? {
      w' := MistakenFromIdle(w, v);
    } else if w.pc.Spawned? {
      w' := MistakenFromNewTask(w, v);
    } else {
      OthersAreAtWork(w, v);
      w' := MistakenAtWork(w, v);
    }
  }

  // ---------- exactly when ----------

  ghost predicate CanPassUnapproved(w: World) {
    exists w' :: Leads(w, w') && PassedUnapproved(w')
  }

  lemma HarmlessStaysUnharmed(w: World, v: Verdict, w': World)
    requires Reached(w) && !MayMistake(w, v) && Leads(DeliverVerdict(w, v), w')
    ensures Unharmed(w')
  {
    hide Reached, MayMistake, Unharmed, DeliverVerdict;
    var labels :| NoRestart(labels) && Run(DeliverVerdict(w, v), labels) == w';
    HarmlessDeliveryIsSafe(w, v, labels);
  }

  lemma MistakenGrantPasses(w0: World, w: World)
    requires Leads(w0, w) && Mistaken(w, Grant)
    ensures Leads(w0, TakeStep(w)) && PassedUnapproved(TakeStep(w))
  {
    TakeVerdictLeads(w0, w);
    hide Leads;
  }

  /** Delivering a grant can let a loop past a gate that nobody has approved if and only if a
      gate is ahead of the worker that will read it, or is being waited at unapproved, and
      the run is not cancelled; otherwise every theorem holds of all that follows. */
  lemma LateGrantPassesGateIff(w: World)
    requires Reached(w)
    ensures CanPassUnapproved(DeliverVerdict(w, Grant)) <==> MayMistake(w, Grant)
    ensures !MayMistake(w, Grant) ==> forall w' :: Leads(DeliverVerdict(w, Grant), w') ==> Unharmed(w')
  {
    hide Leads, Reached, MayMistake, DeliverVerdict, TraceIsSafe, Closed;
    if MayMistake(w, Grant) {
      var w' := HarmfulDeliveryMistakes(w, Grant);
      MistakenGrantPasses(DeliverVerdict(w, Grant), w');
    } else {
      forall w' | Leads(DeliverVerdict(w, Grant), w') ensures Unharmed(w') {
        HarmlessStaysUnharmed(w, Grant, w');
      }
    }
  }

  /** In mid-run the loop has recorded no end of its own, whatever it has read. */
  predicate Unended(w: World) {
    (Bound(w.pc) || Waiting(w.pc) || w.pc.FinalizingTimeout?) ==> w.db.past.appends.terminals == 0
  }

  lemma AppendsAreNoted()
    ensures forall h: History, e: Event :: Note(h, e).appends == NoteAppend(h.appends, e)
  {
  }

  lemma UnendedGateStays(w: World, o: Outside)
    requires Unended(w) && (InGate(w.pc) || w.pc.Idle? || w.pc.Spawned? || w.pc.LoopHead?)
    ensures Unended(LoopStep(w, o))
  {
    AppendsAreNoted();
    hide Note, Faithful;
  }

  lemma UnendedObserveStays(w: World, o: Outside)
    requires Unended(w)
    requires w.pc.Observing?
    ensures Unended(LoopStep(w, o))
  {
    hide NoteGate, NoteHold, Justified;
  }

  lemma UnendedDecideStays(w: World, o: Outside)
    requires Unended(w)
    requires w.pc.Deciding?
    ensures Unended(LoopStep(w, o))
  {
    hide NoteGate, NoteHold, Justified;
  }

  lemma UnendedOpenStays(w: World, o: Outside)
    requires Unended(w)
    requires w.pc.OpeningGate?
    ensures Unended(LoopStep(w, o))
  {
    hide NoteGate, NoteHold, Justified;
  }

  lemma UnendedWaitStays(w: World, o: Outside)
    requires Unended(w)
    requires GateOpen(w.pc) || Leaving(w.pc) || w.pc.SettingRunning?
    ensures Unended(LoopStep(w, o))
  {
    AppendsAreNoted();
    hide Note, Faithful;
  }

  lemma UnendedResearchStays(w: World, o: Outside)
    requires Unended(w)
    requires w.pc.Reading? || w.pc.Modelling? || w.pc.Recording?
    ensures Unended(LoopStep(w, o))
  {
    AppendsAreNoted();
    hide Note, Faithful;
  }

  lemma UnendedActionStays(w: World, o: Outside)
    requires Unended(w)
    requires PastLastCancelPoll(w.pc)
    ensures Unended(LoopStep(w, o))
  {
    AppendsAreNoted();
    hide Note, Faithful;
  }

  lemma UnendedFinishStays(w: World, o: Outside)
    requires Unended(w)
    requires w.pc.Finishing?
    ensures Unended(LoopStep(w, o))
  {
    hide NoteGate, NoteHold, Justified;
  }

  lemma OwnCounts(w: World, kind: AuditKind)
    requires !kind.TerminalType()
    ensures Own(w, kind).db.past.appends.terminals == w.db.past.appends.terminals
  {
    hide NoteGate, NoteHold, Justified;
  }

  lemma UnendedFailStays(w: World, o: Outside)
    requires Unended(w)
    requires w.pc.Failing?
    ensures Unended(LoopStep(w, o))
  {
    hide Note, FailStep;
    UnendedFailStep(w, o);
  }

  lemma UnendedFailStep(w: World, o: Outside)
    requires Unended(w) && w.pc.Failing?
    ensures Unended(FailStep(w, o))
  {
    hide Log;
    var w1 := Own(w, ActionFailed);
    OwnCounts(w, ActionFailed);
    var armed := SignalsAt(w.db, w.signals);
    OwnCounts(w1.(db := SetSignals(w1.db, w.signals, armed.(stepRetryArmed := false))), StepRetry);
  }
  lemma ServiceKeepsTerminals(db: Db, call: Call)
    requires !call.Approve? && !call.Reject? && !call.Restart?
    ensures Serve(db, call).Ok? ==> Serve(db, call).value.past.appends.terminals == db.past.appends.terminals
  {
    AppendsAreNoted();
    hide Note, Faithful;
  }

  lemma UnendedJudgeStays(w: World, v: Verdict)
    requires Unended(w)
    ensures Unended(Operate(w, JudgeCall(v)))
  {
    if Judgeable(w).Some? {
      JudgeAsMoves(w, v);
      CommittedParts(w, Judgeable(w).value, v);
    }
    hide CommitVerdict, Note;
  }

  lemma UnendedCallStays(w: World, call: Call)
    requires Unended(w)
    ensures Unended(Operate(w, call))
  {
    hide PauseRun, ResumeRun, CancelRun, RetryRun, RunModel.TakeControl, RunModel.ReleaseControl, RunModel.Decide;
    hide StartRun, RecoverRun;
    if call.Approve? {
      UnendedJudgeStays(w, Grant);
    } else if call.Reject? {
      UnendedJudgeStays(w, Deny);
    } else if !call.Restart? {
      ServiceKeepsTerminals(w.db, call);
    }
  }

  lemma {:induction false} UnendedRunStays(w: World, labels: seq<Label>)
    requires Unended(w)
    ensures Unended(Run(w, labels))
  {
    hide Unended, LoopStep, Operate;
    if labels != [] {
      var w1, l := Run(w, labels[..|labels| - 1]), labels[|labels| - 1];
      UnendedRunStays(w, labels[..|labels| - 1]);
      match l
      case OfOperator(call) => UnendedCallStays(w1, call);
      case OfLoop(o) =>
        if InGate(w1.pc) || w1.pc.Idle? || w1.pc.Spawned? || w1.pc.LoopHead? { UnendedGateStays(w1, o); }
        else if w1.pc.Observing? { UnendedObserveStays(w1, o); }
        else if w1.pc.Deciding? { UnendedDecideStays(w1, o); }
        else if w1.pc.OpeningGate? { UnendedOpenStays(w1, o); }
        else if w1.pc.Reading? || w1.pc.Modelling? || w1.pc.Recording? { UnendedResearchStays(w1, o); }
        else if PastLastCancelPoll(w1.pc) { UnendedActionStays(w1, o); }
        else if w1.pc.Finishing? { UnendedFinishStays(w1, o); }
        else if w1.pc.Failing? { UnendedFailStays(w1, o); }
        else { UnendedWaitStays(w1, o); }
    }
  }

  ghost predicate CanEndUnclosed(w: World) {
    exists w' :: Leads(w, w') && w'.pc.Returned? && !Closed(w'.db, w'.config.maxSteps, w'.outcome)
  }

  lemma TakenDenial(w: World)
    requires Mistaken(w, Deny)
    ensures var w' := TakeStep(w);
            && w'.pc.Returned? && w'.db.trace == w.db.trace && w'.db.approvals == w.db.approvals
            && |w.db.approvals| > 0 && |w.db.approvals| - 1 !in w.db.past.gates.rejected
  {
  }

  lemma MistakenDenialEnds(w0: World, w: World)
    requires Leads(w0, w) && Mistaken(w, Deny) && Unended(w) && Faithful(w.db)
    ensures Leads(w0, TakeStep(w)) && TakeStep(w).pc.Returned?
    ensures !Closed(TakeStep(w).db, w.config.maxSteps, TakeStep(w).outcome)
  {
    TakenDenial(w);
    assert w.pc.ApprovalTake?;
    hide Leads, Unended, Faithful, Quiet, OwnAppends, SinceStart, Closed, TakeStep, Mistaken;
    TakeVerdictLeads(w0, w);
    UnendedIsQuiet(w);
    QuietIsNotClosed(TakeStep(w).db, w.config.maxSteps, TakeStep(w).outcome);
  }

  lemma QuietIsNotClosed(db: Db, maxSteps: nat, outcome: RunStatus)
    requires |db.approvals| > 0 && RejectedRow(|db.approvals| - 1) !in db.trace
    requires var own := OwnAppends(SinceStart(db.trace)); own != [] ==> !own[|own| - 1].TerminalType()
    ensures !Closed(db, maxSteps, outcome)
  {
    hide Quiet, OwnAppends, SinceStart, Observations;
  }

  lemma UnendedIsQuiet(w: World)
    requires w.pc.ApprovalTake? && Unended(w) && Faithful(w.db)
    requires |w.db.approvals| > 0 && |w.db.approvals| - 1 !in w.db.past.gates.rejected
    ensures RejectedRow(|w.db.approvals| - 1) !in w.db.trace
    ensures var own := OwnAppends(SinceStart(w.db.trace));
            RunTrace.Quiet(own) && (own != [] ==> !own[|own| - 1].TerminalType())
  {
    AppendsRecorded(w.db.trace);
    UnrejectedIsNotInTrace(w.db.trace, |w.db.approvals| - 1);
  }

  lemma UnrejectedIsNotInTrace(t: seq<Event>, row: nat)
    requires row !in Summary(t).gates.rejected
    ensures RejectedRow(row) !in t
  {
    forall i | 0 <= i < |t| ensures t[i] != RejectedRow(row) {
      if t[i].RejectedRow? { RejectedIsRecorded(t, i); }
    }
  }

  /** Delivering a denial can make a loop return with its log not closed, neither by itself nor
      by a denial of its own row, if and only if a gate is ahead of the worker that will read
      it, or is being waited at undenied, and the run is not cancelled. */
  lemma LateDenialEndsUnclosedIff(w: World)
    requires Reached(w)
    ensures CanEndUnclosed(DeliverVerdict(w, Deny)) <==> MayMistake(w, Deny)
    ensures !MayMistake(w, Deny) ==> forall w' :: Leads(DeliverVerdict(w, Deny), w') ==> Unharmed(w')
  {
    hide Leads, Inv, MayMistake, DeliverVerdict, TraceIsSafe, Closed, Mistaken, Faithful, Unended;
    var u := DeliverVerdict(w, Deny);
    if MayMistake(w, Deny) {
      var w' := HarmfulDeliveryMistakes(w, Deny);
      DeliveryIsFaithful(w, Deny);
      LeadsFaithfully(u, w');
      LeadsUnended(w, w');
      MistakenDenialEnds(u, w');
    } else {
      forall w' | Leads(u, w') ensures Unharmed(w') {
        HarmlessStaysUnharmed(w, Deny, w');
      }
    }
  }

  lemma LeadsUnended(w: World, w': World)
    requires Reached(w) && Leads(DeliverVerdict(w, Deny), w')
    ensures Unended(w')
  {
    var u := DeliverVerdict(w, Deny);
    assert Unended(u) by { hide BookInv, FreshInv, CancelInv, BudgetInv, Leads; }
    hide Unended, Reached, DeliverVerdict;
    var labels :| NoRestart(labels) && Run(u, labels) == w';
    UnendedRunStays(u, labels);
  }

  /** A reject call commits as the time of its gate runs out; the loop fails the run, the run
      is retried, and only then the denial arrives: the retried run ends, at a gate of its own
      that nobody has denied, without a terminal entry. */
  lemma TimedOutDenialEndsAnotherLoop()
    ensures exists moves ::
      var w := Play(Fresh(ONE_STEP), moves).w;
      w.pc.Returned? && !Closed(w.db, w.config.maxSteps, w.outcome)
  {
    var s := Fresh(ONE_STEP);
    var w := VerdictOutlivesItsLoop(Deny);
    assert MayMistake(w, Deny);
    hide Leads, Closed, DeliverVerdict, Reached, MayMistake;
    PlaysOn(s, Split(w, multiset{Deny}), Deliver(Deny));
    LateDenialEndsUnclosedIff(w);
    var w' :| Leads(DeliverVerdict(w, Deny), w') && w'.pc.Returned?
              && !Closed(w'.db, w'.config.maxSteps, w'.outcome);
    PlaysAlong(s, Split(DeliverVerdict(w, Deny), multiset{}), w');
    var moves :| Play(s, moves) == Split(w', multiset{});
  }
}
