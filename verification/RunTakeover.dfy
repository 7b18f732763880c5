/** When exactly a human takeover makes the loop observe anew.  The takeover guide promises
    a fresh observation after every release in mid-step; the gate keeps the promise exactly
    for the holds its own takeover poll has seen. */
module RunTakeover {
  import opened Basics
  import opened RunModel
  import opened RunSteps

  predicate InHumanWait(w: World) {
    w.pc.GateHumanCancel? || w.pc.GateHumanHeld?
  }

  /** From the takeover poll at `w` the gate stays in its wait for human control under
      every proper non-empty prefix of `labels`. */
  ghost predicate StaysInWait(w: World, labels: seq<Label>) {
    forall n :: 1 <= n < |labels| ==> InHumanWait(Run(w, labels[..n]))
  }

  lemma {:induction false} WaitRemembersThePoll(w: World, labels: seq<Label>)
    requires w.pc.GateTakeover? && |labels| > 0 && labels[0].OfLoop? && StaysInWait(w, labels)
    ensures var w' := Run(w, labels);
            && (InHumanWait(w') ==> w'.waited == w.db.Held() && w'.where == w.where)
            && (w'.pc.LoopHead? ==> w.db.Held() && w.where.MidStep())
            && (w'.pc.GatePauseCancel? ==> !w.db.Held() || !w.where.MidStep())
            && (InHumanWait(w') || w'.pc.LoopHead? || w'.pc.GatePauseCancel? || w'.pc.Returned? || w'.pc.Idle?)
  {
    var before := labels[..|labels| - 1];
    if before == [] {
      assert labels == [labels[0]];
      FirstPoll(w, labels[0].outside);
    } else {
      assert before[0] == labels[0];
      forall n | 1 <= n < |before| ensures InHumanWait(Run(w, before[..n])) {
        assert before[..n] == labels[..n];
      }
      WaitRemembersThePoll(w, before);
      assert before == labels[..|labels| - 1];
      WaitStep(Run(w, before), labels[|labels| - 1]);
    }
  }

  lemma FirstPoll(w: World, o: Outside)
    requires w.pc.GateTakeover?
    ensures Run(w, [OfLoop(o)]) == TakeoverPoll(w)
  {
    assert [OfLoop(o)][..0] == [];
    assert Run(w, []) == w;
  }

  lemma WaitStep(w: World, l: Label)
    requires InHumanWait(w)
    ensures var w' := Step(w, l);
            && (InHumanWait(w') ==> w'.waited == w.waited && w'.where == w.where)
            && (w'.pc.LoopHead? ==> w.waited && w.where.MidStep())
            && (w'.pc.GatePauseCancel? ==> !w.waited || !w.where.MidStep())
            && (InHumanWait(w') || w'.pc.LoopHead? || w'.pc.GatePauseCancel? || w'.pc.Returned? || w'.pc.Idle?)
  {
  }

  /** A mid-step gate that ends its wait neither cancelled nor lost in a restart discards
      the step exactly when its takeover poll found the run held. */
  lemma StepDiscardedIffPollSawHold(w: World, labels: seq<Label>)
    requires w.pc.GateTakeover? && w.where.MidStep()
    requires |labels| > 0 && labels[0].OfLoop? && StaysInWait(w, labels)
    requires var pc := Run(w, labels).pc; !InHumanWait(Run(w, labels)) && !pc.Returned? && !pc.Idle?
    ensures Run(w, labels).pc.LoopHead? <==> w.db.Held()
  {
    WaitRemembersThePoll(w, labels);
  }

  // ---------- a hold the poll has not seen ----------

  predicate NoRestart(labels: seq<Label>) {
    forall i :: 0 <= i < |labels| ==> labels[i] != OfOperator(Restart)
  }

  /** Some history of one process leads from `w` to `w'`. */
  ghost predicate Leads(w: World, w': World) {
    exists labels :: NoRestart(labels) && Run(w, labels) == w'
  }

  lemma LeadsOn(w: World, w': World, l: Label)
    requires Leads(w, w') && l != OfOperator(Restart)
    ensures Leads(w, Step(w', l))
  {
    var labels :| NoRestart(labels) && Run(w, labels) == w';
    assert (labels + [l])[..|labels|] == labels;
    assert NoRestart(labels + [l]) && Run(w, labels + [l]) == Step(w', l);
  }

  lemma LeadsNowhere(w: World)
    ensures Leads(w, w)
  {
    assert NoRestart([]) && Run(w, []) == w;
  }

  const CALM := Outside(Action(BrowserAction, false), false, true, false, false, false)

  /** Nothing happens around the loop for one step. */
  lemma LeadsCalmly(w: World, w': World)
    requires Leads(w, w')
    ensures Leads(w, LoopStep(w', CALM))
  {
    LeadsOn(w, w', OfLoop(CALM));
  }

  /** An undisturbed gate of a running run is passed. */
  lemma GateIsPassed(w: World, w': World)
    requires Leads(w, w') && w'.pc.GateFirstCancel? && w'.db.run.status.Running?
    ensures Leads(w, PassGate(w'.(pc := GateLastCancel, waited := false)))
  {
    hide Leads;
    LeadsCalmly(w, w');
    LeadsCalmly(w, w'.(pc := GateTakeover));
    LeadsCalmly(w, w'.(pc := GateHumanCancel, waited := false));
    LeadsCalmly(w, w'.(pc := GateHumanHeld, waited := false));
    LeadsCalmly(w, w'.(pc := GatePauseCancel, waited := false));
    LeadsCalmly(w, w'.(pc := GatePauseHeld, waited := false));
    LeadsCalmly(w, w'.(pc := GateLastCancel, waited := false));
  }

  const ONE_STEP := Config(1, true, false)

  lemma ReachesSpawned() returns (w: World)
    ensures Leads(Created(ONE_STEP), w)
    ensures w.pc.Spawned? && w.db.run.status.Running? && w.config == ONE_STEP && w.steps == 0
    ensures w.db.past.length == |w.db.trace|
  {
    var w0 := Created(ONE_STEP);
    LeadsNowhere(w0);
    LeadsOn(w0, w0, OfOperator(Start));
    hide Leads, Run;
    w := Step(w0, OfOperator(Start));
  }

  lemma SpawnedLeads(w0: World, w: World)
    requires Leads(w0, w) && w.pc.Spawned?
    ensures Leads(w0, SpawnedStep(w, CALM))
  {
    LeadsCalmly(w0, w);
  }

  lemma HeadLeads(w0: World, w: World)
    requires Leads(w0, w) && w.pc.LoopHead? && w.steps < w.config.maxSteps
    ensures Leads(w0, EnterGate(w, BetweenSteps))
  {
    LeadsCalmly(w0, w);
  }

  lemma ReachesFirstGate() returns (w: World)
    ensures Leads(Created(ONE_STEP), w)
    ensures w.pc.GateFirstCancel? && w.where.BetweenSteps? && w.db.run.status.Running? && w.config == ONE_STEP
    ensures w.db.past.length == |w.db.trace|
  {
    hide Leads, Created;
    var w0 := Created(ONE_STEP);
    w := ReachesSpawned();
    SpawnedLeads(w0, w);
    w := SpawnedStep(w, CALM);
    HeadLeads(w0, w);
    w := EnterGate(w, BetweenSteps);
  }

  lemma ReachesObserving() returns (w: World)
    ensures Leads(Created(ONE_STEP), w)
    ensures w.pc.Observing? && w.db.run.status.Running? && w.config == ONE_STEP && w.db.past.length == |w.db.trace|
  {
    hide Leads, Created;
    var w0 := Created(ONE_STEP);
    var w3 := ReachesFirstGate();
    GateIsPassed(w0, w3);
    w := PassGate(w3.(pc := GateLastCancel, waited := false));
    GateIsPassed(w0, w);
    w := PassGate(w.(pc := GateLastCancel, waited := false));
  }

  lemma ObserveLeads(w0: World, w: World)
    requires Leads(w0, w) && w.pc.Observing?
    ensures Leads(w0, ObserveStep(w, CALM))
  {
    LeadsCalmly(w0, w);
  }

  lemma DecideLeads(w0: World, w: World)
    requires Leads(w0, w) && w.pc.Deciding?
    ensures Leads(w0, DecideStep(w, CALM))
  {
    LeadsCalmly(w0, w);
  }

  lemma FirstPollLeads(w0: World, w: World)
    requires Leads(w0, w) && w.pc.GateFirstCancel? && w.db.run.status.Running?
    ensures Leads(w0, At(w, GateTakeover))
  {
    LeadsCalmly(w0, w);
  }

  lemma ReachesTakeoverPoll() returns (w: World)
    ensures Leads(Created(ONE_STEP), w)
    ensures w.pc.GateTakeover? && w.where.BeforeExecute? && w.db.run.status.Running? && w.config == ONE_STEP
    ensures w.d.action == CALM.action && w.d.observedAt < |w.db.trace|
  {
    hide Leads, Created;
    var w0 := Created(ONE_STEP);
    w := ReachesObserving();
    ObserveLeads(w0, w);
    w := ObserveStep(w, CALM);
    GateIsPassed(w0, w);
    w := PassGate(w.(pc := GateLastCancel, waited := false));
    DecideLeads(w0, w);
    w := DecideStep(w, CALM);
    FirstPollLeads(w0, w);
    w := At(w, GateTakeover);
  }

  /** The gate goes through its wait while a human takes and releases control right after
      the takeover poll. */
  lemma HoldBetweenPolls(w0: World, w: World) returns (w': World)
    requires Leads(w0, w) && w.pc.GateTakeover? && w.where.BeforeExecute? && w.db.run.status.Running?
    ensures Leads(w0, w') && w'.pc.GatePauseCancel? && w'.db.run.status.Running?
    ensures w'.where == w.where && w'.d == w.d
    ensures |w.db.trace| + 2 < |w'.db.trace| && w'.db.trace[|w.db.trace| + 2] == HoldMissed
  {
    hide Leads;
    var w1 := TakenAfterPoll(w0, w);
    w' := ReleasedInWait(w0, w1);
  }

  /** Control is taken right after the poll that found it free. */
  lemma TakeLeads(w0: World, w: World) returns (w': World)
    requires Leads(w0, w) && w.pc.GateTakeover? && w.db.run.status.Running?
    ensures Leads(w0, w') && w'.pc.GateHumanCancel? && !w'.waited && w'.db.Held()
    ensures w'.where == w.where && w'.d == w.d && |w'.db.trace| == |w.db.trace| + 2
  {
    LeadsCalmly(w0, w);
    LeadsOn(w0, TakeoverPoll(w), OfOperator(Call.TakeControl));
    hide Leads;
    w' := Operate(TakeoverPoll(w), Call.TakeControl);
  }

  lemma HumanPollLeads(w0: World, w: World)
    requires Leads(w0, w) && w.pc.GateHumanCancel? && !w.db.run.status.Cancelled?
    ensures Leads(w0, HeldPoll(At(w, GateHumanHeld)))
  {
    LeadsCalmly(w0, w);
    LeadsCalmly(w0, At(w, GateHumanHeld));
  }

  lemma TakenAfterPoll(w0: World, w: World) returns (w': World)
    requires Leads(w0, w) && w.pc.GateTakeover? && w.db.run.status.Running?
    ensures Leads(w0, w') && w'.pc.GateHumanCancel? && !w'.waited && w'.db.Held()
    ensures w'.where == w.where && w'.d == w.d
    ensures |w'.db.trace| == |w.db.trace| + 3 && w'.db.trace[|w.db.trace| + 2] == HoldMissed
  {
    hide Leads;
    w' := TakeLeads(w0, w);
    HumanPollLeads(w0, w');
    w' := HeldPoll(At(w', GateHumanHeld));
  }

  lemma ReleasedInWait(w0: World, w: World) returns (w': World)
    requires Leads(w0, w) && w.pc.GateHumanCancel? && !w.waited && w.db.Held()
    ensures Leads(w0, w') && w'.pc.GatePauseCancel? && w'.db.run.status.Running?
    ensures w'.where == w.where && w'.d == w.d
    ensures |w.db.trace| <= |w'.db.trace| && w'.db.trace[..|w.db.trace|] == w.db.trace
  {
    LeadsOn(w0, w, OfOperator(Call.ReleaseControl));
    hide Leads;
    w' := Operate(w, Call.ReleaseControl);
    HumanPollLeads(w0, w');
    w' := At(w', GatePauseCancel);
  }

  lemma PausePollsToRequest(w0: World, w: World)
    requires Leads(w0, w) && w.pc.GatePauseCancel? && w.where.BeforeExecute? && w.db.run.status.Running?
    requires w.d.action == CALM.action
    ensures Leads(w0, At(w, Requesting))
  {
    hide Leads;
    LeadsCalmly(w0, w);
    LeadsCalmly(w0, At(w, GatePauseHeld));
    LeadsCalmly(w0, At(w, GateLastCancel));
  }

  lemma RequestLeads(w0: World, w: World)
    requires Leads(w0, w) && w.pc.Requesting?
    ensures Leads(w0, At(Own(w, ActionRequested), GuardPoll))
  {
    LeadsCalmly(w0, w);
  }

  lemma GuardLeads(w0: World, w: World)
    requires Leads(w0, w) && w.pc.GuardPoll? && !w.db.Held()
    ensures Leads(w0, w.(db := Log(w.db, GuardPassed), pc := Executing))
  {
    LeadsCalmly(w0, w);
  }

  lemma ExecuteLeads(w0: World, w: World)
    requires Leads(w0, w) && w.pc.Executing?
    ensures Leads(w0, w.(db := Log(w.db, ExecStarted(w.d)), pc := Finishing))
  {
    LeadsCalmly(w0, w);
  }

  lemma RequestToExecute(w0: World, w: World) returns (w': World)
    requires Leads(w0, w) && w.pc.Requesting? && w.db.run.status.Running?
    ensures Leads(w0, w')
    ensures w'.db.trace == w.db.trace + [Appended(true, ActionRequested), GuardPassed, ExecStarted(w.d)]
  {
    hide Leads;
    RequestLeads(w0, w);
    w' := At(Own(w, ActionRequested), GuardPoll);
    GuardLeads(w0, w');
    w' := w'.(db := Log(w'.db, GuardPassed), pc := Executing);
    ExecuteLeads(w0, w');
    w' := w'.(db := Log(w'.db, ExecStarted(w'.d)), pc := Finishing);
  }

  /** The hold at position i parked the gate, and yet the execute at position j was decided
      from an observation older than the hold. */
  predicate StaleExecute(t: seq<Event>, i: nat, j: nat) {
    i < j < |t| && t[i].HoldMissed? && t[j].ExecStarted? && t[j].decision.observedAt < i
  }

  /** A takeover that falls between the takeover poll and the wait's first poll parks the
      loop but does not make it observe anew. */
  lemma HoldBetweenPollsIsNotReobserved()
    ensures exists labels, i: nat, j: nat :: StaleExecute(Run(Created(ONE_STEP), labels).db.trace, i, j)
  {
    var w0 := Created(ONE_STEP);
    var w := ReachesTakeoverPoll();
    var w1 := HoldBetweenPolls(w0, w);
    PausePollsToRequest(w0, w1);
    var w2 := RequestToExecute(w0, At(w1, Requesting));
    assert StaleExecute(w2.db.trace, |w.db.trace| + 2, |w2.db.trace| - 1);
    var labels :| NoRestart(labels) && Run(w0, labels) == w2;
  }
}
