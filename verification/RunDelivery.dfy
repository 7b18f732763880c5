/** Approve and reject calls in their two steps.  They commit the row, the status and the
    audit entry first, and hand their verdict to the signals hub afterwards; other calls, the
    loop, a retry and a new worker may come in between.  When does a late verdict stay
    harmless? */
module RunDelivery {
  import opened Basics
  import opened RunModel
  import opened RunSteps
  import opened RunInvariant
  import opened RunTrace
  import opened RunSafety
  import opened RunTakeover

  /** A run and the verdicts that are committed but not yet delivered. */
  datatype Split = Split(w: World, undelivered: multiset<Verdict>)

  datatype Move = Plain(turn: Label) | Commit(v: Verdict) | Deliver(v: Verdict)

  /** The row an approve or reject call would act on now. */
  function Judgeable(w: World): (row: Option<nat>)
    ensures row.Some? ==> row.value < |w.db.approvals|
  {
    if w.db.run.status.AwaitingApproval? then PendingApproval(w.db.approvals) else None
  }

  /** A restart ends the handlers of the lost process together with its worker. */
  function Go(s: Split, m: Move): Split {
    match m
    case Plain(l) => Split(Step(s.w, l), if l == OfOperator(Restart) then multiset{} else s.undelivered)
    case Commit(v) =>
      var row := Judgeable(s.w);
      if row.None? then s else Split(CommitVerdict(s.w, row.value, v), s.undelivered + multiset{v})
    case Deliver(v) =>
      if v in s.undelivered then Split(DeliverVerdict(s.w, v), s.undelivered - multiset{v}) else s
  }

  function Play(s: Split, moves: seq<Move>): Split {
    if moves == [] then s else Go(Play(s, moves[..|moves| - 1]), moves[|moves| - 1])
  }

  function Fresh(config: Config): Split {
    Split(Created(config), multiset{})
  }

  /** The approve and reject calls of the other modules commit and deliver at once. */
  lemma JudgeIsCommitThenDeliver(s: Split, v: Verdict)
    requires Judgeable(s.w).Some?
    ensures Go(Go(s, Commit(v)), Deliver(v)) == Go(s, Plain(OfOperator(JudgeCall(v))))
  {
    hide CommitVerdict, DeliverVerdict;
    JudgeAsMoves(s.w, v);
    assert s.undelivered + multiset{v} - multiset{v} == s.undelivered;
  }

  // ---------- timely deliveries are harmless ----------

  /** At every delivery of the history no loop could take the verdict for another gate's. */
  ghost predicate AlwaysTimely(s: Split, moves: seq<Move>) {
    forall n :: 0 <= n < |moves| && moves[n].Deliver? && moves[n].v in Play(s, moves[..n]).undelivered ==>
      Timely(Play(s, moves[..n]).w, moves[n].v)
  }

  /** A delivery keeps the invariant if and only if it is timely. */
  lemma DeliveryKeepsIff(w: World, v: Verdict)
    requires Inv(w)
    ensures Inv(DeliverVerdict(w, v)) <==> Timely(w, v)
  {
    if Timely(w, v) {
      DeliverVerdictKeeps(w, v);
    } else {
      LateVerdictBreaks(w, v);
    }
  }

  lemma LateVerdictBreaks(w: World, v: Verdict)
    requires BookInv(w) && !Timely(w, v)
    ensures !BookInv(DeliverVerdict(w, v))
  {
    hide RowsInv;
  }

  lemma {:induction false} TimelyStatesAreReached(config: Config, moves: seq<Move>)
    requires AlwaysTimely(Fresh(config), moves)
    ensures Reached(Play(Fresh(config), moves).w) && Play(Fresh(config), moves).w.config == config
  {
    var s0 := Fresh(config);
    if moves == [] {
      assert Play(s0, moves) == s0;
      EveryStateIsSafe(config, []);
      assert Run(Created(config), []) == Created(config);
    } else {
      var before, m := moves[..|moves| - 1], moves[|moves| - 1];
      forall n | 0 <= n < |before| ensures before[n] == moves[n] && before[..n] == moves[..n] {
      }
      TimelyStatesAreReached(config, before);
      hide Reached, Timely;
      MoveKeeps(Play(s0, before), m);
    }
  }

  lemma MoveKeeps(s: Split, m: Move)
    requires Reached(s.w)
    requires m.Deliver? && m.v in s.undelivered ==> Timely(s.w, m.v)
    ensures Reached(Go(s, m).w) && Go(s, m).w.config == s.w.config
  {
    hide Inv, Faithful, Timely, JudgeRow;
    match m
    case Plain(l) => StepKeeps(s.w, l); StepExtends(s.w, l);
    case Commit(v) =>
      if Judgeable(s.w).Some? {
        CommitVerdictKeeps(s.w, Judgeable(s.w).value, v);
        CommitIsFaithful(s.w, Judgeable(s.w).value, v);
      }
    case Deliver(v) =>
      if v in s.undelivered {
        DeliverVerdictKeeps(s.w, v);
        DeliveryIsFaithful(s.w, v);
      }
  }

  lemma CommitIsFaithful(w: World, row: nat, v: Verdict)
    requires Faithful(w.db) && row < |w.db.approvals|
    ensures Faithful(CommitVerdict(w, row, v).db) && CommitVerdict(w, row, v).config == w.config
  {
    hide Note;
  }

  lemma DeliveryIsFaithful(w: World, v: Verdict)
    requires Faithful(w.db)
    ensures Faithful(DeliverVerdict(w, v).db) && DeliverVerdict(w, v).config == w.config
  {
  }

  /** However late verdicts are delivered, as long as each delivery is timely every theorem
      about the trace of a run holds, and a loop that returns has closed its log. */
  lemma TimelyHistoriesAreSafe(config: Config, moves: seq<Move>)
    requires AlwaysTimely(Fresh(config), moves)
    ensures var w := Play(Fresh(config), moves).w;
            TraceIsSafe(w.db.trace) && (w.pc.Returned? ==> Closed(w.db, config.maxSteps, w.outcome))
  {
    hide Play, Reached, TraceIsSafe, Closed;
    TimelyStatesAreReached(config, moves);
    ReachedIsSafe(Play(Fresh(config), moves).w);
    ReturnedLoopIsClosed(Play(Fresh(config), moves).w);
  }

  // ---------- late deliveries are not ----------

  const GATED_CLICK := Action(BrowserAction, true)

  /** A loop whose signals object still holds the verdict, for a run with `rows` rows of which
      those in `judged` were judged so. */
  predicate Carries(w: World, v: Verdict, rows: nat, judged: set<nat>) {
    && w.config.timed
    && w.db.hub == Some(w.signals) && SignalsAt(w.db, w.signals).decision == Some(v)
    && |w.db.approvals| == rows && Judged(w.db.past.gates, v) == judged
  }

  /** A worker about to start that will find the verdict in its hub. */
  predicate Finds(w: World, v: Verdict) {
    && w.pc.Spawned? && w.db.run.status.Running? && w.steps == 0
    && w.db.hub.Some? && SignalsAt(w.db, w.db.hub.value).decision == Some(v)
  }

  lemma CarryToFirstGate(w0: World, w: World, v: Verdict) returns (w': World)
    requires Leads(w0, w) && Finds(w, v) && w.config.timed && w.config.maxSteps > 0
    ensures Leads(w0, w') && w'.pc.GateFirstCancel? && w'.where.BetweenSteps? && w'.db.run.status.Running?
    ensures Carries(w', v, |w.db.approvals|, Judged(w.db.past.gates, v))
  {
    hide Leads;
    SpawnedLeads(w0, w);
    w' := SpawnedStep(w, CALM);
    HeadLeads(w0, w');
    w' := EnterGate(w', BetweenSteps);
  }

  lemma CarryToObserving(w0: World, w: World, v: Verdict, rows: nat, judged: set<nat>) returns (w': World)
    requires Leads(w0, w) && w.pc.GateFirstCancel? && w.where.BetweenSteps? && w.db.run.status.Running?
    requires Carries(w, v, rows, judged)
    ensures Leads(w0, w') && w'.pc.Observing? && w'.db.run.status.Running? && Carries(w', v, rows, judged)
  {
    hide Leads;
    GateIsPassed(w0, w);
    w' := PassGate(w.(pc := GateLastCancel, waited := false));
    GateIsPassed(w0, w');
    w' := PassGate(w'.(pc := GateLastCancel, waited := false));
  }

  lemma CarryToDeciding(w0: World, w: World, v: Verdict, rows: nat, judged: set<nat>) returns (w': World)
    requires Leads(w0, w) && w.pc.Observing? && w.db.run.status.Running? && Carries(w, v, rows, judged)
    ensures Leads(w0, w') && w'.pc.Deciding? && w'.db.run.status.Running? && Carries(w', v, rows, judged)
  {
    hide Leads;
    ObserveLeads(w0, w);
    w' := ObserveStep(w, CALM);
    GateIsPassed(w0, w');
    w' := PassGate(w'.(pc := GateLastCancel, waited := false));
  }

  lemma GatedDecisionLeads(w0: World, w: World) returns (w': World)
    requires Leads(w0, w) && w.pc.Deciding?
    ensures w' == DecideStep(w, CALM.(action := GATED_CLICK)) && Leads(w0, w')
  {
    LeadsOn(w0, w, OfLoop(CALM.(action := GATED_CLICK)));
    hide Leads;
    w' := DecideStep(w, CALM.(action := GATED_CLICK));
  }

  lemma OpenGateLeads(w0: World, w: World)
    requires Leads(w0, w) && w.pc.OpeningGate?
    ensures Leads(w0, OpenGateStep(w, CALM))
  {
    LeadsCalmly(w0, w);
  }

  lemma CarryToGate(w0: World, w: World, v: Verdict, rows: nat, judged: set<nat>) returns (w': World)
    requires Leads(w0, w) && w.pc.Deciding? && w.db.run.status.Running? && Carries(w, v, rows, judged)
    ensures Leads(w0, w') && w'.pc.SettingAwaiting? && w'.db.run.status.Running?
    ensures Carries(w', v, rows + 1, judged) && w'.d.action == GATED_CLICK && w'.d.approval == Some(rows)
  {
    hide Leads, NoteHold, NoteAppend, Justified;
    w' := GatedDecisionLeads(w0, w);
    OpenGateLeads(w0, w');
    w' := OpenGateStep(w', CALM);
  }

  lemma AwaitingLeads(w0: World, w: World)
    requires Leads(w0, w) && w.pc.SettingAwaiting?
    ensures Leads(w0, SetAwaitingStep(w))
  {
    LeadsCalmly(w0, w);
  }

  /** The loop comes to take the verdict at a gate that was never judged. */
  lemma CarryToTake(w0: World, w: World, v: Verdict, rows: nat, judged: set<nat>) returns (w': World)
    requires Leads(w0, w) && w.pc.SettingAwaiting? && w.db.run.status.Running? && Carries(w, v, rows, judged)
    ensures Leads(w0, w') && w'.pc.ApprovalTake? && w'.db.run.status.AwaitingApproval?
    ensures Carries(w', v, rows, judged) && w'.d == w.d
  {
    hide Leads, NoteHold, NoteAppend, Justified;
    AwaitingLeads(w0, w);
    w' := SetAwaitingStep(w);
    FirstWaitPollLeads(w0, w');
    w' := At(w', ApprovalTake);
  }

  lemma FirstWaitPollLeads(w0: World, w: World)
    requires Leads(w0, w) && w.pc.ApprovalCancel? && !w.db.CancelRequested()
    ensures Leads(w0, At(w, ApprovalTake))
  {
    LeadsCalmly(w0, w);
  }

  lemma TakeVerdictLeads(w0: World, w: World)
    requires Leads(w0, w) && w.pc.ApprovalTake?
    ensures Leads(w0, TakeStep(w))
  {
    LeadsCalmly(w0, w);
  }

  /** The late grant ends the wait of a gate that nobody has approved. */
  lemma CarryPastGate(w0: World, w: World, rows: nat, approved: set<nat>) returns (w': World)
    requires Leads(w0, w) && w.pc.SettingAwaiting? && w.db.run.status.Running? && Carries(w, Grant, rows, approved)
    ensures Leads(w0, w') && w'.pc.SettingRunning? && w'.db.run.status.AwaitingApproval?
    ensures w'.d == w.d && w'.db.past.gates.approved == approved
  {
    hide Leads;
    w' := CarryToTake(w0, w, Grant, rows, approved);
    TakeVerdictLeads(w0, w');
    w' := TakeStep(w');
  }

  lemma RunningLeads(w0: World, w: World)
    requires Leads(w0, w) && w.pc.SettingRunning?
    ensures Leads(w0, EnterGate(w.(db := SetStatus(w.db, Running)), BeforeExecute))
  {
    LeadsCalmly(w0, w);
  }

  lemma PastGateToRequest(w0: World, w: World, approved: set<nat>) returns (w': World)
    requires Leads(w0, w) && w.pc.SettingRunning? && w.db.run.status.AwaitingApproval?
    requires w.d.action == GATED_CLICK && w.db.past.gates.approved == approved
    ensures Leads(w0, w') && w'.pc.Requesting? && w'.db.run.status.Running?
    ensures w'.d == w.d && w'.db.past.gates.approved == approved
  {
    hide Leads, NoteHold, NoteAppend, Justified;
    RunningLeads(w0, w);
    w' := EnterGate(w.(db := SetStatus(w.db, Running)), BeforeExecute);
    GateIsPassed(w0, w');
    w' := PassGate(w'.(pc := GateLastCancel, waited := false));
  }

  lemma LeadsReached(w: World, w': World)
    requires Leads(w, w') && Reached(w)
    ensures Reached(w')
  {
    hide Reached;
    var labels :| NoRestart(labels) && Run(w, labels) == w';
    RunReached(w, labels);
  }

  lemma {:induction false} RunReached(w: World, labels: seq<Label>)
    requires Reached(w)
    ensures Reached(Run(w, labels))
  {
    hide Reached;
    if labels != [] {
      RunReached(w, labels[..|labels| - 1]);
      StepKeeps(Run(w, labels[..|labels| - 1]), labels[|labels| - 1]);
    }
  }

  lemma LeadsFaithfully(w: World, w': World)
    requires Leads(w, w') && Faithful(w.db)
    ensures Faithful(w'.db)
  {
    hide Faithful;
    var labels :| NoRestart(labels) && Run(w, labels) == w';
    RunIsFaithful(w, labels);
  }

  lemma {:induction false} RunIsFaithful(w: World, labels: seq<Label>)
    requires Faithful(w.db)
    ensures Faithful(Run(w, labels).db)
  {
    hide Faithful;
    if labels != [] {
      RunIsFaithful(w, labels[..|labels| - 1]);
      var before := Run(w, labels[..|labels| - 1]);
      StepExtends(before, labels[|labels| - 1]);
      assert Extends(before.db, Step(before, labels[|labels| - 1]).db);
    }
  }

  /** The last event executes a gated action whose row no approve call has named. */
  predicate EndsUnapproved(t: seq<Event>) {
    && t != [] && t[|t| - 1].ExecStarted? && t[|t| - 1].decision.action.gated
    && t[|t| - 1].decision.approval.Some?
    && ApprovedRow(t[|t| - 1].decision.approval.value) !in t
  }

  lemma UnapprovedIsUnsafe(t: seq<Event>)
    requires EndsUnapproved(t)
    ensures !ExecutesWereApproved(t)
  {
    var i := |t| - 1;
    forall k: nat, j: nat ensures !AuthorisedBy(t, k, j, i) {
    }
  }

  lemma RequestToUnapproved(w0: World, w: World, row: nat) returns (w': World)
    requires Leads(w0, w) && w.pc.Requesting? && w.db.run.status.Running? && Faithful(w.db)
    requires w.d.action.gated && w.d.approval == Some(row) && row !in w.db.past.gates.approved
    ensures Leads(w0, w') && EndsUnapproved(w'.db.trace)
  {
    hide Leads;
    w' := RequestToExecute(w0, w);
    forall j | 0 <= j < |w.db.trace| ensures w.db.trace[j] != ApprovedRow(row) {
      if w.db.trace[j].ApprovedRow? { ApprovedIsRecorded(w.db.trace, j); }
    }
  }

  /** A worker that starts with a grant in its hub can execute an action that no approve
      call was made for. */
  lemma FoundGrantAuthorisesAnything(w0: World, w: World) returns (w': World)
    requires Leads(w0, w) && Faithful(w0.db) && Finds(w, Grant) && w.config.timed && w.config.maxSteps > 0
    requires |w.db.approvals| !in w.db.past.gates.approved
    ensures Leads(w0, w') && EndsUnapproved(w'.db.trace)
  {
    hide Leads, Carries, Faithful, Finds, EndsUnapproved;
    var rows, approved := |w.db.approvals|, w.db.past.gates.approved;
    w' := CarryToFirstGate(w0, w, Grant);
    w' := CarryToObserving(w0, w', Grant, rows, approved);
    w' := CarryToDeciding(w0, w', Grant, rows, approved);
    w' := CarryToGate(w0, w', Grant, rows, approved);
    w' := CarryPastGate(w0, w', rows + 1, approved);
    w' := PastGateToRequest(w0, w', approved);
    LeadsFaithfully(w0, w');
    w' := RequestToUnapproved(w0, w', rows);
  }

  /** No worker is at work on the run, or one is about to begin. */
  predicate BetweenWorkers(w: World) {
    w.pc.Idle? || (w.pc.Spawned? && w.db.run.status.Running?)
  }

  lemma DeliveryKeepsRows(w: World)
    requires Reached(w)
    ensures |DeliverVerdict(w, Grant).db.approvals| !in DeliverVerdict(w, Grant).db.past.gates.approved
  {
    hide FreshInv, CancelInv, AppendInv, VerdictInv;
  }

  lemma StartedWorkerFinds(w: World)
    requires Reached(w) && w.pc.Idle? && !w.db.run.status.Terminal()
    ensures var w' := Operate(DeliverVerdict(w, Grant), Start);
            Finds(w', Grant) && w'.config == w.config
            && w'.db.approvals == w.db.approvals && w'.db.past.gates == w.db.past.gates
  {
    hide FreshInv, CancelInv, AppendInv, VerdictInv, NoteHold, NoteAppend, Justified;
  }

  lemma SpawnedWorkerFinds(w: World)
    requires Reached(w) && w.pc.Spawned? && w.db.run.status.Running?
    ensures Finds(DeliverVerdict(w, Grant), Grant)
  {
    hide FreshInv, CancelInv, AppendInv, VerdictInv;
  }

  lemma DeliveryIsFound(w: World) returns (w': World)
    requires Reached(w) && BetweenWorkers(w) && !Timely(w, Grant)
    ensures Leads(DeliverVerdict(w, Grant), w') && Finds(w', Grant) && w'.config == w.config
    ensures |w'.db.approvals| !in w'.db.past.gates.approved
  {
    hide Reached, Finds, Operate, Leads;
    w' := DeliverVerdict(w, Grant);
    LeadsNowhere(w');
    DeliveryKeepsRows(w);
    if w.pc.Idle? {
      StartedWorkerFinds(w);
      LeadsOn(w', w', OfOperator(Start));
      w' := Operate(w', Start);
    } else {
      SpawnedWorkerFinds(w);
    }
  }

  ghost predicate CanMislead(w: World) {
    exists w' :: Leads(w, w') && !ExecutesWereApproved(w'.db.trace)
  }

  /** A grant delivered between two workers can authorise what nobody approved if and only
      if it is not timely: if the run has been queued again or its next worker started. */
  lemma LateGrantMisleadsIff(w: World)
    requires Reached(w) && BetweenWorkers(w) && w.config.timed && w.config.maxSteps > 0
    ensures CanMislead(DeliverVerdict(w, Grant)) <==> !Timely(w, Grant)
  {
    hide Leads, ExecutesWereApproved, EndsUnapproved, Timely, DeliverVerdict, Inv, Faithful;
    DeliveryIsFaithful(w, Grant);
    if Timely(w, Grant) {
      DeliverVerdictKeeps(w, Grant);
      forall w' | Leads(DeliverVerdict(w, Grant), w') ensures ExecutesWereApproved(w'.db.trace) {
        LeadsReached(DeliverVerdict(w, Grant), w');
        ReachedIsSafe(w');
      }
    } else {
      var w1 := DeliveryIsFound(w);
      var w2 := FoundGrantAuthorisesAnything(DeliverVerdict(w, Grant), w1);
      UnapprovedIsUnsafe(w2.db.trace);
    }
  }

  // ---------- such a run ----------

  ghost predicate Plays(s: Split, s': Split) {
    exists moves :: Play(s, moves) == s'
  }

  lemma PlaysOn(s: Split, s': Split, m: Move)
    requires Plays(s, s')
    ensures Plays(s, Go(s', m))
  {
    var moves :| Play(s, moves) == s';
    assert (moves + [m])[..|moves|] == moves;
    assert Play(s, moves + [m]) == Go(s', m);
  }

  lemma PlaysAlong(s: Split, s': Split, w': World)
    requires Plays(s, s') && Leads(s'.w, w')
    ensures Plays(s, s'.(w := w'))
  {
    hide Plays;
    var labels :| NoRestart(labels) && Run(s'.w, labels) == w';
    PlaysLabels(s, s', labels);
  }

  lemma {:induction false} PlaysLabels(s: Split, s': Split, labels: seq<Label>)
    requires Plays(s, s') && NoRestart(labels)
    ensures Plays(s, s'.(w := Run(s'.w, labels)))
  {
    hide Plays;
    if labels != [] {
      var before, l := labels[..|labels| - 1], labels[|labels| - 1];
      assert NoRestart(before);
      PlaysLabels(s, s', before);
      PlaysOn(s, s'.(w := Run(s'.w, before)), Plain(l));
      assert l != OfOperator(Restart);
    }
  }

  /** A gate that nobody answers until its time is up. */
  lemma ReachesGate() returns (w: World)
    ensures Leads(Created(ONE_STEP), w) && w.pc.SettingAwaiting? && w.db.run.status.Running?
    ensures w.config == ONE_STEP
  {
    hide Leads, Created, NoteHold, NoteAppend, Justified;
    var w0 := Created(ONE_STEP);
    w := ReachesObserving();
    ObserveLeads(w0, w);
    w := ObserveStep(w, CALM);
    GateIsPassed(w0, w);
    w := PassGate(w.(pc := GateLastCancel, waited := false));
    w := GatedDecisionLeads(w0, w);
    OpenGateLeads(w0, w);
    w := OpenGateStep(w, CALM);
  }

  lemma UnansweredGateExpires(w0: World, w: World) returns (w': World)
    requires Leads(w0, w) && w.pc.SettingAwaiting? && w.db.run.status.Running? && w.config.timed && Reached(w)
    ensures Leads(w0, w') && w'.pc.FinalizingTimeout? && w'.config == w.config && Judgeable(w').Some?
  {
    assert SignalsAt(w.db, w.signals).decision.None?;
    assert |w.db.approvals| > 0 && w.db.approvals[|w.db.approvals| - 1].Requested?;
    hide Leads, Inv, Faithful;
    AwaitingLeads(w0, w);
    w' := SetAwaitingStep(w);
    ExpiryLeads(w0, w');
    w' := At(TakeStep(At(w', ApprovalTake)), FinalizingTimeout);
  }

  lemma ExpiryLeads(w0: World, w: World)
    requires Leads(w0, w) && w.pc.ApprovalCancel? && w.db.run.status.AwaitingApproval? && !w.recheck
    requires SignalsAt(w.db, w.signals).decision.None?
    ensures Leads(w0, At(TakeStep(At(w, ApprovalTake)), FinalizingTimeout))
  {
    hide Leads;
    FirstWaitPollLeads(w0, w);
    TakeVerdictLeads(w0, At(w, ApprovalTake));
    LeadsOn(w0, TakeStep(At(w, ApprovalTake)), OfLoop(CALM.(expired := true)));
  }

  /** The timeout is recorded and the status reported. */
  lemma TimeoutIsReported(w: World) returns (w': World)
    requires w.pc.FinalizingTimeout? && (w.db.run.status.Running? || w.db.run.status.Failed?)
    ensures Leads(w, w') && w'.pc.Returned? && w'.outcome.Failed? && w'.db.run == RunRow(Failed, true)
    ensures w'.config == w.config
  {
    hide Leads, NoteGate, NoteHold, NoteAppend, Justified;
    LeadsNowhere(w);
    LeadsCalmly(w, w);
    w' := TimeoutStep(w);
    LeadsCalmly(w, w');
    w' := w'.(db := SetStatus(w'.db, Failed), pc := Returned, outcome := Failed);
  }

  /** The outcome changes nothing any more, and the signals are dropped. */
  lemma FailedLoopLeaves(w0: World, w: World) returns (w': World)
    requires Leads(w0, w) && w.pc.Returned? && w.outcome.Failed? && w.db.run == RunRow(Failed, true)
    ensures Leads(w0, w') && w'.pc.Idle? && w'.db.run.status.Failed? && w'.config == w.config
  {
    hide Leads, Note;
    LeadsCalmly(w0, w);
    w' := At(w.(db := PersistOutcome(w.db, w.outcome)), Discarding);
    LeadsCalmly(w0, w');
    w' := At(w'.(db := w'.db.(hub := None)), Idle);
  }

  lemma FailedRunIsRequeued(w0: World, w: World) returns (w': World)
    requires Leads(w0, w) && w.pc.Idle? && w.db.run.status.Failed?
    ensures Leads(w0, w') && w'.pc.Idle? && w'.db.run.status.Queued? && w'.config == w.config
  {
    hide Leads, Note;
    LeadsOn(w0, w, OfOperator(Retry));
    w' := Operate(w, Retry);
  }

  /** The loop returns failed, and the run is queued again. */
  lemma TimedOutRunIsRequeued(w: World) returns (w': World)
    requires w.pc.FinalizingTimeout? && (w.db.run.status.Running? || w.db.run.status.Failed?)
    ensures Leads(w, w') && w'.pc.Idle? && w'.db.run.status.Queued? && w'.config == w.config
  {
    hide Leads;
    w' := TimeoutIsReported(w);
    w' := FailedLoopLeaves(w, w');
    w' := FailedRunIsRequeued(w, w');
  }

  /** A verdict committed as the time of its gate runs out, and not delivered before the run
      has failed and been retried. */
  lemma VerdictOutlivesItsLoop(v: Verdict) returns (w: World)
    ensures Plays(Fresh(ONE_STEP), Split(w, multiset{v})) && Reached(w)
    ensures w.pc.Idle? && w.db.run.status.Queued? && w.config == ONE_STEP
  {
    hide Leads, Plays, Created, Reached, CommitVerdict, Timely, PendingApproval;
    var s := Fresh(ONE_STEP);
    LeadsNowhere(s.w);
    EveryStateIsSafe(ONE_STEP, []);
    var w1 := ReachesGate();
    LeadsReached(s.w, w1);
    w1 := UnansweredGateExpires(s.w, w1);
    LeadsReached(s.w, w1);
    PlaysNowhere(s);
    PlaysAlong(s, s, w1);
    PlaysOn(s, Split(w1, multiset{}), Commit(v));
    var none: multiset<Verdict> := multiset{};
    assert none + multiset{v} == multiset{v};
    var w2 := CommitVerdict(w1, Judgeable(w1).value, v);
    VerdictIsCommitted(w1, Judgeable(w1).value, v);
    w := TimedOutRunIsRequeued(w2);
    LeadsReached(w2, w);
    PlaysAlong(s, Split(w2, multiset{v}), w);
  }

  lemma PlaysNowhere(s: Split)
    ensures Plays(s, s)
  {
    assert Play(s, []) == s;
  }

  lemma VerdictIsCommitted(w: World, row: nat, v: Verdict)
    requires Reached(w) && w.pc.FinalizingTimeout? && Judgeable(w) == Some(row)
    ensures var w' := CommitVerdict(w, row, v);
            && Reached(w') && w'.pc.FinalizingTimeout? && w'.config == w.config
            && (w'.db.run.status.Running? || w'.db.run.status.Failed?)
  {
    hide Inv, Faithful, Note;
    CommitVerdictKeeps(w, row, v);
    CommitIsFaithful(w, row, v);
  }

  /** An approve call commits as the time of its gate runs out; the loop fails the run, the
      run is retried, and only then the grant arrives: the retried run executes, behind a
      gate of its own, what nobody has approved. */
  lemma TimedOutGrantReachesAnotherGate()
    ensures exists moves :: !ExecutesWereApproved(Play(Fresh(ONE_STEP), moves).w.db.trace)
  {
    hide Leads, ExecutesWereApproved, DeliverVerdict, Reached;
    var s := Fresh(ONE_STEP);
    var w := VerdictOutlivesItsLoop(Grant);
    PlaysOn(s, Split(w, multiset{Grant}), Deliver(Grant));
    LateGrantMisleadsIff(w);
    var w' :| Leads(DeliverVerdict(w, Grant), w') && !ExecutesWereApproved(w'.db.trace);
    PlaysAlong(s, Split(DeliverVerdict(w, Grant), multiset{}), w');
    var moves :| Play(s, moves) == Split(w', multiset{});
  }
}
