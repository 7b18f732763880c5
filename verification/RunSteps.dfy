/** The agent loop as a step system.  Every status poll, every database write and every
    call to the browser or the models is one step of the loop; operator calls, worker
    starts and process restarts may happen between any two of them. */
module RunSteps {
  import opened Basics
  import opened RunModel

  /** The gates of one step. */
  datatype Where = BetweenSteps | BeforeObserve | BeforeDecide | BeforeExecute | BeforeModel | AfterModel
  {
    /** Gates that discard the step after a hold the takeover poll has seen. */
    predicate MidStep() {
      BeforeDecide? || BeforeExecute? || BeforeModel? || AfterModel?
    }
  }

  /** Where the loop is.  The polls of a gate come in the order of the source; the wait
      for human control and the wait for pause both alternate a cancel poll with a poll
      of the parked status, and so does the wait for approval. */
  datatype Pc =
    | Idle | Spawned | LoopHead
    | GateFirstCancel | GateTakeover | GateHumanCancel | GateHumanHeld
    | GatePauseCancel | GatePauseHeld | GateLastCancel
    | Observing | Deciding
    | OpeningGate | SettingAwaiting | ApprovalCancel | ApprovalTake | ApprovalDeadline
    | FinalizingTimeout | SettingFailed | SettingRunning
    | Reading | Modelling | Recording
    | Requesting | GuardPoll | Executing | Finishing | Failing
    | Returned | Discarding

  /** Everything the loop learns from outside at one step: the decided action, whether the
      call raises, the execution result (or, when it raises, whether the error is one that is
      audited no further), the clock, and whether another read or the model is needed. */
  datatype Outside = Outside(action: Action, raises: bool, ok: bool, done: bool, expired: bool, more: bool)

  datatype Config = Config(maxSteps: nat, timed: bool, research: bool)

  /** `where` and `waited` are the locals of the current gate, `recheck` tells the second
      half of an approval poll from the first, `d` is what the current step has decided. */
  datatype World = World(
    config: Config,
    db: Db,
    pc: Pc,
    where: Where,
    waited: bool,
    recheck: bool,
    round: nat,
    d: Decision,
    outcome: RunStatus,
    steps: nat,
    signals: nat)

  function Own(w: World, kind: AuditKind): World {
    w.(db := Append(w.db, true, kind))
  }

  function At(w: World, pc: Pc): World {
    w.(pc := pc)
  }

  /** The loop appends its last event and returns. */
  function Finish(w: World, kind: AuditKind, outcome: RunStatus): World {
    w.(db := Append(w.db, true, kind), pc := Returned, outcome := outcome)
  }

  function Raise(w: World): World {
    Finish(w, RunFailed, Failed)
  }

  // ---------- gates ----------

  function EnterGate(w: World, where: Where): World {
    w.(pc := GateFirstCancel, where := where, waited := false)
  }

  function PassGate(w: World): World {
    match w.where
    case BetweenSteps => EnterGate(w.(steps := w.steps + 1), BeforeObserve)
    case BeforeObserve => At(w, Observing)
    case BeforeDecide => At(w, Deciding)
    case BeforeExecute =>
      if w.d.action.kind.Extract? || (w.d.action.kind.Done? && w.config.research)
      then w.(pc := Reading, round := 0)
      else At(w, Requesting)
    case BeforeModel => At(w, Modelling)
    case AfterModel => At(w, Recording)
  }

  /** A gate that waited for a human in mid-step: the step is abandoned. */
  function DiscardStep(w: World): World {
    if w.where.BeforeDecide? || w.where.BeforeExecute? then At(Own(w, FreshObserve), LoopHead)
    else At(w, LoopHead)
  }

  /** A cancel poll: the loop stops, or goes on to `next`. */
  function CancelPoll(w: World, next: Pc): World {
    if w.db.CancelRequested() then Finish(w, AuditKind.RunCancelled, Cancelled) else At(w, next)
  }

  function TakeoverPoll(w: World): World {
    if w.db.Held() then w.(db := Log(w.db, HoldSeen), pc := GateHumanCancel, waited := true)
    else w.(pc := GateHumanCancel, waited := false)
  }

  function HeldPoll(w: World): World {
    if w.db.Held() then
      w.(db := if w.waited then w.db else Log(w.db, HoldMissed), pc := GateHumanCancel)
    else if w.waited && w.where.MidStep() then DiscardStep(w)
    else At(w, GatePauseCancel)
  }

  // ---------- observe, decide, approve ----------

  function ObserveStep(w: World, o: Outside): World {
    if o.raises then Raise(w)
    else
      var w1 := w.(db := Log(w.db, Observed), d := w.d.(observedAt := |w.db.trace|));
      EnterGate(Own(w1, ObservationCaptured), BeforeDecide)
  }

  function DecideStep(w: World, o: Outside): World {
    if o.raises then Raise(w)
    else
      var w1 := Own(w, DecisionMade).(d := Decision(o.action, w.d.observedAt, None));
      if o.action.gated then At(w1, OpeningGate) else EnterGate(w1, BeforeExecute)
  }

  function OpenGateStep(w: World, o: Outside): World {
    if o.raises then Raise(w)
    else
      var (db, row) := CreatePendingApproval(Append(w.db, true, ApprovalRequested), w.d);
      w.(db := db, d := w.d.(approval := Some(row)), pc := SettingAwaiting)
  }

  function SetAwaitingStep(w: World): World {
    w.(db := SetStatus(w.db, AwaitingApproval),
    pc := if w.config.timed then ApprovalCancel else FinalizingTimeout,
    recheck := false)
  }

  /** consume_approval_decision on the object the loop holds. */
  function TakeStep(w: World): World {
    var own := SignalsAt(w.db, w.signals);
    var w1 := w.(db := SetSignals(w.db, w.signals, own.(decision := None)));
    if own.decision == Some(Grant) then At(w1, SettingRunning)
    else if own.decision == Some(Deny) then w1.(pc := Returned, outcome := Failed)
    else w1.(pc := if w.recheck then ApprovalCancel else ApprovalDeadline, recheck := false)
  }

  function DeadlineStep(w: World, o: Outside): World {
    if o.expired then At(w, FinalizingTimeout) else w.(pc := ApprovalCancel, recheck := true)
  }

  function TimeoutStep(w: World): World {
    At(Own(w.(db := MarkTimedOut(w.db, w.d.approval)), ApprovalTimeout), SettingFailed)
  }

  // ---------- research ----------

  function ReadStep(w: World, o: Outside): World {
    if !w.config.research then Raise(w)
    else if w.d.action.kind.Extract? && w.db.Held() then At(w, LoopHead)
    else if o.raises then Raise(w)
    else if w.d.action.kind.Extract? && o.more && w.round < 2 then w.(round := w.round + 1)
    else EnterGate(w, BeforeModel)
  }

  /** A chunk read before is not sent to the model again; the synthesis always is. */
  function ModelStep(w: World, o: Outside): World {
    if o.raises then Raise(if o.ok then w else Own(w, ModelCallFailed))
    else EnterGate(if o.more || w.d.action.kind.Done? then Own(w, ModelCall) else w, AfterModel)
  }

  function RecordStep(w: World): World {
    if w.d.action.kind.Extract? then At(Own(w, ResearchEvidence), LoopHead)
    else Finish(Own(w, ResearchResult), RunSucceeded, Succeeded)
  }

  // ---------- execute ----------

  function RequestStep(w: World, o: Outside): World {
    if o.raises then Raise(if o.ok then w else Own(w, ActionFailed)) else At(Own(w, ActionRequested), GuardPoll)
  }

  function GuardStep(w: World): World {
    if w.db.Held() then w.(db := Log(w.db, ExecRefused), pc := Failing)
    else w.(db := Log(w.db, GuardPassed), pc := Executing)
  }

  function FinishStep(w: World, o: Outside): World {
    if o.raises then Raise(if o.ok then w else Own(w, ActionFailed))
    else if !o.ok then At(w, Failing)
    else if o.done || w.d.action.kind.Done? then Finish(Own(w, ActionCompleted), RunSucceeded, Succeeded)
    else At(Own(w, ActionCompleted), LoopHead)
  }

  /** consume_step_retry decides between another step and the end of the run. */
  function FailStep(w: World, o: Outside): World {
    if o.raises then Raise(w)
    else
      var own := SignalsAt(w.db, w.signals);
      var w1 := Own(w, ActionFailed);
      var w2 := w1.(db := SetSignals(w1.db, w.signals, own.(stepRetryArmed := false)));
      if own.stepRetryArmed then At(Own(w2, StepRetry), LoopHead) else Raise(w2)
  }

  // ---------- the worker around the loop ----------

  function SpawnedStep(w: World, o: Outside): World {
    if o.raises then Raise(w.(db := Log(w.db, LoopStarted)))
    else
      var (db, i) := SignalsFor(w.db);
      At(Own(w.(db := Log(db, LoopStarted), signals := i), RunStarted), LoopHead)
  }

  function HeadStep(w: World): World {
    if w.steps < w.config.maxSteps then EnterGate(w, BetweenSteps) else Raise(w)
  }

  /** One step of the live loop; an idle run has none. */
  function LoopStep(w: World, o: Outside): World {
    match w.pc
    case Idle => w
    case Spawned => SpawnedStep(w, o)
    case LoopHead => HeadStep(w)
    case GateFirstCancel => CancelPoll(w, GateTakeover)
    case GateTakeover => TakeoverPoll(w)
    case GateHumanCancel => CancelPoll(w, GateHumanHeld)
    case GateHumanHeld => HeldPoll(w)
    case GatePauseCancel => CancelPoll(w, GatePauseHeld)
    case GatePauseHeld => At(w, if w.db.IsPaused() then GatePauseCancel else GateLastCancel)
    case GateLastCancel => if w.db.CancelRequested() then CancelPoll(w, w.pc) else PassGate(w)
    case Observing => ObserveStep(w, o)
    case Deciding => DecideStep(w, o)
    case OpeningGate => OpenGateStep(w, o)
    case SettingAwaiting => SetAwaitingStep(w)
    case ApprovalCancel => CancelPoll(w, ApprovalTake)
    case ApprovalTake => TakeStep(w)
    case ApprovalDeadline => DeadlineStep(w, o)
    case FinalizingTimeout => TimeoutStep(w)
    case SettingFailed => w.(db := SetStatus(w.db, Failed), pc := Returned, outcome := Failed)
    case SettingRunning => EnterGate(w.(db := SetStatus(w.db, Running)), BeforeExecute)
    case Reading => ReadStep(w, o)
    case Modelling => ModelStep(w, o)
    case Recording => RecordStep(w)
    case Requesting => RequestStep(w, o)
    case GuardPoll => GuardStep(w)
    case Executing => w.(db := Log(w.db, ExecStarted(w.d)), pc := Finishing)
    case Finishing => FinishStep(w, o)
    case Failing => FailStep(w, o)
    case Returned => At(w.(db := PersistOutcome(w.db, w.outcome)), Discarding)
    case Discarding => At(w.(db := w.db.(hub := None)), Idle)
  }

  // ---------- everything else that can happen ----------

  datatype Call =
    | Pause | Resume | Cancel | Retry | TakeControl | ReleaseControl | Approve | Reject
    | Start | Restart

  /** An operator service on the stored state; a refused call changes nothing. */
  function Serve(db: Db, call: Call): Result<Db> {
    match call
    case Pause => PauseRun(db)
    case Resume => ResumeRun(db)
    case Cancel => Ok(CancelRun(db))
    case Retry => RetryRun(db)
    case TakeControl => RunModel.TakeControl(db)
    case ReleaseControl => RunModel.ReleaseControl(db)
    case Approve => RunModel.Decide(db, true)
    case Reject => RunModel.Decide(db, false)
    case Start => StartRun(db)
    case Restart => Ok(RecoverRun(db.(hub := None)))
  }

  function Operate(w: World, call: Call): World {
    if call.Start? && !w.pc.Idle? then w          // the existing task is returned
    else match Serve(w.db, call)
      case Err(_) => w
      case Ok(db) =>
        if call.Start? then w.(db := db, pc := Spawned, steps := 0)
        else if call.Restart? then w.(db := db, pc := Idle)
        else w.(db := db)
  }

  datatype Label = OfLoop(outside: Outside) | OfOperator(call: Call)

  function Step(w: World, l: Label): World {
    match l
    case OfLoop(o) => LoopStep(w, o)
    case OfOperator(call) => Operate(w, call)
  }

  /** The state after a whole history of labels. */
  function Run(w: World, labels: seq<Label>): World {
    if labels == [] then w else Step(Run(w, labels[..|labels| - 1]), labels[|labels| - 1])
  }

  const NO_DECISION := Decision(Action(BrowserAction, false), 0, None)

  /** create_run: a queued row, nothing else. */
  function Created(config: Config): World {
    World(config, Db(RunRow(Queued, false), [], [], None, [], EMPTY_HISTORY),
          Idle, BetweenSteps, false, false, 0, NO_DECISION, Failed, 0, 0)
  }
}
