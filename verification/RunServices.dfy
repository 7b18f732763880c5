/** The operator services as they are written: methods that update the run row, the
    approval rows and the control signals in place.  Each is proved equal to its function
    in RunModel, so everything proved about the step system holds of these methods. */
module RunServices {
  import opened Basics
  import opened RunModel

  /** The newest of the rows still requested. */
  predicate Newest(rows: seq<ApprovalStatus>, row: int) {
    0 <= row < |rows| && rows[row].Requested? && forall i :: row < i < |rows| ==> !rows[i].Requested?
  }

  /** No object but the one at `i` has changed. */
  predicate Untouched(before: seq<Signals>, after: seq<Signals>, i: nat) {
    |before| <= |after| && forall k :: 0 <= k < |before| && k != i ==> after[k] == before[k]
  }

  /** One run's row, its approval rows, the signals objects and the hub entry.  `past` is
      the summary of the trace and exists for the proofs only. */
  class ControlPlane {
    var status: RunStatus
    var finished: bool
    var approvals: seq<ApprovalStatus>
    var objects: seq<Signals>
    var hub: Option<nat>
    var trace: seq<Event>
    ghost var past: History

    ghost function View(): Db
      reads this
    {
      Db(RunRow(status, finished), approvals, objects, hub, trace, past)
    }

    /** The hub's entry is one of the signals objects. */
    predicate Registered()
      reads this
    {
      hub.Some? ==> hub.value < |objects|
    }

    constructor ()
      ensures View() == Db(RunRow(Queued, false), [], [], None, [], EMPTY_HISTORY)
    {
      status, finished, approvals, objects, hub, trace := Queued, false, [], [], None, [];
      past := EMPTY_HISTORY;
    }

    method Record(e: Event)
      modifies this`trace, this`past
      ensures View() == Log(old(View()), e)
    {
      trace := trace + [e];
      past := Note(past, e);
    }

    method Audit(byLoop: bool, kind: AuditKind)
      modifies this`trace, this`past
      ensures View() == Append(old(View()), byLoop, kind)
    {
      Record(Appended(byLoop, kind));
    }

    method WriteStatus(writer: Writer, to: RunStatus)
      modifies this`status, this`trace, this`past
      ensures View() == Write(old(View()), writer, to, finished)
    {
      var from := status;
      status := to;
      Record(StatusWritten(writer, from, to));
    }

    method ObtainSignals() returns (i: nat)
      modifies this`objects, this`hub
      ensures (View(), i) == SignalsFor(old(View()))
    {
      if hub.Some? {
        i := hub.value;
      } else {
        i := |objects|;
        objects := objects + [NO_SIGNALS];
        hub := Some(i);
      }
    }

    method StoreSignals(i: nat, s: Signals)
      modifies this`objects
      ensures View() == SetSignals(old(View()), i, s)
    {
      if i < |objects| { objects := objects[i := s]; }
    }

    method ReadSignals(i: nat) returns (s: Signals)
      ensures s == SignalsAt(View(), i)
    {
      s := if i < |objects| then objects[i] else NO_SIGNALS;
    }

    /** The newest row still requested: the source's query, newest first, limit one. */
    method FindPending() returns (row: Option<nat>)
      ensures row == PendingApproval(approvals)
    {
      var n: nat := |approvals|;
      assert approvals[..n] == approvals;
      while n > 0 && !approvals[n - 1].Requested?
        invariant 0 <= n <= |approvals|
        invariant PendingApproval(approvals) == PendingApproval(approvals[..n])
      {
        assert approvals[..n][..n - 1] == approvals[..n - 1];
        n := n - 1;
      }
      if n == 0 { return None; }
      assert approvals[..n][n - 1] == approvals[n - 1];
      return Some(n - 1);
    }

    // ---------- operator calls ----------

    ghost predicate Answers(before: Db, r: Result<Db>, ok: bool)
      reads this
    {
      match r
      case Ok(db) => ok && View() == db
      case Err(_) => !ok && View() == before
    }

    method Pause() returns (ok: bool)
      modifies this
      ensures Answers(old(View()), PauseRun(old(View())), ok)
      ensures ok <==> old(status).Running? || old(status).Paused?
      ensures old(status).Running? ==>
                && status.Paused?
                && trace == old(trace) + [StatusWritten(PauseCall, Running, Paused), Appended(false, RunPaused)]
      ensures !old(status).Running? ==> status == old(status) && trace == old(trace)
      ensures finished == old(finished) && approvals == old(approvals) && objects == old(objects) && hub == old(hub)
    {
      if status.Paused? { return true; }
      if !status.Running? { return false; }
      WriteStatus(PauseCall, Paused);
      Audit(false, RunPaused);
      return true;
    }

    method Resume() returns (ok: bool)
      modifies this
      ensures Answers(old(View()), ResumeRun(old(View())), ok)
      ensures ok <==> old(status).Running? || old(status).Paused?
      ensures old(status).Paused? ==>
                && status.Running?
                && trace == old(trace) + [StatusWritten(ResumeCall, Paused, Running), Appended(false, RunResumed)]
      ensures !old(status).Paused? ==> status == old(status) && trace == old(trace)
      ensures finished == old(finished) && approvals == old(approvals) && objects == old(objects) && hub == old(hub)
    {
      if status.Running? { return true; }
      if !status.Paused? { return false; }
      WriteStatus(ResumeCall, Running);
      Audit(false, RunResumed);
      return true;
    }

    method Cancel()
      modifies this
      ensures View() == CancelRun(old(View()))
      ensures old(status) in {Succeeded, Failed, Cancelled} ==>
                status == old(status) && finished == old(finished) && trace == old(trace)
      ensures old(status) !in {Succeeded, Failed, Cancelled} ==>
                && status.Cancelled? && finished
                && trace == old(trace)
                            + [StatusWritten(CancelCall, old(status), Cancelled), Appended(false, RunCancelled)]
      ensures approvals == old(approvals) && objects == old(objects) && hub == old(hub)
    {
      if status.Terminal() { return; }
      finished := true;
      WriteStatus(CancelCall, Cancelled);
      Audit(false, RunCancelled);
    }

    method Retry() returns (ok: bool)
      modifies this
      ensures Answers(old(View()), RetryRun(old(View())), ok)
      ensures ok <==> old(status).Failed? || old(status).Running? || old(status).Paused?
      ensures old(status).Failed? ==>
                && status.Queued? && !finished && hub.None? && objects == old(objects)
                && trace == old(trace) + [StatusWritten(RetryCall, Failed, Queued), Appended(false, RetryRequested)]
      ensures old(status).Running? || old(status).Paused? ==>
                && status == old(status) && finished == old(finished) && hub.Some?
                && (old(hub).Some? ==> hub == old(hub)) && (old(hub).None? ==> hub == Some(|old(objects)|))
                && (old(Registered()) ==> hub.value < |objects| && objects[hub.value].stepRetryArmed)
                && Untouched(old(objects), objects, hub.value)
                && trace == old(trace) + [Appended(false, RetryRequested)]
      ensures !ok ==> status == old(status) && finished == old(finished) && hub == old(hub) && objects == old(objects)
      ensures !ok ==> trace == old(trace)
      ensures approvals == old(approvals)
    {
      if status.Failed? {
        finished := false;
        WriteStatus(RetryCall, Queued);
        Audit(false, RetryRequested);
        hub := None;
        return true;
      }
      if status.Running? || status.Paused? {
        Audit(false, RetryRequested);
        var i := ObtainSignals();
        var s := ReadSignals(i);
        StoreSignals(i, s.(stepRetryArmed := true));
        return true;
      }
      return false;
    }

    method Take() returns (ok: bool)
      modifies this
      ensures Answers(old(View()), TakeControl(old(View())), ok)
      ensures ok <==> old(status).Running? || old(status).Paused? || old(status).AwaitingHuman?
      ensures old(status).Running? || old(status).Paused? ==>
                && status.AwaitingHuman?
                && trace == old(trace)
                            + [StatusWritten(TakeCall, old(status), AwaitingHuman), Appended(false, TakeoverStarted)]
      ensures !old(status).Running? && !old(status).Paused? ==> status == old(status) && trace == old(trace)
      ensures finished == old(finished) && approvals == old(approvals) && objects == old(objects) && hub == old(hub)
    {
      if status.AwaitingHuman? { return true; }
      if !status.Running? && !status.Paused? { return false; }
      WriteStatus(TakeCall, AwaitingHuman);
      Audit(false, TakeoverStarted);
      return true;
    }

    method Release() returns (ok: bool)
      modifies this
      ensures Answers(old(View()), ReleaseControl(old(View())), ok)
      ensures ok <==> old(status).Running? || old(status).AwaitingHuman?
      ensures old(status).AwaitingHuman? ==>
                && status.Running?
                && trace == old(trace)
                            + [StatusWritten(ReleaseCall, AwaitingHuman, Running), Appended(false, TakeoverEnded)]
      ensures !old(status).AwaitingHuman? ==> status == old(status) && trace == old(trace)
      ensures finished == old(finished) && approvals == old(approvals) && objects == old(objects) && hub == old(hub)
    {
      if status.Running? { return true; }
      if !status.AwaitingHuman? { return false; }
      WriteStatus(ReleaseCall, Running);
      Audit(false, TakeoverEnded);
      return true;
    }

    /** The row, the status and the audit entry of an approve or reject call. */
    method CommitJudgement(row: nat, granted: bool)
      requires row < |approvals|
      modifies this`status, this`finished, this`approvals, this`trace, this`past
      ensures View() == CommitDecision(old(View()), row, granted)
      ensures approvals == old(approvals)[row := if granted then Granted else Denied]
      ensures if granted then status.Running? && finished == old(finished) else status.Failed? && finished
      ensures trace == old(trace) + if granted
                then [ApprovedRow(row), StatusWritten(ApproveCall, old(status), Running),
                      Appended(false, ApprovalGranted)]
                else [RejectedRow(row), StatusWritten(RejectCall, old(status), Failed),
                      Appended(false, ApprovalDenied)]
    {
      hide Note, Faithful;
      if granted {
        approvals := approvals[row := Granted];
        Record(ApprovedRow(row));
        WriteStatus(ApproveCall, Running);
        Audit(false, ApprovalGranted);
      } else {
        approvals := approvals[row := Denied];
        Record(RejectedRow(row));
        finished := true;
        WriteStatus(RejectCall, Failed);
        Audit(false, ApprovalDenied);
      }
    }

    /** The verdict goes to the registered signals object, and nothing else of it changes. */
    method DeliverJudgement(granted: bool)
      modifies this`objects, this`hub
      ensures View() == DeliverDecision(old(View()), granted)
      ensures hub.Some?
      ensures if old(hub).Some? then hub == old(hub) && |objects| == |old(objects)|
              else hub == Some(|old(objects)|) && |objects| == |old(objects)| + 1
      ensures old(Registered()) ==>
                var was := if old(hub).Some? then old(objects)[old(hub).value] else Signals(None, false, None);
                && hub.value < |objects|
                && objects[hub.value] == was.(decision := Some(if granted then Grant else Deny))
      ensures Untouched(old(objects), objects, hub.value)
    {
      var i := ObtainSignals();
      var s := ReadSignals(i);
      StoreSignals(i, s.(decision := Some(if granted then Grant else Deny)));
    }

    method Judge(granted: bool) returns (ok: bool)
      modifies this
      ensures Answers(old(View()), RunModel.Decide(old(View()), granted), ok)
      ensures ok <==> old(status).AwaitingApproval? && Requested in old(approvals)
      ensures ok ==> exists row: nat ::
                Newest(old(approvals), row)
                && approvals == old(approvals)[row := if granted then Granted else Denied]
                && trace == old(trace) + if granted
                   then [ApprovedRow(row), StatusWritten(ApproveCall, AwaitingApproval, Running),
                         Appended(false, ApprovalGranted)]
                   else [RejectedRow(row), StatusWritten(RejectCall, AwaitingApproval, Failed),
                         Appended(false, ApprovalDenied)]
      ensures ok ==> if granted then status.Running? && finished == old(finished) else status.Failed? && finished
      ensures ok ==> hub.Some? && (old(hub).Some? ==> hub == old(hub)) && Untouched(old(objects), objects, hub.value)
      ensures ok && old(Registered()) ==>
                hub.value < |objects| && objects[hub.value].decision == Some(if granted then Grant else Deny)
    {
      hide CommitDecision, DeliverDecision, Note;
      if !status.AwaitingApproval? { return false; }
      var pending := FindPending();
      if pending.None? { return false; }
      CommitJudgement(pending.value, granted);
      DeliverJudgement(granted);
      return true;
    }

    // ---------- calls of the loop and the worker ----------

    method OpenApproval(d: Decision) returns (row: nat)
      modifies this
      ensures (View(), row) == CreatePendingApproval(old(View()), d)
      ensures row == |old(approvals)| && approvals == old(approvals) + [Requested]
      ensures trace == old(trace) + [GateOpened(row, d.action, d.observedAt)]
      ensures status == old(status) && finished == old(finished)
    {
      row := |approvals|;
      approvals := approvals + [Requested];
      Record(GateOpened(row, d.action, d.observedAt));
      var i := ObtainSignals();
      var s := ReadSignals(i);
      StoreSignals(i, s.(pendingApproval := Some(row)));
    }

    method CloseTimedOut(row: Option<nat>)
      modifies this
      ensures View() == MarkTimedOut(old(View()), row)
      ensures |approvals| == |old(approvals)|
      ensures forall i :: 0 <= i < |approvals| ==>
                var meant := row == Some(i) || (row.None? && Newest(old(approvals), i));
                approvals[i] == if meant && old(approvals)[i].Requested? then Denied else old(approvals)[i]
      ensures status == old(status) && finished == old(finished) && trace == old(trace)
      ensures objects == old(objects) && hub == old(hub)
    {
      var target := row;
      if target.None? { target := FindPending(); }
      if target.Some? && target.value < |approvals| && approvals[target.value].Requested? {
        approvals := approvals[target.value := Denied];
      }
    }

    method ReportStatus(to: RunStatus)
      modifies this
      ensures View() == SetStatus(old(View()), to)
      ensures old(status).Cancelled? || old(status).AwaitingHuman? ==>
                status == old(status) && finished == old(finished) && trace == old(trace)
      ensures !old(status).Cancelled? && !old(status).AwaitingHuman? ==>
                && status == to && trace == old(trace) + [StatusWritten(LoopSetStatus, old(status), to)]
                && (finished <==> old(finished) || to in {Succeeded, Failed, Cancelled})
      ensures approvals == old(approvals) && objects == old(objects) && hub == old(hub)
    {
      if status.Cancelled? || status.AwaitingHuman? { return; }
      if to.Terminal() { finished := true; }
      WriteStatus(LoopSetStatus, to);
    }

    method Persist(outcome: RunStatus)
      modifies this
      ensures View() == PersistOutcome(old(View()), outcome)
      ensures var spared := || (old(status).Cancelled? && !outcome.Cancelled?)
                            || (old(status).Paused? && outcome.Running?)
                            || (old(status).AwaitingHuman? && outcome.Running?)
                            || (old(status).Failed? && outcome.Failed? && old(finished));
              if spared then status == old(status) && finished == old(finished) && trace == old(trace)
              else
                && status == outcome && trace == old(trace) + [StatusWritten(OutcomePersisted, old(status), outcome)]
                && (finished <==> old(finished) || outcome in {Succeeded, Failed, Cancelled})
      ensures approvals == old(approvals) && objects == old(objects) && hub == old(hub)
    {
      if status.Cancelled? && !outcome.Cancelled? { return; }
      if status.Paused? && outcome.Running? { return; }
      if status.AwaitingHuman? && outcome.Running? { return; }
      if status.Failed? && outcome.Failed? && finished { return; }
      if outcome.Terminal() { finished := true; }
      WriteStatus(OutcomePersisted, outcome);
    }

    method Recover()
      modifies this
      ensures View() == RecoverRun(old(View()))
      ensures old(status) !in {Running, Paused, AwaitingApproval, AwaitingHuman} ==>
                status == old(status) && finished == old(finished) && trace == old(trace) && approvals == old(approvals)
      ensures old(status) in {Running, Paused, AwaitingApproval, AwaitingHuman} ==>
                && status.Failed? && finished
                && trace == old(trace) + [StatusWritten(RecoverCall, old(status), Failed), Appended(false, RunFailed)]
      ensures |approvals| == |old(approvals)|
      ensures forall i :: 0 <= i < |approvals| ==>
                approvals[i] == if old(status).AwaitingApproval? && Newest(old(approvals), i)
                                then Denied else old(approvals)[i]
      ensures objects == old(objects) && hub == old(hub)
    {
      if !Interrupted(status) { return; }
      var wasWaiting := status.AwaitingApproval?;
      finished := true;
      WriteStatus(RecoverCall, Failed);
      if wasWaiting { CloseTimedOut(None); }
      Audit(false, RunFailed);
    }

    method Start() returns (ok: bool)
      modifies this
      ensures Answers(old(View()), StartRun(old(View())), ok)
      ensures ok <==> old(status) !in {Succeeded, Failed, Cancelled}
      ensures ok ==> status.Running?
      ensures ok && !old(status).Running? ==> trace == old(trace) + [StatusWritten(StartCall, old(status), Running)]
      ensures !ok ==> status == old(status)
      ensures !ok || old(status).Running? ==> trace == old(trace)
      ensures finished == old(finished) && approvals == old(approvals) && objects == old(objects) && hub == old(hub)
    {
      if status.Terminal() { return false; }
      if !status.Running? { WriteStatus(StartCall, Running); }
      return true;
    }
  }
}
