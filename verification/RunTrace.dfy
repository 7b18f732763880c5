/** What a sound summary means for the trace itself: every fact below is about positions
    in the trace, with no mention of the summary in the conclusions of the theorems. */
module RunTrace {
  import opened Basics
  import opened RunModel

  lemma {:induction false} SummaryOfPrefix(t: seq<Event>, i: nat)
    requires i < |t| && Summary(t).sound
    ensures Summary(t[..i]).sound && Justified(Summary(t[..i]), t[i])
  {
    var init := t[..|t| - 1];
    if i < |t| - 1 {
      SummaryOfPrefix(init, i);
      assert init[..i] == t[..i];
    }
  }

  lemma {:induction false} SummaryLength(t: seq<Event>)
    ensures Summary(t).length == |t|
  {
    if t != [] { SummaryLength(t[..|t| - 1]); }
  }

  /** t[k] opened the gate of `row`. */
  predicate Opens(t: seq<Event>, k: nat, row: nat, to: (Action, nat)) {
    k < |t| && t[k] == GateOpened(row, to.0, to.1)
  }

  lemma {:induction false} OpeningOf(t: seq<Event>, row: nat) returns (k: nat)
    requires row in Summary(t).gates.opening
    ensures Opens(t, k, row, Summary(t).gates.opening[row])
  {
    var init, e := t[..|t| - 1], t[|t| - 1];
    if e.GateOpened? && e.row == row {
      k := |t| - 1;
    } else {
      k := OpeningOf(init, row);
    }
  }

  lemma {:induction false} ApprovalOf(t: seq<Event>, row: nat) returns (j: nat)
    requires row in Summary(t).gates.approved
    ensures j < |t| && t[j] == ApprovedRow(row)
  {
    var init, e := t[..|t| - 1], t[|t| - 1];
    if e == ApprovedRow(row) {
      j := |t| - 1;
    } else {
      j := ApprovalOf(init, row);
    }
  }

  /** A row's gate is never opened twice, so what it was opened for never changes. */
  lemma {:induction false} OpeningStable(t: seq<Event>, j: nat, row: nat)
    requires j <= |t| && Summary(t).sound && row in Summary(t[..j]).gates.opening
    ensures row in Summary(t).gates.opening
    ensures Summary(t).gates.opening[row] == Summary(t[..j]).gates.opening[row]
  {
    if j < |t| {
      var init := t[..|t| - 1];
      assert init[..j] == t[..j];
      OpeningStable(init, j, row);
    } else {
      assert t[..j] == t;
    }
  }

  lemma {:induction false} ExecutedIsRecorded(t: seq<Event>, i: nat)
    requires i < |t| && t[i].ExecStarted? && t[i].decision.approval.Some?
    ensures t[i].decision.approval.value in Summary(t).gates.executed
  {
    if i < |t| - 1 {
      var init := t[..|t| - 1];
      assert init[i] == t[i];
      ExecutedIsRecorded(init, i);
    }
  }

  lemma {:induction false} ApprovedIsRecorded(t: seq<Event>, i: nat)
    requires i < |t| && t[i].ApprovedRow?
    ensures t[i].row in Summary(t).gates.approved
  {
    if i < |t| - 1 {
      var init := t[..|t| - 1];
      assert init[i] == t[i];
      ApprovedIsRecorded(init, i);
    }
  }

  /** The execute at `i` was authorised: its gate opened at `k` for this very decision and
      an approve call on the row of that gate came at `j`, in this order. */
  predicate AuthorisedBy(t: seq<Event>, k: nat, j: nat, i: nat) {
    && k < j < i < |t|
    && t[i].ExecStarted? && t[i].decision.approval.Some?
    && Opens(t, k, t[i].decision.approval.value, (t[i].decision.action, t[i].decision.observedAt))
    && t[j] == ApprovedRow(t[i].decision.approval.value)
  }

  lemma GatedExecuteWasApproved(t: seq<Event>, i: nat) returns (k: nat, j: nat)
    requires Summary(t).sound && i < |t| && t[i].ExecStarted? && t[i].decision.action.gated
    ensures AuthorisedBy(t, k, j, i)
  {
    SummaryOfPrefix(t, i);
    var row := t[i].decision.approval.value;
    j := ApprovalOf(t[..i], row);
    SummaryOfPrefix(t, j);
    k := OpeningOf(t[..j], row);
    assert t[..i][..j] == t[..j];
    OpeningStable(t[..i], j, row);
  }

  /** A loop that has recorded a timeout, a cancel or another end of its own executes nothing
      any more. */
  lemma ExecutesBeforeAnyEnd(t: seq<Event>, i: nat)
    requires Summary(t).sound && i < |t| && t[i].ExecStarted?
    ensures Quiet(OwnAppends(SinceStart(t[..i])))
  {
    SummaryOfPrefix(t, i);
    AppendsRecorded(t[..i]);
  }

  /** No two executes share a row, and no row is approved twice. */
  lemma RowsAuthoriseOnce(t: seq<Event>, i: nat, i': nat)
    requires Summary(t).sound && i < i' < |t|
    ensures t[i].ExecStarted? && t[i'].ExecStarted? && t[i].decision.approval.Some?
            ==> t[i'].decision.approval != t[i].decision.approval
    ensures t[i].ApprovedRow? ==> t[i'] != t[i]
  {
    SummaryOfPrefix(t, i');
    assert t[..i'][i] == t[i];
    if t[i].ExecStarted? && t[i].decision.approval.Some? { ExecutedIsRecorded(t[..i'], i); }
    if t[i].ApprovedRow? { ApprovedIsRecorded(t[..i'], i); }
  }

  /** A row is judged once: what was approved is never rejected, and what has authorised an
      execute was approved. */
  lemma {:induction false} RowsAreJudgedOnce(t: seq<Event>)
    requires Summary(t).sound
    ensures Summary(t).gates.approved !! Summary(t).gates.rejected
    ensures Summary(t).gates.executed <= Summary(t).gates.approved
  {
    if t != [] { RowsAreJudgedOnce(t[..|t| - 1]); }
  }

  lemma {:induction false} RejectedIsRecorded(t: seq<Event>, i: nat)
    requires i < |t| && t[i].RejectedRow?
    ensures t[i].row in Summary(t).gates.rejected
  {
    if i < |t| - 1 {
      var init := t[..|t| - 1];
      assert init[i] == t[i];
      RejectedIsRecorded(init, i);
    }
  }

  lemma {:induction false} RejectionOf(t: seq<Event>, row: nat)
    requires row in Summary(t).gates.rejected
    ensures RejectedRow(row) in t
  {
    var init, e := t[..|t| - 1], t[|t| - 1];
    if e != RejectedRow(row) { RejectionOf(init, row); }
  }

  /** A row that was rejected, before or after, has authorised nothing. */
  lemma RejectedRowsAuthoriseNothing(t: seq<Event>, i: nat, j: nat)
    requires Summary(t).sound && i < |t| && j < |t| && t[i].ExecStarted? && t[i].decision.approval.Some?
    ensures t[j] != RejectedRow(t[i].decision.approval.value)
  {
    RowsAreJudgedOnce(t);
    ExecutedIsRecorded(t, i);
    if t[j].RejectedRow? { RejectedIsRecorded(t, j); }
  }

  // ---------- cancel ----------

  function Executes(t: seq<Event>): nat {
    if t == [] then 0
    else Executes(t[..|t| - 1]) + (if t[|t| - 1].ExecStarted? then 1 else 0)
  }

  /** Once a sound trace has written a cancel, the status it has reached is cancelled. */
  lemma {:induction false} CancelledStays(t: seq<Event>)
    requires Summary(t).sound && Summary(t).cancelled
    ensures Summary(t).status.Cancelled?
  {
    var init := t[..|t| - 1];
    if Summary(init).cancelled { CancelledStays(init); }
  }

  lemma {:induction false} CancelRecorded(t: seq<Event>, c: nat)
    requires c < |t| && t[c].StatusWritten? && t[c].to.Cancelled?
    ensures Summary(t).cancelled
  {
    if c < |t| - 1 {
      var init := t[..|t| - 1];
      assert init[c] == t[c];
      CancelRecorded(init, c);
    }
  }

  /** A status written after a cancel is cancelled again. */
  lemma WritesAfterCancel(t: seq<Event>, c: nat, j: nat)
    requires Summary(t).sound && c < j < |t|
    requires t[c].StatusWritten? && t[c].to.Cancelled? && t[j].StatusWritten?
    ensures t[j].to.Cancelled?
  {
    SummaryOfPrefix(t, j);
    assert t[..j][c] == t[c];
    CancelRecorded(t[..j], c);
    CancelledStays(t[..j]);
  }

  lemma {:induction false} ExecutesAfterCancel(t: seq<Event>, s: seq<Event>)
    requires Summary(t).cancelled
    ensures Summary(t + s).cancelled
    ensures Summary(t + s).execsAfterCancel == Summary(t).execsAfterCancel + Executes(s)
  {
    if s == [] {
      assert t + s == t;
    } else {
      var init := s[..|s| - 1];
      assert (t + s)[..|t + s| - 1] == t + init;
      ExecutesAfterCancel(t, init);
    }
  }

  // ---------- takeover ----------

  predicate Releases(e: Event) {
    e.StatusWritten? && e.from.AwaitingHuman? && !e.to.AwaitingHuman?
  }

  lemma {:induction false} HoldsRecorded(t: seq<Event>)
    ensures var k := Summary(t).holds;
            && (forall i :: 0 <= i < |t| && t[i].HoldSeen? ==> i <= k.seenAt)
            && (k.releasedAt == -1 || (0 <= k.releasedAt < |t| && Releases(t[k.releasedAt])))
            && (k.observedAt == -1 || (0 <= k.observedAt < |t| && t[k.observedAt].Observed?))
            && -1 <= k.seenAt < |t|
            && (k.settledThen && k.observedAt >= 0 ==> Summary(t[..k.observedAt]).holds.Settled())
  {
    hide NoteGate, NoteAppend, Justified;
    if t != [] {
      var init := t[..|t| - 1];
      HoldsRecorded(init);
      SummaryLength(init);
      forall i | 0 <= i < |t| && t[i].HoldSeen?
        ensures i <= Summary(t).holds.seenAt
      {
        if i < |t| - 1 { assert init[i] == t[i]; }
      }
      var k := Summary(init).holds;
      if k.observedAt >= 0 { assert init[..k.observedAt] == t[..k.observedAt]; }
      if k.releasedAt >= 0 { assert init[k.releasedAt] == t[k.releasedAt]; }
    }
  }

  /** Between a takeover poll at `i` that saw a hold and the execute at `j`, the hold was
      released (at `r`) and the page was observed anew for that execute. */
  predicate ReobservedAfterRelease(t: seq<Event>, i: nat, r: nat, j: nat) {
    && i < r < j < |t|
    && t[j].ExecStarted?
    && Releases(t[r])
    && r < t[j].decision.observedAt < j
    && t[t[j].decision.observedAt].Observed?
  }

  lemma HoldThenExecuteReobserves(t: seq<Event>, i: nat, j: nat) returns (r: nat)
    requires Summary(t).sound && i < j < |t| && t[i].HoldSeen? && t[j].ExecStarted?
    ensures ReobservedAfterRelease(t, i, r, j)
  {
    SummaryOfPrefix(t, j);
    var p := t[..j];
    var at := t[j].decision.observedAt;
    HoldsRecorded(p);
    assert p[i] == t[i];
    HoldsRecorded(p[..at]);
    assert p[..at][i] == t[i];
    r := Summary(p[..at]).holds.releasedAt;
    assert Releases(p[..at][r]);
  }

  lemma {:induction false} GuardRecorded(t: seq<Event>) returns (g: int)
    requires Summary(t).holds.guardClear
    ensures 0 <= g < |t| && t[g].GuardPassed?
    ensures forall k :: g < k < |t| ==> !t[k].ExecStarted? && !t[k].ExecRefused?
  {
    var init, e := t[..|t| - 1], t[|t| - 1];
    if e.GuardPassed? {
      g := |t| - 1;
    } else {
      g := GuardRecorded(init);
      forall k | g < k < |t| ensures !t[k].ExecStarted? && !t[k].ExecRefused? {
        if k < |t| - 1 { assert t[k] == init[k]; }
      }
    }
  }

  // ---------- one start of the loop ----------

  /** The events since the loop last started. */
  function SinceStart(t: seq<Event>): seq<Event> {
    if t == [] || t[|t| - 1].LoopStarted? then []
    else SinceStart(t[..|t| - 1]) + [t[|t| - 1]]
  }

  function Observations(t: seq<Event>): nat {
    if t == [] then 0
    else Observations(t[..|t| - 1]) + (if t[|t| - 1].Observed? then 1 else 0)
  }

  lemma {:induction false} DenialRecorded(t: seq<Event>)
    ensures Summary(t).appends.denied <==> Appended(false, ApprovalDenied) in SinceStart(t)
  {
    if t != [] { DenialRecorded(t[..|t| - 1]); }
  }

  /** What the loop itself appended to the audit log. */
  function OwnAppends(t: seq<Event>): seq<AuditKind> {
    if t == [] then []
    else
      var e := t[|t| - 1];
      OwnAppends(t[..|t| - 1]) + (if e.Appended? && e.byLoop then [e.kind] else [])
  }

  predicate Quiet(own: seq<AuditKind>) {
    forall k :: 0 <= k < |own| ==> !own[k].TerminalType()
  }

  /** What the summary counts of the loop's own appends. */
  predicate Counts(a: AppendBook, observations: nat, own: seq<AuditKind>) {
    && a.observations == observations
    && (a.terminals == 0 <==> Quiet(own))
    && (a.last.None? <==> own == [])
    && (own != [] ==> a.last == Some(own[|own| - 1]))
    && (a.terminals == 1 && a.last.Some? && a.last.value.TerminalType() ==> own != [] && Quiet(own[..|own| - 1]))
  }

  lemma CountsOneMore(a: AppendBook, observations: nat, own: seq<AuditKind>, kind: AuditKind)
    requires Counts(a, observations, own)
    ensures Counts(NoteAppend(a, Appended(true, kind)), observations, own + [kind])
  {
    var own' := own + [kind];
    assert own'[..|own'| - 1] == own && own'[|own|] == kind;
    if Quiet(own') {
      forall k | 0 <= k < |own| ensures !own[k].TerminalType() { assert own'[k] == own[k]; }
    }
  }

  lemma SinceStartGrows(t: seq<Event>)
    requires t != [] && !t[|t| - 1].LoopStarted?
    ensures var s, e := SinceStart(t[..|t| - 1]), t[|t| - 1];
            && Observations(SinceStart(t)) == Observations(s) + (if e.Observed? then 1 else 0)
            && OwnAppends(SinceStart(t)) == OwnAppends(s) + (if e.Appended? && e.byLoop then [e.kind] else [])
  {
    var s, s' := SinceStart(t[..|t| - 1]), SinceStart(t);
    assert s' == s + [t[|t| - 1]] && s'[..|s'| - 1] == s;
  }

  lemma {:induction false} AppendsRecorded(t: seq<Event>)
    ensures Counts(Summary(t).appends, Observations(SinceStart(t)), OwnAppends(SinceStart(t)))
  {
    if t != [] {
      var init, e := t[..|t| - 1], t[|t| - 1];
      AppendsRecorded(init);
      if !e.LoopStarted? {
        SinceStartGrows(t);
        hide Counts, SinceStart, OwnAppends, Observations;
        var a, own, seen := Summary(init).appends, OwnAppends(SinceStart(init)), Observations(SinceStart(init));
        if e.Appended? && e.byLoop {
          CountsOneMore(a, seen, own, e.kind);
        } else {
          CountsOther(a, seen, own, e);
        }
      }
    }
  }

  lemma CountsOther(a: AppendBook, observations: nat, own: seq<AuditKind>, e: Event)
    requires Counts(a, observations, own) && !e.LoopStarted? && !(e.Appended? && e.byLoop)
    ensures Counts(NoteAppend(a, e), observations + (if e.Observed? then 1 else 0), own + [])
  {
    assert own + [] == own;
  }
}
