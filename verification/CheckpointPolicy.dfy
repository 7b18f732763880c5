/** The checkpoint and screenshot policies: stateful writers that skip unchanged
    observations, and async adapters that must decide exactly as the writers do. */
module CheckpointPolicy {
  import opened Basics
  import opened Fingerprints
  import opened Jaccard

  // ---------- decisions ----------

  datatype Reason =
    | First | UrlChange | TitleChange | DomHashChange | BrowserError
    | Approval | Error | Destructive | Periodic | Force

  datatype Settings = Settings(enabled: bool, intervalSteps: nat, domChangeRatio: real)

  /** One call of a writer.  `force` is the force reason, stripped and lower-cased, unless
      it was empty; `captureFails` and `writeFails` say whether those calls raise. */
  datatype Call = Call(observation: Observation, force: Option<string>, captureFails: bool, writeFails: bool)

  function DecideCheckpoint(
    previous: Option<Fingerprint>, current: Fingerprint, steps: nat, settings: Settings, force: Option<string>)
    : Option<Reason>
  {
    if !settings.enabled then None
    else if force.Some? then
      Some(if force.value == "approval" then Approval else if force.value == "error" then Error else Force)
    else if previous.None? then Some(First)
    else if current.url != previous.value.url then Some(UrlChange)
    else if current.title != previous.value.title then Some(TitleChange)
    else if current.domHash != previous.value.domHash
            && Distance(previous.value.signatures, current.signatures) >= settings.domChangeRatio
    then Some(DomHashChange)
    else if current.errorCount > previous.value.errorCount then Some(BrowserError)
    else if settings.intervalSteps > 0 && steps >= settings.intervalSteps then Some(Periodic)
    else None
  }

  function DecideScreenshot(
    previous: Option<Fingerprint>, current: Fingerprint, steps: nat, settings: Settings, force: Option<string>)
    : Option<Reason>
  {
    if !settings.enabled then None
    else if force.Some? then
      Some(if force.value == "approval" then Approval else if force.value == "error" then Error
           else if force.value == "destructive" then Destructive else Force)
    else if previous.None? then Some(First)
    else if current.url != previous.value.url then Some(UrlChange)
    else if current.title != previous.value.title then Some(TitleChange)
    else if settings.intervalSteps > 0 && steps >= settings.intervalSteps then Some(Periodic)
    else None
  }

  // ---------- one call on the policy state ----------

  /** Fingerprint of the last write, and observations since then. */
  datatype Policy = Policy(last: Option<Fingerprint>, steps: nat)

  const NEW_POLICY := Policy(None, 0)

  datatype Outcome = Skipped | Wrote(reason: Reason) | Raised

  function CheckpointCall(hash: TextHash, settings: Settings, p: Policy, c: Call): (Policy, Outcome) {
    var current := FingerprintOf(hash, c.observation);
    match DecideCheckpoint(p.last, current, p.steps + 1, settings, c.force)
    case None => (Policy(p.last, p.steps + 1), Skipped)
    case Some(reason) =>
      if c.writeFails then (Policy(p.last, p.steps + 1), Raised) else (Policy(Some(current), 0), Wrote(reason))
  }

  function ScreenshotCall(hash: TextHash, settings: Settings, p: Policy, c: Call): (Policy, Outcome) {
    var current := FingerprintOf(hash, c.observation);
    match DecideScreenshot(p.last, current, p.steps + 1, settings, c.force)
    case None => (Policy(p.last, p.steps + 1), Skipped)
    case Some(reason) =>
      if c.captureFails || c.writeFails then (Policy(p.last, p.steps + 1), Raised)
      else (Policy(Some(current), 0), Wrote(reason))
  }

  /** The state before call `i` of a sequence of calls on one long-lived writer. */
  function PolicyAt(hash: TextHash, settings: Settings, calls: seq<Call>, i: nat): Policy
    requires i <= |calls|
  {
    if i == 0 then NEW_POLICY
    else CheckpointCall(hash, settings, PolicyAt(hash, settings, calls, i - 1), calls[i - 1]).0
  }

  function OutcomeAt(hash: TextHash, settings: Settings, calls: seq<Call>, i: nat): Outcome
    requires i < |calls|
  {
    CheckpointCall(hash, settings, PolicyAt(hash, settings, calls, i), calls[i]).1
  }

  // ---------- what skipped observations have in common ----------

  /** Nothing is written by the calls from `i` to before `j`; some may raise. */
  predicate Quiet(hash: TextHash, settings: Settings, calls: seq<Call>, i: nat, j: nat)
    requires i <= j <= |calls|
  {
    forall k :: i <= k < j ==> !OutcomeAt(hash, settings, calls, k).Wrote?
  }

  lemma {:induction false} QuietKeepsLast(hash: TextHash, settings: Settings, calls: seq<Call>, i: nat, j: nat)
    requires i <= j <= |calls| && Quiet(hash, settings, calls, i, j)
    ensures PolicyAt(hash, settings, calls, j).last == PolicyAt(hash, settings, calls, i).last
    ensures PolicyAt(hash, settings, calls, j).steps == PolicyAt(hash, settings, calls, i).steps + (j - i)
  {
    hide FingerprintOf, DecideCheckpoint;
    if i < j {
      QuietKeepsLast(hash, settings, calls, i, j - 1);
      assert !OutcomeAt(hash, settings, calls, j - 1).Wrote?;
    }
  }

  /** An unforced call with the saved address and title, no new errors, and no checkpoint
      due by its number. */
  predicate OnlyDomMayDiffer(settings: Settings, p: Policy, saved: Observation, c: Call) {
    && c.force.None?
    && c.observation.url == saved.url && c.observation.title == saved.title
    && c.observation.errorCount <= saved.errorCount
    && (settings.intervalSteps == 0 || p.steps + 1 < settings.intervalSteps)
  }

  function Apart(a: Observation, b: Observation): (d: real)
    ensures 0.0 <= d <= 1.0
  {
    Distance((set s | s in a.Signatures()), (set s | s in b.Signatures()))
  }

  /** When nothing but the page's elements may differ from the saved observation, the call
      is skipped if and only if they are closer than the ratio or their signatures give the
      same lines; so a skip at the ratio or more needs a newline inside a signature. */
  lemma SkipStraysIff(hash: TextHash, settings: Settings, p: Policy, saved: Observation, c: Call)
    requires Injective(hash) && settings.enabled && p.last == Some(FingerprintOf(hash, saved))
    requires OnlyDomMayDiffer(settings, p, saved, c)
    ensures CheckpointCall(hash, settings, p, c).1.Skipped? <==>
            Apart(saved, c.observation) < settings.domChangeRatio || saved.DomLines() == c.observation.DomLines()
    ensures CheckpointCall(hash, settings, p, c).1.Skipped?
            && Apart(saved, c.observation) >= settings.domChangeRatio > 0.0 ==>
              !saved.OneLine() || !c.observation.OneLine()
  {
    hide Observation.Signatures, Observation.DomText, Observation.DomLines;
    DomTextsAgreeIff(saved, c.observation);
    if saved.OneLine() && c.observation.OneLine() {
      OneLineKeepsSignatures(saved);
      OneLineKeepsSignatures(c.observation);
    }
  }

  /** A skipped observation has the address and title of the one last checkpointed, and no
      more errors; and it is close to it if no text of the two holds a newline. */
  lemma SkippedIsClose(hash: TextHash, settings: Settings, p: Policy, saved: Observation, c: Call)
    requires Injective(hash) && settings.enabled && settings.domChangeRatio >= 0.0
    requires CheckpointCall(hash, settings, p, c).1.Skipped? && p.last == Some(FingerprintOf(hash, saved))
    ensures OnlyDomMayDiffer(settings, p, saved, c)
    ensures var d := Apart(saved, c.observation);
            saved.OneLine() && c.observation.OneLine() ==> d == 0.0 || d < settings.domChangeRatio
  {
    hide Observation.Signatures, Observation.DomText, Observation.DomLines;
    SkipStraysIff(hash, settings, p, saved, c);
    if saved.OneLine() && c.observation.OneLine() {
      OneLineKeepsSignatures(saved);
      OneLineKeepsSignatures(c.observation);
    }
  }

  /** The call whose observation was checkpointed last before call `i`, if there is one. */
  lemma {:induction false} LastWritten(hash: TextHash, settings: Settings, calls: seq<Call>, i: nat) returns (k: nat)
    requires i <= |calls|
    ensures PolicyAt(hash, settings, calls, i).last.Some? ==>
              k < i && PolicyAt(hash, settings, calls, i).last.value == FingerprintOf(hash, calls[k].observation)
  {
    hide FingerprintOf, DecideCheckpoint;
    k := 0;
    if i > 0 {
      k := LastWritten(hash, settings, calls, i - 1);
      if OutcomeAt(hash, settings, calls, i - 1).Wrote? { k := i - 1; }
    }
  }

  /** Two observations skipped with no write in between, though calls may have raised there,
      were not forced, share the checkpointed URL and title, and have no more browser errors
      than it; and unless a text of an element shown so far holds a newline, they are within
      twice the change ratio of each other. */
  lemma SkippedObservationsAgree(hash: TextHash, settings: Settings, calls: seq<Call>, i: nat, j: nat)
    requires settings.enabled && settings.domChangeRatio >= 0.0 && Injective(hash)
    requires i <= j < |calls| && Quiet(hash, settings, calls, i, j)
    requires OutcomeAt(hash, settings, calls, i).Skipped? && OutcomeAt(hash, settings, calls, j).Skipped?
    ensures PolicyAt(hash, settings, calls, i).last.Some?
    ensures
      var saved := PolicyAt(hash, settings, calls, i).last.value;
      var a, b := calls[i].observation, calls[j].observation;
      && a.url == b.url == saved.url && a.title == b.title == saved.title
      && a.errorCount <= saved.errorCount && b.errorCount <= saved.errorCount
      && calls[i].force.None? && calls[j].force.None?
    ensures
      var d := Apart(calls[i].observation, calls[j].observation);
      (forall k :: 0 <= k <= j ==> calls[k].observation.OneLine()) ==>
        d <= 2.0 * settings.domChangeRatio && (d > 0.0 ==> d < 2.0 * settings.domChangeRatio)
  {
    hide Observation.Signatures, Observation.OneLine;
    QuietKeepsLast(hash, settings, calls, i, j);
    var k := LastWritten(hash, settings, calls, i);
    SkippedIsClose(hash, settings, PolicyAt(hash, settings, calls, i), calls[k].observation, calls[i]);
    SkippedIsClose(hash, settings, PolicyAt(hash, settings, calls, j), calls[k].observation, calls[j]);
    var x := (set s | s in calls[i].observation.Signatures());
    var saved := (set s | s in calls[k].observation.Signatures());
    var y := (set s | s in calls[j].observation.Signatures());
    Symmetric(saved, x);
    Triangle(x, saved, y);
  }

  const SHOWN_FIRST := Call(Observation("u", "t", TWO_LINKS, 0), None, false, false)
  const SHOWN_NEXT := Call(Observation("u", "t", ONE_LINK, 0), None, false, false)
  const BY_CHANGE := Settings(true, 0, 0.35)

  /** A newline inside a signature hides a change of the whole page: whatever the hash, two
      observations that share no signature are both skipped after one checkpoint. */
  lemma NewlineHidesAChange(hash: TextHash)
    ensures
      var calls := [SHOWN_FIRST, SHOWN_NEXT, SHOWN_FIRST];
      && OutcomeAt(hash, BY_CHANGE, calls, 0) == Wrote(First)
      && OutcomeAt(hash, BY_CHANGE, calls, 1).Skipped? && OutcomeAt(hash, BY_CHANGE, calls, 2).Skipped?
      && Apart(calls[1].observation, calls[2].observation) == 1.0
  {
    hide Observation.Signatures, Observation.DomText;
    var calls := [SHOWN_FIRST, SHOWN_NEXT, SHOWN_FIRST];
    LinksReadAlike("u", "t", 0);
    var a, b := calls[0].observation, calls[1].observation;
    var x, y := (set s | s in a.Signatures()), (set s | s in b.Signatures());
    assert a.Signatures()[0] in x && x * y == {} && y * x == {};
    assert Apart(b, a) == 1.0;
    assert PolicyAt(hash, BY_CHANGE, calls, 1) == Policy(Some(FingerprintOf(hash, a)), 0);
    assert PolicyAt(hash, BY_CHANGE, calls, 2) == Policy(Some(FingerprintOf(hash, a)), 1);
  }

  /** With a periodic interval of N, no N observations in a row are skipped. */
  lemma NoIntervalPassesQuietly(hash: TextHash, settings: Settings, calls: seq<Call>, i: nat)
    requires settings.enabled && settings.intervalSteps > 0 && i + settings.intervalSteps <= |calls|
    ensures exists k :: i <= k < i + settings.intervalSteps && !OutcomeAt(hash, settings, calls, k).Skipped?
  {
    hide FingerprintOf, Distance;
    var last := i + settings.intervalSteps - 1;
    if Quiet(hash, settings, calls, i, last) {
      QuietKeepsLast(hash, settings, calls, i, last);
      assert !OutcomeAt(hash, settings, calls, last).Skipped?;
    } else {
      var k :| i <= k < last && OutcomeAt(hash, settings, calls, k).Wrote?;
    }
  }

  // ---------- when something is written ----------

  /** What speaks for a checkpoint of an observation, `gap` observations after that of `saved`. */
  predicate Ground(settings: Settings, saved: Observation, now: Observation, gap: nat, reason: Reason) {
    match reason
    case UrlChange => now.url != saved.url
    case TitleChange => now.title != saved.title
    case DomHashChange =>
      now.DomLines() != saved.DomLines() && Apart(saved, now) >= settings.domChangeRatio
    case BrowserError => now.errorCount > saved.errorCount
    case Periodic => 0 < settings.intervalSteps <= gap
    case _ => false
  }

  const CHECKPOINT_ORDER := [UrlChange, TitleChange, DomHashChange, BrowserError, Periodic]
  const SCREENSHOT_ORDER := [UrlChange, TitleChange, Periodic]

  /** The first in the order that there is a ground for. */
  function FirstGround(order: seq<Reason>, settings: Settings, saved: Observation, now: Observation, gap: nat)
    : Option<Reason>
  {
    if order == [] then None
    else if Ground(settings, saved, now, gap, order[0]) then Some(order[0])
    else FirstGround(order[1..], settings, saved, now, gap)
  }

  /** Without a reason nothing happens; with one there is a write for it, or an error. */
  predicate Follows(outcome: Outcome, reason: Option<Reason>, fails: bool) {
    if reason.None? then outcome.Skipped? else if fails then outcome.Raised? else outcome == Wrote(reason.value)
  }

  lemma FirstOf(
    order: seq<Reason>, rest: seq<Reason>, settings: Settings, saved: Observation, now: Observation, gap: nat)
    requires order != [] && order[1..] == rest
    ensures FirstGround(order, settings, saved, now, gap)
            == if Ground(settings, saved, now, gap, order[0]) then Some(order[0])
               else FirstGround(rest, settings, saved, now, gap)
  {
  }

  lemma CheckpointFollows(hash: TextHash, settings: Settings, p: Policy, saved: Observation, c: Call)
    requires Injective(hash) && settings.enabled && c.force.None? && p.last == Some(FingerprintOf(hash, saved))
    ensures Follows(CheckpointCall(hash, settings, p, c).1,
                    FirstGround(CHECKPOINT_ORDER, settings, saved, c.observation, p.steps + 1), c.writeFails)
  {
    var now, gap := c.observation, p.steps + 1;
    DomTextsAgreeIff(saved, now);
    hide Observation.Signatures, Observation.DomText, Observation.DomLines, Distance;
    FirstOf(CHECKPOINT_ORDER, [TitleChange, DomHashChange, BrowserError, Periodic], settings, saved, now, gap);
    FirstOf([TitleChange, DomHashChange, BrowserError, Periodic], [DomHashChange, BrowserError, Periodic], settings,
            saved, now, gap);
    FirstOf([DomHashChange, BrowserError, Periodic], [BrowserError, Periodic], settings, saved, now, gap);
    FirstOf([BrowserError, Periodic], [Periodic], settings, saved, now, gap);
    FirstOf([Periodic], [], settings, saved, now, gap);
  }

  lemma ScreenshotFollows(hash: TextHash, settings: Settings, p: Policy, saved: Observation, c: Call)
    requires settings.enabled && c.force.None? && p.last == Some(FingerprintOf(hash, saved))
    ensures Follows(ScreenshotCall(hash, settings, p, c).1,
                    FirstGround(SCREENSHOT_ORDER, settings, saved, c.observation, p.steps + 1),
                    c.captureFails || c.writeFails)
  {
    hide Observation.Signatures, Observation.DomText, Observation.DomLines;
    var now, gap := c.observation, p.steps + 1;
    FirstOf(SCREENSHOT_ORDER, [TitleChange, Periodic], settings, saved, now, gap);
    FirstOf([TitleChange, Periodic], [Periodic], settings, saved, now, gap);
    FirstOf([Periodic], [], settings, saved, now, gap);
  }

  /** An unforced call after a checkpoint at call `k` writes for the first reason there is,
      measured against the observation written then and by the calls since, and else skips. */
  lemma CheckpointIsWrittenIff(hash: TextHash, settings: Settings, calls: seq<Call>, k: nat, i: nat)
    requires Injective(hash) && settings.enabled && k < i < |calls| && calls[i].force.None?
    requires OutcomeAt(hash, settings, calls, k).Wrote? && Quiet(hash, settings, calls, k + 1, i)
    ensures Follows(OutcomeAt(hash, settings, calls, i),
                    FirstGround(CHECKPOINT_ORDER, settings, calls[k].observation, calls[i].observation, i - k),
                    calls[i].writeFails)
  {
    hide Follows, FirstGround, DecideCheckpoint, FingerprintOf;
    QuietKeepsLast(hash, settings, calls, k + 1, i);
    CheckpointFollows(hash, settings, PolicyAt(hash, settings, calls, i), calls[k].observation, calls[i]);
  }

  /** A forced call, and the first one, always write; a policy that is off never does. */
  lemma ForcedCallsWrite(hash: TextHash, settings: Settings, p: Policy, c: Call)
    ensures !settings.enabled ==>
              CheckpointCall(hash, settings, p, c).1.Skipped? && ScreenshotCall(hash, settings, p, c).1.Skipped?
    ensures settings.enabled && (c.force.Some? || p.last.None?) ==>
              var forced := if c.force.None? then First
                            else if c.force.value == "approval" then Approval
                            else if c.force.value == "error" then Error else Force;
              && Follows(CheckpointCall(hash, settings, p, c).1, Some(forced), c.writeFails)
              && Follows(ScreenshotCall(hash, settings, p, c).1,
                         Some(if c.force == Some("destructive") then Destructive else forced),
                         c.captureFails || c.writeFails)
  {
    hide FingerprintOf, Distance;
    assert "approval"[0] != "destructive"[0] && "error"[0] != "destructive"[0];
  }

  // ---------- screenshots ----------

  /** The state of the screenshot policy before call `i`. */
  function CapturesAt(hash: TextHash, settings: Settings, calls: seq<Call>, i: nat): Policy
    requires i <= |calls|
  {
    if i == 0 then NEW_POLICY
    else ScreenshotCall(hash, settings, CapturesAt(hash, settings, calls, i - 1), calls[i - 1]).0
  }

  function CaptureAt(hash: TextHash, settings: Settings, calls: seq<Call>, i: nat): Outcome
    requires i < |calls|
  {
    ScreenshotCall(hash, settings, CapturesAt(hash, settings, calls, i), calls[i]).1
  }

  /** No screenshot is written by the calls from `i` to before `j`. */
  predicate Unseen(hash: TextHash, settings: Settings, calls: seq<Call>, i: nat, j: nat)
    requires i <= j <= |calls|
  {
    forall k :: i <= k < j ==> !CaptureAt(hash, settings, calls, k).Wrote?
  }

  lemma {:induction false} UnseenKeepsLast(hash: TextHash, settings: Settings, calls: seq<Call>, i: nat, j: nat)
    requires i <= j <= |calls| && Unseen(hash, settings, calls, i, j)
    ensures CapturesAt(hash, settings, calls, j).last == CapturesAt(hash, settings, calls, i).last
    ensures CapturesAt(hash, settings, calls, j).steps == CapturesAt(hash, settings, calls, i).steps + (j - i)
  {
    hide FingerprintOf, DecideScreenshot;
    if i < j {
      UnseenKeepsLast(hash, settings, calls, i, j - 1);
      assert !CaptureAt(hash, settings, calls, j - 1).Wrote?;
    }
  }

  /** The same for screenshots, which have fewer reasons. */
  lemma ScreenshotIsWrittenIff(hash: TextHash, settings: Settings, calls: seq<Call>, k: nat, i: nat)
    requires settings.enabled && k < i < |calls| && calls[i].force.None?
    requires CaptureAt(hash, settings, calls, k).Wrote? && Unseen(hash, settings, calls, k + 1, i)
    ensures Follows(CaptureAt(hash, settings, calls, i),
                    FirstGround(SCREENSHOT_ORDER, settings, calls[k].observation, calls[i].observation, i - k),
                    calls[i].captureFails || calls[i].writeFails)
  {
    hide Follows, FirstGround, DecideScreenshot, FingerprintOf;
    UnseenKeepsLast(hash, settings, calls, k + 1, i);
    ScreenshotFollows(hash, settings, CapturesAt(hash, settings, calls, i), calls[k].observation, calls[i]);
  }

  /** Two calls that differ at most in the page's elements and errors. */
  predicate SameButDom(a: Call, b: Call) {
    && a.observation.url == b.observation.url && a.observation.title == b.observation.title
    && a.force == b.force && a.captureFails == b.captureFails && a.writeFails == b.writeFails
  }

  predicate SamePlace(p: Policy, q: Policy) {
    && p.steps == q.steps && (p.last.Some? <==> q.last.Some?)
    && (p.last.Some? ==> p.last.value.url == q.last.value.url && p.last.value.title == q.last.value.title)
  }

  /** Screenshots ignore changes of the page's elements: over whole sequences the outcomes
      depend on addresses, titles, force reasons and failures alone. */
  lemma {:induction false} ScreenshotsIgnoreDom(
    hash: TextHash, settings: Settings, a: seq<Call>, b: seq<Call>, i: nat)
    requires |a| == |b| && i < |a| && forall k :: 0 <= k < |a| ==> SameButDom(a[k], b[k])
    ensures SamePlace(CapturesAt(hash, settings, a, i), CapturesAt(hash, settings, b, i))
    ensures CaptureAt(hash, settings, a, i) == CaptureAt(hash, settings, b, i)
  {
    hide Observation.Signatures, Observation.DomText;
    assert SameButDom(a[i], b[i]);
    if i > 0 {
      assert SameButDom(a[i - 1], b[i - 1]);
      ScreenshotsIgnoreDom(hash, settings, a, b, i - 1);
    }
  }

  // ---------- the writers ----------

  class CheckpointWriter {
    const hash: TextHash
    const settings: Settings
    var last: Option<Fingerprint>
    var steps: nat

    function State(): Policy
      reads this
    {
      Policy(last, steps)
    }

    constructor (hash: TextHash, settings: Settings)
      ensures this.hash == hash && this.settings == settings && State() == NEW_POLICY
    {
      this.hash, this.settings := hash, settings;
      last, steps := None, 0;
    }

    method MaybeCheckpoint(c: Call) returns (outcome: Outcome)
      modifies this
      ensures (State(), outcome) == CheckpointCall(hash, settings, old(State()), c)
      ensures outcome.Wrote? ==> last == Some(FingerprintOf(hash, c.observation)) && steps == 0
      ensures !outcome.Wrote? ==> last == old(last) && steps == old(steps) + 1
    {
      hide FingerprintOf, Distance;
      steps := steps + 1;
      var current := FingerprintOf(hash, c.observation);
      var decision := DecideCheckpoint(last, current, steps, settings, c.force);
      if decision.None? { return Skipped; }
      if c.writeFails { return Raised; }
      last := Some(current);
      steps := 0;
      return Wrote(decision.value);
    }
  }

  /** What one call leaves in the adapter: a raising write skips the copy back. */
  function AsyncCheckpointCall(hash: TextHash, settings: Settings, p: Policy, c: Call): (Policy, Outcome) {
    var (p', outcome) := CheckpointCall(hash, settings, p, c);
    (if outcome.Raised? then p else p', outcome)
  }

  /** Each call copies the policy state into a new writer and back. */
  class AsyncCheckpointWriter {
    const hash: TextHash
    const settings: Settings
    var last: Option<Fingerprint>
    var steps: nat

    function State(): Policy
      reads this
    {
      Policy(last, steps)
    }

    constructor (hash: TextHash, settings: Settings)
      ensures this.hash == hash && this.settings == settings && State() == NEW_POLICY
    {
      this.hash, this.settings := hash, settings;
      last, steps := None, 0;
    }

    method Write(c: Call) returns (outcome: Outcome)
      modifies this
      ensures (State(), outcome) == AsyncCheckpointCall(hash, settings, old(State()), c)
      ensures outcome.Wrote? ==> last == Some(FingerprintOf(hash, c.observation)) && steps == 0
      ensures !outcome.Wrote? ==> last == old(last) && steps == if outcome.Raised? then old(steps) else old(steps) + 1
    {
      var writer := new CheckpointWriter(hash, settings);
      writer.last := last;
      writer.steps := steps;
      outcome := writer.MaybeCheckpoint(c);
      if outcome.Raised? { return; }
      last := writer.last;
      steps := writer.steps;
    }
  }

  class ScreenshotWriter {
    const hash: TextHash
    const settings: Settings
    var last: Option<Fingerprint>
    var steps: nat

    function State(): Policy
      reads this
    {
      Policy(last, steps)
    }

    constructor (hash: TextHash, settings: Settings)
      ensures this.hash == hash && this.settings == settings && State() == NEW_POLICY
    {
      this.hash, this.settings := hash, settings;
      last, steps := None, 0;
    }

    method MaybeScreenshot(c: Call) returns (outcome: Outcome)
      modifies this
      ensures (State(), outcome) == ScreenshotCall(hash, settings, old(State()), c)
      ensures outcome.Wrote? ==> last == Some(FingerprintOf(hash, c.observation)) && steps == 0
      ensures !outcome.Wrote? ==> last == old(last) && steps == old(steps) + 1
    {
      hide FingerprintOf, Distance;
      steps := steps + 1;
      var current := FingerprintOf(hash, c.observation);
      var decision := DecideScreenshot(last, current, steps, settings, c.force);
      if decision.None? { return Skipped; }
      if c.captureFails { return Raised; }
      if c.writeFails { return Raised; }
      last := Some(current);
      steps := 0;
      return Wrote(decision.value);
    }
  }

  /** Decides and captures itself, then lets a new writer decide again on the same state:
      in every case, raising or not, exactly what one long-lived writer would have done. */
  class AsyncScreenshotWriter {
    const hash: TextHash
    const settings: Settings
    var last: Option<Fingerprint>
    var steps: nat

    function State(): Policy
      reads this
    {
      Policy(last, steps)
    }

    constructor (hash: TextHash, settings: Settings)
      ensures this.hash == hash && this.settings == settings && State() == NEW_POLICY
    {
      this.hash, this.settings := hash, settings;
      last, steps := None, 0;
    }

    method Write(c: Call) returns (outcome: Outcome)
      modifies this
      ensures (State(), outcome) == ScreenshotCall(hash, settings, old(State()), c)
      ensures outcome.Wrote? ==> last == Some(FingerprintOf(hash, c.observation)) && steps == 0
      ensures !outcome.Wrote? ==> last == old(last) && steps == old(steps) + 1
    {
      hide FingerprintOf, Distance;
      steps := steps + 1;
      var current := FingerprintOf(hash, c.observation);
      var decision := DecideScreenshot(last, current, steps, settings, c.force);
      if decision.None? { return Skipped; }
      if c.captureFails { return Raised; }
      var writer := new ScreenshotWriter(hash, settings);
      writer.last := last;
      writer.steps := steps - 1;
      outcome := writer.MaybeScreenshot(c);
      if outcome.Raised? { return; }
      last := writer.last;
      steps := writer.steps;
    }
  }

  // ---------- adapters over whole sequences ----------

  /** A call whose write is due and fails. */
  predicate FailsToWrite(hash: TextHash, settings: Settings, p: Policy, c: Call) {
    && c.writeFails
    && DecideCheckpoint(p.last, FingerprintOf(hash, c.observation), p.steps + 1, settings, c.force).Some?
  }

  /** One step of either checkpoint writer leaves the same state unless a write is due and
      fails; the outcome is the same in every case. */
  lemma AdapterStepAgreesIff(hash: TextHash, settings: Settings, p: Policy, c: Call)
    ensures
      var plain, adapter := CheckpointCall(hash, settings, p, c), AsyncCheckpointCall(hash, settings, p, c);
      && plain.1 == adapter.1
      && (plain.0 == adapter.0 <==> !FailsToWrite(hash, settings, p, c))
  {
  }

  function AdapterAt(hash: TextHash, settings: Settings, calls: seq<Call>, i: nat): Policy
    requires i <= |calls|
  {
    if i == 0 then NEW_POLICY
    else AsyncCheckpointCall(hash, settings, AdapterAt(hash, settings, calls, i - 1), calls[i - 1]).0
  }

  predicate NoWriteFails(hash: TextHash, settings: Settings, calls: seq<Call>, i: nat)
    requires i <= |calls|
  {
    forall k :: 0 <= k < i ==> !FailsToWrite(hash, settings, PolicyAt(hash, settings, calls, k), calls[k])
  }

  predicate SameStates(hash: TextHash, settings: Settings, calls: seq<Call>, i: nat)
    requires i <= |calls|
  {
    forall k :: 0 <= k <= i ==> AdapterAt(hash, settings, calls, k) == PolicyAt(hash, settings, calls, k)
  }

  /** The adapter goes through the same states as one long-lived writer if and only if no
      due write fails; and up to and including the first that does, it makes the same
      decisions for the same reasons. */
  lemma {:induction false} AdapterAgrees(hash: TextHash, settings: Settings, calls: seq<Call>, i: nat)
    requires i <= |calls|
    ensures SameStates(hash, settings, calls, i) <==> NoWriteFails(hash, settings, calls, i)
    ensures i < |calls| && NoWriteFails(hash, settings, calls, i) ==>
      AsyncCheckpointCall(hash, settings, AdapterAt(hash, settings, calls, i), calls[i]).1
      == OutcomeAt(hash, settings, calls, i)
  {
    hide CheckpointCall, AsyncCheckpointCall, FailsToWrite;
    if i > 0 {
      AdapterAgrees(hash, settings, calls, i - 1);
      AdapterStepAgreesIff(hash, settings, PolicyAt(hash, settings, calls, i - 1), calls[i - 1]);
      assert SameStates(hash, settings, calls, i) <==>
             SameStates(hash, settings, calls, i - 1)
             && AdapterAt(hash, settings, calls, i) == PolicyAt(hash, settings, calls, i);
      assert SameStates(hash, settings, calls, i - 1) ==>
             AdapterAt(hash, settings, calls, i - 1) == PolicyAt(hash, settings, calls, i - 1);
      assert NoWriteFails(hash, settings, calls, i) <==>
             NoWriteFails(hash, settings, calls, i - 1)
             && !FailsToWrite(hash, settings, PolicyAt(hash, settings, calls, i - 1), calls[i - 1]);
    } else {
      assert AdapterAt(hash, settings, calls, 0) == PolicyAt(hash, settings, calls, 0);
    }
    if i < |calls| {
      AdapterStepAgreesIff(hash, settings, PolicyAt(hash, settings, calls, i), calls[i]);
    }
  }

  const EVERY_SECOND := Settings(true, 2, 1.0)
  const PAGE_SEEN := Call(Observation("u", "t", [], 0), None, false, false)
  const FAILING_WRITE := PAGE_SEEN.(force := Some("error"), writeFails := true)

  /** A failing write makes the adapter miss the next periodic checkpoint: it does not count
      the observation whose write has failed. */
  lemma FailingWriteDelaysCheckpoint(hash: TextHash)
    ensures
      var calls := [PAGE_SEEN, FAILING_WRITE, PAGE_SEEN];
      && OutcomeAt(hash, EVERY_SECOND, calls, 2) == Wrote(Periodic)
      && AsyncCheckpointCall(hash, EVERY_SECOND, AdapterAt(hash, EVERY_SECOND, calls, 2), calls[2]).1 == Skipped
  {
    var calls := [PAGE_SEEN, FAILING_WRITE, PAGE_SEEN];
    var saved := FingerprintOf(hash, PAGE_SEEN.observation);
    assert PolicyAt(hash, EVERY_SECOND, calls, 1) == Policy(Some(saved), 0);
    assert AdapterAt(hash, EVERY_SECOND, calls, 1) == Policy(Some(saved), 0);
    assert PolicyAt(hash, EVERY_SECOND, calls, 2) == Policy(Some(saved), 1);
    assert AdapterAt(hash, EVERY_SECOND, calls, 2) == Policy(Some(saved), 0);
  }
}
