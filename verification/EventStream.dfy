/** Replay-then-live streaming of one run's events to a client, while the publisher keeps
    appending, in every interleaving and across reconnects.  Events are known by their
    sequence numbers 1, 2, 3, ...; appending, committing and publishing is one step. */
module EventStream {
  import opened Arithmetic

  /** The numbers from `from` to `to`, in order. */
  function Range(from: nat, to: nat): (r: seq<nat>)
    ensures |r| == if from <= to then to - from + 1 else 0
    ensures forall i :: 0 <= i < |r| ==> r[i] == from + i
  {
    if from <= to then seq(to - from + 1, i requires 0 <= i => from + i) else []
  }

  lemma RangeSplit(a: nat, b: nat, c: nat)
    requires a <= b + 1 && b <= c
    ensures Range(a, c) == Range(a, b) + Range(b + 1, c)
  {
  }

  datatype Stage =
    | Connecting
    | Subscribed
    | Replaying(rest: seq<nat>)
    | Live(batch: seq<nat>)
    | Closed

  /** `stored` events exist; `queue` is the subscriber's queue on the bus; `sent` is what
      the client was sent in this session.  `atSubscribe` and `replayedTo` record, for the
      statements below, the events stored when the session subscribed and the end of its
      replay. */
  datatype Session = Session(
    after: nat, limit: nat, stored: nat, stage: Stage, queue: seq<nat>, last: nat, sent: seq<nat>,
    atSubscribe: nat, replayedTo: nat)

  datatype Label = Publish | Subscribe | ReadReplay | SendReplay | EndReplay | Drain | SendLive | Disconnect

  const DRAIN_CAP: nat := 64

  function Connect(after: nat, limit: nat, stored: nat): Session {
    Session(after, limit, stored, Connecting, [], after, [], 0, after)
  }

  /** One step; a label that does not fit the stage changes nothing. */
  function Step(s: Session, l: Label): Session {
    match l
    case Publish =>
      s.(stored := s.stored + 1,
         queue := if s.stage.Connecting? || s.stage.Closed? then s.queue else s.queue + [s.stored + 1])
    case Subscribe =>
      if s.stage.Connecting? then s.(stage := Subscribed, queue := [], atSubscribe := s.stored) else s
    case ReadReplay =>
      if s.stage.Subscribed? then
        var to := Max(s.after, Min(s.stored, s.after + s.limit));
        s.(stage := Replaying(Range(s.after + 1, to)), replayedTo := to)
      else s
    case SendReplay =>
      if s.stage.Replaying? && s.stage.rest != [] then
        s.(stage := Replaying(s.stage.rest[1..]), last := s.stage.rest[0], sent := s.sent + [s.stage.rest[0]])
      else s
    case EndReplay => if s.stage == Replaying([]) then s.(stage := Live([])) else s
    case Drain =>
      if s.stage == Live([]) then
        var n := Min(DRAIN_CAP, |s.queue|);
        s.(stage := Live(s.queue[..n]), queue := s.queue[n..])
      else s
    case SendLive =>
      if s.stage.Live? && s.stage.batch != [] then
        var x, rest := s.stage.batch[0], s.stage.batch[1..];
        if x <= s.last then s.(stage := Live(rest))
        else s.(stage := Live(rest), last := x, sent := s.sent + [x])
      else s
    case Disconnect => s.(stage := Closed, queue := [])
  }

  function RunSession(s: Session, labels: seq<Label>): Session {
    if labels == [] then s else Step(RunSession(s, labels[..|labels| - 1]), labels[|labels| - 1])
  }

  // ---------- what has been sent, exactly ----------

  /** The replay without holes, then the live events without holes, from the first one that
      is neither in the replay nor older than the subscription. */
  function Expected(s: Session): seq<nat> {
    Range(s.after + 1, Min(s.last, s.replayedTo)) + Range(Max(s.replayedTo, s.atSubscribe) + 1, s.last)
  }

  /** How far the live events have been taken off the queue and handled. */
  function Handled(s: Session, batch: seq<nat>): int {
    s.stored - |batch| - |s.queue|
  }

  /** All that is still on its way to the client are the later events, without holes. */
  predicate Pending(s: Session, batch: seq<nat>) {
    && s.atSubscribe <= Handled(s, batch)
    && batch + s.queue == Range(Handled(s, batch) + 1, s.stored)
  }

  /** The replay has reached every event stored at subscription, or its limit. */
  predicate Replayed(s: Session) {
    && s.after <= s.replayedTo <= s.after + s.limit
    && s.replayedTo <= Max(s.after, s.stored)
    && Min(s.atSubscribe, s.after + s.limit) <= s.replayedTo
  }

  predicate StageInv(s: Session) {
    match s.stage
    case Connecting => s.last == s.after == s.replayedTo
    case Subscribed => s.last == s.after == s.replayedTo && Pending(s, []) && Handled(s, []) == s.atSubscribe
    case Replaying(rest) =>
      && Replayed(s) && s.last <= s.replayedTo && rest == Range(s.last + 1, s.replayedTo)
      && Pending(s, []) && Handled(s, []) == s.atSubscribe
    case Live(batch) =>
      && Replayed(s) && Pending(s, batch)
      && s.last == Max(s.replayedTo, if Handled(s, batch) == s.atSubscribe then 0 else Handled(s, batch))
    case Closed => true
  }

  predicate Inv(s: Session) {
    && s.atSubscribe <= s.stored && s.after <= s.replayedTo && s.after <= s.last
    && (s.last > s.replayedTo ==> Replayed(s))
    && s.sent == Expected(s)
    && StageInv(s)
  }

  lemma ReplayIsExpected(s: Session)
    requires s.last <= s.replayedTo
    ensures Expected(s) == Range(s.after + 1, s.last)
  {
  }

  lemma RangeGrows(from: nat, to: nat)
    requires from <= to + 1
    ensures Range(from, to + 1) == Range(from, to) + [to + 1]
  {
  }

  lemma TakeFirst(from: nat, to: nat)
    requires from <= to
    ensures Range(from, to) != [] && Range(from, to)[0] == from && Range(from, to)[1..] == Range(from + 1, to)
  {
  }

  lemma ReplayEventExtends(s: Session)
    requires s.sent == Expected(s) && s.after <= s.last < s.replayedTo
    ensures s.sent + [s.last + 1] == Expected(s.(last := s.last + 1, sent := s.sent + [s.last + 1]))
  {
    ReplayIsExpected(s);
    ReplayIsExpected(s.(last := s.last + 1));
    RangeGrows(s.after + 1, s.last);
  }

  lemma SendReplayKeeps(s: Session)
    requires Inv(s) && s.stage.Replaying? && s.stage.rest != []
    ensures Inv(Step(s, SendReplay))
  {
    hide Expected;
    TakeFirst(s.last + 1, s.replayedTo);
    ReplayEventExtends(s);
    hide Range;
    var s' := s.(stage := Replaying(s.stage.rest[1..]), last := s.last + 1, sent := s.sent + [s.last + 1]);
    assert Step(s, SendReplay) == s';
    assert Expected(s') == s'.sent by { SameExpected(s', s.(last := s.last + 1, sent := s.sent + [s.last + 1])); }
    assert Handled(s', []) == Handled(s, []);
  }

  lemma SameExpected(s: Session, t: Session)
    requires s.after == t.after && s.last == t.last && s.replayedTo == t.replayedTo && s.atSubscribe == t.atSubscribe
    ensures Expected(s) == Expected(t)
  {
  }

  lemma SendLiveKeeps(s: Session)
    requires Inv(s) && s.stage.Live? && s.stage.batch != []
    ensures Inv(Step(s, SendLive))
  {
    var s' := Step(s, SendLive);
    var x, rest := s.stage.batch[0], s.stage.batch[1..];
    assert x == (s.stage.batch + s.queue)[0] == Handled(s, s.stage.batch) + 1;
    assert rest + s.queue == (s.stage.batch + s.queue)[1..];
    assert Pending(s', rest);
    if x > s.last { LiveEventExtends(s, x); }
  }

  lemma LiveEventExtends(s: Session, x: nat)
    requires s.sent == Expected(s) && s.replayedTo <= s.last < x && s.after <= s.replayedTo && s.atSubscribe < x
    requires x == s.last + 1 || (s.last == s.replayedTo && x == s.atSubscribe + 1)
    ensures s.sent + [x] == Expected(s.(last := x, sent := s.sent + [x]))
  {
    var from := Max(s.replayedTo, s.atSubscribe) + 1;
    assert Min(s.last, s.replayedTo) == Min(x, s.replayedTo) == s.replayedTo;
    assert Range(from, x) == Range(from, s.last) + [x];
  }

  lemma DrainKeeps(s: Session)
    requires Inv(s) && s.stage == Live([])
    ensures Inv(Step(s, Drain))
  {
    var n := Min(DRAIN_CAP, |s.queue|);
    assert s.queue[..n] + s.queue[n..] == [] + s.queue;
  }

  lemma PublishKeeps(s: Session)
    requires Inv(s)
    ensures Inv(Step(s, Publish))
  {
    var s' := Step(s, Publish);
    match s.stage
    case Connecting =>
    case Closed =>
    case Subscribed => PublishedIsPending(s, []);
    case Replaying(_) => PublishedIsPending(s, []);
    case Live(batch) => PublishedIsPending(s, batch);
  }

  lemma PublishedIsPending(s: Session, batch: seq<nat>)
    requires Pending(s, batch)
    ensures var s' := s.(stored := s.stored + 1, queue := s.queue + [s.stored + 1]);
            Pending(s', batch) && Handled(s', batch) == Handled(s, batch)
  {
    assert batch + (s.queue + [s.stored + 1]) == (batch + s.queue) + [s.stored + 1];
  }

  lemma EntryKeeps(s: Session, l: Label)
    requires Inv(s) && (l.Subscribe? || l.ReadReplay? || l.EndReplay?)
    ensures Inv(Step(s, l))
  {
  }

  lemma StepKeeps(s: Session, l: Label)
    requires Inv(s)
    ensures Inv(Step(s, l))
  {
    match l
    case Publish => PublishKeeps(s);
    case Subscribe => EntryKeeps(s, l);
    case ReadReplay => EntryKeeps(s, l);
    case SendReplay => if s.stage.Replaying? && s.stage.rest != [] { SendReplayKeeps(s); }
    case EndReplay => EntryKeeps(s, l);
    case Drain => if s.stage == Live([]) { DrainKeeps(s); }
    case SendLive => if s.stage.Live? && s.stage.batch != [] { SendLiveKeeps(s); }
    case _ =>
  }

  lemma {:induction false} EveryStateKeeps(after: nat, limit: nat, stored: nat, labels: seq<Label>)
    ensures Inv(RunSession(Connect(after, limit, stored), labels))
    ensures var s := RunSession(Connect(after, limit, stored), labels); s.after == after && s.limit == limit
  {
    hide Inv, Step, Connect;
    var s0 := Connect(after, limit, stored);
    if labels == [] {
      StartIsSound(after, limit, stored);
    } else {
      var before := RunSession(s0, labels[..|labels| - 1]);
      EveryStateKeeps(after, limit, stored, labels[..|labels| - 1]);
      StepKeeps(before, labels[|labels| - 1]);
      QueryIsFixed(before, labels[|labels| - 1]);
    }
  }

  lemma StartIsSound(after: nat, limit: nat, stored: nat)
    ensures var s := Connect(after, limit, stored); Inv(s) && s.after == after && s.limit == limit
  {
  }

  lemma QueryIsFixed(s: Session, l: Label)
    ensures Step(s, l).after == s.after && Step(s, l).limit == s.limit
  {
  }

  // ---------- one session ----------

  predicate StrictlyIncreasing(s: seq<nat>) {
    forall i, j :: 0 <= i < j < |s| ==> s[i] < s[j]
  }

  /** In every interleaving what is sent is strictly increasing, and is exactly the replay
      followed by the live events from the later of the replay's end and the subscription. */
  lemma SentInOrder(after: nat, limit: nat, stored: nat, labels: seq<Label>)
    ensures var s := RunSession(Connect(after, limit, stored), labels);
            s.sent == Expected(s) && StrictlyIncreasing(s.sent)
  {
    EveryStateKeeps(after, limit, stored, labels);
  }

  /** Nothing is skipped if at most `limit` events were waiting when the session subscribed;
      and once a live event has been sent, only then. */
  lemma NoGapIff(after: nat, limit: nat, stored: nat, labels: seq<Label>)
    ensures var s := RunSession(Connect(after, limit, stored), labels);
            && (s.atSubscribe <= after + limit ==> s.sent == Range(after + 1, s.last))
            && (s.last > s.replayedTo ==>
                  (s.sent == Range(after + 1, s.last) <==> s.atSubscribe <= after + limit))
  {
    hide RunSession, Connect, StageInv;
    EveryStateKeeps(after, limit, stored, labels);
    var s := RunSession(Connect(after, limit, stored), labels);
    if s.last > s.replayedTo && s.atSubscribe <= after + limit {
      RangeSplit(after + 1, s.replayedTo, s.last);
    }
  }

  /** When the queue has been emptied and at most `limit` events were waiting at the
      subscription, the client has every event after `after`. */
  lemma IdleMeansComplete(after: nat, limit: nat, stored: nat, labels: seq<Label>)
    ensures var s := RunSession(Connect(after, limit, stored), labels);
            s.stage == Live([]) && s.queue == [] && s.atSubscribe <= after + limit
            ==> s.sent == Range(after + 1, s.stored)
  {
    EveryStateKeeps(after, limit, stored, labels);
    NoGapIff(after, limit, stored, labels);
    var s := RunSession(Connect(after, limit, stored), labels);
    if s.stage == Live([]) && s.queue == [] && s.atSubscribe <= after + limit {
      assert s.last == Max(after, s.stored);
    }
  }

  // ---------- the client catches up ----------

  function Rank(stage: Stage): nat {
    match stage
    case Connecting => 4
    case Subscribed => 3
    case Replaying(_) => 2
    case Live(_) => 1
    case Closed => 0
  }

  function InHand(stage: Stage): seq<nat> {
    match stage
    case Replaying(rest) => rest
    case Live(batch) => batch
    case _ => []
  }

  /** The handler's own next move. */
  function NextMove(s: Session): Label {
    match s.stage
    case Connecting => Subscribe
    case Subscribed => ReadReplay
    case Replaying(rest) => if rest == [] then EndReplay else SendReplay
    case Live(batch) => if batch == [] then Drain else SendLive
    case Closed => Disconnect
  }

  lemma {:induction false} RunFirst(s: Session, l: Label, labels: seq<Label>)
    ensures RunSession(s, [l] + labels) == RunSession(Step(s, l), labels)
  {
    hide Step;
    if labels == [] {
      assert ([l] + labels)[..0] == [];
    } else {
      RunFirst(s, l, labels[..|labels| - 1]);
      assert ([l] + labels)[..|labels|] == [l] + labels[..|labels| - 1];
    }
  }

  lemma {:induction false} RunOn(s: Session, a: seq<Label>, b: seq<Label>)
    ensures RunSession(s, a + b) == RunSession(RunSession(s, a), b)
  {
    hide Step;
    if b == [] {
      assert a + b == a;
    } else {
      RunOn(s, a, b[..|b| - 1]);
      assert (a + b)[..|a + b| - 1] == a + b[..|b| - 1];
    }
  }

  /** The handler alone empties the queue of an open session. */
  lemma {:induction false} HandlerEmptiesQueue(s: Session) returns (labels: seq<Label>)
    requires !s.stage.Closed?
    ensures Publish !in labels && Disconnect !in labels
    ensures var s' := RunSession(s, labels); s'.stage == Live([]) && s'.queue == [] && s'.stored == s.stored
    decreases Rank(s.stage), |s.queue|, |InHand(s.stage)|
  {
    if s.stage == Live([]) && s.queue == [] { return []; }
    var l := NextMove(s);
    labels := HandlerEmptiesQueue(Step(s, l));
    RunFirst(s, l, labels);
    labels := [l] + labels;
  }

  /** Whatever has happened so far, a client that stays connected is sent every stored event
      without another being published, if it was within its limit at the subscription. */
  lemma OpenSessionCatchesUp(after: nat, limit: nat, stored: nat, before: seq<Label>) returns (labels: seq<Label>)
    requires !RunSession(Connect(after, limit, stored), before).stage.Closed?
    ensures Publish !in labels && Disconnect !in labels
    ensures var s := RunSession(Connect(after, limit, stored), before + labels);
            && s.stored == RunSession(Connect(after, limit, stored), before).stored
            && (s.atSubscribe <= after + limit ==> s.sent == Range(after + 1, s.stored))
  {
    hide RunSession, Connect;
    labels := HandlerEmptiesQueue(RunSession(Connect(after, limit, stored), before));
    RunOn(Connect(after, limit, stored), before, labels);
    IdleMeansComplete(after, limit, stored, before + labels);
  }

  // ---------- reconnecting ----------

  /** One connection of a client: what it asked for, how many events were stored when it
      connected, what happened, and how many of the sent messages it received. */
  datatype Visit = Visit(limit: nat, stored: nat, labels: seq<Label>, received: nat)

  function VisitEnd(after: nat, v: Visit): Session {
    RunSession(Connect(after, v.limit, v.stored), v.labels)
  }

  function Received(after: nat, v: Visit): seq<nat> {
    var sent := VisitEnd(after, v).sent;
    sent[..Min(v.received, |sent|)]
  }

  function LastSeen(after: nat, seen: seq<nat>): nat {
    if seen == [] then after else seen[|seen| - 1]
  }

  /** Everything a client receives that reconnects each time after its last seen event. */
  function ClientView(after: nat, visits: seq<Visit>): seq<nat> {
    if visits == [] then []
    else
      var before := ClientView(after, visits[..|visits| - 1]);
      before + Received(LastSeen(after, before), visits[|visits| - 1])
  }

  /** Each connection found at most `limit` events waiting when it subscribed. */
  predicate WithinLimits(after: nat, visits: seq<Visit>) {
    visits == [] ||
    (var before, v := ClientView(after, visits[..|visits| - 1]), visits[|visits| - 1];
     var from := LastSeen(after, before);
     WithinLimits(after, visits[..|visits| - 1]) && VisitEnd(from, v).atSubscribe <= from + v.limit)
  }

  predicate Above(bound: nat, s: seq<nat>) {
    forall i :: 0 <= i < |s| ==> bound < s[i]
  }

  lemma IncreasingConcat(after: nat, a: seq<nat>, b: seq<nat>)
    requires StrictlyIncreasing(a) && Above(after, a)
    requires StrictlyIncreasing(b) && Above(LastSeen(after, a), b)
    ensures StrictlyIncreasing(a + b) && Above(after, a + b)
  {
  }

  lemma {:induction false} ViewIncreases(after: nat, visits: seq<Visit>)
    ensures StrictlyIncreasing(ClientView(after, visits))
    ensures Above(after, ClientView(after, visits))
  {
    if visits != [] {
      hide VisitEnd, Received, StrictlyIncreasing, Above;
      var before, v := ClientView(after, visits[..|visits| - 1]), visits[|visits| - 1];
      ViewIncreases(after, visits[..|visits| - 1]);
      ReceivedIncreases(LastSeen(after, before), v);
      IncreasingConcat(after, before, Received(LastSeen(after, before), v));
    }
  }

  lemma ReceivedIncreases(from: nat, v: Visit)
    ensures StrictlyIncreasing(Received(from, v))
    ensures Above(from, Received(from, v))
  {
    hide RunSession, Connect, StageInv;
    SentInOrder(from, v.limit, v.stored, v.labels);
    EveryStateKeeps(from, v.limit, v.stored, v.labels);
  }

  /** Across any number of reconnects the client sees every event once, in order and
      without holes, when every connection was within its limit. */
  lemma {:induction false} ReconnectsLeaveNoGap(after: nat, visits: seq<Visit>)
    requires WithinLimits(after, visits)
    ensures ClientView(after, visits) == Range(after + 1, LastSeen(after, ClientView(after, visits)))
  {
    if visits != [] {
      hide VisitEnd, Received, StrictlyIncreasing;
      var before, v := ClientView(after, visits[..|visits| - 1]), visits[|visits| - 1];
      ReconnectsLeaveNoGap(after, visits[..|visits| - 1]);
      ViewIncreases(after, visits[..|visits| - 1]);
      var from := LastSeen(after, before);
      ReceivedIsRange(from, v);
      var got := Received(from, v);
      RangeSplit(after + 1, from, from + |got|);
    }
  }

  lemma ReceivedIsRange(from: nat, v: Visit)
    requires VisitEnd(from, v).atSubscribe <= from + v.limit
    ensures Received(from, v) == Range(from + 1, from + |Received(from, v)|)
  {
    hide RunSession, Connect, Expected, Inv;
    NoGapIff(from, v.limit, v.stored, v.labels);
    var s := VisitEnd(from, v);
    assert s.sent == Range(from + 1, s.last);
  }
}
