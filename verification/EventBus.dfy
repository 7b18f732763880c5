/** The in-process event bus and the socket handler's sending loops, as objects that change
    in place.  A message is known by its sequence number. */
module EventBus {
  import opened Arithmetic
  import opened EventStream

  class Queue {
    var items: seq<nat>

    constructor ()
      ensures items == []
    {
      items := [];
    }
  }

  predicate NoDuplicates(queues: seq<Queue>) {
    forall i, j :: 0 <= i < j < |queues| ==> queues[i] != queues[j]
  }

  function IndexOf(queues: seq<Queue>, q: Queue): (i: nat)
    requires q in queues
    ensures i < |queues| && queues[i] == q
  {
    if queues[0] == q then 0 else 1 + IndexOf(queues[1..], q)
  }

  function Without(queues: seq<Queue>, q: Queue): seq<Queue> {
    if q in queues then queues[..IndexOf(queues, q)] + queues[IndexOf(queues, q) + 1..] else queues
  }

  class RunEventBus {
    var subscribers: map<string, seq<Queue>>

    function QueuesOf(run: string): seq<Queue>
      reads this
    {
      if run in subscribers then subscribers[run] else []
    }

    /** A run is listed only while it has subscribers, and no queue is listed twice. */
    ghost predicate Valid()
      reads this
    {
      forall run :: run in subscribers ==> subscribers[run] != [] && NoDuplicates(subscribers[run])
    }

    constructor ()
      ensures Valid() && subscribers == map[]
    {
      subscribers := map[];
    }

    method Subscribe(run: string) returns (q: Queue)
      requires Valid()
      modifies this
      ensures Valid() && fresh(q) && q.items == []
      ensures subscribers == old(subscribers)[run := old(QueuesOf(run)) + [q]]
    {
      q := new Queue();
      subscribers := subscribers[run := QueuesOf(run) + [q]];
    }

    method Unsubscribe(run: string, q: Queue)
      requires Valid()
      modifies this
      ensures Valid() && q !in QueuesOf(run)
      ensures q !in old(QueuesOf(run)) ==> QueuesOf(run) == old(QueuesOf(run))
      ensures forall i :: 0 <= i < |old(QueuesOf(run))| && old(QueuesOf(run))[i] == q ==>
                QueuesOf(run) == old(QueuesOf(run))[..i] + old(QueuesOf(run))[i + 1..]
      ensures forall other :: other != run ==> QueuesOf(other) == old(QueuesOf(other))
    {
      if run !in subscribers { return; }
      var queues := subscribers[run];
      if q !in queues { return; }
      var remaining := Without(queues, q);
      if remaining == [] {
        subscribers := subscribers - {run};
      } else {
        subscribers := subscribers[run := remaining];
      }
    }

    /** Every subscriber of the run gets the message at the end of its queue; nothing else
        changes. */
    method Publish(run: string, message: nat)
      requires Valid()
      modifies QueuesOf(run)
      ensures Valid()
      ensures forall q :: q in QueuesOf(run) ==> q.items == old(q.items) + [message]
    {
      var queues := QueuesOf(run);
      for i := 0 to |queues|
        invariant Valid() && queues == QueuesOf(run)
        invariant forall j :: 0 <= j < i ==> queues[j].items == old(queues[j].items) + [message]
        invariant forall j :: i <= j < |queues| ==> queues[j].items == old(queues[j].items)
      {
        queues[i].items := queues[i].items + [message];
      }
    }

    /** The oldest messages of the queue, at most `maxItems`, without waiting. */
    method Drain(queue: Queue, maxItems: nat) returns (items: seq<nat>)
      modifies queue
      ensures items == old(queue.items)[..Min(maxItems, |old(queue.items)|)]
      ensures queue.items == old(queue.items)[Min(maxItems, |old(queue.items)|)..]
    {
      items := [];
      for i := 0 to maxItems
        invariant i <= |old(queue.items)|
        invariant items == old(queue.items)[..i] && queue.items == old(queue.items)[i..]
      {
        if queue.items == [] { break; }
        items := items + [queue.items[0]];
        queue.items := queue.items[1..];
      }
    }
  }

  // ---------- the handler ----------

  /** The messages of a batch that are still sent, given the last one sent before. */
  function Fresh(batch: seq<nat>, last: nat): seq<nat> {
    if batch == [] then []
    else
      var before, x := Fresh(batch[..|batch| - 1], last), batch[|batch| - 1];
      if x <= LastSeen(last, before) then before else before + [x]
  }

  class EventSocket {
    var lastSeq: nat
    var sent: seq<nat>

    constructor (afterSeq: nat)
      ensures lastSeq == afterSeq && sent == []
    {
      lastSeq, sent := afterSeq, [];
    }

    method SendReplay(replay: seq<nat>)
      modifies this
      ensures sent == old(sent) + replay && lastSeq == LastSeen(old(lastSeq), replay)
    {
      for i := 0 to |replay|
        invariant sent == old(sent) + replay[..i] && lastSeq == LastSeen(old(lastSeq), replay[..i])
      {
        sent := sent + [replay[i]];
        lastSeq := replay[i];
      }
      assert replay[..|replay|] == replay;
    }

    /** One turn of the live loop: drain, and send what has not been sent before. */
    method SendLive(bus: RunEventBus, queue: Queue)
      modifies this, queue
      ensures
        var n := Min(DRAIN_CAP, |old(queue.items)|);
        var due := Fresh(old(queue.items)[..n], old(lastSeq));
        && queue.items == old(queue.items)[n..]
        && sent == old(sent) + due && lastSeq == LastSeen(old(lastSeq), due)
    {
      var messages := bus.Drain(queue, DRAIN_CAP);
      for i := 0 to |messages|
        invariant queue.items == old(queue.items)[Min(DRAIN_CAP, |old(queue.items)|)..]
        invariant sent == old(sent) + Fresh(messages[..i], old(lastSeq))
        invariant lastSeq == LastSeen(old(lastSeq), Fresh(messages[..i], old(lastSeq)))
      {
        assert messages[..i + 1][..i] == messages[..i];
        if messages[i] <= lastSeq { continue; }
        sent := sent + [messages[i]];
        lastSeq := messages[i];
      }
      assert messages[..|messages|] == messages;
    }
  }

  /** The state of the stream after the first `n` messages of a batch. */
  function AfterSending(s: Session, batch: seq<nat>, n: nat): Session
    requires n <= |batch|
  {
    var due := Fresh(batch[..n], s.last);
    s.(stage := Live(batch[n..]), sent := s.sent + due, last := LastSeen(s.last, due))
  }

  /** The handler's loop over a batch is that many SendLive steps of the stream. */
  lemma {:induction false} BatchIsSentStepwise(s: Session, batch: seq<nat>, n: nat)
    requires s.stage == Live(batch) && n <= |batch|
    ensures RunSession(s, seq(n, _ => EventStream.Label.SendLive)) == AfterSending(s, batch, n)
  {
    if n == 0 {
      assert batch[0..] == batch;
    } else {
      var l := EventStream.Label.SendLive;
      BatchIsSentStepwise(s, batch, n - 1);
      assert seq(n, _ => l)[..n - 1] == seq(n - 1, _ => l);
      OneMoreSent(s, batch, n);
      hide AfterSending, EventStream.Step;
    }
  }

  lemma OneMoreSent(s: Session, batch: seq<nat>, n: nat)
    requires s.stage == Live(batch) && 0 < n <= |batch|
    ensures Step(AfterSending(s, batch, n - 1), EventStream.Label.SendLive) == AfterSending(s, batch, n)
  {
    assert batch[..n][..n - 1] == batch[..n - 1];
    assert batch[n - 1..][1..] == batch[n..];
  }
}
