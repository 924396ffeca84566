/** Bounded message queues that remember all that was put in and how each message left. */
module Channels {
  const QUEUE_SIZE := 256

  datatype MessageType =
    | Loaded | GeoUpdate | RouteChanged
    | Log | Request
    | Dns | RequestTraffic
    | Other(name: string)

  datatype Message = Message(kind: MessageType, data: string)

  datatype Departure = Received(message: Message) | Evicted(message: Message)

  // A channel's buffer, and its history: the messages it accepted and those that left, in order.
  datatype Channel = Channel(items: seq<Message>, closed: bool, accepted: seq<Message>, left: seq<Departure>) {
    // Nothing is lost, invented, doubled or reordered.
    ghost predicate Sound() {
      accepted == MessagesOf(left) + items && |items| <= QUEUE_SIZE
    }

    predicate Full() { |items| >= QUEUE_SIZE }

    function Offered(m: Message): Channel {
      if closed || Full() then this else this.(items := items + [m], accepted := accepted + [m])
    }

    function WithoutOldest(received: bool): Channel {
      if items == [] then this else
      this.(items := items[1..], left := left + [if received then Received(items[0]) else Evicted(items[0])])
    }
  }

  const EMPTY := Channel([], false, [], [])

  ghost function MessagesOf(left: seq<Departure>): seq<Message> {
    seq(|left|, i requires 0 <= i < |left| => left[i].message)
  }

  // The messages that were received, in order, as opposed to evicted.
  ghost function ReceivedOf(left: seq<Departure>): seq<Message> {
    if left == [] then [] else
    ReceivedOf(left[..|left| - 1]) + if left[|left| - 1].Received? then [left[|left| - 1].message] else []
  }

  lemma OneMoreLeft(left: seq<Departure>, d: Departure)
    ensures ReceivedOf(left + [d]) == ReceivedOf(left) + if d.Received? then [d.message] else []
    ensures MessagesOf(left + [d]) == MessagesOf(left) + [d.message]
  {
    assert (left + [d])[..|left|] == left;
  }

  lemma {:induction false} StaysSound(c: Channel, m: Message)
    requires c.Sound()
    ensures c.Offered(m).Sound()
    ensures c.WithoutOldest(true).Sound() && c.WithoutOldest(false).Sound()
  {
    if c.items != [] {
      OneMoreLeft(c.left, Received(c.items[0]));
      OneMoreLeft(c.left, Evicted(c.items[0]));
      assert c.items == [c.items[0]] + c.items[1..];
    }
  }

  // A queue nothing is evicted from hands over all it accepted, in order.
  lemma {:induction false} NothingEvicted(c: Channel)
    requires c.Sound() && forall i :: 0 <= i < |c.left| ==> c.left[i].Received?
    ensures c.accepted == ReceivedOf(c.left) + c.items
  {
    AllReceived(c.left);
  }

  lemma {:induction false} AllReceived(left: seq<Departure>)
    requires forall i :: 0 <= i < |left| ==> left[i].Received?
    ensures ReceivedOf(left) == MessagesOf(left)
  {
    if left != [] {
      AllReceived(left[..|left| - 1]);
    }
  }

  // ---- who may evict --------------------------------------------------------------------------

  datatype MessageClass = StateClass | PriorityClass | BulkClass | YieldingBulkClass

  function ClassOf(kind: MessageType): MessageClass {
    match kind
    case Loaded => StateClass
    case GeoUpdate => StateClass
    case RouteChanged => StateClass
    case Log => BulkClass
    case Request => BulkClass
    case Dns => YieldingBulkClass
    case RequestTraffic => YieldingBulkClass
    case Other(_) => PriorityClass
  }

  // The class of a message names its queue; state messages and the yielding ones evict nothing.
  const STATE := 0
  const PRIORITY := 1
  const BULK := 2

  function QueueOf(c: MessageClass): (q: nat)
    ensures q < 3
  {
    match c
    case StateClass => STATE
    case PriorityClass => PRIORITY
    case BulkClass => BULK
    case YieldingBulkClass => BULK
  }

  predicate MayEvict(c: MessageClass) { c.PriorityClass? || c.BulkClass? }

  // Loaded, geo and route messages go to the state queue; logs, requests, DNS and request traffic to the
  // bulk queue; all others to the priority queue. Those of the state queue, DNS and request traffic
  // never push others out.
  lemma KindsOfMessages(kind: MessageType)
    ensures QueueOf(ClassOf(kind)) ==
            if kind.Loaded? || kind.GeoUpdate? || kind.RouteChanged? then 0
            else if kind.Log? || kind.Request? || kind.Dns? || kind.RequestTraffic? then 2 else 1
    ensures MayEvict(ClassOf(kind)) <==> kind.Log? || kind.Request? || kind.Other?
  {
  }

  // One atomic step of a producer: it offers a message, makes room for one, or closes a queue.
  datatype Act = Offer(m: Message) | MakeRoom(m: Message) | Close(q: nat)

  type Queues = q: seq<Channel> | |q| == 3 witness [EMPTY, EMPTY, EMPTY]

  function Acted(queues: Queues, act: Act): Queues {
    match act
    case Offer(m) =>
      var q := QueueOf(ClassOf(m.kind));
      queues[q := queues[q].Offered(m)]
    case MakeRoom(m) =>
      var q := QueueOf(ClassOf(m.kind));
      if MayEvict(ClassOf(m.kind)) then queues[q := queues[q].WithoutOldest(false)] else queues
    case Close(q) =>
      if q < 3 then queues[q := queues[q].(closed := true)] else queues
  }

  // A message is put behind the others of a queue, and nothing else happens.
  ghost predicate Joins(was: Queues, now: Queues, q: nat, m: Message)
    requires q < 3
  {
    now == was[q := Channel(was[q].items + [m], was[q].closed, was[q].accepted + [m], was[q].left)]
  }

  // An offer that finds its queue open and below 256 messages joins it; any other changes nothing.
  lemma OfferJoinsIfThereIsRoom(queues: Queues, m: Message)
    ensures var q := QueueOf(ClassOf(m.kind));
            if !queues[q].closed && |queues[q].items| < 256 then Joins(queues, Acted(queues, Offer(m)), q, m)
            else Acted(queues, Offer(m)) == queues
  {
  }

  // Making room takes the oldest message off the queue, if the class may and the queue has one; closing
  // a queue leaves its messages.
  lemma MakingRoomAndClosing(queues: Queues, m: Message, q: nat)
    requires q < 3
    ensures var own := QueueOf(ClassOf(m.kind));
            var c := queues[own];
            Acted(queues, MakeRoom(m)) ==
            if MayEvict(ClassOf(m.kind)) && c.items != []
            then queues[own := Channel(c.items[1..], c.closed, c.accepted, c.left + [Evicted(c.items[0])])]
            else queues
    ensures Acted(queues, Close(q)) ==
            queues[q := Channel(queues[q].items, true, queues[q].accepted, queues[q].left)]
  {
  }

  // Every queue sound, and none of the state queue's messages evicted.
  ghost predicate AllSound(queues: Queues) {
    && queues[STATE].Sound() && queues[PRIORITY].Sound() && queues[BULK].Sound()
    && forall i :: 0 <= i < |queues[STATE].left| ==> queues[STATE].left[i].Received?
  }

  // What no act of a producer undoes in a queue: it stays sound, nothing counts as received, and once
  // closed it takes in nothing.
  ghost predicate OnlyProduced(was: Channel, now: Channel) {
    && (was.Sound() ==> now.Sound())
    && ReceivedOf(now.left) == ReceivedOf(was.left)
    && (was.closed ==> now.closed && |now.items| <= |was.items|)
  }

  lemma {:induction false} ProducerKeepsChannel(c: Channel, m: Message)
    ensures OnlyProduced(c, c) && OnlyProduced(c, c.Offered(m)) && OnlyProduced(c, c.(closed := true))
    ensures OnlyProduced(c, c.WithoutOldest(false))
  {
    if c.Sound() {
      StaysSound(c, m);
    }
    if c.items != [] {
      OneMoreLeft(c.left, Evicted(c.items[0]));
    }
  }

  lemma {:induction false} OneQueueActs(queues: Queues, q: nat, now: Channel)
    requires AllSound(queues) && q < 3 && OnlyProduced(queues[q], now)
    requires q == STATE ==> now.left == queues[q].left
    ensures AllSound(queues[q := now])
    ensures forall p :: 0 <= p < 3 ==> OnlyProduced(queues[p], queues[q := now][p])
  {
    hide MessagesOf, ReceivedOf;
  }

  lemma EvictorsSpareState(m: Message)
    ensures QueueOf(ClassOf(m.kind)) == STATE ==> !MayEvict(ClassOf(m.kind))
  {
  }

  lemma {:induction false} ActKeepsSound(queues: Queues, act: Act)
    requires AllSound(queues)
    ensures AllSound(Acted(queues, act))
    ensures forall q :: 0 <= q < 3 ==> OnlyProduced(queues[q], Acted(queues, act)[q])
  {
    var m := if act.Close? then Message(Log, "") else act.m;
    EvictorsSpareState(m);
    hide QueueOf, ClassOf, MayEvict, MessagesOf, ReceivedOf, Channel.Full;
    var q := if act.Close? then act.q else QueueOf(ClassOf(m.kind));
    if q < 3 {
      ProducerKeepsChannel(queues[q], m);
      OneQueueActs(queues, q, queues[q]);
      assert queues[q := queues[q]] == queues;
      hide OnlyProduced, AllSound;
      OneQueueActs(queues, q, Acted(queues, act)[q]);
    } else {
      ProducerKeepsChannel(queues[STATE], m);
      OneQueueActs(queues, STATE, queues[STATE]);
      assert queues[STATE := queues[STATE]] == queues;
    }
  }

  // ---- a queue's whole history ----------------------------------------------------------------

  // What happens to the queues: an act of a producer, or the batcher takes a message.
  datatype Op = Produce(act: Act) | Consume(q: nat)

  function Happened(queues: Queues, op: Op): Queues {
    match op
    case Produce(act) => Acted(queues, act)
    case Consume(q) => if q < 3 then queues[q := queues[q].WithoutOldest(true)] else queues
  }

  // The batcher takes the oldest message of a queue that has one, and nothing else happens.
  lemma TheOldestIsConsumed(queues: Queues, q: nat)
    requires q < 3
    ensures var c := queues[q];
            Happened(queues, Consume(q)) ==
            if c.items == [] then queues
            else queues[q := Channel(c.items[1..], c.closed, c.accepted, c.left + [Received(c.items[0])])]
  {
  }

  // One entry of a history: what happened, and whether the call at hand did it.
  datatype Entry = Entry(op: Op, mine: bool)

  ghost function After(start: Queues, log: seq<Entry>): Queues {
    if log == [] then start else Happened(After(start, log[..|log| - 1]), log[|log| - 1].op)
  }

  ghost function OpsOf(log: seq<Entry>, mine: bool): seq<Op> {
    if log == [] then [] else
    OpsOf(log[..|log| - 1], mine) + if log[|log| - 1].mine == mine then [log[|log| - 1].op] else []
  }

  lemma OneMoreEntry(start: Queues, log: seq<Entry>, entry: Entry)
    ensures After(start, log + [entry]) == Happened(After(start, log), entry.op)
    ensures forall mine :: OpsOf(log + [entry], mine) ==
                           OpsOf(log, mine) + if entry.mine == mine then [entry.op] else []
  {
    assert (log + [entry])[..|log|] == log;
  }

  // Nothing that was accepted or has left is ever taken back.
  ghost predicate Grown(was: Channel, now: Channel) {
    was.accepted <= now.accepted && was.left <= now.left
  }

  lemma HappenedGrows(queues: Queues, op: Op)
    ensures forall q :: 0 <= q < 3 ==> Grown(queues[q], Happened(queues, op)[q])
  {
    hide QueueOf, ClassOf;
  }

  lemma {:induction false} HistoryGrows(start: Queues, log: seq<Entry>, i: nat)
    requires i <= |log|
    ensures forall q :: 0 <= q < 3 ==> Grown(After(start, log[..i])[q], After(start, log)[q])
    decreases |log|
  {
    if i == |log| {
      assert log[..i] == log;
    } else {
      var most := log[..|log| - 1];
      HistoryGrows(start, most, i);
      assert most[..i] == log[..i];
      HappenedGrows(After(start, most), log[|log| - 1].op);
      hide Happened;
    }
  }

  lemma {:induction false} HappenedKeepsSound(queues: Queues, op: Op)
    requires AllSound(queues)
    ensures AllSound(Happened(queues, op))
  {
    match op
    case Produce(act) => ActKeepsSound(queues, act);
    case Consume(q) =>
      if q < 3 {
        StaysSound(queues[q], Message(Log, ""));
        hide MessagesOf;
      }
  }

  // ---- enqueueing -----------------------------------------------------------------------------

  const EVICT_ATTEMPTS := 4

  predicate HasRoom(queues: Queues, m: Message) {
    var queue := queues[QueueOf(ClassOf(m.kind))];
    !queue.closed && !queue.Full()
  }

  lemma RoomIsBelowCapacity(queues: Queues, m: Message)
    ensures var queue := queues[QueueOf(ClassOf(m.kind))];
            HasRoom(queues, m) <==> !queue.closed && |queue.items| < 256
  {
  }

  lemma RoomIsMade(queues: Queues, m: Message)
    requires AllSound(queues) && MayEvict(ClassOf(m.kind)) && !queues[QueueOf(ClassOf(m.kind))].closed
    ensures HasRoom(Happened(queues, Produce(MakeRoom(m))), m)
  {
  }

  lemma NothingTakenIn(queues: Queues, m: Message)
    requires !HasRoom(queues, m)
    ensures Happened(queues, Produce(Offer(m))) == queues
  {
  }

  ghost function Flattened<T>(runs: seq<seq<T>>): seq<T> {
    if runs == [] then [] else runs[0] + Flattened(runs[1..])
  }

  lemma FlattenedStep<T>(runs: seq<seq<T>>, before: seq<T>)
    ensures runs != [] ==> before + Flattened(runs) == before + runs[0] + Flattened(runs[1..])
  {
    if runs != [] {
      assert before + (runs[0] + Flattened(runs[1..])) == before + runs[0] + Flattened(runs[1..]);
    }
  }

  // The call's own steps: that many offers, each but the last followed by making room.
  ghost function Tried(m: Message, offers: nat): seq<Op> {
    if offers == 0 then []
    else if offers == 1 then [Produce(Offer(m))]
    else Tried(m, offers - 1) + [Produce(MakeRoom(m)), Produce(Offer(m))]
  }

  // No offer the call made since some moment found room.
  ghost predicate Refused(start: Queues, log: seq<Entry>, since: nat, m: Message) {
    forall i :: since <= i < |log| && log[i] == Entry(Produce(Offer(m)), true) ==>
      !HasRoom(After(start, log[..i]), m)
  }

  // Its last step is the one offer that did.
  ghost predicate TakenAtLast(start: Queues, log: seq<Entry>, since: nat, m: Message) {
    && since < |log| && log[|log| - 1] == Entry(Produce(Offer(m)), true)
    && HasRoom(After(start, log[..|log| - 1]), m) && Refused(start, log[..|log| - 1], since, m)
    && Joins(After(start, log[..|log| - 1]), After(start, log), QueueOf(ClassOf(m.kind)), m)
  }

  lemma {:induction false} RefusedLonger(start: Queues, log: seq<Entry>, longer: seq<Entry>, since: nat, m: Message)
    requires Refused(start, log, since, m) && log <= longer
    requires forall i :: |log| <= i < |longer| && longer[i] == Entry(Produce(Offer(m)), true) ==>
               !HasRoom(After(start, longer[..i]), m)
    ensures Refused(start, longer, since, m)
  {
    forall i | 0 <= i < |log|
      ensures longer[..i] == log[..i]
    {
    }
  }

  lemma NoneSoFar(start: Queues, log: seq<Entry>, m: Message)
    ensures Refused(start, log, |log|, m)
  {
  }

  // A producer's call, its atomic steps interleaved with whatever others do: producers and the batcher.
  class Hub {
    var queues: Queues
    var others: seq<seq<Op>>
    ghost const start: Queues
    ghost const script: seq<Op>
    ghost var log: seq<Entry>

    // The queues are what the logged steps made of them, and the others' are their script's, in order.
    ghost predicate Valid()
      reads this
    {
      && AllSound(queues) && queues == After(start, log)
      && OpsOf(log, false) + Flattened(others) == script
    }

    constructor (queues: Queues, others: seq<seq<Op>>)
      requires AllSound(queues)
      ensures Valid() && this.queues == queues == start && this.others == others && log == []
    {
      this.queues, this.others := queues, others;
      start, script, log := queues, Flattened(others), [];
    }

    method Interleave()
      requires Valid()
      modifies this
      ensures Valid() && old(log) <= log && OpsOf(log, true) == OpsOf(old(log), true)
      ensures forall i :: |old(log)| <= i < |log| ==> !log[i].mine
      ensures if old(others) == [] then log == old(log) && others == [] else others == old(others)[1..]
    {
      hide AllSound, Happened, After, OpsOf, Flattened;
      if others == [] {
        return;
      }
      var ops := others[0];
      ghost var before := OpsOf(log, false);
      FlattenedStep(others, before);
      others := others[1..];
      assert before + ops[..0] == before;
      for i := 0 to |ops|
        invariant AllSound(queues) && queues == After(start, log)
        invariant OpsOf(log, false) == before + ops[..i] && OpsOf(log, true) == OpsOf(old(log), true)
        invariant old(log) <= log && forall j :: |old(log)| <= j < |log| ==> !log[j].mine
        invariant others == old(others)[1..]
      {
        HappenedKeepsSound(queues, ops[i]);
        OneMoreEntry(start, log, Entry(ops[i], false));
        assert before + ops[..i] + [ops[i]] == before + ops[..i + 1];
        queues := Happened(queues, ops[i]);
        log := log + [Entry(ops[i], false)];
      }
      assert ops[..|ops|] == ops;
    }

    // One step of the call itself.
    method Step(op: Op)
      requires Valid()
      modifies `queues, `log
      ensures Valid() && log == old(log) + [Entry(op, true)] && queues == Happened(old(queues), op)
      ensures OpsOf(log, true) == OpsOf(old(log), true) + [op]
    {
      hide AllSound, Happened, After;
      HappenedKeepsSound(queues, op);
      OneMoreEntry(start, log, Entry(op, true));
      queues := Happened(queues, op);
      log := log + [Entry(op, true)];
    }

    method EnqueueState(m: Message) returns (queued: bool)
      requires Valid()
      modifies `queues, `log
      ensures Valid() && log == old(log) + [Entry(Produce(Offer(m)), true)]
      ensures queues == Happened(old(queues), Produce(Offer(m)))
      ensures OpsOf(log, true) == OpsOf(old(log), true) + [Produce(Offer(m))]
      ensures queued <==> HasRoom(old(queues), m)
      ensures var q := QueueOf(ClassOf(m.kind));
              && (queued <==> !old(queues)[q].closed && |old(queues)[q].items| < 256)
              && if queued then Joins(old(queues), queues, q, m) else queues == old(queues)
    {
      OfferJoinsIfThereIsRoom(queues, m);
      queued := HasRoom(queues, m);
      Step(Produce(Offer(m)));
    }

    // One attempt: an offer and, if there was no room, the oldest message dropped to make some.
    method Attempt(m: Message, ghost since: nat) returns (queued: bool)
      requires Valid() && MayEvict(ClassOf(m.kind)) && since <= |log| && Refused(start, log, since, m)
      modifies this
      ensures Valid() && old(log) <= log
      ensures OpsOf(log, true) ==
              OpsOf(old(log), true) + [Produce(Offer(m))] + if queued then [] else [Produce(MakeRoom(m))]
      ensures if queued then TakenAtLast(start, log, since, m) else Refused(start, log, since, m)
      ensures old(others) == [] ==>
                && others == [] && queued == HasRoom(old(queues), m)
                && (!old(queues)[QueueOf(ClassOf(m.kind))].closed ==> queued || HasRoom(queues, m))
    {
      hide AllSound, QueueOf, ClassOf, After, OpsOf, Happened;
      Interleave();
      RefusedLonger(start, old(log), log, since, m);
      ghost var before, held := log, queues;
      queued := EnqueueState(m);
      assert log[..|before|] == before;
      if queued {
        return;
      }
      NothingTakenIn(held, m);
      Interleave();
      assert log[..|before|] == before;
      RefusedLonger(start, before, log, since, m);
      ghost var offered := log;
      if !queues[QueueOf(ClassOf(m.kind))].closed {
        RoomIsMade(queues, m);
      }
      Step(Produce(MakeRoom(m)));
      RefusedLonger(start, offered, log, since, m);
    }

    // Attempts it up to four times. With no one else at the queue, the message is always queued and
    // at most the oldest is dropped.
    method EnqueueLatest(m: Message) returns (queued: bool, offers: nat)
      requires Valid() && MayEvict(ClassOf(m.kind))
      modifies this
      ensures Valid() && old(log) <= log
      ensures 0 < offers <= 4 && (!queued ==> offers == 4)
      ensures OpsOf(log, true) ==
              OpsOf(old(log), true) + Tried(m, offers) + if queued then [] else [Produce(MakeRoom(m))]
      ensures if queued then TakenAtLast(start, log, |old(log)|, m) else Refused(start, log, |old(log)|, m)
      ensures old(others) == [] && !old(queues)[QueueOf(ClassOf(m.kind))].closed ==>
                queued && offers == if HasRoom(old(queues), m) then 1 else 2
    {
      hide Valid, HasRoom, Refused, TakenAtLast, QueueOf, ClassOf, After, OpsOf;
      assert Refused(start, log, |log|, m) by {
        NoneSoFar(start, log, m);
      }
      offers := 0;
      ghost var own := OpsOf(log, true);
      ghost var alone := others == [] && !queues[QueueOf(ClassOf(m.kind))].closed;
      while offers < EVICT_ATTEMPTS
        invariant Valid() && old(log) <= log && Refused(start, log, |old(log)|, m) && offers <= EVICT_ATTEMPTS
        invariant OpsOf(log, true) == own + Tried(m, offers) + if offers == 0 then [] else [Produce(MakeRoom(m))]
        invariant alone && offers == 0 ==> others == [] && queues == old(queues)
        invariant alone && offers > 0 ==> others == [] && offers == 1 && !HasRoom(old(queues), m) && HasRoom(queues, m)
      {
        queued := Attempt(m, |old(log)|);
        offers := offers + 1;
        if queued {
          return;
        }
      }
      return false, offers;
    }

    // Where a message goes, and whether it may push out others there.
    method SendMessage(m: Message) returns (queued: bool, offers: nat)
      requires Valid()
      modifies this
      ensures Valid() && old(log) <= log
      ensures !MayEvict(ClassOf(m.kind)) ==>
                && log == old(log) + [Entry(Produce(Offer(m)), true)] && (queued <==> HasRoom(old(queues), m))
                && if queued then Joins(old(queues), queues, QueueOf(ClassOf(m.kind)), m) else queues == old(queues)
      ensures MayEvict(ClassOf(m.kind)) ==>
                && 0 < offers <= 4 && (!queued ==> offers == 4)
                && OpsOf(log, true) ==
                   OpsOf(old(log), true) + Tried(m, offers) + (if queued then [] else [Produce(MakeRoom(m))])
                && if queued then TakenAtLast(start, log, |old(log)|, m) else Refused(start, log, |old(log)|, m)
      ensures MayEvict(ClassOf(m.kind)) && old(others) == [] && !old(queues)[QueueOf(ClassOf(m.kind))].closed ==>
                queued && offers == if HasRoom(old(queues), m) then 1 else 2
    {
      offers := 1;
      match ClassOf(m.kind)
      case StateClass => queued := EnqueueState(m);
      case BulkClass => queued, offers := EnqueueLatest(m);
      case YieldingBulkClass => queued := EnqueueState(m);
      case PriorityClass => queued, offers := EnqueueLatest(m);
    }
  }
}
