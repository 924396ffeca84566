/** The loop that drains three queues into batches while producers go on filling them. */
module Batcher {
  import opened Channels

  type Flags = s: seq<bool> | |s| == 3 witness [true, true, true]

  const BATCH_SIZE := 32
  const PRIORITY_BURST := 8

  // One message taken off a queue by the batcher.
  datatype Taken = Taken(q: nat, message: Message)

  ghost function FromQueue(taken: seq<Taken>, q: nat): seq<Message> {
    if taken == [] then [] else
    var last := taken[|taken| - 1];
    FromQueue(taken[..|taken| - 1], q) + if last.q == q then [last.message] else []
  }

  ghost function AllOf(taken: seq<Taken>): seq<Message> {
    seq(|taken|, i requires 0 <= i < |taken| => taken[i].message)
  }

  ghost function Flat(batches: seq<seq<Message>>): seq<Message> {
    if batches == [] then [] else Flat(batches[..|batches| - 1]) + batches[|batches| - 1]
  }

  lemma OneMoreTaken(taken: seq<Taken>, t: Taken)
    ensures forall q: nat :: FromQueue(taken + [t], q) == FromQueue(taken, q) + if t.q == q then [t.message] else []
    ensures AllOf(taken + [t]) == AllOf(taken) + [t.message]
  {
    assert (taken + [t])[..|taken|] == taken;
  }

  lemma OneMoreBatch(batches: seq<seq<Message>>, batch: seq<Message>)
    ensures Flat(batches + [batch]) == Flat(batches) + batch
  {
    assert (batches + [batch])[..|batches|] == batches;
  }

  // What was taken off each queue is what that queue saw received, in its order.
  ghost predicate TakenSound(queues: Queues, taken: seq<Taken>) {
    forall q :: 0 <= q < 3 ==> FromQueue(taken, q) == ReceivedOf(queues[q].left)
  }

  // All that was taken is in a batch sent or pending, in order; batches are neither empty nor too
  // long, and the timer is armed exactly while one is pending.
  ghost predicate BatchSound(taken: seq<Taken>, sent: seq<seq<Message>>, batch: seq<Message>, armed: bool, limit: nat) {
    && AllOf(taken) == Flat(sent) + batch
    && |batch| <= limit && (armed <==> batch != [])
    && forall i :: 0 <= i < |sent| ==> 1 <= |sent[i]| <= BATCH_SIZE
  }

  // A queue is given up only once it is closed and drained.
  ghost predicate OpenSound(queues: Queues, open: Flags) {
    forall q :: 0 <= q < 3 && !open[q] ==> queues[q].closed && queues[q].items == []
  }

  ghost function Total(queues: Queues): nat {
    |queues[STATE].items| + |queues[PRIORITY].items| + |queues[BULK].items|
  }

  ghost function OpenCount(open: Flags): nat {
    (if open[STATE] then 1 else 0) + (if open[PRIORITY] then 1 else 0) + (if open[BULK] then 1 else 0)
  }

  // ---- the batcher and its producers, step by step --------------------------------------------

  datatype View = View(queues: Queues, open: Flags, batch: seq<Message>, armed: bool, burst: nat,
                       sent: seq<seq<Message>>, taken: seq<Taken>)

  const FRESH := View([EMPTY, EMPTY, EMPTY], [true, true, true], [], false, 0, [], [])

  datatype Step = Produced(act: Act) | Receive(q: nat) | GiveUp(q: nat) | SendBatch | SkipBulk

  function Flushed(v: View): View {
    if v.batch == [] then v else v.(batch := [], armed := false, sent := v.sent + [v.batch])
  }

  // A message joins the batch, which goes out once it is full.
  function Appended(v: View, message: Message): View {
    var more := v.(batch := v.batch + [message], armed := true);
    if |more.batch| >= BATCH_SIZE then Flushed(more) else more
  }

  function TakenFrom(v: View, q: nat): View
    requires q < 3 && v.queues[q].items != []
  {
    var message := v.queues[q].items[0];
    var next := Appended(v, message);
    next.(queues := v.queues[q := v.queues[q].WithoutOldest(true)], taken := v.taken + [Taken(q, message)])
  }

  // A priority message is taken within its burst, or when bulk messages are over for good; the bulk
  // queue's turn passes only when it has nothing.
  predicate Enabled(v: View, step: Step) {
    match step
    case Produced(_) => true
    case Receive(q) =>
      q < 3 && v.open[q] && v.queues[q].items != [] && (q == PRIORITY && v.open[BULK] ==> v.burst < PRIORITY_BURST)
    case GiveUp(q) => q < 3 && v.open[q] && v.queues[q].items == [] && v.queues[q].closed
    case SendBatch => v.armed
    case SkipBulk =>
      v.open[BULK] && v.queues[BULK].items == [] && !v.queues[BULK].closed && v.burst >= PRIORITY_BURST
  }

  function Next(v: View, step: Step): View
    requires Enabled(v, step)
  {
    match step
    case Produced(act) => v.(queues := Acted(v.queues, act))
    case Receive(q) =>
      TakenFrom(v, q).(burst := if q == BULK then 0 else if q == PRIORITY then v.burst + 1 else v.burst)
    case GiveUp(q) => v.(open := v.open[q := false], burst := if q == BULK then 0 else v.burst)
    case SendBatch => Flushed(v)
    case SkipBulk => v.(burst := 0)
  }

  ghost predicate Runs(log: seq<Step>)
    decreases |log|, 0
  {
    log == [] || (Runs(log[..|log| - 1]) && Enabled(Replay(log[..|log| - 1]), log[|log| - 1]))
  }

  // Where a history leads from the start.
  ghost function Replay(log: seq<Step>): View
    requires Runs(log)
    decreases |log|, 1
  {
    if log == [] then FRESH else Next(Replay(log[..|log| - 1]), log[|log| - 1])
  }

  ghost function ActsOf(log: seq<Step>): seq<Act> {
    if log == [] then [] else
    ActsOf(log[..|log| - 1]) + if log[|log| - 1].Produced? then [log[|log| - 1].act] else []
  }

  lemma OneMoreStep(log: seq<Step>, step: Step)
    requires Runs(log) && Enabled(Replay(log), step)
    ensures Runs(log + [step]) && Replay(log + [step]) == Next(Replay(log), step)
    ensures ActsOf(log + [step]) == ActsOf(log) + if step.Produced? then [step.act] else []
  {
    assert (log + [step])[..|log|] == log;
  }

  // ---- what every history keeps ---------------------------------------------------------------

  ghost predicate Sound(v: View) {
    && AllSound(v.queues) && TakenSound(v.queues, v.taken) && OpenSound(v.queues, v.open)
    && BatchSound(v.taken, v.sent, v.batch, v.armed, BATCH_SIZE - 1)
    && (v.open[BULK] ==> v.burst <= PRIORITY_BURST)
  }

  lemma {:induction false} FlushStep(v: View)
    requires BatchSound(v.taken, v.sent, v.batch, v.armed, BATCH_SIZE)
    ensures var next := Flushed(v); BatchSound(next.taken, next.sent, next.batch, next.armed, 0)
  {
    OneMoreBatch(v.sent, v.batch);
    hide AllOf, Flat;
    assert Flat(v.sent + [v.batch]) + [] == Flat(v.sent) + v.batch;
  }

  lemma {:induction false} AppendStep(v: View, t: Taken)
    requires BatchSound(v.taken, v.sent, v.batch, v.armed, BATCH_SIZE - 1)
    ensures var next := Appended(v, t.message);
            BatchSound(v.taken + [t], next.sent, next.batch, next.armed, BATCH_SIZE - 1)
  {
    var more := v.(batch := v.batch + [t.message], armed := true, taken := v.taken + [t]);
    JoinStep(v, t);
    hide BatchSound;
    FlushStep(more);
    BatchFits(Flushed(more));
    if |more.batch| < BATCH_SIZE {
      BatchIsShort(more);
    }
  }

  lemma {:induction false} JoinStep(v: View, t: Taken)
    requires BatchSound(v.taken, v.sent, v.batch, v.armed, BATCH_SIZE - 1)
    ensures BatchSound(v.taken + [t], v.sent, v.batch + [t.message], true, BATCH_SIZE)
  {
    OneMoreTaken(v.taken, t);
    hide AllOf, Flat;
    assert Flat(v.sent) + v.batch + [t.message] == Flat(v.sent) + (v.batch + [t.message]);
  }

  lemma BatchIsShort(v: View)
    requires BatchSound(v.taken, v.sent, v.batch, v.armed, BATCH_SIZE) && |v.batch| < BATCH_SIZE
    ensures BatchSound(v.taken, v.sent, v.batch, v.armed, BATCH_SIZE - 1)
  {
  }

  lemma {:induction false} TakeStep(queues: Queues, taken: seq<Taken>, q: nat)
    requires q < 3 && queues[q].items != [] && AllSound(queues) && TakenSound(queues, taken)
    ensures var next := queues[q := queues[q].WithoutOldest(true)];
            AllSound(next) && TakenSound(next, taken + [Taken(q, queues[q].items[0])])
  {
    var message := queues[q].items[0];
    StaysSound(queues[q], message);
    OneMoreLeft(queues[q].left, Received(message));
    OneMoreTaken(taken, Taken(q, message));
    hide MessagesOf, ReceivedOf, FromQueue;
  }

  lemma {:induction false} StepKeepsSound(v: View, step: Step)
    requires Sound(v) && Enabled(v, step)
    ensures Sound(Next(v, step))
  {
    hide AllSound, TakenSound, BatchSound, Acted;
    match step
    case Produced(act) => ProducedStep(v, act);
    case Receive(q) =>
      TakeStep(v.queues, v.taken, q);
      AppendStep(v, Taken(q, v.queues[q].items[0]));
    case SendBatch =>
      BatchFits(v);
      FlushStep(v);
      BatchFits(Flushed(v));
    case _ =>
  }

  lemma {:induction false} ProducedStep(v: View, act: Act)
    requires Sound(v)
    ensures Sound(v.(queues := Acted(v.queues, act)))
  {
    ActKeepsSound(v.queues, act);
    hide AllSound, Acted, ReceivedOf, FromQueue, BatchSound, Channel.Sound;
  }

  lemma BatchFits(v: View)
    ensures forall limit: nat :: limit <= BATCH_SIZE && BatchSound(v.taken, v.sent, v.batch, v.armed, limit) ==>
              BatchSound(v.taken, v.sent, v.batch, v.armed, BATCH_SIZE)
    ensures BatchSound(v.taken, v.sent, v.batch, v.armed, 0) ==>
              BatchSound(v.taken, v.sent, v.batch, v.armed, BATCH_SIZE - 1)
  {
  }

  lemma {:induction false} RunIsSound(log: seq<Step>)
    requires Runs(log)
    ensures Sound(Replay(log))
  {
    if log != [] {
      var most := log[..|log| - 1];
      RunIsSound(most);
      StepKeepsSound(Replay(most), log[|log| - 1]);
      hide Sound, Next, Enabled;
    }
  }

  // Conservation: at any moment each queue has accepted, in order, what was taken off it, what was
  // evicted and what is queued; what was taken is in the batches sent and the one pending, in order;
  // and nothing the state queue accepted was evicted.
  lemma {:induction false} EveryRunConserves(log: seq<Step>)
    requires Runs(log)
    ensures var v := Replay(log);
            && AllOf(v.taken) == Flat(v.sent) + v.batch
            && (forall q :: 0 <= q < 3 ==>
                  && v.queues[q].accepted == MessagesOf(v.queues[q].left) + v.queues[q].items
                  && FromQueue(v.taken, q) == ReceivedOf(v.queues[q].left))
            && v.queues[STATE].accepted == FromQueue(v.taken, STATE) + v.queues[STATE].items
  {
    RunIsSound(log);
    var v := Replay(log);
    NothingEvicted(v.queues[STATE]);
    assert forall q :: 0 <= q < 3 ==> v.queues[q].Sound();
    hide Replay, MessagesOf, ReceivedOf, FromQueue, Flat, AllOf;
  }

  // Nothing accepted, evicted, taken or sent is ever taken back.
  ghost predicate Kept(was: View, now: View) {
    && was.taken <= now.taken && was.sent <= now.sent
    && forall q :: 0 <= q < 3 ==> Grown(was.queues[q], now.queues[q])
  }

  lemma StepKeeps(v: View, step: Step)
    requires Enabled(v, step)
    ensures Kept(v, Next(v, step))
  {
    hide Acted;
    if step.Produced? {
      HappenedGrows(v.queues, Produce(step.act));
    }
  }

  lemma {:induction false} HistoryKept(log: seq<Step>, i: nat)
    requires Runs(log) && i <= |log|
    ensures Runs(log[..i]) && Kept(Replay(log[..i]), Replay(log))
    decreases |log|
  {
    if i == |log| {
      assert log[..i] == log;
    } else {
      var most := log[..|log| - 1];
      HistoryKept(most, i);
      assert most[..i] == log[..i];
      StepKeeps(Replay(most), log[|log| - 1]);
      hide Next, Enabled;
    }
  }

  // ---- what the steps of a history account for ------------------------------------------------

  // The messages offered to a queue by steps that found it open and below 256 messages, in order.
  ghost function Offers(log: seq<Step>, q: nat): seq<Message>
    requires Runs(log) && q < 3
    decreases |log|
  {
    if log == [] then [] else
    var most, step := log[..|log| - 1], log[|log| - 1];
    var queue := Replay(most).queues[q];
    Offers(most, q) +
    if step.Produced? && step.act.Offer? && QueueOf(ClassOf(step.act.m.kind)) == q && !queue.closed &&
       |queue.items| < 256
    then [step.act.m] else []
  }

  // How many steps took a message off a queue, as the batcher or to make room.
  ghost function Departures(log: seq<Step>, q: nat): nat
    requires Runs(log) && q < 3
    decreases |log|
  {
    if log == [] then 0 else
    var most, step := log[..|log| - 1], log[|log| - 1];
    Departures(most, q) + if step == Receive(q) || Evicts(Replay(most), step, q) then 1 else 0
  }

  ghost predicate Evicts(v: View, step: Step, q: nat)
    requires q < 3
  {
    && step.Produced? && step.act.MakeRoom? && QueueOf(ClassOf(step.act.m.kind)) == q
    && MayEvict(ClassOf(step.act.m.kind)) && v.queues[q].items != []
  }

  // The messages taken off a queue by the batcher's steps, each the oldest at its moment.
  ghost function Receipts(log: seq<Step>, q: nat): seq<Message>
    requires Runs(log) && q < 3
    decreases |log|
  {
    if log == [] then [] else
    var most, step := log[..|log| - 1], log[|log| - 1];
    Receipts(most, q) + if step == Receive(q) then [Replay(most).queues[q].items[0]] else []
  }

  // One step's account of one queue.
  lemma {:induction false} StepAccounts(v: View, step: Step, q: nat)
    requires Enabled(v, step) && q < 3
    ensures var was, now := v.queues[q], Next(v, step).queues[q];
            && now.accepted == was.accepted +
                 (if step.Produced? && step.act.Offer? && QueueOf(ClassOf(step.act.m.kind)) == q &&
                     !was.closed && |was.items| < 256
                  then [step.act.m] else [])
            && |now.left| == |was.left| + (if step == Receive(q) || Evicts(v, step, q) then 1 else 0)
            && (now.closed <==> was.closed || step == Produced(Close(q)))
    ensures FromQueue(Next(v, step).taken, q) == FromQueue(v.taken, q) +
              (if step == Receive(q) then [v.queues[q].items[0]] else [])
    ensures Next(v, step).open[q] <==> v.open[q] && step != GiveUp(q)
  {
    match step
    case Produced(act) =>
      if act.Offer? {
        OfferJoinsIfThereIsRoom(v.queues, act.m);
      } else if act.MakeRoom? {
        MakingRoomAndClosing(v.queues, act.m, q);
      }
      hide QueueOf, ClassOf, MayEvict, FromQueue;
    case Receive(p) =>
      OneMoreTaken(v.taken, Taken(p, v.queues[p].items[0]));
      hide FromQueue;
    case _ => hide FromQueue;
  }

  // At any moment of any history: a queue has accepted exactly what was offered to it while it was open
  // and had room; what is off it went by a take or to make room; it is closed exactly if it was, and
  // given up exactly if the batcher did.
  lemma {:induction false} EveryRunAccounts(log: seq<Step>, q: nat)
    requires Runs(log) && q < 3
    ensures var v := Replay(log);
            && v.queues[q].accepted == Offers(log, q) && |v.queues[q].left| == Departures(log, q)
            && FromQueue(v.taken, q) == Receipts(log, q)
            && (v.queues[q].closed <==> Produced(Close(q)) in log) && (v.open[q] <==> GiveUp(q) !in log)
    decreases |log|
  {
    if log != [] {
      var most, step := log[..|log| - 1], log[|log| - 1];
      EveryRunAccounts(most, q);
      StepAccounts(Replay(most), step, q);
      assert forall s: Step :: s in log <==> s in most || s == step by {
        assert log == most + [step];
      }
      hide Next, Enabled, FromQueue, QueueOf, ClassOf, Evicts;
    }
  }

  // A batch goes out when it is full with its 32nd message, or by a step that sends what is pending.
  lemma {:induction false} BatchesGoOutFull(v: View, step: Step)
    requires Sound(v) && Enabled(v, step)
    ensures Next(v, step).sent == v.sent ||
            (Next(v, step).sent == v.sent + [v.batch] && step == SendBatch) ||
            (step.Receive? && |v.batch| == 31 && Next(v, step).sent == v.sent + [v.batch + [v.queues[step.q].items[0]]])
    ensures Next(v, step).sent == v.sent ==>
              Next(v, step).batch == v.batch + if step.Receive? then [v.queues[step.q].items[0]] else []
    ensures Next(v, step).sent != v.sent ==> Next(v, step).batch == []
  {
    hide AllSound, TakenSound, OpenSound;
  }

  // ---- the burst ------------------------------------------------------------------------------

  // From some moment on there were bulk messages waiting and none was taken.
  ghost predicate BulkWaits(log: seq<Step>, i: nat)
    requires Runs(log)
  {
    forall j :: i <= j < |log| ==>
      && Runs(log[..j]) && Replay(log[..j]).open[BULK] && Replay(log[..j]).queues[BULK].items != []
      && log[j] != Receive(BULK)
  }

  ghost function PriorityTaken(log: seq<Step>, i: nat): nat
    requires i <= |log|
    decreases |log|
  {
    if i == |log| then 0 else
    PriorityTaken(log[..|log| - 1], i) + if log[|log| - 1] == Receive(PRIORITY) then 1 else 0
  }

  lemma {:induction false} BurstCounts(log: seq<Step>, i: nat)
    requires Runs(log) && i <= |log| && BulkWaits(log, i)
    ensures Runs(log[..i]) && Replay(log).burst == Replay(log[..i]).burst + PriorityTaken(log, i)
    ensures i < |log| ==> Replay(log).open[BULK]
    decreases |log|
  {
    if i == |log| {
      assert log[..i] == log;
    } else {
      var most := log[..|log| - 1];
      assert most[..i] == log[..i];
      forall j | i <= j < |most|
        ensures most[..j] == log[..j]
      {
      }
      BurstCounts(most, i);
    }
  }

  // The priority messages since the last bulk message, or the last time the bulk queue was given up or
  // passed over.
  ghost function PrioritySince(log: seq<Step>): nat {
    if log == [] then 0 else
    match log[|log| - 1]
    case Receive(q) =>
      if q == BULK then 0 else PrioritySince(log[..|log| - 1]) + if q == PRIORITY then 1 else 0
    case GiveUp(q) => if q == BULK then 0 else PrioritySince(log[..|log| - 1])
    case SkipBulk => 0
    case _ => PrioritySince(log[..|log| - 1])
  }

  // A bulk message starts the burst anew: while the bulk queue is open, a priority message is held back
  // exactly when there were eight since.
  lemma {:induction false} BurstIsOfTheLast(log: seq<Step>)
    requires Runs(log)
    ensures Replay(log).burst == PrioritySince(log)
    ensures var v := Replay(log);
            v.open[PRIORITY] && v.queues[PRIORITY].items != [] ==>
              (Enabled(v, Receive(PRIORITY)) <==> !v.open[BULK] || PrioritySince(log) < 8)
    decreases |log|
  {
    if log != [] {
      BurstIsOfTheLast(log[..|log| - 1]);
    }
  }

  // While bulk messages wait, at most eight priority messages go before the next of them.
  lemma {:induction false} BurstIsBounded(log: seq<Step>, i: nat)
    requires Runs(log) && i <= |log| && BulkWaits(log, i)
    ensures PriorityTaken(log, i) <= PRIORITY_BURST
  {
    BurstCounts(log, i);
    RunIsSound(log);
    hide AllSound, TakenSound, BatchSound;
  }

  // ---- the loop -------------------------------------------------------------------------------

  ghost function StepsOf(acts: seq<Act>): seq<Step> {
    if acts == [] then [] else StepsOf(acts[..|acts| - 1]) + [Produced(acts[|acts| - 1])]
  }

  // What a ready queue makes the batcher do.
  function StepFor(queues: Queues, q: nat): Step
    requires q < 3
  {
    if queues[q].items != [] then Receive(q) else GiveUp(q)
  }

  lemma LessIsLeft(queues: Queues, open: Flags, q: nat)
    requires q < 3
    ensures queues[q].items != [] ==> Total(queues[q := queues[q].WithoutOldest(true)]) < Total(queues)
    ensures open[q] ==> OpenCount(open[q := false]) < OpenCount(open)
  {
  }

  class Batcher {
    var queues: Queues
    var others: seq<seq<Act>>  // what the producers do, between the batcher's own steps
    var open: Flags
    var batch: seq<Message>
    var armed: bool
    var burst: nat
    ghost var sent: seq<seq<Message>>
    ghost var taken: seq<Taken>
    ghost const script: seq<Act>
    ghost var log: seq<Step>

    // The state is what the logged steps made of a fresh one, and the producers' steps among them are
    // their script's, in order.
    ghost predicate Valid()
      reads this
    {
      Runs(log) && Now() == Replay(log) && ActsOf(log) + Flattened(others) == script
    }

    ghost function Now(): View
      reads this
    {
      View(queues, open, batch, armed, burst, sent, taken)
    }

    constructor (others: seq<seq<Act>>)
      ensures Valid() && this.others == others && log == []
    {
      queues, this.others := [EMPTY, EMPTY, EMPTY], others;
      open, batch, armed, burst := [true, true, true], [], false, 0;
      sent, taken, log := [], [], [];
      script := Flattened(others);
    }

    predicate Ready(q: nat): (ready: bool)
      requires q < 3
      reads this
      ensures ready <==> open[q] && (queues[q].items != [] || queues[q].closed)
    {
      open[q] && (queues[q].items != [] || queues[q].closed)
    }

    // After a burst of priority messages a bulk message goes first.
    predicate BulkTurn(): (turn: bool)
      reads this
      ensures turn <==> burst >= 8 && open[BULK]
    {
      burst >= PRIORITY_BURST && open[BULK]
    }

    // Any acts of the producers.
    method Others()
      requires Valid()
      modifies `queues, `others, `log
      ensures Valid()
      ensures if old(others) == [] then log == old(log) && others == []
              else log == old(log) + StepsOf(old(others)[0]) && others == old(others)[1..]
    {
      hide Runs, Replay, ActsOf, Acted, Flattened;
      if others == [] {
        return;
      }
      var acts := others[0];
      ghost var before := ActsOf(log);
      FlattenedStep(others, before);
      others := others[1..];
      assert before + acts[..0] == before && log + StepsOf(acts[..0]) == log;
      for i := 0 to |acts|
        invariant Runs(log) && Now() == Replay(log) && others == old(others)[1..]
        invariant ActsOf(log) == before + acts[..i] && log == old(log) + StepsOf(acts[..i])
      {
        OneMoreStep(log, Produced(acts[i]));
        assert acts[..i + 1][..i] == acts[..i];
        assert before + acts[..i] + [acts[i]] == before + acts[..i + 1];
        queues := Acted(queues, acts[i]);
        log := log + [Produced(acts[i])];
      }
      assert acts[..|acts|] == acts;
    }

    method Flush()
      modifies `batch, `armed, `sent
      ensures Now() == Flushed(old(Now()))
    {
      if |batch| == 0 {
        return;
      }
      armed := false;
      sent := sent + [batch];
      batch := [];
    }

    method Append(message: Message)
      requires armed <==> batch != []
      modifies `batch, `armed, `sent
      ensures Now() == Appended(old(Now()), message)
    {
      if |batch| == 0 {
        armed := true;
      }
      batch := batch + [message];
      if |batch| >= BATCH_SIZE {
        Flush();
      }
    }

    // Takes what a ready queue has: a message, or the news that it is closed and drained.
    method Take(q: nat) returns (took: bool)
      requires q < 3 && Ready(q) && (armed <==> batch != [])
      modifies `queues, `open, `batch, `armed, `sent, `taken
      ensures took == (old(queues)[q].items != [])
      ensures Now() == if took then TakenFrom(old(Now()), q) else old(Now()).(open := old(open)[q := false])
      ensures took ==> Total(queues) < old(Total(queues)) && open == old(open)
      ensures !took ==> queues == old(queues) && OpenCount(open) < old(OpenCount(open))
    {
      LessIsLeft(queues, open, q);
      hide Total, OpenCount, Appended;
      if queues[q].items == [] {
        open := open[q := false];
        return false;
      }
      var message := queues[q].items[0];
      Append(message);
      queues := queues[q := queues[q].WithoutOldest(true)];
      taken := taken + [Taken(q, message)];
      return true;
    }

    // Takes from a queue and keeps count of the burst.
    method TakeCounted(q: nat) returns (took: bool)
      requires Valid() && q < 3 && Ready(q) && (q == PRIORITY && open[BULK] ==> burst < PRIORITY_BURST)
      modifies `queues, `open, `batch, `armed, `sent, `taken, `burst, `log
      ensures Valid() && log == old(log) + [StepFor(old(queues), q)]
      ensures took ==> Total(queues) < old(Total(queues)) && open == old(open)
      ensures !took ==> queues == old(queues) && OpenCount(open) < old(OpenCount(open))
    {
      ArmedWhilePending();
      hide Runs, Replay, ActsOf, Flattened, Appended, Total, OpenCount;
      OneMoreStep(log, StepFor(queues, q));
      log := log + [StepFor(queues, q)];
      took := Take(q);
      burst := if q == BULK then 0 else if q == PRIORITY && took then burst + 1 else burst;
    }

    lemma ArmedWhilePending()
      requires Valid()
      ensures armed <==> batch != []
    {
      RunIsSound(log);
      hide AllSound, TakenSound, OpenSound;
    }

    // What a pass that is not blocked uses up: acts of the producers, else messages, else a queue that
    // is closed and drained, else the armed timer.
    twostate predicate Progress()
      reads this
    {
      || |others| < |old(others)|
      || (others == old(others) &&
          (|| Total(queues) < old(Total(queues))
           || (queues == old(queues) && OpenCount(open) < old(OpenCount(open)))
           || (queues == old(queues) && open == old(open) && old(armed) && !armed)))
    }

    ghost predicate Blocked()
      reads this
    {
      others == [] && !armed && !Ready(STATE) && !Ready(PRIORITY) && !Ready(BULK)
    }

    // The select that waits: whatever comes first of the three queues and the timer.
    method AwaitAny() returns (blocked: bool)
      requires Valid() && (open[BULK] ==> burst < PRIORITY_BURST)
      modifies this
      ensures Valid() && old(log) <= log
      ensures if blocked then Blocked() else Progress()
    {
      hide Runs, Replay, ActsOf, Flattened;
      while true
        invariant Valid() && old(log) <= log && burst == old(burst) && open == old(open)
        invariant batch == old(batch) && armed == old(armed)
        invariant if others == old(others) then queues == old(queues) else |others| < |old(others)|
        decreases |others|
      {
        if
        case Ready(STATE) => var _ := TakeCounted(STATE); return false;
        case Ready(PRIORITY) => var _ := TakeCounted(PRIORITY); return false;
        case Ready(BULK) => var _ := TakeCounted(BULK); return false;
        case armed => Expire(); return false;
        case others != [] => Others();
        case others == [] && !armed && !Ready(STATE) && !Ready(PRIORITY) && !Ready(BULK) => return true;
      }
    }

    // The timer, or the end of the loop, sends the pending batch.
    method Expire()
      requires Valid()
      modifies `batch, `armed, `sent, `log
      ensures Valid() && log == old(log) + if old(armed) then [SendBatch] else []
      ensures batch == [] && !armed
    {
      ArmedWhilePending();
      hide Runs, Replay, ActsOf, Flattened;
      if armed {
        OneMoreStep(log, SendBatch);
        log := log + [SendBatch];
      }
      Flush();
    }

    // The bulk queue had its turn and nothing to offer.
    method PassBulk()
      requires Valid() && BulkTurn() && !Ready(BULK)
      modifies `burst, `log
      ensures Valid() && log == old(log) + [SkipBulk] && burst == 0
    {
      hide Runs, Replay, ActsOf, Flattened;
      OneMoreStep(log, SkipBulk);
      log := log + [SkipBulk];
      burst := 0;
    }

    // What follows when there is no state message.
    method TakeTurns() returns (blocked: bool)
      requires Valid()
      modifies this
      ensures Valid() && old(log) <= log
      ensures if blocked then Blocked() else Progress()
      ensures old(others) == [] && old(BulkTurn() && Ready(BULK)) ==> log == old(log) + [StepFor(old(queues), BULK)]
      ensures old(others) == [] && old(!BulkTurn() && Ready(PRIORITY)) ==>
                log == old(log) + [StepFor(old(queues), PRIORITY)]
      ensures old(others) == [] && old(BulkTurn() && !Ready(BULK) && Ready(PRIORITY)) ==>
                log == old(log) + [SkipBulk, StepFor(old(queues), PRIORITY)]
    {
      hide Runs, Replay, ActsOf, Flattened, StepsOf;
      if burst >= PRIORITY_BURST && open[BULK] {
        Others();
        if Ready(BULK) {
          var _ := TakeCounted(BULK);
          return false;
        }
        PassBulk();
      }
      Others();
      if Ready(PRIORITY) {
        var _ := TakeCounted(PRIORITY);
        return false;
      }
      blocked := AwaitAny();
    }

    // One pass of the loop: a state message first, then the bulk queue its turn after a burst, then a
    // priority message, else whatever comes first. Blocked when nothing will ever come.
    method Pass() returns (blocked: bool)
      requires Valid()
      modifies this
      ensures Valid() && old(log) <= log
      ensures if blocked then Blocked() else Progress()
      // Undisturbed, it takes in this order:
      ensures old(others) == [] && old(Ready(STATE)) ==> log == old(log) + [StepFor(old(queues), STATE)]
      ensures old(others) == [] && old(!Ready(STATE) && BulkTurn() && Ready(BULK)) ==>
                log == old(log) + [StepFor(old(queues), BULK)]
      ensures old(others) == [] && old(!Ready(STATE) && !BulkTurn() && Ready(PRIORITY)) ==>
                log == old(log) + [StepFor(old(queues), PRIORITY)]
      ensures old(others) == [] && old(!Ready(STATE) && BulkTurn() && !Ready(BULK) && Ready(PRIORITY)) ==>
                log == old(log) + [SkipBulk, StepFor(old(queues), PRIORITY)]
    {
      hide Runs, Replay, ActsOf, Flattened, StepsOf;
      Others();
      if Ready(STATE) {
        var _ := TakeCounted(STATE);
        return false;
      }
      blocked := TakeTurns();
    }
  }

  // Every queue closed and drained, and all that was accepted and not evicted is in a batch sent; of
  // the state queue that is everything.
  ghost predicate AllDelivered(v: View) {
    && AllOf(v.taken) == Flat(v.sent)
    && (forall q :: 0 <= q < 3 ==>
          && v.queues[q].closed && v.queues[q].items == [] && v.queues[q].accepted == MessagesOf(v.queues[q].left)
          && FromQueue(v.taken, q) == ReceivedOf(v.queues[q].left))
    && FromQueue(v.taken, STATE) == v.queues[STATE].accepted
  }

  lemma {:induction false} DrainedIsDelivered(log: seq<Step>)
    requires Runs(log) && Replay(log).batch == [] && Replay(log).open == [false, false, false]
    ensures AllDelivered(Replay(log))
  {
    RunIsSound(log);
    EveryRunConserves(log);
    hide Replay, MessagesOf, ReceivedOf, FromQueue, Flat, AllOf;
    assert Flat(Replay(log).sent) + [] == Flat(Replay(log).sent);
  }

  // Runs until every queue is closed and drained, or nothing will ever come. Then all it took off
  // the queues is sent.
  method RunBatcher(b: Batcher) returns (finished: bool)
    requires b.Valid()
    modifies b
    ensures b.Valid() && old(b.log) <= b.log && b.batch == []
    ensures if finished then AllDelivered(b.Now()) else b.Blocked()
    ensures !finished ==>
              b.others == [] &&
              forall q :: 0 <= q < 3 && b.open[q] ==> b.queues[q].items == [] && !b.queues[q].closed
    ensures finished ==> forall q :: 0 <= q < 3 ==> b.queues[q].closed && b.queues[q].items == []
  {
    var blocked := false;
    hide Runs, Replay, ActsOf, Flattened;
    while (b.open[STATE] || b.open[PRIORITY] || b.open[BULK]) && !blocked
      invariant b.Valid() && old(b.log) <= b.log && (blocked ==> b.Blocked())
      decreases !blocked, |b.others|, Total(b.queues), OpenCount(b.open), b.armed
    {
      blocked := b.Pass();
    }
    b.Expire();
    finished := !blocked;
    if finished {
      DrainedIsDelivered(b.log);
    }
  }
}
