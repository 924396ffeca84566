/** Asking several sources for the outbound address, a few at a time, and taking the first usable answer. */
module OutboundRace {
  const CONCURRENCY := 3

  // What reaches the race from outside: a probe of some source ends, the stagger timer ticks, the
  // deadline passes.
  datatype Event = Done(source: nat, usable: bool) | Tick | Expired

  datatype Answer = Answer(source: nat, usable: bool)

  datatype Outcome = Found(source: nat) | Exhausted | TimedOut

  // ---- the race, step by step -----------------------------------------------------------------

  // `running` are the sources whose probes are under way, `answers` what is in the channel and
  // `received` what was taken out of it.
  datatype View = View(next: nat, inFlight: nat, answers: seq<Answer>, running: set<nat>,
                       received: seq<Answer>, expired: bool)

  // The race hears an event, or takes an answer out of the channel.
  datatype Step = Hear(event: Event) | Take

  // Starts the next source unless all are asked or enough are in flight.
  function Started(n: nat, v: View): View {
    if v.next >= n || v.inFlight >= CONCURRENCY then v
    else v.(next := v.next + 1, inFlight := v.inFlight + 1, running := v.running + {v.next})
  }

  function Delivered(v: View, source: nat, usable: bool): View {
    if source in v.running
    then v.(running := v.running - {source}, answers := v.answers + [Answer(source, usable)])
    else v
  }

  function Took(v: View): View
    requires v.answers != [] && v.inFlight > 0
  {
    v.(answers := v.answers[1..], received := v.received + [v.answers[0]], inFlight := v.inFlight - 1)
  }

  predicate HasWinner(v: View) { v.received != [] && v.received[|v.received| - 1].usable }

  // The race goes on while sources are in flight, none has won and the deadline has not passed.
  predicate Enabled(v: View, step: Step) {
    v.inFlight > 0 && !HasWinner(v) && !v.expired && (step.Take? ==> v.answers != [])
  }

  function Next(n: nat, v: View, step: Step): View
    requires Enabled(v, step)
  {
    match step
    case Hear(Done(source, usable)) => Delivered(v, source, usable)
    case Hear(Tick) => Started(n, v)
    case Hear(Expired) => v.(expired := true)
    case Take => if v.answers[0].usable then Took(v) else Started(n, Took(v))
  }

  const IDLE := View(0, 0, [], {}, [], false)

  ghost predicate Runs(n: nat, log: seq<Step>)
    decreases |log|, 0
  {
    log == [] || (Runs(n, log[..|log| - 1]) && Enabled(Replay(n, log[..|log| - 1]), log[|log| - 1]))
  }

  // Where a history leads, after the first source is started.
  ghost function Replay(n: nat, log: seq<Step>): View
    requires Runs(n, log)
    decreases |log|, 1
  {
    if log == [] then Started(n, IDLE) else Next(n, Replay(n, log[..|log| - 1]), log[|log| - 1])
  }

  ghost function EventsOf(log: seq<Step>): seq<Event> {
    if log == [] then [] else
    EventsOf(log[..|log| - 1]) + if log[|log| - 1].Hear? then [log[|log| - 1].event] else []
  }

  lemma OneMoreStep(n: nat, log: seq<Step>, step: Step)
    requires Runs(n, log) && Enabled(Replay(n, log), step)
    ensures Runs(n, log + [step]) && Replay(n, log + [step]) == Next(n, Replay(n, log), step)
    ensures EventsOf(log + [step]) == EventsOf(log) + if step.Hear? then [step.event] else []
  {
    assert (log + [step])[..|log|] == log;
  }

  // ---- what every history keeps ---------------------------------------------------------------

  // Each source is asked once, in list order, at most three at a time; every one asked is running, has
  // its answer in the channel, or was received; so no answer ever lacks room in a channel with room for
  // one answer per source. Only the last answer received may be usable.
  ghost predicate Booked(n: nat, v: View) {
    && v.inFlight <= CONCURRENCY && v.inFlight == |v.running| + |v.answers| && v.next == v.inFlight + |v.received| <= n
    && (forall i :: i in v.running ==> i < v.next)
    && (forall k :: 0 <= k < |v.answers| ==> v.answers[k].source < v.next && v.answers[k].source !in v.running)
    && (forall k :: 0 <= k < |v.received| ==> v.received[k].source < v.next && v.received[k].source !in v.running)
    && (forall k, l :: 0 <= k < l < |v.answers| ==> v.answers[k].source != v.answers[l].source)
    && (forall k, l :: 0 <= k < l < |v.received| ==> v.received[k].source != v.received[l].source)
    && (forall k, l :: 0 <= k < |v.answers| && 0 <= l < |v.received| ==> v.answers[k].source != v.received[l].source)
    && (forall k :: 0 <= k < |v.received| - 1 ==> !v.received[k].usable)
  }

  // And the race runs dry only when every source was asked.
  ghost predicate Sound(n: nat, v: View) {
    Booked(n, v) && (v.inFlight == 0 && !HasWinner(v) ==> v.next == n)
  }

  lemma {:induction false} StartKeepsSound(n: nat, v: View)
    requires Booked(n, v)
    ensures Sound(n, Started(n, v))
  {
  }

  lemma {:induction false} DeliverKeepsBooked(n: nat, v: View, source: nat, usable: bool)
    requires Booked(n, v)
    ensures Booked(n, Delivered(v, source, usable))
  {
  }

  lemma {:induction false} TakeKeepsBooked(n: nat, v: View)
    requires Booked(n, v) && v.answers != [] && !HasWinner(v)
    ensures v.inFlight > 0 && Booked(n, Took(v))
  {
  }

  lemma {:induction false} StepKeepsSound(n: nat, v: View, step: Step)
    requires Sound(n, v) && Enabled(v, step)
    ensures Sound(n, Next(n, v, step))
  {
    match step
    case Hear(Done(source, usable)) =>
      DeliverKeepsBooked(n, v, source, usable);
      hide Booked;
    case Hear(Tick) => StartKeepsSound(n, v);
    case Hear(Expired) =>
    case Take =>
      TakeKeepsBooked(n, v);
      hide Booked;
      StartKeepsSound(n, Took(v));
  }

  lemma {:induction false} RunIsSound(n: nat, log: seq<Step>)
    requires Runs(n, log)
    ensures Sound(n, Replay(n, log))
  {
    if log == [] {
      StartKeepsSound(n, IDLE);
    } else {
      var most := log[..|log| - 1];
      RunIsSound(n, most);
      StepKeepsSound(n, Replay(n, most), log[|log| - 1]);
      hide Sound, Next, Enabled;
    }
  }

  // Exhaustion means that every source was asked and answered unusably.
  lemma {:induction false} DryMeansExhausted(n: nat, log: seq<Step>)
    requires Runs(n, log) && Replay(n, log).inFlight == 0 && !HasWinner(Replay(n, log))
    ensures var v := Replay(n, log);
            |v.received| == n == v.next && forall k :: 0 <= k < n ==> !v.received[k].usable
  {
    RunIsSound(n, log);
  }

  // Each tick asks the next source in list order, and so does each unusable answer taken, unless all were
  // asked or three are in flight; nothing else does.
  lemma {:induction false} WhoIsAskedNext(n: nat, v: View, step: Step)
    requires Sound(n, v) && Enabled(v, step)
    ensures var next := Next(n, v, step);
            var asks := v.next < n && ((step == Hear(Tick) && v.inFlight < 3) || (step.Take? && !v.answers[0].usable));
            next.next == (if asks then v.next + 1 else v.next) && (asks ==> v.next in next.running)
  {
  }

  // The race takes no step after the deadline is heard, or after a usable answer.
  lemma {:induction false} NothingFollowsTheEnd(n: nat, log: seq<Step>, i: nat)
    requires Runs(n, log) && i + 1 < |log|
    ensures log[i] != Hear(Expired)
    ensures Runs(n, log[..i + 1]) && !HasWinner(Replay(n, log[..i + 1]))
    decreases |log|
  {
    var most := log[..|log| - 1];
    if i + 1 < |most| {
      NothingFollowsTheEnd(n, most, i);
      assert most[..i + 1] == log[..i + 1];
    } else {
      assert log[..i + 1] == most;
    }
  }

  // ---- answers and events ---------------------------------------------------------------------

  // Every answer that was ever in the channel, oldest first.
  function AllAnswers(v: View): seq<Answer> { v.received + v.answers }

  // The answers came with the events at these places, in this order.
  ghost predicate CameAt(answers: seq<Answer>, events: seq<Event>, at: seq<nat>) {
    && |at| == |answers| && (forall k, l :: 0 <= k < l < |at| ==> at[k] < at[l])
    && forall k :: 0 <= k < |at| ==>
         at[k] < |events| && events[at[k]] == Done(answers[k].source, answers[k].usable)
  }

  lemma StepAnswers(n: nat, v: View, step: Step)
    requires Enabled(v, step)
    ensures AllAnswers(Next(n, v, step)) ==
            if step.Hear? && step.event.Done? && step.event.source in v.running
            then AllAnswers(v) + [Answer(step.event.source, step.event.usable)]
            else AllAnswers(v)
  {
    if step.Take? {
      assert v.answers == [v.answers[0]] + v.answers[1..];
      assert Next(n, v, step).received == v.received + [v.answers[0]];
      assert Next(n, v, step).answers == v.answers[1..];
      hide Next;
    }
  }

  lemma CameAtLonger(answers: seq<Answer>, events: seq<Event>, at: seq<nat>, event: Event)
    requires CameAt(answers, events, at)
    ensures CameAt(answers, events + [event], at)
    ensures event.Done? ==>
              CameAt(answers + [Answer(event.source, event.usable)], events + [event], at + [|events|])
  {
  }

  // Each answer is what some probe's event said, and they are in the order of the events.
  lemma {:induction false} AnswersWereHeard(n: nat, log: seq<Step>) returns (at: seq<nat>)
    requires Runs(n, log)
    ensures CameAt(AllAnswers(Replay(n, log)), EventsOf(log), at)
  {
    if log == [] {
      return [];
    }
    var most, step := log[..|log| - 1], log[|log| - 1];
    at := AnswersWereHeard(n, most);
    StepAnswers(n, Replay(n, most), step);
    if step.Hear? {
      CameAtLonger(AllAnswers(Replay(n, most)), EventsOf(most), at, step.event);
    }
    hide Next, Enabled, AllAnswers, CameAt;
    if step.Hear? && step.event.Done? && step.event.source in Replay(n, most).running {
      at := at + [|EventsOf(most)|];
    }
  }

  // And no answer is lost: what a running probe's event said is received or in the channel ever after.
  lemma {:induction false} NoAnswerIsLost(n: nat, log: seq<Step>, i: nat)
    requires Runs(n, log) && i < |log| && log[i].Hear? && log[i].event.Done?
    ensures Runs(n, log[..i])
    ensures var event := log[i].event;
            event.source in Replay(n, log[..i]).running ==>
              Answer(event.source, event.usable) in AllAnswers(Replay(n, log))
    decreases |log|
  {
    var most := log[..|log| - 1];
    StepLosesNothing(n, Replay(n, most), log[|log| - 1]);
    hide Next, Enabled, AllAnswers;
    if i < |most| {
      NoAnswerIsLost(n, most, i);
      assert most[..i] == log[..i];
    }
  }

  lemma StepLosesNothing(n: nat, v: View, step: Step)
    requires Enabled(v, step)
    ensures forall answer :: answer in AllAnswers(v) ==> answer in AllAnswers(Next(n, v, step))
    ensures step.Hear? && step.event.Done? && step.event.source in v.running ==>
              Answer(step.event.source, step.event.usable) in AllAnswers(Next(n, v, step))
  {
    StepAnswers(n, v, step);
    hide Next, Enabled, AllAnswers;
  }

  // ---- the stagger ----------------------------------------------------------------------------

  function Ticks(events: seq<Event>): nat {
    if events == [] then 0 else Ticks(events[..|events| - 1]) + if events[|events| - 1].Tick? then 1 else 0
  }

  function Min(a: nat, b: nat): nat { if a < b then a else b }

  ghost predicate Staggered(n: nat, v: View, ticks: nat) {
    Min(n, Min(CONCURRENCY, 1 + ticks)) <= v.next <= 1 + ticks + |v.received|
  }

  lemma StaggerStep(n: nat, v: View, step: Step, ticks: nat)
    requires Enabled(v, step) && Staggered(n, v, ticks) && v.inFlight <= v.next
    ensures Staggered(n, Next(n, v, step), if step == Hear(Tick) then ticks + 1 else ticks)
  {
  }

  // A slow source holds up no other: each tick starts one more, up to the concurrency, and beyond the
  // ticks only an unusable answer makes room for another.
  lemma {:induction false} StaggeredStarts(n: nat, log: seq<Step>)
    requires Runs(n, log)
    ensures Staggered(n, Replay(n, log), Ticks(EventsOf(log)))
  {
    if log != [] {
      var most, step := log[..|log| - 1], log[|log| - 1];
      StaggeredStarts(n, most);
      RunIsSound(n, most);
      StaggerStep(n, Replay(n, most), step, Ticks(EventsOf(most)));
      hide Next, Enabled, Staggered;
      if step.Take? {
        assert EventsOf(log) == EventsOf(most);
      } else {
        assert (EventsOf(most) + [step.event])[..|EventsOf(most)|] == EventsOf(most);
      }
    }
  }

  // ---- the loop -------------------------------------------------------------------------------

  class Race {
    const sources: nat
    var next: nat
    var inFlight: nat
    var answers: seq<Answer>  // the answer channel
    var running: set<nat>
    ghost var received: seq<Answer>
    var expired: bool
    ghost var log: seq<Step>

    ghost predicate Valid()
      reads this
    {
      Runs(sources, log) && Now() == Replay(sources, log)
    }

    ghost function Now(): View
      reads this
    {
      View(next, inFlight, answers, running, received, expired)
    }

    constructor (sources: nat)
      ensures this.sources == sources && Now() == IDLE && log == []
    {
      this.sources := sources;
      next, inFlight, answers := 0, 0, [];
      running, received, expired, log := {}, [], false, [];
    }

    method Start()
      modifies `next, `inFlight, `running
      ensures Now() == Started(sources, old(Now()))
    {
      if next >= sources || inFlight >= CONCURRENCY {
        return;
      }
      running := running + {next};
      next := next + 1;
      inFlight := inFlight + 1;
    }

    // A probe ends and puts its answer in the channel, for which there is room.
    method Deliver(source: nat, usable: bool)
      requires Valid()
      modifies `answers, `running
      ensures Now() == Delivered(old(Now()), source, usable) && |answers| <= sources
    {
      RunIsSound(sources, log);
      if source in running {
        assert |answers| < sources;
        running := running - {source};
        answers := answers + [Answer(source, usable)];
      }
    }

    // What comes from outside: the end of a probe, a tick, which starts one more source, or the deadline.
    method Observe(event: Event)
      requires Valid() && Enabled(Now(), Hear(event))
      modifies `next, `inFlight, `answers, `running, `expired, `log
      ensures Valid() && log == old(log) + [Hear(event)] && EventsOf(log) == EventsOf(old(log)) + [event]
      ensures expired == event.Expired?
    {
      hide Runs, Replay, EventsOf;
      OneMoreStep(sources, log, Hear(event));
      match event {
        case Done(source, usable) => Deliver(source, usable);
        case Tick => Start();
        case Expired => expired := true;
      }
      log := log + [Hear(event)];
    }

    // The next answer; an unusable one makes room for one more source.
    method TakeAnswer() returns (answer: Answer)
      requires Valid() && Enabled(Now(), Take)
      modifies `next, `inFlight, `answers, `running, `received, `log
      ensures Valid() && log == old(log) + [Take] && EventsOf(log) == EventsOf(old(log))
      ensures received == old(received) + [answer]
    {
      hide Runs, Replay, EventsOf;
      OneMoreStep(sources, log, Take);
      log := log + [Take];
      answer := answers[0];
      answers := answers[1..];
      received := received + [answer];
      inFlight := inFlight - 1;
      if !answer.usable {
        Start();
      }
    }

    // Hears the script, in order, and takes answers in between, until one is usable, the deadline
    // passes or the race runs dry; `seen` counts the events heard by then.
    method Run(script: seq<Event>) returns (outcome: Outcome, seen: nat)
      requires Now() == IDLE && log == []
      modifies this
      ensures Valid() && seen <= |script| && EventsOf(log) == script[..seen]
      ensures match outcome
              case Found(source) => received != [] && received[|received| - 1] == Answer(source, true)
              case Exhausted => inFlight == 0 && !HasWinner(Now())
              case TimedOut => expired || (seen == |script| && inFlight > 0 && answers == [] && !HasWinner(Now()))
    {
      seen := 0;
      Start();
      hide Runs, Replay, EventsOf, Next, Started;
      while inFlight > 0
        invariant Valid() && seen <= |script| && EventsOf(log) == script[..seen]
        invariant !HasWinner(Now()) && !expired
        decreases sources - |received| + |script| - seen
      {
        ReceivedFew();
        if
        case answers != [] =>
          var answer := TakeAnswer();
          if answer.usable {
            return Found(answer.source), seen;
          }
        case seen < |script| =>
          Observe(script[seen]);
          seen := seen + 1;
          if expired {
            return TimedOut, seen;
          }
        case answers == [] && seen == |script| =>
          return TimedOut, seen;  // the deadline passes in the end
      }
      return Exhausted, seen;
    }

    lemma ReceivedFew()
      requires Valid()
      ensures |received| + inFlight <= sources
    {
      RunIsSound(sources, log);
    }
  }
}
