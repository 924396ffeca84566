/**
 * Freshness of the route: stamps that move with every change, and a watch that publishes them. Each
 * section under the tracker's mutex is one atomic step; one refresh at a time is under way.
 */
module RouteTracker {
  import opened Options

  datatype Change = Unchanged | Moved | Reset

  // What one read of the tunnel saw. Rule sets are compared by the identity of their strategy.
  datatype Snapshot = Snapshot(picks: map<string, string>, providers: map<string, nat>, ruleSets: map<string, nat>)

  datatype Stamp = Stamp(epoch: nat, version: nat)

  // Providers and rule sets are None until they are first read.
  datatype Tracker = Tracker(
    epoch: nat, version: nat,
    picks: map<string, string>, providers: Option<map<string, nat>>, ruleSets: Option<map<string, nat>>,
    watched: bool, watchSeq: nat, polling: bool)

  const FRESH := Tracker(0, 0, map[], None, None, false, 0, false)

  function StampOf(t: Tracker): Stamp { Stamp(t.epoch, t.version) }

  predicate Differs(t: Tracker, now: Snapshot) {
    || (t.providers.Some? && t.providers.value != now.providers)
    || (t.ruleSets.Some? && t.ruleSets.value != now.ruleSets)
    || t.picks != now.picks
  }

  // A change is at least a move once the route is seen to differ.
  // A read shows the picks, providers and rule sets of the last one; what was never read may be anything.
  ghost predicate AsLastRead(t: Tracker, now: Snapshot) {
    && now.picks == t.picks && (t.providers == None || t.providers == Some(now.providers))
    && (t.ruleSets == None || t.ruleSets == Some(now.ruleSets))
  }

  function Effective(t: Tracker, change: Change, now: Snapshot): Change {
    if change.Unchanged? && Differs(t, now) then Moved else change
  }

  function Refreshed(t: Tracker, change: Change, now: Snapshot): Tracker {
    var effective := Effective(t, change, now);
    t.(picks := now.picks, providers := Some(now.providers), ruleSets := Some(now.ruleSets),
       epoch := t.epoch + if effective.Reset? then 1 else 0,
       version := t.version + if effective.Unchanged? then 0 else 1)
  }

  function Watching(t: Tracker, watch: bool, place: nat): Tracker {
    if place < t.watchSeq then t else t.(watchSeq := place, watched := watch, polling := watch)
  }

  function Stopped(t: Tracker, place: nat): Tracker {
    t.(watchSeq := if t.watchSeq < place then place else t.watchSeq, watched := false, polling := false)
  }

  // The tracker as the core keeps it, and the live pollers its watch started.
  class CurrentRoute {
    var epoch: nat
    var version: nat
    var picks: map<string, string>
    var providers: Option<map<string, nat>>
    var ruleSets: Option<map<string, nat>>
    var watched: bool
    var watchSeq: nat
    var stopPoll: bool  // whether there is a poller to stop
    ghost var pollers: nat

    ghost predicate Valid()
      reads this
    {
      (stopPoll <==> watched) && pollers == (if stopPoll then 1 else 0)
    }

    ghost function Now(): Tracker
      reads this
    {
      Tracker(epoch, version, picks, providers, ruleSets, watched, watchSeq, stopPoll)
    }

    constructor ()
      ensures Valid() && Now() == FRESH
    {
      epoch, version, picks, providers, ruleSets := 0, 0, map[], None, None;
      watched, watchSeq, stopPoll, pollers := false, 0, false, 0;
    }

    // Compares a read with the last one and keeps it.
    method Compare(asked: Change, now: Snapshot) returns (change: Change)
      modifies `picks, `providers, `ruleSets
      ensures change == Effective(old(Now()), asked, now)
      ensures change.Reset? <==> asked.Reset?
      ensures change.Unchanged? <==>
                && asked.Unchanged? && now.picks == old(picks)
                && (old(providers).None? || now.providers == old(providers).value)
                && (old(ruleSets).None? || now.ruleSets == old(ruleSets).value)
      ensures picks == now.picks && providers == Some(now.providers) && ruleSets == Some(now.ruleSets)
    {
      change := asked;
      if (providers.Some? && now.providers != providers.value) ||
         (ruleSets.Some? && now.ruleSets != ruleSets.value) || now.picks != picks {
        if change.Unchanged? {
          change := Moved;
        }
      }
      providers, ruleSets, picks := Some(now.providers), Some(now.ruleSets), now.picks;
    }

    // Takes a read in. What is to be published is the stamp it moved to, while someone watches.
    method Refresh(asked: Change, now: Snapshot) returns (publish: Option<Stamp>)
      requires Valid()
      modifies this
      ensures Valid() && Now() == Refreshed(old(Now()), asked, now)
      ensures epoch == old(epoch) + if asked.Reset? then 1 else 0
      ensures version == old(version) + if asked.Unchanged? && AsLastRead(old(Now()), now) then 0 else 1
      ensures watched == old(watched) && watchSeq == old(watchSeq)
      ensures publish == if watched && version != old(version) then Some(Stamp(epoch, version)) else None
    {
      var change := Compare(asked, now);
      hide Effective;
      if change.Reset? {
        epoch := epoch + 1;
      }
      if change.Unchanged? {
        return None;
      }
      version := version + 1;
      if !watched {
        return None;
      }
      return Some(Stamp(epoch, version));
    }

    // A watch call's section: a call overtaken by a later one changes nothing.
    method WatchRoute(watch: bool, place: nat) returns (state: Stamp)
      requires Valid()
      modifies this
      ensures Valid() && Now() == Watching(old(Now()), watch, place) && state == Stamp(old(epoch), old(version))
    {
      if place < watchSeq {
        return Stamp(epoch, version);
      }
      watchSeq := place;
      watched := watch;
      if watch && !stopPoll {
        stopPoll := true;
        pollers := pollers + 1;
      }
      if !watch {
        StopPoll();
      }
      return Stamp(epoch, version);
    }

    method StopRouteWatch(place: nat)
      requires Valid()
      modifies this
      ensures Valid() && Now() == Stopped(old(Now()), place)
    {
      watchSeq := if watchSeq < place then place else watchSeq;
      watched := false;
      StopPoll();
    }

    method StopPoll()
      requires pollers == if stopPoll then 1 else 0
      modifies `stopPoll, `pollers
      ensures !stopPoll && pollers == 0
    {
      if stopPoll {
        pollers := pollers - 1;
        stopPoll := false;
      }
    }
  }

  // ---- the protocol ---------------------------------------------------------------------------

  // A watch call or a stop: its number, in the sequence they were dispatched in, and what it wants.
  datatype Intent = Intent(place: nat, watch: bool)

  // Where the one refresh under way is: it has read, or has a stamp to publish.
  datatype Refresher = Idle | HasRead(change: Change, now: Snapshot) | ToPublish(stamp: Stamp)

  // `since` is the version at which the present watch began.
  datatype State = State(tracker: Tracker, refresher: Refresher, published: seq<Stamp>,
                         nextSeq: nat, waiting: set<Intent>, executed: seq<Intent>, since: nat)

  datatype Step =
    | Read(change: Change, now: Snapshot) | TakeIn | Publish
    | Dispatch(watch: bool) | RunWatch(call: Intent) | Stop

  const START := State(FRESH, Idle, [], 0, {}, [], 0)

  predicate Enabled(s: State, step: Step) {
    match step
    case Read(_, _) => s.refresher.Idle?
    case TakeIn => s.refresher.HasRead?
    case Publish => s.refresher.ToPublish?
    case Dispatch(_) => true
    case RunWatch(call) => call in s.waiting
    case Stop => true
  }

  function Next(s: State, step: Step): State
    requires Enabled(s, step)
  {
    match step
    case Read(change, now) => s.(refresher := HasRead(change, now))
    case TakeIn =>
      var t := Refreshed(s.tracker, s.refresher.change, s.refresher.now);
      s.(tracker := t,
         refresher := if t.watched && t.version != s.tracker.version then ToPublish(StampOf(t)) else Idle)
    case Publish => s.(refresher := Idle, published := s.published + [s.refresher.stamp])
    case Dispatch(watch) => s.(nextSeq := s.nextSeq + 1, waiting := s.waiting + {Intent(s.nextSeq + 1, watch)})
    case RunWatch(call) =>
      var t := Watching(s.tracker, call.watch, call.place);
      s.(tracker := t, waiting := s.waiting - {call}, executed := s.executed + [call],
         since := if t.watched && !s.tracker.watched then t.version else s.since)
    case Stop =>
      s.(tracker := Stopped(s.tracker, s.nextSeq + 1), nextSeq := s.nextSeq + 1,
         executed := s.executed + [Intent(s.nextSeq + 1, false)])
  }

  // ---- watch order ----------------------------------------------------------------------------

  // Each number is handed out once, and each call runs once.
  ghost predicate OrderSound(s: State) {
    && (forall e :: e in s.executed ==> 0 < e.place <= s.nextSeq)
    && (forall w :: w in s.waiting ==> 0 < w.place <= s.nextSeq)
    && (forall i, j :: 0 <= i < j < |s.executed| ==> s.executed[i].place != s.executed[j].place)
    && (forall i, w :: 0 <= i < |s.executed| && w in s.waiting ==> s.executed[i].place != w.place)
    && (forall v, w :: v in s.waiting && w in s.waiting && v.place == w.place ==> v == w)
  }

  // The tracker holds the intent with the highest number among those that ran.
  ghost predicate LatestWins(s: State) {
    && (forall e :: e in s.executed ==> e.place <= s.tracker.watchSeq)
    && (if s.executed == [] then s.tracker.watchSeq == 0 && !s.tracker.watched
        else Intent(s.tracker.watchSeq, s.tracker.watched) in s.executed)
    && (s.tracker.polling <==> s.tracker.watched)
  }

  // ---- publishing -----------------------------------------------------------------------------

  ghost predicate Announced(s: State, version: nat) {
    || (s.refresher.ToPublish? && s.refresher.stamp.version == version)
    || exists i :: 0 <= i < |s.published| && s.published[i].version == version
  }

  // Published versions ascend, and while a watch holds none after its start is missing.
  ghost predicate PublishSound(s: State) {
    && s.tracker.epoch <= s.tracker.version
    && (forall i, j :: 0 <= i < j < |s.published| ==> s.published[i].version < s.published[j].version)
    && (forall i :: 0 <= i < |s.published| ==>
          && s.published[i].epoch <= s.published[i].version <= s.tracker.version
          && (s.refresher.ToPublish? ==> s.published[i].version < s.refresher.stamp.version))
    && (s.refresher.ToPublish? ==> s.refresher.stamp.epoch <= s.refresher.stamp.version <= s.tracker.version)
    && (s.tracker.watched ==> s.since <= s.tracker.version)
    && (s.tracker.watched ==> forall v: nat :: s.since < v <= s.tracker.version ==> Announced(s, v))
  }

  ghost predicate Inv(s: State) {
    OrderSound(s) && LatestWins(s) && PublishSound(s)
  }

  lemma {:induction false} OrderStep(s: State, step: Step)
    requires OrderSound(s) && Enabled(s, step)
    ensures OrderSound(Next(s, step))
  {
    hide Refreshed;
  }

  lemma {:induction false} LatestStep(s: State, step: Step)
    requires OrderSound(s) && LatestWins(s) && Enabled(s, step)
    ensures LatestWins(Next(s, step))
  {
  }

  lemma {:induction false} StaysAnnounced(s: State, step: Step, version: nat)
    requires Enabled(s, step) && Announced(s, version)
    ensures Announced(Next(s, step), version)
  {
    var t := Next(s, step);
    if step.Publish? && s.refresher.stamp.version == version {
      assert t.published[|s.published|].version == version;
    } else if i :| 0 <= i < |s.published| && s.published[i].version == version {
      assert t.published[i].version == version;
    }
  }

  lemma {:induction false} PublishStep(s: State, step: Step)
    requires PublishSound(s) && Enabled(s, step)
    ensures PublishSound(Next(s, step))
  {
    var t := Next(s, step);
    forall v: nat | t.tracker.watched && t.since < v <= t.tracker.version ensures Announced(t, v) {
      if s.tracker.watched && v <= s.tracker.version {
        StaysAnnounced(s, step, v);
      }
    }
  }

  // ---- whole runs -----------------------------------------------------------------------------

  function Run(s: State, steps: seq<Step>): State
    decreases |steps|
  {
    if steps == [] then s
    else if Enabled(s, steps[0]) then Run(Next(s, steps[0]), steps[1..])
    else Run(s, steps[1..])
  }

  lemma StartIsSound()
    ensures Inv(START)
  {
  }

  // Under every interleaving: the latest call wins, the published versions ascend, and the epoch
  // never passes the version.
  lemma {:induction false} RunKeepsInv(s: State, steps: seq<Step>)
    requires Inv(s)
    ensures Inv(Run(s, steps))
    decreases |steps|
  {
    hide OrderSound, LatestWins, PublishSound, Next, Enabled;
    if steps != [] {
      if Enabled(s, steps[0]) {
        OrderStep(s, steps[0]);
        LatestStep(s, steps[0]);
        PublishStep(s, steps[0]);
        RunKeepsInv(Next(s, steps[0]), steps[1..]);
      } else {
        RunKeepsInv(s, steps[1..]);
      }
    }
  }

  // A read of the tunnel, with what was asked for as it began.
  datatype Reading = Reading(change: Change, now: Snapshot)

  // The readings a run takes in, in order.
  ghost function TakenIn(s: State, steps: seq<Step>): seq<Reading>
    decreases |steps|
  {
    if steps == [] then [] else
    var rest := TakenIn(if Enabled(s, steps[0]) then Next(s, steps[0]) else s, steps[1..]);
    if steps[0].TakeIn? && s.refresher.HasRead? then [Reading(s.refresher.change, s.refresher.now)] + rest else rest
  }

  // The readings it begins, each where none is under way.
  ghost function Begun(s: State, steps: seq<Step>): seq<Reading>
    decreases |steps|
  {
    if steps == [] then [] else
    var rest := Begun(if Enabled(s, steps[0]) then Next(s, steps[0]) else s, steps[1..]);
    if steps[0].Read? && s.refresher.Idle? then [Reading(steps[0].change, steps[0].now)] + rest else rest
  }

  ghost function UnderWay(s: State): seq<Reading> {
    if s.refresher.HasRead? then [Reading(s.refresher.change, s.refresher.now)] else []
  }

  // Every reading begun is taken in, in order, but for one still under way.
  lemma {:induction false} EveryReadingIsTakenIn(s: State, steps: seq<Step>)
    ensures UnderWay(s) + Begun(s, steps) == TakenIn(s, steps) + UnderWay(Run(s, steps))
    decreases |steps|
  {
    if steps != [] {
      var next := if Enabled(s, steps[0]) then Next(s, steps[0]) else s;
      EveryReadingIsTakenIn(next, steps[1..]);
      assert UnderWay(s) + Begun(s, steps) ==
             (if steps[0].TakeIn? then UnderWay(s) else []) + (UnderWay(next) + Begun(next, steps[1..]));
    }
  }

  // What a step dispatches, if it does: a call for the watch or against it, as a stop is.
  function Wanted(step: Step): seq<bool> {
    if step.Dispatch? then [step.watch] else if step.Stop? then [false] else []
  }

  ghost function Wants(steps: seq<Step>): seq<bool> {
    if steps == [] then [] else Wanted(steps[0]) + Wants(steps[1..])
  }

  ghost predicate Known(s: State, call: Intent) { call in s.waiting || call in s.executed }

  lemma CallStep(s: State, step: Step)
    requires Enabled(s, step)
    ensures Next(s, step).nextSeq == s.nextSeq + |Wanted(step)|
    ensures forall call :: Known(Next(s, step), call) <==>
              Known(s, call) || (call.place == s.nextSeq + 1 && Wanted(step) == [call.watch])
  {
    hide Refreshed;
  }

  // The n-th call dispatched has number n, and from then on waits or has run; there are no others.
  lemma {:induction false} EveryCallHasItsPlace(s: State, steps: seq<Step>)
    ensures var t, wants := Run(s, steps), Wants(steps);
            && t.nextSeq == s.nextSeq + |wants|
            && forall call :: Known(t, call) <==>
                 || Known(s, call)
                 || (s.nextSeq < call.place <= t.nextSeq && wants[call.place - s.nextSeq - 1] == call.watch)
    decreases |steps|
  {
    if steps != [] {
      if Enabled(s, steps[0]) {
        CallStep(s, steps[0]);
        EveryCallHasItsPlace(Next(s, steps[0]), steps[1..]);
      } else {
        EveryCallHasItsPlace(s, steps[1..]);
      }
      hide Next, Enabled, Known;
      assert Enabled(s, steps[0]) || Wanted(steps[0]) == [] by {
        StopsAndCallsGoOut(s, steps[0]);
      }
    }
  }

  lemma StopsAndCallsGoOut(s: State, step: Step)
    ensures Wanted(step) != [] ==> Enabled(s, step)
  {
  }

  // Each that waits may run at any time, and then no longer waits.
  lemma EveryCallMayRun(s: State, call: Intent)
    requires call in s.waiting
    ensures Enabled(s, RunWatch(call))
    ensures var t := Next(s, RunWatch(call)); call !in t.waiting && t.executed == s.executed + [call]
  {
  }

  // How many of some readings were begun with a reset.
  ghost function Resets(readings: seq<Reading>): nat {
    if readings == [] then 0 else (if readings[0].change == Reset then 1 else 0) + Resets(readings[1..])
  }

  // How many were begun with a move or a reset, or show other picks, providers or rule sets than the one
  // before; the first is compared with what the tracker last read, if it did.
  ghost function Moves(t: Tracker, readings: seq<Reading>): nat
    decreases |readings|
  {
    if readings == [] then 0 else
    var now := readings[0].now;
    (if readings[0].change == Unchanged && AsLastRead(t, now) then 0 else 1) +
    Moves(t.(picks := now.picks, providers := Some(now.providers), ruleSets := Some(now.ruleSets)), readings[1..])
  }

  // Taking a reading in: the epoch counts it if it was begun with a reset, the version if it was begun
  // with a change or shows one; a watched tracker then has just the moved stamp to publish.
  lemma {:induction false} TakeInMovesTheStamp(s: State)
    requires s.refresher.HasRead?
    ensures Enabled(s, TakeIn)
    ensures var t, asked, now := Next(s, TakeIn), s.refresher.change, s.refresher.now;
            && t.tracker.epoch == s.tracker.epoch + (if asked == Reset then 1 else 0)
            && t.tracker.version ==
               s.tracker.version + (if asked == Unchanged && AsLastRead(s.tracker, now) then 0 else 1)
            && t.tracker.picks == now.picks && t.tracker.providers == Some(now.providers)
            && t.tracker.ruleSets == Some(now.ruleSets)
            && t.refresher == (if s.tracker.watched && t.tracker.version > s.tracker.version
                               then ToPublish(Stamp(t.tracker.epoch, t.tracker.version)) else Idle)
  {
  }

  // No other step moves it, or what was last read.
  lemma OthersKeepTheStamp(s: State, step: Step)
    requires Enabled(s, step) && !step.TakeIn?
    ensures var t := Next(s, step).tracker;
            && t.epoch == s.tracker.epoch && t.version == s.tracker.version && t.picks == s.tracker.picks
            && t.providers == s.tracker.providers && t.ruleSets == s.tracker.ruleSets
    ensures Next(s, step).published == s.published + if step.Publish? then [s.refresher.stamp] else []
  {
  }

  lemma {:induction false} MovesAreOfWhatWasRead(t: Tracker, u: Tracker, readings: seq<Reading>)
    requires u.picks == t.picks && u.providers == t.providers && u.ruleSets == t.ruleSets
    ensures Moves(u, readings) == Moves(t, readings)
    decreases |readings|
  {
    if readings != [] {
      var now := readings[0].now;
      MovesAreOfWhatWasRead(t.(picks := now.picks, providers := Some(now.providers), ruleSets := Some(now.ruleSets)),
                            u.(picks := now.picks, providers := Some(now.providers), ruleSets := Some(now.ruleSets)),
                            readings[1..]);
    }
  }

  // Over any run the epoch counts the resets taken in and the version the moves.
  lemma {:induction false} StampsCountChanges(s: State, steps: seq<Step>)
    ensures var t, readings := Run(s, steps).tracker, TakenIn(s, steps);
            && t.version == s.tracker.version + Moves(s.tracker, readings)
            && t.epoch == s.tracker.epoch + Resets(readings)
    decreases |steps|
  {
    if steps != [] {
      if Enabled(s, steps[0]) {
        var next := Next(s, steps[0]);
        StampsCountChanges(next, steps[1..]);
        var rest := TakenIn(next, steps[1..]);
        if steps[0].TakeIn? {
          var now := s.refresher.now;
          TakeInMovesTheStamp(s);
          assert TakenIn(s, steps) == [Reading(s.refresher.change, now)] + rest;
          assert TakenIn(s, steps)[1..] == rest;
          hide Next, Run;
          MovesAreOfWhatWasRead(s.tracker.(picks := now.picks, providers := Some(now.providers),
                                           ruleSets := Some(now.ruleSets)), next.tracker, rest);
        } else {
          OthersKeepTheStamp(s, steps[0]);
          MovesAreOfWhatWasRead(s.tracker, next.tracker, rest);
        }
      } else {
        StampsCountChanges(s, steps[1..]);
      }
    }
  }

  // A run leaves the stamp as it was exactly if every reading it took in was begun without a change and
  // shows just what was last read.
  lemma {:induction false} EqualStampsHideNothing(s: State, steps: seq<Step>)
    ensures var t := Run(s, steps).tracker;
            Stamp(t.epoch, t.version) == Stamp(s.tracker.epoch, s.tracker.version) <==>
            Moves(s.tracker, TakenIn(s, steps)) == 0
    ensures Moves(s.tracker, TakenIn(s, steps)) == 0 ==>
              forall i :: 0 <= i < |TakenIn(s, steps)| ==>
                TakenIn(s, steps)[i].change == Unchanged && AsLastRead(s.tracker, TakenIn(s, steps)[i].now)
  {
    StampsCountChanges(s, steps);
    if Moves(s.tracker, TakenIn(s, steps)) == 0 {
      NoMovesNoResets(s.tracker, TakenIn(s, steps));
    }
  }

  lemma {:induction false} NoMovesNoResets(t: Tracker, readings: seq<Reading>)
    requires Moves(t, readings) == 0
    ensures Resets(readings) == 0
    ensures forall i :: 0 <= i < |readings| ==> readings[i].change == Unchanged && AsLastRead(t, readings[i].now)
    decreases |readings|
  {
    if readings != [] {
      var now := readings[0].now;
      var next := t.(picks := now.picks, providers := Some(now.providers), ruleSets := Some(now.ruleSets));
      NoMovesNoResets(next, readings[1..]);
      forall i | 0 < i < |readings|
        ensures readings[i].change == Unchanged && AsLastRead(t, readings[i].now)
      {
        assert readings[i] == readings[1..][i - 1];
      }
    }
  }

  lemma {:induction false} ExecutedStays(s: State, steps: seq<Step>, call: Intent)
    requires call in s.executed
    ensures call in Run(s, steps).executed
    decreases |steps|
  {
    if steps != [] {
      if Enabled(s, steps[0]) {
        assert call in Next(s, steps[0]).executed;
        ExecutedStays(Next(s, steps[0]), steps[1..], call);
      } else {
        ExecutedStays(s, steps[1..], call);
      }
    }
  }

  // A stop is undone only by a watch dispatched after it, however late an earlier one runs.
  lemma {:induction false} StopIsNotUndone(s: State, steps: seq<Step>)
    requires Inv(s)
    ensures var stopped := Next(s, Stop);
            var t := Run(stopped, steps);
            t.tracker.watched ==> Intent(t.tracker.watchSeq, true) in t.executed && t.tracker.watchSeq > stopped.nextSeq
  {
    var stopped := Next(s, Stop);
    var stop := Intent(stopped.nextSeq, false);
    OrderStep(s, Stop);
    LatestStep(s, Stop);
    PublishStep(s, Stop);
    RunKeepsInv(stopped, steps);
    assert stopped.executed[|s.executed|] == stop;
    ExecutedStays(stopped, steps, stop);
    var t := Run(stopped, steps);
    if t.tracker.watched {
      var now := Intent(t.tracker.watchSeq, true);
      var i :| 0 <= i < |t.executed| && t.executed[i] == now;
      var j :| 0 <= j < |t.executed| && t.executed[j] == stop;
    }
  }

  // The watch holds all the way through a run.
  ghost predicate Holds(s: State, steps: seq<Step>)
    decreases |steps|
  {
    s.tracker.watched &&
    (steps != [] ==> Holds(if Enabled(s, steps[0]) then Next(s, steps[0]) else s, steps[1..]))
  }

  lemma {:induction false} SinceStays(s: State, steps: seq<Step>)
    requires Holds(s, steps)
    ensures Run(s, steps).since == s.since && Run(s, steps).tracker.watched
    decreases |steps|
  {
    if steps != [] {
      if Enabled(s, steps[0]) {
        SinceStays(Next(s, steps[0]), steps[1..]);
      } else {
        SinceStays(s, steps[1..]);
      }
    }
  }

  // Whoever was told version v by a watch call is told every later version while the watch holds.
  lemma {:induction false} WatchMissesNothing(s: State, call: Intent, steps: seq<Step>, v: nat)
    requires Inv(s) && Enabled(s, RunWatch(call))
    requires var told := Next(s, RunWatch(call)); Holds(told, steps)
    requires Next(s, RunWatch(call)).tracker.version < v <= Run(Next(s, RunWatch(call)), steps).tracker.version
    ensures Announced(Run(Next(s, RunWatch(call)), steps), v)
  {
    var told := Next(s, RunWatch(call));
    OrderStep(s, RunWatch(call));
    LatestStep(s, RunWatch(call));
    PublishStep(s, RunWatch(call));
    RunKeepsInv(told, steps);
    SinceStays(told, steps);
  }
}
