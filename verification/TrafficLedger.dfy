/** The ledger of watched requests whose traffic is reported until each is seen closed. */
module TrafficLedger {
  import opened Options

  const CLOSE_RETRIES := 5

  datatype Totals = Totals(upload: nat, download: nat)

  // A request's entry. The tracker's running totals are read from outside, through a function.
  datatype Watched = Watched(tracker: nat, recorded: Totals, isFresh: bool, closedReports: nat)

  datatype Report = Report(id: string, totals: Totals)

  type Requests = map<string, Watched>

  // ---- one collect, on values -----------------------------------------------------------------

  // An entry after one more sweep saw it: once counted closed it stays so, and its first sweep counts nothing.
  function Seen(w: Watched, isOpen: bool): Watched {
    var closed := w.closedReports > 0 || (!w.isFresh && !isOpen);
    w.(isFresh := false, closedReports := if closed then w.closedReports + 1 else w.closedReports)
  }

  predicate Changed(w: Watched, totals: nat -> Totals) { totals(w.tracker) != w.recorded }

  function Settled(w: Watched, totals: nat -> Totals, queued: bool): Watched {
    if queued then w.(recorded := totals(w.tracker)) else w
  }

  predicate Dropped(w: Watched, queued: bool) {
    w.closedReports > 0 && (queued || w.closedReports > CLOSE_RETRIES)
  }

  function Collected(requests: Requests, open: set<string>, totals: nat -> Totals, queued: bool): Requests {
    map id | id in requests && !Dropped(Seen(requests[id], id in open), queued) ::
      Settled(Seen(requests[id], id in open), totals, queued)
  }

  // The reports name every changed request once, and nothing else.
  ghost predicate ReportsExactly(reports: seq<Report>, requests: Requests, totals: nat -> Totals) {
    && (forall id: string, t: Totals :: Report(id, t) in reports <==>
          id in requests && Changed(requests[id], totals) && t == totals(requests[id].tracker))
    && (forall i, j :: 0 <= i < j < |reports| ==> reports[i].id != reports[j].id)
  }

  // ---- the history ----------------------------------------------------------------------------

  datatype Event =
    | Added(id: string, totals: Totals)
    | Swept(open: set<string>, reports: seq<Report>, queued: bool)
    | Cleared

  ghost function Reported(reports: seq<Report>, id: string): Option<Totals> {
    if reports == [] then None
    else if reports[0].id == id then Some(reports[0].totals)
    else Reported(reports[1..], id)
  }

  // The totals at the last add of a request, or the last ones the queue accepted since.
  ghost function LastTold(history: seq<Event>, id: string): Option<Totals> {
    if history == [] then None else
    var before := LastTold(history[..|history| - 1], id);
    match history[|history| - 1]
    case Added(other, totals) => if other == id then Some(totals) else before
    case Swept(_, reports, queued) => if queued && Reported(reports, id).Some? then Reported(reports, id) else before
    case Cleared => None
  }

  // How many sweeps there were since a request was added.
  ghost function Sweeps(history: seq<Event>, id: string): nat {
    if history == [] then 0 else
    match history[|history| - 1]
    case Added(other, _) => if other == id then 0 else Sweeps(history[..|history| - 1], id)
    case Swept(_, _, _) => Sweeps(history[..|history| - 1], id) + 1
    case Cleared => 0
  }

  // How many of them since it was first seen closed, that one counted; its first sweep sees nothing.
  ghost function SweepsClosed(history: seq<Event>, id: string): nat {
    if history == [] then 0 else
    var rest := history[..|history| - 1];
    match history[|history| - 1]
    case Added(other, _) => if other == id then 0 else SweepsClosed(rest, id)
    case Swept(open, _, _) =>
      if SweepsClosed(rest, id) > 0 || (Sweeps(rest, id) > 0 && id !in open) then SweepsClosed(rest, id) + 1 else 0
    case Cleared => 0
  }

  // Every entry agrees with the history.
  ghost predicate Agrees(requests: Requests, history: seq<Event>) {
    forall id :: id in requests ==>
      && LastTold(history, id) == Some(requests[id].recorded)
      && (requests[id].isFresh <==> Sweeps(history, id) == 0)
      && requests[id].closedReports == SweepsClosed(history, id) <= CLOSE_RETRIES
  }

  lemma OneMoreEvent(history: seq<Event>, event: Event)
    ensures (history + [event])[..|history|] == history && (history + [event])[|history|] == event
  {
  }

  lemma {:induction false} ReportedExactly(reports: seq<Report>, id: string)
    ensures Reported(reports, id).Some? ==> Report(id, Reported(reports, id).value) in reports
    ensures Reported(reports, id).None? ==> forall t: Totals :: Report(id, t) !in reports
  {
    if reports != [] {
      ReportedExactly(reports[1..], id);
    }
  }

  lemma TotalsRecorded(requests: Requests, open: set<string>, totals: nat -> Totals, queued: bool)
    ensures forall id :: id in Collected(requests, open, totals, queued) ==>
              var left := Collected(requests, open, totals, queued)[id];
              && id in requests && left.tracker == requests[id].tracker
              && left.recorded == if queued then totals(requests[id].tracker) else requests[id].recorded
  {
  }

  lemma {:induction false} SweepAgrees(requests: Requests, history: seq<Event>, open: set<string>, reports: seq<Report>,
                                       totals: nat -> Totals, queued: bool)
    requires Agrees(requests, history) && ReportsExactly(reports, requests, totals)
    ensures Agrees(Collected(requests, open, totals, queued), history + [Swept(open, reports, queued)])
    // An entry stays exactly if it was not seen closed by now, or was in at most five sweeps since and the
    // queue did not accept; the latest totals of every entry are told if the queue accepts, and none are
    // otherwise.
    ensures var now, left := history + [Swept(open, reports, queued)], Collected(requests, open, totals, queued);
            forall id :: id in left <==>
              id in requests && (SweepsClosed(now, id) == 0 || (!queued && SweepsClosed(now, id) <= 5))
    ensures var now := history + [Swept(open, reports, queued)];
            forall id :: id in requests ==>
              LastTold(now, id) == if queued then Some(totals(requests[id].tracker)) else LastTold(history, id)
  {
    var now := history + [Swept(open, reports, queued)];
    OneMoreEvent(history, Swept(open, reports, queued));
    forall id | id in requests
      ensures LastTold(now, id) == Some(if queued then totals(requests[id].tracker) else requests[id].recorded)
    {
      ReportedExactly(reports, id);
      assert Report(id, totals(requests[id].tracker)) in reports <==> Changed(requests[id], totals);
    }
  }

  // A sweep reports just the entries whose totals are not the ones last told.
  lemma {:induction false} ReportsAreNews(requests: Requests, history: seq<Event>, reports: seq<Report>,
                                          totals: nat -> Totals, id: string, t: Totals)
    requires Agrees(requests, history) && ReportsExactly(reports, requests, totals)
    ensures Report(id, t) in reports <==>
            id in requests && t == totals(requests[id].tracker) && LastTold(history, id) != Some(t)
  {
  }

  // A request counts as closed from the second sweep after its add on that does not find it open, and its
  // closed sweeps are then counted one by one; an add starts afresh.
  lemma {:induction false} ClosedFromItsSecondSweep(history: seq<Event>, id: string, t: Totals, open: set<string>,
                                                    reports: seq<Report>, queued: bool)
    requires id !in open
    ensures var sweep, added := Swept(open, reports, queued), history + [Added(id, t)];
            && SweepsClosed(added, id) == 0 && SweepsClosed(added + [sweep], id) == 0
            && SweepsClosed(added + [sweep] + [sweep], id) == 1
    ensures SweepsClosed(history, id) > 0 ==>
              forall anew :: SweepsClosed(history + [Swept(anew, reports, queued)], id) == SweepsClosed(history, id) + 1
  {
    var sweep, added := Swept(open, reports, queued), history + [Added(id, t)];
    OneMoreEvent(history, Added(id, t));
    OneMoreEvent(added, sweep);
    OneMoreEvent(added + [sweep], sweep);
    forall anew | SweepsClosed(history, id) > 0
      ensures SweepsClosed(history + [Swept(anew, reports, queued)], id) == SweepsClosed(history, id) + 1
    {
      OneMoreEvent(history, Swept(anew, reports, queued));
    }
  }

  // While a request is found open, and it was not seen closed before, it does not count as closed.
  lemma {:induction false} OpenIsNotClosed(history: seq<Event>, id: string, open: set<string>, reports: seq<Report>,
                                           queued: bool)
    requires id in open && SweepsClosed(history, id) == 0
    ensures SweepsClosed(history + [Swept(open, reports, queued)], id) == 0
  {
    OneMoreEvent(history, Swept(open, reports, queued));
  }

  lemma {:induction false} AddAgrees(requests: Requests, history: seq<Event>, id: string, tracker: nat, totals: Totals)
    requires Agrees(requests, history)
    ensures Agrees(requests[id := Watched(tracker, totals, true, 0)], history + [Added(id, totals)])
  {
    OneMoreEvent(history, Added(id, totals));
  }

  ghost predicate Told(reports: seq<Report>, id: string) {
    exists i :: 0 <= i < |reports| && reports[i].id == id
  }

  lemma TellOne(reports: seq<Report>, report: Report)
    ensures forall id: string :: Told(reports + [report], id) <==> Told(reports, id) || id == report.id
  {
    var more := reports + [report];
    assert more[|reports|] == report;
    forall id: string | Told(reports, id) ensures Told(more, id) {
      var i :| 0 <= i < |reports| && reports[i].id == id;
      assert more[i].id == id;
    }
  }

  lemma ToldIfReported(reports: seq<Report>, id: string, t: Totals)
    ensures Report(id, t) in reports ==> Told(reports, id)
  {
  }

  // ---- the ledger -----------------------------------------------------------------------------

  class Ledger {
    var requests: Requests
    var running: bool
    ghost var history: seq<Event>
    ghost var runners: nat  // runners that will collect again

    // At most one runner, exactly while `running` is set, which is while a request is watched.
    ghost predicate Valid()
      reads this
    {
      && Agrees(requests, history)
      && (running <==> requests != map[]) && runners == (if running then 1 else 0)
    }

    constructor ()
      ensures Valid() && requests == map[] && history == []
    {
      requests, running := map[], false;
      history, runners := [], 0;
    }

    // Watches a request from its current totals on; the caller starts a runner if told to.
    method Add(id: string, tracker: nat, totals: nat -> Totals) returns (start: bool)
      requires Valid()
      modifies this
      ensures Valid() && history == old(history) + [Added(id, totals(tracker))]
      ensures requests == old(requests)[id := Watched(tracker, totals(tracker), true, 0)]
      ensures start <==> old(runners) == 0
    {
      AddAgrees(requests, history, id, tracker, totals(tracker));
      requests := requests[id := Watched(tracker, totals(tracker), true, 0)];
      assert id in requests;
      history := history + [Added(id, totals(tracker))];
      start := !running;
      running := true;
      runners := runners + if start then 1 else 0;
    }

    // Takes the reported totals over.
    method Record(changed: seq<Report>, ghost open: set<string>, ghost totals: nat -> Totals, ghost start: Requests)
      requires ReportsExactly(changed, start, totals) && requests.Keys == start.Keys
      requires forall id :: id in start ==> requests[id] == Seen(start[id], id in open)
      modifies `requests
      ensures requests.Keys == start.Keys
      ensures forall id :: id in start ==> requests[id] == Settled(Seen(start[id], id in open), totals, true)
    {
      for i := 0 to |changed|
        invariant requests.Keys == start.Keys
        invariant forall id :: id in start ==>
                    requests[id] == Settled(Seen(start[id], id in open), totals, Told(changed[..i], id))
      {
        var report := changed[i];
        assert Report(report.id, report.totals) in changed;
        assert changed[..i + 1] == changed[..i] + [report];
        TellOne(changed[..i], report);
        requests := requests[report.id := requests[report.id].(recorded := report.totals)];
      }
      assert changed[..|changed|] == changed;
      forall id | id in start && !Told(changed, id) ensures start[id].recorded == totals(start[id].tracker) {
        ToldIfReported(changed, id, totals(start[id].tracker));
      }
    }

    // Lets go of closed requests that are reported, or were retried often enough.
    method Drop(ghost open: set<string>, ghost totals: nat -> Totals, queued: bool, ghost start: Requests)
      requires requests.Keys == start.Keys
      requires forall id :: id in start ==> requests[id] == Settled(Seen(start[id], id in open), totals, queued)
      modifies `requests
      ensures requests == Collected(start, open, totals, queued)
    {
      var left := requests.Keys;
      while left != {}
        invariant left <= requests.Keys <= start.Keys
        invariant forall id :: id in start ==>
                    (id in requests <==> id in left || !Dropped(Seen(start[id], id in open), queued))
        invariant forall id :: id in requests ==> requests[id] == Settled(Seen(start[id], id in open), totals, queued)
        decreases |left|
      {
        var id :| id in left;
        left := left - {id};
        var request := requests[id];
        if request.closedReports > 0 && (queued || request.closedReports > CLOSE_RETRIES) {
          requests := requests - {id};
        }
      }
    }

    // Counts on for closed requests and gathers what changed.
    method Survey(open: set<string>, totals: nat -> Totals) returns (changed: seq<Report>)
      modifies `requests
      ensures requests.Keys == old(requests).Keys && ReportsExactly(changed, old(requests), totals)
      ensures forall id :: id in requests ==> requests[id] == Seen(old(requests)[id], id in open)
    {
      ghost var start := requests;
      changed := [];
      var left := requests.Keys;
      while left != {}
        invariant left <= start.Keys && requests.Keys == start.Keys
        invariant forall id :: id in start ==>
                    requests[id] == if id in left then start[id] else Seen(start[id], id in open)
        invariant forall id: string, t: Totals :: Report(id, t) in changed <==>
                    id in start && id !in left && Changed(start[id], totals) && t == totals(start[id].tracker)
        invariant forall i, j :: 0 <= i < j < |changed| ==> changed[i].id != changed[j].id
        decreases |left|
      {
        var id :| id in left;
        assert forall i :: 0 <= i < |changed| ==> Report(changed[i].id, changed[i].totals) in changed;
        left := left - {id};
        var request := requests[id];
        if request.closedReports > 0 || (!request.isFresh && id !in open) {
          request := request.(closedReports := request.closedReports + 1);
        }
        request := request.(isFresh := false);
        requests := requests[id := request];
        if totals(request.tracker) != request.recorded {
          changed := changed + [Report(id, totals(request.tracker))];
        }
      }
    }

    // One sweep over the entries: they are surveyed, the reports queued if there are any, and what is done
    // with is dropped.
    method Sweep(open: set<string>, totals: nat -> Totals, accepts: bool) returns (changed: seq<Report>, queued: bool)
      modifies `requests
      ensures ReportsExactly(changed, old(requests), totals) && queued == (changed == [] || accepts)
      ensures requests == Collected(old(requests), open, totals, queued)
    {
      hide ReportsExactly, Collected, Seen, Dropped;
      ghost var start := requests;
      changed := Survey(open, totals);
      queued := |changed| == 0 || accepts;
      if queued {
        Record(changed, open, totals, start);
      }
      Drop(open, totals, queued, start);
    }

    // One report, by the runner: `accepts` is the queue's answer, should it be asked. The runner goes
    // on while something is watched.
    method Collect(open: set<string>, totals: nat -> Totals, accepts: bool)
        returns (watching: bool, changed: seq<Report>)
      requires Valid() && running
      modifies this
      ensures Valid() && watching == running
      ensures ReportsExactly(changed, old(requests), totals)
      ensures requests == Collected(old(requests), open, totals, changed == [] || accepts)
      ensures forall id :: id in requests <==>
                && id in old(requests)
                && (SweepsClosed(history, id) == 0 || (changed != [] && !accepts && SweepsClosed(history, id) <= 5))
      ensures forall id :: id in requests ==>
                requests[id].recorded ==
                if changed == [] || accepts then totals(requests[id].tracker) else old(requests)[id].recorded
      ensures history == old(history) + [Swept(open, changed, changed == [] || accepts)]
    {
      hide ReportsExactly, Collected, Agrees, SweepsClosed, LastTold;
      ghost var start := requests;
      assert runners == 1;
      var queued;
      changed, queued := Sweep(open, totals, accepts);
      running := |requests| > 0;
      watching := running;
      runners := runners - if watching then 0 else 1;
      history := history + [Swept(open, changed, queued)];
      SweepAgrees(start, old(history), open, changed, totals, queued);
      TotalsRecorded(start, open, totals, queued);
    }

    // Nobody listens any more: the runner lets go of everything and ends.
    method Clear()
      requires Valid() && running
      modifies this
      ensures Valid() && !running && requests == map[] && history == old(history) + [Cleared]
    {
      requests := map[];
      running := false;
      history := history + [Cleared];
      runners := runners - 1;
    }
  }
}
