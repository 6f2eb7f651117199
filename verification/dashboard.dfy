/**
 The dashboard's state (`useDashboardData` in src/pages/DashboardPage.tsx):
 the aggregate statistics with the weekly activity, and the loading flag.
 Both the statistics fetch and the `update_stats` push map their payload
 onto the state the same way and replace it wholesale.

 The network round trip of a fetch is reduced to its outcome, the wall clock
 to a `now` parameter, and `new Date(apiData.lastUpdated)` to the parameter
 `parseDate`. Amounts are `real` (kilograms).
 */
module Dashboard {
  import opened Wrappers

  datatype Percentage = Percentage(organik: real, anorganik: real)

  datatype StatData = StatData(total: real, organik: real, anorganik: real, percentage: Percentage)

  datatype WeeklyActivity = WeeklyActivity(day: string, amount: real)

  datatype DashboardData = DashboardData(stats: StatData, weeklyActivity: seq<WeeklyActivity>, lastUpdated: int)

  /** The body of `GET /api/stats` and of an `update_stats` push. */
  datatype StatsPayload = StatsPayload(stats: StatData, weeklyActivity: seq<WeeklyActivity>, lastUpdated: string)

  datatype DashboardState = DashboardState(data: DashboardData, isLoading: bool)

  /** Outcome of `GET /api/stats`: the payload, or any failure. */
  datatype FetchOutcome = Fetched(apiData: StatsPayload) | FetchFailed

  /** The placeholder shown before any data arrives: all statistics zero and
      seven weekly entries, each `('-', 0)`. */
  function InitialData(now: int): (d: DashboardData)
    ensures d.stats.total == 0.0 && d.stats.organik == 0.0 && d.stats.anorganik == 0.0
    ensures d.stats.percentage.organik == 0.0 && d.stats.percentage.anorganik == 0.0
    ensures |d.weeklyActivity| == 7
    ensures forall i :: 0 <= i < 7 ==> d.weeklyActivity[i] == WeeklyActivity("-", 0.0)
    ensures d.lastUpdated == now
  {
    DashboardData(StatData(0.0, 0.0, 0.0, Percentage(0.0, 0.0)),
                  seq(7, _ => WeeklyActivity("-", 0.0)),
                  now)
  }

  /** The hook's first state: placeholder data, loading. */
  function Initial(now: int): (s: DashboardState)
    ensures s.data == InitialData(now) && s.isLoading
  {
    DashboardState(InitialData(now), true)
  }

  /** The payload-to-state mapping shared by the fetch and the push: every
      field comes from the payload. */
  function FromPayload(p: StatsPayload, parseDate: string -> int): (d: DashboardData)
    ensures d.stats == p.stats && d.weeklyActivity == p.weeklyActivity
    ensures d.lastUpdated == parseDate(p.lastUpdated)
  {
    DashboardData(p.stats, p.weeklyActivity, parseDate(p.lastUpdated))
  }

  /** Entry of `fetchData`: only a non-manual fetch shows the loader. */
  function BeginFetch(s: DashboardState, isManualRefresh: bool): (r: DashboardState)
    ensures r.data == s.data
    ensures r.isLoading == (if isManualRefresh then s.isLoading else true)
  {
    if isManualRefresh then s else s.(isLoading := true)
  }

  /** Completion of `fetchData`: the data is replaced on success and kept on
      failure; only a non-manual fetch hides the loader again. */
  function CompleteFetch(s: DashboardState, isManualRefresh: bool, outcome: FetchOutcome, parseDate: string -> int)
    : (r: DashboardState)
    ensures outcome.FetchFailed? ==> r.data == s.data
    ensures outcome.Fetched? ==> r.data == FromPayload(outcome.apiData, parseDate)
    ensures r.isLoading == (if isManualRefresh then s.isLoading else false)
  {
    var data := if outcome.Fetched? then FromPayload(outcome.apiData, parseDate) else s.data;
    DashboardState(data, if isManualRefresh then s.isLoading else false)
  }

  /** A whole `fetchData(isManualRefresh)`, seen from its start to its end. */
  function FetchData(s: DashboardState, isManualRefresh: bool, outcome: FetchOutcome, parseDate: string -> int)
    : (r: DashboardState)
    ensures outcome.FetchFailed? ==> r.data == s.data
    ensures outcome.Fetched? ==> r.data == FromPayload(outcome.apiData, parseDate)
    ensures isManualRefresh ==> r.isLoading == s.isLoading
    ensures !isManualRefresh ==> !r.isLoading
  {
    CompleteFetch(BeginFetch(s, isManualRefresh), isManualRefresh, outcome, parseDate)
  }

  /** `handleUpdateStats`: the data is replaced wholesale by the payload;
      the loading flag is not touched. */
  function HandleUpdateStats(s: DashboardState, apiData: StatsPayload, parseDate: string -> int): (r: DashboardState)
    ensures r.data == FromPayload(apiData, parseDate)
    ensures r.isLoading == s.isLoading
  {
    s.(data := FromPayload(apiData, parseDate))
  }

  /** Nothing of the previous data survives a push: any two states receiving
      the same payload end with the same data. */
  lemma PushForgetsPreviousData(s1: DashboardState, s2: DashboardState, apiData: StatsPayload, parseDate: string -> int)
    ensures HandleUpdateStats(s1, apiData, parseDate).data == HandleUpdateStats(s2, apiData, parseDate).data
  {
  }

  /** A successful fetch and a push of the same payload give the same data;
      for a manual refresh, which leaves the loader alone, the same state. */
  lemma FetchAgreesWithPush(s: DashboardState, isManualRefresh: bool, apiData: StatsPayload, parseDate: string -> int)
    ensures FetchData(s, isManualRefresh, Fetched(apiData), parseDate).data
         == HandleUpdateStats(s, apiData, parseDate).data
    ensures isManualRefresh ==>
              FetchData(s, isManualRefresh, Fetched(apiData), parseDate) == HandleUpdateStats(s, apiData, parseDate)
  {
  }

  /** What can happen to the hook: a complete fetch (on mount, or manual), or a push. */
  datatype Event =
    | Fetch(isManualRefresh: bool, outcome: FetchOutcome)
    | UpdateStats(apiData: StatsPayload)

  function Step(s: DashboardState, e: Event, parseDate: string -> int): DashboardState
  {
    match e
    case Fetch(manual, outcome) => FetchData(s, manual, outcome, parseDate)
    case UpdateStats(apiData) => HandleUpdateStats(s, apiData, parseDate)
  }

  /** The state after handling `events` in order. */
  function Run(s: DashboardState, events: seq<Event>, parseDate: string -> int): DashboardState
    decreases |events|
  {
    if events == [] then s else Run(Step(s, events[0], parseDate), events[1..], parseDate)
  }

  /** Running `events + [e]` is stepping `e` from the state `Run` reaches after `events`. */
  lemma {:induction false} RunSnoc(s: DashboardState, events: seq<Event>, e: Event, parseDate: string -> int)
    ensures Run(s, events + [e], parseDate) == Step(Run(s, events, parseDate), e, parseDate)
    decreases |events|
  {
    if events == [] {
      assert [] + [e] == [e];
    } else {
      assert (events + [e])[1..] == events[1..] + [e];
      RunSnoc(Step(s, events[0], parseDate), events[1..], e, parseDate);
    }
  }

  /** The payload of the most recent push or successful fetch in `events`, if any. */
  function LastPayload(events: seq<Event>): Option<StatsPayload>
  {
    if events == [] then None
    else match events[|events| - 1]
      case UpdateStats(p) => Some(p)
      case Fetch(_, Fetched(p)) => Some(p)
      case Fetch(_, FetchFailed) => LastPayload(events[..|events| - 1])
  }

  /** Last writer wins: the data shown is the mapping of the most recent
      payload that arrived, by push or by successful fetch; failed fetches
      leave no trace, and without any payload the data is the starting one. */
  lemma {:induction false} DataIsLastPayload(s: DashboardState, events: seq<Event>, parseDate: string -> int)
    ensures Run(s, events, parseDate).data
         == (match LastPayload(events)
             case Some(p) => FromPayload(p, parseDate)
             case None => s.data)
    decreases |events|
  {
    if events != [] {
      var init, e := events[..|events| - 1], events[|events| - 1];
      assert events == init + [e];
      RunSnoc(s, init, e, parseDate);
      DataIsLastPayload(s, init, parseDate);
    }
  }

  /** Whether `events` contains a non-manual fetch. */
  predicate HasAutomaticFetch(events: seq<Event>)
  {
    exists i :: 0 <= i < |events| && events[i].Fetch? && !events[i].isManualRefresh
  }

  /** Only a non-manual fetch touches the loading flag, and it always leaves
      it off, whether the fetch succeeded or not; pushes and manual refreshes
      never change it. */
  lemma {:induction false} LoadingOnlyByAutomaticFetch(s: DashboardState, events: seq<Event>, parseDate: string -> int)
    ensures Run(s, events, parseDate).isLoading == (s.isLoading && !HasAutomaticFetch(events))
    decreases |events|
  {
    if events != [] {
      var init, e := events[..|events| - 1], events[|events| - 1];
      assert events == init + [e];
      RunSnoc(s, init, e, parseDate);
      LoadingOnlyByAutomaticFetch(s, init, parseDate);
      assert forall i :: 0 <= i < |init| ==> init[i] == events[i];
      if e.Fetch? && !e.isManualRefresh {
        assert HasAutomaticFetch(events) by { assert events[|events| - 1] == e; }
      } else {
        assert HasAutomaticFetch(events) == HasAutomaticFetch(init) by {
          if HasAutomaticFetch(events) {
            var i :| 0 <= i < |events| && events[i].Fetch? && !events[i].isManualRefresh;
            assert i < |init|;
          }
        }
      }
    }
  }
}
