/**
 The state kept by the log page's data hook (`useLogData` in
 src/pages/LogPage.tsx) and the transitions that change it: the history
 fetch (initial load and the Refresh button), the `new_log` push, the
 socket's connect/disconnect signals, and the local Clear button.

 The list is plain: pushes are prepended as they come, with no
 de-duplication, sorting or buffering. A fetch's network round trip is
 reduced to its outcome, and the wall clock to a `now` parameter.
 */
module LogData {
  import opened Seqs
  import opened LogRecords

  datatype LogState = LogState(
    logs: seq<ClassificationLog>,
    isLoading: bool,
    isConnected: bool,
    lastUpdate: int)

  /** Outcome of `GET /api/history`: the raw records, or any failure
      (non-ok status, network error, unreadable body). */
  datatype HistoryOutcome = HistoryLoaded(apiData: seq<ClassificationLog>) | HistoryFailed

  /** The hook's first state: no logs, loading, and the socket's current connection flag. */
  function Initial(connected: bool, now: int): (s: LogState)
    ensures s.logs == [] && s.isLoading
    ensures s.isConnected == connected && s.lastUpdate == now
  {
    LogState([], true, connected, now)
  }

  /** `apiData.map(format)`: every raw record normalised, in the order received. */
  function FormatAll(base: string, raw: seq<ClassificationLog>): (r: seq<ClassificationLog>)
    ensures |r| == |raw|
    ensures forall i :: 0 <= i < |raw| ==> r[i] == FormatLog(base, raw[i])
  {
    if raw == [] then [] else [FormatLog(base, raw[0])] + FormatAll(base, raw[1..])
  }

  /** Entry of `initialFetch`: the loader is shown; nothing else changes. */
  function BeginFetch(s: LogState): (r: LogState)
    ensures r.isLoading
    ensures r.(isLoading := s.isLoading) == s
  {
    s.(isLoading := true)
  }

  /** Completion of `initialFetch`: on success the list is replaced wholesale
      by the normalised history and the update time is stamped; on failure
      the list and the update time stay; in both cases loading ends. */
  function CompleteFetch(s: LogState, base: string, outcome: HistoryOutcome, now: int): (r: LogState)
    ensures !r.isLoading
    ensures r.isConnected == s.isConnected
    ensures outcome.HistoryFailed? ==> r.logs == s.logs && r.lastUpdate == s.lastUpdate
    ensures outcome.HistoryLoaded? ==> r.logs == FormatAll(base, outcome.apiData) && r.lastUpdate == now
  {
    match outcome
    case HistoryLoaded(apiData) => s.(logs := FormatAll(base, apiData), lastUpdate := now, isLoading := false)
    case HistoryFailed => s.(isLoading := false)
  }

  /** A whole `initialFetch` (also `refreshLogs`), seen from its start to its end. */
  function InitialFetch(s: LogState, base: string, outcome: HistoryOutcome, now: int): (r: LogState)
    ensures !r.isLoading && r.isConnected == s.isConnected
    ensures outcome.HistoryFailed? ==> r == s.(isLoading := false)
    ensures outcome.HistoryLoaded? ==>
              && r == s.(logs := r.logs, lastUpdate := now, isLoading := false)
              && |r.logs| == |outcome.apiData|
              && forall i :: 0 <= i < |r.logs| ==> r.logs[i] == FormatLog(base, outcome.apiData[i])
  {
    CompleteFetch(BeginFetch(s), base, outcome, now)
  }

  /** `[formattedLog, ...prevLogs]`: one longer, the normalised new record at
      the head, and the previous list, untouched, as the tail. */
  function Prepend(base: string, logs: seq<ClassificationLog>, newLog: ClassificationLog): (r: seq<ClassificationLog>)
    ensures |r| == |logs| + 1
    ensures r[0] == FormatLog(base, newLog)
    ensures r[1..] == logs
  {
    [FormatLog(base, newLog)] + logs
  }

  /** `handleNewLog`: the record is prepended and the update time stamped. */
  function HandleNewLog(s: LogState, base: string, newLog: ClassificationLog, now: int): (r: LogState)
    ensures r.logs == Prepend(base, s.logs, newLog)
    ensures r.lastUpdate == now
    ensures r.isLoading == s.isLoading && r.isConnected == s.isConnected
  {
    s.(logs := Prepend(base, s.logs, newLog), lastUpdate := now)
  }

  /** The number of records in `logs` that carry `id`. */
  function Occurrences(logs: seq<ClassificationLog>, id: int): nat
  {
    |Filter(logs, HasId(id))|
  }

  /** No de-duplication: a pushed record whose id is already listed is added
      again, so the count of that id goes up by exactly one, and the count of
      every other id stays. */
  lemma NewLogNoDedup(s: LogState, base: string, newLog: ClassificationLog, now: int, id: int)
    ensures Occurrences(HandleNewLog(s, base, newLog, now).logs, id)
         == Occurrences(s.logs, id) + (if id == newLog.id then 1 else 0)
  {
  }

  /** `onConnect`. */
  function OnConnect(s: LogState): (r: LogState)
    ensures r.isConnected
    ensures r.(isConnected := s.isConnected) == s
  {
    s.(isConnected := true)
  }

  /** `onDisconnect`. */
  function OnDisconnect(s: LogState): (r: LogState)
    ensures !r.isConnected
    ensures r.(isConnected := s.isConnected) == s
  {
    s.(isConnected := false)
  }

  /** `clearLogs`: the list becomes empty whatever it held; the backend is
      not contacted and no other state changes. */
  function ClearLogs(s: LogState): (r: LogState)
    ensures r.logs == []
    ensures r.(logs := s.logs) == s
  {
    s.(logs := [])
  }

  /** What can happen to the hook: a complete history fetch, a push, a
      socket signal, or the Clear button. */
  datatype Event =
    | Fetch(outcome: HistoryOutcome, fetchedAt: int)
    | NewLog(newLog: ClassificationLog, receivedAt: int)
    | Connect
    | Disconnect
    | Clear

  function Step(s: LogState, base: string, e: Event): LogState
  {
    match e
    case Fetch(outcome, t) => InitialFetch(s, base, outcome, t)
    case NewLog(newLog, t) => HandleNewLog(s, base, newLog, t)
    case Connect => OnConnect(s)
    case Disconnect => OnDisconnect(s)
    case Clear => ClearLogs(s)
  }

  /** The state after handling `events` in order. */
  function Run(s: LogState, base: string, events: seq<Event>): LogState
    decreases |events|
  {
    if events == [] then s else Run(Step(s, base, events[0]), base, events[1..])
  }

  /** Running `events + [e]` is stepping `e` from the state `Run` reaches after `events`. */
  lemma {:induction false} RunSnoc(s: LogState, base: string, events: seq<Event>, e: Event)
    ensures Run(s, base, events + [e]) == Step(Run(s, base, events), base, e)
    decreases |events|
  {
    if events == [] {
      assert [] + [e] == [e];
    } else {
      assert (events + [e])[1..] == events[1..] + [e];
      RunSnoc(Step(s, base, events[0]), base, events[1..], e);
    }
  }

  /** The connection flag as the most recent socket signal in `events` left
      it, or `initial` when there was none. */
  function LastSignal(events: seq<Event>, initial: bool): bool
  {
    if events == [] then initial
    else match events[|events| - 1]
      case Connect => true
      case Disconnect => false
      case _ => LastSignal(events[..|events| - 1], initial)
  }

  /** Only the socket signals touch the connection flag, and the last one wins. */
  lemma {:induction false} ConnectionFlagIsLastSignal(s: LogState, base: string, events: seq<Event>)
    ensures Run(s, base, events).isConnected == LastSignal(events, s.isConnected)
    decreases |events|
  {
    if events != [] {
      var init, e := events[..|events| - 1], events[|events| - 1];
      assert events == init + [e];
      RunSnoc(s, base, init, e);
      ConnectionFlagIsLastSignal(s, base, init);
    }
  }
}
