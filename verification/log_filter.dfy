/**
 The filtered view of the log page (`filteredLogs`): a record is shown when
 it matches the search term and every filter of the filter panel.

 The date filter compares the record's `date` with the filter's date
 rendered in the Indonesian locale; that rendering is locale machinery and
 enters the model as the parameter `localeDate`.
 */
module LogFilter {
  import opened Strings
  import opened Seqs
  import opened LogRecords

  datatype LabelFilter = AllLabels | OnlyLabel(wanted: Label)
  datatype StatusFilter = AllStatuses | OnlyStatus(wanted: Status)

  datatype FilterOptions = FilterOptions(
    labelFilter: LabelFilter,
    confidence: real,
    dateRange: string,
    status: StatusFilter)

  /** The panel's initial settings: any label, minimum confidence 0, no date, any status. */
  const DefaultFilters := FilterOptions(AllLabels, 0.0, "", AllStatuses)

  /** The label (lower-cased) contains the lower-cased term, or the time or
      the date contains the term as typed; an empty term matches every record. */
  predicate MatchesSearch(log: ClassificationLog, searchTerm: string): (b: bool)
    ensures searchTerm == [] ==> b
  {
    ContainsEmpty(log.timestamp);
    || Contains(ToLower(LabelText(log.wasteLabel)), ToLower(searchTerm))
    || Contains(log.timestamp, searchTerm)
    || Contains(log.date, searchTerm)
  }

  predicate MatchesLabel(log: ClassificationLog, f: FilterOptions)
  {
    f.labelFilter.AllLabels? || log.wasteLabel == f.labelFilter.wanted
  }

  predicate MatchesStatus(log: ClassificationLog, f: FilterOptions)
  {
    f.status.AllStatuses? || log.status == f.status.wanted
  }

  /** An empty date filter lets everything through. */
  predicate MatchesDate(log: ClassificationLog, f: FilterOptions, localeDate: string -> string)
  {
    f.dateRange == [] || log.date == localeDate(f.dateRange)
  }

  /** The conjunction evaluated for every record. With an empty search term
      and the label, status and date filters at their initial settings, only
      the minimum confidence decides. */
  predicate Matches(log: ClassificationLog, searchTerm: string, f: FilterOptions, localeDate: string -> string)
    : (b: bool)
    ensures b ==> log.confidence >= f.confidence
    ensures searchTerm == [] && f.(confidence := DefaultFilters.confidence) == DefaultFilters ==>
              (b <==> log.confidence >= f.confidence)
  {
    && MatchesSearch(log, searchTerm)
    && MatchesLabel(log, f)
    && log.confidence >= f.confidence
    && MatchesStatus(log, f)
    && MatchesDate(log, f, localeDate)
  }

  function Matcher(searchTerm: string, f: FilterOptions, localeDate: string -> string): ClassificationLog -> bool
  {
    (log: ClassificationLog) => Matches(log, searchTerm, f, localeDate)
  }

  /** `logs.filter(...)`: an order-preserving subsequence of `logs` whose
      records all pass every condition, and which misses no record of
      `logs` that passes them all: a matching record listed several times
      is shown as many times. */
  function FilteredLogs(logs: seq<ClassificationLog>, searchTerm: string, f: FilterOptions, localeDate: string -> string)
    : (r: seq<ClassificationLog>)
    ensures IsSubsequence(r, logs)
    ensures forall log :: log in r ==>
              && MatchesSearch(log, searchTerm)
              && MatchesLabel(log, f)
              && log.confidence >= f.confidence
              && MatchesStatus(log, f)
              && MatchesDate(log, f, localeDate)
    ensures forall log :: log in logs && Matches(log, searchTerm, f, localeDate) ==> log in r
    ensures forall log :: multiset(r)[log] == if Matches(log, searchTerm, f, localeDate) then multiset(logs)[log] else 0
  {
    FilterIsSubsequence(logs, Matcher(searchTerm, f, localeDate));
    FilterCounts(logs, Matcher(searchTerm, f, localeDate));
    Filter(logs, Matcher(searchTerm, f, localeDate))
  }

  /** Raising the minimum confidence never adds a record: the stricter view
      is a subsequence of the looser one, hence no longer. */
  lemma MinConfidenceMonotone(
    logs: seq<ClassificationLog>, searchTerm: string, f: FilterOptions, localeDate: string -> string, higher: real)
    requires f.confidence <= higher
    ensures IsSubsequence(FilteredLogs(logs, searchTerm, f.(confidence := higher), localeDate),
                          FilteredLogs(logs, searchTerm, f, localeDate))
    ensures |FilteredLogs(logs, searchTerm, f.(confidence := higher), localeDate)|
         <= |FilteredLogs(logs, searchTerm, f, localeDate)|
  {
    var strict, loose := Matcher(searchTerm, f.(confidence := higher), localeDate), Matcher(searchTerm, f, localeDate);
    FilterMonotone(logs, strict, loose);
    SubsequenceBounds(Filter(logs, strict), Filter(logs, loose));
  }

  /** Selects the records whose confidence reaches `c`. */
  function ConfidentAtLeast(c: real): ClassificationLog -> bool
  {
    (log: ClassificationLog) => log.confidence >= c
  }

  /** With no search term and every other filter at its initial setting, the
      view is exactly the records reaching the minimum confidence, in order. */
  lemma {:induction false} DefaultViewIsConfidenceFilter(logs: seq<ClassificationLog>, c: real, localeDate: string -> string)
    ensures FilteredLogs(logs, "", DefaultFilters.(confidence := c), localeDate) == Filter(logs, ConfidentAtLeast(c))
  {
    var f := DefaultFilters.(confidence := c);
    forall log | log in logs
      ensures Matcher("", f, localeDate)(log) == ConfidentAtLeast(c)(log)
    {
      ContainsEmpty(ToLower(LabelText(log.wasteLabel)));
    }
    FilterExtensional(logs, Matcher("", f, localeDate), ConfidentAtLeast(c));
  }
}
