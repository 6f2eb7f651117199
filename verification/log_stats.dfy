/**
 The summary cards of the log page (`stats`): total, organic count,
 inorganic count and average confidence over the whole (unfiltered) list.

 Confidence is a `real`: the average is exact here, whereas the page
 computes it in floating point.
 */
module LogStats {
  import opened Seqs
  import opened LogRecords
  import opened LogData

  datatype Summary = Summary(total: nat, organik: nat, anorganik: nat, avgConfidence: real)

  /** `logs.reduce((sum, log) => sum + log.confidence, 0)`, folded from the left. */
  function SumConfidence(logs: seq<ClassificationLog>): real
  {
    if logs == [] then 0.0 else SumConfidence(logs[..|logs| - 1]) + logs[|logs| - 1].confidence
  }

  function Average(logs: seq<ClassificationLog>): real
  {
    if |logs| > 0 then SumConfidence(logs) / (|logs| as real) else 0.0
  }

  /** The reference definition of the cards, one `filter(...).length` per
      label: each counter counts records of its own label and no more than
      the total, and an empty list averages 0. */
  function Stats(logs: seq<ClassificationLog>): (r: Summary)
    ensures r.total == |logs| && r.organik <= r.total && r.anorganik <= r.total
    ensures forall log :: log in logs && log.wasteLabel == Organik ==> r.organik > 0
    ensures forall log :: log in logs && log.wasteLabel == Anorganik ==> r.anorganik > 0
    ensures |logs| == 0 ==> r.avgConfidence == 0.0
  {
    Summary(|logs|, |Filter(logs, HasLabel(Organik))|, |Filter(logs, HasLabel(Anorganik))|, Average(logs))
  }

  /** Every record is either organic or inorganic, so the two counters add up to the total. */
  lemma LabelCountsPartition(logs: seq<ClassificationLog>)
    ensures Stats(logs).organik + Stats(logs).anorganik == Stats(logs).total
  {
    FilterPartition(logs, HasLabel(Organik), HasLabel(Anorganik));
  }

  /** Extending a prefix by one record extends the counters and the sum by that record. */
  lemma PrefixStep(logs: seq<ClassificationLog>, i: nat)
    requires i < |logs|
    ensures |Filter(logs[..i + 1], HasLabel(Organik))|
         == |Filter(logs[..i], HasLabel(Organik))| + (if logs[i].wasteLabel == Organik then 1 else 0)
    ensures |Filter(logs[..i + 1], HasLabel(Anorganik))|
         == |Filter(logs[..i], HasLabel(Anorganik))| + (if logs[i].wasteLabel == Anorganik then 1 else 0)
    ensures SumConfidence(logs[..i + 1]) == SumConfidence(logs[..i]) + logs[i].confidence
  {
    assert logs[..i + 1] == logs[..i] + [logs[i]];
    assert logs[..i + 1][..i] == logs[..i];
    FilterSnoc(logs[..i], logs[i], HasLabel(Organik));
    FilterSnoc(logs[..i], logs[i], HasLabel(Anorganik));
  }

  /** The cards computed in one pass over the list: the total is the length,
      each counter is the number of records with that label, the counters
      add up to the total, and the average is 0 for an empty list. */
  method Summarize(logs: seq<ClassificationLog>) returns (r: Summary)
    ensures r == Stats(logs)
    ensures r.total == |logs| && r.organik + r.anorganik == r.total
    ensures |logs| == 0 ==> r.avgConfidence == 0.0
  {
    var organik, anorganik, sum := 0, 0, 0.0;
    for i := 0 to |logs|
      invariant organik == |Filter(logs[..i], HasLabel(Organik))|
      invariant anorganik == |Filter(logs[..i], HasLabel(Anorganik))|
      invariant organik + anorganik == i
      invariant sum == SumConfidence(logs[..i])
    {
      PrefixStep(logs, i);
      if logs[i].wasteLabel == Organik {
        organik := organik + 1;
      } else {
        anorganik := anorganik + 1;
      }
      sum := sum + logs[i].confidence;
    }
    assert logs[..|logs|] == logs;
    r := Summary(|logs|, organik, anorganik, if |logs| > 0 then sum / (|logs| as real) else 0.0);
  }

  /** When every confidence lies in [0, 100], so does the sum divided by the count. */
  lemma {:induction false} SumConfidenceBounds(logs: seq<ClassificationLog>)
    requires forall i :: 0 <= i < |logs| ==> 0.0 <= logs[i].confidence <= 100.0
    ensures 0.0 <= SumConfidence(logs) <= 100.0 * (|logs| as real)
  {
    if logs != [] {
      SumConfidenceBounds(logs[..|logs| - 1]);
    }
  }

  lemma QuotientBounds(total: real, n: real)
    requires n > 0.0 && 0.0 <= total <= 100.0 * n
    ensures 0.0 <= total / n <= 100.0
  {
  }

  /** The average confidence card shows a percentage when the records hold percentages. */
  lemma AverageWithinRange(logs: seq<ClassificationLog>)
    requires forall i :: 0 <= i < |logs| ==> 0.0 <= logs[i].confidence <= 100.0
    ensures 0.0 <= Stats(logs).avgConfidence <= 100.0
  {
    SumConfidenceBounds(logs);
    if |logs| > 0 {
      QuotientBounds(SumConfidence(logs), |logs| as real);
    }
  }

  /** A pushed record adds one to the total and one to the counter of its own label. */
  lemma NewLogCounts(s: LogState, base: string, newLog: ClassificationLog, now: int)
    ensures Stats(HandleNewLog(s, base, newLog, now).logs).total == Stats(s.logs).total + 1
    ensures Stats(HandleNewLog(s, base, newLog, now).logs).organik
         == Stats(s.logs).organik + (if newLog.wasteLabel == Organik then 1 else 0)
    ensures Stats(HandleNewLog(s, base, newLog, now).logs).anorganik
         == Stats(s.logs).anorganik + (if newLog.wasteLabel == Anorganik then 1 else 0)
  {
  }

  /** After Clear every card reads zero. */
  lemma ClearedStats(s: LogState)
    ensures Stats(ClearLogs(s).logs) == Summary(0, 0, 0, 0.0)
  {
  }
}
