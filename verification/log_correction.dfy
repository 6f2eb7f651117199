/**
 Human feedback on a classification (`handleKoreksi` in src/pages/LogPage.tsx).
 The page posts the verdict and receives the record as the backend now
 stores it; the intended effect is to replace, in the list, every record
 with that id by the normalised returned record, and to copy the returned
 correction status into the record shown in the detail modal.

 The handler refers to the list setter of the data hook, which the hook does
 not hand back to the page, so as written the update never happens: the
 lookup of the missing name throws, and the handler's catch turns a
 successful correction into the failure notice. `HandleKoreksiAsWritten`
 models that; `HandleKoreksi` models the evident intent and is the one the
 rest of the model relies on.
 */
module LogCorrection {
  import opened Wrappers
  import opened LogRecords
  import opened LogData

  /** The log page's state around a correction: the hook's data and the
      record open in the detail modal, if any. */
  datatype PageState = PageState(data: LogState, selected: Option<ClassificationLog>)

  /** Outcome of `POST /api/log/{id}/koreksi`: the updated record, or any failure. */
  datatype CorrectionOutcome = Corrected(updatedLog: ClassificationLog) | CorrectionFailed

  /** `prevLogs.map(log => log.id === updatedLog.id ? normalised updatedLog : log)`:
      same length, every record with the updated id replaced by the
      normalised returned record, every other record untouched. */
  function ApplyCorrection(base: string, logs: seq<ClassificationLog>, updatedLog: ClassificationLog)
    : (r: seq<ClassificationLog>)
    ensures |r| == |logs|
    ensures forall i :: 0 <= i < |logs| && logs[i].id != updatedLog.id ==> r[i] == logs[i]
    ensures forall i :: 0 <= i < |logs| && logs[i].id == updatedLog.id ==> r[i] == FormatLog(base, updatedLog)
  {
    if logs == [] then []
    else [if logs[0].id == updatedLog.id then FormatLog(base, updatedLog) else logs[0]]
         + ApplyCorrection(base, logs[1..], updatedLog)
  }

  /** A correction for an id that is not listed leaves the list as it was. */
  lemma CorrectionOfUnlistedId(base: string, logs: seq<ClassificationLog>, updatedLog: ClassificationLog)
    requires forall i :: 0 <= i < |logs| ==> logs[i].id != updatedLog.id
    ensures ApplyCorrection(base, logs, updatedLog) == logs
  {
  }

  /** The list keeps its ids position by position, and applying the same
      correction twice is applying it once. */
  lemma CorrectionKeepsIdsAndIsIdempotent(base: string, logs: seq<ClassificationLog>, updatedLog: ClassificationLog)
    ensures forall i :: 0 <= i < |logs| ==> ApplyCorrection(base, logs, updatedLog)[i].id == logs[i].id
    ensures ApplyCorrection(base, ApplyCorrection(base, logs, updatedLog), updatedLog)
         == ApplyCorrection(base, logs, updatedLog)
  {
  }

  /** The modal's record, if one is open, takes the returned correction status. */
  function UpdateSelected(selected: Option<ClassificationLog>, updatedLog: ClassificationLog)
    : (r: Option<ClassificationLog>)
    ensures r.None? <==> selected.None?
    ensures r.Some? ==> r.value == selected.value.(koreksiStatus := updatedLog.koreksiStatus)
  {
    match selected
    case Some(log) => Some(log.(koreksiStatus := updatedLog.koreksiStatus))
    case None => None
  }

  /** The handler as evidently intended: a successful correction updates the
      list and the modal, and nothing else; a failed one changes nothing. */
  function HandleKoreksi(s: PageState, base: string, outcome: CorrectionOutcome): (r: PageState)
    ensures outcome.CorrectionFailed? ==> r == s
    ensures outcome.Corrected? ==>
              && r.data == s.data.(logs := ApplyCorrection(base, s.data.logs, outcome.updatedLog))
              && r.selected == UpdateSelected(s.selected, outcome.updatedLog)
  {
    match outcome
    case Corrected(updatedLog) =>
      PageState(s.data.(logs := ApplyCorrection(base, s.data.logs, updatedLog)),
                UpdateSelected(s.selected, updatedLog))
    case CorrectionFailed => s
  }

  /** After a successful correction the list reflects the backend's verdict:
      every record with the corrected id carries the returned correction
      status, and the number of records is unchanged. */
  lemma CorrectionVisibleInList(s: PageState, base: string, updatedLog: ClassificationLog)
    ensures |HandleKoreksi(s, base, Corrected(updatedLog)).data.logs| == |s.data.logs|
    ensures forall i :: 0 <= i < |s.data.logs| && s.data.logs[i].id == updatedLog.id ==>
              HandleKoreksi(s, base, Corrected(updatedLog)).data.logs[i].koreksiStatus == updatedLog.koreksiStatus
  {
  }

  /** The handler as written: the throw happens before any update, so
      whatever the backend answered, the page ends as after a failed
      correction. */
  function HandleKoreksiAsWritten(s: PageState, base: string, outcome: CorrectionOutcome): (r: PageState)
    ensures r == HandleKoreksi(s, base, CorrectionFailed)
  {
    s
  }

  /** The discrepancy: when the listed record with the corrected id differs
      from what the backend returned, the handler as written keeps showing
      the stale record, where the intended handler shows the returned one. */
  lemma AsWrittenKeepsStaleRecord(s: PageState, base: string, updatedLog: ClassificationLog, i: nat)
    requires i < |s.data.logs|
    requires s.data.logs[i].id == updatedLog.id
    requires s.data.logs[i] != FormatLog(base, updatedLog)
    ensures HandleKoreksiAsWritten(s, base, Corrected(updatedLog)).data.logs[i] != FormatLog(base, updatedLog)
    ensures HandleKoreksiAsWritten(s, base, Corrected(updatedLog)) != HandleKoreksi(s, base, Corrected(updatedLog))
  {
  }
}
