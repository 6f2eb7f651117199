/**
 The classification-log record of the log page and the normalisation applied
 to every record that arrives from the backend (history fetch, `new_log`
 push, correction response): the backend-local image path is rewritten to
 forward slashes and prefixed with the API base URL.

 The base URL comes from a configuration module that is not part of this
 model, so it is a parameter `base` throughout.
 */
module LogRecords {
  import opened Strings

  datatype Label = Organik | Anorganik
  datatype Status = Success | Warning | Error
  /** Human-feedback state of a record: not yet rated, confirmed, mislabelled. */
  datatype KoreksiStatus = BelumDinilai | Benar | Salah

  /** One classification record; `wasteLabel` is the `label` field of the
      backend record (`label` is a reserved word in Dafny). */
  datatype ClassificationLog = ClassificationLog(
    id: int,
    imagePath: string,
    wasteLabel: Label,
    confidence: real,
    timestamp: string,
    date: string,
    processingTime: real,
    modelVersion: string,
    status: Status,
    koreksiStatus: KoreksiStatus)

  /** The label as the backend spells it. */
  function LabelText(l: Label): string
  {
    match l
    case Organik => "Organik"
    case Anorganik => "Anorganik"
  }

  /** `${base}/${p.replace(/\\/g, '/')}`: the result starts with `base + "/"`,
      and the rest is `p` position by position, with every backslash turned
      into a forward slash and nothing else altered. */
  function NormalizePath(base: string, p: string): (r: string)
    ensures |r| == |base| + 1 + |p|
    ensures r[..|base| + 1] == base + "/"
    ensures forall i :: 0 <= i < |p| ==> r[|base| + 1 + i] == (if p[i] == '\\' then '/' else p[i])
    ensures '\\' !in r[|base| + 1..]
  {
    var tail := ReplaceBackslashes(p);
    assert (base + "/" + tail)[|base| + 1..] == tail;
    base + "/" + tail
  }

  /** A path that already uses forward slashes only gets the prefix and nothing else. */
  lemma NormalizeForwardSlashPath(base: string, p: string)
    requires '\\' !in p
    ensures NormalizePath(base, p) == base + "/" + p
  {
  }

  /** `{ ...log, image_path: normalised }`: the record with its image path
      normalised and every other field kept. */
  function FormatLog(base: string, log: ClassificationLog): (r: ClassificationLog)
    ensures r.imagePath == NormalizePath(base, log.imagePath)
    ensures r.(imagePath := log.imagePath) == log
  {
    log.(imagePath := NormalizePath(base, log.imagePath))
  }

  /** Selects the records with a given id. */
  function HasId(id: int): ClassificationLog -> bool
  {
    (log: ClassificationLog) => log.id == id
  }

  /** Selects the records with a given label. */
  function HasLabel(l: Label): ClassificationLog -> bool
  {
    (log: ClassificationLog) => log.wasteLabel == l
  }
}
