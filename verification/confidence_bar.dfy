/**
 The colour of a record's confidence bar (`ConfidenceBar.getColor`): the
 record's status decides first, and only a successful record is coloured by
 its confidence.
 */
module ConfidenceBar {
  import opened LogRecords

  datatype BarColor = Red | Yellow | Green | Blue | Gray

  /** Red exactly for errors and yellow exactly for warnings, whatever the
      confidence; a successful record is green from 95, blue in [85, 95) and
      gray below 85. */
  function ConfidenceColor(confidence: real, status: Status): (r: BarColor)
    ensures r == Red <==> status == Error
    ensures r == Yellow <==> status == Warning
    ensures status == Success ==> (r == Green <==> confidence >= 95.0)
    ensures status == Success ==> (r == Blue <==> 85.0 <= confidence < 95.0)
    ensures status == Success ==> (r == Gray <==> confidence < 85.0)
  {
    if status == Error then Red
    else if status == Warning then Yellow
    else if confidence >= 95.0 then Green
    else if confidence >= 85.0 then Blue
    else Gray
  }

  /** The order of the confidence colours, from least to most trusted. */
  function Rank(c: BarColor): nat
  {
    match c
    case Green => 2
    case Blue => 1
    case _ => 0
  }

  /** For a successful record, more confidence never gives a less trusted colour. */
  lemma ColorMonotone(c1: real, c2: real)
    requires c1 <= c2
    ensures Rank(ConfidenceColor(c1, Success)) <= Rank(ConfidenceColor(c2, Success))
  {
  }
}
