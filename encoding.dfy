/**
 * One-hot label encoding: a class label `y` becomes row `y` of the identity
 * matrix of size `dim`, with array indexing's rules (a negative index counts
 * from the end, an index outside [-dim, dim) is an error).  The number of
 * classes is one more than the largest training label.
 */
module Encoding {
  import opened Wrappers

  /**
   * Why an encoding fails: the identity matrix cannot be built with a
   * negative size, or a label indexes outside its rows.
   */
  datatype EncodingError = NegativeDimension | IndexOutOfRange

  /** The dim x dim identity matrix. */
  function Identity(dim: nat): (m: seq<seq<real>>)
    ensures |m| == dim
    ensures forall i :: 0 <= i < dim ==> |m[i]| == dim
    ensures forall i, j :: 0 <= i < dim && 0 <= j < dim ==> m[i][j] == (if i == j then 1.0 else 0.0)
  {
    seq(dim, i => seq(dim, j => if i == j then 1.0 else 0.0))
  }

  /** The row an index selects in an array of `dim` rows: negative indices count from the end. */
  function RowIndex(dim: int, y: int): int {
    if y < 0 then y + dim else y
  }

  /**
   * The first position of a largest entry of a non-empty row: every entry is
   * at most the one there, and every entry before it is strictly smaller.
   */
  function ArgMax(row: seq<real>): (k: nat)
    requires |row| > 0
    ensures k < |row|
    ensures forall j :: 0 <= j < |row| ==> row[j] <= row[k]
    ensures forall j :: 0 <= j < k ==> row[j] < row[k]
    decreases |row|
  {
    if |row| == 1 then 0
    else
      var k' := ArgMax(row[..|row| - 1]);
      if row[|row| - 1] > row[k'] then |row| - 1 else k'
  }

  /**
   * The one-hot row of label `y` among `dim` classes.  A negative `dim` is
   * refused before any label is looked at.  Otherwise the row exists exactly
   * when -dim <= y < dim; it has `dim` entries, a 1 at the selected row index
   * and 0 everywhere else, so that for 0 <= y < dim its arg-max gives back `y`.
   */
  function OneHot(dim: int, y: int): (r: Result<seq<real>, EncodingError>)
    ensures r.Success? <==> -dim <= y < dim
    ensures r.Failure? ==> (r.error == NegativeDimension <==> dim < 0)
    ensures r.Success? ==> |r.value| == dim
    ensures r.Success? ==> forall j :: 0 <= j < dim ==> r.value[j] == (if j == RowIndex(dim, y) then 1.0 else 0.0)
    ensures r.Success? && 0 <= y ==> ArgMax(r.value) == y
  {
    if dim < 0 then Failure(NegativeDimension)
    else if -dim <= y < dim then
      var row := Identity(dim)[RowIndex(dim, y)];
      assert row[ArgMax(row)] <= row[RowIndex(dim, y)];
      Success(row)
    else Failure(IndexOutOfRange)
  }

  /**
   * The one-hot rows of a vector of labels.  A negative `dim` fails whatever
   * the labels, even for none; otherwise the encoding fails exactly when some
   * label is outside [-dim, dim), and row i encodes label i.
   */
  function OneHotBatch(dim: int, ys: seq<int>): (r: Result<seq<seq<real>>, EncodingError>)
    ensures r.Success? <==> 0 <= dim && forall i :: 0 <= i < |ys| ==> -dim <= ys[i] < dim
    ensures r.Failure? ==> (r.error == NegativeDimension <==> dim < 0)
    ensures r.Success? ==> |r.value| == |ys|
    ensures r.Success? ==> forall i :: 0 <= i < |ys| ==> OneHot(dim, ys[i]) == Success(r.value[i])
    decreases |ys|
  {
    if dim < 0 then Failure(NegativeDimension)
    else if |ys| == 0 then Success([])
    else
      match OneHot(dim, ys[0])
      case Failure(e) => Failure(e)
      case Success(row) =>
        match OneHotBatch(dim, ys[1..])
        case Failure(e) => Failure(e)
        case Success(rows) => Success([row] + rows)
  }

  /** The label-encoding step for one batch: the inputs pass through, the labels become one-hot rows. */
  function OneHotStep<X>(batch: (X, seq<int>), dim: int): (r: Result<(X, seq<seq<real>>), EncodingError>)
    ensures r.Success? <==> OneHotBatch(dim, batch.1).Success?
    ensures r.Success? ==> r.value.0 == batch.0 && Success(r.value.1) == OneHotBatch(dim, batch.1)
  {
    match OneHotBatch(dim, batch.1)
    case Failure(e) => Failure(e)
    case Success(rows) => Success((batch.0, rows))
  }

  /** Arg-max decoding of one-hot rows back to labels. */
  function Decode(rows: seq<seq<real>>): (ys: seq<int>)
    requires forall i :: 0 <= i < |rows| ==> |rows[i]| > 0
    ensures |ys| == |rows|
    ensures forall i :: 0 <= i < |rows| ==> ys[i] == ArgMax(rows[i])
  {
    seq(|rows|, i requires 0 <= i < |rows| => ArgMax(rows[i]) as int)
  }

  /** Encoding labels in [0, dim) and decoding them by arg-max gives the labels back. */
  lemma {:induction false} OneHotRoundTrip(dim: nat, ys: seq<int>)
    requires forall i :: 0 <= i < |ys| ==> 0 <= ys[i] < dim
    ensures OneHotBatch(dim, ys).Success?
    ensures forall i :: 0 <= i < |ys| ==> |OneHotBatch(dim, ys).value[i]| == dim > 0
    ensures Decode(OneHotBatch(dim, ys).value) == ys
  {
    var rows := OneHotBatch(dim, ys).value;
    forall i | 0 <= i < |ys|
      ensures |rows[i]| == dim > 0 && ArgMax(rows[i]) == ys[i]
    {
      assert OneHot(dim, ys[i]) == Success(rows[i]);
    }
  }

  /** The largest of a non-empty vector of labels. */
  function MaxLabel(ys: seq<int>): (m: int)
    requires |ys| > 0
    ensures m in ys
    ensures forall i :: 0 <= i < |ys| ==> ys[i] <= m
    decreases |ys|
  {
    if |ys| == 1 then ys[0]
    else
      var m' := MaxLabel(ys[1..]);
      if ys[0] > m' then ys[0] else m'
  }

  /**
   * The number of classes: one more than the largest label, so it exceeds
   * every label and is reached by none; there is none for an empty vector.
   */
  function NClass(ys: seq<int>): (n: Option<int>)
    ensures n.Some? <==> |ys| > 0
    ensures n.Some? ==> forall i :: 0 <= i < |ys| ==> ys[i] < n.value
    ensures n.Some? ==> n.value - 1 in ys
  {
    if |ys| == 0 then None else Some(MaxLabel(ys) + 1)
  }

  /**
   * With the number of classes taken from non-negative training labels,
   * every training label encodes, and decoding the encoding gives the labels
   * back.
   */
  lemma TrainingLabelsRoundTrip(ys: seq<int>)
    requires |ys| > 0
    requires forall i :: 0 <= i < |ys| ==> 0 <= ys[i]
    ensures NClass(ys).Some? && NClass(ys).value > 0
    ensures OneHotBatch(NClass(ys).value, ys).Success?
    ensures Decode(OneHotBatch(NClass(ys).value, ys).value) == ys
  {
    var n := NClass(ys).value;
    OneHotRoundTrip(n, ys);
  }

  /**
   * Labels that are all negative give a class count of at most 0, and their
   * encoding fails: with a count below 0 the identity matrix cannot be built,
   * with a count of 0 every label is out of range.
   */
  lemma NegativeLabelsFail(ys: seq<int>)
    requires |ys| > 0
    requires forall i :: 0 <= i < |ys| ==> ys[i] < 0
    ensures NClass(ys).Some? && NClass(ys).value <= 0
    ensures NClass(ys).value < 0 ==> OneHotBatch(NClass(ys).value, ys) == Failure(NegativeDimension)
    ensures NClass(ys).value == 0 ==> OneHotBatch(NClass(ys).value, ys) == Failure(IndexOutOfRange)
  {
    var n := NClass(ys).value;
    assert n - 1 in ys;
  }
}
