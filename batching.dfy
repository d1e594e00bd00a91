/**
 * One pass of the table generator: the inputs `x` and labels `y` are cut
 * into consecutive batches of `bsz` rows, at the row offsets 0, bsz, 2*bsz,
 * ... below the number of rows of `x`; `y` is cut at the same offsets.
 */
module Batching {

  function Min(a: int, b: int): int { if a <= b then a else b }

  /** The slice `s[i:j]` of a Python sequence for 0 <= i <= j: both ends are clamped to the length. */
  function Slice<T>(s: seq<T>, i: nat, j: nat): seq<T>
    requires i <= j
  {
    s[Min(i, |s|)..Min(j, |s|)]
  }

  /** The concatenation of a sequence of sequences. */
  function Concat<T>(ss: seq<seq<T>>): seq<T>
    decreases |ss|
  {
    if |ss| == 0 then [] else ss[0] + Concat(ss[1..])
  }

  /** The input halves of a list of batches. */
  function Inputs<X, Y>(batches: seq<(seq<X>, seq<Y>)>): (r: seq<seq<X>>)
    ensures |r| == |batches| && forall k :: 0 <= k < |r| ==> r[k] == batches[k].0
  {
    seq(|batches|, k requires 0 <= k < |batches| => batches[k].0)
  }

  /** The label halves of a list of batches. */
  function Labels<X, Y>(batches: seq<(seq<X>, seq<Y>)>): (r: seq<seq<Y>>)
    ensures |r| == |batches| && forall k :: 0 <= k < |r| ==> r[k] == batches[k].1
  {
    seq(|batches|, k requires 0 <= k < |batches| => batches[k].1)
  }

  /**
   * The batches from row offset `i` on, recursively: the slices of `x` and
   * `y` at rows [i, i + bsz), then the batches from offset i + bsz, as long
   * as the offset is below the number of rows of `x`.
   */
  function BatchesFrom<X, Y>(x: seq<X>, y: seq<Y>, bsz: nat, i: nat): (r: seq<(seq<X>, seq<Y>)>)
    requires bsz > 0
    ensures |r| == 0 <==> i >= |x|
    decreases |x| - i
  {
    if i >= |x| then []
    else [(Slice(x, i, i + bsz), Slice(y, i, i + bsz))] + BatchesFrom(x, y, bsz, i + bsz)
  }

  /** The batches of one whole pass, starting at row 0. */
  function TablePass<X, Y>(x: seq<X>, y: seq<Y>, bsz: nat): (r: seq<(seq<X>, seq<Y>)>)
    requires bsz > 0
    ensures |r| == 0 <==> |x| == 0
  {
    BatchesFrom(x, y, bsz, 0)
  }

  /** The batches from offset `i` on concatenate to the rows of `x` from `i` on (of `y` when as long). */
  lemma {:induction false} BatchesFromCover<X, Y>(x: seq<X>, y: seq<Y>, bsz: nat, i: nat)
    requires bsz > 0 && i <= |x|
    ensures Concat(Inputs(BatchesFrom(x, y, bsz, i))) == x[i..]
    ensures |x| == |y| ==> Concat(Labels(BatchesFrom(x, y, bsz, i))) == y[i..]
    decreases |x| - i
  {
    if i < |x| {
      var j := Min(i + bsz, |x|);
      var b := (Slice(x, i, i + bsz), Slice(y, i, i + bsz));
      var rest := BatchesFrom(x, y, bsz, i + bsz);
      assert BatchesFrom(x, y, bsz, i) == [b] + rest;
      if i + bsz <= |x| {
        BatchesFromCover(x, y, bsz, i + bsz);
      } else {
        BatchesFromPastEnd(x, y, bsz, i + bsz);
        BatchesFromCover(x, y, bsz, |x|);
      }
      ConcatCons(b, rest);
      SplitAt(x, i, j);
      if |x| == |y| {
        SplitAt(y, i, j);
      }
    }
  }

  /** The rows from `i` on are the rows [i, j) followed by the rows from `j` on. */
  lemma SplitAt<T>(s: seq<T>, i: nat, j: nat)
    requires i <= j <= |s|
    ensures s[i..] == s[i..j] + s[j..]
  {
  }

  /** When the offset passes the last row, the batches from there are those from the last row on. */
  lemma BatchesFromPastEnd<X, Y>(x: seq<X>, y: seq<Y>, bsz: nat, i: nat)
    requires bsz > 0 && i >= |x|
    ensures BatchesFrom(x, y, bsz, i) == BatchesFrom(x, y, bsz, |x|) == []
  {
  }

  /** Concatenating a list of batches that starts with batch `b` starts with `b`'s rows. */
  lemma ConcatCons<X, Y>(b: (seq<X>, seq<Y>), rest: seq<(seq<X>, seq<Y>)>)
    ensures Concat(Inputs([b] + rest)) == b.0 + Concat(Inputs(rest))
    ensures Concat(Labels([b] + rest)) == b.1 + Concat(Labels(rest))
  {
    assert Inputs([b] + rest)[1..] == Inputs(rest);
    assert Labels([b] + rest)[1..] == Labels(rest);
  }

  /** Concatenating the input batches of a pass gives back `x`; when `y` is as long, likewise for `y`. */
  lemma TablePassCovers<X, Y>(x: seq<X>, y: seq<Y>, bsz: nat)
    requires bsz > 0
    ensures Concat(Inputs(TablePass(x, y, bsz))) == x
    ensures |x| == |y| ==> Concat(Labels(TablePass(x, y, bsz))) == y
  {
    BatchesFromCover(x, y, bsz, 0);
    assert x[0..] == x && y[0..] == y;
  }

  lemma MulSucc(n: nat, b: nat)
    ensures (n + 1) * b == n * b + b
  {
  }

  /** Batch k from offset `i` is the slice at rows [i + k*bsz, i + k*bsz + bsz) of both inputs. */
  lemma {:induction false} BatchesFromAt<X, Y>(x: seq<X>, y: seq<Y>, bsz: nat, i: nat, k: nat)
    requires bsz > 0 && k < |BatchesFrom(x, y, bsz, i)|
    ensures BatchesFrom(x, y, bsz, i)[k]
         == (Slice(x, i + k * bsz, i + k * bsz + bsz), Slice(y, i + k * bsz, i + k * bsz + bsz))
    decreases k
  {
    if k > 0 {
      var rest := BatchesFrom(x, y, bsz, i + bsz);
      assert BatchesFrom(x, y, bsz, i)[k] == rest[k - 1];
      BatchesFromAt(x, y, bsz, i + bsz, k - 1);
      MulSucc(k - 1, bsz);
    }
  }

  /**
   * Batch k of a pass starts at row k*bsz and takes up to `bsz` rows of
   * each input: the batches start at rows 0, bsz, 2*bsz, ...
   */
  lemma TablePassAt<X, Y>(x: seq<X>, y: seq<Y>, bsz: nat, k: nat)
    requires bsz > 0 && k < |TablePass(x, y, bsz)|
    ensures TablePass(x, y, bsz)[k] == (Slice(x, k * bsz, k * bsz + bsz), Slice(y, k * bsz, k * bsz + bsz))
  {
    BatchesFromAt(x, y, bsz, 0, k);
  }

  /**
   * From offset `i`, every input batch is non-empty and at most `bsz` long,
   * and all but the last are exactly `bsz` long; when `x` and `y` have the
   * same length every label batch is as long as its input batch.
   */
  lemma {:induction false} BatchesFromSizes<X, Y>(x: seq<X>, y: seq<Y>, bsz: nat, i: nat)
    requires bsz > 0
    ensures forall k :: 0 <= k < |BatchesFrom(x, y, bsz, i)| ==> 0 < |BatchesFrom(x, y, bsz, i)[k].0| <= bsz
    ensures forall k :: 0 <= k < |BatchesFrom(x, y, bsz, i)| - 1 ==> |BatchesFrom(x, y, bsz, i)[k].0| == bsz
    ensures |x| == |y| ==> forall k :: 0 <= k < |BatchesFrom(x, y, bsz, i)| ==>
      |BatchesFrom(x, y, bsz, i)[k].1| == |BatchesFrom(x, y, bsz, i)[k].0|
    decreases |x| - i
  {
    if i < |x| {
      var r := BatchesFrom(x, y, bsz, i);
      var rest := BatchesFrom(x, y, bsz, i + bsz);
      BatchesFromSizes(x, y, bsz, i + bsz);
      assert r == [(Slice(x, i, i + bsz), Slice(y, i, i + bsz))] + rest;
      assert forall k :: 0 < k < |r| ==> r[k] == rest[k - 1];
      assert |rest| > 0 ==> i + bsz < |x|;
    }
  }

  /**
   * In one pass every input batch is non-empty and at most `bsz` long, only
   * the last may be shorter, and with equally long inputs the input and
   * label batches are aligned.
   */
  lemma TablePassSizes<X, Y>(x: seq<X>, y: seq<Y>, bsz: nat)
    requires bsz > 0
    ensures forall k :: 0 <= k < |TablePass(x, y, bsz)| ==> 0 < |TablePass(x, y, bsz)[k].0| <= bsz
    ensures forall k :: 0 <= k < |TablePass(x, y, bsz)| - 1 ==> |TablePass(x, y, bsz)[k].0| == bsz
    ensures |x| == |y| ==> forall k :: 0 <= k < |TablePass(x, y, bsz)| ==>
      |TablePass(x, y, bsz)[k].1| == |TablePass(x, y, bsz)[k].0|
  {
    BatchesFromSizes(x, y, bsz, 0);
  }

  /** From offset `i` there are ceil((|x| - i) / bsz) batches. */
  lemma {:induction false} BatchesFromCount<X, Y>(x: seq<X>, y: seq<Y>, bsz: nat, i: nat)
    requires bsz > 0 && i <= |x|
    ensures |x| - i <= |BatchesFrom(x, y, bsz, i)| * bsz
    ensures i < |x| ==> (|BatchesFrom(x, y, bsz, i)| - 1) * bsz < |x| - i
    decreases |x| - i
  {
    if i < |x| {
      var n := |BatchesFrom(x, y, bsz, i + bsz)|;
      assert |BatchesFrom(x, y, bsz, i)| == n + 1;
      if i + bsz <= |x| {
        BatchesFromCount(x, y, bsz, i + bsz);
      } else {
        BatchesFromPastEnd(x, y, bsz, i + bsz);
      }
      MulSucc(n, bsz);
    }
  }

  /** A pass has ceil(|x| / bsz) batches: enough to hold every row, and one fewer would not. */
  lemma TablePassCount<X, Y>(x: seq<X>, y: seq<Y>, bsz: nat)
    requires bsz > 0
    ensures |x| <= |TablePass(x, y, bsz)| * bsz
    ensures |x| > 0 ==> (|TablePass(x, y, bsz)| - 1) * bsz < |x|
  {
    BatchesFromCount(x, y, bsz, 0);
  }

  /**
   * One pass of the table generator as a loop over the row offsets
   * 0, bsz, 2*bsz, ... below |x|, appending the slices of `x` and `y` at
   * rows [i, i + bsz) for each offset `i`.
   */
  method TableGeneratorPass<X, Y>(x: seq<X>, y: seq<Y>, bsz: nat) returns (batches: seq<(seq<X>, seq<Y>)>)
    requires bsz > 0
    ensures batches == TablePass(x, y, bsz)
  {
    batches := [];
    var i: nat := 0;
    while i < |x|
      invariant batches + BatchesFrom(x, y, bsz, i) == TablePass(x, y, bsz)
      decreases |x| - i
    {
      var b := (Slice(x, i, i + bsz), Slice(y, i, i + bsz));
      assert BatchesFrom(x, y, bsz, i) == [b] + BatchesFrom(x, y, bsz, i + bsz);
      assert batches + [b] + BatchesFrom(x, y, bsz, i + bsz) == batches + ([b] + BatchesFrom(x, y, bsz, i + bsz));
      batches := batches + [b];
      i := i + bsz;
    }
    assert batches + [] == batches;
  }

  /** The batch size the table generator uses unless told otherwise. */
  const DefaultBatchSize: nat := 32

  /** With the default batch size a pass has ceil(|x| / 32) batches. */
  lemma DefaultTablePassCount<X, Y>(x: seq<X>, y: seq<Y>)
    ensures |TablePass(x, y, DefaultBatchSize)| == (|x| + 31) / 32
  {
    TablePassCount(x, y, DefaultBatchSize);
  }
}
