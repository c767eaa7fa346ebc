/** Partitions of a sequence into write batches: the partition the refresh
    command's loop actually produces, and the 25-per-batch partition it was
    meant to produce. Both are generic in the element type. */
module Batching {

  /** DynamoDB's cap on the number of requests in one `BatchWriteItem` call. */
  const MaxBatch: nat := 25

  function Min(a: nat, b: nat): nat
  {
    if a <= b then a else b
  }

  /** Number of batches of at most `d` elements needed for `n` elements. */
  function CeilDiv(n: nat, d: nat): nat
    requires d > 0
  {
    (n + d - 1) / d
  }

  /** All batches joined end to end, in order. */
  function Flatten<T>(bs: seq<seq<T>>): seq<T>
  {
    if |bs| == 0 then [] else bs[0] + Flatten(bs[1..])
  }

  lemma {:induction false} FlattenSnoc<T>(bs: seq<seq<T>>, b: seq<T>)
    ensures Flatten(bs + [b]) == Flatten(bs) + b
    decreases |bs|
  {
    if |bs| == 0 {
      assert bs + [b] == [b];
      assert Flatten([b]) == b + Flatten([b][1..]);
    } else {
      assert (bs + [b])[1..] == bs[1..] + [b];
      FlattenSnoc(bs[1..], b);
    }
  }

  // ---------------------------------------------------------------------------
  // The partition as written: item i is appended to batch (i + 1) / MaxBatch.

  /** First index of batch k: batch 0 starts at 0, batch k > 0 at 25k - 1. */
  function BatchStart(k: nat): nat
  {
    if k == 0 then 0 else MaxBatch * k - 1
  }

  /** One past the last index batch k receives in a sequence of length `len`. */
  function BatchEnd(k: nat, len: nat): nat
  {
    Min(MaxBatch * k + MaxBatch - 1, len)
  }

  lemma BatchBounds(k: nat, len: nat)
    requires k < CeilDiv(len, MaxBatch)
    ensures BatchStart(k) < BatchEnd(k, len) <= len
  {
  }

  /** The batches the refresh command's loop seals: ceil(len / 25) of them,
      batch k holding the items from `BatchStart(k)` up to `BatchEnd(k, len)`. */
  function AsWritten<T>(xs: seq<T>): seq<seq<T>>
  {
    seq(CeilDiv(|xs|, MaxBatch), k requires 0 <= k < CeilDiv(|xs|, MaxBatch) =>
      BatchBounds(k, |xs|);
      xs[BatchStart(k)..BatchEnd(k, |xs|)])
  }

  /** What the as-written batches hold, joined: everything when the length is
      not a positive multiple of 25, otherwise everything but the last item. */
  function Kept<T>(xs: seq<T>): seq<T>
  {
    if |xs| > 0 && |xs| % MaxBatch == 0 then xs[..|xs| - 1] else xs
  }

  lemma AsWrittenShape<T>(xs: seq<T>)
    ensures |AsWritten(xs)| == CeilDiv(|xs|, MaxBatch)
    ensures |xs| == 0 <==> |AsWritten(xs)| == 0
    ensures forall k :: 0 <= k < |AsWritten(xs)| ==> 0 < |AsWritten(xs)[k]| <= MaxBatch
    ensures |xs| >= MaxBatch ==> |AsWritten(xs)[0]| == MaxBatch - 1
    ensures forall k :: 0 < k < |AsWritten(xs)| - 1 ==> |AsWritten(xs)[k]| == MaxBatch
  {
  }

  lemma {:induction false} AsWrittenPrefix<T>(xs: seq<T>, m: nat)
    requires 0 < m <= CeilDiv(|xs|, MaxBatch)
    ensures Flatten(AsWritten(xs)[..m]) == xs[..BatchEnd(m - 1, |xs|)]
    decreases m
  {
    var r := AsWritten(xs);
    BatchBounds(m - 1, |xs|);
    if m == 1 {
      assert r[..1] == [r[0]];
      assert Flatten([r[0]]) == r[0] + Flatten([r[0]][1..]);
    } else {
      AsWrittenPrefix(xs, m - 1);
      assert r[..m] == r[..m - 1] + [r[m - 1]];
      FlattenSnoc(r[..m - 1], r[m - 1]);
      assert BatchStart(m - 1) == BatchEnd(m - 2, |xs|);
      assert xs[..BatchEnd(m - 2, |xs|)] + xs[BatchStart(m - 1)..BatchEnd(m - 1, |xs|)]
          == xs[..BatchEnd(m - 1, |xs|)];
    }
  }

  /** Joining the as-written batches gives back `Kept(xs)`: the whole input,
      except that a positive multiple of 25 loses its last item. */
  lemma AsWrittenFlatten<T>(xs: seq<T>)
    ensures Flatten(AsWritten(xs)) == Kept(xs)
  {
    var n := CeilDiv(|xs|, MaxBatch);
    if n == 0 {
      assert |xs| == 0;
    } else {
      AsWrittenPrefix(xs, n);
      assert AsWritten(xs)[..n] == AsWritten(xs);
    }
  }

  /** The loss in numbers: a positive multiple of 25 comes out one item short. */
  lemma LastItemDropped<T>(xs: seq<T>)
    requires |xs| > 0 && |xs| % MaxBatch == 0
    ensures |Flatten(AsWritten(xs))| == |xs| - 1
    ensures Flatten(AsWritten(xs)) != xs
  {
    AsWrittenFlatten(xs);
  }

  // ---------------------------------------------------------------------------
  // The intended partition: consecutive runs of MaxBatch, the last possibly shorter.

  function Chunk<T>(xs: seq<T>): (r: seq<seq<T>>)
    ensures |r| == CeilDiv(|xs|, MaxBatch)
    ensures forall k :: 0 <= k < |r| ==> 0 < |r[k]| <= MaxBatch
    ensures forall k :: 0 <= k < |r| - 1 ==> |r[k]| == MaxBatch
    ensures Flatten(r) == xs
    decreases |xs|
  {
    if |xs| == 0 then []
    else if |xs| <= MaxBatch then
      assert Flatten([xs]) == xs + Flatten([xs][1..]);
      [xs]
    else
      var rest := Chunk(xs[MaxBatch..]);
      assert ([xs[..MaxBatch]] + rest)[1..] == rest;
      assert xs[..MaxBatch] + xs[MaxBatch..] == xs;
      [xs[..MaxBatch]] + rest
  }

  // ---------------------------------------------------------------------------
  // Worked cases.

  /** 53 records: three batches of 24, 25 and 4 (the 25, 25, 3 split a
      25-per-batch rule would give is not what the loop produces). */
  lemma FiftyThreeRecords<T>(xs: seq<T>)
    requires |xs| == 53
    ensures |AsWritten(xs)| == 3
    ensures |AsWritten(xs)[0]| == 24 && |AsWritten(xs)[1]| == 25 && |AsWritten(xs)[2]| == 4
    ensures Flatten(AsWritten(xs)) == xs
  {
    AsWrittenFlatten(xs);
  }

  /** 50 records: batches of 24 and 25, and the fiftieth record is in neither. */
  lemma FiftyRecords<T>(xs: seq<T>)
    requires |xs| == 50
    ensures |AsWritten(xs)| == 2
    ensures AsWritten(xs)[0] == xs[..24] && AsWritten(xs)[1] == xs[24..49]
    ensures Flatten(AsWritten(xs)) == xs[..49]
  {
    AsWrittenFlatten(xs);
  }
}
