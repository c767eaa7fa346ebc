/** `generateBatchWriteItemInputs` (maido/cmd/refresh/command.go:102-135):
    turns the ordered catalog into `BatchWriteItem` inputs for one table. */
module Chunker {
  import opened Results
  import opened Catalog
  import opened Store
  import opened Batching

  /** The error the Go function wraps: the failing record's name and the encoder's cause. */
  datatype ChunkError = ChunkError(name: string, cause: string)

  /** The put-request the command builds for a record the encoder accepts. */
  function PutRequestOf(it: Item): WriteRequest
  {
    PutRequest(Attributes(Stamp(it)))
  }

  function Requests(items: seq<Item>): (r: seq<WriteRequest>)
    ensures |r| == |items|
    ensures forall i :: 0 <= i < |items| ==> r[i] == PutRequestOf(items[i])
  {
    seq(|items|, i requires 0 <= i < |items| => PutRequestOf(items[i]))
  }

  /** Each batch as an input whose only table is `tableName`. */
  function Wrap(tableName: string, batches: seq<seq<WriteRequest>>): (r: seq<BatchWriteItemInput>)
    ensures |r| == |batches|
    ensures forall k :: 0 <= k < |r| ==> r[k].requestItems == map[tableName := batches[k]]
  {
    seq(|batches|, k requires 0 <= k < |batches| => BatchWriteItemInput(map[tableName := batches[k]]))
  }

  /** The first index at or after `from` whose stamped record the encoder rejects. */
  function FirstRejected(items: seq<Item>, failures: MarshalFailures, from: nat): (r: Option<nat>)
    requires from <= |items|
    ensures r.Some? ==> from <= r.value < |items| && failures(Stamp(items[r.value])).Some?
    decreases |items| - from
  {
    if from == |items| then None
    else if failures(Stamp(items[from])).Some? then Some(from)
    else FirstRejected(items, failures, from + 1)
  }

  /** `FirstRejected` finds the least rejected index, and finds nothing only
      when every record from `from` on is accepted. */
  lemma {:induction false} FirstRejectedIsLeast(items: seq<Item>, failures: MarshalFailures, from: nat)
    requires from <= |items|
    ensures FirstRejected(items, failures, from).Some? ==>
              forall j :: from <= j < FirstRejected(items, failures, from).value ==> failures(Stamp(items[j])).None?
    ensures FirstRejected(items, failures, from).None? <==>
              forall j :: from <= j < |items| ==> failures(Stamp(items[j])).None?
    decreases |items| - from
  {
    if from < |items| && failures(Stamp(items[from])).None? {
      FirstRejectedIsLeast(items, failures, from + 1);
    }
  }

  /** Scanning past an accepted record does not change the first rejection. */
  lemma RejectedStep(items: seq<Item>, failures: MarshalFailures, i: nat)
    requires i < |items|
    ensures failures(Stamp(items[i])).Some? ==> FirstRejected(items, failures, i) == Some(i)
    ensures failures(Stamp(items[i])).None? ==> FirstRejected(items, failures, i) == FirstRejected(items, failures, i + 1)
  {
  }

  /** The error reported for the first rejected record. */
  function RejectionError(items: seq<Item>, failures: MarshalFailures, i: nat): ChunkError
    requires i < |items| && failures(Stamp(items[i])).Some?
  {
    ChunkError(items[i].name, failures(Stamp(items[i])).value)
  }

  // ---------------------------------------------------------------------------
  // The loop state in closed form. Go's `inputs` holds pointers, so a batch
  // that has been sealed into `inputs` still receives later appends through
  // the `input` pointer. The model makes that aliasing explicit: `heap` holds
  // the request list of every batch allocated so far, the current batch is the
  // newest one, and `inputs` lists the handles sealed, in order.

  /** Iteration i on the heap: a fresh batch is allocated when (i + 1) % 25 == 0,
      then the request is appended to the newest batch. */
  function Advance(heap: seq<seq<WriteRequest>>, i: nat, req: WriteRequest): seq<seq<WriteRequest>>
    requires |heap| > 0
  {
    var h := if (i + 1) % MaxBatch == 0 then heap + [[]] else heap;
    h[|h| - 1 := h[|h| - 1] + [req]]
  }

  /** Iteration i on `inputs`: the current handle is sealed when the item
      completes a run of 25 or is the last one. */
  function Seal(inputs: seq<nat>, current: nat, i: nat, len: nat): seq<nat>
  {
    if (i + 1) % MaxBatch == 0 || i + 1 == len then inputs + [current] else inputs
  }

  /** The request lists of all batches allocated after the first `i` items:
      the loop's effect on the heap, iteration by iteration. */
  function HeapAfter(reqs: seq<WriteRequest>, i: nat): (h: seq<seq<WriteRequest>>)
    requires i <= |reqs|
    ensures |h| == 1 + i / MaxBatch
    decreases i
  {
    if i == 0 then [[]]
    else
      var h := HeapAfter(reqs, i - 1);
      assert (i % MaxBatch == 0 ==> i / MaxBatch == (i - 1) / MaxBatch + 1)
          && (i % MaxBatch != 0 ==> i / MaxBatch == (i - 1) / MaxBatch);
      Advance(h, i - 1, reqs[i - 1])
  }

  /** The handles sealed after the first `i` of `len` items, in order. */
  function SealedAfter(i: nat, len: nat): seq<nat>
    decreases i
  {
    if i == 0 then [] else Seal(SealedAfter(i - 1, len), (i - 1) / MaxBatch, i - 1, len)
  }

  /** What the heap holds: item j has gone to handle (j + 1) / 25, so handle k
      holds the items from `BatchStart(k)` up to 25k + 24 that have been seen. */
  lemma {:induction false} HeapAfterHolds(reqs: seq<WriteRequest>, i: nat)
    requires i <= |reqs|
    ensures forall k :: 0 <= k < |HeapAfter(reqs, i)| ==>
              BatchStart(k) <= i && HeapAfter(reqs, i)[k] == reqs[BatchStart(k)..Min(MaxBatch * k + MaxBatch - 1, i)]
    decreases i
  {
    if i > 0 {
      var j := i - 1;
      HeapAfterHolds(reqs, j);
      var prev := HeapAfter(reqs, j);
      var h := if (j + 1) % MaxBatch == 0 then prev + [[]] else prev;
      var next := HeapAfter(reqs, i);
      assert next == h[|h| - 1 := h[|h| - 1] + [reqs[j]]];
      if (j + 1) % MaxBatch == 0 {
        assert BatchStart(|h| - 1) == j;
      }
      forall k | 0 <= k < |next|
        ensures BatchStart(k) <= i && next[k] == reqs[BatchStart(k)..Min(MaxBatch * k + MaxBatch - 1, i)]
      {
        if k == |next| - 1 {
          assert reqs[BatchStart(k)..j] + [reqs[j]] == reqs[BatchStart(k)..i];
        } else {
          assert MaxBatch * k + MaxBatch - 1 <= j;
        }
      }
    }
  }

  /** The number of batches sealed after `i` of `len` items. */
  function SealedCount(i: nat, len: nat): nat
  {
    i / MaxBatch + (if i == len && i % MaxBatch != 0 then 1 else 0)
  }

  /** What `inputs` holds: the handles 0, 1, ..., `SealedCount(i, len)` - 1. */
  lemma {:induction false} SealedAfterHolds(i: nat, len: nat)
    requires i <= len
    ensures |SealedAfter(i, len)| == SealedCount(i, len)
    ensures forall k :: 0 <= k < |SealedAfter(i, len)| ==> SealedAfter(i, len)[k] == k
    decreases i
  {
    if i > 0 {
      SealedAfterHolds(i - 1, len);
      var j := i - 1;
      assert SealedCount(j, len) == j / MaxBatch;
      if (j + 1) % MaxBatch == 0 || j + 1 == len {
        assert SealedCount(i, len) == j / MaxBatch + 1;
      } else {
        assert SealedCount(i, len) == j / MaxBatch;
      }
    }
  }

  /** Once every item is in, the sealed handles 0 .. ceil(L / 25) - 1 hold
      exactly the as-written batches. */
  lemma SealedAreAsWritten(reqs: seq<WriteRequest>)
    ensures |SealedAfter(|reqs|, |reqs|)| == |AsWritten(reqs)|
    ensures forall k :: 0 <= k < |AsWritten(reqs)| ==>
              SealedAfter(|reqs|, |reqs|)[k] < |HeapAfter(reqs, |reqs|)|
              && HeapAfter(reqs, |reqs|)[SealedAfter(|reqs|, |reqs|)[k]] == AsWritten(reqs)[k]
  {
    var n := |reqs|;
    SealedAfterHolds(n, n);
    HeapAfterHolds(reqs, n);
    assert SealedCount(n, n) == CeilDiv(n, MaxBatch);
    forall k | 0 <= k < |AsWritten(reqs)|
      ensures SealedAfter(n, n)[k] < |HeapAfter(reqs, n)|
              && HeapAfter(reqs, n)[SealedAfter(n, n)[k]] == AsWritten(reqs)[k]
    {
      BatchBounds(k, n);
    }
  }

  /** The sealed batches, each as an input for `tableName` (the function's
      result). Every sealed handle is allocated (`SealedAreAsWritten`); the
      empty default only keeps the function total. */
  function Collect(tableName: string, heap: seq<seq<WriteRequest>>, inputs: seq<nat>): seq<BatchWriteItemInput>
  {
    seq(|inputs|, k requires 0 <= k < |inputs| =>
      BatchWriteItemInput(map[tableName := if inputs[k] < |heap| then heap[inputs[k]] else []]))
  }

  lemma CollectAll(tableName: string, reqs: seq<WriteRequest>)
    ensures Collect(tableName, HeapAfter(reqs, |reqs|), SealedAfter(|reqs|, |reqs|)) == Wrap(tableName, AsWritten(reqs))
  {
    SealedAreAsWritten(reqs);
  }

  /** The Go loop, step by step, with the aliasing made explicit as above. */
  method GenerateBatchWriteItemInputs(items: seq<Item>, tableName: string, failures: MarshalFailures)
    returns (r: Result<seq<BatchWriteItemInput>, ChunkError>)
    ensures r.Failure? <==> FirstRejected(items, failures, 0).Some?
    ensures r.Failure? ==> r.error == RejectionError(items, failures, FirstRejected(items, failures, 0).value)
    ensures r.Success? ==> r.value == Wrap(tableName, AsWritten(Requests(items)))
  {
    ghost var reqs := Requests(items);
    var inputs: seq<nat> := [];
    var heap: seq<seq<WriteRequest>> := [[]];
    var input: nat := 0;
    var i := 0;
    while i < |items|
      invariant 0 <= i <= |items|
      invariant heap == HeapAfter(reqs, i) && input == |heap| - 1
      invariant inputs == SealedAfter(i, |items|)
      invariant FirstRejected(items, failures, 0) == FirstRejected(items, failures, i)
    {
      ghost var heap0, inputs0 := heap, inputs;
      RejectedStep(items, failures, i);
      if (i + 1) % MaxBatch == 0 || i + 1 == |items| {
        inputs := inputs + [input];
        if (i + 1) % MaxBatch == 0 {
          heap := heap + [[]];
          input := |heap| - 1;
        }
      }
      assert |heap0| - 1 == i / MaxBatch;
      assert inputs == Seal(inputs0, i / MaxBatch, i, |items|) == SealedAfter(i + 1, |items|);
      var putItemInput := GeneratePutRequestInput(items[i], failures);
      if putItemInput.Failure? {
        r := Failure(ChunkError(items[i].name, putItemInput.error));
        return;
      }
      var putItemRequest := PutRequest(putItemInput.value);
      assert putItemRequest == reqs[i];
      heap := heap[input := heap[input] + [putItemRequest]];
      assert heap == Advance(heap0, i, putItemRequest) == HeapAfter(reqs, i + 1);
      i := i + 1;
    }
    CollectAll(tableName, reqs);
    r := Success(Collect(tableName, heap, inputs));
  }

  /** Every generated put-request carries the `BLEND` partition key and
      otherwise encodes its record unchanged, whatever category it came with. */
  lemma StampedRequests(items: seq<Item>, tableName: string, batches: seq<BatchWriteItemInput>)
    requires batches == Wrap(tableName, AsWritten(Requests(items)))
    ensures forall k, j :: 0 <= k < |batches| && 0 <= j < |batches[k].requestItems[tableName]| ==>
              var item := batches[k].requestItems[tableName][j].item;
              item["PK"] == S(BlendCategory) && Unmarshal(item).Some? && Unmarshal(item).value.category == BlendCategory
  {
  }

  /** The caller-visible shape of a successful result: ceil(L / 25) batches,
      none empty or above 25 requests, the first holding 24 once L >= 25, and
      the batches joined giving the stamped records, less the last one when L is
      a positive multiple of 25. */
  lemma SuccessShape(items: seq<Item>, tableName: string, batches: seq<BatchWriteItemInput>)
    requires batches == Wrap(tableName, AsWritten(Requests(items)))
    ensures |batches| == CeilDiv(|items|, MaxBatch)
    ensures |items| == 0 ==> batches == []
    ensures forall k :: 0 <= k < |batches| ==> 0 < |batches[k].requestItems[tableName]| <= MaxBatch
    ensures |items| >= MaxBatch ==> |batches[0].requestItems[tableName]| == MaxBatch - 1
    ensures Flatten(Unwrap(tableName, batches)) == Kept(Requests(items))
  {
    AsWrittenShape(Requests(items));
    AsWrittenFlatten(Requests(items));
    assert Unwrap(tableName, batches) == AsWritten(Requests(items));
  }

  /** The request lists of `tableName`, one per batch. */
  function Unwrap(tableName: string, batches: seq<BatchWriteItemInput>): (r: seq<seq<WriteRequest>>)
    requires forall k :: 0 <= k < |batches| ==> tableName in batches[k].requestItems
    ensures |r| == |batches|
  {
    seq(|batches|, k requires 0 <= k < |batches| => batches[k].requestItems[tableName])
  }

  /** The chunker as intended: the same stamping and error reporting, but
      batches of exactly 25 (the last possibly shorter) that lose nothing. */
  function IntendedBatchWriteItemInputs(items: seq<Item>, tableName: string, failures: MarshalFailures)
    : (r: Result<seq<BatchWriteItemInput>, ChunkError>)
    ensures r.Failure? <==> FirstRejected(items, failures, 0).Some?
    ensures r.Failure? ==> r.error == RejectionError(items, failures, FirstRejected(items, failures, 0).value)
    ensures r.Success? ==> |r.value| == CeilDiv(|items|, MaxBatch)
    ensures r.Success? ==> forall k :: 0 <= k < |r.value| ==> r.value[k].requestItems.Keys == {tableName}
    ensures r.Success? ==> forall k :: 0 <= k < |r.value| ==> 0 < |r.value[k].requestItems[tableName]| <= MaxBatch
    ensures r.Success? ==> Flatten(Unwrap(tableName, r.value)) == Requests(items)
  {
    match FirstRejected(items, failures, 0)
    case Some(i) => Failure(RejectionError(items, failures, i))
    case None =>
      var batches := Wrap(tableName, Chunk(Requests(items)));
      assert Unwrap(tableName, batches) == Chunk(Requests(items));
      Success(batches)
  }
}
