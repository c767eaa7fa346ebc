/** `orchestrateWriteItems` (maido/cmd/refresh/command.go:141-159): one writer
    per batch, a result channel with room for one error per batch, a wait for
    every writer, then one aggregate verdict. The writers run concurrently in
    the source; the model runs them one after another in batch order, which
    changes only the order in which errors reach the channel. */
module Orchestrator {
  import opened Store
  import opened Writer

  /** The summary error `orchestrateWriteItems` returns when any writer failed. */
  const AggregateError: string := "error writing objects"

  /** How orchestration ends: it returns nil, it returns the summary error after
      logging every collected error, or it never gets past the wait because a
      writer is still running when its script of responses runs out. */
  datatype Aggregate = Succeeded | Failed(error: string, logged: seq<string>) | Blocked

  /** The writer for batch i, run against its own script of responses. */
  function RunOf(tableName: string, inputs: seq<BatchWriteItemInput>, scripts: seq<Script>, i: nat): Run
    requires |scripts| == |inputs| && i < |inputs|
  {
    WriteItems(tableName, inputs[i].requestItems, scripts[i])
  }

  /** The errors the writers for the first `n` batches put on the channel, in
      batch order: at most one per writer. */
  function Emitted(tableName: string, inputs: seq<BatchWriteItemInput>, scripts: seq<Script>, n: nat): (r: seq<string>)
    requires |scripts| == |inputs| && n <= |inputs|
    ensures |r| <= n
    ensures |r| > 0 <==> exists i :: 0 <= i < n && RunOf(tableName, inputs, scripts, i).outcome.Some?
    decreases n
  {
    if n == 0 then []
    else
      var run := RunOf(tableName, inputs, scripts, n - 1);
      Emitted(tableName, inputs, scripts, n - 1) + (if run.outcome.Some? then [run.outcome.value] else [])
  }

  /** Every writer returned, so the wait group reaches zero. */
  ghost predicate AllFinished(tableName: string, inputs: seq<BatchWriteItemInput>, scripts: seq<Script>)
    requires |scripts| == |inputs|
  {
    forall i :: 0 <= i < |inputs| ==> RunOf(tableName, inputs, scripts, i).finished
  }

  /** A send on the result channel; `capacity` is the buffer size. The
      property is the precondition: a send that would block on a full buffer
      cannot be made, and `OrchestrateWriteItems` discharges it at every send.
      The postcondition only restates that the buffer stays within bounds. */
  function Send(channel: seq<string>, capacity: nat, e: string): (r: seq<string>)
    requires |channel| < capacity
    ensures |r| <= capacity
  {
    channel + [e]
  }

  method OrchestrateWriteItems(tableName: string, inputs: seq<BatchWriteItemInput>, scripts: seq<Script>)
    returns (r: Aggregate)
    requires |scripts| == |inputs|
    ensures r.Blocked? <==> !AllFinished(tableName, inputs, scripts)
    ensures r.Failed? <==> AllFinished(tableName, inputs, scripts)
                           && exists i :: 0 <= i < |inputs| && RunOf(tableName, inputs, scripts, i).outcome.Some?
    ensures r.Failed? ==> r.error == AggregateError && 0 < |r.logged| <= |inputs|
    ensures r.Failed? ==> r.logged == Emitted(tableName, inputs, scripts, |inputs|)
    ensures |inputs| == 0 ==> r.Succeeded?
  {
    var requestCount := |inputs|;
    var writeChan: seq<string> := [];
    var waiting := false;
    var i := 0;
    while i < |inputs|
      invariant 0 <= i <= |inputs|
      invariant writeChan == Emitted(tableName, inputs, scripts, i)
      invariant |writeChan| <= i
      invariant waiting <==> exists j :: 0 <= j < i && !RunOf(tableName, inputs, scripts, j).finished
    {
      var run := WriteItems(tableName, inputs[i].requestItems, scripts[i]);
      if run.outcome.Some? {
        writeChan := Send(writeChan, requestCount, run.outcome.value);
      }
      if !run.finished {
        waiting := true;
      }
      i := i + 1;
    }
    if waiting {
      r := Blocked;
    } else if |writeChan| > 0 {
      r := Failed(AggregateError, writeChan);
    } else {
      r := Succeeded;
    }
  }
}
