/** A worked run of the chunker, the writers and the orchestrator on 53
    records. The second batch's first call leaves four requests unprocessed,
    and the retry clears them. */
module Scenarios {
  import opened Results
  import opened Store
  import opened Catalog
  import opened Batching
  import opened Chunker
  import opened Orchestrator

  /** A response with no error and a nil unprocessed map. */
  function Done(): Response
  {
    Response(None, None)
  }

  /** 53 catalog records run end to end. The chunker yields batches of 24, 25
      and 4 requests. Batch 2's first call leaves its last four requests
      unprocessed, so its writer sends them again as a second request. No
      writer reports an error and all of them return, so the aggregate is
      success. */
  lemma RetriedBatchStillSucceeds(tableName: string, items: seq<Item>)
    requires |items| == 53
    ensures var inputs := Wrap(tableName, AsWritten(Requests(items)));
            var leftover := inputs[1].requestItems[tableName][21..];
            var scripts := [[Done()], [Response(None, Some(map[tableName := leftover])), Done()], [Done()]];
            && |inputs| == 3
            && |inputs[0].requestItems[tableName]| == 24
            && |inputs[1].requestItems[tableName]| == 25
            && |inputs[2].requestItems[tableName]| == 4
            && |leftover| == 4
            && RunOf(tableName, inputs, scripts, 0).sent == [inputs[0].requestItems]
            && RunOf(tableName, inputs, scripts, 1).sent == [inputs[1].requestItems, map[tableName := leftover]]
            && RunOf(tableName, inputs, scripts, 2).sent == [inputs[2].requestItems]
            && AllFinished(tableName, inputs, scripts)
            && Emitted(tableName, inputs, scripts, 3) == []
  {
  }
}
