# maido refresh: batch-write pipeline

This project models the core of the `refresh` command of the maido admin CLI
(`maido/cmd/refresh/command.go`). The command writes every record of the
latest catalog snapshot into a DynamoDB table as put-requests, which
overwrite items with the same key; nothing is deleted, so items missing from
the snapshot stay in the table. The model covers its three
sequential parts:

1. **Chunker** (`generatePutRequestInput`, `generateBatchWriteItemInputs`).
   - Every catalog item is stamped with the partition key `BLEND` and encoded.
   - The put-requests are grouped into `BatchWriteItem` inputs of at most 25.
   - The model follows the loop as written, not the 25-per-batch rule it aims at.
   - A batch is sealed *before* the current item is appended.
   - A sealed batch is a pointer, so it still receives the item appended right
     after sealing on the last iteration.
   - `Chunker.GenerateBatchWriteItemInputs` makes this aliasing explicit. A
     heap holds one request list per allocated batch, and `inputs` lists the
     sealed handles.
   - The result is:
     - the first batch holds 24 requests;
     - later full batches hold 25;
     - when the item count is a positive multiple of 25, the last item goes
       into a batch that is never sealed, and it is lost.
   - `Batching.AsWritten` is the closed form of that partition.
   - `Batching.Chunk` is the intended partition.
2. **Writer** (`writeItems`).
   - The store is a finite script of responses. Each response is an optional
     request error plus an optional unprocessed-items map, where `None` is
     Go's nil map.
   - An error on the first call is the writer's only possible outcome.
   - The retry loop is entered only when the first unprocessed map has the
     table as a key.
   - Each retry resends the previous response's whole unprocessed map.
   - The loop stops only on a nil map.
   - Errors during retries are logged and never become an outcome.
   - A run that would need more responses than the script holds is reported
     as unfinished. This is how the model states that the Go loop would
     still be running.
3. **Orchestrator** (`orchestrateWriteItems`).
   - There is one writer per batch. The result channel has room for one error
     per batch.
   - The orchestrator waits for all writers. Then it returns nil, or the
     summary error "error writing objects" after logging every collected
     error.
   - The writers run as a sequential fold in batch order.
   - Each send on the channel must find room (`Orchestrator.Send` requires
     it). The proof that no send ever blocks is part of the method's
     verification.

Modules:
- `Results` holds Option and Result.
- `Catalog` holds the item record, stamping and the attribute encoding.
- `Store` holds the request and response shapes.
- `Batching` holds the generic partitions.
- `Chunker`, `Writer` and `Orchestrator` model the three parts.
- `Scenarios` holds a worked multi-batch run.

The model follows the loops as written, and two places depart from what they
evidently aim at:
- DynamoDB caps a `BatchWriteItem` call at 25 requests. The chunking loop
  evidently aims at runs of 25 that lose nothing. As written it gives 24, 25
  and 4 for 53 records (`Batching.FiftyThreeRecords`), and a positive
  multiple of 25 loses its last record.
- Retrying makes sense only while unprocessed requests remain. The loop's
  exit test is for a nil map, so an empty map is resent.
  `Writer.WriteItemsUntilNothingLeft` enters the loop, and leaves it, on
  whether any write request remains, so it never sends an empty retry.

## Model

| member | source | states |
|---|---|---|
| Catalog.GeneratePutRequestInput | maido/cmd/refresh/command.go:93-100 | fails exactly when the encoder rejects the stamped record, returning the encoder's error and no map |
| Catalog.PutRequestStamped | maido/cmd/refresh/command.go:93-95 | an accepted record is encoded with PK = "BLEND" whatever its own Type; decoding the map gives the record with only its Type replaced |
| Catalog.AttributesRoundTrip | maido/cmd/refresh/command.go:61-68 | the encoding has one attribute per struct field, named by its dynamodbav tag, and decoding it gives the record back |
| Chunker.GenerateBatchWriteItemInputs | maido/cmd/refresh/command.go:102-135 | the loop as written returns the as-written partition of the stamped requests, one single-table input per batch; it fails iff some record is rejected, and the error names the first rejected record and carries the encoder's cause, with no partial result |
| Chunker.HeapAfterHolds | maido/cmd/refresh/command.go:110-133 | after i items, batch k holds exactly the requests of the items j < i with (j + 1) / 25 == k, so a sealed batch still receives the item appended after it was sealed |
| Chunker.SealedAfterHolds | maido/cmd/refresh/command.go:111-119 | after i of L items the sealed batches are the first i / 25 allocated, plus the current one once the last item is reached and L is not a multiple of 25 |
| Chunker.SealedAreAsWritten | maido/cmd/refresh/command.go:111-134 | at loop exit the sealed batches are exactly the as-written partition, ceil(L / 25) of them |
| Chunker.FirstRejectedIsLeast | maido/cmd/refresh/command.go:122-125 | the reported record is the first rejected one, and nothing is reported iff every record is accepted |
| Chunker.SuccessShape | maido/cmd/refresh/command.go:102-134 | a successful result has ceil(L / 25) batches (none for no records); each holds 1 to 25 requests; the first holds 24 once L >= 25; joined, they give the stamped requests, less the last when L is a positive multiple of 25 |
| Chunker.StampedRequests | maido/cmd/refresh/command.go:122-132 | every put-request in every returned batch has PK = "BLEND" and decodes to a record of category BLEND |
| Chunker.IntendedBatchWriteItemInputs | maido/cmd/refresh/command.go:102-135 | corrected chunker: same failure behaviour; on success, ceil(L / 25) single-table batches of 1 to 25 requests that join to all stamped requests |
| Batching.AsWrittenShape | maido/cmd/refresh/command.go:111-119 | the as-written partition has ceil(L / 25) batches, none iff L = 0, each holding 1 to 25; the first holds 24 when L >= 25, and every middle batch holds 25 |
| Batching.AsWrittenFlatten | maido/cmd/refresh/command.go:111-134 | the as-written batches, joined, give the input when L is not a positive multiple of 25, and the input without its last item when it is |
| Batching.LastItemDropped | maido/cmd/refresh/command.go:113-119 | for a positive multiple of 25 the joined batches are one item short of the input |
| Batching.FiftyThreeRecords | maido/cmd/refresh/command.go:110-133 | 53 records give three batches of 24, 25 and 4 that together hold all 53 |
| Batching.FiftyRecords | maido/cmd/refresh/command.go:110-133 | 50 records give batches of records 1-24 and 25-49; record 50 is in neither |
| Batching.Chunk | maido/cmd/refresh/command.go:102-135 | the intended partition: ceil(L / 25) batches of 1 to 25 items, all but the last holding 25, that join to the input |
| Writer.RetryLoop | maido/cmd/refresh/command.go:171-183 | every iteration sends the previous response's unprocessed map; the loop ends exactly at the first nil map or runs on to the end of the script; it never yields an error |
| Writer.WriteItems | maido/cmd/refresh/command.go:161-185 | the writer's outcome is an error iff the first call fails, and then it is that error after one request; the first request is the whole input; more than one request only when the first response lists the table as unprocessed; each later request is the previous response's unprocessed map |
| Writer.RetryCount | maido/cmd/refresh/command.go:169-183 | once the retry loop is entered, the writer returns iff some later response has a nil map; it then sends 1 + n requests, n being the first such response, and reports no error; otherwise it consumes the whole script |
| Writer.FirstCallErrorTerminal | maido/cmd/refresh/command.go:163-168 | a failing first call emits exactly that error after one request and returns |
| Writer.NoRetryWithoutTable | maido/cmd/refresh/command.go:169-170 | a successful first call whose unprocessed map is nil or lacks the table ends the writer after one request with no error |
| Writer.EmptyMapIsResent | maido/cmd/refresh/command.go:180-182 | as written, a response with an empty non-nil unprocessed map is followed by a request with no items |
| Writer.EmptyMapsNeverFinish | maido/cmd/refresh/command.go:171-183 | as written, a store that keeps answering with empty maps keeps the loop running |
| Writer.RetryUntilNothingLeft | maido/cmd/refresh/command.go:171-183 | corrected loop, entered only with a request map that holds a write request: it stops iff some response has no write request left for any table; every request it sends, the first included, holds at least one write request; otherwise it resends the unprocessed map as the original does |
| Writer.WriteItemsUntilNothingLeft | maido/cmd/refresh/command.go:161-185 | corrected writer: the first call's error ends it with that error, as in the original; it enters the retry loop only when the first response has no error and leaves some write request unprocessed; every retry holds at least one write request and is the previous unprocessed map; it returns iff the first call errs or some response leaves nothing to write |
| Orchestrator.Emitted | maido/cmd/refresh/command.go:146-148 | the writers for n batches put at most n errors on the channel, and at least one iff some writer's outcome is an error |
| Orchestrator.Send | maido/cmd/refresh/command.go:143 | its precondition is the property: a send is allowed only while the buffered channel has room, so no send blocks; the buffer then never exceeds its capacity |
| Orchestrator.OrchestrateWriteItems | maido/cmd/refresh/command.go:141-159 | it never gets past the wait iff some writer does not finish; otherwise it fails iff some writer emitted an error, and then it returns "error writing objects" having logged the 1 to len(inputs) collected errors, which is the channel's capacity; no batches means success |
| Scenarios.RetriedBatchStillSucceeds | maido/cmd/refresh/command.go:102-185 | 53 records run end to end: the chunker yields batches of 24, 25 and 4; when the second batch's first call leaves its last four requests unprocessed and the retry clears them, that writer sends two requests, the second being the leftovers, every writer returns and nothing reaches the channel |

## Findings

| source | as written | input that shows it | evidently intended | confidence | as-written member | corrected member |
|---|---|---|---|---|---|---|
| maido/cmd/refresh/command.go:111-119 | when the item count is a positive multiple of 25, the last item is appended to a batch allocated at line 114 that is never added to `inputs` | 25 records: one batch holding records 1-24; record 25 is never written | every record is written, in batches of at most 25 | not executed; high | Batching.LastItemDropped | Chunker.IntendedBatchWriteItemInputs |
| maido/cmd/refresh/command.go:180-182 | the retry loop stops only on a nil unprocessed map, so an empty non-nil map is resent as a request with no items | first response lists the table as unprocessed, the retry answers with an empty map | stop once no unprocessed items remain | not executed; medium, because it depends on the SDK decoding an empty map as non-nil | Writer.EmptyMapIsResent | Writer.WriteItemsUntilNothingLeft |

The writer and the orchestrator accept any list of batches. The corrected
chunker's output goes through them unchanged.

## Left out

- `initialize_client` (lines 29-55) is left out. It is AWS configuration and endpoint bootstrapping.
- The store client is replaced by a per-writer script of responses.
- `obtainLatestItems` and `readItems` (lines 70-91) are left out. They list a directory, read a file and decode JSON, which is I/O. Line 75 indexes an empty directory listing; that runtime failure is outside the model.
- The cobra command, `main` and the viper lookups (lines 20-27, 187-210) are left out. `main` ignores the orchestrator's result at line 209.
- Logging (lines 154, 172, 178) is left out. The model keeps only the errors that would be logged at the end (`Failed.logged`).
- Catalog.Attributes stands for `attributevalue.MarshalMap` as one attribute per struct field, named by its tag. The encoder's own rules for empty values are not modelled. When it fails is an opaque parameter (`MarshalFailures`).
- Goroutines, the `sync.WaitGroup` and closing the channel (lines 143-153) are not modelled as concurrency. The writers run one after another, and waiting is reduced to "every writer finished". A writer that never finishes makes the result `Blocked`.
- Orchestrator.OrchestrateWriteItems: logged errors are in batch order. In the source their order depends on goroutine scheduling, so the model fixes one of the possible orders.
- Writer.WriteItems: a retry that errs leaves `resp` nil in Go, and line 180 would dereference it. The model takes each response as a pair (error, map), so this nil-pointer failure is not modelled.
- `context.TODO()` and the SDK's own retries and timeouts are left out. A call the script does not answer leaves the writer unfinished, as if it were still waiting; `Run.sent` lists only the answered requests.
