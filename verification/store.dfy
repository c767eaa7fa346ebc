/** The shapes of the DynamoDB `BatchWriteItem` request and response that the
    refresh command exchanges with the store. */
module Store {
  import opened Results
  import opened Catalog

  /** A single write instruction; the command only ever issues puts. */
  datatype WriteRequest = PutRequest(item: AttributeMap)

  /** Write requests grouped by table name (`RequestItems`, `UnprocessedItems`). */
  type RequestMap = map<string, seq<WriteRequest>>

  datatype BatchWriteItemInput = BatchWriteItemInput(requestItems: RequestMap)

  /** What one `BatchWriteItem` call gives back: a request error, if any, and the
      unprocessed-items map, where `None` is Go's nil map. */
  datatype Response = Response(err: Option<string>, unprocessed: Option<RequestMap>)
}
