/** `writeItems` (maido/cmd/refresh/command.go:161-185): one `BatchWriteItem`
    call, then a retry loop that resends whatever the store left unprocessed.
    The store is a finite script of responses, consumed one per call; a run
    that needs more responses than the script holds is reported unfinished,
    which is how the model states that the Go loop would still be running. */
module Writer {
  import opened Results
  import opened Store

  /** The store's answers, in call order. */
  type Script = seq<Response>

  /** What one writer did: the request maps the store answered, in order; the
      error it put on the result channel, if any; and whether it returned.
      When the script runs out first, `finished` is false: the writer is
      still waiting for an answer or still looping, and the request it sent
      last, which has no answer yet, is not listed in `sent`. */
  datatype Run = Run(sent: seq<RequestMap>, outcome: Option<string>, finished: bool)

  /** The `for` loop: send `pending`, then go on with the response's unprocessed
      map until the store answers with a nil one. A request error is only
      logged; the response's map decides alone whether the loop goes on. */
  function RetryLoop(pending: RequestMap, script: Script): (r: Run)
    ensures r.outcome.None?
    ensures |r.sent| <= |script|
    ensures |script| > 0 ==> |r.sent| > 0 && r.sent[0] == pending
    ensures forall j :: 1 <= j < |r.sent| ==> script[j - 1].unprocessed == Some(r.sent[j])
    ensures forall j :: 0 <= j < |r.sent| - 1 ==> script[j].unprocessed.Some?
    ensures r.finished ==> |r.sent| > 0 && script[|r.sent| - 1].unprocessed.None?
    ensures !r.finished ==> |r.sent| == |script|
    ensures !r.finished ==> forall j :: 0 <= j < |script| ==> script[j].unprocessed.Some?
    decreases |script|
  {
    if |script| == 0 then Run([], None, false)
    else match script[0].unprocessed
      case None => Run([pending], None, true)
      case Some(next) =>
        var rest := RetryLoop(next, script[1..]);
        Run([pending] + rest.sent, None, rest.finished)
  }

  /** True when the first response makes `writeItems` enter its retry loop:
      no request error, and `tableName` is a key of the unprocessed map
      (a lookup in a nil map finds nothing). */
  predicate EntersRetry(tableName: string, first: Response)
  {
    first.err.None? && first.unprocessed.Some? && tableName in first.unprocessed.value
  }

  /** `writeItems`: send the whole input; a request error goes to the channel
      and ends the writer; otherwise retry only if `tableName` is unprocessed. */
  function WriteItems(tableName: string, input: RequestMap, script: Script): (r: Run)
    ensures r.outcome.Some? <==> |script| > 0 && script[0].err.Some?
    ensures r.outcome.Some? ==> r.outcome == script[0].err && r.sent == [input] && r.finished
    ensures |r.sent| <= |script|
    ensures |script| > 0 ==> |r.sent| > 0 && r.sent[0] == input
    ensures |r.sent| > 1 ==> EntersRetry(tableName, script[0])
    ensures forall j :: 1 <= j < |r.sent| ==> script[j - 1].unprocessed == Some(r.sent[j])
  {
    if |script| == 0 then Run([], None, false)
    else if script[0].err.Some? then Run([input], script[0].err, true)
    else if EntersRetry(tableName, script[0]) then
      var loop := RetryLoop(script[0].unprocessed.value, script[1..]);
      Run([input] + loop.sent, None, loop.finished)
    else Run([input], None, true)
  }

  /** The index, from 1 on, of the first response whose unprocessed map is nil. */
  ghost predicate FirstNilAt(script: Script, n: nat)
  {
    && 1 <= n < |script|
    && script[n].unprocessed.None?
    && forall j :: 1 <= j < n ==> script[j].unprocessed.Some?
  }

  /** Request count and termination of a writer whose first call enters the
      retry loop: it returns exactly when some later response has a nil
      unprocessed map, after 1 + n requests where n is the first such response;
      without one, it consumes the whole script and is still running. */
  lemma {:induction false} RetryCount(tableName: string, input: RequestMap, script: Script)
    requires |script| > 0 && EntersRetry(tableName, script[0])
    ensures WriteItems(tableName, input, script).finished <==> exists n :: FirstNilAt(script, n)
    ensures forall n: nat :: FirstNilAt(script, n) ==> |WriteItems(tableName, input, script).sent| == n + 1
    ensures !WriteItems(tableName, input, script).finished ==> |WriteItems(tableName, input, script).sent| == |script|
    ensures WriteItems(tableName, input, script).outcome.None?
  {
    var r := WriteItems(tableName, input, script);
    var loop := RetryLoop(script[0].unprocessed.value, script[1..]);
    assert r.sent == [input] + loop.sent && r.finished == loop.finished;
    if r.finished {
      var m := |r.sent| - 1;
      assert script[1..][m - 1] == script[m];
      forall j | 1 <= j < m
        ensures script[j].unprocessed.Some?
      {
        assert script[1..][j - 1] == script[j];
      }
      assert FirstNilAt(script, m);
      forall n: nat | FirstNilAt(script, n)
        ensures |r.sent| == n + 1
      {
        FirstNilUnique(script, n, m);
      }
    } else {
      forall n | 1 <= n < |script|
        ensures script[n].unprocessed.Some?
      {
        assert script[1..][n - 1] == script[n];
      }
    }
  }

  lemma FirstNilUnique(script: Script, a: nat, b: nat)
    requires FirstNilAt(script, a) && FirstNilAt(script, b)
    ensures a == b
  {
  }

  /** A failing first call is terminal: one error, one request, no retry. */
  lemma FirstCallErrorTerminal(tableName: string, input: RequestMap, script: Script)
    requires |script| > 0 && script[0].err.Some?
    ensures WriteItems(tableName, input, script) == Run([input], script[0].err, true)
  {
  }

  /** A successful first call whose unprocessed map lacks `tableName` ends the
      writer at once, with no error, whatever else the map holds. */
  lemma NoRetryWithoutTable(tableName: string, input: RequestMap, script: Script)
    requires |script| > 0 && script[0].err.None? && !EntersRetry(tableName, script[0])
    ensures WriteItems(tableName, input, script) == Run([input], None, true)
  {
  }

  // ---------------------------------------------------------------------------
  // The loop's exit test is "the map is nil", not "no requests remain". A
  // response whose unprocessed map is present but empty keeps the loop going,
  // and the next request it sends has no items at all.

  /** As written: an empty (non-nil) unprocessed map is resent as a request. */
  lemma EmptyMapIsResent(pending: RequestMap)
    ensures RetryLoop(pending, [Response(None, Some(map[])), Response(None, None)]).sent == [pending, map[]]
  {
  }

  /** As written: a store that keeps answering with an empty map keeps the
      loop running, however long the script. */
  lemma EmptyMapsNeverFinish(pending: RequestMap, script: Script)
    requires forall j :: 0 <= j < |script| ==> script[j] == Response(None, Some(map[]))
    ensures !RetryLoop(pending, script).finished
  {
  }

  /** The map holds at least one write request for some table. */
  predicate HasRequests(m: RequestMap)
  {
    exists t :: t in m && |m[t]| > 0
  }

  /** Nothing is left to write: the map is nil, or none of its tables has a request. */
  predicate NothingLeft(unprocessed: Option<RequestMap>)
  {
    unprocessed.None? || !HasRequests(unprocessed.value)
  }

  /** The loop as intended: stop once no unprocessed requests remain, so every
      retry carries at least one table's requests. It is entered only with
      requests to send, as `WriteItemsUntilNothingLeft` guarantees. */
  function RetryUntilNothingLeft(pending: RequestMap, script: Script): (r: Run)
    requires HasRequests(pending)
    ensures r.outcome.None?
    ensures |r.sent| <= |script|
    ensures |script| > 0 ==> |r.sent| > 0 && r.sent[0] == pending
    ensures forall j :: 1 <= j < |r.sent| ==> script[j - 1].unprocessed == Some(r.sent[j])
    ensures forall j :: 0 <= j < |r.sent| ==> HasRequests(r.sent[j])
    ensures r.finished <==> exists j :: 0 <= j < |script| && NothingLeft(script[j].unprocessed)
    ensures r.finished ==> NothingLeft(script[|r.sent| - 1].unprocessed)
    decreases |script|
  {
    if |script| == 0 then Run([], None, false)
    else if NothingLeft(script[0].unprocessed) then Run([pending], None, true)
    else
      var rest := RetryUntilNothingLeft(script[0].unprocessed.value, script[1..]);
      assert forall j :: 1 <= j < |script| ==> script[1..][j - 1] == script[j];
      Run([pending] + rest.sent, None, rest.finished)
  }

  /** `writeItems` as intended: the retry loop is entered only when the first
      response leaves some write request unprocessed, and it stops once none
      remains; the error path is the original's. */
  function WriteItemsUntilNothingLeft(tableName: string, input: RequestMap, script: Script): (r: Run)
    ensures r.outcome.Some? <==> |script| > 0 && script[0].err.Some?
    ensures r.outcome.Some? ==> r.outcome == script[0].err && r.sent == [input] && r.finished
    ensures |r.sent| <= |script|
    ensures |script| > 0 ==> |r.sent| > 0 && r.sent[0] == input
    ensures |r.sent| > 1 ==> script[0].err.None? && !NothingLeft(script[0].unprocessed)
    ensures forall j :: 1 <= j < |r.sent| ==> script[j - 1].unprocessed == Some(r.sent[j]) && HasRequests(r.sent[j])
    ensures r.finished <==> exists j :: 0 <= j < |script| && (script[0].err.Some? || NothingLeft(script[j].unprocessed))
  {
    if |script| == 0 then Run([], None, false)
    else if script[0].err.Some? then Run([input], script[0].err, true)
    else if NothingLeft(script[0].unprocessed) then Run([input], None, true)
    else
      var loop := RetryUntilNothingLeft(script[0].unprocessed.value, script[1..]);
      assert forall j :: 1 <= j < |script| ==> script[1..][j - 1] == script[j];
      Run([input] + loop.sent, None, loop.finished)
  }
}
