/** The older DoorDash content script: on load it lists every order, offset
    by offset, and hands the whole list to the background worker. */
module DoorDashContent {
  import opened Wrappers
  import opened Remote
  import opened OrderData
  import opened Cookies
  import opened DoorDashApi
  import opened Extension

  /** `fetchAllPages(headers)`: the while loop over offsets. */
  method FetchAllPages(script: seq<DdListReply<DoorDashRaw>>)
    returns (result: Result<seq<DoorDashRaw>>, requests: seq<OffsetRequest>)
    ensures ListRun(result, requests) == ListFrom(script, 0, 0)
  {
    var offset := 0;
    var allOrders: seq<DoorDashRaw> := [];
    var hasMoreData := true;
    var k: nat := 0;
    requests := [];
    ghost var whole := ListFrom(script, 0, 0);
    assert whole.result.Ok? ==> [] + whole.result.value == whole.result.value;
    assert [] + whole.requests == whole.requests;
    while hasMoreData
      invariant hasMoreData ==> Joined(allOrders, requests, ListFrom(script, k, offset)) == ListFrom(script, 0, 0)
      invariant !hasMoreData ==> ListRun(Ok(allOrders), requests) == ListFrom(script, 0, 0)
      decreases |script| - k, hasMoreData
    {
      var request := OffsetRequest(offset, Limit);
      var data := ReadListPage(ReplyAt(script, k));
      if data.Err? {
        return Err(data.error), requests + [request];
      }
      if data.value.Some? {
        ghost var rest := ListFrom(script, k + 1, offset + Limit);
        JoinedTwice(allOrders, requests, data.value.value, request, rest);
        allOrders := allOrders + data.value.value;
        offset := offset + Limit;
        k := k + 1;
      } else {
        assert allOrders + [] == allOrders;
        hasMoreData := false;
      }
      requests := requests + [request];
    }
    result := Ok(allOrders);
  }

  /** A run's result with `prefix` in front, and its requests after `earlier`. */
  function Joined(prefix: seq<DoorDashRaw>, earlier: seq<OffsetRequest>, run: ListRun<DoorDashRaw>): ListRun<DoorDashRaw> {
    ListRun(if run.result.Ok? then Ok(prefix + run.result.value) else run.result, earlier + run.requests)
  }

  lemma JoinedTwice(prefix: seq<DoorDashRaw>, earlier: seq<OffsetRequest>, more: seq<DoorDashRaw>, request: OffsetRequest, run: ListRun<DoorDashRaw>)
    ensures Joined(prefix + more, earlier + [request], run) ==
            Joined(prefix, earlier, ListRun(if run.result.Ok? then Ok(more + run.result.value) else run.result, [request] + run.requests))
  {
    assert (earlier + [request]) + run.requests == earlier + ([request] + run.requests);
    if run.result.Ok? {
      assert (prefix + more) + run.result.value == prefix + (more + run.result.value);
    }
  }

  /** `fetchDoorDashData`: the csrf cookie is read for the headers first (a
      decoding failure there rejects before anything is fetched); then exactly
      one `storeDoorDashData` message carries every listed order, or nothing is
      sent when the listing fails. The reply to that message only logs. */
  method FetchDoorDashData(cookieString: string, decode: string -> Result<string>, script: seq<DdListReply<DoorDashRaw>>)
    returns (sent: seq<Message>, requests: seq<OffsetRequest>)
    ensures GetCookieValue(cookieString, decode).Err? ==> sent == [] && requests == []
    ensures GetCookieValue(cookieString, decode).Ok? ==>
      var run := ListFrom(script, 0, 0);
      requests == run.requests &&
      (run.result.Err? ==> sent == []) &&
      (run.result.Ok? ==> sent == [StoreDoorDashData(Some(ListedOrders(run.result.value)))])
  {
    var csrfToken := GetCookieValue(cookieString, decode);
    if csrfToken.Err? {
      return [], [];
    }
    var allOrders;
    allOrders, requests := FetchAllPages(script);
    if allOrders.Err? {
      return [], requests;
    }
    sent := [StoreDoorDashData(Some(ListedOrders(allOrders.value)))];
  }
}
