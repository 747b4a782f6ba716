/** The newer DoorDash content script: when asked with `fetchData`, it lists
    the order uuids, then looks up each order's post-checkout data and
    receipt, one uuid after another, and hands the batch to the background
    worker. The detail endpoints are functions from the uuid to the reply. */
module DoorDashDetails {
  import opened Wrappers
  import opened Remote
  import opened OrderData
  import opened Cookies
  import opened DoorDashApi
  import opened Extension

  /** An order as the uuid query lists it. */
  datatype DdOrderRef = DdOrderRef(orderUuid: Option<string>)

  /** `orders.map(order => order.orderUuid)`. */
  function Uuids(orders: seq<DdOrderRef>): (uuids: seq<Option<string>>)
    ensures |uuids| == |orders|
    ensures forall i :: 0 <= i < |orders| ==> uuids[i] == orders[i].orderUuid
  {
    seq(|orders|, i requires 0 <= i < |orders| => orders[i].orderUuid)
  }

  /** The uuids a listing run yields, in page order. */
  function UuidsOf(result: Result<seq<DdOrderRef>>): Result<seq<Option<string>>> {
    match result
    case Err(e) => Err(e)
    case Ok(orders) => Ok(Uuids(orders))
  }

  /** `fetchOrderUuids(headers)`: the offset loop, keeping each order's uuid. */
  method FetchOrderUuids(script: seq<DdListReply<DdOrderRef>>)
    returns (result: Result<seq<Option<string>>>, requests: seq<OffsetRequest>)
    ensures requests == ListFrom(script, 0, 0).requests
    ensures result == UuidsOf(ListFrom(script, 0, 0).result)
  {
    var offset := 0;
    var allOrders: seq<Option<string>> := [];
    var hasMoreData := true;
    var k: nat := 0;
    requests := [];
    ghost var whole := ListFrom(script, 0, 0);
    assert whole.result.Ok? ==> [] + Uuids(whole.result.value) == Uuids(whole.result.value);
    assert [] + whole.requests == whole.requests;
    while hasMoreData
      invariant hasMoreData ==> requests + ListFrom(script, k, offset).requests == ListFrom(script, 0, 0).requests
      invariant hasMoreData ==> Prefixed(allOrders, UuidsOf(ListFrom(script, k, offset).result)) == UuidsOf(ListFrom(script, 0, 0).result)
      invariant !hasMoreData ==> requests == ListFrom(script, 0, 0).requests
      invariant !hasMoreData ==> Ok(allOrders) == UuidsOf(ListFrom(script, 0, 0).result)
      decreases |script| - k, hasMoreData
    {
      var request := OffsetRequest(offset, Limit);
      var data := ReadListPage(ReplyAt(script, k));
      ghost var here := ListFrom(script, k, offset);
      if data.Err? {
        assert here == ListRun(Err(data.error), [request]);
        return Err(data.error), requests + [request];
      }
      if data.value.Some? {
        ghost var rest := ListFrom(script, k + 1, offset + Limit);
        assert here == ListRun(if rest.result.Ok? then Ok(data.value.value + rest.result.value) else rest.result,
                               [request] + rest.requests);
        UuidsStep(allOrders, requests, request, data.value.value, rest);
        allOrders := allOrders + Uuids(data.value.value);
        offset := offset + Limit;
        k := k + 1;
      } else {
        assert here == ListRun(Ok([]), [request]);
        assert allOrders + Uuids([]) == allOrders;
        hasMoreData := false;
      }
      requests := requests + [request];
    }
    result := Ok(allOrders);
  }

  function Prefixed(prefix: seq<Option<string>>, r: Result<seq<Option<string>>>): Result<seq<Option<string>>> {
    if r.Ok? then Ok(prefix + r.value) else r
  }

  /** A non-empty page moves its uuids from the rest of the run to the
      accumulated prefix. */
  lemma UuidsStep(allOrders: seq<Option<string>>, requests: seq<OffsetRequest>, request: OffsetRequest,
                  page: seq<DdOrderRef>, rest: ListRun<DdOrderRef>)
    ensures (requests + [request]) + rest.requests == requests + ([request] + rest.requests)
    ensures Prefixed(allOrders + Uuids(page), UuidsOf(rest.result)) ==
      Prefixed(allOrders, UuidsOf(if rest.result.Ok? then Ok(page + rest.result.value) else rest.result))
  {
    if rest.result.Ok? {
      UuidsAppend(page, rest.result.value);
      assert (allOrders + Uuids(page)) + Uuids(rest.result.value)
          == allOrders + (Uuids(page) + Uuids(rest.result.value));
    }
  }

  lemma UuidsAppend(a: seq<DdOrderRef>, b: seq<DdOrderRef>)
    ensures Uuids(a + b) == Uuids(a) + Uuids(b)
  {
  }

  /** A detail reply body: `result.data`. */
  datatype DetailPayload = DetailPayload(data: Option<JsonObject>)

  type DetailReply = HttpReply<DetailPayload>

  /** `(await response.json()).data`: a body that is not JSON rejects, a
      `null` body throws on `.data`, and `.data` of `false`, `0` or `""` is
      `undefined`. */
  function ReadDetail(reply: DetailReply): (r: Result<Option<JsonObject>>)
    ensures ReadJson(reply).Err? ==> r == Err(ReadJson(reply).error)
    ensures r.Err? <==> reply.Rejected? || reply.body.Unparsable? || reply.body.JsonNull?
    ensures reply.Answered? && reply.body.JsonNull? ==> r == Err(TypeError)
    ensures reply.Answered? && reply.body.FalsyScalar? ==> r == Ok(None)
    ensures reply.Answered? && reply.body.Json? ==> r == Ok(reply.body.value.data)
  {
    match ReadJson(reply)
    case Err(e) => Err(e)
    case Ok(None) => if reply.body.JsonNull? then Err(TypeError) else Ok(None)
    case Ok(Some(payload)) => Ok(payload.data)
  }

  /** One detail request, by endpoint and uuid. */
  datatype Lookup = PostCheckout(uuid: Option<string>) | Receipt(uuid: Option<string>)

  /** The detail loop's outcome: the entries (or the error that ended it) and
      the lookups it made, in order. */
  datatype DetailRun = DetailRun(result: Result<seq<DetailEntry>>, lookups: seq<Lookup>)

  /** The `for…of` loop over the uuids: for each, the post-checkout data, then
      the receipt; the first failure ends the loop. */
  function DetailsOf(uuids: seq<Option<string>>, postCheckout: Option<string> -> DetailReply,
                     receipt: Option<string> -> DetailReply): (run: DetailRun)
    decreases |uuids|
  {
    if |uuids| == 0 then DetailRun(Ok([]), [])
    else
      var before := DetailsOf(uuids[..|uuids| - 1], postCheckout, receipt);
      var uuid := uuids[|uuids| - 1];
      if before.result.Err? then before
      else match ReadDetail(postCheckout(uuid))
        case Err(e) => DetailRun(Err(e), before.lookups + [PostCheckout(uuid)])
        case Ok(postCheckoutData) =>
          match ReadDetail(receipt(uuid))
          case Err(e) => DetailRun(Err(e), before.lookups + [PostCheckout(uuid), Receipt(uuid)])
          case Ok(orderReceiptData) =>
            DetailRun(Ok(before.result.value + [DetailEntry(uuid, postCheckoutData, orderReceiptData)]),
                      before.lookups + [PostCheckout(uuid), Receipt(uuid)])
  }

  /** The detail loop of `fetchDoorDashData`. */
  method FetchDetails(uuids: seq<Option<string>>, postCheckout: Option<string> -> DetailReply,
                      receipt: Option<string> -> DetailReply)
    returns (result: Result<seq<DetailEntry>>, lookups: seq<Lookup>)
    ensures DetailRun(result, lookups) == DetailsOf(uuids, postCheckout, receipt)
  {
    var allOrdersDetails: seq<DetailEntry> := [];
    lookups := [];
    for i := 0 to |uuids|
      invariant DetailsOf(uuids[..i], postCheckout, receipt) == DetailRun(Ok(allOrdersDetails), lookups)
    {
      assert uuids[..i + 1][..i] == uuids[..i];
      var uuid := uuids[i];
      var postCheckoutData := ReadDetail(postCheckout(uuid));
      lookups := lookups + [PostCheckout(uuid)];
      if postCheckoutData.Err? {
        DetailsStopAtError(uuids, postCheckout, receipt, i + 1);
        return Err(postCheckoutData.error), lookups;
      }
      var orderReceiptData := ReadDetail(receipt(uuid));
      lookups := lookups + [Receipt(uuid)];
      assert lookups == DetailsOf(uuids[..i], postCheckout, receipt).lookups + [PostCheckout(uuid), Receipt(uuid)];
      if orderReceiptData.Err? {
        DetailsStopAtError(uuids, postCheckout, receipt, i + 1);
        return Err(orderReceiptData.error), lookups;
      }
      allOrdersDetails := allOrdersDetails + [DetailEntry(uuid, postCheckoutData.value, orderReceiptData.value)];
    }
    assert uuids[..|uuids|] == uuids;
    result := Ok(allOrdersDetails);
  }

  /** Once the loop has failed, the remaining uuids are never looked up. */
  lemma {:induction false} DetailsStopAtError(uuids: seq<Option<string>>, postCheckout: Option<string> -> DetailReply,
                                              receipt: Option<string> -> DetailReply, n: nat)
    requires n <= |uuids| && DetailsOf(uuids[..n], postCheckout, receipt).result.Err?
    ensures DetailsOf(uuids, postCheckout, receipt) == DetailsOf(uuids[..n], postCheckout, receipt)
    decreases |uuids| - n
  {
    if n < |uuids| {
      assert uuids[..n + 1][..n] == uuids[..n];
      DetailsStopAtError(uuids, postCheckout, receipt, n + 1);
    } else {
      assert uuids[..n] == uuids;
    }
  }

  /** Whether both lookups for `uuid` succeed. */
  predicate LookupsSucceed(uuid: Option<string>, postCheckout: Option<string> -> DetailReply,
                           receipt: Option<string> -> DetailReply) {
    ReadDetail(postCheckout(uuid)).Ok? && ReadDetail(receipt(uuid)).Ok?
  }

  /** A complete batch has exactly one entry per uuid, in uuid order, holding
      that uuid's two lookups; the lookups alternate post-checkout, receipt. */
  lemma {:induction false} DetailsOnePerUuid(uuids: seq<Option<string>>, postCheckout: Option<string> -> DetailReply,
                                             receipt: Option<string> -> DetailReply)
    ensures var run := DetailsOf(uuids, postCheckout, receipt);
      run.result.Ok? ==>
        |run.result.value| == |uuids| && |run.lookups| == 2 * |uuids| &&
        forall i :: 0 <= i < |uuids| ==>
          LookupsSucceed(uuids[i], postCheckout, receipt) &&
          run.result.value[i] == DetailEntry(uuids[i], ReadDetail(postCheckout(uuids[i])).value, ReadDetail(receipt(uuids[i])).value) &&
          run.lookups[2 * i] == PostCheckout(uuids[i]) && run.lookups[2 * i + 1] == Receipt(uuids[i])
    decreases |uuids|
  {
    if |uuids| > 0 {
      var n := |uuids|;
      var prefix := uuids[..n - 1];
      DetailsOnePerUuid(prefix, postCheckout, receipt);
      var run := DetailsOf(uuids, postCheckout, receipt);
      if run.result.Ok? {
        var before := DetailsOf(prefix, postCheckout, receipt);
        assert before.result.Ok?;
        forall i | 0 <= i < n - 1
          ensures LookupsSucceed(uuids[i], postCheckout, receipt)
          ensures run.result.value[i] == DetailEntry(uuids[i], ReadDetail(postCheckout(uuids[i])).value, ReadDetail(receipt(uuids[i])).value)
          ensures run.lookups[2 * i] == PostCheckout(uuids[i]) && run.lookups[2 * i + 1] == Receipt(uuids[i])
        {
          assert prefix[i] == uuids[i];
          assert run.result.value[i] == before.result.value[i];
          assert run.lookups[2 * i] == before.lookups[2 * i];
          assert run.lookups[2 * i + 1] == before.lookups[2 * i + 1];
        }
      }
    }
  }

  /** The batch fails exactly when some uuid's lookup fails: there is no
      per-order recovery. */
  lemma {:induction false} DetailsFailWhole(uuids: seq<Option<string>>, postCheckout: Option<string> -> DetailReply,
                                            receipt: Option<string> -> DetailReply)
    ensures DetailsOf(uuids, postCheckout, receipt).result.Err? <==>
      exists i :: 0 <= i < |uuids| && !LookupsSucceed(uuids[i], postCheckout, receipt)
    decreases |uuids|
  {
    if |uuids| > 0 {
      var n := |uuids|;
      var prefix := uuids[..n - 1];
      DetailsFailWhole(prefix, postCheckout, receipt);
      if exists i :: 0 <= i < |prefix| && !LookupsSucceed(prefix[i], postCheckout, receipt) {
        var i :| 0 <= i < |prefix| && !LookupsSucceed(prefix[i], postCheckout, receipt);
        assert uuids[i] == prefix[i];
      }
      if exists i :: 0 <= i < n && !LookupsSucceed(uuids[i], postCheckout, receipt) {
        var i :| 0 <= i < n && !LookupsSucceed(uuids[i], postCheckout, receipt);
        if i < n - 1 {
          assert prefix[i] == uuids[i];
        }
      }
    }
  }

  /** What a DoorDash fetch does: the csrf cookie is read for the headers (a
      decoding failure rejects before any request); a failure in the listing
      or in any lookup sends nothing; otherwise one `storeDoorDashData`
      message carries the whole batch, and `dataStored` follows only on a
      success reply. */
  predicate DoorDashFetched(cookieString: string, decode: string -> Result<string>,
                            script: seq<DdListReply<DdOrderRef>>,
                            postCheckout: Option<string> -> DetailReply, receipt: Option<string> -> DetailReply,
                            storeReply: Response,
                            sent: seq<Message>, requests: seq<OffsetRequest>, lookups: seq<Lookup>)
  {
    (GetCookieValue(cookieString, decode).Err? ==> sent == [] && requests == [] && lookups == []) &&
    (GetCookieValue(cookieString, decode).Ok? ==>
      var listing := ListFrom(script, 0, 0);
      requests == listing.requests &&
      (listing.result.Err? ==> sent == [] && lookups == []) &&
      (listing.result.Ok? ==>
        var details := DetailsOf(Uuids(listing.result.value), postCheckout, receipt);
        lookups == details.lookups &&
        (details.result.Err? ==> sent == []) &&
        (details.result.Ok? ==>
          sent == [StoreDoorDashData(Some(DetailedOrders(details.result.value)))] +
                  (if storeReply == Success then [DataStored] else []))))
  }

  /** `fetchDoorDashData`: the steps DoorDashFetched describes, in order. */
  method FetchDoorDashData(cookieString: string, decode: string -> Result<string>,
                           script: seq<DdListReply<DdOrderRef>>,
                           postCheckout: Option<string> -> DetailReply, receipt: Option<string> -> DetailReply,
                           storeReply: Response)
    returns (sent: seq<Message>, requests: seq<OffsetRequest>, lookups: seq<Lookup>)
    ensures DoorDashFetched(cookieString, decode, script, postCheckout, receipt, storeReply, sent, requests, lookups)
  {
    var csrfToken := GetCookieValue(cookieString, decode);
    if csrfToken.Err? {
      return [], [], [];
    }
    var orderUuids;
    orderUuids, requests := FetchOrderUuids(script);
    if orderUuids.Err? {
      return [], requests, [];
    }
    var allOrdersDetails;
    allOrdersDetails, lookups := FetchDetails(orderUuids.value, postCheckout, receipt);
    if allOrdersDetails.Err? {
      return [], requests, lookups;
    }
    var confirmation := if storeReply == Success then [DataStored] else [];
    sent := [StoreDoorDashData(Some(DetailedOrders(allOrdersDetails.value)))] + confirmation;
  }

  /** The listener: only `fetchData` starts a fetch, and it never replies. */
  method OnMessage(message: Message, cookieString: string, decode: string -> Result<string>,
                   script: seq<DdListReply<DdOrderRef>>,
                   postCheckout: Option<string> -> DetailReply, receipt: Option<string> -> DetailReply,
                   storeReply: Response)
    returns (reply: Response, sent: seq<Message>, requests: seq<OffsetRequest>, lookups: seq<Lookup>)
    ensures reply == NoResponse
    ensures message.FetchData? ==>
      DoorDashFetched(cookieString, decode, script, postCheckout, receipt, storeReply, sent, requests, lookups)
    ensures !message.FetchData? ==> sent == [] && requests == [] && lookups == []
  {
    reply := NoResponse;
    if message.FetchData? {
      sent, requests, lookups := FetchDoorDashData(cookieString, decode, script, postCheckout, receipt, storeReply);
    } else {
      sent, requests, lookups := [], [], [];
    }
  }
}
