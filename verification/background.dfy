/** The background worker: it harvests Grubhub orders itself when asked, and
    routes the other messages to the store. */
module Background {
  import opened Wrappers
  import opened Remote
  import opened OrderData
  import opened GrubhubApi
  import opened Extension

  /** The `pageSize` the background URL template fixes. */
  const BackgroundPageSize: int := 10

  /** The background paging run from the `k`-th reply on, asking for page
      `page`: every order of every page is kept, a failed or malformed page
      aborts the run, and the run goes on while the pager says there are more
      pages. */
  function CollectFrom(script: seq<GhReply>, k: nat, page: int): (run: PageRun)
    ensures |run.requests| >= 1 && run.requests[0] == PageRequest(page, BackgroundPageSize)
    decreases |script| - k
  {
    var request := PageRequest(page, BackgroundPageSize);
    match PageAt(script, k)
    case Err(e) => PageRun(Err(e), [request])
    case Ok(listing) =>
      if HasMorePages(listing) then Extend(listing.results, [request], CollectFrom(script, k + 1, NextPage(listing)))
      else PageRun(Ok(listing.results), [request])
  }

  /** The do-while loop of `fetchAllPages`, up to the store writes. */
  method CollectPages(script: seq<GhReply>) returns (result: Result<seq<GrubhubRaw>>, requests: seq<PageRequest>)
    ensures PageRun(result, requests) == CollectFrom(script, 0, 1)
  {
    var currentPage := 1;
    var totalPages := 1;
    var allResults: seq<GrubhubRaw> := [];
    var k: nat := 0;
    requests := [];
    ghost var whole := CollectFrom(script, 0, 1);
    assert whole.result.Ok? ==> [] + whole.result.value == whole.result.value;
    assert [] + whole.requests == whole.requests;
    while true
      invariant Extend(allResults, requests, CollectFrom(script, k, currentPage)) == CollectFrom(script, 0, 1)
      decreases |script| - k
    {
      var request := PageRequest(currentPage, BackgroundPageSize);
      var data := PageAt(script, k);
      if data.Err? {
        assert CollectFrom(script, k, currentPage) == PageRun(Err(data.error), [request]);
        result, requests := Err(data.error), requests + [request];
        return;
      }
      CollectStep(script, k, currentPage, allResults, requests);
      ghost var listing := data.value;
      allResults := allResults + data.value.results;
      requests := requests + [request];
      currentPage := data.value.pager.current_page + 1;
      totalPages := data.value.pager.total_pages;
      k := k + 1;
      assert currentPage == NextPage(listing) && (currentPage <= totalPages <==> HasMorePages(listing));
      if !(currentPage <= totalPages) {
        result := Ok(allResults);
        return;
      }
    }
  }

  /** One well-formed page moves its orders and its request from the rest of
      the run to what has been collected. */
  lemma CollectStep(script: seq<GhReply>, k: nat, page: int, allResults: seq<GrubhubRaw>, requests: seq<PageRequest>)
    requires PageAt(script, k).Ok?
    ensures var listing := PageAt(script, k).value;
      var request := PageRequest(page, BackgroundPageSize);
      HasMorePages(listing) ==>
        Extend(allResults + listing.results, requests + [request], CollectFrom(script, k + 1, NextPage(listing)))
        == Extend(allResults, requests, CollectFrom(script, k, page))
    ensures var listing := PageAt(script, k).value;
      !HasMorePages(listing) ==>
        Extend(allResults, requests, CollectFrom(script, k, page))
        == PageRun(Ok(allResults + listing.results), requests + [PageRequest(page, BackgroundPageSize)])
  {
    var listing := PageAt(script, k).value;
    var request := PageRequest(page, BackgroundPageSize);
    if HasMorePages(listing) {
      var rest := CollectFrom(script, k + 1, NextPage(listing));
      ExtendTwice(allResults, requests, listing.results, request, rest);
    }
  }

  /** `fetchAllPages` in the background: after a complete run the DoorDash
      results are removed and the Grubhub orders stored; a failed run throws
      before either write. */
  method FetchAllPages(store: ExtensionStore, script: seq<GhReply>) returns (result: Result<seq<GrubhubRaw>>, requests: seq<PageRequest>)
    modifies store
    ensures PageRun(result, requests) == CollectFrom(script, 0, 1)
    ensures result.Ok? ==> store.entries == (old(store.entries) - {DoorDashKey})[GrubhubKey := GrubhubOrders(result.value)]
    ensures result.Err? ==> store.entries == old(store.entries)
  {
    result, requests := CollectPages(script);
    if result.Ok? {
      store.Remove(DoorDashKey);
      store.Set(GrubhubKey, GrubhubOrders(result.value));
    }
  }

  /** Every order of the pages a run read, page after page. */
  function AllResults(script: seq<GhReply>, k: nat, n: nat): seq<GrubhubRaw>
    decreases n
  {
    if n == 0 then []
    else (match PageAt(script, k) case Ok(listing) => listing.results case Err(_) => []) + AllResults(script, k + 1, n - 1)
  }

  /** A successful run keeps every order of every page it read, in order. */
  lemma {:induction false} CollectKeepsEverything(script: seq<GhReply>, k: nat, page: int)
    ensures var run := CollectFrom(script, k, page);
      run.result.Ok? ==> run.result.value == AllResults(script, k, |run.requests|)
    decreases |script| - k
  {
    match PageAt(script, k)
    case Err(_) =>
    case Ok(listing) =>
      if HasMorePages(listing) {
        var rest := CollectFrom(script, k + 1, NextPage(listing));
        CollectKeepsEverything(script, k + 1, NextPage(listing));
        assert |[PageRequest(page, BackgroundPageSize)] + rest.requests| - 1 == |rest.requests|;
      } else {
        assert AllResults(script, k + 1, 0) == [];
      }
  }

  /** Request `i` of a background run (after the first) follows the
      `k + i - 1`-th reply, which was well formed and had more pages. */
  predicate PagerDriven(script: seq<GhReply>, k: nat, run: PageRun) {
    forall i :: 1 <= i < |run.requests| ==> NextAfter(script, k + i - 1, run.requests[i])
  }

  predicate NextAfter(script: seq<GhReply>, m: nat, request: PageRequest) {
    PageAt(script, m).Ok? && HasMorePages(PageAt(script, m).value) &&
    request == PageRequest(NextPage(PageAt(script, m).value), BackgroundPageSize)
  }

  /** Each later request asks, in pages of ten, for the page after the
      previous reply's `current_page`. */
  lemma {:induction false} CollectFollowsPager(script: seq<GhReply>, k: nat, page: int)
    ensures PagerDriven(script, k, CollectFrom(script, k, page))
    decreases |script| - k
  {
    match PageAt(script, k)
    case Err(_) =>
    case Ok(listing) =>
      if HasMorePages(listing) {
        var rest := CollectFrom(script, k + 1, NextPage(listing));
        CollectFollowsPager(script, k + 1, NextPage(listing));
        var run := CollectFrom(script, k, page);
        assert run.requests == [PageRequest(page, BackgroundPageSize)] + rest.requests;
        assert NextAfter(script, k, rest.requests[0]);
        forall i | 1 <= i < |run.requests|
          ensures NextAfter(script, k + i - 1, run.requests[i])
        {
          var j := i - 1;
          assert run.requests[i] == rest.requests[j];
          if j == 0 {
            assert k + i - 1 == k;
          } else {
            assert NextAfter(script, (k + 1) + j - 1, rest.requests[j]);
            assert (k + 1) + j - 1 == k + i - 1;
          }
        }
      }
  }

  /** A background run fails exactly when its last reply fails or is
      malformed, with that error; a successful one ends on a page whose pager
      says it is the last. */
  lemma {:induction false} CollectEnds(script: seq<GhReply>, k: nat, page: int)
    ensures var run := CollectFrom(script, k, page);
      var last := PageAt(script, k + |run.requests| - 1);
      (run.result.Err? <==> last.Err?) &&
      (run.result.Err? ==> run.result.error == last.error) &&
      (run.result.Ok? ==> !HasMorePages(last.value))
    decreases |script| - k
  {
    match PageAt(script, k)
    case Err(_) =>
    case Ok(listing) =>
      if HasMorePages(listing) {
        var rest := CollectFrom(script, k + 1, NextPage(listing));
        CollectEnds(script, k + 1, NextPage(listing));
        assert k + |rest.requests| + 1 - 1 == (k + 1) + |rest.requests| - 1;
      }
  }

  /** The `chrome.runtime.onMessage` listener. `storageFails` stands for
      `chrome.runtime.lastError` being set after the DoorDash write. */
  method OnMessage(store: ExtensionStore, message: Message, script: seq<GhReply>, storageFails: bool)
    returns (reply: Response)
    modifies store
    ensures message.FetchGrubhubData? && TruthyText(message.token) && TruthyText(message.uuid) ==>
      var run := CollectFrom(script, 0, 1);
      (run.result.Ok? ==>
        reply == Success &&
        store.entries == (old(store.entries) - {DoorDashKey})[GrubhubKey := GrubhubOrders(run.result.value)]) &&
      (run.result.Err? ==> reply == Failure(run.result.error) && store.entries == old(store.entries))
    ensures message.GetOrderInsights? ==>
      reply == Insights(old(store.Get(GrubhubKey)), old(store.Get(DoorDashKey))) && store.entries == old(store.entries)
    ensures message.StoreDoorDashData? && message.batch.Some? ==>
      if storageFails then reply == StorageFailure && store.entries == old(store.entries)
      else reply == Success && store.entries == old(store.entries)[DoorDashKey := DoorDashOrders(message.batch.value)]
    ensures message.FetchDoorDashData? || message.StoreGrubhubData? || message.FetchData? ||
            message.DataStored? || message.OtherAction? ==>
      reply == NoResponse && store.entries == old(store.entries)
    ensures message.FetchGrubhubData? && !(TruthyText(message.token) && TruthyText(message.uuid)) ==>
      reply == NoResponse && store.entries == old(store.entries)
    ensures message.StoreDoorDashData? && message.batch.None? ==>
      reply == NoResponse && store.entries == old(store.entries)
  {
    if message.FetchGrubhubData? && TruthyText(message.token) && TruthyText(message.uuid) {
      var result, _ := FetchAllPages(store, script);
      reply := if result.Ok? then Success else Failure(result.error);
    } else if message.FetchDoorDashData? && message.headers.Some? {
      // The branch calls `fetchDoorDashOrders`, which no script defines: the
      // listener throws a ReferenceError, so nothing runs and nobody replies.
      reply := NoResponse;
    } else if message.GetOrderInsights? {
      reply := Insights(store.Get(GrubhubKey), store.Get(DoorDashKey));
    } else if message.StoreDoorDashData? && message.batch.Some? {
      if storageFails {
        reply := StorageFailure;
      } else {
        store.Set(DoorDashKey, DoorDashOrders(message.batch.value));
        reply := Success;
      }
    } else {
      reply := NoResponse;
    }
  }
}
