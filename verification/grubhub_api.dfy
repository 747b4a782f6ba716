/** The Grubhub order-listing endpoint (`/diners/{uuid}/search_listing`) as
    both the background worker and the content script read it. */
module GrubhubApi {
  import opened Wrappers
  import opened Remote
  import opened OrderData

  /** `data.pager`. */
  datatype Pager = Pager(current_page: int, total_pages: int)

  /** A listing page as parsed; a missing `results` or `pager` is None. */
  datatype GhPage = GhPage(results: Option<seq<GrubhubRaw>>, pager: Option<Pager>)

  type GhReply = HttpReply<GhPage>

  /** The `pageNum` and `pageSize` query parameters of one listing request. */
  datatype PageRequest = PageRequest(pageNum: int, pageSize: int)

  /** A paging run: the orders it returns (or the error it throws) and the
      requests it made, in order. */
  datatype PageRun = PageRun(result: Result<seq<GrubhubRaw>>, requests: seq<PageRequest>)

  /** A page that passed the structure check. */
  datatype Listing = Listing(results: seq<GrubhubRaw>, pager: Pager)

  /** One page fetched and checked: `fetchDataFromAPI`, then
      `if (!data || !data.results || !data.pager) throw …`. An empty results
      array is truthy and passes. */
  function ReadPage(reply: GhReply): (r: Result<Listing>)
    ensures FetchDataFromApi(reply).Err? ==> r == Err(FetchDataFromApi(reply).error)
    ensures r.Ok? <==> reply.Answered? && reply.ok && reply.body.Json? &&
                       reply.body.value.results.Some? && reply.body.value.pager.Some?
    ensures r.Ok? ==> reply.body.value == GhPage(Some(r.value.results), Some(r.value.pager))
    ensures FetchDataFromApi(reply).Ok? && r.Err? ==> r.error == InvalidDataStructure
  {
    match FetchDataFromApi(reply)
    case Err(e) => Err(e)
    case Ok(data) =>
      if data.None? || data.value.results.None? || data.value.pager.None? then Err(InvalidDataStructure)
      else Ok(Listing(data.value.results.value, data.value.pager.value))
  }

  /** The checked page answering the `k`-th request of a run. */
  function PageAt(script: seq<GhReply>, k: nat): (r: Result<Listing>)
    ensures r.Ok? ==> k < |script|
  {
    ReadPage(ReplyAt(script, k))
  }

  /** `data.pager.current_page + 1`: the page the loop asks for next. */
  function NextPage(listing: Listing): int {
    listing.pager.current_page + 1
  }

  /** The do-while condition `currentPage <= totalPages` after this page. */
  predicate HasMorePages(listing: Listing) {
    NextPage(listing) <= listing.pager.total_pages
  }

  /** A run's result with `prefix` in front, and its requests after `earlier`. */
  function Extend(prefix: seq<GrubhubRaw>, earlier: seq<PageRequest>, run: PageRun): PageRun {
    PageRun(if run.result.Ok? then Ok(prefix + run.result.value) else run.result, earlier + run.requests)
  }

  /** Extending in two steps is extending once with the joined prefixes. */
  lemma ExtendTwice(prefix: seq<GrubhubRaw>, earlier: seq<PageRequest>, more: seq<GrubhubRaw>, request: PageRequest, run: PageRun)
    ensures Extend(prefix + more, earlier + [request], run) == Extend(prefix, earlier, Extend(more, [request], run))
  {
    assert (earlier + [request]) + run.requests == earlier + ([request] + run.requests);
    if run.result.Ok? {
      assert (prefix + more) + run.result.value == prefix + (more + run.result.value);
    }
  }
}
