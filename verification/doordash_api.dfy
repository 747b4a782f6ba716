/** The DoorDash order-listing query (`getConsumerOrdersWithDetails`) as both
    DoorDash scripts page through it: offset/limit paging that stops at the
    first empty page. */
module DoorDashApi {
  import opened Wrappers
  import opened Remote

  /** The `limit` variable of every listing request. */
  const Limit: int := 10

  /** `data.data`: the GraphQL result; a missing list is None. */
  datatype DdListData<T> = DdListData(getConsumerOrdersWithDetails: Option<seq<T>>)

  /** The reply body; a falsy `data` field is None. */
  datatype DdListPage<T> = DdListPage(data: Option<DdListData<T>>)

  type DdListReply<T> = HttpReply<DdListPage<T>>

  /** The `offset` and `limit` variables of one listing request. */
  datatype OffsetRequest = OffsetRequest(offset: int, limit: int)

  /** A listing run: the orders it returns (or the error it throws) and the
      requests it made, in order. */
  datatype ListRun<T> = ListRun(result: Result<seq<T>>, requests: seq<OffsetRequest>)

  /** One listing reply as the loop reads it: `response.json()` (no status
      check), then `data && data.data && data.data.getConsumerOrdersWithDetails.length > 0`.
      Some(orders) continues the loop, None ends it; reading `length` of a
      missing list throws. */
  function ReadListPage<T>(reply: DdListReply<T>): (r: Result<Option<seq<T>>>)
    ensures ReadJson(reply).Err? ==> r == Err(ReadJson(reply).error)
    ensures r.Ok? ==> reply.Answered? && !reply.body.Unparsable?
    ensures r.Ok? && r.value.Some? ==>
      |r.value.value| > 0 && reply.body == Json(DdListPage(Some(DdListData(Some(r.value.value)))))
    ensures ReadJson(reply).Ok? ==> (r.Err? <==>
      reply.body.Json? && reply.body.value.data.Some? && reply.body.value.data.value.getConsumerOrdersWithDetails.None?)
    ensures ReadJson(reply).Ok? && r.Err? ==> r.error == TypeError
    ensures r == Ok(None) <==>
      reply.Answered? &&
      (reply.body.JsonNull? || reply.body.FalsyScalar? ||
       (reply.body.Json? && (reply.body.value.data.None? || reply.body.value.data.value.getConsumerOrdersWithDetails == Some([]))))
  {
    match ReadJson(reply)
    case Err(e) => Err(e)
    case Ok(None) => Ok(None)
    case Ok(Some(page)) =>
      match page.data
      case None => Ok(None)
      case Some(d) =>
        match d.getConsumerOrdersWithDetails
        case None => Err(TypeError)
        case Some(orders) => if |orders| > 0 then Ok(Some(orders)) else Ok(None)
  }

  /** The listing run from the `k`-th reply on, at `offset`: a failure aborts
      the run, an empty page ends it, and every non-empty page is appended and
      moves the offset on by `limit`. */
  function ListFrom<T>(script: seq<DdListReply<T>>, k: nat, offset: int): (run: ListRun<T>)
    ensures |run.requests| >= 1 && run.requests[0] == OffsetRequest(offset, Limit)
    decreases |script| - k
  {
    var request := OffsetRequest(offset, Limit);
    match ReadListPage(ReplyAt(script, k))
    case Err(e) => ListRun(Err(e), [request])
    case Ok(None) => ListRun(Ok([]), [request])
    case Ok(Some(orders)) =>
      var rest := ListFrom(script, k + 1, offset + Limit);
      ListRun(if rest.result.Ok? then Ok(orders + rest.result.value) else rest.result, [request] + rest.requests)
  }

  /** The orders of the `k`-th page (none when it is empty or failed). */
  function OrdersAt<T>(script: seq<DdListReply<T>>, k: nat): seq<T> {
    match ReadListPage(ReplyAt(script, k))
    case Ok(Some(orders)) => orders
    case _ => []
  }

  /** The orders of `n` consecutive pages from the `k`-th, in request order. */
  function Concatenated<T>(script: seq<DdListReply<T>>, k: nat, n: nat): seq<T>
    decreases n
  {
    if n == 0 then [] else OrdersAt(script, k) + Concatenated(script, k + 1, n - 1)
  }

  /** Request `i` of `run` asks for offset `offset + 10 * i` with limit 10. */
  predicate SteppedOffsets<T>(run: ListRun<T>, offset: int) {
    forall i :: 0 <= i < |run.requests| ==> run.requests[i] == OffsetRequest(offset + Limit * i, Limit)
  }

  /** The offsets run 0, 10, 20, … from the starting offset, all with limit 10. */
  lemma {:induction false} ListOffsets<T>(script: seq<DdListReply<T>>, k: nat, offset: int)
    ensures SteppedOffsets(ListFrom(script, k, offset), offset)
    decreases |script| - k
  {
    var run := ListFrom(script, k, offset);
    match ReadListPage(ReplyAt(script, k))
    case Err(_) =>
    case Ok(None) =>
    case Ok(Some(orders)) =>
      var rest := ListFrom(script, k + 1, offset + Limit);
      ListOffsets(script, k + 1, offset + Limit);
      assert run.requests == [OffsetRequest(offset, Limit)] + rest.requests;
      forall i | 1 <= i < |run.requests| ensures run.requests[i] == OffsetRequest(offset + Limit * i, Limit) {
        assert run.requests[i] == rest.requests[i - 1];
        assert rest.requests[i - 1] == OffsetRequest(offset + Limit + Limit * (i - 1), Limit);
      }
  }

  /** A successful run returns the concatenation of its pages, in request
      order, with nothing dropped or merged. */
  lemma {:induction false} ListConcatenates<T>(script: seq<DdListReply<T>>, k: nat, offset: int)
    ensures var run := ListFrom(script, k, offset);
      run.result.Ok? ==> run.result.value == Concatenated(script, k, |run.requests|)
    decreases |script| - k
  {
    match ReadListPage(ReplyAt(script, k))
    case Err(_) =>
    case Ok(None) =>
      assert Concatenated(script, k + 1, 0) == [];
    case Ok(Some(orders)) =>
      var rest := ListFrom(script, k + 1, offset + Limit);
      ListConcatenates(script, k + 1, offset + Limit);
      assert |[OffsetRequest(offset, Limit)] + rest.requests| - 1 == |rest.requests|;
  }

  /** The `n` replies from the `k`-th on all continued the loop: each was a
      non-empty list. */
  predicate AllContinued<T>(script: seq<DdListReply<T>>, k: nat, n: nat)
    decreases n
  {
    n == 0 ||
    (var page := ReadListPage(ReplyAt(script, k));
     page.Ok? && page.value.Some? && AllContinued(script, k + 1, n - 1))
  }

  /** How a run ends: every reply but the last was a non-empty page; the run
      fails exactly when the last reply failed, with its error, and otherwise
      the last page was empty or had no `data`. */
  lemma {:induction false} ListEnds<T>(script: seq<DdListReply<T>>, k: nat, offset: int)
    ensures var run := ListFrom(script, k, offset);
      var last := ReadListPage(ReplyAt(script, k + |run.requests| - 1));
      AllContinued(script, k, |run.requests| - 1) &&
      (run.result.Err? <==> last.Err?) &&
      (run.result.Err? ==> run.result.error == last.error) &&
      (run.result.Ok? ==> last == Ok(None))
    decreases |script| - k
  {
    match ReadListPage(ReplyAt(script, k))
    case Err(_) =>
    case Ok(None) =>
    case Ok(Some(orders)) =>
      var rest := ListFrom(script, k + 1, offset + Limit);
      ListEnds(script, k + 1, offset + Limit);
      assert k + |rest.requests| + 1 - 1 == (k + 1) + |rest.requests| - 1;
  }
}
