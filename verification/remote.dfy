/** The remote endpoints as the scripts see them: one HTTP reply per request.

    A paging endpoint is modelled as a finite script of replies, consumed in
    request order; a request made after the script is exhausted is rejected by
    the network. A run that the server keeps feeding forever is therefore cut
    off by the length of the script. */
module Remote {
  import opened Wrappers

  /** What `JSON.parse` / `response.json()` makes of a body: not JSON at all,
      `null`, one of the other falsy JSON values (`false`, `0`, `""`), or a
      truthy JSON value, whose properties are read as the fields of `J`. Reading
      a property of `null` throws; reading one of a falsy scalar gives
      `undefined`. */
  datatype Body<J> = Unparsable | JsonNull | FalsyScalar | Json(value: J)

  /** One reply: `fetch` rejected, or an HTTP response with its status. */
  datatype HttpReply<J> = Rejected | Answered(ok: bool, status: int, body: Body<J>)

  /** The reply to the `k`-th request of a paging run. */
  function ReplyAt<J>(script: seq<HttpReply<J>>, k: nat): HttpReply<J> {
    if k < |script| then script[k] else Rejected
  }

  /** `fetchDataFromAPI`: a non-ok status is an error before the body is looked
      at; otherwise the body must parse. A falsy JSON value comes back as None. */
  function FetchDataFromApi<J>(reply: HttpReply<J>): (r: Result<Option<J>>)
    ensures r.Ok? <==> reply.Answered? && reply.ok && !reply.body.Unparsable?
    ensures reply.Rejected? ==> r == Err(NetworkRejected)
    ensures reply.Answered? && !reply.ok ==> r == Err(HttpStatus(reply.status))
    ensures reply.Answered? && reply.ok && reply.body.Unparsable? ==> r == Err(InvalidJson)
    ensures r.Ok? ==> (r.value.Some? <==> reply.body.Json?)
    ensures r.Ok? && r.value.Some? ==> r.value.value == reply.body.value
  {
    match reply
    case Rejected => Err(NetworkRejected)
    case Answered(ok, status, body) =>
      if !ok then Err(HttpStatus(status))
      else match body
        case Unparsable => Err(InvalidJson)
        case JsonNull => Ok(None)
        case FalsyScalar => Ok(None)
        case Json(v) => Ok(Some(v))
  }

  /** `(await fetch(…)).json()` as the DoorDash scripts use it: the HTTP status
      is never checked, only whether the body parses. */
  function ReadJson<J>(reply: HttpReply<J>): (r: Result<Option<J>>)
    ensures r.Ok? <==> reply.Answered? && !reply.body.Unparsable?
    ensures reply.Rejected? ==> r == Err(NetworkRejected)
    ensures reply.Answered? && reply.body.Unparsable? ==> r == Err(InvalidJson)
    ensures r.Ok? ==> (r.value.Some? <==> reply.body.Json?)
    ensures r.Ok? && r.value.Some? ==> r.value.value == reply.body.value
  {
    match reply
    case Rejected => Err(NetworkRejected)
    case Answered(_, _, body) =>
      match body
      case Unparsable => Err(InvalidJson)
      case JsonNull => Ok(None)
      case FalsyScalar => Ok(None)
      case Json(v) => Ok(Some(v))
  }

  /** The two readings agree on every successful response; they differ only in
      that the DoorDash reading accepts an error status with a JSON body. */
  lemma ReadingsAgreeOnOk<J>(reply: HttpReply<J>)
    ensures reply.Answered? && reply.ok ==> FetchDataFromApi(reply) == ReadJson(reply)
    ensures reply.Answered? && !reply.ok && !reply.body.Unparsable? ==>
      FetchDataFromApi(reply).Err? && ReadJson(reply).Ok?
  {
  }
}
