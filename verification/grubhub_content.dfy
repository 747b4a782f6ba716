/** The Grubhub content script: it reads the stored orders, picks a page size,
    pages through the order listing until it meets an order it already has,
    stamps the new orders and hands them to the background worker.

    The network is a script of replies (see `Remote`); `clock(k)` is the
    timestamp read after the `k`-th page; `restampClock(i)` is the one read for
    the `i`-th order when the whole list is stamped again before sending. */
module GrubhubContent {
  import opened Wrappers
  import opened Strings
  import opened Remote
  import opened OrderData
  import opened GrubhubApi
  import opened Extension

  const DefaultPageSize: nat := 10
  const IncrementalPageSize: nat := 2
  const OauthCookie: string := "ngStorage-oauthTokens"

  /** The page size and the ids to skip that `checkAndFetchGrubhubData` picks. */
  datatype Policy = Policy(pageSize: nat, existingIds: set<string>)

  /** No stored orders: a full harvest in pages of ten. Otherwise: pages of two,
      skipping every stored id. */
  function ChoosePolicy(existing: seq<GrubhubRaw>): (p: Policy)
    ensures |existing| == 0 ==> p == Policy(DefaultPageSize, {})
    ensures |existing| > 0 ==> p.pageSize == IncrementalPageSize
    ensures forall i :: 0 <= i < |existing| ==> existing[i].id in p.existingIds
    ensures forall id :: id in p.existingIds ==> exists i :: 0 <= i < |existing| && existing[i].id == id
  {
    if |existing| == 0 then Policy(DefaultPageSize, {})
    else Policy(IncrementalPageSize, set i | 0 <= i < |existing| :: existing[i].id)
  }

  /** `results.filter(r => !existingIds.has(r.id))`. */
  function Unseen(results: seq<GrubhubRaw>, known: set<string>): (u: seq<GrubhubRaw>)
    ensures |u| <= |results|
  {
    if |results| == 0 then []
    else (if results[0].id in known then [] else [results[0]]) + Unseen(results[1..], known)
  }

  /** The filter keeps exactly the orders whose id is not known. */
  lemma {:induction false} UnseenMembers(results: seq<GrubhubRaw>, known: set<string>)
    ensures forall r :: r in Unseen(results, known) <==> r in results && r.id !in known
  {
    if |results| > 0 {
      UnseenMembers(results[1..], known);
      assert results == [results[0]] + results[1..];
    }
  }

  /** `records.map(r => ({...r, fetchedAt: clock(i)}))`, the `i`-th record
      taking the `i`-th reading. */
  function Restamp(records: seq<GrubhubRaw>, clock: nat -> string): (s: seq<GrubhubRaw>)
    ensures |s| == |records|
  {
    seq(|records|, i requires 0 <= i < |records| => records[i].(fetchedAt := Some(clock(i))))
  }

  /** Restamping changes each record's `fetchedAt`, to its own reading, and
      nothing else. */
  lemma RestampFields(records: seq<GrubhubRaw>, clock: nat -> string)
    ensures forall i :: 0 <= i < |records| ==> Restamp(records, clock)[i].fetchedAt == Some(clock(i))
    ensures forall i :: 0 <= i < |records| ==>
      Restamp(records, clock)[i].(fetchedAt := records[i].fetchedAt) == records[i]
  {
  }

  /** The orders of one page that are kept: the unseen ones, all stamped with
      the page's single timestamp. */
  function NewResults(results: seq<GrubhubRaw>, known: set<string>, timestamp: string): (r: seq<GrubhubRaw>)
    ensures |r| <= |results|
  {
    Restamp(Unseen(results, known), _ => timestamp)
  }

  /** A kept order is an unseen order of the page with the page's timestamp,
      and every unseen order of the page is kept. */
  lemma NewResultsMembers(results: seq<GrubhubRaw>, known: set<string>, timestamp: string)
    ensures forall r :: r in NewResults(results, known, timestamp) <==>
      exists x :: x in results && x.id !in known && r == x.(fetchedAt := Some(timestamp))
  {
    UnseenMembers(results, known);
    forall r | r in NewResults(results, known, timestamp)
      ensures exists x :: x in results && x.id !in known && r == x.(fetchedAt := Some(timestamp))
    {
      KeptIsStamped(Unseen(results, known), timestamp, r);
    }
    forall x | x in results && x.id !in known
      ensures x.(fetchedAt := Some(timestamp)) in NewResults(results, known, timestamp)
    {
      StampedIsKept(Unseen(results, known), timestamp, x);
    }
  }

  lemma KeptIsStamped(u: seq<GrubhubRaw>, timestamp: string, r: GrubhubRaw)
    requires r in Restamp(u, _ => timestamp)
    ensures exists x :: x in u && r == x.(fetchedAt := Some(timestamp))
  {
    var n := Restamp(u, _ => timestamp);
    var i :| 0 <= i < |n| && n[i] == r;
    assert u[i] in u;
  }

  lemma StampedIsKept(u: seq<GrubhubRaw>, timestamp: string, x: GrubhubRaw)
    requires x in u
    ensures x.(fetchedAt := Some(timestamp)) in Restamp(u, _ => timestamp)
  {
    var n := Restamp(u, _ => timestamp);
    var i :| 0 <= i < |u| && u[i] == x;
    assert n[i] == x.(fetchedAt := Some(timestamp));
  }

  /** The paging run of `fetchAllPages` from the `k`-th reply on, asking for
      page `page`: a failed or malformed page aborts the whole run; a page
      with no new order ends it; otherwise the run goes on while the pager says
      there are more pages. */
  function HarvestFrom(script: seq<GhReply>, pageSize: int, known: set<string>, clock: nat -> string, k: nat, page: int): (run: PageRun)
    ensures |run.requests| >= 1 && run.requests[0] == PageRequest(page, pageSize)
    decreases |script| - k
  {
    var request := PageRequest(page, pageSize);
    match PageAt(script, k)
    case Err(e) => PageRun(Err(e), [request])
    case Ok(listing) =>
      var found := NewResults(listing.results, known, clock(k));
      if |found| == 0 then PageRun(Ok([]), [request])
      else if HasMorePages(listing) then
        Extend(found, [request], HarvestFrom(script, pageSize, known, clock, k + 1, NextPage(listing)))
      else PageRun(Ok(found), [request])
  }

  /** The orders a page contributes when it is read successfully. */
  function PageFresh(script: seq<GhReply>, known: set<string>, clock: nat -> string, k: nat): seq<GrubhubRaw> {
    match PageAt(script, k)
    case Err(_) => []
    case Ok(listing) => NewResults(listing.results, known, clock(k))
  }

  /** The new orders of `n` consecutive pages from the `k`-th, in page order. */
  function Collected(script: seq<GhReply>, known: set<string>, clock: nat -> string, k: nat, n: nat): seq<GrubhubRaw>
    decreases n
  {
    if n == 0 then [] else PageFresh(script, known, clock, k) + Collected(script, known, clock, k + 1, n - 1)
  }

  /** `fetchAllPages(urlTemplate, token, headers, existingData, pageSize,
      existingIds)`: the do-while loop over pages. */
  method FetchAllPages(script: seq<GhReply>, existing: seq<GrubhubRaw>, pageSize: int, known: set<string>, clock: nat -> string)
    returns (result: Result<seq<GrubhubRaw>>, requests: seq<PageRequest>)
    ensures PageRun(result, requests) == Extend(existing, [], HarvestFrom(script, pageSize, known, clock, 0, 1))
  {
    var currentPage := 1;
    var totalPages := 1;
    var allResults := existing;
    var k: nat := 0;
    requests := [];
    while true
      invariant Extend(allResults, requests, HarvestFrom(script, pageSize, known, clock, k, currentPage))
             == Extend(existing, [], HarvestFrom(script, pageSize, known, clock, 0, 1))
      decreases |script| - k
    {
      var request := PageRequest(currentPage, pageSize);
      var data := PageAt(script, k);
      if data.Err? {
        result, requests := Err(data.error), requests + [request];
        return;
      }
      var timestamp := clock(k);
      var newResults := NewResults(data.value.results, known, timestamp);
      if |newResults| == 0 {
        assert allResults + [] == allResults;
        result, requests := Ok(allResults), requests + [request];
        return;
      }
      ghost var rest := HarvestFrom(script, pageSize, known, clock, k + 1, NextPage(data.value));
      ExtendTwice(allResults, requests, newResults, request, rest);
      allResults := allResults + newResults;
      requests := requests + [request];
      currentPage := data.value.pager.current_page + 1;
      totalPages := data.value.pager.total_pages;
      k := k + 1;
      if !(currentPage <= totalPages) {
        result := Ok(allResults);
        return;
      }
    }
  }

  /** No order the run returns has an id that was already known. */
  lemma {:induction false} HarvestSkipsKnown(script: seq<GhReply>, pageSize: int, known: set<string>, clock: nat -> string, k: nat, page: int)
    ensures var run := HarvestFrom(script, pageSize, known, clock, k, page);
      run.result.Ok? ==> forall r :: r in run.result.value ==> r.id !in known
    decreases |script| - k
  {
    match PageAt(script, k)
    case Err(_) =>
    case Ok(listing) =>
      var found := NewResults(listing.results, known, clock(k));
      NewResultsMembers(listing.results, known, clock(k));
      if |found| > 0 && HasMorePages(listing) {
        HarvestSkipsKnown(script, pageSize, known, clock, k + 1, NextPage(listing));
      }
  }

  /** The run's orders are the new orders of the pages it read, page after
      page, each stamped with the reading taken after its page. */
  lemma {:induction false} HarvestCollectsPages(script: seq<GhReply>, pageSize: int, known: set<string>, clock: nat -> string, k: nat, page: int)
    ensures var run := HarvestFrom(script, pageSize, known, clock, k, page);
      run.result.Ok? ==> run.result.value == Collected(script, known, clock, k, |run.requests|)
    decreases |script| - k
  {
    match PageAt(script, k)
    case Err(_) =>
    case Ok(listing) =>
      var found := NewResults(listing.results, known, clock(k));
      if |found| == 0 {
      } else if HasMorePages(listing) {
        var rest := HarvestFrom(script, pageSize, known, clock, k + 1, NextPage(listing));
        HarvestCollectsPages(script, pageSize, known, clock, k + 1, NextPage(listing));
        HarvestMore(script, pageSize, known, clock, k, page);
        CollectedCons(script, known, clock, k, |rest.requests|);
        CollectsOneMore(HarvestFrom(script, pageSize, known, clock, k, page), found, PageRequest(page, pageSize), rest,
                        Collected(script, known, clock, k + 1, |rest.requests|),
                        Collected(script, known, clock, k, |rest.requests| + 1));
      } else {
        assert Collected(script, known, clock, k + 1, 0) == [];
      }
  }

  /** A page with new orders and more to come puts its orders in front of
      the rest of the run's: a run that is one page in front of `rest`
      collects that page's orders in front of `rest`'s. */
  lemma CollectsOneMore(run: PageRun, found: seq<GrubhubRaw>, request: PageRequest, rest: PageRun,
                       tail: seq<GrubhubRaw>, whole: seq<GrubhubRaw>)
    requires run == Extend(found, [request], rest)
    requires rest.result.Ok? ==> rest.result.value == tail
    requires whole == found + tail
    ensures |run.requests| == |rest.requests| + 1
    ensures run.result.Ok? ==> run.result.value == whole
  {
  }

  /** A page with new orders and more to come: the run is that page's
      orders and request in front of the rest of the run. */
  lemma HarvestMore(script: seq<GhReply>, pageSize: int, known: set<string>, clock: nat -> string, k: nat, page: int)
    requires PageAt(script, k).Ok?
    requires |PageFresh(script, known, clock, k)| > 0 && HasMorePages(PageAt(script, k).value)
    ensures HarvestFrom(script, pageSize, known, clock, k, page) ==
      Extend(PageFresh(script, known, clock, k), [PageRequest(page, pageSize)],
             HarvestFrom(script, pageSize, known, clock, k + 1, NextPage(PageAt(script, k).value)))
  {
  }

  lemma CollectedCons(script: seq<GhReply>, known: set<string>, clock: nat -> string, k: nat, n: nat)
    ensures Collected(script, known, clock, k, n + 1) == PageFresh(script, known, clock, k) + Collected(script, known, clock, k + 1, n)
  {
  }

  predicate UsesPageSize(run: PageRun, pageSize: int) {
    forall i :: 0 <= i < |run.requests| ==> run.requests[i].pageSize == pageSize
  }

  /** Request `i` (after the first) follows the `k + i - 1`-th reply. */
  predicate FollowsPager(script: seq<GhReply>, known: set<string>, clock: nat -> string, k: nat, run: PageRun) {
    forall i :: 1 <= i < |run.requests| ==> Follows(script, known, clock, k + i - 1, run.requests[i])
  }

  /** `request` is the one the loop makes after the `m`-th reply: that reply
      was well formed, brought new orders and had more pages, and `request`
      asks for the page after its `current_page`. */
  predicate Follows(script: seq<GhReply>, known: set<string>, clock: nat -> string, m: nat, request: PageRequest) {
    PageAt(script, m).Ok? &&
    |PageFresh(script, known, clock, m)| > 0 &&
    HasMorePages(PageAt(script, m).value) &&
    request.pageNum == NextPage(PageAt(script, m).value)
  }

  /** Every request of a run uses the chosen page size. */
  lemma {:induction false} HarvestUsesPageSize(script: seq<GhReply>, pageSize: int, known: set<string>, clock: nat -> string, k: nat, page: int)
    ensures UsesPageSize(HarvestFrom(script, pageSize, known, clock, k, page), pageSize)
    decreases |script| - k
  {
    match PageAt(script, k)
    case Err(_) =>
    case Ok(listing) =>
      var found := NewResults(listing.results, known, clock(k));
      if |found| > 0 && HasMorePages(listing) {
        var rest := HarvestFrom(script, pageSize, known, clock, k + 1, NextPage(listing));
        HarvestUsesPageSize(script, pageSize, known, clock, k + 1, NextPage(listing));
        var run := HarvestFrom(script, pageSize, known, clock, k, page);
        assert run.requests == [PageRequest(page, pageSize)] + rest.requests;
      }
  }

  /** Each request after the first asks for the page after the `current_page`
      of the previous reply, which was well formed, brought new orders and
      had more pages. */
  lemma {:induction false} HarvestFollowsPager(script: seq<GhReply>, pageSize: int, known: set<string>, clock: nat -> string, k: nat, page: int)
    ensures FollowsPager(script, known, clock, k, HarvestFrom(script, pageSize, known, clock, k, page))
    decreases |script| - k
  {
    match PageAt(script, k)
    case Err(_) =>
    case Ok(listing) =>
      var found := NewResults(listing.results, known, clock(k));
      if |found| > 0 && HasMorePages(listing) {
        var rest := HarvestFrom(script, pageSize, known, clock, k + 1, NextPage(listing));
        HarvestFollowsPager(script, pageSize, known, clock, k + 1, NextPage(listing));
        var run := HarvestFrom(script, pageSize, known, clock, k, page);
        assert run.requests[1..] == rest.requests;
        assert PageFresh(script, known, clock, k) == found;
        assert Follows(script, known, clock, k, rest.requests[0]);
        FollowsShift(script, known, clock, k, run, rest);
      }
  }

  /** A request in front of a run that follows the pager from `k + 1` on,
      where the run's first request follows the `k`-th reply. */
  lemma FollowsShift(script: seq<GhReply>, known: set<string>, clock: nat -> string, k: nat,
                     run: PageRun, rest: PageRun)
    requires |run.requests| >= 1 && run.requests[1..] == rest.requests
    requires |rest.requests| >= 1 && Follows(script, known, clock, k, rest.requests[0])
    requires FollowsPager(script, known, clock, k + 1, rest)
    ensures FollowsPager(script, known, clock, k, run)
  {
    var requests := run.requests;
    forall i | 1 <= i < |requests|
      ensures Follows(script, known, clock, k + i - 1, requests[i])
    {
      var j := i - 1;
      assert requests[i] == rest.requests[j];
      if j > 0 {
        assert Follows(script, known, clock, (k + 1) + j - 1, rest.requests[j]);
      }
    }
  }

  /** How a run ends: it fails exactly when its last reply is a failure or
      malformed, with that page's error; it succeeds when its last page brought
      no new order or was the last page. */
  lemma {:induction false} HarvestEnds(script: seq<GhReply>, pageSize: int, known: set<string>, clock: nat -> string, k: nat, page: int)
    ensures var run := HarvestFrom(script, pageSize, known, clock, k, page);
      var last := PageAt(script, k + |run.requests| - 1);
      (run.result.Err? <==> last.Err?) &&
      (run.result.Err? ==> run.result.error == last.error) &&
      (run.result.Ok? ==> |PageFresh(script, known, clock, k + |run.requests| - 1)| == 0 || !HasMorePages(last.value))
    ensures k <= |script| ==> |HarvestFrom(script, pageSize, known, clock, k, page).requests| <= |script| - k + 1
    decreases |script| - k
  {
    match PageAt(script, k)
    case Err(_) =>
    case Ok(listing) =>
      var found := NewResults(listing.results, known, clock(k));
      if |found| > 0 && HasMorePages(listing) {
        var rest := HarvestFrom(script, pageSize, known, clock, k + 1, NextPage(listing));
        HarvestEnds(script, pageSize, known, clock, k + 1, NextPage(listing));
        assert k + |rest.requests| + 1 - 1 == (k + 1) + |rest.requests| - 1;
      }
  }

  /** `{token, uuid}` from `getGrubhubAuthDetails`; `{}` has neither. */
  datatype AuthDetails = AuthDetails(token: Option<string>, uuid: Option<string>)

  /** `const [name, value] = cookie.split("=")`: the name. */
  function CookieName(cookie: string): string {
    Split(cookie, "=")[0]
  }

  /** The value: the text between the first and second `=`;
      `decodeURIComponent(undefined)` turns a missing one into "undefined". */
  function CookieValue(cookie: string): string {
    var parts := Split(cookie, "=");
    if |parts| >= 2 then parts[1] else "undefined"
  }

  /** What the `forEach` over the cookies leaves in `cookieValue`: the decoded
      value of the last cookie named `ngStorage-oauthTokens`; a decoding
      failure on any such cookie throws. */
  function ScanCookies(cookies: seq<string>, decode: string -> Result<string>): Result<Option<string>>
    decreases |cookies|
  {
    if |cookies| == 0 then Ok(None)
    else
      var before := ScanCookies(cookies[..|cookies| - 1], decode);
      var cookie := cookies[|cookies| - 1];
      if before.Err? then before
      else if CookieName(cookie) != OauthCookie then before
      else match decode(CookieValue(cookie))
        case Err(e) => Err(e)
        case Ok(v) => Ok(Some(v))
  }

  predicate IsTokenCookie(cookie: string) {
    CookieName(cookie) == OauthCookie
  }

  /** The loop of `getGrubhubAuthDetails` over `document.cookie.split("; ")`. */
  method FindTokenCookie(cookies: seq<string>, decode: string -> Result<string>) returns (r: Result<Option<string>>)
    ensures r == ScanCookies(cookies, decode)
  {
    var cookieValue: Option<string> := None;
    for i := 0 to |cookies|
      invariant ScanCookies(cookies[..i], decode) == Ok(cookieValue)
    {
      assert cookies[..i + 1][..i] == cookies[..i];
      var parts := Split(cookies[i], "=");
      var name := parts[0];
      var value := if |parts| >= 2 then parts[1] else "undefined";
      assert name == CookieName(cookies[i]) && value == CookieValue(cookies[i]);
      if name == OauthCookie {
        var decoded := decode(value);
        if decoded.Err? {
          assert ScanCookies(cookies[..i + 1], decode) == Err(decoded.error);
          ScanStopsAtError(cookies, decode, i + 1);
          return Err(decoded.error);
        }
        cookieValue := Some(decoded.value);
        assert ScanCookies(cookies[..i + 1], decode) == Ok(cookieValue);
      } else {
        assert ScanCookies(cookies[..i + 1], decode) == Ok(cookieValue);
      }
    }
    assert cookies[..|cookies|] == cookies;
    r := Ok(cookieValue);
  }

  /** Once the scan has failed, further cookies do not change the outcome. */
  lemma {:induction false} ScanStopsAtError(cookies: seq<string>, decode: string -> Result<string>, n: nat)
    requires n <= |cookies| && ScanCookies(cookies[..n], decode).Err?
    ensures ScanCookies(cookies, decode) == ScanCookies(cookies[..n], decode)
    decreases |cookies| - n
  {
    if n < |cookies| {
      assert cookies[..n + 1][..n] == cookies[..n];
      ScanStopsAtError(cookies, decode, n + 1);
    } else {
      assert cookies[..n] == cookies;
    }
  }

  /** The last token cookie wins: when every token cookie decodes and the one at
      index `i` is the last of them, the scan yields its decoded value. */
  lemma {:induction false} LastTokenCookieWins(cookies: seq<string>, decode: string -> Result<string>, i: nat)
    requires i < |cookies| && IsTokenCookie(cookies[i])
    requires forall j :: i < j < |cookies| ==> !IsTokenCookie(cookies[j])
    requires forall j :: 0 <= j < |cookies| && IsTokenCookie(cookies[j]) ==> decode(CookieValue(cookies[j])).Ok?
    ensures ScanCookies(cookies, decode) == Ok(Some(decode(CookieValue(cookies[i])).value))
    decreases |cookies|
  {
    LastTokenUpTo(cookies, decode, i, |cookies|);
    assert cookies[..|cookies|] == cookies;
  }

  /** `LastTokenCookieWins` for the first `n` cookies. */
  lemma {:induction false} LastTokenUpTo(cookies: seq<string>, decode: string -> Result<string>, i: nat, n: nat)
    requires i < n <= |cookies| && IsTokenCookie(cookies[i])
    requires forall j :: i < j < |cookies| ==> !IsTokenCookie(cookies[j])
    requires forall j :: 0 <= j < |cookies| && IsTokenCookie(cookies[j]) ==> decode(CookieValue(cookies[j])).Ok?
    ensures ScanCookies(cookies[..n], decode) == Ok(Some(decode(CookieValue(cookies[i])).value))
    decreases n
  {
    assert cookies[..n][..n - 1] == cookies[..n - 1];
    assert cookies[..n][n - 1] == cookies[n - 1];
    ScanOkUpTo(cookies, decode, n - 1);
    ScanLast(cookies[..n], decode);
    if i < n - 1 {
      LastTokenUpTo(cookies, decode, i, n - 1);
    }
  }

  /** When every token cookie decodes, the scan of the first `n` succeeds. */
  lemma {:induction false} ScanOkUpTo(cookies: seq<string>, decode: string -> Result<string>, n: nat)
    requires n <= |cookies|
    requires forall j :: 0 <= j < |cookies| && IsTokenCookie(cookies[j]) ==> decode(CookieValue(cookies[j])).Ok?
    ensures ScanCookies(cookies[..n], decode).Ok?
    decreases n
  {
    if n > 0 {
      assert cookies[..n][..n - 1] == cookies[..n - 1];
      assert cookies[..n][n - 1] == cookies[n - 1];
      ScanOkUpTo(cookies, decode, n - 1);
    }
  }

  /** One more cookie: a failed scan stays failed; otherwise only a token
      cookie changes the outcome, to its decoded value or its decoding error. */
  lemma ScanLast(cookies: seq<string>, decode: string -> Result<string>)
    requires cookies != []
    ensures var before := ScanCookies(cookies[..|cookies| - 1], decode);
      before.Err? ==> ScanCookies(cookies, decode) == before
    ensures var before := ScanCookies(cookies[..|cookies| - 1], decode);
      var last := cookies[|cookies| - 1];
      before.Ok? && !IsTokenCookie(last) ==> ScanCookies(cookies, decode) == before
    ensures var before := ScanCookies(cookies[..|cookies| - 1], decode);
      var last := cookies[|cookies| - 1];
      before.Ok? && IsTokenCookie(last) && decode(CookieValue(last)).Ok? ==>
      ScanCookies(cookies, decode) == Ok(Some(decode(CookieValue(last)).value))
    ensures var before := ScanCookies(cookies[..|cookies| - 1], decode);
      var last := cookies[|cookies| - 1];
      before.Ok? && IsTokenCookie(last) && decode(CookieValue(last)).Err? ==>
      ScanCookies(cookies, decode) == Err(decode(CookieValue(last)).error)
  {
  }

  /** The scan fails exactly when some token cookie fails to decode. */
  lemma NoFailureWithoutBadCookie(cookies: seq<string>, decode: string -> Result<string>)
    ensures ScanCookies(cookies, decode).Err? <==>
      exists j :: 0 <= j < |cookies| && IsTokenCookie(cookies[j]) && decode(CookieValue(cookies[j])).Err?
  {
    NoFailureUpTo(cookies, decode, |cookies|);
    assert cookies[..|cookies|] == cookies;
  }

  /** `NoFailureWithoutBadCookie` for the first `n` cookies. */
  lemma {:induction false} NoFailureUpTo(cookies: seq<string>, decode: string -> Result<string>, n: nat)
    requires n <= |cookies|
    ensures ScanCookies(cookies[..n], decode).Err? <==>
      exists j :: 0 <= j < n && IsTokenCookie(cookies[j]) && decode(CookieValue(cookies[j])).Err?
    decreases n
  {
    if n > 0 {
      assert cookies[..n][..n - 1] == cookies[..n - 1];
      assert cookies[..n][n - 1] == cookies[n - 1];
      NoFailureUpTo(cookies, decode, n - 1);
      ScanLast(cookies[..n], decode);
      if exists j :: 0 <= j < n && IsTokenCookie(cookies[j]) && decode(CookieValue(cookies[j])).Err? {
        var j :| 0 <= j < n && IsTokenCookie(cookies[j]) && decode(CookieValue(cookies[j])).Err?;
        if j < n - 1 {
          assert ScanCookies(cookies[..n - 1], decode).Err?;
        }
      }
    } else {
      assert cookies[..0] == [];
    }
  }

  /** Without a token cookie the scan finds nothing. */
  lemma {:induction false} NoTokenCookie(cookies: seq<string>, decode: string -> Result<string>)
    requires forall j :: 0 <= j < |cookies| ==> !IsTokenCookie(cookies[j])
    ensures ScanCookies(cookies, decode) == Ok(None)
    decreases |cookies|
  {
    if |cookies| > 0 {
      NoTokenCookie(cookies[..|cookies| - 1], decode);
    }
  }

  /** Only the text up to a second `=` is the value: `name=va=lue` gives `va`,
      and a cookie without `=` has the value "undefined". */
  lemma CookieFields(name: string, value: string, tail: string)
    requires '=' !in name && '=' !in value
    ensures CookieName(name + "=" + value + "=" + tail) == name
    ensures CookieValue(name + "=" + value + "=" + tail) == value
    ensures CookieName(name) == name && CookieValue(name) == "undefined"
  {
    SplitAtFirst(name, '=', value + "=" + tail);
    assert name + "=" + value + "=" + tail == name + ['='] + (value + "=" + tail);
    SplitAtFirst(value, '=', tail);
    assert value + "=" + tail == value + ['='] + tail;
    SplitWithoutSeparator(name, '=');
  }

  /** `getGrubhubAuthDetails`. `account` is the `ngStorage-account` local
      storage item; `readUdId` and `readAccessToken` are `JSON.parse` followed
      by reading `ud_id` / `access_token` (an error when the text is not JSON or
      parses to `null`); `decode` is `decodeURIComponent`. */
  method GetGrubhubAuthDetails(documentCookie: string, account: Option<string>,
                               decode: string -> Result<string>,
                               readUdId: string -> Result<Option<string>>,
                               readAccessToken: string -> Result<Option<string>>)
    returns (r: Result<AuthDetails>)
    ensures var scanned := ScanCookies(Split(documentCookie, "; "), decode);
      var parsedUuid := if TruthyText(account) then readUdId(account.value) else Ok(None);
      (scanned.Err? ==> r == Err(scanned.error)) &&
      (scanned.Ok? && parsedUuid.Err? ==> r == Err(parsedUuid.error)) &&
      (scanned.Ok? && parsedUuid.Ok? ==>
        if TruthyText(scanned.value) && TruthyText(parsedUuid.value) then
          r == (match readAccessToken(scanned.value.value)
                case Err(e) => Err(e)
                case Ok(token) => Ok(AuthDetails(token, parsedUuid.value)))
        else r == Ok(AuthDetails(None, None)))
  {
    var cookies := Split(documentCookie, "; ");
    var cookieValue := FindTokenCookie(cookies, decode);
    if cookieValue.Err? {
      return Err(cookieValue.error);
    }
    var uuid: Option<string> := None;
    if TruthyText(account) {
      var parsed := readUdId(account.value);
      if parsed.Err? {
        return Err(parsed.error);
      }
      uuid := parsed.value;
    }
    if TruthyText(cookieValue.value) && TruthyText(uuid) {
      var accessToken := readAccessToken(cookieValue.value.value);
      if accessToken.Err? {
        return Err(accessToken.error);
      }
      return Ok(AuthDetails(accessToken.value, uuid));
    }
    return Ok(AuthDetails(None, None));
  }

  /** `fetchGrubhubData(pageSize, existingIds)`: without a token and a uuid
      nothing is requested and nothing sent; otherwise the pages are
      harvested (with no earlier orders), every order is stamped again and the
      list is sent as `storeGrubhubData`; `dataStored` follows only when the
      reply to that message is a success. A failed harvest sends nothing. */
  method FetchGrubhubData(auth: AuthDetails, pageSize: int, known: set<string>,
                          script: seq<GhReply>, clock: nat -> string,
                          restampClock: nat -> string, storeReply: Response)
    returns (sent: seq<Message>, requests: seq<PageRequest>)
    ensures !TruthyText(auth.token) || !TruthyText(auth.uuid) ==> sent == [] && requests == []
    ensures TruthyText(auth.token) && TruthyText(auth.uuid) ==>
      var run := HarvestFrom(script, pageSize, known, clock, 0, 1);
      requests == run.requests &&
      (run.result.Err? ==> sent == []) &&
      (run.result.Ok? ==> sent == [StoreGrubhubData(Restamp(run.result.value, restampClock))] +
                                  (if storeReply == Success then [DataStored] else []))
  {
    if !TruthyText(auth.token) || !TruthyText(auth.uuid) {
      return [], [];
    }
    var updatedData;
    updatedData, requests := FetchAllPages(script, [], pageSize, known, clock);
    if updatedData.Err? {
      return [], requests;
    }
    ghost var run := HarvestFrom(script, pageSize, known, clock, 0, 1);
    assert [] + run.result.value == run.result.value == updatedData.value;
    assert [] + run.requests == requests;
    var timestampedOrders := Restamp(updatedData.value, restampClock);
    var response := if storeReply == Success then [DataStored] else [];
    sent := [StoreGrubhubData(timestampedOrders)] + response;
  }

  /** What a check-and-fetch against the stored orders `existing` does: without
      both credentials nothing is requested or sent; with them the harvest runs
      under the policy the stored orders choose, and a harvest that succeeds
      sends exactly one `storeGrubhubData` with its orders, restamped, none of
      them already stored, followed by `dataStored` only on a success reply. */
  predicate FetchedAgainst(existing: seq<GrubhubRaw>, auth: Result<AuthDetails>, script: seq<GhReply>,
                           clock: nat -> string, restampClock: nat -> string,
                           storeReply: Response, sent: seq<Message>, requests: seq<PageRequest>)
  {
    (auth.Err? || !TruthyText(auth.value.token) || !TruthyText(auth.value.uuid) ==> sent == [] && requests == []) &&
    (auth.Ok? && TruthyText(auth.value.token) && TruthyText(auth.value.uuid) ==>
      var policy := ChoosePolicy(existing);
      var run := HarvestFrom(script, policy.pageSize, policy.existingIds, clock, 0, 1);
      requests == run.requests &&
      (run.result.Err? ==> sent == []) &&
      (run.result.Ok? ==> sent == [StoreGrubhubData(Restamp(run.result.value, restampClock))] +
                                  (if storeReply == Success then [DataStored] else [])) &&
      (forall m :: m in sent && m.StoreGrubhubData? ==>
        forall r :: r in m.grubhubOrders ==> r.id !in policy.existingIds))
  }

  /** `checkAndFetchGrubhubData`: the policy comes from the stored orders; a
      failure to read the credentials ends the run silently. */
  method CheckAndFetchGrubhubData(entries: map<string, StoredValue>, auth: Result<AuthDetails>,
                                  script: seq<GhReply>, clock: nat -> string,
                                  restampClock: nat -> string, storeReply: Response)
    returns (sent: seq<Message>, requests: seq<PageRequest>)
    ensures FetchedAgainst(StoredGrubhubOrders(entries), auth, script, clock, restampClock, storeReply, sent, requests)
  {
    var existingData := StoredGrubhubOrders(entries);
    var policy := ChoosePolicy(existingData);
    if auth.Err? {
      return [], [];
    }
    sent, requests := FetchGrubhubData(auth.value, policy.pageSize, policy.existingIds, script, clock, restampClock, storeReply);
    if TruthyText(auth.value.token) && TruthyText(auth.value.uuid) {
      var run := HarvestFrom(script, policy.pageSize, policy.existingIds, clock, 0, 1);
      HarvestSkipsKnown(script, policy.pageSize, policy.existingIds, clock, 0, 1);
      if run.result.Ok? {
        var stamped := Restamp(run.result.value, restampClock);
        forall r | r in stamped ensures r.id !in policy.existingIds {
          var i :| 0 <= i < |stamped| && stamped[i] == r;
          assert run.result.value[i] in run.result.value;
        }
      }
    }
  }

  /** The content script as it loads: `fetching: true` is stored, then the
      check-and-fetch runs against the store. */
  method Start(store: ExtensionStore, auth: Result<AuthDetails>, script: seq<GhReply>,
               clock: nat -> string, restampClock: nat -> string, storeReply: Response)
    returns (sent: seq<Message>, requests: seq<PageRequest>)
    modifies store
    ensures store.entries == old(store.entries)[FetchingKey := Flag(true)]
    ensures StoredGrubhubOrders(store.entries) == StoredGrubhubOrders(old(store.entries))
    ensures FetchedAgainst(StoredGrubhubOrders(old(store.entries)), auth, script, clock, restampClock, storeReply, sent, requests)
  {
    store.Set(FetchingKey, Flag(true));
    sent, requests := CheckAndFetchGrubhubData(store.entries, auth, script, clock, restampClock, storeReply);
  }

  /** The `fetchData` listener. `checkAndFetchGrubhubData` catches every
      error itself, so the reply is always a success. Other messages get no
      reply and start nothing. */
  method OnMessage(message: Message, entries: map<string, StoredValue>, auth: Result<AuthDetails>,
                   script: seq<GhReply>, clock: nat -> string, restampClock: nat -> string, storeReply: Response)
    returns (reply: Response, sent: seq<Message>, requests: seq<PageRequest>)
    ensures message.FetchData? ==> reply == Success
    ensures message.FetchData? ==>
      FetchedAgainst(StoredGrubhubOrders(entries), auth, script, clock, restampClock, storeReply, sent, requests)
    ensures !message.FetchData? ==> reply == NoResponse && sent == [] && requests == []
  {
    if message.FetchData? {
      sent, requests := CheckAndFetchGrubhubData(entries, auth, script, clock, restampClock, storeReply);
      reply := Success;
    } else {
      reply, sent, requests := NoResponse, [], [];
    }
  }
}
