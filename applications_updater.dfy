/**
 * The application cache refresh loop: wait until a token exists, then once per cycle page
 * through the Graph application collection following `@odata.nextLink`, and on complete
 * success replace the cache with the fetched applications keyed by id.
 *
 * The Graph API is a parameter: `PageSource.send` is what the server answers to a request,
 * `PageSource.parseTime` the date-time parser the page decoder uses. The token is read once
 * per cycle (a snapshot); the source re-reads it per page, which only matters when the other
 * loop renews it mid-cycle.
 */
module ApplicationsUpdater {
  import opened Wrappers
  import opened Applications
  import opened State
  import Settings

  /** The query suffix of the first request, after the `$top` value. */
  const SelectQuery: string := "&$select=id,appId,displayName,createdDateTime,passwordCredentials"
  const TopQuery: string := "?$top="
  /** How long the loop sleeps between two looks at an empty token. */
  const TokenPollMillis: nat := 5 * 1000

  /** An authenticated GET: the URL and the bearer token it carries. */
  datatype GraphRequest = GraphRequest(url: string, bearer: string)

  datatype FetchError = Transport(message: string) | InvalidPage(error: DecodeError)

  datatype PageSource = PageSource(
    send: GraphRequest -> Result<RawPage, string>,
    parseTime: string -> Option<Timestamp>)
  {
    /**
     * `get_applications`: send the request and decode the body as a page. A transport
     * failure or a page that does not decode is an error.
     */
    function Get(req: GraphRequest): Result<AzureApplications, FetchError>
    {
      match send(req)
      case Err(m) => Err(Transport(m))
      case Ok(raw) =>
        match DecodePage(raw, parseTime)
        case Err(e) => Err(InvalidPage(e))
        case Ok(page) => Ok(page)
    }
  }

  /**
   * What `get_applications` answers: a page exactly when the request went through and
   * its body decoded, that decoded page; otherwise the transport error, or the decode
   * error of the body.
   */
  lemma GetDecodesResponse(src: PageSource, req: GraphRequest)
    ensures var r := src.Get(req);
      var sent := src.send(req);
      && (r.Ok? <==> sent.Ok? && DecodePage(sent.value, src.parseTime).Ok?)
      && (r.Ok? ==> r.value == DecodePage(sent.value, src.parseTime).value)
      && (sent.Err? ==> r == Err(Transport(sent.error)))
      && (sent.Ok? && DecodePage(sent.value, src.parseTime).Err? ==>
            r == Err(InvalidPage(DecodePage(sent.value, src.parseTime).error)))
  {
  }

  // ---------------------------------------------------------------------------------
  // The first request's URL

  function DigitChar(d: nat): char
    requires d < 10
  {
    ('0' as int + d) as char
  }

  predicate IsDigits(s: string)
  {
    forall i :: 0 <= i < |s| ==> '0' <= s[i] <= '9'
  }

  /** `n` written in decimal, as `format!("{}")` writes an integer. */
  function Decimal(n: nat): (s: string)
    ensures |s| >= 1 && IsDigits(s)
    decreases n
  {
    if n < 10 then [DigitChar(n)] else Decimal(n / 10) + [DigitChar(n % 10)]
  }

  /** The value of a string of decimal digits. */
  function ParseDecimal(s: string): nat
    requires IsDigits(s)
  {
    if s == [] then 0 else ParseDecimal(s[..|s| - 1]) * 10 + (s[|s| - 1] as int - '0' as int)
  }

  /** Writing a number in decimal loses nothing: it reads back as the same number. */
  lemma {:induction false} DecimalRoundTrip(n: nat)
    ensures ParseDecimal(Decimal(n)) == n
    decreases n
  {
    var s := Decimal(n);
    if n >= 10 {
      assert s[..|s| - 1] == Decimal(n / 10);
      DecimalRoundTrip(n / 10);
    }
  }

  /** The URL of the first page: the configured URL, the page size and the selected fields. */
  function FirstPageUrl(a: Settings.ApplicationsSettings): string
  {
    a.url + TopQuery + Decimal(a.resultsPerPage) + SelectQuery
  }

  /** Reads the `$top` value back out of a first-page URL built on `base`, if it is one. */
  function TopOf(url: string, base: string): Option<nat>
  {
    var start := |base| + |TopQuery|;
    if |url| >= start + |SelectQuery|
       && url[..start] == base + TopQuery
       && url[|url| - |SelectQuery|..] == SelectQuery
       && IsDigits(url[start..|url| - |SelectQuery|])
    then Some(ParseDecimal(url[start..|url| - |SelectQuery|]))
    else None
  }

  /**
   * The first request goes to the configured URL and asks for exactly `results_per_page`
   * applications per page.
   */
  lemma FirstPageAsksForPageSize(a: Settings.ApplicationsSettings)
    ensures TopOf(FirstPageUrl(a), a.url) == Some(a.resultsPerPage)
  {
    var url := FirstPageUrl(a);
    var start := |a.url| + |TopQuery|;
    var digits := Decimal(a.resultsPerPage);
    assert url[..start] == a.url + TopQuery;
    assert url[|url| - |SelectQuery|..] == SelectQuery;
    assert url[start..|url| - |SelectQuery|] == digits;
    DecimalRoundTrip(a.resultsPerPage);
  }

  // ---------------------------------------------------------------------------------
  // Pagination, as a specification

  /**
   * The chain of next links from `link` ends, or fails, within `k` requests. The source
   * follows the chain for as long as the server extends it; the model covers the servers
   * whose chain ends.
   */
  ghost predicate ChainEnds(src: PageSource, token: string, link: Option<string>, k: nat)
    decreases k
  {
    link.None? ||
    (k > 0 &&
     var r := src.Get(GraphRequest(link.value, token));
     r.Err? || ChainEnds(src, token, r.value.nextLink, k - 1))
  }

  function PrependPages(ps: seq<AzureApplications>, r: Result<seq<AzureApplications>, FetchError>): Result<seq<AzureApplications>, FetchError>
  {
    match r
    case Err(e) => Err(e)
    case Ok(qs) => Ok(ps + qs)
  }

  /** The pages fetched starting at `link`, in order, or the first error. */
  function Pages(src: PageSource, token: string, link: Option<string>, k: nat): Result<seq<AzureApplications>, FetchError>
    requires ChainEnds(src, token, link, k)
    decreases k
  {
    if link.None? then Ok([])
    else
      match src.Get(GraphRequest(link.value, token))
      case Err(e) => Err(e)
      case Ok(p) => PrependPages([p], Pages(src, token, p.nextLink, k - 1))
  }

  /** The requests sent starting at `link`, in order; every one carries the token. */
  function Requests(src: PageSource, token: string, link: Option<string>, k: nat): (rs: seq<GraphRequest>)
    requires ChainEnds(src, token, link, k)
    ensures forall i :: 0 <= i < |rs| ==> rs[i].bearer == token
    decreases k
  {
    if link.None? then []
    else
      var req := GraphRequest(link.value, token);
      match src.Get(req)
      case Err(_) => [req]
      case Ok(p) => [req] + Requests(src, token, p.nextLink, k - 1)
  }

  /** The applications of a sequence of pages, page after page. */
  function Flatten(ps: seq<AzureApplications>): seq<AzureApplication>
  {
    if ps == [] then [] else Flatten(ps[..|ps| - 1]) + ps[|ps| - 1].value
  }

  /** The result of paging from `url`: every page's applications in fetch order, or the error. */
  function Fetched(src: PageSource, token: string, url: string, k: nat): Result<seq<AzureApplication>, FetchError>
    requires ChainEnds(src, token, Some(url), k)
  {
    match Pages(src, token, Some(url), k)
    case Err(e) => Err(e)
    case Ok(ps) => Ok(Flatten(ps))
  }

  /**
   * A successful paging fetched page i from request i: the first request went to `url`,
   * each later one to the previous page's next link verbatim, every page but the last had
   * a next link, and the last had none.
   */
  lemma {:induction false} PaginationComplete(src: PageSource, token: string, url: string, k: nat)
    requires ChainEnds(src, token, Some(url), k)
    requires Pages(src, token, Some(url), k).Ok?
    ensures var ps := Pages(src, token, Some(url), k).value;
      var rs := Requests(src, token, Some(url), k);
      && |ps| >= 1 && |rs| == |ps| && rs[0].url == url
      && (forall i :: 0 <= i < |ps| ==> src.Get(rs[i]) == Ok(ps[i]))
      && (forall i :: 0 <= i < |ps| - 1 ==> ps[i].nextLink == Some(rs[i + 1].url))
      && ps[|ps| - 1].nextLink.None?
    decreases k
  {
    var req := GraphRequest(url, token);
    var p := src.Get(req).value;
    if p.nextLink.Some? {
      var next := p.nextLink.value;
      PaginationComplete(src, token, next, k - 1);
      var ps' := Pages(src, token, Some(next), k - 1).value;
      var rs' := Requests(src, token, Some(next), k - 1);
      var ps := Pages(src, token, Some(url), k).value;
      var rs := Requests(src, token, Some(url), k);
      assert ps == [p] + ps';
      assert rs == [req] + rs';
      forall i | 0 <= i < |ps| ensures src.Get(rs[i]) == Ok(ps[i]) {
        if i > 0 { assert rs[i] == rs'[i - 1] && ps[i] == ps'[i - 1]; }
      }
      forall i | 0 <= i < |ps| - 1 ensures ps[i].nextLink == Some(rs[i + 1].url) {
        if i > 0 { assert rs[i + 1] == rs'[i] && ps[i] == ps'[i - 1]; }
      }
    }
  }

  /**
   * A failed paging stopped at the request that failed, with that request's error; every
   * request before it succeeded and led, through its next link, to the following one.
   */
  lemma {:induction false} PaginationStopsAtFailure(src: PageSource, token: string, url: string, k: nat)
    requires ChainEnds(src, token, Some(url), k)
    requires Pages(src, token, Some(url), k).Err?
    ensures var rs := Requests(src, token, Some(url), k);
      && |rs| >= 1 && rs[0].url == url
      && src.Get(rs[|rs| - 1]) == Err(Pages(src, token, Some(url), k).error)
      && (forall i :: 0 <= i < |rs| - 1 ==> src.Get(rs[i]).Ok? && src.Get(rs[i]).value.nextLink == Some(rs[i + 1].url))
    decreases k
  {
    var req := GraphRequest(url, token);
    var r := src.Get(req);
    if r.Ok? {
      var next := r.value.nextLink.value;
      PaginationStopsAtFailure(src, token, next, k - 1);
      var rs' := Requests(src, token, Some(next), k - 1);
      var rs := Requests(src, token, Some(url), k);
      assert rs == [req] + rs';
      forall i | 0 <= i < |rs| - 1
        ensures src.Get(rs[i]).Ok? && src.Get(rs[i]).value.nextLink == Some(rs[i + 1].url)
      {
        if i > 0 { assert rs[i] == rs'[i - 1] && rs[i + 1] == rs'[i]; }
      }
    }
  }

  // ---------------------------------------------------------------------------------
  // The cache contents a fetch produces

  /** The ids of a list of applications. */
  function Ids(apps: seq<AzureApplication>): set<string>
  {
    set i | 0 <= i < |apps| :: apps[i].id
  }

  /** `apps[i]` is the last application in the list with its id. */
  predicate LastWithId(apps: seq<AzureApplication>, i: int)
  {
    0 <= i < |apps| && forall j :: i < j < |apps| ==> apps[j].id != apps[i].id
  }

  /** The map `clear` then `extend` leaves: each application inserted under its id, in order. */
  function IndexById(apps: seq<AzureApplication>): map<string, AzureApplication>
  {
    if apps == [] then map[]
    else IndexById(apps[..|apps| - 1])[apps[|apps| - 1].id := apps[|apps| - 1]]
  }

  /** The cache a refresh publishes is keyed by exactly the fetched ids. */
  lemma {:induction false} IndexByIdKeys(apps: seq<AzureApplication>)
    ensures IndexById(apps).Keys == Ids(apps)
  {
    if apps != [] {
      var n := |apps| - 1;
      var prefix := apps[..n];
      IndexByIdKeys(prefix);
      forall id | id in Ids(apps) ensures id in Ids(prefix) + {apps[n].id} {
        var i :| 0 <= i < |apps| && apps[i].id == id;
        if i < n { assert prefix[i] == apps[i]; }
      }
      forall id | id in Ids(prefix) ensures id in Ids(apps) {
        var i :| 0 <= i < |prefix| && prefix[i].id == id;
        assert apps[i] == prefix[i];
      }
    }
  }

  /**
   * Each entry of the published cache is stored under its own id, and for a repeated id
   * the cache holds the later application.
   */
  lemma {:induction false} IndexByIdEntries(apps: seq<AzureApplication>)
    ensures forall id :: id in IndexById(apps) ==> IndexById(apps)[id].id == id
    ensures forall i :: LastWithId(apps, i) ==> apps[i].id in IndexById(apps) && IndexById(apps)[apps[i].id] == apps[i]
  {
    if apps != [] {
      var n := |apps| - 1;
      var prefix := apps[..n];
      IndexByIdEntries(prefix);
      forall i | LastWithId(apps, i) ensures apps[i].id in IndexById(apps) && IndexById(apps)[apps[i].id] == apps[i] {
        if i < n {
          assert prefix[i] == apps[i];
          assert LastWithId(prefix, i);
        }
      }
    }
  }

  /** Every cached entry is one of the fetched applications; nothing else survives. */
  lemma IndexHoldsOnlyFetched(apps: seq<AzureApplication>, id: string)
    requires id in IndexById(apps)
    ensures exists i :: LastWithId(apps, i) && apps[i].id == id && IndexById(apps)[id] == apps[i]
  {
    IndexByIdKeys(apps);
    IndexByIdEntries(apps);
    var i :| 0 <= i < |apps| && apps[i].id == id;
    while !LastWithId(apps, i)
      invariant 0 <= i < |apps| && apps[i].id == id
      decreases |apps| - i
    {
      var later :| i < later < |apps| && apps[later].id == apps[i].id;
      i := later;
    }
  }

  /** Two applications under one id: the later one is cached. */
  lemma LaterDuplicateWins(a: AzureApplication, b: AzureApplication)
    requires a.id == b.id
    ensures IndexById([a, b]) == map[b.id := b]
  {
    assert [a, b][..1] == [a];
    assert [a][..0] == [];
    assert IndexById([a]) == map[a.id := a];
  }

  /** The cache after one refresh: replaced by the fetched applications, or left as it was. */
  function CacheAfter(cache: map<string, AzureApplication>, outcome: Result<seq<AzureApplication>, FetchError>): map<string, AzureApplication>
  {
    if outcome.Ok? then IndexById(outcome.value) else cache
  }

  /** A successful fetch of no applications empties the cache instead of keeping old entries. */
  lemma EmptyFetchEmptiesCache(cache: map<string, AzureApplication>)
    ensures CacheAfter(cache, Ok([])) == map[]
  {
  }

  // ---------------------------------------------------------------------------------
  // The loop, as methods

  /**
   * The token wait before the first cycle: `polls` are the token values successive looks
   * read. The loop sleeps 5 seconds per empty value and goes on at the first non-empty one;
   * `sleeps` are those sleeps.
   */
  method AwaitToken(polls: seq<string>) returns (sleeps: seq<nat>)
    requires exists i :: 0 <= i < |polls| && polls[i] != ""
    ensures |sleeps| < |polls| && polls[|sleeps|] != ""
    ensures forall i :: 0 <= i < |sleeps| ==> polls[i] == "" && sleeps[i] == TokenPollMillis
  {
    sleeps := [];
    while polls[|sleeps|] == ""
      invariant |sleeps| < |polls|
      invariant forall i :: 0 <= i < |sleeps| ==> polls[i] == "" && sleeps[i] == TokenPollMillis
      invariant exists j :: |sleeps| <= j < |polls| && polls[j] != ""
      decreases |polls| - |sleeps|
    {
      sleeps := sleeps + [TokenPollMillis];
    }
  }

  /**
   * The paging loop of `inner`: fetch the first page, then while the merged response has
   * a next link fetch it, take over its next link and append its applications. The first
   * failure is returned at once.
   */
  method FetchAll(src: PageSource, token: string, firstUrl: string, ghost k: nat)
    returns (r: Result<seq<AzureApplication>, FetchError>, requests: seq<GraphRequest>)
    requires ChainEnds(src, token, Some(firstUrl), k)
    ensures r == Fetched(src, token, firstUrl, k)
    ensures requests == Requests(src, token, Some(firstUrl), k)
  {
    var req := GraphRequest(firstUrl, token);
    requests := [req];
    var first := src.Get(req);
    if first.Err? {
      return Err(first.error), requests;
    }
    var response := first.value;
    ghost var rest: nat := k - 1;
    ghost var fetched := [first.value];
    ghost var all := Pages(src, token, Some(firstUrl), k);
    assert [first.value] == fetched[..0] + [first.value];
    while response.nextLink.Some?
      invariant ChainEnds(src, token, response.nextLink, rest)
      invariant all == PrependPages(fetched, Pages(src, token, response.nextLink, rest))
      invariant Requests(src, token, Some(firstUrl), k) == requests + Requests(src, token, response.nextLink, rest)
      invariant response.value == Flatten(fetched)
      decreases rest
    {
      var link := response.nextLink.value;
      var nextReq := GraphRequest(link, token);
      var next := src.Get(nextReq);
      ghost var tail := Requests(src, token, response.nextLink, rest);
      if next.Err? {
        assert tail == [nextReq];
        requests := requests + [nextReq];
        return Err(next.error), requests;
      }
      assert tail == [nextReq] + Requests(src, token, next.value.nextLink, rest - 1);
      PrependPagesAssoc(fetched, [next.value], Pages(src, token, next.value.nextLink, rest - 1));
      assert (fetched + [next.value])[..|fetched|] == fetched;
      requests := requests + [nextReq];
      response := AzureApplications(next.value.nextLink, response.value + next.value.value);
      fetched := fetched + [next.value];
      rest := rest - 1;
    }
    assert fetched + [] == fetched;
    r := Ok(response.value);
  }

  lemma PrependPagesAssoc(ps: seq<AzureApplications>, qs: seq<AzureApplications>, r: Result<seq<AzureApplications>, FetchError>)
    ensures PrependPages(ps, PrependPages(qs, r)) == PrependPages(ps + qs, r)
  {
    if r.Ok? {
      assert ps + (qs + r.value) == (ps + qs) + r.value;
    }
  }

  /**
   * The write-locked step of `inner`: clear the cache, then insert every application under
   * its id, in list order.
   */
  method ReplaceApplications(gs: GlobalState, apps: seq<AzureApplication>)
    modifies gs`applications
    ensures gs.applications == IndexById(apps)
  {
    gs.applications := map[];
    var i := 0;
    while i < |apps|
      invariant 0 <= i <= |apps|
      invariant gs.applications == IndexById(apps[..i])
    {
      assert apps[..i + 1][..i] == apps[..i];
      gs.applications := gs.applications[apps[i].id := apps[i]];
      i := i + 1;
    }
    assert apps[..i] == apps;
  }

  /**
   * `inner`: page from the first-page URL with the current token; only when every page
   * succeeded is the cache replaced, so a failure leaves it exactly as it was.
   */
  method RefreshApplications(gs: GlobalState, src: PageSource, ghost k: nat)
    returns (r: Result<(), FetchError>, requests: seq<GraphRequest>)
    requires ChainEnds(src, gs.azureApiToken, Some(FirstPageUrl(gs.settings.applications)), k)
    modifies gs`applications
    ensures var fetched := Fetched(src, gs.azureApiToken, FirstPageUrl(gs.settings.applications), k);
      && requests == Requests(src, gs.azureApiToken, Some(FirstPageUrl(gs.settings.applications)), k)
      && (r.Ok? <==> fetched.Ok?)
      && (fetched.Err? ==> r.error == fetched.error)
      && gs.applications == CacheAfter(old(gs.applications), fetched)
  {
    var token := gs.azureApiToken;
    var fetched;
    fetched, requests := FetchAll(src, token, FirstPageUrl(gs.settings.applications), k);
    if fetched.Err? {
      return Err(fetched.error), requests;
    }
    ReplaceApplications(gs, fetched.value);
    r := Ok(());
  }

  /**
   * One turn of the loop: refresh, label the outcome, and sleep the configured interval
   * whether the refresh succeeded or not. `cached` is the cache size the cycle logs.
   */
  method ApplicationsCycle(gs: GlobalState, src: PageSource, ghost k: nat)
    returns (sleepMillis: nat, status: Status, cached: nat, requests: seq<GraphRequest>)
    requires ChainEnds(src, gs.azureApiToken, Some(FirstPageUrl(gs.settings.applications)), k)
    modifies gs`applications
    ensures var fetched := Fetched(src, gs.azureApiToken, FirstPageUrl(gs.settings.applications), k);
      && requests == Requests(src, gs.azureApiToken, Some(FirstPageUrl(gs.settings.applications)), k)
      && gs.applications == CacheAfter(old(gs.applications), fetched)
      && (status == Success <==> fetched.Ok?)
    ensures sleepMillis == gs.settings.applications.cacheRefreshIntervalMillis
    ensures cached == |gs.applications|
  {
    var result;
    result, requests := RefreshApplications(gs, src, k);
    sleepMillis := gs.settings.applications.cacheRefreshIntervalMillis;
    cached := |gs.applications|;
    status := if result.Ok? then Success else Fail;
  }

  /** The outcomes of successive cycles, each against what the server did in that cycle. */
  function Outcomes(srcs: seq<PageSource>, ks: seq<nat>, token: string, url: string)
    : (os: seq<Result<seq<AzureApplication>, FetchError>>)
    requires |ks| == |srcs|
    requires forall i :: 0 <= i < |srcs| ==> ChainEnds(srcs[i], token, Some(url), ks[i])
    ensures |os| == |srcs|
    ensures forall i :: 0 <= i < |srcs| ==> os[i] == Fetched(srcs[i], token, url, ks[i])
  {
    seq(|srcs|, i requires 0 <= i < |srcs| => Fetched(srcs[i], token, url, ks[i]))
  }

  /** The cache after a run of cycles, one after another. */
  function CacheAfterAll(cache: map<string, AzureApplication>, outcomes: seq<Result<seq<AzureApplication>, FetchError>>)
    : map<string, AzureApplication>
  {
    if outcomes == [] then cache
    else CacheAfter(CacheAfterAll(cache, outcomes[..|outcomes| - 1]), outcomes[|outcomes| - 1])
  }

  /**
   * Stale but available: after any run of cycles the cache holds exactly what the last
   * successful cycle fetched, or what it held before the run if no cycle succeeded.
   */
  lemma {:induction false} CacheIsLastSuccessfulFetch(
    cache: map<string, AzureApplication>, outcomes: seq<Result<seq<AzureApplication>, FetchError>>, j: int)
    requires -1 <= j < |outcomes|
    requires j >= 0 ==> outcomes[j].Ok?
    requires forall i :: j < i < |outcomes| ==> outcomes[i].Err?
    ensures CacheAfterAll(cache, outcomes) == if j < 0 then cache else IndexById(outcomes[j].value)
  {
    if outcomes != [] {
      var n := |outcomes| - 1;
      if j < n {
        CacheIsLastSuccessfulFetch(cache, outcomes[..n], j);
      }
    }
  }

  /** One more cycle extends the fold by that cycle's outcome. */
  lemma CacheAfterAllStep(cache: map<string, AzureApplication>, outcomes: seq<Result<seq<AzureApplication>, FetchError>>, i: nat)
    requires i < |outcomes|
    ensures CacheAfterAll(cache, outcomes[..i + 1]) == CacheAfter(CacheAfterAll(cache, outcomes[..i]), outcomes[i])
  {
    assert outcomes[..i + 1][..i] == outcomes[..i];
  }

  /**
   * The cycles of the loop, one per entry of `srcs`: each runs whatever the outcome of the
   * one before, sends the requests its paging calls for, sleeps the configured interval,
   * and the cache is that of the whole run.
   */
  method RunCycles(gs: GlobalState, srcs: seq<PageSource>, ghost ks: seq<nat>)
    returns (sleeps: seq<nat>, statuses: seq<Status>, sent: seq<seq<GraphRequest>>)
    requires |ks| == |srcs|
    requires forall i :: 0 <= i < |srcs| ==> ChainEnds(srcs[i], gs.azureApiToken, Some(FirstPageUrl(gs.settings.applications)), ks[i])
    modifies gs`applications
    ensures |sleeps| == |srcs| && |statuses| == |srcs| && |sent| == |srcs|
    ensures forall i :: 0 <= i < |srcs| ==> sleeps[i] == gs.settings.applications.cacheRefreshIntervalMillis
    ensures forall i :: 0 <= i < |srcs| ==> sent[i] == Requests(srcs[i], gs.azureApiToken, Some(FirstPageUrl(gs.settings.applications)), ks[i])
    ensures var os := Outcomes(srcs, ks, gs.azureApiToken, FirstPageUrl(gs.settings.applications));
      && (forall i :: 0 <= i < |srcs| ==> (statuses[i] == Success <==> os[i].Ok?))
      && gs.applications == CacheAfterAll(old(gs.applications), os)
  {
    ghost var token := gs.azureApiToken;
    ghost var url := FirstPageUrl(gs.settings.applications);
    ghost var os := Outcomes(srcs, ks, token, url);
    ghost var start := gs.applications;
    sleeps, statuses, sent := [], [], [];
    var i := 0;
    while i < |srcs|
      invariant 0 <= i <= |srcs|
      invariant |sleeps| == i && |statuses| == i && |sent| == i
      invariant forall n :: 0 <= n < i ==> sleeps[n] == gs.settings.applications.cacheRefreshIntervalMillis
      invariant forall n :: 0 <= n < i ==> sent[n] == Requests(srcs[n], token, Some(url), ks[n])
      invariant forall n :: 0 <= n < i ==> (statuses[n] == Success <==> os[n].Ok?)
      invariant gs.applications == CacheAfterAll(start, os[..i])
    {
      var sleepMillis, status, cached, requests := ApplicationsCycle(gs, srcs[i], ks[i]);
      CacheAfterAllStep(start, os, i);
      sleeps, statuses, sent := sleeps + [sleepMillis], statuses + [status], sent + [requests];
      i := i + 1;
    }
    assert os[..i] == os;
  }

  /**
   * The updater run for as many cycles as `srcs` has entries. The token cell is read until
   * it is non-empty; `polls` are those reads, the last of them the value the cell keeps for
   * the run. The wait happens once, before the first cycle, and no request of any cycle
   * goes out with an empty bearer token.
   */
  method RunApplicationsUpdater(gs: GlobalState, polls: seq<string>, srcs: seq<PageSource>, ghost ks: seq<nat>)
    returns (tokenSleeps: seq<nat>, sleeps: seq<nat>, statuses: seq<Status>, sent: seq<seq<GraphRequest>>)
    requires |polls| >= 1 && polls[|polls| - 1] == gs.azureApiToken && gs.azureApiToken != ""
    requires forall i :: 0 <= i < |polls| - 1 ==> polls[i] == ""
    requires |ks| == |srcs|
    requires forall i :: 0 <= i < |srcs| ==> ChainEnds(srcs[i], gs.azureApiToken, Some(FirstPageUrl(gs.settings.applications)), ks[i])
    modifies gs`applications
    ensures |tokenSleeps| == |polls| - 1
    ensures forall i :: 0 <= i < |tokenSleeps| ==> tokenSleeps[i] == TokenPollMillis
    ensures |sleeps| == |srcs| && |statuses| == |srcs| && |sent| == |srcs|
    ensures forall i :: 0 <= i < |srcs| ==> sleeps[i] == gs.settings.applications.cacheRefreshIntervalMillis
    ensures forall i :: 0 <= i < |srcs| ==> sent[i] == Requests(srcs[i], gs.azureApiToken, Some(FirstPageUrl(gs.settings.applications)), ks[i])
    ensures forall i, j :: 0 <= i < |sent| && 0 <= j < |sent[i]| ==> sent[i][j].bearer == polls[|tokenSleeps|] && sent[i][j].bearer != ""
    ensures var os := Outcomes(srcs, ks, gs.azureApiToken, FirstPageUrl(gs.settings.applications));
      && (forall i :: 0 <= i < |srcs| ==> (statuses[i] == Success <==> os[i].Ok?))
      && gs.applications == CacheAfterAll(old(gs.applications), os)
  {
    tokenSleeps := AwaitToken(polls);
    sleeps, statuses, sent := RunCycles(gs, srcs, ks);
  }
}
