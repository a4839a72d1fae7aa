/** The scraper: the paginated URL list, the two retrying fetchers (the
    synchronous one re-raises on exhaustion, the asynchronous one returns an
    error record), the mode dispatch of a run, and the rows its writers store.

    A fetched page is abstract: `Page` maps a selector to the texts of the
    elements it selects. Which page or exception an attempt meets is an oracle
    indexed by the attempt number. */
module WebScraper {
  import opened Values
  import opened Retry
  import Storage

  /** A parsed document: the texts of the elements a selector selects. */
  type Page = Value -> seq<string>

  // ---------------------------------------------------------------------------
  // Pagination.

  /** The URL of one page: `?` starts the query unless the base URL already has one. */
  function PageUrl(baseUrl: string, param: string, page: int): string
  {
    baseUrl + (if '?' in baseUrl then "&" else "?") + param + "=" + Decimal(page)
  }

  /** The double quote, which Python's messages put around a type name. */
  const Quote: string := [34 as char]

  /** `end_page + 1`, with the TypeError Python raises for a non-number. */
  function PlusOne(v: Value): Result<int, Exception>
  {
    match v
    case Int(i) => Ok(i + 1)
    case Bool(b) => Ok(if b then 2 else 1)
    case Str(_) => Err(Exception("TypeError", "can only concatenate str (not " + Quote + "int" + Quote + ") to str"))
    case List(_) => Err(Exception("TypeError", "can only concatenate list (not " + Quote + "int" + Quote + ") to list"))
    case _ => Err(Exception("TypeError", "unsupported operand type(s) for +: '" + TypeName(v) + "' and 'int'"))
  }

  /** A `range` bound: an int, or a bool read as 0 or 1. */
  function AsIndex(v: Value): Result<int, Exception>
  {
    match v
    case Int(i) => Ok(i)
    case Bool(b) => Ok(if b then 1 else 0)
    case _ => Err(Exception("TypeError", "'" + TypeName(v) + "' object cannot be interpreted as an integer"))
  }

  /** The pages `range(start, stop)` visits, turned into URLs. */
  function PageRange(baseUrl: string, param: string, start: int, stop: int): (urls: seq<string>)
    ensures |urls| == if stop <= start then 0 else stop - start
  {
    seq(if stop <= start then 0 else stop - start, i => PageUrl(baseUrl, param, start + i))
  }

  /** handle_pagination: without a pagination config, just the base URL;
      otherwise one URL per page from start to end inclusive, with defaults
      param 'page', start 1 and end 10. */
  function PaginationUrls(baseUrl: string, pagination: Value): Result<seq<string>, Exception>
  {
    if !Truthy(pagination) then Ok([baseUrl])
    else if !pagination.Dict? then Err(NoAttribute(pagination, "get"))
    else
      var param := ToStr(Get(pagination.entries, "param", Str("page")));
      var start := Get(pagination.entries, "start", Int(1));
      var end := Get(pagination.entries, "end", Int(10));
      match PlusOne(end)
      case Err(e) => Err(e)
      case Ok(stop) =>
        match AsIndex(start)
        case Err(e) => Err(e)
        case Ok(first) => Ok(PageRange(baseUrl, param, first, stop))
  }

  /** handle_pagination as the source writes it, appending one URL per page. */
  method HandlePagination(baseUrl: string, pagination: Value) returns (r: Result<seq<string>, Exception>)
    ensures r == PaginationUrls(baseUrl, pagination)
  {
    if !Truthy(pagination) {
      return Ok([baseUrl]);
    }
    if !pagination.Dict? {
      return Err(NoAttribute(pagination, "get"));
    }
    var param := ToStr(Get(pagination.entries, "param", Str("page")));
    var stop := PlusOne(Get(pagination.entries, "end", Int(10)));
    if stop.Err? {
      return Err(stop.error);
    }
    var first := AsIndex(Get(pagination.entries, "start", Int(1)));
    if first.Err? {
      return Err(first.error);
    }
    var urls := PageLoop(baseUrl, param, first.value, stop.value);
    return Ok(urls);
  }

  /** `for page in range(start, stop)`, appending each page's URL. */
  method PageLoop(baseUrl: string, param: string, start: int, stop: int) returns (urls: seq<string>)
    ensures urls == PageRange(baseUrl, param, start, stop)
  {
    urls := [];
    var page := start;
    while page < stop
      invariant start <= page <= if stop < start then start else stop
      invariant urls == PageRange(baseUrl, param, start, page)
    {
      urls := urls + [PageUrl(baseUrl, param, page)];
      page := page + 1;
    }
  }

  /** Reads the page number back out of a URL built for `baseUrl` and `param`. */
  function PageOf(url: string, baseUrl: string, param: string): Option<int>
  {
    var prefix := baseUrl + (if '?' in baseUrl then "&" else "?") + param + "=";
    if StartsWith(url, prefix) then ParseDecimal(url[|prefix|..]) else None
  }

  lemma PageOfPageUrl(baseUrl: string, param: string, page: int)
    ensures PageOf(PageUrl(baseUrl, param, page), baseUrl, param) == Some(page)
  {
    var prefix := baseUrl + (if '?' in baseUrl then "&" else "?") + param + "=";
    var url := PageUrl(baseUrl, param, page);
    assert url == prefix + Decimal(page);
    assert url[..|prefix|] == prefix;
    assert url[|prefix|..] == Decimal(page);
    DecimalRoundTrip(page);
  }

  /** The URL list of a valid pagination config: start..end inclusive, so
      max(0, end - start + 1) URLs; URL i carries page start + i; every URL
      extends the base URL with `&` when it already has a query and `?`
      otherwise; no page is listed twice. */
  lemma PaginationPages(baseUrl: string, pagination: Value)
    requires pagination.Dict? && pagination.entries != []
    requires Get(pagination.entries, "start", Int(1)).Int? && Get(pagination.entries, "end", Int(10)).Int?
    ensures var start := Get(pagination.entries, "start", Int(1)).i;
      var end := Get(pagination.entries, "end", Int(10)).i;
      var param := ToStr(Get(pagination.entries, "param", Str("page")));
      var sep := if '?' in baseUrl then "&" else "?";
      && PaginationUrls(baseUrl, pagination).Ok?
      && var urls := PaginationUrls(baseUrl, pagination).value;
      && |urls| == (if end < start then 0 else end - start + 1)
      && (forall i :: 0 <= i < |urls| ==>
            && urls[i] == baseUrl + sep + param + "=" + Decimal(start + i)
            && StartsWith(urls[i], baseUrl + sep + param + "=")
            && PageOf(urls[i], baseUrl, param) == Some(start + i))
      && (forall i, j :: 0 <= i < j < |urls| ==> urls[i] != urls[j])
  {
    var start := Get(pagination.entries, "start", Int(1)).i;
    var end := Get(pagination.entries, "end", Int(10)).i;
    var param := ToStr(Get(pagination.entries, "param", Str("page")));
    var sep := if '?' in baseUrl then "&" else "?";
    var urls := PaginationUrls(baseUrl, pagination).value;
    assert urls == PageRange(baseUrl, param, start, end + 1);
    forall i | 0 <= i < |urls|
      ensures urls[i] == baseUrl + sep + param + "=" + Decimal(start + i)
      ensures StartsWith(urls[i], baseUrl + sep + param + "=")
      ensures PageOf(urls[i], baseUrl, param) == Some(start + i)
    {
      assert urls[i] == PageUrl(baseUrl, param, start + i);
      assert urls[i] == (baseUrl + sep + param + "=") + Decimal(start + i);
      PageOfPageUrl(baseUrl, param, start + i);
    }
    forall i, j | 0 <= i < j < |urls|
      ensures urls[i] != urls[j]
    {
      PageOfPageUrl(baseUrl, param, start + i);
      PageOfPageUrl(baseUrl, param, start + j);
    }
  }

  /** No pagination config: the base URL alone. */
  lemma NoPaginationIsBaseUrl(baseUrl: string, pagination: Value)
    requires pagination == Dict([]) || pagination == Null
    ensures PaginationUrls(baseUrl, pagination) == Ok([baseUrl])
  {
  }

  /** The pagination of the scraper test, pages 1 and 2 under the parameter
      'page', on a base URL without a query such as https://httpbin.org. */
  lemma TwoPages(baseUrl: string, pagination: Value)
    requires '?' !in baseUrl
    requires pagination == Dict([("param", Str("page")), ("start", Int(1)), ("end", Int(2))])
    ensures PaginationUrls(baseUrl, pagination) == Ok([baseUrl + "?page=1", baseUrl + "?page=2"])
  {
    var urls := PageRange(baseUrl, "page", 1, 3);
    assert PaginationUrls(baseUrl, pagination) == Ok(urls) by {
      assert Get(pagination.entries, "param", Str("page")) == Str("page");
      assert Get(pagination.entries, "start", Int(1)) == Int(1);
      assert Get(pagination.entries, "end", Int(10)) == Int(2);
    }
    assert urls[0] == baseUrl + "?page=1" by {
      assert Decimal(1) == "1" by { assert DigitChar(1) == '1'; }
      assert urls[0] == PageUrl(baseUrl, "page", 1);
    }
    assert urls[1] == baseUrl + "?page=2" by {
      assert Decimal(2) == "2" by { assert DigitChar(2) == '2'; }
      assert urls[1] == PageUrl(baseUrl, "page", 2);
    }
    assert urls == [urls[0], urls[1]];
  }

  // ---------------------------------------------------------------------------
  // Extraction and fetching.

  /** `data[key] = [texts]` for every selector, in the selectors' order. */
  function Extract(data: Entries, selectors: Entries, page: Page): (r: Entries)
    ensures Keys(r) == Keys(data) + Keys(selectors)
    decreases |selectors|
  {
    if selectors == [] then data
    else
      var texts := page(selectors[0].1);
      Extract(Put(data, selectors[0].0, List(seq(|texts|, i requires 0 <= i < |texts| => Str(texts[i])))),
              selectors[1..], page)
  }

  function FetchOp(fetches: nat -> Attempt<Page>, data: Entries, selectors: Entries): nat -> Attempt<Value>
  {
    (a: nat) =>
      match fetches(a)
      case Success(page) => Success(Dict(Extract(data, selectors, page)))
      case Failure(c) => Failure(c)
  }

  /** scrape_static: no pacing inside the loop; the first fetched page is
      extracted; after the last failed attempt the exception is re-raised;
      retry_count <= 0 returns None. */
  function ScrapeStatic(url: string, selectors: Entries, retryCount: int, fetches: nat -> Attempt<Page>): (r: Result<Value, Exception>)
  {
    var e := Retried(retryCount, None, (a: nat) => 0.0, FetchOp(fetches, [], selectors));
    match e.outcome
    case Succeeded(p, _) => Ok(p)
    case Exhausted(c, _) => Err(c)
    case NoAttempt => Ok(Null)
  }

  /** The inner fetch of scrape_async: the record starts from {'url': url};
      exhaustion returns {'url', 'error'} instead of raising. */
  function Fetch(url: string, selectors: Entries, retryCount: int, fetches: nat -> Attempt<Page>): Value
  {
    var e := Retried(retryCount, None, (a: nat) => 0.0, FetchOp(fetches, [("url", Str(url))], selectors));
    match e.outcome
    case Succeeded(p, _) => p
    case Exhausted(c, _) => Dict([("url", Str(url)), ("error", Str(c.message))])
    case NoAttempt => Null
  }

  /** scrape_static re-raises the exception of its last attempt once all
      retry_count attempts have failed; otherwise the record of the first page
      fetched holds exactly the selector keys. */
  lemma ScrapeStaticOutcome(url: string, selectors: Entries, retryCount: int, fetches: nat -> Attempt<Page>)
    requires retryCount > 0
    ensures var r := ScrapeStatic(url, selectors, retryCount, fetches);
      && (r.Err? <==> forall j :: 0 <= j < retryCount ==> fetches(j).Failure?)
      && (r.Err? ==> fetches(retryCount - 1) == Failure(r.error))
      && (r.Ok? ==> r.value.Dict? && Keys(r.value.entries) == Keys(selectors))
  {
    var op := FetchOp(fetches, [], selectors);
    var draws := (a: nat) => 0.0;
    ExhaustedIffAllFail(retryCount, None, draws, op);
    StopsAtFirstSuccess(retryCount, None, draws, op);
    AttemptsBounded(retryCount, None, draws, op);
    assert forall j :: op(j).Failure? <==> fetches(j).Failure?;
    var e := Retried(retryCount, None, draws, op);
    if e.outcome.Exhausted? {
      assert op(retryCount - 1) == Failure(e.outcome.lastCause);
    }
  }

  /** The asynchronous fetch never raises: with at least one attempt allowed,
      its record always carries 'url', and carries 'error' exactly when every
      attempt failed (unless a selector itself is named 'error'). */
  lemma FetchRecord(url: string, selectors: Entries, retryCount: int, fetches: nat -> Attempt<Page>)
    requires retryCount > 0
    requires "error" !in Keys(selectors)
    ensures var r := Fetch(url, selectors, retryCount, fetches);
      && r.Dict?
      && "url" in Keys(r.entries)
      && ("error" in Keys(r.entries) <==> forall j :: 0 <= j < retryCount ==> fetches(j).Failure?)
  {
    var op := FetchOp(fetches, [("url", Str(url))], selectors);
    var draws := (a: nat) => 0.0;
    ExhaustedIffAllFail(retryCount, None, draws, op);
    StopsAtFirstSuccess(retryCount, None, draws, op);
    AttemptsBounded(retryCount, None, draws, op);
    assert forall j :: op(j).Failure? <==> fetches(j).Failure?;
    KeysPrepend("url", Str(url), []);
    assert [("url", Str(url))] == [("url", Str(url))] + [];
    var e := Retried(retryCount, None, draws, op);
    if e.outcome.Exhausted? {
      KeysPrepend("url", Str(url), [("error", Str(e.outcome.lastCause.message))]);
      KeysPrepend("error", Str(e.outcome.lastCause.message), []);
      assert [("error", Str(e.outcome.lastCause.message))] == [("error", Str(e.outcome.lastCause.message))] + [];
    } else {
      var n := e.outcome.attempts;
      assert op(n - 1) == Success(e.outcome.payload);
      assert fetches(n - 1).Success?;
    }
  }

  /** The retry loop of scrape_static. */
  method ScrapeStaticLoop(url: string, selectors: Entries, retryCount: int, fetches: nat -> Attempt<Page>)
    returns (r: Result<Value, Exception>)
    ensures r == ScrapeStatic(url, selectors, retryCount, fetches)
  {
    var e := Execute(retryCount, None, (a: nat) => 0.0, FetchOp(fetches, [], selectors));
    match e.outcome {
      case Succeeded(p, _) => r := Ok(p);
      case Exhausted(c, _) => r := Err(c);
      case NoAttempt => r := Ok(Null);
    }
  }

  /** scrape_async with the fetches run one URL after another: one record per
      URL, in URL order; URL i meets fetches(i). */
  method ScrapeAsync(urls: seq<string>, selectors: Entries, retryCount: int, fetches: nat -> nat -> Attempt<Page>)
    returns (results: seq<Value>)
    ensures results == AsyncResults(urls, selectors, retryCount, fetches)
  {
    results := [];
    var i := 0;
    while i < |urls|
      invariant 0 <= i <= |urls|
      invariant results == AsyncResults(urls[..i], selectors, retryCount, fetches)
    {
      var e := Execute(retryCount, None, (a: nat) => 0.0, FetchOp(fetches(i), [("url", Str(urls[i]))], selectors));
      var record: Value;
      match e.outcome {
        case Succeeded(p, _) => record := p;
        case Exhausted(c, _) => record := Dict([("url", Str(urls[i])), ("error", Str(c.message))]);
        case NoAttempt => record := Null;
      }
      assert urls[..i + 1][..i] == urls[..i];
      results := results + [record];
      i := i + 1;
    }
    assert urls[..|urls|] == urls;
  }

  function AsyncResults(urls: seq<string>, selectors: Entries, retryCount: int, fetches: nat -> nat -> Attempt<Page>): (r: seq<Value>)
    ensures |r| == |urls|
    ensures forall i :: 0 <= i < |urls| ==> r[i] == Fetch(urls[i], selectors, retryCount, fetches(i))
  {
    seq(|urls|, i requires 0 <= i < |urls| => Fetch(urls[i], selectors, retryCount, fetches(i)))
  }

  // ---------------------------------------------------------------------------
  // The pauses of run and the js branch.

  /** What `time.sleep(delay)` raises for a pause drawn from delay_range: a
      negative length is a ValueError. */
  function SleepFault(delay: real): Option<Exception>
  {
    if delay < 0.0 then Some(Exception("ValueError", "sleep length must be non-negative")) else None
  }

  /** The pause after js URL i is drawn after the one before the dispatch. */
  function JsDelays(delayRange: Range, draws: nat -> real): nat -> real
  {
    (i: nat) => Uniform(delayRange, draws(i + 1))
  }

  /** One turn of the js loop: scrape_js_heavy on the URL, whose exception
      propagates, then the pause after it. */
  function JsStep(selectors: Entries, page: Result<Page, Exception>, delay: real): Result<Value, Exception>
  {
    if page.Err? then Err(page.error)
    else if SleepFault(delay).Some? then Err(SleepFault(delay).value)
    else Ok(Dict(Extract([], selectors, page.value)))
  }

  /** JS mode: one record per URL in order, URL i meeting pages(i) and
      followed by a pause of delays(i); an exception from the browser or from
      a pause ends the run. */
  function JsResults(urls: seq<string>, selectors: Entries, pages: nat -> Result<Page, Exception>, delays: nat -> real)
    : Result<seq<Value>, Exception>
  {
    if urls == [] then Ok([])
    else
      match JsResults(urls[..|urls| - 1], selectors, pages, delays)
      case Err(e) => Err(e)
      case Ok(done) =>
        match JsStep(selectors, pages(|urls| - 1), delays(|urls| - 1))
        case Err(e) => Err(e)
        case Ok(v) => Ok(done + [v])
  }

  /** The js branch succeeds exactly when every page loads and no pause is
      negative. */
  lemma {:induction false} JsResultsOkIff(urls: seq<string>, selectors: Entries, pages: nat -> Result<Page, Exception>,
                                          delays: nat -> real)
    ensures JsResults(urls, selectors, pages, delays).Ok? <==>
      forall i :: 0 <= i < |urls| ==> pages(i).Ok? && delays(i) >= 0.0
  {
    if urls != [] {
      var n := |urls| - 1;
      JsResultsOkIff(urls[..n], selectors, pages, delays);
    }
  }

  /** When it succeeds, record i holds what the selectors extract from page i. */
  lemma {:induction false} JsResultsValues(urls: seq<string>, selectors: Entries, pages: nat -> Result<Page, Exception>,
                                           delays: nat -> real)
    ensures var r := JsResults(urls, selectors, pages, delays);
      r.Ok? ==> |r.value| == |urls| && forall i :: 0 <= i < |urls| ==>
        pages(i).Ok? && r.value[i] == Dict(Extract([], selectors, pages(i).value))
  {
    if urls != [] {
      var n := |urls| - 1;
      var init := urls[..n];
      JsResultsValues(init, selectors, pages, delays);
      var done := JsResults(init, selectors, pages, delays);
      var r := JsResults(urls, selectors, pages, delays);
      if r.Ok? {
        assert done.Ok? && pages(n).Ok?;
        assert r.value == done.value + [Dict(Extract([], selectors, pages(n).value))];
        assert forall i :: 0 <= i < n ==> r.value[i] == done.value[i];
      }
    }
  }

  lemma JsResultsPerUrl(urls: seq<string>, selectors: Entries, pages: nat -> Result<Page, Exception>, delays: nat -> real)
    ensures var r := JsResults(urls, selectors, pages, delays);
      && (r.Ok? <==> forall i :: 0 <= i < |urls| ==> pages(i).Ok? && delays(i) >= 0.0)
      && (r.Ok? ==> |r.value| == |urls| && forall i :: 0 <= i < |urls| ==>
            r.value[i] == Dict(Extract([], selectors, pages(i).value)))
  {
    JsResultsOkIff(urls, selectors, pages, delays);
    JsResultsValues(urls, selectors, pages, delays);
  }

  /** How many turns of the js loop completed, the pause after them included. */
  function JsCompleted(urls: seq<string>, selectors: Entries, pages: nat -> Result<Page, Exception>, delays: nat -> real)
    : (m: nat)
    ensures m <= |urls|
    decreases |urls|
  {
    if JsResults(urls, selectors, pages, delays).Ok? then |urls|
    else JsCompleted(urls[..|urls| - 1], selectors, pages, delays)
  }

  /** The first m delays, in order. */
  function Prefix(delays: nat -> real, m: nat): (p: seq<real>)
    ensures |p| == m
  {
    seq(m, i requires 0 <= i < m => delays(i))
  }

  lemma PrefixStep(delays: nat -> real, m: nat)
    ensures Prefix(delays, m) + [delays(m)] == Prefix(delays, m + 1)
  {
    assert forall i :: 0 <= i < m + 1 ==> (Prefix(delays, m) + [delays(m)])[i] == Prefix(delays, m + 1)[i];
  }

  /** The pauses the js loop sleeps: the one after each completed turn. */
  function JsPauses(urls: seq<string>, selectors: Entries, pages: nat -> Result<Page, Exception>, delays: nat -> real)
    : seq<real>
  {
    Prefix(delays, JsCompleted(urls, selectors, pages, delays))
  }

  /** The completed turns are a prefix that succeeds; all turns complete
      exactly when the branch succeeds, and otherwise the next turn raises the
      branch's exception. */
  lemma {:induction false} JsStopsAtFirstFailure(urls: seq<string>, selectors: Entries,
                                                 pages: nat -> Result<Page, Exception>, delays: nat -> real)
    ensures var m := JsCompleted(urls, selectors, pages, delays);
      var r := JsResults(urls, selectors, pages, delays);
      && JsResults(urls[..m], selectors, pages, delays).Ok?
      && (r.Ok? <==> m == |urls|)
      && (r.Err? ==> m < |urls| && JsStep(selectors, pages(m), delays(m)) == Err(r.error))
    decreases |urls|
  {
    var r := JsResults(urls, selectors, pages, delays);
    if r.Ok? {
      assert urls[..|urls|] == urls;
    } else {
      var n := |urls| - 1;
      var init := urls[..n];
      JsStopsAtFirstFailure(init, selectors, pages, delays);
      var m := JsCompleted(init, selectors, pages, delays);
      assert JsCompleted(urls, selectors, pages, delays) == m;
      assert urls[..m] == init[..m];
      if JsResults(init, selectors, pages, delays).Ok? {
        assert m == n;
      }
    }
  }

  /** Once turn k - 1 of the js loop raises, the branch raises that exception
      after k - 1 completed turns. */
  lemma {:induction false} JsAbort(urls: seq<string>, k: nat, selectors: Entries, pages: nat -> Result<Page, Exception>,
                                   delays: nat -> real)
    requires 0 < k <= |urls|
    requires JsResults(urls[..k - 1], selectors, pages, delays).Ok?
    requires JsStep(selectors, pages(k - 1), delays(k - 1)).Err?
    ensures JsResults(urls, selectors, pages, delays) == Err(JsStep(selectors, pages(k - 1), delays(k - 1)).error)
    ensures JsCompleted(urls, selectors, pages, delays) == k - 1
    decreases |urls|
  {
    if k < |urls| {
      assert urls[..|urls| - 1][..k - 1] == urls[..k - 1];
      JsAbort(urls[..|urls| - 1], k, selectors, pages, delays);
    } else {
      assert urls[..k - 1] == urls[..|urls| - 1];
    }
  }

  /** The js branch of run: scrape_js_heavy on every URL in order, each
      followed by its pause, the pauses slept handed back in order. */
  method ScrapeJsLoop(urls: seq<string>, selectors: Entries, jsPages: nat -> Result<Page, Exception>, delays: nat -> real)
    returns (r: Result<seq<Value>, Exception>, pauses: seq<real>)
    ensures r == JsResults(urls, selectors, jsPages, delays)
    ensures pauses == JsPauses(urls, selectors, jsPages, delays)
  {
    var data: seq<Value> := [];
    pauses := [];
    var i := 0;
    while i < |urls|
      invariant 0 <= i <= |urls|
      invariant JsResults(urls[..i], selectors, jsPages, delays) == Ok(data)
      invariant pauses == Prefix(delays, i)
    {
      assert urls[..i + 1][..i] == urls[..i];
      var page := jsPages(i);
      if page.Err? {
        JsAbort(urls, i + 1, selectors, jsPages, delays);
        return Err(page.error), pauses;
      }
      data := data + [Dict(Extract([], selectors, page.value))];
      var delay := delays(i);
      if SleepFault(delay).Some? {
        JsAbort(urls, i + 1, selectors, jsPages, delays);
        return Err(SleepFault(delay).value), pauses;
      }
      PrefixStep(delays, i);
      pauses := pauses + [delay];
      i := i + 1;
    }
    assert urls[..|urls|] == urls;
    r := Ok(data);
  }

  /** run: nothing on a dry run; otherwise a pause drawn from delay_range,
      then in static mode a single URL is scraped with scrape_static and any
      other number with scrape_async; in js mode every URL is scraped in
      order, each followed by a pause; any other mode raises ValueError.
      `draws(0)` gives the first pause and `draws(i + 1)` the one after js
      URL i; `pauses` are the rate-limit pauses run takes itself. */
  method Run(dryRun: bool, mode: Value, baseUrl: string, pagination: Value, selectors: Entries, retryCount: int,
             delayRange: Range, draws: nat -> real,
             staticFetches: nat -> Attempt<Page>, asyncFetches: nat -> nat -> Attempt<Page>,
             jsPages: nat -> Result<Page, Exception>)
    returns (r: Result<seq<Value>, Exception>, pauses: seq<real>)
    ensures dryRun ==> r == Ok([]) && pauses == []
    ensures !dryRun && Uniform(delayRange, draws(0)) < 0.0 ==>
      r == Err(Exception("ValueError", "sleep length must be non-negative")) && pauses == []
    ensures !dryRun && Uniform(delayRange, draws(0)) >= 0.0 ==>
      pauses != [] && pauses[0] == Uniform(delayRange, draws(0))
    ensures !dryRun && Uniform(delayRange, draws(0)) >= 0.0 && mode != Str("static") && mode != Str("js") ==>
      r == Err(Exception("ValueError", "Unsupported mode: " + ToStr(mode))) && |pauses| == 1
    ensures !dryRun && Uniform(delayRange, draws(0)) >= 0.0 && (mode == Str("static") || mode == Str("js"))
            && PaginationUrls(baseUrl, pagination).Err? ==>
      r == Err(PaginationUrls(baseUrl, pagination).error) && |pauses| == 1
    ensures !dryRun && Uniform(delayRange, draws(0)) >= 0.0 && mode == Str("js") && PaginationUrls(baseUrl, pagination).Ok? ==>
      && r == JsResults(PaginationUrls(baseUrl, pagination).value, selectors, jsPages, JsDelays(delayRange, draws))
      && pauses[1..] == JsPauses(PaginationUrls(baseUrl, pagination).value, selectors, jsPages, JsDelays(delayRange, draws))
    ensures !dryRun && Uniform(delayRange, draws(0)) >= 0.0 && mode == Str("static") && PaginationUrls(baseUrl, pagination).Ok?
            && |PaginationUrls(baseUrl, pagination).value| == 1 ==>
      var one := ScrapeStatic(PaginationUrls(baseUrl, pagination).value[0], selectors, retryCount, staticFetches);
      r == (if one.Ok? then Ok([one.value]) else Err(one.error)) && |pauses| == 1
    ensures !dryRun && Uniform(delayRange, draws(0)) >= 0.0 && mode == Str("static") && PaginationUrls(baseUrl, pagination).Ok?
            && |PaginationUrls(baseUrl, pagination).value| != 1 ==>
      r == Ok(AsyncResults(PaginationUrls(baseUrl, pagination).value, selectors, retryCount, asyncFetches)) && |pauses| == 1
  {
    if dryRun {
      return Ok([]), [];
    }
    var first := Uniform(delayRange, draws(0));
    if SleepFault(first).Some? {
      return Err(SleepFault(first).value), [];
    }
    pauses := [first];
    if mode == Str("static") {
      var urls := HandlePagination(baseUrl, pagination);
      if urls.Err? {
        return Err(urls.error), pauses;
      }
      if |urls.value| == 1 {
        var one := ScrapeStaticLoop(urls.value[0], selectors, retryCount, staticFetches);
        if one.Err? {
          return Err(one.error), pauses;
        }
        return Ok([one.value]), pauses;
      }
      var data := ScrapeAsync(urls.value, selectors, retryCount, asyncFetches);
      return Ok(data), pauses;
    } else if mode == Str("js") {
      var urls := HandlePagination(baseUrl, pagination);
      if urls.Err? {
        return Err(urls.error), pauses;
      }
      var log: seq<real>;
      r, log := ScrapeJsLoop(urls.value, selectors, jsPages, JsDelays(delayRange, draws));
      pauses := pauses + log;
      assert pauses[1..] == log;
    } else {
      return Err(Exception("ValueError", "Unsupported mode: " + ToStr(mode))), pauses;
    }
  }
}
