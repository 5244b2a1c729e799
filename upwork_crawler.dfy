/**
 * The authenticated-search crawler of upwork_sniper/upwork_crawler.py.
 * Each HTTP request is answered by an oracle indexed by the number of
 * requests made so far; sleeps are recorded as a list of delays, and the
 * output file as the list of records appended to it.
 */
module UpworkSniper {
  import opened Wrappers
  import opened Strings
  import opened PyValues
  import opened UrlEncode
  import opened JobCards

  // ---------------------------------------------------------------- configuration

  /** The config entries the crawler reads; None where the key is absent. */
  datatype Settings = Settings(
    intervalSeconds: Option<int>, retryAttempts: Option<int>, backoffSeconds: Option<int>,
    perPage: Option<int>, sort: Option<string>, apiUrl: Option<string>, maxPages: Option<int>,
    keywords: seq<string>, outputPath: Option<string>)

  /** The settings with their defaults filled in. */
  datatype Config = Config(
    intervalSeconds: int, retryAttempts: int, backoffSeconds: int,
    perPage: int, sort: string, apiUrl: string, maxPages: int,
    keywords: seq<string>, outputPath: string)

  const DefaultApiUrl: string := "https://www.upwork.com/ab/jobs/search/api"
  const DefaultOutputPath: string := "data/upwork_jobs.jsonl"

  /** The defaults of `UpworkCrawler.__init__`, `_build_query_url`, `_fetch_keyword` and `persist`. */
  function Resolve(s: Settings): (c: Config)
    ensures s.intervalSeconds.None? ==> c.intervalSeconds == 45
    ensures s.retryAttempts.None? ==> c.retryAttempts == 3
    ensures s.backoffSeconds.None? ==> c.backoffSeconds == 20
    ensures s.perPage.None? ==> c.perPage == 50
    ensures s.sort.None? ==> c.sort == "recency"
    ensures s.apiUrl.None? ==> c.apiUrl == DefaultApiUrl
    ensures s.maxPages.None? ==> c.maxPages == 1
    ensures s.outputPath.None? ==> c.outputPath == DefaultOutputPath
    ensures c.keywords == s.keywords
  {
    Config(
      s.intervalSeconds.GetOr(45), s.retryAttempts.GetOr(3), s.backoffSeconds.GetOr(20),
      s.perPage.GetOr(50), s.sort.GetOr("recency"), s.apiUrl.GetOr(DefaultApiUrl), s.maxPages.GetOr(1),
      s.keywords, s.outputPath.GetOr(DefaultOutputPath))
  }

  // ---------------------------------------------------------------- _build_query_url

  /** The `paging` value as written: the offset, the characters `%3B`, the page size. */
  function PagingAsWritten(page: int, perPage: int): string {
    IntToDecimal(page * perPage) + "%3B" + IntToDecimal(perPage)
  }

  /** The `paging` value the endpoint reads: the offset, a `;`, the page size. */
  function Paging(page: int, perPage: int): string {
    IntToDecimal(page * perPage) + ";" + IntToDecimal(perPage)
  }

  /** The query parameters, in the order of the `params` dictionary literal. */
  function QueryParams(config: Config, keyword: string, paging: string): seq<(string, string)> {
    [("sort", config.sort), ("paging", paging), ("per_page", IntToDecimal(config.perPage)), ("q", keyword)]
  }

  /** `_build_query_url` as written: the `%3B` in `paging` is escaped again by `urlencode`. */
  function BuildQueryUrlAsWritten(config: Config, keyword: string, page: int): (url: string)
    ensures StartsWith(url, config.apiUrl + "?")
  {
    var url := config.apiUrl + "?" + UrlEncodePairs(QueryParams(config, keyword, PagingAsWritten(page, config.perPage)));
    assert url[..|config.apiUrl + "?"|] == config.apiUrl + "?";
    url
  }

  /** `_build_query_url` with the separator the endpoint expects, which `urlencode` escapes once. */
  function BuildQueryUrl(config: Config, keyword: string, page: int): (url: string)
    ensures StartsWith(url, config.apiUrl + "?")
  {
    var url := config.apiUrl + "?" + UrlEncodePairs(QueryParams(config, keyword, Paging(page, config.perPage)));
    assert url[..|config.apiUrl + "?"|] == config.apiUrl + "?";
    url
  }

  lemma DecimalIsAscii(i: int)
    ensures AllAscii(IntToDecimal(i))
  {
    var d := if i < 0 then NatToDecimal(-i) else NatToDecimal(i);
    assert forall k :: 0 <= k < |d| ==> IsDigit(d[k]);
  }

  /**
   * The query of a built URL reads back, in order, as the sort order, the
   * paging value `offset;per_page` with offset `page * per_page`, the page
   * size and the keyword (for an ASCII keyword and sort order).
   */
  lemma BuildQueryUrlReadsBack(config: Config, keyword: string, page: int)
    requires AllAscii(keyword) && AllAscii(config.sort)
    ensures var url := BuildQueryUrl(config, keyword, page);
            ParseQuery(url[|config.apiUrl| + 1..]) ==
              [("sort", config.sort),
               ("paging", IntToDecimal(page * config.perPage) + ";" + IntToDecimal(config.perPage)),
               ("per_page", IntToDecimal(config.perPage)),
               ("q", keyword)]
  {
    var paging := Paging(page, config.perPage);
    var params := QueryParams(config, keyword, paging);
    DecimalIsAscii(page * config.perPage);
    DecimalIsAscii(config.perPage);
    assert AllAscii(paging);
    ParseUrlEncode(params);
    var url := BuildQueryUrl(config, keyword, page);
    assert url[|config.apiUrl| + 1..] == UrlEncodePairs(params);
  }

  /**
   * The URL as written hands the endpoint the literal characters `%3B`
   * where the page separator belongs: the paging value it reads back is not
   * `offset;per_page`.
   */
  lemma PagingDoubleEncoded(config: Config, keyword: string, page: int)
    requires AllAscii(keyword) && AllAscii(config.sort)
    ensures var url := BuildQueryUrlAsWritten(config, keyword, page);
            var read := ParseQuery(url[|config.apiUrl| + 1..]);
            && |read| == 4
            && read[1] == ("paging", IntToDecimal(page * config.perPage) + "%3B" + IntToDecimal(config.perPage))
            && read[1].1 != Paging(page, config.perPage)
  {
    var paging := PagingAsWritten(page, config.perPage);
    var params := QueryParams(config, keyword, paging);
    DecimalIsAscii(page * config.perPage);
    DecimalIsAscii(config.perPage);
    assert AllAscii(paging);
    ParseUrlEncode(params);
    var url := BuildQueryUrlAsWritten(config, keyword, page);
    assert url[|config.apiUrl| + 1..] == UrlEncodePairs(params);
    var offset := IntToDecimal(page * config.perPage);
    assert paging[|offset|] == '%';
    assert Paging(page, config.perPage)[|offset|] == ';';
  }

  /** The escaping itself: `quote_plus("0%3B50")` is `0%253B50`, */
  lemma PagingEscapedTwice()
    ensures QuotePlus("0%3B50") == "0%253B50"
  {
    assert Utf8('%') == [37];
    assert PercentBytes([37]) == "%25";
    assert QuoteChar('%') == "%25";
    assert QuotePlus("3B50") == "3B50";
    assert "%3B50"[1..] == "3B50";
    assert QuotePlus("%3B50") == "%253B50";
    assert "0%3B50"[1..] == "%3B50";
  }

  /** while `quote_plus("0;50")` is `0%3B50`. */
  lemma PagingEscapedOnce()
    ensures QuotePlus("0;50") == "0%3B50"
  {
    assert QuoteChar(';') == "%3B";
    assert QuotePlus("50") == "50";
    assert "0;50"[1..] == ";50" && ";50"[1..] == "50";
  }

  // ---------------------------------------------------------------- _fetch_keyword

  /** An answer of the search endpoint: a status and a body that may not parse as JSON, or a browser timeout. */
  datatype Reply = Reply(status: int, body: Option<Value>) | TimedOut

  /**
   * A request as the endpoint saw it: its keyword and its page. The URL the
   * program sends for it is `BuildQueryUrlAsWritten(config, keyword, page)`,
   * whose paging the endpoint reads as "0%3B50" (`PagingDoubleEncoded`);
   * the replies are an oracle, so the trace stands for either URL.
   */
  datatype Request = Request(keyword: string, page: int)

  /** What the crawler has observably done: the delays passed to `asyncio.sleep` and the requests sent, in order. */
  datatype Trace = Trace(sleeps: seq<int>, requests: seq<Request>)

  /** The parser applied to a decoded body and its keyword: `extract_jobs_from_payload`. */
  type Extractor = (Value, string) -> Result<seq<JobCard>, PyError>

  /** How the attempts at one page ended. */
  datatype PageResult = Got(jobs: seq<JobCard>) | Exhausted | PageTimedOut | PageRaised(error: PyError)

  /** How the attempts at one page ended, and the trace afterwards. */
  datatype Paged = Paged(result: PageResult, trace: Trace)

  /** A status the attempt loop retries: 429 with a growing delay, any other status from 400 with a fixed one. */
  predicate Retried(reply: Reply) {
    reply.Reply? && reply.status >= 400
  }

  /** The delay slept after a retried reply on attempt `attempt`. */
  function Backoff(config: Config, status: int, attempt: int): int {
    if status == 429 then config.backoffSeconds * attempt else config.backoffSeconds
  }

  /** A reply that ends the attempts at a page: its body parsed as JSON and its jobs extracted. */
  function Settle(reply: Reply, keyword: string, extract: Extractor): (r: PageResult)
    requires reply.Reply?
    ensures reply.body.None? ==> r == PageRaised(ValueError)
    ensures r.Got? <==> reply.body.Some? && extract(reply.body.value, keyword).Ok?
    ensures r.Got? ==> extract(reply.body.value, keyword) == Ok(r.jobs)
    ensures !r.Got? ==> r.PageRaised?
  {
    if reply.body.None? then PageRaised(ValueError)
    else
      match extract(reply.body.value, keyword)
      case Err(e) => PageRaised(e)
      case Ok(jobs) => Got(jobs)
  }

  /**
   * The attempt loop of one page from attempt `attempt` on: each attempt
   * sends a request, answered by the oracle for the number of requests sent
   * before it; a retried status sleeps and tries again; a success parses the
   * body and extracts its jobs, and stops; a timeout or an exception ends the
   * page; running out of attempts gives nothing.
   */
  function PageAttempts(keyword: string, page: int, attempt: int, config: Config, server: nat -> Reply,
                        extract: Extractor, t: Trace): Paged
    decreases if attempt <= config.retryAttempts then config.retryAttempts - attempt + 1 else 0
  {
    if attempt > config.retryAttempts then Paged(Exhausted, t)
    else
      var reply := server(|t.requests|);
      var sent := t.requests + [Request(keyword, page)];
      if reply.TimedOut? then Paged(PageTimedOut, Trace(t.sleeps, sent))
      else if Retried(reply) then
        PageAttempts(keyword, page, attempt + 1, config, server, extract,
                     Trace(t.sleeps + [Backoff(config, reply.status, attempt)], sent))
      else Paged(Settle(reply, keyword, extract), Trace(t.sleeps, sent))
  }

  /** max(n, 0) */
  function Cap(n: int): nat {
    if n < 0 then 0 else n
  }

  lemma PrefixTrans<T>(a: seq<T>, b: seq<T>, c: seq<T>)
    requires a <= b && b <= c
    ensures a <= c
  {
    assert c[..|a|] == c[..|b|][..|a|];
  }

  /**
   * The counting rules of one page: the trace only grows; every new
   * request is for this page; there are at most `retry_attempts` of them,
   * and at least one while attempts remain; one delay follows each but the
   * last (each, when the attempts ran out); and running out of attempts
   * means every attempt was used.
   */
  lemma {:induction false} PageAttemptsCount(keyword: string, page: int, attempt: int, config: Config,
                                             server: nat -> Reply, extract: Extractor, t: Trace)
    ensures var p := PageAttempts(keyword, page, attempt, config, server, extract, t);
            var n := |p.trace.requests| - |t.requests|;
            && t.requests <= p.trace.requests && t.sleeps <= p.trace.sleeps
            && (forall k :: |t.requests| <= k < |p.trace.requests| ==> p.trace.requests[k] == Request(keyword, page))
            && 0 <= n <= Cap(config.retryAttempts - attempt + 1)
            && |p.trace.sleeps| - |t.sleeps| == (if p.result.Exhausted? then n else n - 1)
            && (p.result.Exhausted? ==> n == Cap(config.retryAttempts - attempt + 1))
            && (attempt <= config.retryAttempts ==> n >= 1)
    decreases if attempt <= config.retryAttempts then config.retryAttempts - attempt + 1 else 0
  {
    if attempt <= config.retryAttempts {
      var reply := server(|t.requests|);
      var sent := t.requests + [Request(keyword, page)];
      if Retried(reply) {
        var next := Trace(t.sleeps + [Backoff(config, reply.status, attempt)], sent);
        PageAttemptsCount(keyword, page, attempt + 1, config, server, extract, next);
        var p := PageAttempts(keyword, page, attempt + 1, config, server, extract, next);
        PrefixTrans(t.requests, sent, p.trace.requests);
        PrefixTrans(t.sleeps, next.sleeps, p.trace.sleeps);
        assert p.trace.requests[|t.requests|] == sent[|t.requests|];
      }
    }
  }

  /** Delay `delay` was slept after `reply`, on attempt `attempt`: the reply was retried and the delay is its backoff. */
  predicate SleptAfter(config: Config, reply: Reply, delay: int, attempt: int) {
    Retried(reply) && delay == Backoff(config, reply.status, attempt)
  }

  /**
   * Every delay follows a reply with a retried status: the `j`-th new delay
   * follows the `j`-th new request, and is `backoff * attempt` after a 429
   * and `backoff` otherwise.
   */
  lemma {:induction false} PageAttemptsSleeps(keyword: string, page: int, attempt: int, config: Config,
                                              server: nat -> Reply, extract: Extractor, t: Trace)
    ensures var p := PageAttempts(keyword, page, attempt, config, server, extract, t);
            forall k :: |t.sleeps| <= k < |p.trace.sleeps| ==>
              SleptAfter(config, server(|t.requests| + k - |t.sleeps|), p.trace.sleeps[k], attempt + k - |t.sleeps|)
    decreases if attempt <= config.retryAttempts then config.retryAttempts - attempt + 1 else 0
  {
    if attempt <= config.retryAttempts {
      var reply := server(|t.requests|);
      var sent := t.requests + [Request(keyword, page)];
      if Retried(reply) {
        var next := Trace(t.sleeps + [Backoff(config, reply.status, attempt)], sent);
        PageAttemptsSleeps(keyword, page, attempt + 1, config, server, extract, next);
        PageAttemptsCount(keyword, page, attempt + 1, config, server, extract, next);
        var p := PageAttempts(keyword, page, attempt + 1, config, server, extract, next);
        forall k | |t.sleeps| <= k < |p.trace.sleeps|
          ensures SleptAfter(config, server(|t.requests| + k - |t.sleeps|), p.trace.sleeps[k], attempt + k - |t.sleeps|)
        {
          if k == |t.sleeps| {
            assert p.trace.sleeps[k] == next.sleeps[k];
          } else {
            assert SleptAfter(config, server(|next.requests| + k - |next.sleeps|), p.trace.sleeps[k],
                              attempt + 1 + k - |next.sleeps|);
          }
        }
      }
    }
  }

  /**
   * A success carries exactly the jobs extracted from the body of the last
   * reply, which had a status below 400.
   */
  lemma {:induction false} PageAttemptsGot(keyword: string, page: int, attempt: int, config: Config,
                                           server: nat -> Reply, extract: Extractor, t: Trace)
    ensures var p := PageAttempts(keyword, page, attempt, config, server, extract, t);
            p.result.Got? ==>
              && |p.trace.requests| > |t.requests|
              && var last := server(|p.trace.requests| - 1);
              && last.Reply? && last.status < 400 && last.body.Some?
              && extract(last.body.value, keyword) == Ok(p.result.jobs)
    decreases if attempt <= config.retryAttempts then config.retryAttempts - attempt + 1 else 0
  {
    if attempt <= config.retryAttempts {
      var reply := server(|t.requests|);
      var sent := t.requests + [Request(keyword, page)];
      if Retried(reply) {
        PageAttemptsGot(keyword, page, attempt + 1, config, server, extract,
                        Trace(t.sleeps + [Backoff(config, reply.status, attempt)], sent));
      }
    }
  }

  // ---------------------------------------------------------------- the page loop

  /** Why the pages of one keyword stopped early: a browser timeout, or an exception that escapes. */
  datatype Stop = Timeout | Raise(error: PyError)

  /** How the page loop of one keyword ended: the jobs it collected or why it stopped, and the trace afterwards. */
  datatype Crawl = Crawl(result: Result<seq<JobCard>, Stop>, trace: Trace)

  /** The jobs a page contributes: its jobs on a success, none when its attempts ran out. */
  function Found(r: PageResult): (jobs: seq<JobCard>)
    ensures r.Got? ==> jobs == r.jobs
    ensures !r.Got? ==> jobs == []
  {
    if r.Got? then r.jobs else []
  }

  /**
   * The page loop of `_fetch_keyword` from page `page` on, with `jobs`
   * collected so far: pages in order, each with its own attempt loop; an
   * exhausted page contributes nothing; a timeout or an exception ends the
   * keyword.
   */
  function KeywordPages(keyword: string, page: nat, config: Config, server: nat -> Reply, extract: Extractor,
                        jobs: seq<JobCard>, t: Trace): Crawl
    decreases if page < config.maxPages then config.maxPages - page else 0
  {
    if page >= config.maxPages then Crawl(Ok(jobs), t)
    else
      var p := PageAttempts(keyword, page, 1, config, server, extract, t);
      if p.result.PageTimedOut? then Crawl(Err(Timeout), p.trace)
      else if p.result.PageRaised? then Crawl(Err(Raise(p.result.error)), p.trace)
      else KeywordPages(keyword, page + 1, config, server, extract, jobs + Found(p.result), p.trace)
  }

  /**
   * The requests from index `from` on are for `keyword`, at pages in
   * `lo .. hi - 1`, in page order, with no page asked for more than `cap`
   * times.
   */
  ghost predicate PageOrder(reqs: seq<Request>, from: nat, keyword: string, lo: int, hi: int, cap: nat) {
    && (forall i :: from <= i < |reqs| ==> reqs[i].keyword == keyword && lo <= reqs[i].page < hi)
    && (forall i, j :: from <= i < j < |reqs| ==> reqs[i].page <= reqs[j].page)
    && (forall i :: from <= i && i + cap < |reqs| ==> reqs[i].page < reqs[i + cap].page)
  }

  /** A block of at most `cap` requests of one page, ahead of requests of later pages, keeps the order. */
  lemma PageOrderCons(reqs: seq<Request>, from: nat, mid: nat, keyword: string, page: int, hi: int, cap: nat)
    requires from <= mid <= |reqs| && mid - from <= cap && page < hi
    requires forall k :: from <= k < mid ==> reqs[k] == Request(keyword, page)
    requires PageOrder(reqs, mid, keyword, page + 1, hi, cap)
    ensures PageOrder(reqs, from, keyword, page, hi, cap)
  {
    forall i | from <= i && i + cap < |reqs| ensures reqs[i].page < reqs[i + cap].page {
      assert i + cap >= mid;
    }
  }

  /** The trace of a keyword only grows. */
  lemma {:induction false} KeywordPagesGrows(keyword: string, page: nat, config: Config, server: nat -> Reply,
                                             extract: Extractor, jobs: seq<JobCard>, t: Trace)
    ensures var c := KeywordPages(keyword, page, config, server, extract, jobs, t);
            t.requests <= c.trace.requests && t.sleeps <= c.trace.sleeps
    decreases if page < config.maxPages then config.maxPages - page else 0
  {
    if page < config.maxPages {
      var p := PageAttempts(keyword, page, 1, config, server, extract, t);
      PageAttemptsCount(keyword, page, 1, config, server, extract, t);
      if !p.result.PageTimedOut? && !p.result.PageRaised? {
        KeywordPagesGrows(keyword, page + 1, config, server, extract, jobs + Found(p.result), p.trace);
        var c := KeywordPages(keyword, page + 1, config, server, extract, jobs + Found(p.result), p.trace);
        PrefixTrans(t.requests, p.trace.requests, c.trace.requests);
        PrefixTrans(t.sleeps, p.trace.sleeps, c.trace.sleeps);
      }
    }
  }

  /**
   * The requests of one keyword: each one names that keyword and a page in
   * `page .. max_pages - 1`; pages never go back; and no page is requested
   * more than `retry_attempts` times.
   */
  lemma {:induction false} KeywordPagesOrder(keyword: string, page: nat, config: Config, server: nat -> Reply,
                                             extract: Extractor, jobs: seq<JobCard>, t: Trace)
    ensures var c := KeywordPages(keyword, page, config, server, extract, jobs, t);
            PageOrder(c.trace.requests, |t.requests|, keyword, page, config.maxPages, Cap(config.retryAttempts))
    decreases if page < config.maxPages then config.maxPages - page else 0
  {
    if page < config.maxPages {
      var p := PageAttempts(keyword, page, 1, config, server, extract, t);
      PageAttemptsCount(keyword, page, 1, config, server, extract, t);
      var cap := Cap(config.retryAttempts);
      var reqs := KeywordPages(keyword, page, config, server, extract, jobs, t).trace.requests;
      if p.result.PageTimedOut? || p.result.PageRaised? {
        PageOrderCons(reqs, |t.requests|, |reqs|, keyword, page, config.maxPages, cap);
      } else {
        KeywordPagesOrder(keyword, page + 1, config, server, extract, jobs + Found(p.result), p.trace);
        KeywordPagesGrows(keyword, page + 1, config, server, extract, jobs + Found(p.result), p.trace);
        assert forall k :: |t.requests| <= k < |p.trace.requests| ==> reqs[k] == p.trace.requests[k];
        PageOrderCons(reqs, |t.requests|, |p.trace.requests|, keyword, page, config.maxPages, cap);
      }
    }
  }

  /** Some request from index `from` on asks for page `q`. */
  ghost predicate Asked(reqs: seq<Request>, from: nat, q: int) {
    exists k :: from <= k < |reqs| && reqs[k].page == q
  }

  /**
   * No page is skipped: a keyword whose page loop ran to the end, with at
   * least one attempt allowed per page, asked for every page in
   * `page .. max_pages - 1`.
   */
  lemma {:induction false} KeywordPagesCover(keyword: string, page: nat, config: Config, server: nat -> Reply,
                                             extract: Extractor, jobs: seq<JobCard>, t: Trace)
    ensures var c := KeywordPages(keyword, page, config, server, extract, jobs, t);
            c.result.Ok? && config.retryAttempts >= 1 ==>
              forall q :: page <= q < config.maxPages ==> Asked(c.trace.requests, |t.requests|, q)
    decreases if page < config.maxPages then config.maxPages - page else 0
  {
    var c := KeywordPages(keyword, page, config, server, extract, jobs, t);
    if page < config.maxPages && c.result.Ok? && config.retryAttempts >= 1 {
      var p := PageAttempts(keyword, page, 1, config, server, extract, t);
      PageAttemptsCount(keyword, page, 1, config, server, extract, t);
      var rest := jobs + Found(p.result);
      assert c == KeywordPages(keyword, page + 1, config, server, extract, rest, p.trace);
      KeywordPagesCover(keyword, page + 1, config, server, extract, rest, p.trace);
      KeywordPagesGrows(keyword, page + 1, config, server, extract, rest, p.trace);
      assert c.trace.requests[|t.requests|] == p.trace.requests[|t.requests|];
      forall q | page <= q < config.maxPages ensures Asked(c.trace.requests, |t.requests|, q) {
        if q == page {
          assert c.trace.requests[|t.requests|].page == q;
        } else {
          assert Asked(c.trace.requests, |p.trace.requests|, q);
          var k :| |p.trace.requests| <= k < |c.trace.requests| && c.trace.requests[k].page == q;
          assert |t.requests| <= k;
        }
      }
    }
  }

  /** A keyword sends at most `max_pages * retry_attempts` requests. */
  lemma {:induction false} KeywordPagesBound(keyword: string, page: nat, config: Config, server: nat -> Reply,
                                             extract: Extractor, jobs: seq<JobCard>, t: Trace)
    ensures var c := KeywordPages(keyword, page, config, server, extract, jobs, t);
            |c.trace.requests| - |t.requests| <= Cap(config.maxPages - page) * Cap(config.retryAttempts)
    decreases if page < config.maxPages then config.maxPages - page else 0
  {
    if page < config.maxPages {
      var p := PageAttempts(keyword, page, 1, config, server, extract, t);
      PageAttemptsCount(keyword, page, 1, config, server, extract, t);
      var cap := Cap(config.retryAttempts);
      var left := config.maxPages - page;
      assert Cap(left) == left && Cap(left - 1) == left - 1;
      MulSucc(left, cap);
      if !p.result.PageTimedOut? && !p.result.PageRaised? {
        KeywordPagesBound(keyword, page + 1, config, server, extract, jobs + Found(p.result), p.trace);
        assert config.maxPages - (page + 1) == left - 1;
      }
    }
  }

  /** The jobs of a keyword are those collected before it, followed by its pages' jobs in page order. */
  lemma {:induction false} KeywordPagesKeeps(keyword: string, page: nat, config: Config, server: nat -> Reply,
                                             extract: Extractor, jobs: seq<JobCard>, t: Trace)
    ensures var c := KeywordPages(keyword, page, config, server, extract, jobs, t);
            c.result.Ok? ==> jobs <= c.result.value
    decreases if page < config.maxPages then config.maxPages - page else 0
  {
    if page < config.maxPages {
      var p := PageAttempts(keyword, page, 1, config, server, extract, t);
      if !p.result.PageTimedOut? && !p.result.PageRaised? {
        KeywordPagesKeeps(keyword, page + 1, config, server, extract, jobs + Found(p.result), p.trace);
        var c := KeywordPages(keyword, page + 1, config, server, extract, jobs + Found(p.result), p.trace);
        if c.result.Ok? {
          PrefixTrans(jobs, jobs + Found(p.result), c.result.value);
        }
      }
    }
  }

  // ---------------------------------------------------------------- run_once

  /** How a run ended: the cookies file is missing, or an exception escaped the keyword loop. */
  datatype RunError = CookiesMissing | Raised(error: PyError)

  /** How the keyword loop of `run_once` ended, before de-duplication, and the trace afterwards. */
  datatype Run = Run(result: Result<seq<JobCard>, PyError>, trace: Trace)

  /** The jobs of a keyword that may have timed out: none when it did. */
  function Collected(r: Result<seq<JobCard>, Stop>): (jobs: seq<JobCard>)
    ensures r.Ok? ==> jobs == r.value
    ensures r.Err? ==> jobs == []
  {
    if r.Ok? then r.value else []
  }

  /**
   * The keyword loop from keyword `i` on, with `all` collected so far: each
   * keyword's jobs are appended in order; a timeout loses that keyword's
   * jobs only; any other exception ends the run.
   */
  function KeywordsRun(keywords: seq<string>, i: nat, config: Config, server: nat -> Reply, extract: Extractor,
                       all: seq<JobCard>, t: Trace): Run
    decreases if i < |keywords| then |keywords| - i else 0
  {
    if i >= |keywords| then Run(Ok(all), t)
    else
      var c := KeywordPages(keywords[i], 0, config, server, extract, [], t);
      if c.result.Err? && c.result.error.Raise? then Run(Err(c.result.error.error), c.trace)
      else KeywordsRun(keywords, i + 1, config, server, extract, all + Collected(c.result), c.trace)
  }

  /** A keyword that times out contributes nothing, and the keywords after it still run. */
  lemma TimeoutIsolation(keywords: seq<string>, i: nat, config: Config, server: nat -> Reply, extract: Extractor,
                         all: seq<JobCard>, t: Trace)
    requires i < |keywords|
    requires KeywordPages(keywords[i], 0, config, server, extract, [], t).result == Err(Timeout)
    ensures var c := KeywordPages(keywords[i], 0, config, server, extract, [], t);
            KeywordsRun(keywords, i, config, server, extract, all, t)
            == KeywordsRun(keywords, i + 1, config, server, extract, all, c.trace)
  {
    assert all + [] == all;
  }

  lemma MulSucc(n: int, b: int)
    requires n >= 1 && b >= 0
    ensures n * b == b + (n - 1) * b && n * b >= b
  {
  }

  /** The trace of a run only grows, and jobs already collected stay at the front. */
  lemma {:induction false} KeywordsRunGrows(keywords: seq<string>, i: nat, config: Config, server: nat -> Reply,
                                            extract: Extractor, all: seq<JobCard>, t: Trace)
    ensures var r := KeywordsRun(keywords, i, config, server, extract, all, t);
            && t.requests <= r.trace.requests && t.sleeps <= r.trace.sleeps
            && (r.result.Ok? ==> all <= r.result.value)
    decreases if i < |keywords| then |keywords| - i else 0
  {
    if i < |keywords| {
      var c := KeywordPages(keywords[i], 0, config, server, extract, [], t);
      KeywordPagesGrows(keywords[i], 0, config, server, extract, [], t);
      if !(c.result.Err? && c.result.error.Raise?) {
        var grown := all + Collected(c.result);
        KeywordsRunGrows(keywords, i + 1, config, server, extract, grown, c.trace);
        var r := KeywordsRun(keywords, i + 1, config, server, extract, grown, c.trace);
        PrefixTrans(t.requests, c.trace.requests, r.trace.requests);
        PrefixTrans(t.sleeps, c.trace.sleeps, r.trace.sleeps);
        if r.result.Ok? {
          PrefixTrans(all, grown, r.result.value);
        }
      }
    }
  }

  /** Every request of a run names one of the keywords still to run. */
  lemma {:induction false} KeywordsRunKeywords(keywords: seq<string>, i: nat, config: Config, server: nat -> Reply,
                                               extract: Extractor, all: seq<JobCard>, t: Trace)
    requires i <= |keywords|
    ensures var r := KeywordsRun(keywords, i, config, server, extract, all, t);
            forall k :: |t.requests| <= k < |r.trace.requests| ==> r.trace.requests[k].keyword in keywords[i..]
    decreases |keywords| - i
  {
    if i < |keywords| {
      var c := KeywordPages(keywords[i], 0, config, server, extract, [], t);
      KeywordPagesOrder(keywords[i], 0, config, server, extract, [], t);
      assert keywords[i..][0] == keywords[i];
      if !(c.result.Err? && c.result.error.Raise?) {
        var grown := all + Collected(c.result);
        KeywordsRunKeywords(keywords, i + 1, config, server, extract, grown, c.trace);
        KeywordsRunGrows(keywords, i + 1, config, server, extract, grown, c.trace);
        var r := KeywordsRun(keywords, i + 1, config, server, extract, grown, c.trace);
        assert keywords[i + 1..] == keywords[i..][1..];
        forall k | |t.requests| <= k < |r.trace.requests| ensures r.trace.requests[k].keyword in keywords[i..] {
          if k < |c.trace.requests| {
            assert r.trace.requests[k] == c.trace.requests[k];
          }
        }
      }
    }
  }

  /** A run sends at most `max_pages * retry_attempts` requests per keyword. */
  lemma {:induction false} KeywordsRunBound(keywords: seq<string>, i: nat, config: Config, server: nat -> Reply,
                                            extract: Extractor, all: seq<JobCard>, t: Trace)
    requires i <= |keywords|
    ensures var r := KeywordsRun(keywords, i, config, server, extract, all, t);
            |r.trace.requests| - |t.requests| <= (|keywords| - i) * (Cap(config.maxPages) * Cap(config.retryAttempts))
    decreases |keywords| - i
  {
    if i < |keywords| {
      var c := KeywordPages(keywords[i], 0, config, server, extract, [], t);
      KeywordPagesBound(keywords[i], 0, config, server, extract, [], t);
      var bound := Cap(config.maxPages) * Cap(config.retryAttempts);
      MulSucc(|keywords| - i, bound);
      if !(c.result.Err? && c.result.error.Raise?) {
        KeywordsRunBound(keywords, i + 1, config, server, extract, all + Collected(c.result), c.trace);
      }
    }
  }

  // ---------------------------------------------------------------- _dedupe_jobs

  /** The outcome of `_dedupe_jobs`: the jobs kept and the seen set afterwards. */
  datatype Deduped = Deduped(kept: seq<JobCard>, seen: set<string>)

  /** Drops jobs whose id is empty or already seen, recording each kept id at once. */
  function Dedupe(jobs: seq<JobCard>, seen: set<string>): Deduped
    decreases |jobs|
  {
    if jobs == [] then Deduped([], seen)
    else if jobs[0].jobId == "" || jobs[0].jobId in seen then Dedupe(jobs[1..], seen)
    else
      var rest := Dedupe(jobs[1..], seen + {jobs[0].jobId});
      Deduped([jobs[0]] + rest.kept, rest.seen)
  }

  function CardIds(jobs: seq<JobCard>): set<string> {
    set j | j in jobs :: j.jobId
  }

  predicate DistinctCardIds(jobs: seq<JobCard>) {
    forall i, j :: 0 <= i < j < |jobs| ==> jobs[i].jobId != jobs[j].jobId
  }

  lemma DistinctCons(job: JobCard, rest: seq<JobCard>)
    requires DistinctCardIds(rest)
    requires forall j :: j in rest ==> j.jobId != job.jobId
    ensures DistinctCardIds([job] + rest)
  {
    var kept := [job] + rest;
    forall i, k | 0 <= i < k < |kept| ensures kept[i].jobId != kept[k].jobId {
      if i == 0 {
        assert kept[k] in rest;
      } else {
        assert kept[i] == rest[i - 1] && kept[k] == rest[k - 1];
      }
    }
  }

  /**
   * The de-duplication invariant: the kept jobs come from the input, have
   * non-empty ids that were not seen before and are distinct, and the seen
   * set grows by exactly their ids.
   */
  lemma {:induction false} DedupeLedger(jobs: seq<JobCard>, seen: set<string>)
    ensures var d := Dedupe(jobs, seen);
            && d.seen == seen + CardIds(d.kept)
            && (forall j :: j in d.kept ==> j in jobs && j.jobId != "" && j.jobId !in seen)
            && DistinctCardIds(d.kept)
    decreases |jobs|
  {
    if jobs != [] {
      var job := jobs[0];
      if job.jobId == "" || job.jobId in seen {
        DedupeLedger(jobs[1..], seen);
      } else {
        var grown := seen + {job.jobId};
        DedupeLedger(jobs[1..], grown);
        var rest := Dedupe(jobs[1..], grown).kept;
        assert CardIds([job] + rest) == {job.jobId} + CardIds(rest);
        DistinctCons(job, rest);
      }
    }
  }

  /** Against a seen set that holds every id the first pass ended with, a second pass keeps nothing. */
  lemma {:induction false} DedupeKnown(jobs: seq<JobCard>, seen: set<string>, known: set<string>)
    requires Dedupe(jobs, seen).seen <= known
    requires seen <= known
    ensures Dedupe(jobs, known).kept == []
    decreases |jobs|
  {
    if jobs != [] {
      var job := jobs[0];
      if job.jobId == "" || job.jobId in seen {
        DedupeKnown(jobs[1..], seen, known);
      } else {
        var grown := seen + {job.jobId};
        DedupeLedger(jobs[1..], grown);
        DedupeKnown(jobs[1..], grown, known);
      }
    }
  }

  /** Because the seen set is kept on the crawler, de-duplicating the same jobs again keeps nothing. */
  lemma DedupeAgain(jobs: seq<JobCard>, seen: set<string>)
    ensures Dedupe(jobs, Dedupe(jobs, seen).seen).kept == []
  {
    DedupeLedger(jobs, seen);
    DedupeKnown(jobs, seen, Dedupe(jobs, seen).seen);
  }

  /** De-duplication keeps input order: over a concatenation it is the first part's, then the rest's. */
  lemma {:induction false} DedupeAppend(a: seq<JobCard>, b: seq<JobCard>, seen: set<string>)
    ensures var da := Dedupe(a, seen);
            var db := Dedupe(b, da.seen);
            Dedupe(a + b, seen) == Deduped(da.kept + db.kept, db.seen)
    decreases |a|
  {
    if a == [] {
      assert a + b == b;
    } else {
      assert (a + b)[0] == a[0] && (a + b)[1..] == a[1..] + b;
      if a[0].jobId == "" || a[0].jobId in seen {
        DedupeAppend(a[1..], b, seen);
      } else {
        DedupeAppend(a[1..], b, seen + {a[0].jobId});
        var da := Dedupe(a[1..], seen + {a[0].jobId});
        var db := Dedupe(b, da.seen);
        assert [a[0]] + (da.kept + db.kept) == ([a[0]] + da.kept) + db.kept;
      }
    }
  }

  // ---------------------------------------------------------------- the crawler

  /** A crawler: its settings, the endpoint and clock it talks to, and the state it keeps. */
  class UpworkCrawler {
    const config: Config
    const server: nat -> Reply
    /** The conversion `datetime.fromtimestamp(...).isoformat()`, None where it raises. */
    const fromTimestamp: real -> Option<string>
    /** `extract_jobs_from_payload`, with that conversion. */
    const extract: Extractor
    /** `self.seen_ids` */
    var seenIds: set<string>
    /** The delays passed to `asyncio.sleep`, in order. */
    var sleeps: seq<int>
    /** The requests sent; the oracle answers request number `|requested|`. */
    var requested: seq<Request>
    /** The records appended to the output file, one line each. */
    var store: seq<JobCard>

    /** The crawler parses every body with `extract_jobs_from_payload`. */
    ghost predicate Wired() {
      forall payload, keyword :: extract(payload, keyword) == ExtractJobs(payload, keyword, fromTimestamp)
    }

    constructor (settings: Settings, server: nat -> Reply, fromTimestamp: real -> Option<string>)
      ensures config == Resolve(settings) && this.server == server && this.fromTimestamp == fromTimestamp
      ensures Wired()
      ensures seenIds == {} && sleeps == [] && requested == [] && store == []
    {
      config := Resolve(settings);
      this.server := server;
      this.fromTimestamp := fromTimestamp;
      extract := (payload: Value, keyword: string) => ExtractJobs(payload, keyword, fromTimestamp);
      seenIds := {};
      sleeps := [];
      requested := [];
      store := [];
    }

    /** The attempt loop of `_fetch_keyword` for one page. */
    method FetchPage(keyword: string, page: nat) returns (result: PageResult)
      modifies this`sleeps, this`requested
      ensures Paged(result, Trace(sleeps, requested))
              == PageAttempts(keyword, page, 1, config, server, extract, Trace(old(sleeps), old(requested)))
    {
      ghost var whole := PageAttempts(keyword, page, 1, config, server, extract, Trace(sleeps, requested));
      var attempt := 1;
      while attempt <= config.retryAttempts
        invariant attempt >= 1
        invariant PageAttempts(keyword, page, attempt, config, server, extract, Trace(sleeps, requested)) == whole
        decreases config.retryAttempts - attempt + 1
      {
        var reply := server(|requested|);
        requested := requested + [Request(keyword, page)];
        if reply.TimedOut? {
          return PageTimedOut;
        }
        if !Retried(reply) {
          result := SettlePage(reply, keyword);
          return;
        }
        sleeps := sleeps + [Backoff(config, reply.status, attempt)];
        attempt := attempt + 1;
      }
      result := Exhausted;
    }

    /** A reply that ends the attempts at a page: a body that is not JSON raises, otherwise its jobs are extracted. */
    method SettlePage(reply: Reply, keyword: string) returns (r: PageResult)
      requires reply.Reply?
      ensures r == Settle(reply, keyword, extract)
    {
      if reply.body.None? {
        return PageRaised(ValueError);
      }
      var extracted := extract(reply.body.value, keyword);
      if extracted.Err? {
        return PageRaised(extracted.error);
      }
      r := Got(extracted.value);
    }

    /** `_fetch_keyword`: the page loop, each page with its attempt loop. */
    method FetchKeyword(keyword: string) returns (r: Result<seq<JobCard>, Stop>)
      modifies this`sleeps, this`requested
      ensures Crawl(r, Trace(sleeps, requested))
              == KeywordPages(keyword, 0, config, server, extract, [], Trace(old(sleeps), old(requested)))
    {
      ghost var whole := KeywordPages(keyword, 0, config, server, extract, [], Trace(sleeps, requested));
      var jobs: seq<JobCard> := [];
      var page: nat := 0;
      while page < config.maxPages
        invariant KeywordPages(keyword, page, config, server, extract, jobs, Trace(sleeps, requested)) == whole
        decreases config.maxPages - page
      {
        var outcome := FetchPage(keyword, page);
        if outcome.PageTimedOut? {
          return Err(Timeout);
        }
        if outcome.PageRaised? {
          return Err(Raise(outcome.error));
        }
        if outcome.Got? {
          jobs := jobs + outcome.jobs;
        } else {
          assert jobs + Found(outcome) == jobs;
        }
        page := page + 1;
      }
      r := Ok(jobs);
    }

    /** `_dedupe_jobs`: keeps the jobs with a new, non-empty id and records each id in `seenIds`. */
    method DedupeJobs(jobs: seq<JobCard>) returns (deduped: seq<JobCard>)
      modifies this`seenIds
      ensures var d := Dedupe(jobs, old(seenIds));
              deduped == d.kept && seenIds == d.seen
    {
      deduped := [];
      var i := 0;
      while i < |jobs|
        invariant 0 <= i <= |jobs|
        invariant var rest := Dedupe(jobs[i..], seenIds);
                  Dedupe(jobs, old(seenIds)) == Deduped(deduped + rest.kept, rest.seen)
      {
        assert jobs[i..][1..] == jobs[i + 1..];
        var jobId := jobs[i].jobId;
        if jobId != "" && jobId !in seenIds {
          var rest := Dedupe(jobs[i + 1..], seenIds + {jobId});
          assert deduped + ([jobs[i]] + rest.kept) == (deduped + [jobs[i]]) + rest.kept;
          seenIds := seenIds + {jobId};
          deduped := deduped + [jobs[i]];
        }
        i := i + 1;
      }
      assert jobs[i..] == [];
      assert deduped + [] == deduped;
    }

    /**
     * `run_once`: a missing cookies file raises before anything happens; an
     * empty keyword list gives no jobs and leaves the seen set alone;
     * otherwise every keyword is fetched in turn and the collected jobs are
     * de-duplicated against the seen set. An exception other than a
     * timeout escapes before de-duplication.
     */
    method RunOnce(cookiesExist: bool) returns (r: Result<seq<JobCard>, RunError>)
      modifies this`sleeps, this`requested, this`seenIds
      ensures !cookiesExist ==> r == Err(CookiesMissing)
      ensures !cookiesExist || config.keywords == [] ==>
              sleeps == old(sleeps) && requested == old(requested) && seenIds == old(seenIds)
      ensures cookiesExist && config.keywords == [] ==> r == Ok([])
      ensures cookiesExist && config.keywords != [] ==>
              var run := KeywordsRun(config.keywords, 0, config, server, extract, [], Trace(old(sleeps), old(requested)));
              && Trace(sleeps, requested) == run.trace
              && (run.result.Err? ==> r == Err(Raised(run.result.error)) && seenIds == old(seenIds))
              && (run.result.Ok? ==>
                    var d := Dedupe(run.result.value, old(seenIds));
                    r == Ok(d.kept) && seenIds == d.seen)
    {
      if !cookiesExist {
        return Err(CookiesMissing);
      }
      var keywords := config.keywords;
      if keywords == [] {
        return Ok([]);
      }
      ghost var whole := KeywordsRun(keywords, 0, config, server, extract, [], Trace(sleeps, requested));
      var all: seq<JobCard> := [];
      var i := 0;
      while i < |keywords|
        invariant 0 <= i <= |keywords|
        invariant seenIds == old(seenIds)
        invariant KeywordsRun(keywords, i, config, server, extract, all, Trace(sleeps, requested)) == whole
      {
        var outcome := FetchKeyword(keywords[i]);
        if outcome.Err? && outcome.error.Raise? {
          return Err(Raised(outcome.error.error));
        }
        if outcome.Ok? {
          all := all + outcome.value;
        } else {
          assert all + Collected(outcome) == all;
        }
        i := i + 1;
      }
      var deduped := DedupeJobs(all);
      r := Ok(deduped);
    }

    /** `persist`: no jobs writes nothing and gives no path; otherwise one line per job, in order. */
    method Persist(jobs: seq<JobCard>) returns (path: Option<string>)
      modifies this`store
      ensures jobs == [] ==> path == None && store == old(store)
      ensures jobs != [] ==> path == Some(config.outputPath) && store == old(store) + jobs
    {
      if jobs == [] {
        return None;
      }
      var i := 0;
      while i < |jobs|
        invariant 0 <= i <= |jobs|
        invariant store == old(store) + jobs[..i]
      {
        assert jobs[..i + 1] == jobs[..i] + [jobs[i]];
        store := store + [jobs[i]];
        i := i + 1;
      }
      assert jobs[..i] == jobs;
      path := Some(config.outputPath);
    }
  }
}
