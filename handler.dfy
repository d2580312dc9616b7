/**
 * The `/search` route handler (server.js lines 12-143) with the browser,
 * the random source, the URL parser and the URL encoder as inputs. It
 * resolves the proxy, prepares the browser launch, takes the cards of the
 * search page, keeps the first `limit` of them, and either returns the
 * summaries or runs the deep-fetch loop over them. Anything thrown before
 * the loop becomes a failure response carrying the error's message.
 */
module SearchHandler {
  import opened Wrappers
  import opened JsText
  import opened Records
  import opened Query
  import opened Proxy
  import opened Listing
  import opened DeepFetch

  /** The query parameters the handler reads. */
  datatype Request = Request(keyword: QueryValue, limit: QueryValue, deepFetch: QueryValue, proxies: QueryValue, proxy: QueryValue)

  /** The desktop browser identity set on the page (lines 55-57). */
  const UserAgent := "Mozilla/5.0 (Windows NT 10.0; Win64; x64) AppleWebKit/537.36 (KHTML, like Gecko) Chrome/114.0.0.0 Safari/537.36"

  /** What the handler hands the browser: launch arguments, proxy credentials, identity and the search URL. */
  datatype LaunchPlan = LaunchPlan(args: seq<string>, credentials: Option<(string, string)>, userAgent: string, searchUrl: string)

  /**
   * Everything outside the handler's own logic: the two `Math.random()` draws of lines 24 and 28,
   * `new URL` (`None` where it throws), `encodeURIComponent`, the cards the search page yields
   * for a launch plan (`Err(message)` when launching, opening the page, authenticating, setting
   * the identity, navigating or evaluating throws), and what visiting the i-th job to scrape yields.
   */
  datatype Environment = Environment(
    arrayDraw: real,
    poolDraw: real,
    parseUrl: string -> Option<Url>,
    encodeComponent: string -> string,
    loadListing: LaunchPlan -> Result<seq<Card>, string>,
    loadDetail: nat -> FetchOutcome)

  /** `res.json(...)`: `{success: true, count, data}` or, from the catch block, `{success: false, error}`. */
  datatype Response = Success(count: nat, data: seq<Record>) | Failure(error: string)

  /** The draws are values of `Math.random()`. */
  predicate ValidDraws(env: Environment) {
    0.0 <= env.arrayDraw < 1.0 && 0.0 <= env.poolDraw < 1.0
  }

  /** Lines 46-61: the launch plan for a resolved proxy configuration. */
  function PlanFor(req: Request, config: ProxyConfig, env: Environment): LaunchPlan {
    LaunchPlan(LaunchArgs(config), Credentials(config), UserAgent, SearchUrl(req.keyword, env.encodeComponent))
  }

  /** Line 85: `initialJobs.slice(0, limit)`. */
  function JobsToScrape(req: Request, cards: seq<Card>): seq<Job> {
    SliceTo(Summaries(cards), LimitOf(req.limit))
  }

  /** The detail outcome of each job to scrape, by position. */
  function Outcomes(jobs: seq<Job>, env: Environment): (outs: seq<FetchOutcome>)
    ensures |outs| == |jobs|
  {
    seq(|jobs|, i requires 0 <= i < |jobs| => env.loadDetail(i))
  }

  /** The summaries as response objects. */
  function SummaryRecords(jobs: seq<Job>): (rs: seq<Record>)
    ensures |rs| == |jobs|
    ensures forall i :: 0 <= i < |jobs| ==> rs[i] == SummaryRecord(jobs[i])
  {
    seq(|jobs|, i requires 0 <= i < |jobs| => SummaryRecord(jobs[i]))
  }

  /** The response of the handler for a request. */
  function Search(req: Request, env: Environment): (resp: Response)
    requires ValidDraws(env)
    ensures resp.Success? ==> resp.count == |resp.data|
    ensures resp.Failure? && CustomProxy(req.proxies, req.proxy) != List([]) ==>
              exists plan :: env.loadListing(plan) == Err(resp.error)
  {
    match Resolution(CustomProxy(req.proxies, req.proxy), env.arrayDraw, env.poolDraw, env.parseUrl)
    case Err(e) => Failure(e)
    case Ok(config) =>
      match env.loadListing(PlanFor(req, config, env))
      case Err(e) => Failure(e)
      case Ok(cards) =>
        var jobs := JobsToScrape(req, cards);
        if !DeepFetchRequested(req.deepFetch) then Success(|jobs|, SummaryRecords(jobs))
        else
          var full := Enriched(jobs, Outcomes(jobs, env));
          Success(|full|, full)
  }

  /** Lines 12-143 as written: the steps in order, ending in one response. */
  method HandleSearch(req: Request, env: Environment) returns (resp: Response)
    requires ValidDraws(env)
    ensures resp == Search(req, env)
  {
    var limit := LimitOf(req.limit);
    var deepFetch := DeepFetchRequested(req.deepFetch);
    var customProxy := CustomProxy(req.proxies, req.proxy);
    var resolved := ResolveProxy(customProxy, env.arrayDraw, env.poolDraw, env.parseUrl);
    if resolved.Err? {
      return Failure(resolved.error);
    }
    var proxyConfig := resolved.value;
    var launchArgs := LaunchArgs(proxyConfig);
    var searchUrl := SearchUrl(req.keyword, env.encodeComponent);
    var listing := env.loadListing(LaunchPlan(launchArgs, Credentials(proxyConfig), UserAgent, searchUrl));
    if listing.Err? {
      return Failure(listing.error);
    }
    var initialJobs := Summaries(listing.value);
    var jobsToScrape := SliceTo(initialJobs, limit);
    if !deepFetch {
      return Success(|jobsToScrape|, SummaryRecords(jobsToScrape));
    }
    var fullJobs := CollectFullJobs(jobsToScrape, Outcomes(jobsToScrape, env));
    resp := Success(|fullJobs|, fullJobs);
  }

  /**
   * Every success reports `count` equal to the number of records. Without deep fetch the
   * records are the first min(M, L) summaries for a limit L >= 1 of M cards; with deep fetch
   * there is one record per linked job to scrape, so never more than the jobs to scrape.
   */
  lemma {:induction false} SearchSucceeds(req: Request, env: Environment)
    requires ValidDraws(env)
    requires Search(req, env).Success?
    ensures Search(req, env).count == |Search(req, env).data|
    ensures forall config, cards ::
              (Resolution(CustomProxy(req.proxies, req.proxy), env.arrayDraw, env.poolDraw, env.parseUrl) == Ok(config) &&
               env.loadListing(PlanFor(req, config, env)) == Ok(cards)) ==>
                var jobs := JobsToScrape(req, cards);
                var L := LimitOf(req.limit);
                && (L >= 1 ==> |jobs| == if |cards| < L then |cards| else L)
                && (!DeepFetchRequested(req.deepFetch) ==> Search(req, env).data == SummaryRecords(jobs))
                && (DeepFetchRequested(req.deepFetch) ==>
                      && Search(req, env).data == Enriched(jobs, Outcomes(jobs, env))
                      && |Search(req, env).data| == |LinkedPositions(jobs)| <= |jobs|)
  {
    forall config, cards |
      Resolution(CustomProxy(req.proxies, req.proxy), env.arrayDraw, env.poolDraw, env.parseUrl) == Ok(config) &&
      env.loadListing(PlanFor(req, config, env)) == Ok(cards)
      ensures var jobs := JobsToScrape(req, cards);
              DeepFetchRequested(req.deepFetch) ==> |Search(req, env).data| == |LinkedPositions(jobs)| <= |jobs|
    {
      var jobs := JobsToScrape(req, cards);
      EnrichedFollowsLinks(jobs, Outcomes(jobs, env));
      LinkedPositionsBound(jobs);
    }
  }

  /**
   * The handler fails only before the loop: with an empty proxy array, or when the browser stage
   * throws, and then with that error's message. Failed detail visits never fail the request.
   */
  lemma SearchFailures(req: Request, env: Environment)
    requires ValidDraws(env)
    ensures CustomProxy(req.proxies, req.proxy) == List([]) ==> Search(req, env) == Failure(UndefinedIncludes)
    ensures forall config, message ::
              (Resolution(CustomProxy(req.proxies, req.proxy), env.arrayDraw, env.poolDraw, env.parseUrl) == Ok(config) &&
               env.loadListing(PlanFor(req, config, env)) == Err(message)) ==> Search(req, env) == Failure(message)
    ensures forall config, cards ::
              (Resolution(CustomProxy(req.proxies, req.proxy), env.arrayDraw, env.poolDraw, env.parseUrl) == Ok(config) &&
               env.loadListing(PlanFor(req, config, env)) == Ok(cards)) ==> Search(req, env).Success?
  {
  }

  /** The launch plan routes through the proxy exactly when the resolved configuration has a host. */
  lemma PlanUsesProxyIffHost(req: Request, config: ProxyConfig, env: Environment)
    ensures |PlanFor(req, config, env).args| == 4 <==> HasHost(config)
    ensures PlanFor(req, config, env).args[..3] == BaseArgs
    ensures PlanFor(req, config, env).credentials.Some? <==> config.ProxyConfig? && config.username != ""
  {
  }
}
