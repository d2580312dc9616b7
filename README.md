# onlinejobs-scraper `/search` handler, modelled in Dafny

The repository is one Express route handler, `GET /search`, in `server.js`. It reads
`keyword`, `limit`, `deep_fetch` and `proxies`/`proxy` from the query string. It resolves
a proxy, launches a headless browser, and collects the job cards of the onlinejobs.ph
search page. It keeps the first `limit` cards and either returns their summaries or
visits each card's link in turn to add the detail page's description and label/value
rows. This project models the handler's own logic: everything between the query
parameters and the JSON response. The browser, the random source, `new URL` and
`encodeURIComponent` are inputs.

Modules, leaves first:

- `Wrappers` (`wrappers.dfy`): `Option` and `Result`.
- `JsText` (`jstext.dfy`): the JavaScript string and array primitives the handler
  uses: `trim` with ECMAScript's whitespace set, `includes`, `startsWith`, `split` on
  one character, `substring(0, n)` and `slice(0, end)` with negative `end`.
- `JsNumber` (`jsnumber.dfy`): `parseInt` with no radix: leading whitespace, one
  sign, a `0x` prefix, the longest digit run, and NaN as `None`.
- `Records` (`records.dfy`): objects as maps from property names to string or
  `undefined`, and object spread.
- `Query` (`query.dfy`): query parameters (missing, a string, or an array), the
  `limit` default, the `deep_fetch` flag and the search URL.
- `Proxy` (`proxy.dfy`): proxy resolution. It covers an array pick, a comma pool,
  trimming, the `http://` prefix and parsing. It also derives the launch arguments and
  the proxy credentials.
- `Listing` (`listing.dfy`): the card mapper and `postedBy`.
- `Details` (`details.dfy`): the detail-page extractor. It builds the label map as a
  loop over rows and falls back to the body text for the description.
- `DeepFetch` (`deepfetch.dfy`): the sequential deep-fetch loop and the merged
  records.
- `SearchHandler` (`handler.dfy`): the handler end to end, as a function `Search` and
  as a method `HandleSearch` that follows the source's steps.

Where the source reassigns variables step by step, it is modelled by a method: `ResolveProxy`
and `HandleSearch`. Where it fills a collection in a loop, the method has that loop:
`CollectLabels` (the `forEach` over rows) and `CollectFullJobs` (the deep-fetch `for` loop).
Each method is proved equal to a specification function, and the properties are proved
about that function.

### Behaviour of the handler worth noting


- No bounded-concurrency scheduler exists. The detail pages are visited one after
  another in a `for` loop (lines 96-134).
- No retry or backoff exists. A failed visit adds the job with
  `error: 'Failed to load details'` at once (line 132). No `errorMessage` is kept.
- A job without a truthy `link` is skipped, not passed through (line 97). The
  deep-fetch output can therefore be shorter than the jobs to scrape.
- Only NaN and 0 default to 5 (line 14). A negative `limit` is kept, and
  `slice(0, limit)` then drops that many jobs from the end (line 85).
- Detail properties override the summary properties of the same name, including
  `link`, `title`, `jobType` and `postedBy` (line 128, `{...job, ...details}`).
- The wait of 2000-4000 ms is taken only after a successful visit (line 129). It is
  a delay and is not modelled.
- The search page is loaded with `networkidle2` and a 60-second timeout (line 64).
  Browser options like this belong to the browser input, which is not modelled.
- No resource interception is installed.
- `info[label] = value` (line 116) on the plain object `info` stores nothing for the label
  `__proto__`: that name is the inherited accessor of `Object.prototype`, and its setter ignores
  a string. A row labelled `__proto__` therefore adds no property to the details.
- An empty proxy array makes `undefined.includes(',')` throw. The handler then answers
  with a failure response (lines 23-26, 137-139).

## Model

The helper definitions `Proxy.Chosen` (lines 23-25), `Proxy.FromPool` (lines 26-29),
`Proxy.WithScheme` (line 30), `Details.DetailsRecord` (lines 120-125),
`SearchHandler.JobsToScrape` (line 85) and `SearchHandler.PlanFor` (lines 46-61) have no row
of their own. The rows of `ChosenIsElement`, `FromPoolPicksTrimmedPiece`,
`WithSchemeStartsWithHttp`, `DetailsRecordShape`, `JobsToScrapeCount` with `SearchSucceeds`,
and `PlanUsesProxyIffHost` state what each of them does.

| member | source | states |
|---|---|---|
| JsText.TrimStartShape | server.js:14 | `trimStart()` (the first step of `parseInt`) keeps a suffix, drops only whitespace, and leaves no leading whitespace |
| JsText.TrimEndShape | server.js:73 | `trimEnd()` keeps a prefix, drops only whitespace, and leaves no trailing whitespace |
| JsText.TrimIsInfix | server.js:72-74 | `trim()` keeps an infix of the text, cutting only whitespace from each end, and the result neither starts nor ends with whitespace |
| JsText.TrimIdempotent | server.js:73-74 | trimming an already trimmed string changes nothing |
| JsText.TrimAddsNothing | server.js:28 | trimming introduces no character the text did not contain |
| JsText.SplitFirst | server.js:73 | `split(sep)[0]` is the text before the first separator, or the whole text when there is none |
| JsText.SplitPiecesLackSeparator | server.js:27 | no piece of `split(',')` contains a comma |
| JsText.JoinSplit | server.js:27 | joining the pieces of `split(sep)` with `sep` gives back the string |
| JsText.SplitJoin | server.js:27 | splitting a join of separator-free pieces gives back the pieces, so `split` and `join` are inverse |
| JsText.Substring | server.js:123 | `substring(0, n)` is the prefix of exactly min(n, length) characters: the whole text when it is shorter, otherwise its first `n` characters |
| JsText.SliceTo | server.js:85 | `slice(0, end)` is a prefix of length min(M, end) for end >= 0 and max(M + end, 0) for end < 0 |
| JsNumber.ParseInt | server.js:14 | `parseInt` yields a number only when text remains after the leading whitespace; a negative number only after a leading `-`; and, without a sign, only when that text starts with a digit |
| JsNumber.ParseIntDecimal | server.js:14 | `parseInt` reads back the canonical numeral `String(n)` of every n >= 0 (no sign, no leading zeros, no leading whitespace) when the text after it does not start with a digit, `x` or `X` |
| JsNumber.ParseIntNegative | server.js:14 | `parseInt` reads back a minus sign followed by a decimal numeral as the negative number |
| JsNumber.ParseIntNaN | server.js:14 | text with no digit after the optional whitespace and sign parses to NaN |
| Query.LimitOf | server.js:14 | the limit is never 0: NaN and 0 give 5, and any other parsed integer is kept |
| Query.JobsToScrapeCount | server.js:85 | for `limit=n` with n >= 1, `jobsToScrape` is the first min(M, n) jobs; n = 0 gives min(M, 5); `limit=-n` drops the last n jobs |
| Query.LimitDefaults | server.js:14 | a missing limit, an empty one or one not starting with whitespace, a digit or a sign gives 5 |
| Query.DeepFetchRequested | server.js:15 | deep fetch is on only for the string `true` (strict equality): a missing parameter or an array, even `['true']`, leaves it off |
| Query.SearchUrl | server.js:59-61 | the URL is the bare search page exactly when the keyword is falsy; otherwise it continues with `?jobkeyword=` and the encoded keyword |
| Proxy.CustomProxy | server.js:16 | the proxy parameter is truthy exactly when `proxies` or `proxy` is; a truthy `proxies` wins, otherwise `proxy` is taken |
| Proxy.PickIndex | server.js:24 | `Math.floor(Math.random() * n)` is a valid index into n elements |
| Proxy.ResolveProxy | server.js:21-44 | the step-by-step reassignment of `proxyUrl` and `proxyConfig` yields the resolution described by `Resolution` |
| Proxy.Resolution | server.js:21-44 | the only error that escapes is `undefined.includes` on an empty array; a proxy configuration exists only for a truthy parameter, and then its fields are those `new URL` gives for the URL built from the chosen string |
| Proxy.ResolutionSuccess | server.js:23-39 | when `new URL` accepts the URL built from the chosen string, which starts with `http`, the configuration copies its hostname, port, username and password |
| Proxy.ResolutionOutcomes | server.js:21-26 | a falsy proxy parameter gives no proxy, and the resolution throws exactly for an empty array |
| Proxy.ChosenIsElement | server.js:23-25 | with an array the chosen string is one of its elements; with a string it is the string |
| Proxy.FromPoolPicksTrimmedPiece | server.js:26-29 | from a comma pool the proxy is a trimmed piece of `split(',')` and holds no comma, so a second pick changes nothing; without a comma the string is kept |
| Proxy.WithSchemeStartsWithHttp | server.js:30 | after prefixing, the URL starts with `http`; a URL already starting with `http` is kept; prefixing twice equals prefixing once |
| Proxy.ParseFailureLeavesNoProxy | server.js:32-47 | when `new URL` throws, the configuration stays empty and the browser gets only the three base arguments, with no `--proxy-server` |
| Proxy.LaunchArgs | server.js:46-47 | the three base arguments come first, and `--proxy-server=host:port` is a fourth exactly when the host is non-empty |
| Proxy.ProxyArgumentIffHost | server.js:47 | some launch argument carries `--proxy-server=` exactly when the configuration has a host |
| Proxy.Credentials | server.js:52-53 | the browser authenticates exactly when the proxy URL named a user, and uses that user and password |
| Listing.PostedBy | server.js:71-74 | `postedBy` never contains a bullet, and is `''` when the element is missing |
| Listing.PostedByMeaning | server.js:71-74 | `postedBy` is the trimmed text before the first bullet, or the trimmed whole text, or `''` without the element; it holds no bullet and is already trimmed |
| Listing.Summarize | server.js:67-82 | title and job type are the trimmed `h4` and `.badge` texts, and `undefined` exactly when their element is missing; the link is the anchor's `href`, `undefined` exactly when there is no anchor, and truthy exactly when the `href` is non-empty; `postedBy` is computed from the name line |
| Listing.Summaries | server.js:66-83 | one summary per card, in page order |
| Listing.SummaryRecord | server.js:76-81 | a summary has exactly the properties `title`, `jobType`, `link` and `postedBy` |
| Details.LabelMap | server.js:108-118 | `info` never holds `__proto__` and has at most one property per row |
| Details.LabelMapKeys | server.js:110-118 | a label is in `info` exactly when some row with both an `h3` and a `p` carries it and it is not `__proto__`; incomplete rows contribute nothing |
| Details.LabelMapLastWins | server.js:116 | a label's value is that of the last complete row carrying it, so a repeated label keeps the last value |
| Details.CollectLabels | server.js:108-118 | the `forEach` loop over rows builds exactly the label map |
| Details.Description | server.js:121-123 | the description is the trimmed description element's text, or else a prefix of the body text of length min(1000, length) |
| Details.InfoRecord | server.js:124 | the spread `info` has one string property per label, with that label's value |
| Details.DetailsRecordShape | server.js:120-125 | the extracted object has `description` plus one property per stored label and never `__proto__`, and a label named `description` overrides the description |
| Details.ExtractDetails | server.js:103-126 | the page-side extraction yields exactly the details record |
| Records.Spread | server.js:128 | `{...a, ...b}` has the properties of both objects, with `b`'s value wherever both have the property |
| DeepFetch.Enrich | server.js:128-132 | the visited job's record keeps every summary property name; after a failed visit it has `error: 'Failed to load details'` and the job's own link |
| DeepFetch.EnrichMerges | server.js:128-132 | a loaded page yields `{...job, ...details}` with detail keys winning; a failed visit yields the job plus `error: 'Failed to load details'` and no other property |
| DeepFetch.Enriched | server.js:94-134 | `fullJobs` never has more records than there are jobs to scrape |
| DeepFetch.LinkedPositions | server.js:97 | the positions of jobs with a truthy link, strictly increasing, and every such position is included |
| DeepFetch.LinkedPositionsBound | server.js:96-97 | there are never more linked positions than jobs |
| DeepFetch.EnrichedFollowsLinks | server.js:94-134 | the output has one record per job with a truthy link, in input order, and the k-th record enriches the k-th linked job |
| DeepFetch.EnrichedExtremes | server.js:96-97 | with no links the output is empty; with links everywhere it has one record per job |
| DeepFetch.CollectFullJobs | server.js:94-134 | the loop with `continue` and `push` builds exactly the deep-fetch output |
| SearchHandler.SummaryRecords | server.js:87-90 | without deep fetch the data are the summaries of the jobs to scrape, one per job in order |
| SearchHandler.Search | server.js:12-143 | a success reports `count` equal to the number of records; a failure not caused by an empty proxy array carries the message the browser stage threw |
| SearchHandler.HandleSearch | server.js:12-143 | the handler's steps in order give the response described by `Search` |
| SearchHandler.SearchSucceeds | server.js:85-136 | `count` always equals the number of records; with limit L >= 1 there are min(M, L) jobs to scrape; deep fetch returns the output of the deep-fetch loop over the jobs to scrape, hence (by `EnrichedFollowsLinks`) one record per linked job in order, never more than the jobs to scrape |
| SearchHandler.SearchFailures | server.js:137-139 | the request fails only for an empty proxy array or when the browser stage throws, with that error's message; once the cards are in, the response is a success |
| SearchHandler.PlanUsesProxyIffHost | server.js:46-57 | the launch plan carries the proxy argument exactly when the configuration has a host, and carries credentials exactly when it names a user |

## Left out

- The Express app, the route wiring, `res.json`, `res.status(500)` and `app.listen` are HTTP input and output. The model returns the response as a value.
- The browser is an input (`Environment.loadListing` and `Environment.loadDetail`). This covers Puppeteer, the stealth plugin, launch, `newPage`, `authenticate`, `setUserAgent`, `goto`, `evaluate`, the DOM queries and `browser.close` in `finally`.
- The model hands the launch plan to `loadListing`. Whether the browser honours the plan is not modelled.
- `Math.random()` is passed in as draws in [0, 1).
- The detail pages' wait (line 129) is left out. It only delays.
- `new URL` and `encodeURIComponent` are function parameters.
- Console logging is left out.
- JSON serialisation is left out. Properties whose value is `undefined` stay in the modelled records, but `res.json` would omit them. Property enumeration order is not modelled either.
- Strings are sequences of Unicode scalar values. JavaScript counts UTF-16 code units, so `substring(0, 1000)` on text outside the Basic Multilingual Plane may cut at a different place.
- JsNumber.ParseInt: numbers are unbounded integers. JavaScript rounds past 2^53 and overflows to Infinity. Neither changes what `slice(0, limit)` keeps.
- Query.QueryValue: a query parameter parsed into a nested object (`proxy[a]=b`) is not modelled. Only missing, string and array values are.
- An error thrown by `browser.close()` in the `finally` block is not modelled.
