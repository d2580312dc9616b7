/**
 * The request's query parameters and the three values the handler derives
 * from them directly: the result limit (server.js line 14), the deep-fetch
 * flag (line 15) and the search URL (lines 59-61).
 */
module Query {
  import opened Wrappers
  import opened JsText
  import opened JsNumber

  /** A query parameter as the request parser delivers it: missing, one string, or the strings of a repeated parameter. */
  datatype QueryValue = Absent | Text(s: string) | List(items: seq<string>)

  /** JavaScript truthiness: `undefined` and `''` are falsy, every array (even an empty one) is truthy. */
  predicate ParamTruthy(v: QueryValue) {
    match v
    case Absent => false
    case Text(s) => s != ""
    case List(_) => true
  }

  /** `a || b`. */
  function Or(a: QueryValue, b: QueryValue): (r: QueryValue)
    ensures ParamTruthy(r) <==> ParamTruthy(a) || ParamTruthy(b)
    ensures ParamTruthy(a) ==> r == a
    ensures !ParamTruthy(a) ==> r == b
  {
    if ParamTruthy(a) then a else b
  }

  /** `String(v)`: `"undefined"` for a missing parameter, the comma-joined strings for an array. */
  function ToJsString(v: QueryValue): string {
    match v
    case Absent => "undefined"
    case Text(s) => s
    case List(items) => Join(items, ',')
  }

  /** The default result limit. */
  const DefaultLimit := 5

  /** `parseInt(req.query.limit) || 5`: NaN and zero (both falsy) become 5, any other parsed integer is kept. */
  function LimitOf(v: QueryValue): (limit: int)
    ensures limit != 0
    ensures ParseInt(ToJsString(v)) == None ==> limit == DefaultLimit
    ensures forall n :: ParseInt(ToJsString(v)) == Some(n) ==> limit == if n == 0 then DefaultLimit else n
  {
    match ParseInt(ToJsString(v))
    case None => DefaultLimit
    case Some(n) => if n == 0 then DefaultLimit else n
  }

  /**
   * With `limit=<n>` followed by any non-digit text, `jobsToScrape = initialJobs.slice(0, limit)`
   * keeps the first min(M, n) of M jobs for n >= 1, the first min(M, 5) for n = 0, and drops
   * the last n jobs for `limit=-<n>`.
   */
  lemma {:induction false} JobsToScrapeCount<T>(jobs: seq<T>, n: nat, rest: string)
    requires rest == [] || (DigitValue(rest[0]) >= 10 && rest[0] != 'x' && rest[0] != 'X')
    ensures var kept := SliceTo(jobs, LimitOf(Text(Decimal(n) + rest)));
            kept == jobs[..|kept|] &&
            |kept| == if n == 0 then (if |jobs| < DefaultLimit then |jobs| else DefaultLimit)
                      else if |jobs| < n then |jobs| else n
    ensures var dropped := SliceTo(jobs, LimitOf(Text("-" + (Decimal(n) + rest))));
            n > 0 ==> |dropped| == if |jobs| > n then |jobs| - n else 0
  {
    ParseIntDecimal(n, rest);
    ParseIntNegative(n, rest);
  }

  /** A missing `limit`, or one that does not start with a digit, gives the default 5. */
  lemma LimitDefaults(v: QueryValue)
    requires v == Absent || v == Text("") || (v.Text? && v.s != [] && !('0' <= v.s[0] <= '9') && !IsJsSpace(v.s[0]) && v.s[0] != '-' && v.s[0] != '+')
    ensures LimitOf(v) == DefaultLimit
  {
    var s := ToJsString(v);
    TrimStartKeeps(s);
    ParseIntNaN(s);
  }

  /** `req.query.deep_fetch === 'true'`: only the single string `true` enables deep fetching. */
  function DeepFetchRequested(v: QueryValue): (b: bool)
    ensures b ==> ParamTruthy(v) && ToJsString(v) == "true"
    ensures v.List? || v.Absent? ==> !b
    ensures v.Text? ==> (b <==> v.s == "true")
  {
    v == Text("true")
  }

  /** The search page without a keyword. */
  const SearchBase := "https://www.onlinejobs.ph/jobseekers/jobsearch"

  /** What is put between the search page and the encoded keyword. */
  const KeywordQuery := "?jobkeyword="

  /**
   * The search URL for `req.query.keyword || ''`: the bare search page when the keyword is
   * falsy, otherwise the page with `?jobkeyword=` and `encodeURIComponent(keyword)`.
   */
  function SearchUrl(keyword: QueryValue, encode: string -> string): (url: string)
    ensures StartsWith(url, SearchBase)
    ensures url == SearchBase <==> !ParamTruthy(keyword)
    ensures ParamTruthy(keyword) ==>
              url[|SearchBase|..] == KeywordQuery + encode(ToJsString(keyword))
  {
    var k := Or(keyword, Text(""));
    if ParamTruthy(k) then SearchBase + KeywordQuery + encode(ToJsString(k)) else SearchBase
  }
}
