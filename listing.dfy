/**
 * The card mapper run inside the search page (server.js lines 66-83): each
 * `.jobpost-cat-box` card becomes a listing summary. What the page exposes of
 * a card is given as input; the mapping itself is modelled.
 */
module Listing {
  import opened Wrappers
  import opened JsText
  import opened Records

  /**
   * One card as the page shows it: the `innerText` of its `h4`, `.badge` and `p.fs-13`
   * elements and the `href` of its first `a`; `None` where the element is absent.
   */
  datatype Card = Card(heading: Option<string>, badge: Option<string>, anchorHref: Option<string>, nameLine: Option<string>)

  /** A listing summary: `{title, jobType, link, postedBy}`. */
  datatype Job = Job(title: JsValue, jobType: JsValue, link: JsValue, postedBy: string)

  /** The bullet that separates the poster's name from the rest of the `p.fs-13` line. */
  const Bullet: char := '\U{2022}'

  /** `el?.innerText.trim()`: `undefined` when the element is absent. */
  function TrimmedText(text: Option<string>): JsValue {
    match text
    case Some(t) => Str(Trim(t))
    case None => Undefined
  }

  /** `el?.href`: `undefined` when the element is absent, the address otherwise. */
  function Href(href: Option<string>): JsValue {
    match href
    case Some(h) => Str(h)
    case None => Undefined
  }

  /** Lines 71-74: the text before the first bullet, trimmed, or the whole text trimmed; `''` for a missing element. */
  function PostedBy(nameLine: Option<string>): (r: string)
    ensures Bullet !in r
    ensures nameLine.None? ==> r == ""
  {
    var raw := if nameLine.Some? then nameLine.value else "";
    if Bullet in raw then
      SplitPiecesLackSeparator(raw, Bullet);
      TrimAddsNothing(Split(raw, Bullet)[0], Bullet);
      Trim(Split(raw, Bullet)[0])
    else
      TrimAddsNothing(raw, Bullet);
      Trim(raw)
  }

  /**
   * `postedBy` is the trimmed text before the first bullet when there is one, the trimmed whole
   * text otherwise and `''` without the element; it never holds a bullet and is already trimmed.
   */
  lemma PostedByMeaning(nameLine: Option<string>)
    ensures nameLine == None ==> PostedBy(nameLine) == ""
    ensures nameLine.Some? && Bullet in nameLine.value ==>
              PostedBy(nameLine) == Trim(nameLine.value[..IndexOf(nameLine.value, Bullet)])
    ensures nameLine.Some? && Bullet !in nameLine.value ==> PostedBy(nameLine) == Trim(nameLine.value)
    ensures Bullet !in PostedBy(nameLine)
    ensures Trim(PostedBy(nameLine)) == PostedBy(nameLine)
  {
    var raw := if nameLine.Some? then nameLine.value else "";
    var before := Split(raw, Bullet)[0];
    SplitFirst(raw, Bullet);
    SplitPiecesLackSeparator(raw, Bullet);
    if Bullet in raw {
      assert Bullet !in before;
      TrimAddsNothing(before, Bullet);
      TrimIdempotent(before);
    } else {
      TrimAddsNothing(raw, Bullet);
      TrimIdempotent(raw);
    }
  }

  /** Lines 67-82: the summary of one card. */
  function Summarize(card: Card): (job: Job)
    ensures job.title == Undefined <==> card.heading.None?
    ensures card.heading.Some? ==> job.title == Str(Trim(card.heading.value))
    ensures job.jobType == Undefined <==> card.badge.None?
    ensures card.badge.Some? ==> job.jobType == Str(Trim(card.badge.value))
    ensures job.link == Undefined <==> card.anchorHref.None?
    ensures card.anchorHref.Some? ==> job.link == Str(card.anchorHref.value)
    ensures Truthy(job.link) <==> card.anchorHref.Some? && card.anchorHref.value != ""
    ensures job.postedBy == PostedBy(card.nameLine)
  {
    Job(TrimmedText(card.heading), TrimmedText(card.badge), Href(card.anchorHref), PostedBy(card.nameLine))
  }

  /** `initialJobs`: one summary per card, in page order. */
  function Summaries(cards: seq<Card>): (jobs: seq<Job>)
    ensures |jobs| == |cards|
    ensures forall i :: 0 <= i < |cards| ==> jobs[i] == Summarize(cards[i])
  {
    seq(|cards|, i requires 0 <= i < |cards| => Summarize(cards[i]))
  }

  /** The summary as an object, with exactly the four summary properties. */
  function SummaryRecord(job: Job): (r: Record)
    ensures r.Keys == {"title", "jobType", "link", "postedBy"}
    ensures r["title"] == job.title && r["jobType"] == job.jobType && r["link"] == job.link
    ensures r["postedBy"] == Str(job.postedBy)
  {
    map["title" := job.title, "jobType" := job.jobType, "link" := job.link, "postedBy" := Str(job.postedBy)]
  }
}
