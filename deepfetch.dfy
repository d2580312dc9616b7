/**
 * The deep-fetch loop (server.js lines 94-134): the jobs to scrape are
 * visited one after another; a job without a truthy `link` is skipped, and
 * every other job adds exactly one record to `fullJobs`, either the job
 * merged with its extracted details or the job marked as failed. There is
 * no retry and no concurrency. What loading a detail page produces (or that
 * it threw) is given per job as input.
 */
module DeepFetch {
  import opened Records
  import opened Listing
  import opened Details

  /** What visiting one job's link produced: the loaded page, or the message of what `goto` or `evaluate` threw. */
  datatype FetchOutcome = Loaded(page: Page) | Failed(message: string)

  /** The `error` property given to a job whose details could not be loaded. */
  const LoadFailure := "Failed to load details"

  /** Line 128 and line 132: the record one visited job contributes. */
  function Enrich(job: Job, outcome: FetchOutcome): (r: Record)
    ensures SummaryRecord(job).Keys <= r.Keys
    ensures outcome.Failed? ==> "error" in r && r["error"] == Str(LoadFailure) && r["link"] == job.link
  {
    match outcome
    case Loaded(page) => Spread(SummaryRecord(job), DetailsRecord(page))
    case Failed(_) => Spread(SummaryRecord(job), map["error" := Str(LoadFailure)])
  }

  /**
   * A successful visit yields `{...job, ...details}`: every detail property, and the summary's
   * properties where the details have none of that name. A failed one yields the summary plus
   * `error: 'Failed to load details'` and no other property; the thrown message is not kept.
   */
  lemma EnrichMerges(job: Job, outcome: FetchOutcome)
    ensures outcome.Loaded? ==>
              && Enrich(job, outcome).Keys == SummaryRecord(job).Keys + DetailsRecord(outcome.page).Keys
              && (forall k :: k in DetailsRecord(outcome.page) ==> Enrich(job, outcome)[k] == DetailsRecord(outcome.page)[k])
              && (forall k :: k in SummaryRecord(job) && k !in DetailsRecord(outcome.page) ==> Enrich(job, outcome)[k] == SummaryRecord(job)[k])
    ensures outcome.Failed? ==>
              && Enrich(job, outcome).Keys == SummaryRecord(job).Keys + {"error"}
              && Enrich(job, outcome)["error"] == Str(LoadFailure)
              && (forall k :: k in SummaryRecord(job) ==> Enrich(job, outcome)[k] == SummaryRecord(job)[k])
  {
  }

  /** `fullJobs` after the loop: one record per job with a truthy link, in order. */
  function Enriched(jobs: seq<Job>, outcomes: seq<FetchOutcome>): (full: seq<Record>)
    requires |outcomes| == |jobs|
    ensures |full| <= |jobs|
  {
    if jobs == [] then []
    else
      var n := |jobs| - 1;
      Enriched(jobs[..n], outcomes[..n]) + (if Truthy(jobs[n].link) then [Enrich(jobs[n], outcomes[n])] else [])
  }

  /** The positions of the jobs with a truthy link, in increasing order. */
  function LinkedPositions(jobs: seq<Job>): (ps: seq<nat>)
    ensures forall k :: 0 <= k < |ps| ==> ps[k] < |jobs| && Truthy(jobs[ps[k]].link)
    ensures forall k, l :: 0 <= k < l < |ps| ==> ps[k] < ps[l]
    ensures forall i :: 0 <= i < |jobs| && Truthy(jobs[i].link) ==> i in ps
  {
    if jobs == [] then []
    else
      var n := |jobs| - 1;
      var front := LinkedPositions(jobs[..n]);
      assert forall k :: 0 <= k < |front| ==> jobs[..n][front[k]] == jobs[front[k]];
      front + (if Truthy(jobs[n].link) then [n] else [])
  }

  /** The linked positions are distinct positions of the sequence, so there are at most as many as jobs. */
  lemma {:induction false} LinkedPositionsBound(jobs: seq<Job>)
    ensures |LinkedPositions(jobs)| <= |jobs|
  {
    if jobs != [] {
      LinkedPositionsBound(jobs[..|jobs| - 1]);
    }
  }

  /**
   * Deep-fetch output has exactly one record per job with a truthy link, in input order: the
   * k-th record is the enrichment of the k-th linked job; link-less jobs are dropped.
   */
  lemma {:induction false} EnrichedFollowsLinks(jobs: seq<Job>, outcomes: seq<FetchOutcome>)
    requires |outcomes| == |jobs|
    ensures |Enriched(jobs, outcomes)| == |LinkedPositions(jobs)|
    ensures forall k :: 0 <= k < |LinkedPositions(jobs)| ==>
              Enriched(jobs, outcomes)[k] == Enrich(jobs[LinkedPositions(jobs)[k]], outcomes[LinkedPositions(jobs)[k]])
  {
    if jobs != [] {
      var n := |jobs| - 1;
      var front := Enriched(jobs[..n], outcomes[..n]);
      var ps := LinkedPositions(jobs[..n]);
      var linked := Truthy(jobs[n].link);
      EnrichedFollowsLinks(jobs[..n], outcomes[..n]);
      assert Enriched(jobs, outcomes) == front + (if linked then [Enrich(jobs[n], outcomes[n])] else []);
      assert LinkedPositions(jobs) == ps + (if linked then [n] else []);
      forall k | 0 <= k < |LinkedPositions(jobs)|
        ensures Enriched(jobs, outcomes)[k] == Enrich(jobs[LinkedPositions(jobs)[k]], outcomes[LinkedPositions(jobs)[k]])
      {
        if k < |ps| {
          assert Enriched(jobs, outcomes)[k] == front[k];
          assert jobs[..n][ps[k]] == jobs[ps[k]];
          assert outcomes[..n][ps[k]] == outcomes[ps[k]];
        } else {
          assert linked && k == |ps| && LinkedPositions(jobs)[k] == n;
        }
      }
    }
  }

  /** With no link anywhere the loop adds nothing; with a link everywhere it adds a record per job. */
  lemma {:induction false} EnrichedExtremes(jobs: seq<Job>, outcomes: seq<FetchOutcome>)
    requires |outcomes| == |jobs|
    ensures (forall i :: 0 <= i < |jobs| ==> !Truthy(jobs[i].link)) ==> Enriched(jobs, outcomes) == []
    ensures (forall i :: 0 <= i < |jobs| ==> Truthy(jobs[i].link)) ==> |Enriched(jobs, outcomes)| == |jobs|
  {
    if jobs != [] {
      var n := |jobs| - 1;
      EnrichedExtremes(jobs[..n], outcomes[..n]);
    }
  }

  /** Lines 94-134: the loop as written, appending to `fullJobs` and skipping link-less jobs with `continue`. */
  method CollectFullJobs(jobs: seq<Job>, outcomes: seq<FetchOutcome>) returns (fullJobs: seq<Record>)
    requires |outcomes| == |jobs|
    ensures fullJobs == Enriched(jobs, outcomes)
  {
    fullJobs := [];
    var i := 0;
    while i < |jobs|
      invariant 0 <= i <= |jobs|
      invariant fullJobs == Enriched(jobs[..i], outcomes[..i])
    {
      assert jobs[..i + 1][..i] == jobs[..i] && outcomes[..i + 1][..i] == outcomes[..i];
      var job := jobs[i];
      i := i + 1;
      if !Truthy(job.link) {
        continue;
      }
      match outcomes[i - 1]
      case Loaded(page) =>
        var details := ExtractDetails(page);
        fullJobs := fullJobs + [Spread(SummaryRecord(job), details)];
      case Failed(_) =>
        fullJobs := fullJobs + [Spread(SummaryRecord(job), map["error" := Str(LoadFailure)])];
    }
    assert jobs[..i] == jobs && outcomes[..i] == outcomes;
  }
}
