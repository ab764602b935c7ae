/** The Firecrawl job scraper (`agents/firecrawl_scraper.py`): the search query
    and limit, the company and location read from a result title, and the
    first-occurrence deduplication of the jobs. The Firecrawl SDK call is a
    function parameter returning the web results. */
module FirecrawlScraper {
  import opened Text
  import opened Models
  import opened Lists

  // ---------------------------------------------------------------------------
  // Query
  // ---------------------------------------------------------------------------

  /** The search query: "{title} jobs {location}" with a location, else
      "{title} jobs". */
  function SearchQuery(jobTitle: String, location: Option<String>): (r: String)
    ensures IsPrefix(jobTitle + " jobs", r)
    ensures Given(location) ==> r == jobTitle + " jobs " + location.value
    ensures !Given(location) ==> r == jobTitle + " jobs"
  {
    if Given(location) then jobTitle + " jobs " + location.value else jobTitle + " jobs"
  }

  /** The cap on the `limit` of one search call, `Cap(num_jobs, ResultLimit)`. */
  const ResultLimit: int := 10

  // ---------------------------------------------------------------------------
  // Title parsing
  // ---------------------------------------------------------------------------

  datatype Placement = Placement(company: String, location: String)

  /** The location used when the title gives none: the searched location, or
      "Not specified". */
  function DefaultLocation(location: Option<String>): (r: String)
    ensures r != []
  {
    if Given(location) then location.value else "Not specified"
  }

  /** The parse of a "Job Title at Company - Location" title: split at the
      first " at "; the stripped rest is the company unless it holds " - ",
      in which case it splits at the first " - " into company and location. */
  function ParseTitle(title: String, location: Option<String>): Placement {
    if Contains(title, " at ") then PlaceRest(Strip(SplitOnce(title, " at ").1), location)
    else Placement("Unknown Company", DefaultLocation(location))
  }

  /** The company part of a title and the location after its " - ". */
  function PlaceRest(rest: String, location: Option<String>): Placement {
    if Contains(rest, " - ") then
      var (company, place) := SplitOnce(rest, " - ");
      Placement(Strip(company), Strip(place))
    else Placement(rest, DefaultLocation(location))
  }

  /** Without " at " the company is unknown and the location is the default. */
  lemma ParseTitleWithoutAt(title: String, location: Option<String>)
    requires !Contains(title, " at ")
    ensures ParseTitle(title, location) == Placement("Unknown Company", DefaultLocation(location))
  {
  }

  /** With " at ", the title is cut at its first occurrence `i` of " at " and
      the rest after it, stripped, gives the placement. */
  lemma ParseTitleWithAt(title: String, location: Option<String>) returns (i: nat)
    requires Contains(title, " at ")
    ensures OccursAt(title, " at ", i) && forall j :: 0 <= j < i ==> !OccursAt(title, " at ", j)
    ensures ParseTitle(title, location) == PlaceRest(Strip(title[i + 4..]), location)
  {
    i := Find(title, " at ").value;
    var (pre, post) := SplitOnce(title, " at ");
    assert pre == title[..i] && post == title[i + 4..];
  }

  /** A rest with " - " is cut at its first occurrence `j` into the company
      before it and the location after it, both stripped. */
  lemma PlaceRestWithDash(rest: String, location: Option<String>) returns (j: nat)
    requires Contains(rest, " - ")
    ensures OccursAt(rest, " - ", j) && forall k :: 0 <= k < j ==> !OccursAt(rest, " - ", k)
    ensures PlaceRest(rest, location) == Placement(Strip(rest[..j]), Strip(rest[j + 3..]))
  {
    j := Find(rest, " - ").value;
    var (c, l) := SplitOnce(rest, " - ");
    assert c == rest[..j] && l == rest[j + 3..];
  }

  /** A rest without " - " is the company, and the location is the default. */
  lemma PlaceRestWithoutDash(rest: String, location: Option<String>)
    requires !Contains(rest, " - ")
    ensures PlaceRest(rest, location) == Placement(rest, DefaultLocation(location))
  {
  }

  // ---------------------------------------------------------------------------
  // Results to jobs
  // ---------------------------------------------------------------------------

  /** One web result of the SDK: its `title`, `url` and `description`
      attributes, each missing, `None` or a string. */
  datatype WebResult = WebResult(title: JsonText, url: JsonText, description: JsonText)

  /** The job for one result; `None` when the source raises on it: a `None`
      title fails the `" at " in title` test and a `None` URL or description
      fails the record's validation. */
  function ResultToJob(w: WebResult, location: Option<String>): (r: Option<Job>)
  {
    if w.title.Null? || w.url.Null? || w.description.Null? then None
    else
      var title := TextOr(w.title, "Unknown Job");
      var p := ParseTitle(title, location);
      Some(Job(title, p.company, p.location, TextOr(w.description, "No description"), TextOr(w.url, ""), None, Firecrawl))
  }

  /** The job of a result keeps the result's title, URL and description and
      carries source "firecrawl"; it passes the record's validation. */
  lemma ResultToJobFields(w: WebResult, location: Option<String>)
    ensures ResultToJob(w, location).None? <==> w.title.Null? || w.url.Null? || w.description.Null?
    ensures ResultToJob(w, location).Some? ==>
              var j := ResultToJob(w, location).value;
              && j.title == TextOr(w.title, "Unknown Job")
              && j.url == TextOr(w.url, "")
              && j.description == TextOr(w.description, "No description")
              && j.source == Firecrawl && j.postedDate.None?
              && NewJob(j.title, j.company, j.location, j.description, j.url, None, Some("firecrawl")) == Success(j)
  {
    var r := ResultToJob(w, location);
    if r.Some? {
      JobAccepted(r.value);
    }
  }

  /** The jobs for the results, one per result in order; `None` as soon as one
      result raises, which aborts the whole search. */
  function ResultsToJobs(ws: seq<WebResult>, location: Option<String>): Option<seq<Job>> {
    CollectAll(ws, w => ResultToJob(w, location))
  }

  /** The jobs list exists exactly when no result raises, and job `k` is the
      job of result `k`. */
  lemma ResultsToJobsSpec(ws: seq<WebResult>, location: Option<String>)
    ensures ResultsToJobs(ws, location).Some? <==> forall k :: 0 <= k < |ws| ==> ResultToJob(ws[k], location).Some?
    ensures ResultsToJobs(ws, location).Some? ==>
              |ResultsToJobs(ws, location).value| == |ws| &&
              forall k :: 0 <= k < |ws| ==> ResultsToJobs(ws, location).value[k] == ResultToJob(ws[k], location).value
  {
    CollectAllSpec(ws, w => ResultToJob(w, location));
  }

  /** The loop of `search` that turns each web result into a job. */
  method BuildJobs(ws: seq<WebResult>, location: Option<String>) returns (r: Option<seq<Job>>)
    ensures r == ResultsToJobs(ws, location)
  {
    r := CollectEach(ws, w => ResultToJob(w, location));
  }

  // ---------------------------------------------------------------------------
  // Deduplication
  // ---------------------------------------------------------------------------

  type JobKey = (String, String)

  /** `(job.title.lower().strip(), job.company.lower().strip())`. */
  function Key(j: Job): JobKey {
    (Strip(Lower(j.title)), Strip(Lower(j.company)))
  }

  /** The deduplication is stated for any key function; the source's key is
      `Key`. */
  function KeySet<T, K>(xs: seq<T>, key: T -> K): set<K> {
    set i | 0 <= i < |xs| :: key(xs[i])
  }

  predicate DistinctKeys<T, K(==)>(xs: seq<T>, key: T -> K) {
    forall i, j :: 0 <= i < j < |xs| ==> key(xs[i]) != key(xs[j])
  }

  /** Each element whose key has not been seen before, in order. */
  function DedupBy<T, K(==)>(xs: seq<T>, key: T -> K): (r: seq<T>)
    ensures |r| <= |xs|
  {
    if xs == [] then []
    else
      var d := DedupBy(xs[..|xs| - 1], key);
      if key(Last(xs)) in KeySet(d, key) then d else d + [Last(xs)]
  }

  /** `_deduplicate_jobs`. */
  function Dedup(jobs: seq<Job>): seq<Job> {
    DedupBy(jobs, Key)
  }

  lemma KeySetAppend<T, K>(xs: seq<T>, x: T, key: T -> K)
    ensures KeySet(xs + [x], key) == KeySet(xs, key) + {key(x)}
  {
    var ys := xs + [x];
    forall k | k in KeySet(ys, key) ensures k in KeySet(xs, key) + {key(x)} {
      var i :| 0 <= i < |ys| && key(ys[i]) == k;
      if i < |xs| { assert ys[i] == xs[i]; }
    }
    forall k | k in KeySet(xs, key) ensures k in KeySet(ys, key) {
      var i :| 0 <= i < |xs| && key(xs[i]) == k;
      assert ys[i] == xs[i];
    }
    assert key(ys[|xs|]) == key(x);
  }

  /** Every key of the input appears in the output, and no other. */
  lemma {:induction false} DedupKeys<T, K>(xs: seq<T>, key: T -> K)
    ensures KeySet(DedupBy(xs, key), key) == KeySet(xs, key)
    decreases |xs|
  {
    if xs != [] {
      var init := xs[..|xs| - 1];
      var x := Last(xs);
      DedupKeys(init, key);
      assert xs == init + [x];
      KeySetAppend(init, x, key);
      KeySetAppend(DedupBy(init, key), x, key);
    }
  }

  /** No two elements of the output share a key. */
  lemma {:induction false} DedupDistinct<T, K>(xs: seq<T>, key: T -> K)
    ensures DistinctKeys(DedupBy(xs, key), key)
    decreases |xs|
  {
    if xs != [] {
      var init := xs[..|xs| - 1];
      var d := DedupBy(init, key);
      DedupDistinct(init, key);
      if key(Last(xs)) !in KeySet(d, key) {
        var r := d + [Last(xs)];
        forall i, j | 0 <= i < j < |r| ensures key(r[i]) != key(r[j]) {
          assert r[i] == d[i];
          if j < |d| { assert r[j] == d[j]; }
        }
      }
    }
  }

  /** A list whose keys are already distinct is left unchanged. */
  lemma {:induction false} DedupOfDistinct<T, K>(xs: seq<T>, key: T -> K)
    requires DistinctKeys(xs, key)
    ensures DedupBy(xs, key) == xs
    decreases |xs|
  {
    if xs != [] {
      var n := |xs| - 1;
      var init := xs[..n];
      assert DistinctKeys(init, key) by {
        forall i, j | 0 <= i < j < |init| ensures key(init[i]) != key(init[j]) {
          assert init[i] == xs[i] && init[j] == xs[j];
        }
      }
      DedupOfDistinct(init, key);
      assert key(xs[n]) !in KeySet(init, key) by {
        forall i | 0 <= i < n ensures key(init[i]) != key(xs[n]) {
          assert init[i] == xs[i];
        }
      }
      assert init + [xs[n]] == xs;
    }
  }

  /** Deduplicating twice is deduplicating once. */
  lemma DedupIdempotent(jobs: seq<Job>)
    ensures Dedup(Dedup(jobs)) == Dedup(jobs)
  {
    DedupDistinct(jobs, Key);
    DedupOfDistinct(Dedup(jobs), Key);
  }

  /** The jobs of the output have pairwise distinct keys, and every key of the
      input is the key of some output job. */
  lemma DedupJobKeys(jobs: seq<Job>)
    ensures DistinctKeys(Dedup(jobs), Key)
    ensures KeySet(Dedup(jobs), Key) == KeySet(jobs, Key)
  {
    DedupDistinct(jobs, Key);
    DedupKeys(jobs, Key);
  }

  /** Each kept element is the first of the input with its key. */
  lemma {:induction false} DedupKeepsFirst<T, K>(xs: seq<T>, key: T -> K)
    ensures forall k :: 0 <= k < |DedupBy(xs, key)| ==>
              exists i :: (0 <= i < |xs| && xs[i] == DedupBy(xs, key)[k]
                           && forall j :: 0 <= j < i ==> key(xs[j]) != key(xs[i]))
    decreases |xs|
  {
    if xs != [] {
      var n := |xs| - 1;
      var init := xs[..n];
      var d := DedupBy(init, key);
      var r := DedupBy(xs, key);
      DedupKeepsFirst(init, key);
      DedupKeys(init, key);
      forall k | 0 <= k < |r|
        ensures exists i :: 0 <= i < |xs| && xs[i] == r[k] && forall j :: 0 <= j < i ==> key(xs[j]) != key(xs[i])
      {
        if k < |d| {
          assert r[k] == d[k];
          var i :| 0 <= i < |init| && init[i] == d[k] && forall j :: 0 <= j < i ==> key(init[j]) != key(init[i]);
          assert xs[i] == init[i];
          forall j | 0 <= j < i ensures key(xs[j]) != key(xs[i]) { assert xs[j] == init[j]; }
          assert 0 <= i < |xs| && xs[i] == r[k] && forall j :: 0 <= j < i ==> key(xs[j]) != key(xs[i]);
        } else {
          assert r == d + [xs[n]];
          assert r[k] == xs[n] && key(xs[n]) !in KeySet(init, key);
          forall j | 0 <= j < n ensures key(xs[j]) != key(xs[n]) {
            assert xs[j] == init[j];
            assert key(init[j]) in KeySet(init, key);
          }
          assert 0 <= n < |xs| && xs[n] == r[k] && forall j :: 0 <= j < n ==> key(xs[j]) != key(xs[n]);
        }
      }
      assert r == DedupBy(xs, key);
    } else {
      assert DedupBy(xs, key) == [];
    }
  }

  /** `sub` is `s` with some elements left out, the others in their order. */
  predicate Subsequence<T(==)>(sub: seq<T>, s: seq<T>)
    decreases |s|
  {
    if sub == [] then true
    else if s == [] then false
    else (Last(sub) == Last(s) && Subsequence(sub[..|sub| - 1], s[..|s| - 1]))
         || Subsequence(sub, s[..|s| - 1])
  }

  /** The output keeps the input order. */
  lemma {:induction false} DedupSubsequence<T, K>(xs: seq<T>, key: T -> K)
    ensures Subsequence(DedupBy(xs, key), xs)
    decreases |xs|
  {
    if xs != [] {
      var init := xs[..|xs| - 1];
      var d := DedupBy(init, key);
      DedupSubsequence(init, key);
      if key(Last(xs)) !in KeySet(d, key) {
        var r := d + [Last(xs)];
        assert r[..|r| - 1] == d;
      }
    }
  }

  /** An element with a new key is kept ... */
  lemma DedupByKeep<T, K>(d: seq<T>, xs: seq<T>, i: nat, key: T -> K)
    requires i < |xs| && d == DedupBy(xs[..i], key) && key(xs[i]) !in KeySet(d, key)
    ensures d + [xs[i]] == DedupBy(xs[..i + 1], key)
  {
    assert xs[..i + 1][..i] == xs[..i];
  }

  /** ... and one whose key was seen is dropped. */
  lemma DedupByDrop<T, K>(d: seq<T>, xs: seq<T>, i: nat, key: T -> K)
    requires i < |xs| && d == DedupBy(xs[..i], key) && key(xs[i]) in KeySet(d, key)
    ensures d == DedupBy(xs[..i + 1], key)
  {
    assert xs[..i + 1][..i] == xs[..i];
  }

  /** `_deduplicate_jobs`: the loop with the `seen` set. */
  method DeduplicateJobs(jobs: seq<Job>) returns (unique: seq<Job>)
    ensures unique == Dedup(jobs)
  {
    var seen: set<JobKey> := {};
    unique := [];
    var i := 0;
    while i < |jobs|
      invariant 0 <= i <= |jobs|
      invariant unique == DedupBy(jobs[..i], Key)
      invariant seen == KeySet(unique, Key)
    {
      var job := jobs[i];
      var jobId := Key(job);
      if jobId !in seen {
        DedupByKeep(unique, jobs, i, Key);
        KeySetAppend(unique, job, Key);
        seen := seen + {jobId};
        unique := unique + [job];
      } else {
        DedupByDrop(unique, jobs, i, Key);
      }
      i := i + 1;
    }
    assert jobs[..|jobs|] == jobs;
  }

  // ---------------------------------------------------------------------------
  // Search
  // ---------------------------------------------------------------------------

  /** `search`: one SDK call with the query and limit, the results turned into
      jobs and deduplicated; any exception gives []. `web` stands for the SDK,
      mapping a query and limit to its web results. */
  method Search(jobTitle: String, location: Option<String>, numJobs: int,
                web: (String, int) -> seq<WebResult>) returns (jobs: seq<Job>)
    ensures var built := ResultsToJobs(web(SearchQuery(jobTitle, location), Cap(numJobs, ResultLimit)), location);
            jobs == if built.None? then [] else Dedup(built.value)
  {
    var query := SearchQuery(jobTitle, location);
    var results := web(query, Cap(numJobs, ResultLimit));
    var built := BuildJobs(results, location);
    if built.None? {
      return [];
    }
    jobs := DeduplicateJobs(built.value);
  }
}
