/** The result normalisation of the Brave Search agent (`agents/brave_search.py`):
    the job query, the result counts sent with each request, the company and
    location guessed from a search hit, and the filters that drop hits which are
    not job postings. The HTTP requests themselves are not modelled; a search hit
    is given as a record of three JSON fields. */
module BraveSearch {
  import opened Text
  import opened Models
  import opened Lists
  import opened UrlParse

  // ---------------------------------------------------------------------------
  // Requests
  // ---------------------------------------------------------------------------

  const IncludeClause: String := "\"job posting\" " + "OR \"careers\" " + "OR \"apply now\""
  const ExcludeClause: String := "-\"linkedin.com" + "/in/\" " + "-\"profile\" " + "-\"resume\""

  /** `_build_job_query`: the title, the location when one is given, then the
      clause asking for postings and the one excluding profiles. */
  function BuildJobQuery(jobTitle: String, location: Option<String>): String {
    var parts := [jobTitle] + (if location.Some? && location.value != [] then [location.value] else []);
    Join(" ", parts + [IncludeClause, ExcludeClause])
  }

  lemma {:induction false} JoinQueryParts(title: String, location: Option<String>, inc: String, exc: String)
    ensures Join(" ", [title] + (if location.Some? && location.value != [] then [location.value] else []) + [inc, exc])
            == title + " " + (if location.Some? && location.value != [] then location.value + " " else []) + inc + " " + exc
    ensures IsPrefix(title + " ", Join(" ", [title] + (if location.Some? && location.value != [] then [location.value] else []) + [inc, exc]))
  {
    var rest := (if location.Some? && location.value != [] then location.value + " " else []) + inc + " " + exc;
    assert title + " " + (if location.Some? && location.value != [] then location.value + " " else []) + inc + " " + exc
        == (title + " ") + rest;
    JoinCons(" ", inc, [exc]);
    if location.Some? && location.value != [] {
      var l := location.value;
      assert [title] + [l] + [inc, exc] == [title] + ([l] + [inc, exc]);
      JoinCons(" ", l, [inc, exc]);
      JoinCons(" ", title, [l] + [inc, exc]);
    } else {
      assert [title] + [] + [inc, exc] == [title] + [inc, exc];
      JoinCons(" ", title, [inc, exc]);
    }
  }

  /** The query is the parts joined by single spaces: it starts with the job
      title, the location follows unquoted only when it is non-empty, and the
      two fixed clauses end it. */
  lemma BuildJobQuerySpelled(jobTitle: String, location: Option<String>)
    ensures BuildJobQuery(jobTitle, location) ==
              jobTitle + " " + (if location.Some? && location.value != [] then location.value + " " else [])
              + IncludeClause + " " + ExcludeClause
    ensures IsPrefix(jobTitle + " ", BuildJobQuery(jobTitle, location))
  {
    JoinQueryParts(jobTitle, location, IncludeClause, ExcludeClause);
  }

  /** `search_company_info`'s query. */
  function CompanyInfoQuery(companyName: String): (r: String)
    ensures IsPrefix("\"" + companyName + "\" ", r)
  {
    "\"" + companyName + "\" " + "(about OR " + "products OR " + "services OR " + "\"what does\")"
  }

  /** The cap on the `count` parameter of a job search, `Cap(num_results,
      JobSearchMax)`: Brave returns at most 20 hits. */
  const JobSearchMax: int := 20

  /** The cap on the `count` parameter of a company search. */
  const CompanyInfoMax: int := 10

  // ---------------------------------------------------------------------------
  // Company
  // ---------------------------------------------------------------------------

  const LinkedInCompany: String := "linkedin.com/company/"

  /** The slug after "linkedin.com/company/", hyphens as spaces, title-cased. */
  function CompanySlug(url: String): String
    requires Contains(url, LinkedInCompany)
  {
    Title(Replace(Split(Split(url, LinkedInCompany)[1], "/")[0], "-", " "))
  }

  /** The first dot-separated label of the host once "www." is removed,
      title-cased. */
  function DomainLabel(netloc: String): String {
    Title(Split(Replace(netloc, "www.", ""), ".")[0])
  }

  /** `_extract_company` for a hit with this title and URL (each "" when the
      field is missing). */
  function ExtractCompany(title: String, url: String): String {
    if Contains(title, " - ") then Strip(Last(Split(title, " - ")))
    else if Contains(title, " at ") then Strip(Last(Split(title, " at ")))
    else if Contains(url, LinkedInCompany) then CompanySlug(url)
    else match Netloc(url)
      case None => "Unknown Company"
      case Some(n) => DomainLabel(n)
  }

  /** A title with " - " names the company after its last " - ": the result
      is that stripped tail, which holds no further " - ", whatever the URL. */
  lemma ExtractCompanyFromDash(title: String, url: String)
    requires Contains(title, " - ")
    ensures exists k :: (0 < k <= |title| && OccursAt(title, " - ", k - 3)
                         && !Contains(title[k..], " - ")
                         && ExtractCompany(title, url) == Strip(title[k..]))
  {
    var k := SplitLastPiece(title, " - ");
    SplitLastNoSep(title, " - ");
    assert Find(title, " - ").Some?;
    assert Last(Split(title, " - ")) == title[k..];
    assert ExtractCompany(title, url) == Strip(title[k..]);
    assert 0 < k <= |title| && OccursAt(title, " - ", k - 3) && !Contains(title[k..], " - ");
  }

  /** Without " - " but with " at ", the company is the stripped text after
      the last " at ". */
  lemma ExtractCompanyFromAt(title: String, url: String)
    requires !Contains(title, " - ") && Contains(title, " at ")
    ensures exists k :: (0 < k <= |title| && OccursAt(title, " at ", k - 4)
                         && !Contains(title[k..], " at ")
                         && ExtractCompany(title, url) == Strip(title[k..]))
  {
    var k := SplitLastPiece(title, " at ");
    SplitLastNoSep(title, " at ");
    assert Find(title, " at ").Some?;
    assert Last(Split(title, " at ")) == title[k..];
    assert ExtractCompany(title, url) == Strip(title[k..]);
    assert 0 < k <= |title| && OccursAt(title, " at ", k - 4) && !Contains(title[k..], " at ");
  }

  /** The title patterns take priority: when one applies, the URL is not read. */
  lemma ExtractCompanyTitleFirst(title: String, url1: String, url2: String)
    requires Contains(title, " - ") || Contains(title, " at ")
    ensures ExtractCompany(title, url1) == ExtractCompany(title, url2)
  {
  }

  /** A LinkedIn company page gives one path segment with hyphens turned into
      spaces: no '/' and no '-' is left. */
  lemma CompanySlugShape(url: String)
    requires Contains(url, LinkedInCompany)
    ensures '/' !in CompanySlug(url) && '-' !in CompanySlug(url)
  {
    var seg := Split(Split(url, LinkedInCompany)[1], "/")[0];
    SplitFirstPiece(Split(url, LinkedInCompany)[1], "/");
    ContainsChar(seg, '/');
    ReplaceCharAbsent(seg, '-', " ", '/');
    ReplaceCharAbsent(seg, '-', " ", '-');
    TitleKeepsAbsent(Replace(seg, "-", " "), '/');
    TitleKeepsAbsent(Replace(seg, "-", " "), '-');
  }

  /** The host fallback gives a single label: no '.' is left. */
  lemma DomainLabelShape(netloc: String)
    ensures '.' !in DomainLabel(netloc)
  {
    var firstLabel := Split(Replace(netloc, "www.", ""), ".")[0];
    SplitFirstPiece(Replace(netloc, "www.", ""), ".");
    ContainsChar(firstLabel, '.');
    TitleKeepsAbsent(firstLabel, '.');
  }

  /** Without a title pattern or a LinkedIn company URL, a leading control
      character or space does not change the company: `urlparse` strips it
      before reading the host. */
  lemma ExtractCompanySkipsLeading(title: String, c: char, url: String)
    requires !Contains(title, " - ") && !Contains(title, " at ") && !Contains(url, LinkedInCompany)
    requires IsC0OrSpace(c)
    ensures ExtractCompany(title, [c] + url) == ExtractCompany(title, url)
  {
    var u := [c] + url;
    forall i | 0 <= i <= |u| - |LinkedInCompany| ensures !OccursAt(u, LinkedInCompany, i) {
      if i == 0 {
        assert u[0] != LinkedInCompany[0];
      } else {
        assert u[i..i + |LinkedInCompany|] == url[i - 1..i - 1 + |LinkedInCompany|];
        assert !OccursAt(url, LinkedInCompany, i - 1);
      }
    }
    NetlocSkipsLeading(c, url);
  }

  /** Without a title pattern or a LinkedIn company URL, the company comes
      from the host with tab, carriage return and line feed deleted; the
      LinkedIn test itself reads the URL as given. */
  lemma ExtractCompanyIgnoresUnsafe(title: String, a: String, c: char, b: String)
    requires !Contains(title, " - ") && !Contains(title, " at ") && !Contains(a + [c] + b, LinkedInCompany)
    requires a != [] && !IsC0OrSpace(a[0]) && IsUnsafeUrlChar(c)
    ensures ExtractCompany(title, a + [c] + b) ==
              match Netloc(a + b)
              case None => "Unknown Company"
              case Some(n) => DomainLabel(n)
  {
    NetlocIgnoresUnsafe(a, c, b);
  }

  /** A hit with neither title pattern and an empty URL gets the empty company
      name: the empty URL has an empty host. */
  lemma EmptyUrlGivesEmptyCompany(title: String)
    requires !Contains(title, " - ") && !Contains(title, " at ")
    ensures ExtractCompany(title, "") == ""
  {
    assert !Contains("", LinkedInCompany);
    assert Netloc("") == Some([]);
    assert Split(Replace([], "www.", ""), ".") == [[]];
  }

  // ---------------------------------------------------------------------------
  // Location
  // ---------------------------------------------------------------------------

  const RemoteWords: seq<String> := ["remote", "work from home", "wfh", "עבודה מהבית"]

  const IsraeliCities: seq<String> := [
    "Tel Aviv", "Jerusalem", "Haifa", "Beer Sheva", "Herzliya",
    "Raanana", "Petah Tikva", "Rishon LeZion", "Netanya",
    "תל אביב", "ירושלים", "חיפה", "באר שבע"]

  /** The first city of `cities` whose lower-cased name occurs in `textLower`. */
  function FirstCity(cities: seq<String>, textLower: String): (r: Option<String>)
  {
    if cities == [] then None
    else if Contains(textLower, Lower(cities[0])) then Some(cities[0])
    else FirstCity(cities[1..], textLower)
  }

  /** `FirstCity` finds the earliest city that matches, and finds nothing only
      when no city matches. */
  lemma {:induction false} FirstCityFirst(cities: seq<String>, textLower: String)
    ensures FirstCity(cities, textLower).None? <==>
              forall k :: 0 <= k < |cities| ==> !Contains(textLower, Lower(cities[k]))
    ensures FirstCity(cities, textLower).Some? ==>
              exists k :: (0 <= k < |cities| && cities[k] == FirstCity(cities, textLower).value
                           && Contains(textLower, Lower(cities[k]))
                           && forall j :: 0 <= j < k ==> !Contains(textLower, Lower(cities[j])))
  {
    if cities != [] && !Contains(textLower, Lower(cities[0])) {
      FirstCityFirst(cities[1..], textLower);
      var r := FirstCity(cities, textLower);
      if r.Some? {
        var k :| (0 <= k < |cities| - 1 && cities[1..][k] == r.value
                  && Contains(textLower, Lower(cities[1..][k]))
                  && forall j :: 0 <= j < k ==> !Contains(textLower, Lower(cities[1..][j])));
        assert cities[k + 1] == r.value;
        forall j | 0 <= j < k + 1 ensures !Contains(textLower, Lower(cities[j])) {
          if j > 0 { assert cities[j] == cities[1..][j - 1]; }
        }
      } else {
        forall k | 0 <= k < |cities| ensures !Contains(textLower, Lower(cities[k])) {
          if k > 0 { assert cities[k] == cities[1..][k - 1]; }
        }
      }
    } else if cities != [] {
      assert cities[0] == FirstCity(cities, textLower).value;
    }
  }

  /** `_extract_location`: remote work first, then the first listed city, then
      the country; `None` when nothing is recognised. */
  function LocationOf(text: String): (r: Option<String>)
  {
    var t := Lower(text);
    if ContainsAny(t, RemoteWords) then Some("Remote")
    else match FirstCity(IsraeliCities, t)
      case Some(c) => Some(c)
      case None => if Contains(t, "israel") || Contains(t, "ישראל") then Some("Israel") else None
  }

  /** The priority of `_extract_location`: "Remote" exactly when a remote
      keyword occurs; otherwise the earliest listed city that occurs; otherwise
      "Israel" exactly when the country is named. */
  lemma LocationPriority(text: String)
    ensures LocationOf(text) == Some("Remote") <==> ContainsAny(Lower(text), RemoteWords)
    ensures !ContainsAny(Lower(text), RemoteWords) && FirstCity(IsraeliCities, Lower(text)).Some? ==>
              LocationOf(text) == FirstCity(IsraeliCities, Lower(text))
    ensures !ContainsAny(Lower(text), RemoteWords) && FirstCity(IsraeliCities, Lower(text)).None? ==>
              (LocationOf(text) == Some("Israel") <==> Contains(Lower(text), "israel") || Contains(Lower(text), "ישראל"))
    ensures LocationOf(text).None? <==>
              (!ContainsAny(Lower(text), RemoteWords)
               && (forall k :: 0 <= k < |IsraeliCities| ==> !Contains(Lower(text), Lower(IsraeliCities[k])))
               && !Contains(Lower(text), "israel") && !Contains(Lower(text), "ישראל"))
  {
    var t := Lower(text);
    FirstCityFirst(IsraeliCities, t);
    var c := FirstCity(IsraeliCities, t);
    if c.Some? {
      var k :| 0 <= k < |IsraeliCities| && IsraeliCities[k] == c.value;
      assert c.value != "Remote";
    }
  }

  /** The `_extract_location` scan: the remote check, the loop over the cities
      with an early return, then the country check. */
  method ExtractLocation(text: String) returns (r: Option<String>)
    ensures r == LocationOf(text)
  {
    var textLower := Lower(text);
    if ContainsAny(textLower, RemoteWords) {
      return Some("Remote");
    }
    var i := 0;
    while i < |IsraeliCities|
      invariant 0 <= i <= |IsraeliCities|
      invariant FirstCity(IsraeliCities, textLower) == FirstCity(IsraeliCities[i..], textLower)
    {
      var city := IsraeliCities[i];
      if Contains(textLower, Lower(city)) {
        return Some(city);
      }
      assert IsraeliCities[i..][1..] == IsraeliCities[i + 1..];
      i := i + 1;
    }
    if Contains(textLower, "israel") || Contains(textLower, "ישראל") {
      return Some("Israel");
    }
    return None;
  }

  // ---------------------------------------------------------------------------
  // Parsing search results
  // ---------------------------------------------------------------------------

  /** One hit of the web search: its "title", "url" and "description" fields. */
  datatype SearchHit = SearchHit(title: JsonText, url: JsonText, description: JsonText)

  const SkipKeywords: seq<String> := [
    "how to hire", "hire developers", "hire python", "salary", "best websites",
    "top sites", "top 12 sites", "freelance", "guide", "tips", "tutorial",
    "course", "job description", "template", "vetted engineers"]

  const SkipTitlePatterns: seq<String> := [
    " jobs in ", " Jobs in ", " job openings", " Job Openings",
    "search results", "Search Results", " positions in ", " Positions in "]

  const SkipUrlPatterns: seq<String> := [
    "linkedin.com/in/", "/profile/", "/resume/", "/cv/", "/jobs?", "/jobs/search",
    "glassdoor.com/Job/"]

  /** The three filters of `_parse_search_results`: a profile or search-page
      URL (compared lower-cased), a job-board title pattern (compared as is), or
      an article keyword in the lower-cased title. */
  predicate Skipped(title: String, url: String) {
    ContainsAny(Lower(url), SkipUrlPatterns)
    || ContainsAny(title, SkipTitlePatterns)
    || ContainsAny(Lower(title), SkipKeywords)
  }

  /** A null field makes the string operations on it raise, and the hit is
      dropped by the loop's exception handler. */
  predicate HasNull(h: SearchHit) {
    h.title.Null? || h.url.Null? || h.description.Null?
  }

  function LocationOrDefault(description: String): (r: String)
    ensures r != []
  {
    match LocationOf(description)
    case Some(l) => if l != [] then l else "Location not specified"
    case None => "Location not specified"
  }

  /** The job built for one hit, or `None` when the hit is dropped. */
  function HitToJob(h: SearchHit): Option<Job> {
    if HasNull(h) then None
    else
      var title := TextOr(h.title, "Unknown Position");
      var url := TextOr(h.url, "");
      var description := TextOr(h.description, "");
      if Skipped(title, url) then None
      else Some(Job(title, ExtractCompany(TextOr(h.title, ""), url), LocationOrDefault(description),
                    description, url, None, BraveSearch))
  }

  /** A hit is dropped exactly when a field is null or a filter applies;
      otherwise its job copies the title (default "Unknown Position"), the URL
      and the description (default ""), and takes the extracted company and
      location. */
  lemma HitToJobFields(h: SearchHit)
    ensures var r := HitToJob(h);
            && (r.None? <==> HasNull(h) || Skipped(TextOr(h.title, "Unknown Position"), TextOr(h.url, "")))
            && (r.Some? ==> (r.value.title == TextOr(h.title, "Unknown Position")
                             && r.value.url == TextOr(h.url, "")
                             && r.value.description == TextOr(h.description, "")
                             && r.value.company == ExtractCompany(TextOr(h.title, ""), TextOr(h.url, ""))
                             && r.value.location == LocationOrDefault(TextOr(h.description, ""))
                             && r.value.source == BraveSearch && r.value.postedDate.None?))
  {
  }

  /** Every job built from a hit passes the record's validation with source
      "brave_search" and no posting date. */
  lemma HitToJobAccepted(h: SearchHit)
    requires HitToJob(h).Some?
    ensures var j := HitToJob(h).value;
            NewJob(j.title, j.company, j.location, j.description, j.url, None, Some("brave_search")) == Success(j)
  {
    var j := HitToJob(h).value;
    HitToJobFields(h);
    SourceAccepted(j);
  }

  lemma SourceAccepted(j: Job)
    requires j.source == BraveSearch && j.postedDate.None?
    ensures NewJob(j.title, j.company, j.location, j.description, j.url, None, Some("brave_search")) == Success(j)
  {
    JobAccepted(j);
    assert SourceName(BraveSearch) == "brave_search";
  }

  /** The jobs for a list of hits: one for each hit that is kept, in order. */
  function ParsedHits(hits: seq<SearchHit>): seq<Job> {
    FilterMap(hits, HitToJob)
  }

  /** Parsing distributes over concatenation: kept hits stay in input order. */
  lemma ParsedHitsAppend(a: seq<SearchHit>, b: seq<SearchHit>)
    ensures ParsedHits(a + b) == ParsedHits(a) + ParsedHits(b)
  {
    FilterMapAppend(a, b, HitToJob);
  }

  /** A single hit gives its job or nothing. */
  lemma ParsedHitsOne(h: SearchHit)
    ensures ParsedHits([h]) == if HitToJob(h).Some? then [HitToJob(h).value] else []
  {
    assert [h][..0] == [];
  }

  /** Every parsed job came from some hit and carries source "brave_search". */
  lemma ParsedHitsOrigin(hits: seq<SearchHit>)
    ensures forall x :: x in ParsedHits(hits) ==>
              x.source == BraveSearch && x.postedDate.None? && exists k :: 0 <= k < |hits| && HitToJob(hits[k]) == Some(x)
  {
    FilterMapOrigin(hits, HitToJob);
    forall x | x in ParsedHits(hits) ensures x.source == BraveSearch && x.postedDate.None? {
      var k :| 0 <= k < |hits| && HitToJob(hits[k]) == Some(x);
      HitToJobFields(hits[k]);
    }
  }

  /** The body of the `_parse_search_results` loop for one hit: `None` where
      the source reaches `continue` or raises. */
  method ParseHit(h: SearchHit) returns (r: Option<Job>)
    ensures r == HitToJob(h)
  {
    if HasNull(h) {
      return None;
    }
    var title := TextOr(h.title, "Unknown Position");
    var url := TextOr(h.url, "");
    var description := TextOr(h.description, "");
    if ContainsAny(Lower(url), SkipUrlPatterns) {
      return None;
    }
    if ContainsAny(title, SkipTitlePatterns) {
      return None;
    }
    if ContainsAny(Lower(title), SkipKeywords) {
      return None;
    }
    var company := ExtractCompany(TextOr(h.title, ""), url);
    var location := ExtractLocation(description);
    var locationText := if location.Some? && location.value != [] then location.value else "Location not specified";
    return Some(Job(title, company, locationText, description, url, None, BraveSearch));
  }

  /** `_parse_search_results`: the loop over the hits, keeping the job of each
      hit that passes the filters. The job title argument is unused by the
      source. */
  method ParseSearchResults(hits: seq<SearchHit>, jobTitle: String) returns (jobs: seq<Job>)
    ensures jobs == ParsedHits(hits)
  {
    jobs := [];
    var i := 0;
    while i < |hits|
      invariant 0 <= i <= |hits|
      invariant jobs == ParsedHits(hits[..i])
    {
      var h := hits[i];
      FilterMapStep(hits, i, HitToJob);
      var job := ParseHit(h);
      if job.Some? {
        jobs := jobs + [job.value];
      }
      i := i + 1;
    }
    assert hits[..|hits|] == hits;
  }

  /** The "glassdoor.com/Job/" pattern is compared with the lower-cased URL, so
      it can never match: its capital 'J' does not survive `lower()`. */
  lemma GlassdoorPatternNeverMatches(url: String)
    ensures !Contains(Lower(url), "glassdoor.com/Job/")
  {
    var t := Lower(url);
    var pat := "glassdoor.com/Job/";
    forall i | 0 <= i <= |t| - |pat| ensures !OccursAt(t, pat, i) {
      assert !IsAsciiUpper(t[i + 14]);
      assert t[i..i + |pat|][14] != pat[14];
    }
  }
}
