/** The JSearch job scraper (`agents/job_scraper.py`): the API-key check, the
    built-in mock jobs, the conversion of JSearch records into jobs, and the
    three search strategies tried in turn. An HTTP GET is a function parameter
    from the query to the response. */
module JobScraper {
  import opened Text
  import opened Models
  import opened Lists

  // ---------------------------------------------------------------------------
  // Configuration
  // ---------------------------------------------------------------------------

  datatype Config = Config(apiKey: String, apiHost: String)

  datatype ConfigError = MissingApiKey

  const DefaultHost: String := "jsearch.p.rapidapi.com"

  /** `JobScraper()`: `JSEARCH_API_KEY` must be set and non-empty;
      `RAPIDAPI_HOST` defaults to the JSearch host. */
  function NewJobScraper(apiKey: Option<String>, apiHost: Option<String>): (r: Result<Config, ConfigError>)
    ensures r.Success? <==> Given(apiKey)
    ensures r.Failure? ==> r.error == MissingApiKey
    ensures r.Success? ==> r.value.apiKey == apiKey.value
    ensures r.Success? ==> r.value.apiHost == if apiHost.Some? then apiHost.value else DefaultHost
  {
    if !Given(apiKey) then Failure(MissingApiKey)
    else Success(Config(apiKey.value, if apiHost.Some? then apiHost.value else DefaultHost))
  }

  // ---------------------------------------------------------------------------
  // Mock jobs
  // ---------------------------------------------------------------------------

  /** One entry of the mock data; every entry has a posting date and a source. */
  datatype MockRecord = MockRecord(
    title: String, company: String, location: String, description: String,
    url: String, postedDate: String, source: JobSource)

  /** The indentation of the lines of a mock description. */
  const Indent: String := "                "

  /** A mock description as the triple-quoted literal lays it out: a newline,
      then each line indented (a blank line stays empty) and ended by a
      newline, and last the indentation before the closing quotes. */
  function Block(lines: seq<String>): String {
    if lines == [] then Indent
    else (if lines[0] == [] then [] else Indent + lines[0]) + "\n" + Block(lines[1..])
  }

  // Long literals are costly for the verifier, so the longer texts below are
  // concatenations of pieces cut at word boundaries.

  function MockDescription1(): String {
    "\n" + Block([
      "We're looking " + "for a Senior " + "Python " + "Developer to " + "join our " + "backend team.",
      "",
      "Requirements:",
      "- 5+ years of " + "Python " + "experience",
      "- Strong " + "knowledge of " + "Django/FastAPI",
      "- Experience " + "with " + "PostgreSQL, " + "Redis",
      "- Docker, " + "Kubernetes " + "experience",
      "- AWS/GCP " + "knowledge",
      "",
      "Nice to have:",
      "- Microservices " + "architecture",
      "- Event-driven " + "systems",
      "- LLM " + "integration " + "experience"])
  }

  function MockDescription2(): String {
    "\n" + Block([
      "Join our " + "fast-growing " + "startup as a " + "Backend " + "Engineer!",
      "",
      "Requirements:",
      "- 3+ years " + "Python " + "experience",
      "- REST API " + "design",
      "- SQL databases",
      "- Git, CI/CD",
      "",
      "We offer:",
      "- Remote work",
      "- Equity",
      "- Learning " + "budget"])
  }

  function MockDescription3(): String {
    "\n" + Block([
      "Looking for a " + "Full Stack " + "Developer with " + "Python and " + "Vue.js " + "experience.",
      "",
      "Requirements:",
      "- Python " + "(Flask/FastAPI)",
      "- Vue.js 3",
      "- PostgreSQL",
      "- Docker",
      "",
      "Bonus:",
      "- Data " + "visualization",
      "- ML/AI " + "experience"])
  }

  function MockDescription4(): String {
    "\n" + Block([
      "Great " + "opportunity for " + "junior " + "developers!",
      "",
      "Requirements:",
      "- 1-2 years " + "Python " + "experience",
      "- Understanding " + "of OOP",
      "- Basic SQL " + "knowledge",
      "- Willingness " + "to learn",
      "",
      "We'll teach you:",
      "- Modern Python " + "frameworks",
      "- Cloud " + "technologies",
      "- DevOps " + "practices"])
  }

  function MockDescription5(): String {
    "\n" + Block([
      "Build the " + "future of AI " + "with us!",
      "",
      "Requirements:",
      "- Strong Python " + "skills",
      "- LangChain, " + "OpenAI API " + "experience",
      "- Vector " + "databases " + "(Pinecone, " + "Weaviate)",
      "- REST APIs",
      "",
      "Exciting work:",
      "- LLM " + "applications",
      "- Multi-agent " + "systems",
      "- RAG " + "implementations"])
  }

  function MockDescription6(): String {
    "\n" + Block([
      "DevOps role " + "with strong " + "Python " + "automation " + "focus.",
      "",
      "Requirements:",
      "- Python " + "scripting",
      "- Docker, " + "Kubernetes",
      "- AWS/Azure/GCP",
      "- CI/CD " + "(Jenkins, " + "GitLab)",
      "- Terraform, " + "Ansible",
      "",
      "You'll work on:",
      "- " + "Infrastructure " + "automation",
      "- Monitoring " + "systems",
      "- Deployment " + "pipelines"])
  }

  function MockEntry1(): MockRecord {
    MockRecord("Senior Python Developer", "TechCorp Israel",
      "Tel Aviv, Israel", MockDescription1(),
      "https://example.com" + "/jobs/senior-python-dev-1", "2025-10-18", LinkedIn)
  }

  function MockEntry2(): MockRecord {
    MockRecord("Python Backend Engineer", "StartupXYZ",
      "Remote (Israel)", MockDescription2(),
      "https://example.com" + "/jobs/python-backend-2", "2025-10-19", Indeed)
  }

  function MockEntry3(): MockRecord {
    MockRecord("Full Stack " + "Developer " + "(Python + " + "Vue.js)", "DataScience Ltd",
      "Herzliya, Israel", MockDescription3(),
      "https://example.com" + "/jobs/fullstack-vue-3", "2025-10-17", Direct)
  }

  function MockEntry4(): MockRecord {
    MockRecord("Junior Python Developer", "FinTech Solutions",
      "Tel Aviv, Israel", MockDescription4(),
      "https://example.com" + "/jobs/junior-python-4", "2025-10-20", LinkedIn)
  }

  function MockEntry5(): MockRecord {
    MockRecord("Python AI/ML Engineer", "AI Innovations",
      "Remote", MockDescription5(),
      "https://example.com" + "/jobs/ai-ml-engineer-5", "2025-10-21", Direct)
  }

  function MockEntry6(): MockRecord {
    MockRecord("DevOps Engineer (Python)", "CloudTech",
      "Raanana, Israel", MockDescription6(),
      "https://example.com" + "/jobs/devops-python-6", "2025-10-16", Indeed)
  }

  /** The six mock postings, in order. */
  function MockJobsData(): (r: seq<MockRecord>)
    ensures |r| == 6
  {
    [MockEntry1(), MockEntry2(), MockEntry3(), MockEntry4(), MockEntry5(), MockEntry6()]
  }

  /** The job of a mock entry: its fields, with the description stripped. */
  function MockJob(d: MockRecord): Job {
    Job(d.title, d.company, d.location, Strip(d.description), d.url, Some(d.postedDate), d.source)
  }

  /** The location filter keeps an entry when no location is given or the
      lower-cased location occurs in the entry's lower-cased location. */
  predicate LocationFilterKeeps(location: Option<String>, place: String) {
    !Given(location) || Contains(Lower(place), Lower(location.value))
  }

  /** The job of a mock entry if the location filter keeps it. */
  function KeepMock(location: Option<String>, d: MockRecord): Option<Job> {
    if LocationFilterKeeps(location, d.location) then Some(MockJob(d)) else None
  }

  function MockFilter(location: Option<String>): MockRecord -> Option<Job> {
    d => KeepMock(location, d)
  }

  /** `_get_mock_jobs` on a table `data`: the first `numJobs` entries, then
      the location filter. */
  function MockJobsFrom(data: seq<MockRecord>, location: Option<String>, numJobs: int): seq<Job> {
    FilterMap(Prefix(data, numJobs), MockFilter(location))
  }

  /** `_get_mock_jobs` on the mock table. */
  function MockJobs(location: Option<String>, numJobs: int): seq<Job> {
    MockJobsFrom(MockJobsData(), location, numJobs)
  }

  /** The entries are cut to `numJobs` before filtering, so no more than
      `numJobs` jobs come back, and none for `numJobs <= 0` on short tables. */
  lemma MockJobsFromBound(data: seq<MockRecord>, location: Option<String>, numJobs: int)
    ensures |MockJobsFrom(data, location, numJobs)| <= |Prefix(data, numJobs)|
    ensures numJobs >= 0 ==> |MockJobsFrom(data, location, numJobs)| <= Min(numJobs, |data|)
    ensures numJobs == 0 ==> MockJobsFrom(data, location, numJobs) == []
  {
    assert numJobs == 0 ==> Prefix(data, numJobs) == [];
  }

  /** On the six mock entries at most `min(numJobs, 6)` jobs come back. */
  lemma MockJobsBound(location: Option<String>, numJobs: int)
    ensures numJobs >= 0 ==> |MockJobs(location, numJobs)| <= Min(numJobs, 6)
    ensures numJobs == 0 ==> MockJobs(location, numJobs) == []
  {
    MockJobsFromBound(MockJobsData(), location, numJobs);
  }

  /** Every job returned is the job of an entry within the first `numJobs`,
      and its lower-cased location contains the lower-cased filter. */
  lemma MockJobsMatchLocation(data: seq<MockRecord>, location: Option<String>, numJobs: int)
    ensures forall j :: j in MockJobsFrom(data, location, numJobs) ==>
              (exists k :: 0 <= k < |Prefix(data, numJobs)| && j == MockJob(data[k]))
              && (Given(location) ==> Contains(Lower(j.location), Lower(location.value)))
  {
    var pre := Prefix(data, numJobs);
    FilterMapOrigin(pre, MockFilter(location));
    forall j | j in MockJobsFrom(data, location, numJobs)
      ensures (exists k :: 0 <= k < |pre| && j == MockJob(data[k]))
              && (Given(location) ==> Contains(Lower(j.location), Lower(location.value)))
    {
      var k :| 0 <= k < |pre| && MockFilter(location)(pre[k]) == Some(j);
      assert pre[k] == data[k];
    }
  }

  /** Without a location every one of the first `numJobs` entries gives its
      job, in order. */
  lemma MockJobsUnfiltered(data: seq<MockRecord>, location: Option<String>, numJobs: int)
    requires !Given(location)
    ensures |MockJobsFrom(data, location, numJobs)| == |Prefix(data, numJobs)|
    ensures forall k :: 0 <= k < |MockJobsFrom(data, location, numJobs)| ==>
              MockJobsFrom(data, location, numJobs)[k] == MockJob(data[k])
  {
    var pre := Prefix(data, numJobs);
    FilterMapAll(pre, MockFilter(location));
    forall k | 0 <= k < |pre| ensures pre[k] == data[k] { }
  }

  /** A mock job passes the record's validation with its entry's fields. */
  lemma MockJobAccepted(d: MockRecord)
    ensures NewJob(d.title, d.company, d.location, Strip(d.description), d.url, Some(d.postedDate),
                   Some(SourceName(d.source))) == Success(MockJob(d))
  {
    JobAccepted(MockJob(d));
  }

  /** The loop of `_get_mock_jobs` over the first `numJobs` entries of `data`,
      skipping those the location filter drops. */
  method FilterMockJobs(data: seq<MockRecord>, location: Option<String>, numJobs: int) returns (jobs: seq<Job>)
    ensures jobs == MockJobsFrom(data, location, numJobs)
  {
    jobs := FilterEach(Prefix(data, numJobs), MockFilter(location));
  }

  /** `_get_mock_jobs`. */
  method GetMockJobs(location: Option<String>, numJobs: int) returns (jobs: seq<Job>)
    ensures jobs == MockJobs(location, numJobs)
  {
    jobs := FilterMockJobs(MockJobsData(), location, numJobs);
  }

  // ---------------------------------------------------------------------------
  // JSearch records
  // ---------------------------------------------------------------------------

  /** The fields of one JSearch record that the conversion reads;
      `job_is_remote` is given by its truthiness. */
  datatype JSearchRecord = JSearchRecord(
    jobTitle: JsonText, employerName: JsonText, jobDescription: JsonText,
    jobApplyLink: JsonText, postedAt: JsonText,
    city: JsonText, country: JsonText, state: JsonText, isRemote: bool)

  /** The location of a record: "city, country", else "city, state", else the
      country, else "Remote" for a remote job, else "Not specified". */
  function RecordLocation(rec: JSearchRecord): String {
    if Truthy(rec.city) && Truthy(rec.country) then rec.city.str + ", " + rec.country.str
    else if Truthy(rec.city) && Truthy(rec.state) then rec.city.str + ", " + rec.state.str
    else if Truthy(rec.country) then rec.country.str
    else if rec.isRemote then "Remote"
    else "Not specified"
  }

  /** A country, when given, always ends the location; a city is used only
      with a country or a state, and then leads; the state is used only
      without a country; the remote flag matters only when neither a country
      nor a city with a state is given. The location is never empty. */
  lemma RecordLocationParts(rec: JSearchRecord)
    ensures var r := RecordLocation(rec);
            && r != []
            && (Truthy(rec.country) ==> |rec.country.str| <= |r| && r[|r| - |rec.country.str|..] == rec.country.str)
            && (Truthy(rec.city) && (Truthy(rec.country) || Truthy(rec.state)) ==> IsPrefix(rec.city.str + ", ", r))
            && (!Truthy(rec.city) ==> r == if Truthy(rec.country) then rec.country.str else RemoteOrUnknown(rec.isRemote))
            && (!Truthy(rec.country) && !(Truthy(rec.city) && Truthy(rec.state)) ==> r == RemoteOrUnknown(rec.isRemote))
  {
    var r := RecordLocation(rec);
    if Truthy(rec.city) && Truthy(rec.country) {
      var p := rec.city.str + ", ";
      assert r == p + rec.country.str;
      assert r[..|p|] == p;
      assert r[|r| - |rec.country.str|..] == rec.country.str;
    } else if Truthy(rec.city) && Truthy(rec.state) {
      var p := rec.city.str + ", ";
      assert r == p + rec.state.str;
      assert r[..|p|] == p;
    }
  }

  function RemoteOrUnknown(isRemote: bool): String {
    if isRemote then "Remote" else "Not specified"
  }

  /** The job of a record; `None` where the record's validation raises: a
      title, employer, description or link present as `null`. */
  function RecordToJob(rec: JSearchRecord): Option<Job> {
    if rec.jobTitle.Null? || rec.employerName.Null? || rec.jobDescription.Null? || rec.jobApplyLink.Null? then None
    else Some(Job(TextOr(rec.jobTitle, "Unknown"), TextOr(rec.employerName, "Unknown"), RecordLocation(rec),
                  TextOr(rec.jobDescription, "No description available"), TextOr(rec.jobApplyLink, ""),
                  if rec.postedAt.Text? then Some(rec.postedAt.str) else None, JSearch))
  }

  /** The job of a record keeps its fields or their defaults, carries source
      "jsearch" and passes the record's validation. */
  lemma RecordToJobFields(rec: JSearchRecord)
    ensures RecordToJob(rec).None? <==>
              rec.jobTitle.Null? || rec.employerName.Null? || rec.jobDescription.Null? || rec.jobApplyLink.Null?
    ensures RecordToJob(rec).Some? ==>
              var j := RecordToJob(rec).value;
              && j.title == TextOr(rec.jobTitle, "Unknown")
              && j.company == TextOr(rec.employerName, "Unknown")
              && j.location == RecordLocation(rec)
              && j.description == TextOr(rec.jobDescription, "No description available")
              && j.url == TextOr(rec.jobApplyLink, "")
              && (j.postedDate.Some? <==> rec.postedAt.Text?)
              && j.source == JSearch
              && NewJob(j.title, j.company, j.location, j.description, j.url, j.postedDate, Some("jsearch")) == Success(j)
  {
    var r := RecordToJob(rec);
    if r.Some? {
      JobAccepted(r.value);
    }
  }

  datatype SearchError = ApiError(status: int) | InvalidRecord

  /** `_convert_to_jobs`: the jobs of the first `numJobs` records; a record
      that raises makes the whole conversion raise. */
  function Converted(records: seq<JSearchRecord>, numJobs: int): Result<seq<Job>, SearchError> {
    match CollectAll(Prefix(records, numJobs), RecordToJob)
    case None => Failure(InvalidRecord)
    case Some(jobs) => Success(jobs)
  }

  /** The conversion succeeds exactly when none of the first `numJobs` records
      raises, and then gives one job per record, in order. */
  lemma ConvertedSpec(records: seq<JSearchRecord>, numJobs: int)
    ensures Converted(records, numJobs).Success? <==>
              forall k :: 0 <= k < |Prefix(records, numJobs)| ==> RecordToJob(records[k]).Some?
    ensures Converted(records, numJobs).Success? ==>
              var jobs := Converted(records, numJobs).value;
              && |jobs| == |Prefix(records, numJobs)|
              && (numJobs >= 0 ==> |jobs| == Min(numJobs, |records|))
              && forall k :: 0 <= k < |jobs| ==> jobs[k] == RecordToJob(records[k]).value
  {
    var xs := Prefix(records, numJobs);
    CollectAllSpec(xs, RecordToJob);
    assert forall k :: 0 <= k < |xs| ==> xs[k] == records[k];
  }

  /** `_convert_to_jobs`. */
  method ConvertToJobs(records: seq<JSearchRecord>, numJobs: int) returns (r: Result<seq<Job>, SearchError>)
    ensures r == Converted(records, numJobs)
  {
    var jobs := CollectEach(Prefix(records, numJobs), RecordToJob);
    if jobs.None? {
      return Failure(InvalidRecord);
    }
    return Success(jobs.value);
  }

  // ---------------------------------------------------------------------------
  // Search strategies
  // ---------------------------------------------------------------------------

  /** The request parameters that vary between strategies. */
  datatype Query = Query(query: String, remoteOnly: bool)

  /** A response: its status code and its `data` list (`[]` when missing). */
  datatype Response = Response(status: int, data: seq<JSearchRecord>)

  /** "{title} in {location}". */
  function Strategy1(jobTitle: String, location: String): Query {
    Query(jobTitle + " in " + location, false)
  }

  /** "{title} remote", remote jobs only. */
  function Strategy2(jobTitle: String): Query {
    Query(jobTitle + " remote", true)
  }

  /** The title alone. */
  function Strategy3(jobTitle: String): Query {
    Query(jobTitle, false)
  }

  /** The remote strategy runs for a given location that is not, lower-cased,
      "remote" or "worldwide". */
  predicate TriesRemote(location: Option<String>) {
    Given(location) && Lower(location.value) != "remote" && Lower(location.value) != "worldwide"
  }

  /** The strategies in the order they are tried. */
  function Plan(jobTitle: String, location: Option<String>): seq<Query> {
    (if Given(location) then [Strategy1(jobTitle, location.value)] else [])
    + (if TriesRemote(location) then [Strategy2(jobTitle)] else [])
    + [Strategy3(jobTitle)]
  }

  /** Strategy 1 comes first and only with a location, strategy 2 only when
      the location is not a remote one, and strategy 3 always comes last. */
  lemma PlanOrder(jobTitle: String, location: Option<String>)
    ensures var p := Plan(jobTitle, location);
            && |p| == 1 + (if Given(location) then 1 else 0) + (if TriesRemote(location) then 1 else 0)
            && (Given(location) ==> p[0] == Strategy1(jobTitle, location.value))
            && (!Given(location) ==> p == [Strategy3(jobTitle)])
            && (Strategy2(jobTitle) in p <==> TriesRemote(location))
            && Last(p) == Strategy3(jobTitle)
            && (TriesRemote(location) ==> Given(location))
  {
  }

  /** A response that ends the search early: status 200 and some data. */
  predicate Accepted(resp: Response) {
    resp.status == 200 && resp.data != []
  }

  /** `_search_jsearch_api`: the strategies of `Plan` are requested in order
      until one is accepted; the last one is used whatever its data, and only
      its failure status raises. `sent` lists the requests made. */
  method SearchApi(jobTitle: String, location: Option<String>, numJobs: int, get: Query -> Response)
    returns (r: Result<seq<Job>, SearchError>, sent: seq<Query>)
    ensures sent != [] && IsPrefix(sent, Plan(jobTitle, location))
    ensures forall k :: 0 <= k < |sent| - 1 ==> !Accepted(get(sent[k]))
    ensures |sent| < |Plan(jobTitle, location)| ==> Accepted(get(Last(sent)))
    ensures var resp := get(Last(sent));
            r == if resp.status != 200 then Failure(ApiError(resp.status)) else Converted(resp.data, numJobs)
    ensures r.Failure? && r.error.ApiError? ==> sent == Plan(jobTitle, location)
  {
    var plan := Plan(jobTitle, location);
    sent := [];
    if Given(location) {
      var q1 := Strategy1(jobTitle, location.value);
      sent := [q1];
      var resp := get(q1);
      if resp.status == 200 && resp.data != [] {
        r := ConvertToJobs(resp.data, numJobs);
        return;
      }
      if Lower(location.value) != "remote" && Lower(location.value) != "worldwide" {
        var q2 := Strategy2(jobTitle);
        sent := sent + [q2];
        resp := get(q2);
        if resp.status == 200 && resp.data != [] {
          r := ConvertToJobs(resp.data, numJobs);
          return;
        }
      }
    }
    var q3 := Strategy3(jobTitle);
    sent := sent + [q3];
    assert sent == plan;
    var resp := get(q3);
    if resp.status != 200 {
      return Failure(ApiError(resp.status)), sent;
    }
    r := ConvertToJobs(resp.data, numJobs);
  }
}
