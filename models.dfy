/** The record types the agents exchange (`models/models.py`): the CV analysis,
    a job posting, the company insights and a scored match. Pydantic's `Literal`
    fields become enumerations whose values have a fixed spelling; a field with a
    range constraint gets a validity predicate, and building a record from raw
    field values is a `Result` that fails exactly where Pydantic raises. */
module Models {
  import opened Text

  // ---------------------------------------------------------------------------
  // Literal enumerations
  // ---------------------------------------------------------------------------

  datatype ExperienceLevel = Junior | Mid | Senior | Lead

  function LevelName(l: ExperienceLevel): String {
    match l
    case Junior => "Junior"
    case Mid => "Mid"
    case Senior => "Senior"
    case Lead => "Lead"
  }

  /** Pydantic's check of `Literal["Junior", "Mid", "Senior", "Lead"]`. */
  function ParseLevel(s: String): (r: Option<ExperienceLevel>)
    ensures forall l :: r == Some(l) <==> LevelName(l) == s
  {
    if s == "Junior" then Some(Junior)
    else if s == "Mid" then Some(Mid)
    else if s == "Senior" then Some(Senior)
    else if s == "Lead" then Some(Lead)
    else None
  }

  datatype Sentiment = Positive | Neutral | Negative

  function SentimentName(s: Sentiment): String {
    match s
    case Positive => "positive"
    case Neutral => "neutral"
    case Negative => "negative"
  }

  function ParseSentiment(s: String): (r: Option<Sentiment>)
    ensures forall v :: r == Some(v) <==> SentimentName(v) == s
  {
    if s == "positive" then Some(Positive)
    else if s == "neutral" then Some(Neutral)
    else if s == "negative" then Some(Negative)
    else None
  }

  datatype JobSource = LinkedIn | Indeed | Direct | JSearch | BraveSearch | Adzuna | Firecrawl

  function SourceName(s: JobSource): String {
    match s
    case LinkedIn => "linkedin"
    case Indeed => "indeed"
    case Direct => "direct"
    case JSearch => "jsearch"
    case BraveSearch => "brave_search"
    case Adzuna => "adzuna"
    case Firecrawl => "firecrawl"
  }

  function ParseSource(s: String): (r: Option<JobSource>)
    ensures forall v :: r == Some(v) <==> SourceName(v) == s
  {
    if s == "linkedin" then Some(LinkedIn)
    else if s == "indeed" then Some(Indeed)
    else if s == "direct" then Some(Direct)
    else if s == "jsearch" then Some(JSearch)
    else if s == "brave_search" then Some(BraveSearch)
    else if s == "adzuna" then Some(Adzuna)
    else if s == "firecrawl" then Some(Firecrawl)
    else None
  }

  datatype Recommendation = StrongMatch | GoodFit | Consider | Skip

  function RecommendationName(r: Recommendation): String {
    match r
    case StrongMatch => "Strong Match"
    case GoodFit => "Good Fit"
    case Consider => "Consider"
    case Skip => "Skip"
  }

  function ParseRecommendation(s: String): (r: Option<Recommendation>)
    ensures forall v :: r == Some(v) <==> RecommendationName(v) == s
  {
    if s == "Strong Match" then Some(StrongMatch)
    else if s == "Good Fit" then Some(GoodFit)
    else if s == "Consider" then Some(Consider)
    else if s == "Skip" then Some(Skip)
    else None
  }

  /** The field whose value Pydantic refuses. */
  datatype ValidationError = InvalidField(field: String)

  // ---------------------------------------------------------------------------
  // Records
  // ---------------------------------------------------------------------------

  datatype CVAnalysis = CVAnalysis(
    skills: seq<String>,
    experienceLevel: ExperienceLevel,
    yearsOfExperience: int,
    preferredLocations: seq<String>,
    keyAchievements: seq<String>)
  {
    predicate Valid() { 0 <= yearsOfExperience <= 50 }
  }

  /** `CVAnalysis(...)`: a field passed as `None` here is one the caller omitted,
      which takes its default (empty lists, "Mid", 0). */
  function NewCVAnalysis(
    skills: Option<seq<String>>, level: Option<String>, years: Option<int>,
    locations: Option<seq<String>>, achievements: Option<seq<String>>): (r: Result<CVAnalysis, ValidationError>)
    ensures r.Success? <==>
              (level.None? || ParseLevel(level.value).Some?) && (years.None? || 0 <= years.value <= 50)
    ensures r.Success? ==> r.value.Valid()
    ensures r.Success? ==> r.value.experienceLevel == (if level.None? then Mid else ParseLevel(level.value).value)
    ensures r.Success? ==> r.value.yearsOfExperience == (if years.None? then 0 else years.value)
    ensures r.Success? ==> r.value.skills == (if skills.None? then [] else skills.value)
    ensures r.Success? ==> r.value.preferredLocations == (if locations.None? then [] else locations.value)
    ensures r.Success? ==> r.value.keyAchievements == (if achievements.None? then [] else achievements.value)
  {
    var lv := if level.None? then Some(Mid) else ParseLevel(level.value);
    var yr := if years.None? then 0 else years.value;
    if lv.None? then Failure(InvalidField("experience_level"))
    else if !(0 <= yr <= 50) then Failure(InvalidField("years_of_experience"))
    else Success(CVAnalysis(
      if skills.None? then [] else skills.value, lv.value, yr,
      if locations.None? then [] else locations.value,
      if achievements.None? then [] else achievements.value))
  }

  datatype Job = Job(
    title: String,
    company: String,
    location: String,
    description: String,
    url: String,
    postedDate: Option<String>,
    source: JobSource)

  /** `Job(...)`: `posted_date` defaults to `None` and `source` to "direct". */
  function NewJob(
    title: String, company: String, location: String, description: String, url: String,
    postedDate: Option<String>, source: Option<String>): (r: Result<Job, ValidationError>)
    ensures r.Success? <==> source.None? || ParseSource(source.value).Some?
    ensures r.Success? ==> (r.value.title == title && r.value.company == company
                            && r.value.location == location && r.value.description == description
                            && r.value.url == url && r.value.postedDate == postedDate)
    ensures r.Success? ==> SourceName(r.value.source) == if source.None? then "direct" else source.value
  {
    var src := if source.None? then Some(Direct) else ParseSource(source.value);
    if src.None? then Failure(InvalidField("source"))
    else Success(Job(title, company, location, description, url, postedDate, src.value))
  }

  /** A job record passes validation when rebuilt from its own fields with its
      source spelled as the tag. */
  lemma JobAccepted(j: Job)
    ensures NewJob(j.title, j.company, j.location, j.description, j.url, j.postedDate, Some(SourceName(j.source))) == Success(j)
  {
    assert ParseSource(SourceName(j.source)) == Some(j.source);
  }

  datatype CompanyInsights = CompanyInsights(
    companyName: String,
    redditSentiment: Sentiment,
    redditHighlights: seq<String>,
    recentNews: seq<String>,
    cultureNotes: seq<String>,
    dataSource: String,
    aiSummary: Option<String>)

  /** `CompanyInsights(company_name=name, reddit_sentiment=sentiment)`, every other
      field at its default. */
  function NewCompanyInsights(name: String, sentiment: Option<String>): (r: Result<CompanyInsights, ValidationError>)
    ensures r.Success? <==> sentiment.None? || ParseSentiment(sentiment.value).Some?
    ensures r.Success? ==> r.value.companyName == name
    ensures r.Success? ==> SentimentName(r.value.redditSentiment) == if sentiment.None? then "neutral" else sentiment.value
    ensures r.Success? ==> r.value.redditHighlights == [] && r.value.recentNews == [] && r.value.cultureNotes == []
    ensures r.Success? ==> r.value.dataSource == "multiple" && r.value.aiSummary.None?
  {
    var s := if sentiment.None? then Some(Neutral) else ParseSentiment(sentiment.value);
    if s.None? then Failure(InvalidField("reddit_sentiment"))
    else Success(CompanyInsights(name, s.value, [], [], [], "multiple", None))
  }

  datatype JobMatch = JobMatch(
    job: Job,
    companyInsights: CompanyInsights,
    matchScore: real,
    skillOverlap: seq<String>,
    skillGaps: seq<String>,
    recommendation: Recommendation,
    reasoning: seq<String>)
  {
    predicate Valid() { 0.0 <= matchScore <= 100.0 }
  }

  /** `JobMatch(...)`: the lists default to empty and the recommendation to
      "Consider"; a score outside [0, 100] is refused. */
  function NewJobMatch(
    job: Job, insights: CompanyInsights, score: real, overlap: Option<seq<String>>,
    gaps: Option<seq<String>>, recommendation: Option<String>, reasoning: Option<seq<String>>): (r: Result<JobMatch, ValidationError>)
    ensures r.Success? <==> 0.0 <= score <= 100.0 && (recommendation.None? || ParseRecommendation(recommendation.value).Some?)
    ensures r.Success? ==> (r.value.Valid() && r.value.job == job && r.value.companyInsights == insights
                            && r.value.matchScore == score)
    ensures r.Success? ==> RecommendationName(r.value.recommendation) ==
                             if recommendation.None? then "Consider" else recommendation.value
    ensures r.Success? ==> (r.value.skillOverlap == (if overlap.None? then [] else overlap.value)
                            && r.value.skillGaps == (if gaps.None? then [] else gaps.value)
                            && r.value.reasoning == (if reasoning.None? then [] else reasoning.value))
  {
    var rec := if recommendation.None? then Some(Consider) else ParseRecommendation(recommendation.value);
    if !(0.0 <= score <= 100.0) then Failure(InvalidField("match_score"))
    else if rec.None? then Failure(InvalidField("recommendation"))
    else Success(JobMatch(job, insights, score,
      if overlap.None? then [] else overlap.value,
      if gaps.None? then [] else gaps.value, rec.value,
      if reasoning.None? then [] else reasoning.value))
  }

  /** An unknown experience level such as "Expert" is refused. */
  lemma ExpertLevelRejected(skills: seq<String>, years: int)
    ensures NewCVAnalysis(Some(skills), Some("Expert"), Some(years), None, None).Failure?
  {
    assert ParseLevel("Expert") == None;
  }

  /** A match score of 150 is refused. */
  lemma ScoreAboveHundredRejected(job: Job, insights: CompanyInsights)
    ensures NewJobMatch(job, insights, 150.0, None, None, None, None).Failure?
  {
  }
}
