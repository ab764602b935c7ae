/** The news and forum agent (`agents/news_agent.py`): the Reddit credential
    check, the built-in mock insights, and the keyword heuristics that turn
    Reddit posts about a company into highlights, a sentiment and culture
    notes. The Reddit client is a parameter: whether it connects, and the posts
    each subreddit search delivers. */
module NewsAgent {
  import opened Text
  import opened Models
  import opened Lists

  // ---------------------------------------------------------------------------
  // Configuration
  // ---------------------------------------------------------------------------

  datatype Credentials = Credentials(clientId: String, clientSecret: String, userAgent: Option<String>)

  datatype AgentError = MissingCredentials | ConnectionFailed

  /** `NewsAgent()`: the client id and secret must both be set and non-empty;
      the user agent is taken as it is. */
  function NewNewsAgent(clientId: Option<String>, clientSecret: Option<String>, userAgent: Option<String>)
    : (r: Result<Credentials, AgentError>)
    ensures r.Success? <==> Given(clientId) && Given(clientSecret)
    ensures r.Failure? ==> r.error == MissingCredentials
    ensures r.Success? ==> r.value == Credentials(clientId.value, clientSecret.value, userAgent)
  {
    if !Given(clientId) || !Given(clientSecret) then Failure(MissingCredentials)
    else Success(Credentials(clientId.value, clientSecret.value, userAgent))
  }

  // ---------------------------------------------------------------------------
  // Mock insights
  // ---------------------------------------------------------------------------

  /** The mock facts about one company. */
  datatype MockInsight = MockInsight(
    sentiment: Sentiment, highlights: seq<String>, news: seq<String>, culture: seq<String>)

  // Long literals are costly for the verifier, so the longer texts below are
  // concatenations of pieces cut at word boundaries.

  function MockTechCorpIsrael(): MockInsight {
    MockInsight(Positive,
      [
        "Great work-life " + "balance, " + "flexible hours",
        "Modern tech " + "stack (Python, " + "Docker, K8s)",
        "Generous " + "learning budget " + "and conference " + "tickets",
        "Collaborative " + "team culture",
        "Good salary but " + "could be better"],
      [
        "TechCorp raises " + "$50M Series B " + "funding (Oct " + "2025)",
        "Launched new " + "AI-powered " + "platform",
        "Expanded Tel " + "Aviv office, " + "hiring 50+ " + "engineers"],
      [
        "Remote-first " + "company",
        "Strong focus on " + "personal growth",
        "Regular team " + "events and " + "hackathons"])
  }

  function MockStartupXYZ(): MockInsight {
    MockInsight(Positive,
      [
        "Fast-paced " + "startup " + "environment",
        "Equity for all " + "employees",
        "Fully remote " + "team",
        "Small team, " + "lots of " + "responsibility",
        "Some reports of " + "long hours " + "during crunch"],
      [
        "Closed seed " + "round of $5M " + "(Sep 2025)",
        "First product " + "launch " + "scheduled for " + "Q1 2026"],
      [
        "Startup culture " + "- move fast, " + "break things",
        "Direct " + "communication, " + "flat hierarchy"])
  }

  function MockDataScienceLtd(): MockInsight {
    MockInsight(Neutral,
      [
        "Interesting " + "data projects",
        "Good mentorship " + "for junior " + "developers",
        "Office in " + "Herzliya with " + "hybrid work",
        "Some " + "bureaucracy " + "typical of " + "mid-size company",
        "Competitive " + "salary for " + "market"],
      [
        "DataScience Ltd " + "partners with " + "major bank",
        "Published " + "research paper " + "at NeurIPS 2025"],
      [
        "Academic " + "research culture",
        "Focus on " + "publishing and " + "conferences"])
  }

  function MockFinTechSolutions(): MockInsight {
    MockInsight(Positive,
      [
        "Very stable " + "company, good " + "for juniors",
        "Structured " + "onboarding and " + "training",
        "Regulated " + "industry, " + "thorough " + "processes",
        "Less " + "cutting-edge " + "tech than " + "startups",
        "Great benefits " + "package"],
      [
        "FinTech Solutions " + "achieves SOC 2 " + "compliance",
        "Expanding to " + "European market"],
      [
        "Professional " + "corporate " + "environment",
        "Strong emphasis " + "on security and " + "compliance"])
  }

  function MockAIInnovations(): MockInsight {
    MockInsight(Positive,
      [
        "Cutting-edge " + "AI/ML work",
        "Work with " + "latest LLM " + "technologies",
        "Fully remote, " + "global team",
        "Fast-growing " + "company, lots " + "of opportunities",
        "Competitive " + "compensation + " + "equity"],
      [
        "AI Innovations " + "launches " + "GPT-powered " + "product",
        "Featured in " + "TechCrunch for " + "innovative " + "multi-agent " + "system",
        "Hiring spree - " + "30 engineers in " + "6 months"],
      [
        "Research-driven " + "culture",
        "Encourages " + "experimentation " + "and innovation",
        "Regular AI/ML " + "paper reading " + "groups"])
  }

  function MockCloudTech(): MockInsight {
    MockInsight(Neutral,
      [
        "Solid DevOps " + "practices and " + "infrastructure",
        "Good learning " + "environment for " + "cloud " + "technologies",
        "On-call " + "rotation can be " + "demanding",
        "Mature company " + "with " + "established " + "processes",
        "Decent " + "compensation"],
      [
        "CloudTech " + "migrates to " + "multi-cloud " + "architecture",
        "Achieved 99.99% " + "uptime last " + "quarter"],
      [
        "DevOps culture " + "with strong " + "automation focus",
        "24/7 operations " + "with rotating " + "on-call"])
  }

  /** The companies of the mock data. */
  const MockCompanies: set<String> :=
    {"TechCorp Israel", "StartupXYZ", "DataScience Ltd", "FinTech Solutions", "AI Innovations", "CloudTech"}

  /** The mock facts of a listed company. */
  function MockEntry(company: String): MockInsight
    requires company in MockCompanies
  {
    if company == "TechCorp Israel" then MockTechCorpIsrael()
    else if company == "StartupXYZ" then MockStartupXYZ()
    else if company == "DataScience Ltd" then MockDataScienceLtd()
    else if company == "FinTech Solutions" then MockFinTechSolutions()
    else if company == "AI Innovations" then MockAIInnovations()
    else MockCloudTech()
  }

  /** The companies of the mock data and their insights. */
  function MockTable(): map<String, MockInsight> {
    map company | company in MockCompanies :: MockEntry(company)
  }

  /** The facts used for a company missing from the table. */
  function DefaultInsight(company: String): MockInsight {
    MockInsight(Neutral,
      ["Limited public information about " + company,
       "Company appears to be well-established",
       "No major red flags found"],
      [company + " is actively hiring"],
      ["General software company culture"])
  }

  /** `_get_mock_insights` over a table: the company's entry, or the default
      one, as insights with data source "mock_data". */
  function InsightsFrom(table: map<String, MockInsight>, company: String): CompanyInsights {
    var m := if company in table then table[company] else DefaultInsight(company);
    CompanyInsights(company, m.sentiment, m.highlights, m.news, m.culture, "mock_data", None)
  }

  /** `_get_mock_insights`. */
  function MockInsights(company: String): CompanyInsights {
    InsightsFrom(MockTable(), company)
  }

  /** A listed company gets its entry under its own name. */
  lemma InsightsFromKnown(table: map<String, MockInsight>, company: String)
    requires company in table
    ensures var r := InsightsFrom(table, company);
            && r.companyName == company && r.dataSource == "mock_data" && r.aiSummary.None?
            && r.redditSentiment == table[company].sentiment
            && r.redditHighlights == table[company].highlights
            && r.recentNews == table[company].news
            && r.cultureNotes == table[company].culture
  {
  }

  /** Any other company is neutral, its first highlight says that little is
      known about it, and its one news item says that it is hiring. */
  lemma InsightsFromUnknown(table: map<String, MockInsight>, company: String)
    requires company !in table
    ensures var r := InsightsFrom(table, company);
            && r.companyName == company && r.dataSource == "mock_data" && r.aiSummary.None?
            && r.redditSentiment == Neutral
            && |r.redditHighlights| == 3
            && r.redditHighlights[0] == "Limited public information about " + company
            && r.recentNews == [company + " is actively hiring"]
            && r.cultureNotes == ["General software company culture"]
  {
  }

  /** "StartupXYZ" is listed as positive. */
  lemma StartupIsPositive()
    ensures MockInsights("StartupXYZ").redditSentiment == Positive
    ensures MockInsights("StartupXYZ").dataSource == "mock_data"
  {
    assert "StartupXYZ" in MockTable();
  }

  /** A company missing from the mock data, such as "UnknownCompany123",
      gets the neutral default. */
  lemma UnknownCompanyIsDefault(company: String)
    requires company !in MockCompanies
    ensures MockInsights(company).redditSentiment == Neutral
    ensures MockInsights(company).redditHighlights[0] == "Limited public information about " + company
    ensures MockInsights(company).recentNews == [company + " is actively hiring"]
  {
    InsightsFromUnknown(MockTable(), company);
  }

  // ---------------------------------------------------------------------------
  // Reddit posts
  // ---------------------------------------------------------------------------

  /** A submission: its title and its body text. */
  datatype Post = Post(title: String, selftext: String)

  const Subreddits: seq<String> := ["cscareerquestions", "experienceddevs", "programming", "jobs"]

  const PositiveWords: seq<String> := ["great", "love", "amazing", "best", "excellent", "good", "happy", "enjoy"]

  const NegativeWords: seq<String> := ["bad", "terrible", "worst", "avoid", "horrible", "toxic", "hate", "quit"]

  const CultureWords: seq<String> := ["culture", "work-life", "remote", "benefits"]

  /** The text of a post: the title, then " - " and the first 100 characters
      of the body when the body is non-empty. */
  function PostText(p: Post): (r: String)
    ensures p.selftext == [] ==> r == p.title
    ensures p.selftext != [] ==> IsPrefix(p.title + " - ", r) && |r| == |p.title| + 3 + Min(|p.selftext|, 100)
  {
    if p.selftext != [] then p.title + " - " + Take(p.selftext, 100) else p.title
  }

  /** How many of `words` occur in `text`, as substrings. */
  function CountPresent(words: seq<String>, text: String): (r: nat)
    ensures r <= |words|
  {
    if words == [] then 0 else (if Contains(text, words[0]) then 1 else 0) + CountPresent(words[1..], text)
  }

  /** A text in which no word occurs counts none. */
  lemma {:induction false} CountPresentNone(words: seq<String>, text: String)
    requires forall k :: 0 <= k < |words| ==> !Contains(text, words[k])
    ensures CountPresent(words, text) == 0
  {
    if words != [] {
      CountPresentNone(words[1..], text);
    }
  }

  /** A text in which every word occurs counts them all. */
  lemma {:induction false} CountPresentAll(words: seq<String>, text: String)
    requires forall k :: 0 <= k < |words| ==> Contains(text, words[k])
    ensures CountPresent(words, text) == |words|
  {
    if words != [] {
      CountPresentAll(words[1..], text);
    }
  }

  /** The keyword score of a lower-cased text: +1 when more positive than
      negative words occur, -1 when fewer, 0 on a tie. */
  function KeywordScore(textLower: String): (r: int)
    ensures -1 <= r <= 1
    ensures r == 1 <==> CountPresent(PositiveWords, textLower) > CountPresent(NegativeWords, textLower)
    ensures r == -1 <==> CountPresent(PositiveWords, textLower) < CountPresent(NegativeWords, textLower)
  {
    var positive := CountPresent(PositiveWords, textLower);
    var negative := CountPresent(NegativeWords, textLower);
    if positive > negative then 1 else if negative > positive then -1 else 0
  }

  /** A text without any keyword scores 0. */
  lemma NoKeywordScoresZero(textLower: String)
    requires forall k :: 0 <= k < |PositiveWords| ==> !Contains(textLower, PositiveWords[k])
    requires forall k :: 0 <= k < |NegativeWords| ==> !Contains(textLower, NegativeWords[k])
    ensures KeywordScore(textLower) == 0
  {
    CountPresentNone(PositiveWords, textLower);
    CountPresentNone(NegativeWords, textLower);
  }

  /** A post is used when its text has at least 20 characters. */
  predicate IsKept(p: Post) {
    |PostText(p)| >= 20
  }

  /** The highlight of a used post: its first 200 characters. */
  function HighlightOf(p: Post): Option<String> {
    if IsKept(p) then Some(Take(PostText(p), 200)) else None
  }

  /** The keyword score of a used post. */
  function ScoreOf(p: Post): Option<int> {
    if IsKept(p) then Some(KeywordScore(Lower(PostText(p)))) else None
  }

  /** The culture note of a used post whose lower-cased text names a culture
      keyword: its first 150 characters. */
  function CultureNoteOf(p: Post): Option<String> {
    if IsKept(p) && ContainsAny(Lower(PostText(p)), CultureWords) then Some(Take(PostText(p), 150)) else None
  }

  /** The posts of the searches, subreddit by subreddit, in order. */
  function PostsFor(subs: seq<String>, company: String, search: (String, String) -> seq<Post>): seq<Post> {
    if subs == [] then [] else PostsFor(subs[..|subs| - 1], company, search) + search(Last(subs), company)
  }

  /** One more subreddit appends its posts. */
  lemma PostsForStep(subs: seq<String>, i: nat, company: String, search: (String, String) -> seq<Post>)
    requires i < |subs|
    ensures PostsFor(subs[..i + 1], company, search) == PostsFor(subs[..i], company, search) + search(subs[i], company)
  {
    assert subs[..i + 1][..i] == subs[..i];
  }

  // ---------------------------------------------------------------------------
  // Overall sentiment
  // ---------------------------------------------------------------------------

  function Sum(xs: seq<int>): int {
    if xs == [] then 0 else Sum(xs[..|xs| - 1]) + Last(xs)
  }

  /** The overall sentiment of the scores, with the mean compared against
      0.2 and -0.2 as `5 * sum` against the count; neutral without scores. */
  function OverallSentiment(scores: seq<int>): Sentiment {
    if scores == [] then Neutral
    else if 5 * Sum(scores) > |scores| then Positive
    else if 5 * Sum(scores) < -|scores| then Negative
    else Neutral
  }

  /** The integer comparison is the comparison of the mean with the
      thresholds: positive exactly when the mean exceeds 0.2, negative exactly
      when it is below -0.2. */
  lemma OverallSentimentIsMean(scores: seq<int>)
    ensures OverallSentiment(scores) == Positive <==>
              scores != [] && (Sum(scores) as real) / (|scores| as real) > 0.2
    ensures OverallSentiment(scores) == Negative <==>
              scores != [] && (Sum(scores) as real) / (|scores| as real) < -0.2
  {
    if scores != [] {
      MeanThresholds(Sum(scores), |scores|);
    }
  }

  /** For a positive count `n`, `5 * t > n` exactly when the mean `t / n`
      exceeds 0.2, and `5 * t < -n` exactly when it is below -0.2. */
  lemma MeanThresholds(t: int, n: int)
    requires n > 0
    ensures 5 * t > n <==> (t as real) / (n as real) > 0.2
    ensures 5 * t < -n <==> (t as real) / (n as real) < -0.2
  {
    var m := (t as real) / (n as real);
    MeanSide(t as real, n as real, m, 0.2);
    MeanSide(t as real, n as real, m, -0.2);
  }

  /** Against a positive count, a mean lies above or below a threshold `c`
      exactly when the total lies above or below `c` times the count. */
  lemma MeanSide(s: real, n: real, m: real, c: real)
    requires n > 0.0 && m == s / n
    ensures m > c <==> s > c * n
    ensures m < c <==> s < c * n
  {
    var d := m - c;
    assert s - c * n == d * n;
    if d > 0.0 {
      ProductSign(d, n);
    } else if d < 0.0 {
      ProductSign(-d, n);
    }
  }

  lemma ProductSign(a: real, b: real)
    requires a > 0.0 && b > 0.0
    ensures a * b > 0.0
  {
  }

  // ---------------------------------------------------------------------------
  // Reddit insights
  // ---------------------------------------------------------------------------

  const NoDiscussions: String := "No Reddit discussions found for "

  /** The insights `_search_reddit_praw` builds from the posts it read: with
      no used post a neutral placeholder; otherwise the sentiment of all
      scores, the first 5 highlights and the first 3 culture notes. */
  function RedditInsights(company: String, posts: seq<Post>): CompanyInsights {
    var highlights := FilterMap(posts, HighlightOf);
    if highlights == [] then
      CompanyInsights(company, Neutral, [NoDiscussions + company], [], [], "reddit_praw", None)
    else
      CompanyInsights(company, OverallSentiment(FilterMap(posts, ScoreOf)), Take(highlights, 5),
                      ["Active discussions about " + company + " on Reddit"],
                      Take(FilterMap(posts, CultureNoteOf), 3), "reddit_praw", None)
  }

  /** The insights name the company and come from "reddit_praw"; there are
      one to five highlights of at most 200 characters and at most three
      culture notes of at most 150; without a used post the result is the
      neutral placeholder. */
  lemma RedditInsightsShape(company: String, posts: seq<Post>)
    ensures var r := RedditInsights(company, posts);
            && r.companyName == company && r.dataSource == "reddit_praw" && r.aiSummary.None?
            && 1 <= |r.redditHighlights| <= 5 && |r.cultureNotes| <= 3
            && (forall k :: 0 <= k < |r.redditHighlights| ==> |r.redditHighlights[k]| <= 200 || r.redditHighlights == [NoDiscussions + company])
            && (forall k :: 0 <= k < |r.cultureNotes| ==> |r.cultureNotes[k]| <= 150)
            && (FilterMap(posts, HighlightOf) == [] ==>
                  r.redditSentiment == Neutral && r.redditHighlights == [NoDiscussions + company]
                  && r.recentNews == [] && r.cultureNotes == [])
  {
    var highlights := FilterMap(posts, HighlightOf);
    var notes := FilterMap(posts, CultureNoteOf);
    FilterMapOrigin(posts, HighlightOf);
    FilterMapOrigin(posts, CultureNoteOf);
    if highlights != [] {
      forall k | 0 <= k < |Take(highlights, 5)| ensures |Take(highlights, 5)[k]| <= 200 {
        assert Take(highlights, 5)[k] == highlights[k];
        assert highlights[k] in highlights;
      }
      forall k | 0 <= k < |Take(notes, 3)| ensures |Take(notes, 3)[k]| <= 150 {
        assert Take(notes, 3)[k] == notes[k];
        assert notes[k] in notes;
      }
    }
  }

  /** Every used post gives one score, so the sentiment averages all of them,
      not only the five highlights kept. */
  lemma ScoresMatchHighlights(posts: seq<Post>)
    ensures |FilterMap(posts, ScoreOf)| == |FilterMap(posts, HighlightOf)|
  {
    FilterMapSameLength(posts, ScoreOf, HighlightOf);
  }

  /** Every culture note is the start of the text of a used post that names a
      culture keyword. */
  lemma CultureNotesOrigin(posts: seq<Post>)
    ensures forall n :: n in FilterMap(posts, CultureNoteOf) ==>
              exists k :: 0 <= k < |posts| && IsKept(posts[k]) && ContainsAny(Lower(PostText(posts[k])), CultureWords)
                          && n == Take(PostText(posts[k]), 150)
  {
    FilterMapOrigin(posts, CultureNoteOf);
  }

  /** A post shorter than 20 characters yields nothing; a longer one yields
      its highlight and score, and a culture note when it names a culture
      keyword. */
  lemma PostContribution(p: Post, text: String)
    requires text == PostText(p)
    ensures |text| < 20 ==> HighlightOf(p).None? && ScoreOf(p).None? && CultureNoteOf(p).None?
    ensures |text| >= 20 ==>
              && HighlightOf(p) == Some(Take(text, 200))
              && ScoreOf(p) == Some(KeywordScore(Lower(text)))
              && CultureNoteOf(p) == if ContainsAny(Lower(text), CultureWords) then Some(Take(text, 150)) else None
  {
  }

  /** The inner loop of `_search_reddit_praw` over the posts of one search:
      posts shorter than 20 characters are skipped, the others give a
      highlight, a score and, when they name a culture keyword, a note. */
  method ScanPosts(posts: seq<Post>) returns (highlights: seq<String>, scores: seq<int>, notes: seq<String>)
    ensures highlights == FilterMap(posts, HighlightOf)
    ensures scores == FilterMap(posts, ScoreOf)
    ensures notes == FilterMap(posts, CultureNoteOf)
  {
    highlights, scores, notes := [], [], [];
    var j := 0;
    while j < |posts|
      invariant 0 <= j <= |posts|
      invariant highlights == FilterMap(posts[..j], HighlightOf)
      invariant scores == FilterMap(posts[..j], ScoreOf)
      invariant notes == FilterMap(posts[..j], CultureNoteOf)
    {
      var p := posts[j];
      var text := PostText(p);
      PostContribution(p, text);
      if |text| < 20 {
        FilterMapSkip(highlights, posts, j, HighlightOf);
        FilterMapSkip(scores, posts, j, ScoreOf);
        FilterMapSkip(notes, posts, j, CultureNoteOf);
      } else {
        FilterMapGrow(highlights, posts, j, HighlightOf, Take(text, 200));
        highlights := highlights + [Take(text, 200)];
        var textLower := Lower(text);
        var score := KeywordScore(textLower);
        FilterMapGrow(scores, posts, j, ScoreOf, score);
        scores := scores + [score];
        if ContainsAny(textLower, CultureWords) {
          FilterMapGrow(notes, posts, j, CultureNoteOf, Take(text, 150));
          notes := notes + [Take(text, 150)];
        } else {
          FilterMapSkip(notes, posts, j, CultureNoteOf);
        }
      }
      j := j + 1;
    }
    assert posts[..|posts|] == posts;
  }

  /** `_search_reddit_praw`: a failed connection raises; otherwise the posts
      of every subreddit are scanned in turn and summarised. `search` gives the
      posts a subreddit search for the company delivered before it ended or
      failed. */
  method SearchReddit(company: String, connected: bool, search: (String, String) -> seq<Post>)
    returns (r: Result<CompanyInsights, AgentError>)
    ensures r == if connected then Success(RedditInsights(company, PostsFor(Subreddits, company, search)))
                 else Failure(ConnectionFailed)
  {
    if !connected {
      return Failure(ConnectionFailed);
    }
    var highlights: seq<String> := [];
    var scores: seq<int> := [];
    var notes: seq<String> := [];
    var i := 0;
    while i < |Subreddits|
      invariant 0 <= i <= |Subreddits|
      invariant highlights == FilterMap(PostsFor(Subreddits[..i], company, search), HighlightOf)
      invariant scores == FilterMap(PostsFor(Subreddits[..i], company, search), ScoreOf)
      invariant notes == FilterMap(PostsFor(Subreddits[..i], company, search), CultureNoteOf)
    {
      var posts := search(Subreddits[i], company);
      var before := PostsFor(Subreddits[..i], company, search);
      PostsForStep(Subreddits, i, company, search);
      FilterMapAppend(before, posts, HighlightOf);
      FilterMapAppend(before, posts, ScoreOf);
      FilterMapAppend(before, posts, CultureNoteOf);
      var h, sc, n := ScanPosts(posts);
      highlights, scores, notes := highlights + h, scores + sc, notes + n;
      i := i + 1;
    }
    assert Subreddits[..|Subreddits|] == Subreddits;
    var sentiment := Neutral;
    if scores != [] {
      var total := Sum(scores);
      if 5 * total > |scores| {
        sentiment := Positive;
      } else if 5 * total < -|scores| {
        sentiment := Negative;
      }
    }
    if highlights == [] {
      return Success(CompanyInsights(company, Neutral, [NoDiscussions + company], [], [], "reddit_praw", None));
    }
    return Success(CompanyInsights(company, sentiment, Take(highlights, 5),
                                   ["Active discussions about " + company + " on Reddit"],
                                   Take(notes, 3), "reddit_praw", None));
  }
}
