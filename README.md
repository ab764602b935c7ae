# job-finder core in Dafny

This project models the deterministic core of *job-finder*, a multi-agent job
search tool. The agents gather job postings from three search sources and
company sentiment from Reddit. A matcher scores every posting against an
analysed CV and ranks the matches.

The model covers the code that turns data the agents have already fetched into
normalised, scored and ranked records:

- **`Models`**: the four record types (`CVAnalysis`, `Job`, `CompanyInsights`,
  `JobMatch`). Each comes with the validation Pydantic applies: the closed
  string enumerations, the ranges, and the defaults.
- **`CvAnalyzer`**: `_clean_text`, the whitespace normalisation applied to
  text extracted from a PDF.
- **`Matcher`**: the smart matcher.
  - Text preprocessing for the embedder and the zero-magnitude guard of the
    cosine similarity.
  - Whole-word skill overlap with Python's `\b` semantics, and the skill gaps
    against the fixed 30-term vocabulary.
  - The base score with its clamps, the sentiment bonus, the four-tier
    recommendation and the reasoning lines.
  - `match_and_rank`, as a class `SmartMatcher` that logs the embedding
    requests it sends. The CV embedding comes before the empty-jobs check.
    The stable sort by descending score is an insertion sort.
- **`BraveSearch`**: query building, the request `count` caps, company and
  location extraction, and the three skip filters of `_parse_search_results`.
- **`UrlParse`**: `urlparse(url).netloc` as CPython 3.12 computes it for the
  company fallback of `_extract_company`. Leading controls and spaces are
  stripped, tab, CR and LF are deleted, the scheme is removed, and a
  bracketed host must be a valid IPv6 or IPvFuture address, or `urlparse`
  raises and the company is "Unknown Company".
- **`FirecrawlScraper`**: the query and limit, title parsing, and
  first-occurrence deduplication.
- **`JobScraper`**: the JSearch scraper.
  - The API-key check.
  - The six mock postings, sliced before they are filtered by location.
  - The location rules of `_convert_to_jobs`.
  - The three-strategy fallback of `_search_jsearch_api` over abstract HTTP
    responses.
- **`NewsAgent`**: the credential check and the mock insight table.
  It also covers the keyword-sentiment heuristic of `_search_reddit_praw`:
  - post text and the 20-character cut-off;
  - the per-post keyword score;
  - the mean compared with ±0.2;
  - the caps on highlights and culture notes.
- **`Text`** and **`Lists`**: the Python string and list operations the core
  uses, each with its own contract. The string operations include `lower`,
  `title`, `strip`, `split`, `split()` with no argument, `join`, `replace`,
  `in` and slicing. The list operations are filter-and-map and
  convert-all-or-fail.

Network and SDK calls are function parameters:
- the embedding service is a pair of functions;
- the Brave, Firecrawl and JSearch responses are inputs;
- the Reddit search is a function from subreddit and company to posts.

The cosine quotient itself and the `{score:.0f}` number formatting are inputs
too.

Three facts that verification brought out are stated as lemmas:
- `BraveSearch.GlassdoorPatternNeverMatches`: the URL filter
  "glassdoor.com/Job/" is compared with the *lower-cased* URL, so it can never
  fire.
- `Matcher.TruncationCanEndInSpace`: cutting the collapsed text to 8000
  characters can leave a trailing space. Only text that collapses to at most
  8000 characters is fully normalised (`Matcher.PreprocessShape`).
- `Matcher.CPlusPlusBeforeSpaceMissed`: a skill ending in a non-word character,
  such as "C++", overlaps only where a word character follows it. "C++ dev"
  does not match.

Where the repository's tests expect something the code does not do, the model
follows the code:
- an empty URL gives the company "" (not "Unknown Company");
- Reddit with no posts gives one placeholder highlight;
- a hit without a title is kept as "Unknown Position";
- the Brave query does not quote the location.

## Model

| member | source | states |
|---|---|---|
| Models.ParseLevel | models/models.py:29-32 | a string is accepted exactly when it is one of the four level names, and then names that level |
| Models.ParseSentiment | models/models.py:86 | accepted exactly for "positive", "neutral", "negative", each naming its value |
| Models.ParseSource | models/models.py:77 | accepted exactly for the seven source tags, each naming its source |
| Models.ParseRecommendation | models/models.py:106 | accepted exactly for the four recommendation labels |
| Models.NewCVAnalysis | models/models.py:23-52 | validation succeeds iff the level (when given) is a listed name and the years (when given) lie in [0, 50]; omitted fields take "Mid", 0 and empty lists; the record is valid |
| Models.NewJob | models/models.py:70-77 | succeeds iff the source (when given) is a listed tag; every field is kept; the source defaults to "direct" and the posting date to none |
| Models.JobAccepted | models/models.py:70-77 | every job record passes validation when rebuilt from its own fields |
| Models.NewCompanyInsights | models/models.py:84-96 | succeeds iff the sentiment (when given) is a listed value; defaults "neutral", empty lists, "multiple" and no summary |
| Models.NewJobMatch | models/models.py:100-107 | succeeds iff 0 <= score <= 100 and the recommendation (when given) is a label; lists default to empty, the recommendation to "Consider" |
| Models.ExpertLevelRejected | models/models.py:29-32 | the level "Expert" is refused |
| Models.ScoreAboveHundredRejected | models/models.py:103 | a match score of 150 is refused |
| CvAnalyzer.SqueezeRunsShape | agents/cv_analyzer.py:88 | `re.sub(r'\s+', ' ', s)` leaves only plain spaces, never two whitespace characters in a row |
| CvAnalyzer.SqueezeRunsNonSpace | agents/cv_analyzer.py:88 | squeezing runs keeps every non-whitespace character in order |
| CvAnalyzer.SqueezeRunsWords | agents/cv_analyzer.py:88 | squeezing runs does not change the words of the text |
| CvAnalyzer.StripKeepsNonSpace | agents/cv_analyzer.py:91 | `strip` removes whitespace only |
| CvAnalyzer.CleanTextNormalised | agents/cv_analyzer.py:88-91 | the output has no two whitespace characters in a row, none at either end, and only plain spaces |
| CvAnalyzer.CleanTextKeepsNonSpace | agents/cv_analyzer.py:88-91 | deleting all whitespace from input and output gives the same string |
| CvAnalyzer.CleanTextIsCollapse | agents/cv_analyzer.py:88-91 | `_clean_text(s)` equals `" ".join(s.split())` |
| CvAnalyzer.CleanTextIdempotent | agents/cv_analyzer.py:88-91 | cleaning twice is cleaning once |
| CvAnalyzer.CleanTextEmpty | agents/cv_analyzer.py:88-91 | the output is empty exactly when the input is empty or all whitespace |
| Matcher.Preprocess | agents/matcher.py:53-57 | the embedder text is at most 8000 characters and is a prefix of the collapsed text |
| Matcher.PreprocessAll | agents/matcher.py:89-96 | batch preprocessing is single preprocessing, position by position |
| Matcher.PreprocessShape | agents/matcher.py:53-57 | no leading or repeated whitespace, only plain spaces; fully normalised when the collapsed text fits in 8000 characters |
| Matcher.TruncationCanEndInSpace | agents/matcher.py:56-57 | a 7999-character word followed by a space and another word is cut to end in a space |
| Matcher.CosineSimilarity | agents/matcher.py:146-152 | exactly 0.0 when either vector has zero magnitude, otherwise the quotient |
| Matcher.Overlap | agents/matcher.py:183-188 | the overlap is no longer than the CV skill list |
| Matcher.OverlapMembers | agents/matcher.py:183-188 | a skill is in the overlap iff the CV lists it and it occurs, lower-cased, as a `\b`-delimited word of the lower-cased description |
| Matcher.MissingTerms | agents/matcher.py:202-205 | the gap list is no longer than the vocabulary it filters |
| Matcher.MissingTermsMembers | agents/matcher.py:202-205 | a term is kept iff it is listed, its lower-case form is a substring of the description and the CV does not list it (case-sensitive) |
| Matcher.Gaps | agents/matcher.py:191-205 | at most 30 gaps |
| Matcher.GapsMembers | agents/matcher.py:191-205 | a term is a gap iff it is in the vocabulary, occurs lower-cased in the lower-cased description and is missing from the CV |
| Matcher.SkillOverlap | agents/matcher.py:154-207 | the loop returns exactly the overlap and the gaps |
| Matcher.NoMatchInsideWord | agents/matcher.py:186-187 | a skill ending in a word character does not match where a word character follows it |
| Matcher.TrailingSymbolNeedsWordAfter | agents/matcher.py:186-187 | a skill ending in a non-word character matches only where a word character follows it |
| Matcher.JavaNotInJavaScript | agents/matcher.py:186-187 | "Java" does not overlap "JavaScript" |
| Matcher.UpperCaseSkillMatches | agents/matcher.py:186-187 | "DOCKER" overlaps "python and docker" |
| Matcher.CPlusPlusBeforeSpaceMissed | agents/matcher.py:186-187 | "C++" does not overlap "c++ dev" |
| Matcher.GoIsGapInGood | agents/matcher.py:202-205 | "Go" is a gap of any description containing "good" for a CV without "Go" |
| Matcher.Clamp | agents/matcher.py:259 | `max(0, min(100, x))` lies in [0, 100], is the identity there, and saturates at both ends |
| Matcher.BaseScore | agents/matcher.py:236-259 | the base score lies in [0, 100] |
| Matcher.RawScoreAtMostHundred | agents/matcher.py:236-256 | with similarity at most 1 the unclamped points never exceed 100 |
| Matcher.BaseScoreUnclamped | agents/matcher.py:236-256 | the same bound for the overlap and gaps of any CV and description |
| Matcher.BaseScoreMonotone | agents/matcher.py:236-259 | a higher similarity never lowers the base score |
| Matcher.RawScoreMonotoneInOverlap | agents/matcher.py:240-250 | more overlapping skills never lower the unclamped score |
| Matcher.ApplyInsightsBonus | agents/matcher.py:276-285 | stays in [0, 100]; identity for neutral; +5 for positive and -10 for negative, exactly when that stays in range, else clamped |
| Matcher.Recommend | agents/matcher.py:297-304 | Strong Match iff score >= 80, Good Fit iff 65 <= score < 80, Consider iff 50 <= score < 65, Skip iff score < 50 |
| Matcher.RecommendMonotone | agents/matcher.py:297-304 | a higher score never gets a weaker tier |
| Matcher.ReasoningShape | agents/matcher.py:325-349 | one to four lines: the tier sentence, then at most 5 overlap skills if any, at most 3 gaps if any, and a sentiment line only for positive or negative |
| Matcher.TierSentenceAgreesWithRecommendation | agents/matcher.py:328-333 | the opening sentence says "Excellent" iff Strong Match, "Good fit" iff Good Fit, "Moderate" otherwise |
| Matcher.NeutralInsights | agents/matcher.py:455 | the default is the validated `CompanyInsights(company, "neutral")` |
| Matcher.FindInsight | agents/matcher.py:453-456 | the insight found always names the job's company |
| Matcher.FindInsightFirst | agents/matcher.py:453-456 | it is the first insight with that company name, or the neutral default when none has it |
| Matcher.InsertPermutes | agents/matcher.py:486 | inserting one match adds exactly that match |
| Matcher.InsertSorted | agents/matcher.py:486 | insertion keeps the list in descending score order |
| Matcher.InsertKeepsOrder | agents/matcher.py:486 | the new match comes first among the matches with its score, whose order is kept |
| Matcher.RankSorted | agents/matcher.py:486 | the ranking is non-increasing in score |
| Matcher.RankPermutes | agents/matcher.py:486 | the ranking is a permutation of its input |
| Matcher.RankStable | agents/matcher.py:486 | matches sharing a score keep their input order |
| Matcher.RankByScoreMembers | agents/matcher.py:486 | the ranking keeps the length and the set of matches |
| Matcher.MatchJob | agents/matcher.py:439-481 | the match is a valid record for its job, with its company's insight and the recommendation of its score |
| Matcher.MatchJobAccepted | agents/matcher.py:473-481 | every match built passes `JobMatch` validation |
| Matcher.ScoredPrefix | agents/matcher.py:435-483 | one match per job of the prefix |
| Matcher.ScoredJobs | agents/matcher.py:435 | `zip` gives as many matches as the shorter of jobs and vectors |
| Matcher.ScoredPrefixJobs | agents/matcher.py:435-483 | match k is a valid match for job k |
| Matcher.RankedMatches | agents/matcher.py:435-486 | the ranked output is sorted, one per zipped job, each a valid match of one of the jobs |
| Matcher.RankOfMatches | agents/matcher.py:486 | ranking valid matches of the jobs keeps them valid matches of the jobs and sorts them |
| Matcher.SkillsContext | agents/matcher.py:386-392 | two phrases per skill, three with at least 3 years of experience |
| Matcher.SkillsContextBlock | agents/matcher.py:386-392 | the phrases of skill k sit in block k, in the order "Expert in", "Professional … experience", "Advanced … skills" |
| Matcher.JobTexts | agents/matcher.py:429 | one "title description" text per job |
| Matcher.SmartMatcher.constructor | agents/matcher.py:29-36 | the matcher starts with the given embedding service and no requests |
| Matcher.SmartMatcher.CreateEmbedding | agents/matcher.py:38-68 | one single-text request with the preprocessed text is logged, and its vector returned |
| Matcher.SmartMatcher.CreateEmbeddingsBatch | agents/matcher.py:70-109 | one batch request with every text preprocessed is logged, and its vectors returned |
| Matcher.SmartMatcher.MatchAndRank | agents/matcher.py:351-493 | empty jobs: one CV request, no batch, `[]`; otherwise one CV and one batch request, and the ranked per-job matches, sorted and valid |
| Matcher.BuildSkillsContext | agents/matcher.py:386-392 | the loop builds exactly the skill phrases |
| Matcher.MatchOneJob | agents/matcher.py:439-481 | the loop body builds the match from the guarded similarity |
| Matcher.ScoreJobs | agents/matcher.py:435-483 | the scoring loop builds exactly the per-job matches |
| BraveSearch.JoinQueryParts | agents/brave_search.py:54-64 | the joined parts are spelled out with single spaces and start with the title and a space |
| BraveSearch.BuildJobQuerySpelled | agents/brave_search.py:54-64 | the query is the title, the location only when non-empty, then the include and exclude clauses, space-joined; it starts with the title |
| BraveSearch.CompanyInfoQuery | agents/brave_search.py:86 | the company query starts with the quoted company name |
| BraveSearch.ExtractCompanySkipsLeading | agents/brave_search.py:344-354 | without a title pattern or LinkedIn URL, a leading control character or space leaves the company unchanged |
| BraveSearch.ExtractCompanyIgnoresUnsafe | agents/brave_search.py:344-354 | without a title pattern or LinkedIn URL, the company is read from the host with tab, CR and LF deleted; "Unknown Company" when the netloc is refused |
| BraveSearch.ExtractCompanyFromDash | agents/brave_search.py:333-336 | with " - " in the title the company is the stripped text after the last " - " |
| BraveSearch.ExtractCompanyFromAt | agents/brave_search.py:338-341 | otherwise, with " at ", the stripped text after the last " at " |
| BraveSearch.ExtractCompanyTitleFirst | agents/brave_search.py:333-341 | when a title pattern applies the URL is not read |
| BraveSearch.CompanySlugShape | agents/brave_search.py:344-346 | the LinkedIn slug is one path segment with no hyphen left |
| BraveSearch.DomainLabelShape | agents/brave_search.py:351-354 | the host fallback is one label, without '.' |
| BraveSearch.EmptyUrlGivesEmptyCompany | agents/brave_search.py:349-354 | with no title pattern an empty URL gives the company "" |
| BraveSearch.FirstCityFirst | agents/brave_search.py:384-386 | the city found is the earliest listed one the text contains; none only when no listed city occurs |
| BraveSearch.LocationPriority | agents/brave_search.py:377-392 | "Remote" iff a remote word occurs; else the first listed city; else "Israel" iff the country is named; None iff nothing matches |
| BraveSearch.ExtractLocation | agents/brave_search.py:360-392 | the scan returns exactly the prioritised location |
| BraveSearch.LocationOrDefault | agents/brave_search.py:300 | the location is never empty |
| BraveSearch.HitToJobFields | agents/brave_search.py:267-307 | a hit is dropped iff a field is null or a skip filter applies; a kept hit copies title, URL and description with their defaults |
| BraveSearch.HitToJobAccepted | agents/brave_search.py:297-305 | every job built passes validation with source "brave_search" and no date |
| BraveSearch.ParsedHitsAppend | agents/brave_search.py:267-313 | parsing distributes over concatenation, so survivors keep input order |
| BraveSearch.ParsedHitsOne | agents/brave_search.py:267-313 | one hit gives its job or nothing |
| BraveSearch.ParsedHitsOrigin | agents/brave_search.py:270-305 | every parsed job comes from a hit and has source "brave_search" and no date |
| BraveSearch.ParseHit | agents/brave_search.py:268-307 | the loop body returns exactly the job of the hit |
| BraveSearch.ParseSearchResults | agents/brave_search.py:211-313 | the loop returns exactly the parsed hits |
| BraveSearch.GlassdoorPatternNeverMatches | agents/brave_search.py:264-275 | the mixed-case pattern never occurs in a lower-cased URL |
| UrlParse.StripC0 | agents/brave_search.py:350-351 | `urlsplit`'s lstrip of U+0000 to U+0020 leaves a suffix that starts with no such character |
| UrlParse.StripC0RemovesOnlyC0 | agents/brave_search.py:350-351 | everything stripped is a control character or a space |
| UrlParse.RemoveUnsafeIsSafeChars | agents/brave_search.py:350-351 | deleting tab, CR and LF in turn with `replace` keeps exactly the other characters, in order |
| UrlParse.SplitInputShape | agents/brave_search.py:350-351 | the cleaned URL holds no tab, CR or LF and does not start with a control character or a space |
| UrlParse.SplitInputIdempotent | agents/brave_search.py:350-351 | cleaning twice is cleaning once |
| UrlParse.AfterScheme | agents/brave_search.py:350-351 | what follows a valid scheme and its ":" is a suffix of the cleaned URL |
| UrlParse.NetlocEnd | agents/brave_search.py:350-351 | `_splitnetloc`: the first '/', '?' or '#' at or after a position, or the end |
| UrlParse.NetlocText | agents/brave_search.py:350-351 | the netloc text holds no '/', '?' or '#' |
| UrlParse.Netloc | agents/brave_search.py:350-351 | the netloc holds no '/', '?' or '#'; empty without "//" after the scheme; refused (`ValueError`) exactly when the bracket checks fail |
| UrlParse.NetlocOfCleaned | agents/brave_search.py:350-351 | the netloc of the cleaned URL is the netloc of the URL |
| UrlParse.NetlocSkipsLeading | agents/brave_search.py:350-351 | a leading control character or space does not change the netloc |
| UrlParse.NetlocIgnoresUnsafe | agents/brave_search.py:350-351 | a tab, CR or LF after the first character does not change the netloc |
| UrlParse.BracketedHostWithoutColonRefused | agents/brave_search.py:350-351 | a bracketed host without ':' not starting with 'v' is neither a non-IPv4 IP address nor IPvFuture, so it is refused |
| UrlParse.BracketedNetlocWithoutColonRefused | agents/brave_search.py:350-351 | the netloc "[h]" for such a host fails the bracket checks, so `urlparse` raises |
| UrlParse.HextetExamples | agents/brave_search.py:350-351 | `ipaddress`: "::1" and "1::" lay out as valid hextets, "1::2::3" does not |
| UrlParse.IPvFutureExamples | agents/brave_search.py:350-351 | "v1.x" matches the IPvFuture pattern, "v.x" and "v1." do not |
| UrlParse.OctetExamples | agents/brave_search.py:350-351 | "127" is an IPv4 octet, "256" and "01" are not |
| FirecrawlScraper.SearchQuery | agents/firecrawl_scraper.py:79-82 | "{title} jobs {location}" with a location, "{title} jobs" without |
| FirecrawlScraper.DefaultLocation | agents/firecrawl_scraper.py:108 | the fallback location is never empty |
| FirecrawlScraper.ParseTitleWithoutAt | agents/firecrawl_scraper.py:107-111 | without " at " the company is "Unknown Company" and the location the given one or "Not specified" |
| FirecrawlScraper.ParseTitleWithAt | agents/firecrawl_scraper.py:111-114 | with " at " the rest after its first occurrence, stripped, is parsed |
| FirecrawlScraper.PlaceRestWithDash | agents/firecrawl_scraper.py:116-119 | a rest with " - " is cut at its first occurrence into stripped company and location |
| FirecrawlScraper.PlaceRestWithoutDash | agents/firecrawl_scraper.py:120-121 | otherwise the rest is the company and the location the default |
| FirecrawlScraper.ResultToJobFields | agents/firecrawl_scraper.py:101-131 | a result raises iff a field is null; a job keeps title, URL and description (with defaults), source "firecrawl", and passes validation |
| FirecrawlScraper.ResultsToJobsSpec | agents/firecrawl_scraper.py:97-132 | the jobs exist iff no result raises, and job k is the job of result k |
| FirecrawlScraper.BuildJobs | agents/firecrawl_scraper.py:97-132 | the loop returns exactly those jobs |
| FirecrawlScraper.DedupBy | agents/firecrawl_scraper.py:158-169 | the output is no longer than the input |
| FirecrawlScraper.DedupKeys | agents/firecrawl_scraper.py:158-169 | the output has exactly the keys of the input |
| FirecrawlScraper.DedupDistinct | agents/firecrawl_scraper.py:158-169 | no two output elements share a key |
| FirecrawlScraper.DedupOfDistinct | agents/firecrawl_scraper.py:158-169 | a list with distinct keys is left unchanged |
| FirecrawlScraper.DedupIdempotent | agents/firecrawl_scraper.py:158-169 | deduplicating twice is deduplicating once |
| FirecrawlScraper.DedupJobKeys | agents/firecrawl_scraper.py:163-169 | the jobs kept have distinct (title, company) keys, covering every input key |
| FirecrawlScraper.DedupKeepsFirst | agents/firecrawl_scraper.py:165-167 | each kept element is the first of the input with its key |
| FirecrawlScraper.DedupSubsequence | agents/firecrawl_scraper.py:161-167 | the output keeps the input order |
| FirecrawlScraper.DeduplicateJobs | agents/firecrawl_scraper.py:148-169 | the loop with the `seen` set returns exactly the deduplicated jobs |
| FirecrawlScraper.Search | agents/firecrawl_scraper.py:77-146 | one SDK call with the query and limit; the deduplicated jobs, or `[]` when a result raises |
| JobScraper.NewJobScraper | agents/job_scraper.py:24-35 | construction succeeds iff the key is set and non-empty; the host defaults to "jsearch.p.rapidapi.com" |
| JobScraper.MockJobsData | agents/job_scraper.py:53-186 | there are six mock postings |
| JobScraper.MockJobsFromBound | agents/job_scraper.py:191-194 | slicing before filtering returns at most min(numJobs, entries) jobs, none for 0 |
| JobScraper.MockJobsBound | agents/job_scraper.py:191-194 | at most min(numJobs, 6) mock jobs, none for 0 |
| JobScraper.MockJobsMatchLocation | agents/job_scraper.py:191-194 | every job comes from the first numJobs entries and its lower-cased location contains the filter |
| JobScraper.MockJobsUnfiltered | agents/job_scraper.py:191-205 | without a location every sliced entry gives its job, in order |
| JobScraper.MockJobAccepted | agents/job_scraper.py:196-204 | each mock job passes validation with its entry's fields and stripped description |
| JobScraper.FilterMockJobs | agents/job_scraper.py:190-205 | the loop returns exactly the sliced, filtered jobs |
| JobScraper.GetMockJobs | agents/job_scraper.py:37-207 | `_get_mock_jobs` on the six postings |
| JobScraper.RecordLocationParts | agents/job_scraper.py:319-332 | "city, country", else "city, state", else the country, else "Remote" for remote jobs, else "Not specified"; never empty |
| JobScraper.RecordToJobFields | agents/job_scraper.py:334-342 | a null field raises; otherwise the defaults "Unknown", "No description available" and "", source "jsearch", and validation passes |
| JobScraper.ConvertedSpec | agents/job_scraper.py:316-345 | succeeds iff none of the first numJobs records raises; then exactly one job per record, in order |
| JobScraper.ConvertToJobs | agents/job_scraper.py:305-345 | the loop returns exactly the conversion |
| JobScraper.PlanOrder | agents/job_scraper.py:231-284 | strategy 1 first and only with a location; strategy 2 only for a location (lower-cased) other than "remote" or "worldwide"; strategy 3 last |
| JobScraper.SearchApi | agents/job_scraper.py:209-303 | strategies are tried in plan order until a 200 with data; the last one is converted whatever its data; only its non-200 status raises |
| Lists.CollectAll | agents/firecrawl_scraper.py:97-132 | a collection has one image per element |
| Lists.CollectAllSpec | agents/job_scraper.py:316-343 | the collection exists iff every element has an image; element k is the image of k |
| Lists.CollectAllPrefixFails | agents/job_scraper.py:316-343 | a failure in a prefix is a failure of the whole |
| Lists.CollectEach | agents/job_scraper.py:316-343 | the loop returns exactly that collection |
| Lists.FilterMap | agents/brave_search.py:267-307 | the filtered list is no longer than the input |
| Lists.FilterMapAppend | agents/brave_search.py:267-307 | filtering distributes over concatenation |
| Lists.FilterMapOrigin | agents/job_scraper.py:191-205 | every output comes from an input element |
| Lists.FilterMapAll | agents/job_scraper.py:191-205 | when every element has an image the output is all of them, in order |
| Lists.FilterMapSameLength | agents/news_agent.py:251-269 | two conversions defined on the same elements keep as many |
| Lists.FilterEach | agents/job_scraper.py:191-205 | the skipping loop returns exactly the filtered list |
| NewsAgent.NewNewsAgent | agents/news_agent.py:35-45 | construction succeeds iff client id and secret are both set and non-empty |
| NewsAgent.InsightsFromKnown | agents/news_agent.py:177-199 | a listed company gets its entry under its own name, from "mock_data" |
| NewsAgent.InsightsFromUnknown | agents/news_agent.py:177-199 | any other company gets the neutral default naming it |
| NewsAgent.StartupIsPositive | agents/news_agent.py:82-99 | "StartupXYZ" is positive, from "mock_data" |
| NewsAgent.UnknownCompanyIsDefault | agents/news_agent.py:177-190 | an unlisted company is neutral, its first highlight is "Limited public information about X", its news "X is actively hiring" |
| NewsAgent.PostText | agents/news_agent.py:247-248 | the title alone without selftext; otherwise the title, " - " and at most 100 characters |
| NewsAgent.CountPresent | agents/news_agent.py:261-262 | the count is at most the number of words |
| NewsAgent.CountPresentNone | agents/news_agent.py:261-262 | no word present counts 0 |
| NewsAgent.CountPresentAll | agents/news_agent.py:261-262 | every word present counts them all |
| NewsAgent.KeywordScore | agents/news_agent.py:257-269 | +1 iff more positive words occur, -1 iff more negative words, else 0 |
| NewsAgent.NoKeywordScoresZero | agents/news_agent.py:257-269 | a text with no keyword scores 0 |
| NewsAgent.PostsForStep | agents/news_agent.py:241-246 | each subreddit appends its posts in order |
| NewsAgent.OverallSentimentIsMean | agents/news_agent.py:292-301 | positive iff there are scores and the mean exceeds 0.2; negative iff the mean is below -0.2 |
| NewsAgent.MeanThresholds | agents/news_agent.py:293-297 | the integer tests `5t > n` and `5t < -n` are the mean's comparisons with ±0.2 |
| NewsAgent.MeanSide | agents/news_agent.py:293-297 | a mean over a positive count lies above (below) c iff the sum lies above (below) c times the count |
| NewsAgent.RedditInsightsShape | agents/news_agent.py:292-324 | names the company, source "reddit_praw"; no highlights gives the neutral placeholder; else at most 5 highlights of at most 200 chars and 3 notes of at most 150 |
| NewsAgent.ScoresMatchHighlights | agents/news_agent.py:251-269 | one score per highlight |
| NewsAgent.CultureNotesOrigin | agents/news_agent.py:272-273 | each culture note starts a used post's text naming a culture word |
| NewsAgent.PostContribution | agents/news_agent.py:248-273 | a text under 20 characters gives nothing; a longer one its highlight, score and maybe a note |
| NewsAgent.ScanPosts | agents/news_agent.py:246-273 | the inner loop collects exactly the highlights, scores and notes of the posts |
| NewsAgent.SearchReddit | agents/news_agent.py:201-324 | a failed connection raises; otherwise the insights of all posts of the four subreddits |
| Text.LowerChar | agents/matcher.py:179 | upper-case ASCII letters become lower-case, others stay |
| Text.Lower | agents/matcher.py:179 | `lower()` maps each character |
| Text.Title | agents/brave_search.py:346 | `title()` lower-cases a letter that follows a letter, upper-cases any other letter, keeps non-letters |
| Text.TitleKeepsAbsent | agents/brave_search.py:346 | title-casing adds no punctuation |
| Text.Cap | agents/brave_search.py:172 | `min(n, limit)` as a cap: at most the limit, `n` exactly when `n` is within it, the limit otherwise; also the caps of brave_search.py:98 and firecrawl_scraper.py:89 |
| Text.Take | agents/news_agent.py:254 | `s[:n]` is the prefix of length min(n, len) |
| Text.Prefix | agents/job_scraper.py:317 | `s[:n]` for any integer n, a negative n dropping from the end |
| Text.Find | agents/firecrawl_scraper.py:112 | the first occurrence, none iff absent |
| Text.Split | agents/brave_search.py:334 | one piece without the separator, at least two with it |
| Text.SplitOnce | agents/firecrawl_scraper.py:112 | `split(sep, 1)` rejoins to the text and its first piece has no separator |
| Text.SplitLastNoSep | agents/brave_search.py:336 | `parts[-1]` contains no separator |
| Text.SplitLastPiece | agents/brave_search.py:336 | `parts[-1]` is the text after the last separator, or the whole text |
| Text.Replace | agents/brave_search.py:346 | no occurrence leaves the text unchanged |
| Text.ReplaceCharAbsent | agents/brave_search.py:346 | replacing every '-' removes them all |
| Text.Join | agents/matcher.py:53 | a single part joins to itself |
| Text.StripLeft | agents/cv_analyzer.py:91 | `lstrip` removes exactly the leading whitespace |
| Text.StripRight | agents/cv_analyzer.py:91 | `rstrip` removes exactly the trailing whitespace |
| Text.Strip | agents/cv_analyzer.py:91 | the stripped text has no whitespace at either end |
| Text.SplitWords | agents/matcher.py:53 | `split()` gives non-empty whitespace-free words |
| Text.Words | agents/matcher.py:53 | the same for the whole text |
| Text.CollapseNormalised | agents/matcher.py:53 | `" ".join(s.split())` is normalised |
| Text.CollapseOfNormalised | agents/matcher.py:53 | collapsing normalised text leaves it unchanged |
| Text.CollapseKeepsNonSpace | agents/matcher.py:53 | collapsing keeps the non-whitespace characters in order |
| Text.WordsOfStrip | agents/cv_analyzer.py:91 | stripping does not change the words |
| Text.IntToString | agents/matcher.py:396 | `{years}` renders every integer as a non-empty string of digits, after a '-' when negative |

## Left out

- Unicode: `lower()`, `title()` and the `\w` word class are modelled on
  ASCII letters and digits only. `isspace()` lists Python's whitespace code
  points. A non-ASCII letter is left unchanged and is not a word character.
- The embedding calls, numpy's dot product and norms, and float rounding are
  left out. The cosine quotient is an input, and only the zero-magnitude guard
  is modelled. Magnitude zero is taken to mean that every component is zero,
  as it is in exact arithmetic. Scores are `real`.
- Number formatting (`{score:.0f}`, `{len(...)}`) is an input function.
- The OpenAI client creation in `SmartMatcher.__init__`, with its
  `OPENAI_API_KEY` check, is left out. The embedding service is a constructor
  argument.
- Network and SDK I/O are left out:
  - the Brave `requests.get` calls and their status handling in
    `search_jobs` and `search_company_info`;
  - the JSearch HTTP requests, except the strategy order over abstract
    responses;
  - the Firecrawl SDK call and its `.web` probing (the results are an input);
  - the PRAW connection (a boolean input) and subreddit search (a function
    input);
  - PyPDF2 and the OpenAI chat call in the CV analyser.
- `JobScraper.search`, `BraveSearch.search_jobs`, `NewsAgent.get_insights` and
  `SmartMatcher.match_and_rank`'s console output only print and delegate. They
  are not modelled apart from what they delegate to.
- NewsAgent.SearchReddit: the per-subreddit exception handler is modelled as
  the search function returning the posts delivered before the failure. The
  `limit=5` and `time_filter` arguments are the search function's business.
- UrlParse.Netloc: `urlparse` (CPython 3.12) is modelled as far as the netloc
  goes: the cleaning, the scheme, "//", `_splitnetloc` and the bracket checks
  with `ipaddress`'s IPv4, IPv6 and IPvFuture grammars. `_checknetloc`, which
  raises only for a non-ASCII netloc whose NFKC normalisation adds '/', '?',
  '#', '@' or ':', is left out because Unicode normalisation is not modelled.
  Port and credential parsing are left out because the agent only reads the
  netloc.
- Pipeline orchestration (`asyncio.gather`), the Flask server, the static
  backend and the live-API test scripts are left out. They are concurrency or
  presentation.
- Attributes absent from an SDK result object and keys absent from a JSON
  object are both "missing" (`JsonText.Absent`). A JSON `null` is `Null`, and
  the model follows the exception it causes in the source.
- The repository's stale tests describe behaviour the code does not have:
  - query expansion;
  - AI company research;
  - skipping `{"invalid": "data"}`;
  - Firecrawl `"data"` dictionaries.

  The model follows the code, not those tests.
