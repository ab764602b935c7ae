/** The smart matcher (`agents/matcher.py`): it scores every job against a CV
    from an embedding similarity, the skill overlap, the skill gaps and the
    company's sentiment, and ranks the matches by score.

    The embedding service is a pair of functions fixed when the matcher is made
    (the vector for one text, the vectors for a list of texts); the matcher keeps
    the log of the requests it sends, so the number and content of the calls is
    part of its state. The cosine quotient `dot / (|v1| * |v2|)` is an input:
    only its zero-magnitude guard is modelled. Number formatting in the
    reasoning sentences is an input too. */
module Matcher {
  import opened Text
  import opened Models

  // ---------------------------------------------------------------------------
  // Text preprocessing for the embedder
  // ---------------------------------------------------------------------------

  const MaxEmbeddingChars: nat := 8000
  const EmbeddingModel: String := "text-embedding-3-small"

  /** `" ".join(text.split())`, then cut to the first 8000 characters. */
  function Preprocess(text: String): (r: String)
    ensures |r| <= MaxEmbeddingChars
    ensures IsPrefix(r, Collapse(text))
  {
    var c := Collapse(text);
    if |c| > MaxEmbeddingChars then c[..MaxEmbeddingChars] else c
  }

  /** The batch preprocessing, text by text. */
  function PreprocessAll(texts: seq<String>): (r: seq<String>)
    ensures |r| == |texts|
    ensures forall i :: 0 <= i < |texts| ==> r[i] == Preprocess(texts[i])
  {
    seq(|texts|, i requires 0 <= i < |texts| => Preprocess(texts[i]))
  }

  /** The text sent to the embedder never starts with whitespace, never holds two
      whitespace characters in a row and holds no whitespace but plain spaces; when
      the collapsed text fits in 8000 characters it is sent whole, so it does not
      end with whitespace either. */
  lemma PreprocessShape(text: String)
    ensures Preprocess(text) == [] || !IsSpace(Preprocess(text)[0])
    ensures NoRepeatedSpace(Preprocess(text)) && OnlyPlainSpaces(Preprocess(text))
    ensures |Collapse(text)| <= MaxEmbeddingChars ==> Normalised(Preprocess(text))
  {
    var c := Collapse(text);
    CollapseNormalised(text);
    var r := Preprocess(text);
    assert r == c[..|r|];
    forall i | 0 <= i < |r| ensures r[i] == c[i] { }
    if |c| <= MaxEmbeddingChars {
      assert r == c;
    }
  }

  /** The cut can leave a trailing space: a 7999-character first word followed by
      a second word is cut right after the separating space. */
  lemma TruncationCanEndInSpace(a: String, b: String)
    requires |a| == MaxEmbeddingChars - 1 && NoSpace(a)
    requires b != [] && NoSpace(b)
    ensures Preprocess(a + " " + b) == a + " "
    ensures IsSpace(Preprocess(a + " " + b)[MaxEmbeddingChars - 1])
  {
    var t := a + " " + b;
    assert Normalised(t) by {
      forall i | 0 <= i < |t| - 1 ensures !(IsSpace(t[i]) && IsSpace(t[i + 1])) {
        if i < |a| - 1 { assert t[i] == a[i]; }
        else if i == |a| - 1 { assert t[i + 1] == ' ' && t[i] == a[i]; }
        else if i == |a| { assert t[i + 1] == b[0]; }
        else { assert t[i] == b[i - |a| - 1]; }
      }
      forall i | 0 <= i < |t| ensures IsSpace(t[i]) ==> t[i] == ' ' {
        if i < |a| { assert t[i] == a[i]; }
        else if i > |a| { assert t[i] == b[i - |a| - 1]; }
      }
      assert t[0] == a[0] && t[|t| - 1] == b[|b| - 1];
    }
    CollapseOfNormalised(t);
    assert t[..MaxEmbeddingChars] == a + " ";
  }

  // ---------------------------------------------------------------------------
  // Cosine similarity guard
  // ---------------------------------------------------------------------------

  type Vector = seq<real>

  /** `norm(v) == 0`: in exact arithmetic the magnitude is zero exactly when every
      component is. */
  predicate IsZeroVector(v: Vector) {
    forall i :: 0 <= i < |v| ==> v[i] == 0.0
  }

  /** `_cosine_similarity`: 0.0 when either vector has magnitude zero, otherwise
      the quotient `dot(v1, v2) / (norm(v1) * norm(v2))`, given here as `quotient`. */
  function CosineSimilarity(v1: Vector, v2: Vector, quotient: real): (r: real)
    ensures IsZeroVector(v1) || IsZeroVector(v2) ==> r == 0.0
    ensures !IsZeroVector(v1) && !IsZeroVector(v2) ==> r == quotient
  {
    if IsZeroVector(v1) || IsZeroVector(v2) then 0.0 else quotient
  }

  // ---------------------------------------------------------------------------
  // Skill overlap and gaps
  // ---------------------------------------------------------------------------

  /** Python's `\b` at position `p` of `t`: exactly one of the characters on
      either side of `p` is a word character (a missing character is not). */
  predicate Boundary(t: String, p: int)
    requires 0 <= p <= |t|
  {
    (p > 0 && IsWordChar(t[p - 1])) != (p < |t| && IsWordChar(t[p]))
  }

  /** `re.search(r'\b' + re.escape(k) + r'\b', t)` finds a match at `i`. */
  predicate WholeWordAt(t: String, k: String, i: int) {
    OccursAt(t, k, i) && Boundary(t, i) && Boundary(t, i + |k|)
  }

  predicate MatchesWholeWord(t: String, k: String) {
    exists i :: 0 <= i <= |t| - |k| && WholeWordAt(t, k, i)
  }

  /** The overlap test for one CV skill, case-insensitive. */
  predicate SkillInDescription(skill: String, description: String) {
    MatchesWholeWord(Lower(description), Lower(skill))
  }

  /** The CV skills found in the description, in CV order (with repetitions). */
  function Overlap(skills: seq<String>, description: String): (r: seq<String>)
    ensures |r| <= |skills|
  {
    if skills == [] then []
    else
      Overlap(skills[..|skills| - 1], description)
      + (if SkillInDescription(Last(skills), description) then [Last(skills)] else [])
  }

  /** A skill is in the overlap exactly when the CV lists it and the description
      holds it as a whole word, ignoring case. */
  lemma {:induction false} OverlapMembers(skills: seq<String>, description: String)
    ensures forall x :: x in Overlap(skills, description) <==> x in skills && SkillInDescription(x, description)
  {
    if skills != [] {
      var init := skills[..|skills| - 1];
      OverlapMembers(init, description);
      assert skills == init + [Last(skills)];
    }
  }

  /** The technologies that count as gaps when a description mentions them. */
  const Vocabulary: seq<String> := [
    "Python", "Java", "JavaScript", "TypeScript", "Go", "Rust", "C++",
    "Docker", "Kubernetes", "AWS", "Azure", "GCP",
    "React", "Vue", "Angular", "Node.js",
    "PostgreSQL", "MongoDB", "Redis",
    "Kafka", "RabbitMQ", "GraphQL", "REST",
    "CI/CD", "Jenkins", "GitLab", "GitHub Actions",
    "Terraform", "Ansible", "Linux"
  ]

  /** `terms` filtered, in order, to those whose lower-case form is a substring of
      `descLower` and which are not (case-sensitively) among `skills`. */
  function MissingTerms(terms: seq<String>, skills: seq<String>, descLower: String): (r: seq<String>)
    ensures |r| <= |terms|
  {
    if terms == [] then []
    else
      (if Contains(descLower, Lower(terms[0])) && terms[0] !in skills then [terms[0]] else [])
      + MissingTerms(terms[1..], skills, descLower)
  }

  lemma {:induction false} MissingTermsMembers(terms: seq<String>, skills: seq<String>, descLower: String)
    ensures forall x :: x in MissingTerms(terms, skills, descLower) <==>
              x in terms && Contains(descLower, Lower(x)) && x !in skills
  {
    if terms != [] {
      MissingTermsMembers(terms[1..], skills, descLower);
      assert terms == [terms[0]] + terms[1..];
    }
  }

  /** The skill gaps: vocabulary terms mentioned anywhere in the description
      (as a plain substring) that the CV does not list. */
  function Gaps(skills: seq<String>, description: String): (r: seq<String>)
    ensures |r| <= |Vocabulary|
  {
    MissingTerms(Vocabulary, skills, Lower(description))
  }

  /** A term is a gap exactly when it is in the vocabulary, its lower-case form
      occurs in the lower-cased description, and the CV does not list it. */
  lemma GapsMembers(skills: seq<String>, description: String)
    ensures forall x :: x in Gaps(skills, description) <==>
              x in Vocabulary && Contains(Lower(description), Lower(x)) && x !in skills
  {
    MissingTermsMembers(Vocabulary, skills, Lower(description));
  }

  /** `_calculate_skill_overlap`: the overlapping CV skills, found by a loop over
      the CV skills, and the gaps. */
  method SkillOverlap(skills: seq<String>, description: String) returns (overlap: seq<String>, gaps: seq<String>)
    ensures overlap == Overlap(skills, description)
    ensures gaps == Gaps(skills, description)
  {
    var descLower := Lower(description);
    overlap := [];
    var i := 0;
    while i < |skills|
      invariant 0 <= i <= |skills|
      invariant overlap == Overlap(skills[..i], description)
    {
      var skill := skills[i];
      assert skills[..i + 1][..i] == skills[..i];
      if MatchesWholeWord(descLower, Lower(skill)) {
        overlap := overlap + [skill];
      }
      i := i + 1;
    }
    assert skills[..|skills|] == skills;
    gaps := MissingTerms(Vocabulary, skills, descLower);
  }

  /** A skill that ends in a word character never matches when a word character
      follows it: "Java" is not found in "javascript". */
  lemma NoMatchInsideWord(t: String, k: String, i: int)
    requires k != [] && IsWordChar(k[|k| - 1])
    requires OccursAt(t, k, i) && i + |k| < |t| && IsWordChar(t[i + |k|])
    ensures !WholeWordAt(t, k, i)
  {
    assert t[i + |k| - 1] == k[|k| - 1];
  }

  /** A skill that ends in a non-word character, such as "C++", matches only where a
      word character follows it, and never at the end of the text. */
  lemma TrailingSymbolNeedsWordAfter(t: String, k: String, i: int)
    requires k != [] && !IsWordChar(k[|k| - 1])
    requires WholeWordAt(t, k, i)
    ensures i + |k| < |t| && IsWordChar(t[i + |k|])
  {
    assert t[i + |k| - 1] == k[|k| - 1];
  }

  lemma JavaNotInJavaScript()
    ensures !SkillInDescription("Java", "JavaScript")
  {
    assert Lower("Java") == "java";
    assert Lower("JavaScript") == "javascript";
    var t := "javascript";
    forall i | 0 <= i <= |t| - 4 ensures !WholeWordAt(t, "java", i) {
      if OccursAt(t, "java", i) {
        assert t[i] == t[i..i + 4][0] == 'j';
        assert i == 0;
        NoMatchInsideWord(t, "java", i);
      }
    }
  }

  lemma UpperCaseSkillMatches()
    ensures SkillInDescription("DOCKER", "python and docker")
  {
    var t := Lower("python and docker");
    assert t == "python and docker";
    assert Lower("DOCKER") == "docker";
    assert WholeWordAt(t, "docker", 11);
  }

  lemma CPlusPlusBeforeSpaceMissed()
    ensures !SkillInDescription("C++", "c++ dev")
  {
    assert Lower("C++") == "c++";
    assert Lower("c++ dev") == "c++ dev";
    var t := "c++ dev";
    forall i | 0 <= i <= |t| - 3 ensures !WholeWordAt(t, "c++", i) {
      if OccursAt(t, "c++", i) {
        assert t[i] == t[i..i + 3][0] == 'c';
        assert i == 0;
        assert !Boundary(t, 3);
      }
    }
  }

  /** "Go" is a gap for any description mentioning "good" and a CV without "Go". */
  lemma GoIsGapInGood(skills: seq<String>)
    requires "Go" !in skills
    ensures "Go" in Gaps(skills, "good")
  {
    assert Lower("good") == "good" && Lower("Go") == "go";
    assert OccursAt("good", "go", 0);
    assert Vocabulary[4] == "Go";
    GapsMembers(skills, "good");
  }

  // ---------------------------------------------------------------------------
  // Scores
  // ---------------------------------------------------------------------------

  /** `max(0, min(100, x))`. */
  function Clamp(x: real): (r: real)
    ensures 0.0 <= r <= 100.0
    ensures 0.0 <= x <= 100.0 ==> r == x
    ensures x <= 0.0 ==> r == 0.0
    ensures x >= 100.0 ==> r == 100.0
  {
    if x < 0.0 then 0.0 else if x > 100.0 then 100.0 else x
  }

  /** The score before clamping: 50 points of similarity, 4 points per overlapping
      skill up to 30, up to 20 points for the share of CV skills used, and one
      point off per gap up to 5. */
  function RawScore(similarity: real, nSkills: nat, nOverlap: nat, nGaps: nat): real {
    similarity * 50.0
    + (if nOverlap > 0 then Min(nOverlap * 4, 30) as real else 0.0)
    + (if nSkills > 0 then (nOverlap as real / nSkills as real) * 20.0 else 0.0)
    - (if nGaps > 0 then Min(nGaps, 5) as real else 0.0)
  }

  /** `_calculate_base_score`, with the similarity given. */
  function BaseScore(similarity: real, skills: seq<String>, description: String): (r: real)
    ensures 0.0 <= r <= 100.0
  {
    Clamp(RawScore(similarity, |skills|, |Overlap(skills, description)|, |Gaps(skills, description)|))
  }

  /** With a similarity of at most 1 the points add up to at most 100, so the upper
      clamp only matters for out-of-range similarities. */
  lemma RawScoreAtMostHundred(similarity: real, nSkills: nat, nOverlap: nat, nGaps: nat)
    requires similarity <= 1.0 && nOverlap <= nSkills
    ensures RawScore(similarity, nSkills, nOverlap, nGaps) <= 100.0
  {
    if nSkills > 0 {
      assert nOverlap as real / nSkills as real <= 1.0;
    }
  }

  lemma BaseScoreUnclamped(similarity: real, skills: seq<String>, description: String)
    requires similarity <= 1.0
    ensures RawScore(similarity, |skills|, |Overlap(skills, description)|, |Gaps(skills, description)|) <= 100.0
  {
    RawScoreAtMostHundred(similarity, |skills|, |Overlap(skills, description)|, |Gaps(skills, description)|);
  }

  /** A higher similarity never lowers the base score. */
  lemma BaseScoreMonotone(s1: real, s2: real, skills: seq<String>, description: String)
    requires s1 <= s2
    ensures BaseScore(s1, skills, description) <= BaseScore(s2, skills, description)
  {
  }

  /** More overlapping skills, with the same CV and gap count, never lower the
      raw score. */
  lemma RawScoreMonotoneInOverlap(similarity: real, nSkills: nat, o1: nat, o2: nat, nGaps: nat)
    requires o1 <= o2
    ensures RawScore(similarity, nSkills, o1, nGaps) <= RawScore(similarity, nSkills, o2, nGaps)
  {
    if nSkills > 0 {
      assert o1 as real / nSkills as real <= o2 as real / nSkills as real;
    }
  }

  function SentimentBonus(s: Sentiment): real {
    match s
    case Positive => 5.0
    case Negative => -10.0
    case Neutral => 0.0
  }

  /** `_apply_insights_bonus`. */
  function ApplyInsightsBonus(base: real, s: Sentiment): (r: real)
    ensures 0.0 <= r <= 100.0
    ensures 0.0 <= base <= 100.0 && s == Neutral ==> r == base
    ensures 0.0 <= base <= 100.0 && s == Positive ==> base <= r <= base + 5.0
    ensures 0.0 <= base <= 100.0 && s == Negative ==> base - 10.0 <= r <= base
    ensures 0.0 <= base <= 95.0 && s == Positive ==> r == base + 5.0
    ensures 10.0 <= base <= 100.0 && s == Negative ==> r == base - 10.0
  {
    Clamp(base + SentimentBonus(s))
  }

  /** `_generate_recommendation`. */
  function Recommend(score: real): (r: Recommendation)
    ensures r == StrongMatch <==> score >= 80.0
    ensures r == GoodFit <==> 65.0 <= score < 80.0
    ensures r == Consider <==> 50.0 <= score < 65.0
    ensures r == Skip <==> score < 50.0
  {
    if score >= 80.0 then StrongMatch
    else if score >= 65.0 then GoodFit
    else if score >= 50.0 then Consider
    else Skip
  }

  function Tier(r: Recommendation): nat {
    match r
    case Skip => 0
    case Consider => 1
    case GoodFit => 2
    case StrongMatch => 3
  }

  /** A higher score never gets a weaker recommendation. */
  lemma RecommendMonotone(a: real, b: real)
    requires a <= b
    ensures Tier(Recommend(a)) <= Tier(Recommend(b))
  {
  }

  // ---------------------------------------------------------------------------
  // Reasoning
  // ---------------------------------------------------------------------------

  const ExcellentPrefix: String := "Excellent match with "
  const GoodPrefix: String := "Good fit with "
  const ModeratePrefix: String := "Moderate fit with "
  const PositiveLine: String := "Company has positive reviews and culture"
  const NegativeLine: String := "\U{26a0}\U{fe0f}  Company has some negative reviews"

  /** The opening sentence; `fmt` renders the score as `{score:.0f}` does. */
  function TierSentence(score: real, fmt: real -> String): String {
    var pct := fmt(score) + "% compatibility";
    if score >= 80.0 then ExcellentPrefix + pct
    else if score >= 65.0 then GoodPrefix + pct
    else ModeratePrefix + pct
  }

  function SentimentLines(s: Sentiment): seq<String> {
    match s
    case Positive => [PositiveLine]
    case Negative => [NegativeLine]
    case Neutral => []
  }

  /** `_generate_reasoning`. */
  function Reasoning(score: real, overlap: seq<String>, gaps: seq<String>, s: Sentiment, fmt: real -> String): seq<String> {
    [TierSentence(score, fmt)]
    + (if overlap != [] then ["Strong skill alignment: " + Join(", ", Take(overlap, 5))] else [])
    + (if gaps != [] then ["Missing skills: " + Join(", ", Take(gaps, 3))] else [])
    + SentimentLines(s)
  }

  /** The reasoning opens with the tier sentence, then names at most five
      overlapping skills if there are any, then at most three gaps if there are
      any, then a sentiment line unless the sentiment is neutral: one to four
      lines. */
  lemma ReasoningShape(score: real, overlap: seq<String>, gaps: seq<String>, s: Sentiment, fmt: real -> String)
    ensures var r := Reasoning(score, overlap, gaps, s, fmt);
            && 1 <= |r| <= 4
            && |r| == 1 + (if overlap != [] then 1 else 0) + (if gaps != [] then 1 else 0) + (if s != Neutral then 1 else 0)
            && r[0] == TierSentence(score, fmt)
            && (overlap != [] ==> r[1] == "Strong skill alignment: " + Join(", ", Take(overlap, 5)) && |Take(overlap, 5)| <= 5)
            && (gaps != [] ==> r[if overlap != [] then 2 else 1] == "Missing skills: " + Join(", ", Take(gaps, 3)) && |Take(gaps, 3)| <= 3)
            && (s == Positive ==> r[|r| - 1] == PositiveLine)
            && (s == Negative ==> r[|r| - 1] == NegativeLine)
  {
  }

  /** The opening sentence uses the recommendation's cut-offs: "Excellent" exactly
      for a strong match, "Good fit" exactly for a good fit, "Moderate" for the
      rest. */
  lemma TierSentenceAgreesWithRecommendation(score: real, fmt: real -> String)
    ensures IsPrefix(ExcellentPrefix, TierSentence(score, fmt)) <==> Recommend(score) == StrongMatch
    ensures IsPrefix(GoodPrefix, TierSentence(score, fmt)) <==> Recommend(score) == GoodFit
    ensures IsPrefix(ModeratePrefix, TierSentence(score, fmt)) <==> Recommend(score) in {Consider, Skip}
  {
    var t := TierSentence(score, fmt);
    var pct := fmt(score) + "% compatibility";
    if score >= 80.0 {
      assert t == ExcellentPrefix + pct;
      assert t[..|ExcellentPrefix|] == ExcellentPrefix;
      assert !IsPrefix(GoodPrefix, t) by { assert t[0] != GoodPrefix[0]; }
      assert !IsPrefix(ModeratePrefix, t) by { assert t[0] != ModeratePrefix[0]; }
    } else if score >= 65.0 {
      assert t == GoodPrefix + pct;
      assert t[..|GoodPrefix|] == GoodPrefix;
      assert !IsPrefix(ExcellentPrefix, t) by { if |ExcellentPrefix| <= |t| { assert t[0] != ExcellentPrefix[0]; } }
      assert !IsPrefix(ModeratePrefix, t) by { if |ModeratePrefix| <= |t| { assert t[0] != ModeratePrefix[0]; } }
    } else {
      assert t == ModeratePrefix + pct;
      assert t[..|ModeratePrefix|] == ModeratePrefix;
      assert !IsPrefix(ExcellentPrefix, t) by { assert t[0] != ExcellentPrefix[0]; }
      assert !IsPrefix(GoodPrefix, t) by { assert t[0] != GoodPrefix[0]; }
    }
  }

  // ---------------------------------------------------------------------------
  // Insight lookup
  // ---------------------------------------------------------------------------

  /** `CompanyInsights(company_name=company, reddit_sentiment="neutral")`. */
  function NeutralInsights(company: String): (r: CompanyInsights)
    ensures NewCompanyInsights(company, Some("neutral")) == Success(r)
  {
    CompanyInsights(company, Neutral, [], [], [], "multiple", None)
  }

  /** `next((ci for ci in insights if ci.company_name == company), default)`. */
  function FindInsight(insights: seq<CompanyInsights>, company: String): (r: CompanyInsights)
    ensures r.companyName == company
  {
    if insights == [] then NeutralInsights(company)
    else if insights[0].companyName == company then insights[0]
    else FindInsight(insights[1..], company)
  }

  /** The lookup returns the first insight for the company, and the neutral
      default when there is none. */
  lemma {:induction false} FindInsightFirst(insights: seq<CompanyInsights>, company: String)
    ensures (forall k :: 0 <= k < |insights| ==> insights[k].companyName != company) ==>
              FindInsight(insights, company) == NeutralInsights(company)
    ensures (exists k :: 0 <= k < |insights| && insights[k].companyName == company) ==>
              exists k :: 0 <= k < |insights| && insights[k] == FindInsight(insights, company)
                           && forall j :: 0 <= j < k ==> insights[j].companyName != company
  {
    if insights != [] && insights[0].companyName != company {
      var tail := insights[1..];
      FindInsightFirst(tail, company);
      forall k | 0 <= k < |tail| ensures tail[k] == insights[k + 1] { }
      if exists k :: 0 <= k < |insights| && insights[k].companyName == company {
        var k :| 0 <= k < |insights| && insights[k].companyName == company;
        assert tail[k - 1].companyName == company;
        var i :| 0 <= i < |tail| && tail[i] == FindInsight(tail, company)
                 && forall j :: 0 <= j < i ==> tail[j].companyName != company;
        assert insights[i + 1] == FindInsight(insights, company);
        forall j | 0 <= j < i + 1 ensures insights[j].companyName != company {
          if j > 0 { assert insights[j] == tail[j - 1]; }
        }
      }
    }
  }

  // ---------------------------------------------------------------------------
  // Ranking
  // ---------------------------------------------------------------------------

  predicate SortedByScore(ms: seq<JobMatch>) {
    forall i, j :: 0 <= i < j < |ms| ==> ms[i].matchScore >= ms[j].matchScore
  }

  /** The matches with score `v`, in order. */
  function WithScore(ms: seq<JobMatch>, v: real): seq<JobMatch> {
    if ms == [] then []
    else (if ms[0].matchScore == v then [ms[0]] else []) + WithScore(ms[1..], v)
  }

  /** Places `m` before the first match whose score is not higher. */
  function InsertByScore(m: JobMatch, ms: seq<JobMatch>): seq<JobMatch> {
    if ms == [] || ms[0].matchScore <= m.matchScore then [m] + ms
    else [ms[0]] + InsertByScore(m, ms[1..])
  }

  /** `matches.sort(key=lambda m: m.match_score, reverse=True)`, as an insertion
      sort; its properties are the lemmas below. */
  function RankByScore(ms: seq<JobMatch>): seq<JobMatch> {
    if ms == [] then [] else InsertByScore(ms[0], RankByScore(ms[1..]))
  }

  lemma {:induction false} InsertPermutes(m: JobMatch, ms: seq<JobMatch>)
    ensures multiset(InsertByScore(m, ms)) == multiset{m} + multiset(ms)
  {
    if !(ms == [] || ms[0].matchScore <= m.matchScore) {
      InsertPermutes(m, ms[1..]);
      assert ms == [ms[0]] + ms[1..];
    }
  }

  /** Every score of `ms` is at most `b`. */
  predicate ScoresAtMost(ms: seq<JobMatch>, b: real) {
    forall j :: 0 <= j < |ms| ==> ms[j].matchScore <= b
  }

  lemma SortedCons(x: JobMatch, ms: seq<JobMatch>)
    requires SortedByScore(ms) && ScoresAtMost(ms, x.matchScore)
    ensures SortedByScore([x] + ms)
  {
    var r := [x] + ms;
    forall i, j | 0 <= i < j < |r| ensures r[i].matchScore >= r[j].matchScore {
      if i > 0 { assert r[i] == ms[i - 1] && r[j] == ms[j - 1]; }
      else { assert r[j] == ms[j - 1]; }
    }
  }

  lemma SortedTail(ms: seq<JobMatch>)
    requires SortedByScore(ms) && ms != []
    ensures SortedByScore(ms[1..]) && ScoresAtMost(ms[1..], ms[0].matchScore)
  {
    forall i, j | 0 <= i < j < |ms| - 1 ensures ms[1..][i].matchScore >= ms[1..][j].matchScore {
      assert ms[1..][i] == ms[i + 1] && ms[1..][j] == ms[j + 1];
    }
    forall j | 0 <= j < |ms| - 1 ensures ms[1..][j].matchScore <= ms[0].matchScore {
      assert ms[1..][j] == ms[j + 1];
    }
  }

  lemma {:induction false} InsertAtMost(m: JobMatch, ms: seq<JobMatch>, b: real)
    requires ScoresAtMost(ms, b) && m.matchScore <= b
    ensures ScoresAtMost(InsertByScore(m, ms), b)
  {
    var r := InsertByScore(m, ms);
    if ms == [] || ms[0].matchScore <= m.matchScore {
      forall j | 0 <= j < |r| ensures r[j].matchScore <= b {
        if j > 0 { assert r[j] == ms[j - 1]; }
      }
    } else {
      var rest := InsertByScore(m, ms[1..]);
      assert ScoresAtMost(ms[1..], b) by {
        forall j | 0 <= j < |ms| - 1 ensures ms[1..][j].matchScore <= b { assert ms[1..][j] == ms[j + 1]; }
      }
      InsertAtMost(m, ms[1..], b);
      forall j | 0 <= j < |r| ensures r[j].matchScore <= b {
        if j > 0 { assert r[j] == rest[j - 1]; }
      }
    }
  }

  lemma {:induction false} InsertSorted(m: JobMatch, ms: seq<JobMatch>)
    requires SortedByScore(ms)
    ensures SortedByScore(InsertByScore(m, ms))
  {
    if ms == [] || ms[0].matchScore <= m.matchScore {
      if ms != [] {
        SortedTail(ms);
        assert ScoresAtMost(ms, m.matchScore) by {
          forall j | 0 <= j < |ms| ensures ms[j].matchScore <= m.matchScore {
            if j > 0 { assert ms[j] == ms[1..][j - 1]; }
          }
        }
      }
      SortedCons(m, ms);
    } else {
      SortedTail(ms);
      InsertSorted(m, ms[1..]);
      InsertAtMost(m, ms[1..], ms[0].matchScore);
      SortedCons(ms[0], InsertByScore(m, ms[1..]));
    }
  }

  lemma {:induction false} InsertKeepsOrder(m: JobMatch, ms: seq<JobMatch>, v: real)
    ensures WithScore(InsertByScore(m, ms), v) == (if m.matchScore == v then [m] else []) + WithScore(ms, v)
  {
    var own := if m.matchScore == v then [m] else [];
    if ms == [] || ms[0].matchScore <= m.matchScore {
      assert ([m] + ms)[1..] == ms;
      assert WithScore([m] + ms, v) == own + WithScore(ms, v);
    } else {
      var rest := InsertByScore(m, ms[1..]);
      var first := if ms[0].matchScore == v then [ms[0]] else [];
      InsertKeepsOrder(m, ms[1..], v);
      assert ([ms[0]] + rest)[1..] == rest;
      assert WithScore([ms[0]] + rest, v) == first + (own + WithScore(ms[1..], v));
      assert first == [] || own == [];
      assert WithScore(ms, v) == first + WithScore(ms[1..], v);
    }
  }

  /** The ranking is in descending score order. */
  lemma {:induction false} RankSorted(ms: seq<JobMatch>)
    ensures SortedByScore(RankByScore(ms))
  {
    if ms != [] {
      RankSorted(ms[1..]);
      InsertSorted(ms[0], RankByScore(ms[1..]));
    }
  }

  /** The ranking is a permutation of its input. */
  lemma {:induction false} RankPermutes(ms: seq<JobMatch>)
    ensures multiset(RankByScore(ms)) == multiset(ms)
  {
    if ms != [] {
      RankPermutes(ms[1..]);
      InsertPermutes(ms[0], RankByScore(ms[1..]));
      assert ms == [ms[0]] + ms[1..];
    }
  }

  /** The ranking is stable: the matches sharing a score keep their input order. */
  lemma {:induction false} RankStable(ms: seq<JobMatch>, v: real)
    ensures WithScore(RankByScore(ms), v) == WithScore(ms, v)
  {
    if ms != [] {
      RankStable(ms[1..], v);
      InsertKeepsOrder(ms[0], RankByScore(ms[1..]), v);
    }
  }

  /** Sorting keeps the length and the set of matches. */
  lemma RankByScoreMembers(ms: seq<JobMatch>)
    ensures |RankByScore(ms)| == |ms|
    ensures forall x :: x in RankByScore(ms) <==> x in ms
  {
    var r := RankByScore(ms);
    RankPermutes(ms);
    assert |multiset(r)| == |multiset(ms)|;
    forall x ensures x in r <==> x in ms {
      assert x in r <==> x in multiset(r);
      assert x in ms <==> x in multiset(ms);
    }
  }

  // ---------------------------------------------------------------------------
  // Matching one job
  // ---------------------------------------------------------------------------

  /** The match built for one job from its similarity to the CV. */
  function MatchJob(cv: CVAnalysis, job: Job, similarity: real, insights: seq<CompanyInsights>, fmt: real -> String): (r: JobMatch)
    ensures r.Valid() && r.job == job
    ensures r.companyInsights.companyName == job.company
    ensures r.recommendation == Recommend(r.matchScore)
  {
    var overlap := Overlap(cv.skills, job.description);
    var gaps := Gaps(cv.skills, job.description);
    var ci := FindInsight(insights, job.company);
    var score := ApplyInsightsBonus(BaseScore(similarity, cv.skills, job.description), ci.redditSentiment);
    var rec := Recommend(score);
    JobMatch(job, ci, score, overlap, gaps, rec, Reasoning(score, overlap, gaps, ci.redditSentiment, fmt))
  }

  /** The matches for the first `n` jobs, in job order. */
  function ScoredPrefix(cv: CVAnalysis, jobs: seq<Job>, cvVector: Vector, jobVectors: seq<Vector>,
                        insights: seq<CompanyInsights>, cosine: (Vector, Vector) -> real, fmt: real -> String, n: nat): (r: seq<JobMatch>)
    requires n <= |jobs| && n <= |jobVectors|
    ensures |r| == n
  {
    if n == 0 then []
    else
      ScoredPrefix(cv, jobs, cvVector, jobVectors, insights, cosine, fmt, n - 1)
      + [MatchJob(cv, jobs[n - 1], CosineSimilarity(cvVector, jobVectors[n - 1], cosine(cvVector, jobVectors[n - 1])), insights, fmt)]
  }

  /** Every match the engine builds passes the record's own validation. */
  lemma MatchJobAccepted(cv: CVAnalysis, job: Job, similarity: real, insights: seq<CompanyInsights>, fmt: real -> String)
    ensures var r := MatchJob(cv, job, similarity, insights, fmt);
            NewJobMatch(job, r.companyInsights, r.matchScore, Some(r.skillOverlap), Some(r.skillGaps),
                        Some(RecommendationName(r.recommendation)), Some(r.reasoning)) == Success(r)
  {
    var r := MatchJob(cv, job, similarity, insights, fmt);
    assert ParseRecommendation(RecommendationName(r.recommendation)) == Some(r.recommendation);
  }

  /** The per-job matches of `zip(jobs, job_embeddings)`: as many as the shorter
      of the two lists. */
  function ScoredJobs(cv: CVAnalysis, jobs: seq<Job>, cvVector: Vector, jobVectors: seq<Vector>,
                      insights: seq<CompanyInsights>, cosine: (Vector, Vector) -> real, fmt: real -> String): (r: seq<JobMatch>)
    ensures |r| == Min(|jobs|, |jobVectors|)
  {
    ScoredPrefix(cv, jobs, cvVector, jobVectors, insights, cosine, fmt, Min(|jobs|, |jobVectors|))
  }

  /** Match `k` is about job `k`, and every match is a valid record. */
  predicate MatchesJobs(ms: seq<JobMatch>, jobs: seq<Job>) {
    |ms| <= |jobs| && forall k :: 0 <= k < |ms| ==> ms[k].job == jobs[k] && ms[k].Valid()
  }

  lemma MatchesJobsAppend(ms: seq<JobMatch>, m: JobMatch, jobs: seq<Job>)
    requires MatchesJobs(ms, jobs) && |ms| < |jobs|
    requires m.job == jobs[|ms|] && m.Valid()
    ensures MatchesJobs(ms + [m], jobs)
  {
    var r := ms + [m];
    forall k | 0 <= k < |r| ensures r[k].job == jobs[k] && r[k].Valid() {
      if k < |ms| { assert r[k] == ms[k]; }
    }
  }

  lemma {:induction false} ScoredPrefixJobs(cv: CVAnalysis, jobs: seq<Job>, cvVector: Vector, jobVectors: seq<Vector>,
                                            insights: seq<CompanyInsights>, cosine: (Vector, Vector) -> real,
                                            fmt: real -> String, n: nat)
    requires n <= |jobs| && n <= |jobVectors|
    ensures MatchesJobs(ScoredPrefix(cv, jobs, cvVector, jobVectors, insights, cosine, fmt, n), jobs)
  {
    if n > 0 {
      ScoredPrefixJobs(cv, jobs, cvVector, jobVectors, insights, cosine, fmt, n - 1);
      var p := ScoredPrefix(cv, jobs, cvVector, jobVectors, insights, cosine, fmt, n - 1);
      var m := ScoredPrefix(cv, jobs, cvVector, jobVectors, insights, cosine, fmt, n)[n - 1];
      assert ScoredPrefix(cv, jobs, cvVector, jobVectors, insights, cosine, fmt, n) == p + [m];
      MatchesJobsAppend(p, m, jobs);
    }
  }

  /** The ranked output of `match_and_rank`: in descending score order, and every
      entry is a valid match for one of the jobs. */
  lemma RankedMatches(cv: CVAnalysis, jobs: seq<Job>, cvVector: Vector, jobVectors: seq<Vector>,
                      insights: seq<CompanyInsights>, cosine: (Vector, Vector) -> real, fmt: real -> String)
    ensures var r := RankByScore(ScoredJobs(cv, jobs, cvVector, jobVectors, insights, cosine, fmt));
            && SortedByScore(r)
            && |r| == Min(|jobs|, |jobVectors|)
            && forall k :: 0 <= k < |r| ==> r[k].Valid() && r[k].job in jobs
  {
    var scored := ScoredJobs(cv, jobs, cvVector, jobVectors, insights, cosine, fmt);
    ScoredPrefixJobs(cv, jobs, cvVector, jobVectors, insights, cosine, fmt, Min(|jobs|, |jobVectors|));
    RankOfMatches(scored, jobs);
  }

  /** Ranking matches of the jobs sorts them and keeps them valid matches of
      those jobs. */
  lemma RankOfMatches(ms: seq<JobMatch>, jobs: seq<Job>)
    requires MatchesJobs(ms, jobs)
    ensures var r := RankByScore(ms);
            && SortedByScore(r) && |r| == |ms|
            && forall k :: 0 <= k < |r| ==> r[k].Valid() && r[k].job in jobs
  {
    var r := RankByScore(ms);
    RankSorted(ms);
    RankByScoreMembers(ms);
    forall k | 0 <= k < |r| ensures r[k].Valid() && r[k].job in jobs {
      assert r[k] in ms;
      var i :| 0 <= i < |ms| && ms[i] == r[k];
      assert ms[i].job == jobs[i];
    }
  }

  // ---------------------------------------------------------------------------
  // The CV text
  // ---------------------------------------------------------------------------

  function SkillPhrases(skill: String, years: int): (r: seq<String>)
  {
    ["Expert in " + skill, "Professional " + skill + " experience"]
    + (if years >= 3 then ["Advanced " + skill + " skills"] else [])
  }

  /** The phrases repeated for every skill to weigh it in the CV embedding: two
      per skill, three from three years of experience. */
  function SkillsContext(skills: seq<String>, years: int): (r: seq<String>)
    ensures |r| == |skills| * (if years >= 3 then 3 else 2)
  {
    if skills == [] then []
    else SkillsContext(skills[..|skills| - 1], years) + SkillPhrases(Last(skills), years)
  }

  /** The phrases for the skill at position `k` sit in block `k`. */
  lemma {:induction false} SkillsContextBlock(skills: seq<String>, years: int, k: nat)
    requires k < |skills|
    ensures var w := if years >= 3 then 3 else 2;
            (k + 1) * w <= |SkillsContext(skills, years)|
            && SkillsContext(skills, years)[k * w..(k + 1) * w] == SkillPhrases(skills[k], years)
  {
    var w := if years >= 3 then 3 else 2;
    var n := |skills|;
    var init := skills[..n - 1];
    var c := SkillsContext(init, years);
    assert |c| == (n - 1) * w;
    if k == n - 1 {
      assert SkillsContext(skills, years)[k * w..(k + 1) * w] == SkillPhrases(skills[k], years);
    } else {
      SkillsContextBlock(init, years, k);
      assert (k + 1) * w <= (n - 1) * w;
      assert init[k] == skills[k];
      assert SkillsContext(skills, years)[k * w..(k + 1) * w] == c[k * w..(k + 1) * w];
    }
  }

  /** The f-string describing the candidate. */
  function CandidateText(cv: CVAnalysis, role: String, location: String, context: seq<String>): String {
    var years := IntToString(cv.yearsOfExperience);
    var level := LevelName(cv.experienceLevel);
    "\n        Professional " + OrElse(role, "Developer") + " with " + years + " years of experience.\n"
    + "        " + level + " level professional.\n\n"
    + "        Core Technical Skills:\n"
    + "        " + Join(" ", context) + "\n\n"
    + "        Technical Expertise: " + Join(", ", cv.skills) + "\n\n"
    + "        Key Achievements and Experience:\n"
    + "        " + Join(" ", cv.keyAchievements) + "\n\n"
    + "        Career Level: " + level + " developer with proven track record\n"
    + "        Years of Experience: " + years + " years\n\n"
    + "        Looking for: " + OrElse(role, "challenging opportunities") + "\n"
    + "        Preferred Location: " + OrElse(location, "flexible") + "\n"
    + "        Location Preferences: " + Join(", ", cv.preferredLocations) + "\n\n"
    + "        This candidate has strong capabilities in: " + Join(", ", cv.skills) + "\n        "
  }

  function JobTexts(jobs: seq<Job>): (r: seq<String>)
    ensures |r| == |jobs|
  {
    seq(|jobs|, i requires 0 <= i < |jobs| => jobs[i].title + " " + jobs[i].description)
  }

  // ---------------------------------------------------------------------------
  // The matcher
  // ---------------------------------------------------------------------------

  datatype EmbeddingInput = Single(text: String) | Batch(texts: seq<String>)

  datatype EmbeddingRequest = EmbeddingRequest(input: EmbeddingInput, model: String)

  class SmartMatcher {
    /** The embedding service: one vector for a text, and a list of vectors for a
        list of texts. */
    const embedOne: String -> Vector
    const embedMany: seq<String> -> seq<Vector>
    /** The embeddings requests sent so far, oldest first. */
    var requests: seq<EmbeddingRequest>

    constructor (embedOne: String -> Vector, embedMany: seq<String> -> seq<Vector>)
      ensures this.embedOne == embedOne && this.embedMany == embedMany
      ensures requests == []
    {
      this.embedOne := embedOne;
      this.embedMany := embedMany;
      requests := [];
    }

    /** `_create_embedding`: one request carrying the preprocessed text. */
    method CreateEmbedding(text: String) returns (v: Vector)
      modifies this
      ensures requests == old(requests) + [EmbeddingRequest(Single(Preprocess(text)), EmbeddingModel)]
      ensures v == embedOne(Preprocess(text))
    {
      var cleaned := Preprocess(text);
      requests := requests + [EmbeddingRequest(Single(cleaned), EmbeddingModel)];
      v := embedOne(cleaned);
    }

    /** `_create_embeddings_batch`: all texts preprocessed one by one, then sent in
        a single request. */
    method CreateEmbeddingsBatch(texts: seq<String>) returns (vs: seq<Vector>)
      modifies this
      ensures requests == old(requests) + [EmbeddingRequest(Batch(PreprocessAll(texts)), EmbeddingModel)]
      ensures vs == embedMany(PreprocessAll(texts))
    {
      var cleaned: seq<String> := [];
      var i := 0;
      while i < |texts|
        invariant 0 <= i <= |texts|
        invariant |cleaned| == i
        invariant forall k :: 0 <= k < i ==> cleaned[k] == Preprocess(texts[k])
      {
        var text := Collapse(texts[i]);
        if |text| > MaxEmbeddingChars {
          text := text[..MaxEmbeddingChars];
        }
        cleaned := cleaned + [text];
        i := i + 1;
      }
      assert cleaned == PreprocessAll(texts);
      requests := requests + [EmbeddingRequest(Batch(cleaned), EmbeddingModel)];
      vs := embedMany(cleaned);
    }

    /** `match_and_rank`. The CV text is embedded first, so an empty job list still
        costs one single-text request and no batch request. Otherwise the job
        texts go out in one batch and the matches come back sorted. */
    method MatchAndRank(cv: CVAnalysis, jobs: seq<Job>, insights: seq<CompanyInsights>,
                        role: String, location: String,
                        cosine: (Vector, Vector) -> real, fmt: real -> String) returns (matches: seq<JobMatch>)
      modifies this
      ensures jobs == [] ==> matches == []
      ensures jobs == [] ==> requests == old(requests) + [CvRequest(cv, role, location)]
      ensures jobs != [] ==> requests == old(requests) + [CvRequest(cv, role, location)] + [JobsRequest(jobs)]
      ensures jobs != [] ==>
                matches == RankByScore(ScoredJobs(cv, jobs, embedOne(CvEmbeddingInput(cv, role, location)),
                                                  embedMany(PreprocessAll(JobTexts(jobs))), insights, cosine, fmt))
      ensures SortedByScore(matches)
      ensures forall k :: 0 <= k < |matches| ==> matches[k].Valid() && matches[k].job in jobs
    {
      var context := BuildSkillsContext(cv.skills, cv.yearsOfExperience);
      var cvText := CandidateText(cv, role, location, context);
      var cvVector := CreateEmbedding(cvText);

      matches := [];
      if jobs == [] {
        return;
      }

      var jobVectors := CreateEmbeddingsBatch(JobTexts(jobs));
      var scored := ScoreJobs(cv, jobs, cvVector, jobVectors, insights, cosine, fmt);
      matches := RankByScore(scored);
      RankedMatches(cv, jobs, cvVector, jobVectors, insights, cosine, fmt);
    }
  }

  /** The text of the single-text request for the CV. */
  function CvEmbeddingInput(cv: CVAnalysis, role: String, location: String): String {
    Preprocess(CandidateText(cv, role, location, SkillsContext(cv.skills, cv.yearsOfExperience)))
  }

  function CvRequest(cv: CVAnalysis, role: String, location: String): EmbeddingRequest {
    EmbeddingRequest(Single(CvEmbeddingInput(cv, role, location)), EmbeddingModel)
  }

  function JobsRequest(jobs: seq<Job>): EmbeddingRequest {
    EmbeddingRequest(Batch(PreprocessAll(JobTexts(jobs))), EmbeddingModel)
  }

  /** The `skills_context` loop of `match_and_rank`. */
  method BuildSkillsContext(skills: seq<String>, years: int) returns (context: seq<String>)
    ensures context == SkillsContext(skills, years)
  {
    context := [];
    var i := 0;
    while i < |skills|
      invariant 0 <= i <= |skills|
      invariant context == SkillsContext(skills[..i], years)
    {
      var skill := skills[i];
      assert skills[..i + 1][..i] == skills[..i];
      context := context + ["Expert in " + skill];
      context := context + ["Professional " + skill + " experience"];
      if years >= 3 {
        context := context + ["Advanced " + skill + " skills"];
      }
      i := i + 1;
    }
    assert skills[..|skills|] == skills;
  }

  /** The body of the scoring loop: overlap and gaps, base score, insight lookup,
      sentiment adjustment, recommendation and reasoning for one job. */
  method MatchOneJob(cv: CVAnalysis, job: Job, cvVector: Vector, jobVector: Vector, insights: seq<CompanyInsights>,
                     cosine: (Vector, Vector) -> real, fmt: real -> String)
    returns (m: JobMatch)
    ensures m == MatchJob(cv, job, CosineSimilarity(cvVector, jobVector, cosine(cvVector, jobVector)), insights, fmt)
  {
    var similarity := CosineSimilarity(cvVector, jobVector, cosine(cvVector, jobVector));
    var overlap, gaps := SkillOverlap(cv.skills, job.description);
    var base := BaseScore(similarity, cv.skills, job.description);
    var ci := FindInsight(insights, job.company);
    var score := ApplyInsightsBonus(base, ci.redditSentiment);
    var rec := Recommend(score);
    var reasoning := Reasoning(score, overlap, gaps, ci.redditSentiment, fmt);
    m := JobMatch(job, ci, score, overlap, gaps, rec, reasoning);
  }

  /** The scoring loop of `match_and_rank` over `zip(jobs, job_embeddings)`. */
  method ScoreJobs(cv: CVAnalysis, jobs: seq<Job>, cvVector: Vector, jobVectors: seq<Vector>,
                   insights: seq<CompanyInsights>, cosine: (Vector, Vector) -> real, fmt: real -> String)
    returns (matches: seq<JobMatch>)
    ensures matches == ScoredJobs(cv, jobs, cvVector, jobVectors, insights, cosine, fmt)
  {
    var n := Min(|jobs|, |jobVectors|);
    matches := [];
    var j := 0;
    while j < n
      invariant 0 <= j <= n
      invariant matches == ScoredPrefix(cv, jobs, cvVector, jobVectors, insights, cosine, fmt, j)
    {
      var m := MatchOneJob(cv, jobs[j], cvVector, jobVectors[j], insights, cosine, fmt);
      ScoredPrefixStep(cv, jobs, cvVector, jobVectors, insights, cosine, fmt, j, m);
      matches := matches + [m];
      j := j + 1;
    }
  }

  /** One more job adds its match to the scored prefix. */
  lemma ScoredPrefixStep(cv: CVAnalysis, jobs: seq<Job>, cvVector: Vector, jobVectors: seq<Vector>,
                         insights: seq<CompanyInsights>, cosine: (Vector, Vector) -> real, fmt: real -> String,
                         j: nat, m: JobMatch)
    requires j < |jobs| && j < |jobVectors|
    requires m == MatchJob(cv, jobs[j], CosineSimilarity(cvVector, jobVectors[j], cosine(cvVector, jobVectors[j])), insights, fmt)
    ensures ScoredPrefix(cv, jobs, cvVector, jobVectors, insights, cosine, fmt, j + 1)
            == ScoredPrefix(cv, jobs, cvVector, jobVectors, insights, cosine, fmt, j) + [m]
  {
  }
}
