/** Text normalisation of the CV analyser: `CVAnalyzer._clean_text` replaces
    every run of whitespace by one space (`re.sub(r'\s+', ' ', text)`) and then
    strips the ends (`text.strip()`). Reading the PDF and the chat-completion call
    around it are not modelled. */
module CvAnalyzer {
  import opened Text

  /** `re.sub(r'\s+', ' ', s)`; `inRun` says that the previous character was
      whitespace, so a further whitespace character adds nothing. */
  function SqueezeRuns(s: String, inRun: bool): (r: String)
  {
    if s == [] then []
    else if IsSpace(s[0]) then (if inRun then [] else [' ']) + SqueezeRuns(s[1..], true)
    else [s[0]] + SqueezeRuns(s[1..], false)
  }

  function SubWhitespace(s: String): String {
    SqueezeRuns(s, false)
  }

  /** `_clean_text`. */
  function CleanText(s: String): String {
    Strip(SubWhitespace(s))
  }

  lemma {:induction false} SqueezeRunsShape(s: String, inRun: bool)
    ensures OnlyPlainSpaces(SqueezeRuns(s, inRun))
    ensures NoRepeatedSpace(SqueezeRuns(s, inRun))
    ensures inRun && SqueezeRuns(s, inRun) != [] ==> !IsSpace(SqueezeRuns(s, inRun)[0])
    ensures SqueezeRuns(s, inRun) != [] && IsSpace(SqueezeRuns(s, inRun)[0]) ==> s != [] && IsSpace(s[0])
    decreases |s|
  {
    if s != [] {
      var r := SqueezeRuns(s, inRun);
      if IsSpace(s[0]) {
        var t := SqueezeRuns(s[1..], true);
        SqueezeRunsShape(s[1..], true);
        assert r == (if inRun then [] else [' ']) + t;
        if !inRun {
          forall i | 0 <= i < |r| - 1 ensures !(IsSpace(r[i]) && IsSpace(r[i + 1])) {
            if i > 0 { assert r[i] == t[i - 1] && r[i + 1] == t[i]; }
            else { assert r[1] == t[0]; }
          }
          forall i | 0 <= i < |r| && IsSpace(r[i]) ensures r[i] == ' ' {
            if i > 0 { assert r[i] == t[i - 1]; }
          }
        }
      } else {
        var t := SqueezeRuns(s[1..], false);
        SqueezeRunsShape(s[1..], false);
        assert r == [s[0]] + t;
        forall i | 0 <= i < |r| - 1 ensures !(IsSpace(r[i]) && IsSpace(r[i + 1])) {
          if i > 0 { assert r[i] == t[i - 1] && r[i + 1] == t[i]; }
        }
        forall i | 0 <= i < |r| && IsSpace(r[i]) ensures r[i] == ' ' {
          if i > 0 { assert r[i] == t[i - 1]; }
        }
      }
    }
  }

  lemma {:induction false} SqueezeRunsNonSpace(s: String, inRun: bool)
    ensures NonSpace(SqueezeRuns(s, inRun)) == NonSpace(s)
    decreases |s|
  {
    if s != [] {
      SqueezeRunsNonSpace(s[1..], IsSpace(s[0]));
      var head := if IsSpace(s[0]) then (if inRun then [] else [' ']) else [s[0]];
      var tail := SqueezeRuns(s[1..], IsSpace(s[0]));
      NonSpaceAppend(head, tail);
      if IsSpace(s[0]) && !inRun { assert NonSpace([' ']) == []; }
    }
  }

  /** Squeezing whitespace runs does not change the words. */
  lemma {:induction false} SqueezeRunsWords(s: String, inRun: bool, cur: String)
    requires NoSpace(cur)
    requires inRun ==> cur == []
    ensures SplitWords(SqueezeRuns(s, inRun), cur) == SplitWords(s, cur)
    decreases |s|
  {
    if s != [] {
      var r := SqueezeRuns(s, inRun);
      if IsSpace(s[0]) {
        var t := SqueezeRuns(s[1..], true);
        SqueezeRunsWords(s[1..], true, []);
        if !inRun {
          assert r == [' '] + t && r[0] == ' ' && r[1..] == t;
        } else {
          assert r == t;
          assert SplitWords(s, []) == SplitWords(s[1..], []);
        }
      } else {
        var t := SqueezeRuns(s[1..], false);
        SqueezeRunsWords(s[1..], false, cur + [s[0]]);
        assert r == [s[0]] + t && r[0] == s[0] && r[1..] == t;
      }
    }
  }

  lemma StripSliceKeepsShape(r: String, s: String, k: int)
    requires SliceAt(r, s, k)
    requires OnlyPlainSpaces(s) && NoRepeatedSpace(s)
    ensures OnlyPlainSpaces(r) && NoRepeatedSpace(r)
  {
    forall i | 0 <= i < |r| ensures r[i] == s[k + i] { }
  }

  /** Whitespace padding on either side adds no non-space character. */
  lemma NonSpaceOfPadded(pre: String, r: String, post: String)
    requires forall i :: 0 <= i < |pre| ==> IsSpace(pre[i])
    requires forall i :: 0 <= i < |post| ==> IsSpace(post[i])
    ensures NonSpace(pre + (r + post)) == NonSpace(r)
  {
    NonSpaceAppend(pre, r + post);
    NonSpaceAppend(r, post);
    NonSpaceOfSpaces(pre);
    NonSpaceOfSpaces(post);
  }

  lemma StripKeepsNonSpace(s: String)
    ensures NonSpace(Strip(s)) == NonSpace(s)
  {
    var pre, post := StripPadding(s);
    NonSpaceOfPadded(pre, Strip(s), post);
  }

  /** The output never holds two whitespace characters in a row, has none at
      either end, and every whitespace character in it is a plain space. */
  lemma CleanTextNormalised(s: String)
    ensures Normalised(CleanText(s))
  {
    var q := SubWhitespace(s);
    SqueezeRunsShape(s, false);
    var k := StripSlice(q);
    StripSliceKeepsShape(CleanText(s), q, k);
  }

  /** Deleting all whitespace from the input and from the output gives the same
      string: no other character is added, dropped or moved. */
  lemma CleanTextKeepsNonSpace(s: String)
    ensures NonSpace(CleanText(s)) == NonSpace(s)
  {
    StripKeepsNonSpace(SubWhitespace(s));
    SqueezeRunsNonSpace(s, false);
  }

  /** `_clean_text(s)` is `" ".join(s.split())`, the normalisation the matcher
      applies before embedding. */
  lemma CleanTextIsCollapse(s: String)
    ensures CleanText(s) == Collapse(s)
  {
    var t := CleanText(s);
    CleanTextNormalised(s);
    CollapseOfNormalised(t);
    WordsOfStrip(SubWhitespace(s));
    SqueezeRunsWords(s, false, []);
    assert Words(t) == Words(s);
  }

  lemma CleanTextIdempotent(s: String)
    ensures CleanText(CleanText(s)) == CleanText(s)
  {
    var t := CleanText(s);
    CleanTextIsCollapse(t);
    CleanTextNormalised(s);
    CollapseOfNormalised(t);
  }

  /** The output is empty exactly when the input is empty or all whitespace. */
  lemma CleanTextEmpty(s: String)
    ensures CleanText(s) == [] <==> forall i :: 0 <= i < |s| ==> IsSpace(s[i])
  {
    CleanTextKeepsNonSpace(s);
    var t := CleanText(s);
    if forall i :: 0 <= i < |s| ==> IsSpace(s[i]) {
      NonSpaceOfSpaces(s);
      CleanTextNormalised(s);
    } else {
      var i :| 0 <= i < |s| && !IsSpace(s[i]);
      assert s == s[..i] + [s[i]] + s[i + 1..];
      NonSpaceAppend(s[..i] + [s[i]], s[i + 1..]);
      NonSpaceAppend(s[..i], [s[i]]);
    }
  }
}
