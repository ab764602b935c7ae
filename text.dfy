/** Python string operations the core relies on, over `seq<char>` (one char per
    Unicode code point). Character classes follow Python's definitions where the
    repository depends on them: `IsSpace` is `str.isspace` (also what `\s`,
    `str.split()` and `str.strip()` use); `IsWordChar` and `Lower` are restricted
    to ASCII, which is all the repository's constants use. */
module Text {

  type String = seq<char>

  /** `str.isspace()` for one code point. */
  predicate IsSpace(c: char) {
    || c == ' '
    || ('\t' <= c <= '\r')
    || ('\U{1c}' <= c <= '\U{1f}')
    || c == '\U{85}' || c == '\U{a0}' || c == '\U{1680}'
    || ('\U{2000}' <= c <= '\U{200a}')
    || c == '\U{2028}' || c == '\U{2029}' || c == '\U{202f}' || c == '\U{205f}' || c == '\U{3000}'
  }

  predicate IsAsciiUpper(c: char) { 'A' <= c <= 'Z' }
  predicate IsAsciiLower(c: char) { 'a' <= c <= 'z' }
  predicate IsAsciiLetter(c: char) { IsAsciiUpper(c) || IsAsciiLower(c) }
  predicate IsDigit(c: char) { '0' <= c <= '9' }

  /** A character that the regular expression `\w` matches (so `\b` sits between
      a word character and a non-word character). */
  predicate IsWordChar(c: char) { IsAsciiLetter(c) || IsDigit(c) || c == '_' }

  function LowerChar(c: char): (r: char)
    ensures !IsAsciiUpper(r)
    ensures IsAsciiUpper(c) ==> IsAsciiLower(r) && r as int == c as int + 32
    ensures !IsAsciiUpper(c) ==> r == c
  {
    if IsAsciiUpper(c) then (c as int + 32) as char else c
  }

  function UpperChar(c: char): (r: char)
    ensures !IsAsciiLower(r)
    ensures IsAsciiLower(c) ==> IsAsciiUpper(r)
    ensures !IsAsciiLower(c) ==> r == c
  {
    if IsAsciiLower(c) then (c as int - 32) as char else c
  }

  /** `str.lower()`. */
  function Lower(s: String): (r: String)
    ensures |r| == |s|
    ensures forall i :: 0 <= i < |s| ==> r[i] == LowerChar(s[i])
  {
    seq(|s|, i requires 0 <= i < |s| => LowerChar(s[i]))
  }

  /** `str.title()`: a letter that follows a letter is lower-cased, any other
      letter is upper-cased. */
  function Title(s: String): (r: String)
    ensures |r| == |s|
    ensures forall i :: 0 <= i < |s| && !IsAsciiLetter(s[i]) ==> r[i] == s[i]
    ensures forall i :: 0 <= i < |s| && IsAsciiLetter(s[i]) ==>
              r[i] == if i > 0 && IsAsciiLetter(s[i - 1]) then LowerChar(s[i]) else UpperChar(s[i])
  {
    seq(|s|, i requires 0 <= i < |s| =>
      if i > 0 && IsAsciiLetter(s[i - 1]) then LowerChar(s[i]) else UpperChar(s[i]))
  }

  /** Title-casing changes letters only, so a missing punctuation mark stays
      missing. */
  lemma TitleKeepsAbsent(s: String, x: char)
    requires !IsAsciiLetter(x) && x !in s
    ensures x !in Title(s)
  {
    var r := Title(s);
    forall i | 0 <= i < |r| ensures r[i] != x {
      assert s[i] != x;
    }
  }

  /** `sub` occurs in `s` starting at position `i`. */
  predicate OccursAt(s: String, sub: String, i: int) {
    0 <= i && i + |sub| <= |s| && s[i..i + |sub|] == sub
  }

  /** `sub in s`. */
  predicate Contains(s: String, sub: String) {
    exists i :: 0 <= i <= |s| - |sub| && OccursAt(s, sub, i)
  }

  /** `any(p in s for p in pats)`. */
  predicate ContainsAny(s: String, pats: seq<String>) {
    exists k :: 0 <= k < |pats| && Contains(s, pats[k])
  }

  predicate IsPrefix<T(==)>(p: seq<T>, s: seq<T>) {
    |p| <= |s| && s[..|p|] == p
  }

  /** `s[:n]` for a non-negative `n`, on strings and lists alike. */
  function Take<T(==)>(s: seq<T>, n: nat): (r: seq<T>)
    ensures |r| == if n < |s| then n else |s|
    ensures IsPrefix(r, s)
  {
    if n < |s| then s[..n] else s
  }

  /** `s[:n]` for any integer `n`: a negative `n` leaves out that many
      elements at the end. */
  function Prefix<T(==)>(s: seq<T>, n: int): (r: seq<T>)
    ensures IsPrefix(r, s)
    ensures n >= 0 ==> r == Take(s, n)
    ensures n < 0 ==> |r| == if |s| + n > 0 then |s| + n else 0
  {
    if n >= 0 then Take(s, n) else if |s| + n > 0 then s[..|s| + n] else []
  }

  /** An optional string argument that is truthy: given and non-empty. */
  predicate Given(o: Option<String>) {
    o.Some? && o.value != []
  }

  /** `s.find(sub)`: the first position where `sub` occurs, if any. */
  function Find(s: String, sub: String): (r: Option<nat>)
    ensures r.Some? ==> OccursAt(s, sub, r.value)
    ensures r.Some? ==> forall j :: 0 <= j < r.value ==> !OccursAt(s, sub, j)
    ensures r.None? <==> !Contains(s, sub)
  {
    FindFrom(s, sub, 0)
  }

  function FindFrom(s: String, sub: String, from: nat): (r: Option<nat>)
    requires forall j :: 0 <= j < from ==> !OccursAt(s, sub, j)
    ensures r.Some? ==> from <= r.value && OccursAt(s, sub, r.value)
    ensures r.Some? ==> forall j :: 0 <= j < r.value ==> !OccursAt(s, sub, j)
    ensures r.None? <==> !Contains(s, sub)
    decreases |s| + 1 - from
  {
    if from + |sub| > |s| then
      assert !Contains(s, sub) by {
        forall j | 0 <= j <= |s| - |sub| ensures !OccursAt(s, sub, j) {
          assert j < from;
        }
      }
      None
    else if s[from..from + |sub|] == sub then
      assert OccursAt(s, sub, from);
      Some(from)
    else
      assert !OccursAt(s, sub, from);
      FindFrom(s, sub, from + 1)
  }

  /** `s.split(sep)` for a non-empty separator: the pieces between the
      non-overlapping occurrences of `sep`, found left to right. */
  function Split(s: String, sep: String): (r: seq<String>)
    requires sep != []
    ensures |r| >= 1
    ensures !Contains(s, sep) <==> r == [s]
    ensures Contains(s, sep) ==> |r| >= 2
    decreases |s|
  {
    match Find(s, sep)
    case None => [s]
    case Some(i) => [s[..i]] + Split(s[i + |sep|..], sep)
  }

  /** `s.split(sep, 1)` when `sep in s`: the text before and after the first
      occurrence. */
  function SplitOnce(s: String, sep: String): (r: (String, String))
    requires sep != [] && Contains(s, sep)
    ensures r.0 + sep + r.1 == s
    ensures !Contains(r.0, sep)
  {
    var i := Find(s, sep).value;
    assert s == s[..i] + s[i..i + |sep|] + s[i + |sep|..];
    NoEarlierOccurrence(s, sep, i);
    (s[..i], s[i + |sep|..])
  }

  lemma NoEarlierOccurrence(s: String, sep: String, i: nat)
    requires sep != [] && i + |sep| <= |s|
    requires forall j :: 0 <= j < i ==> !OccursAt(s, sep, j)
    ensures !Contains(s[..i], sep)
  {
    forall j | 0 <= j <= i - |sep| ensures !OccursAt(s[..i], sep, j) {
      assert s[..i][j..j + |sep|] == s[j..j + |sep|];
      assert !OccursAt(s, sep, j);
    }
  }

  /** The first piece of a split holds no separator. */
  lemma SplitFirstPiece(s: String, sep: String)
    requires sep != []
    ensures !Contains(Split(s, sep)[0], sep)
  {
    match Find(s, sep)
    case None =>
    case Some(i) => NoEarlierOccurrence(s, sep, i);
  }

  lemma LastAppend<T>(a: seq<T>, b: seq<T>)
    requires b != []
    ensures Last(a + b) == Last(b)
  {
  }

  /** A slice of a suffix is a slice of the whole. */
  lemma SliceOfSuffix<T>(s: seq<T>, a: nat, i: nat, j: nat)
    requires a <= |s| && i <= j <= |s| - a
    ensures s[a..][i..j] == s[a + i..a + j]
  {
  }

  lemma SuffixOfSuffix<T>(s: seq<T>, a: nat, i: nat)
    requires a + i <= |s|
    ensures s[a..][i..] == s[a + i..]
  {
  }

  /** The last piece of a split holds no separator. */
  lemma {:induction false} SplitLastNoSep(s: String, sep: String)
    requires sep != []
    ensures !Contains(Last(Split(s, sep)), sep)
    decreases |s|
  {
    match Find(s, sep)
    case None =>
    case Some(i) =>
      var rest := s[i + |sep|..];
      SplitLastNoSep(rest, sep);
      LastAppend([s[..i]], Split(rest, sep));
  }

  /** The last piece of a split is the text after an occurrence of the
      separator, or the whole string when there is none. */
  lemma {:induction false} SplitLastPiece(s: String, sep: String) returns (k: nat)
    requires sep != []
    ensures k <= |s| && Last(Split(s, sep)) == s[k..]
    ensures k == 0 <==> Find(s, sep).None?
    ensures k > 0 ==> OccursAt(s, sep, k - |sep|)
    decreases |s|
  {
    var f := Find(s, sep);
    if f.None? {
      k := 0;
    } else {
      var i := f.value;
      var k' := SplitLastPiece(s[i + |sep|..], sep);
      SplitLastAfter(s, sep, i, k');
      OccursBeforeSuffix(s, sep, i, k');
      k := i + |sep| + k';
    }
  }

  /** The last piece of a split past a first occurrence is that of the rest. */
  lemma SplitLastAfter(s: String, sep: String, i: nat, k': nat)
    requires sep != [] && Find(s, sep) == Some(i)
    requires k' <= |s[i + |sep|..]| && Last(Split(s[i + |sep|..], sep)) == s[i + |sep|..][k'..]
    ensures Last(Split(s, sep)) == s[i + |sep| + k'..]
  {
    var a := i + |sep|;
    var rest := Split(s[a..], sep);
    assert Split(s, sep) == [s[..i]] + rest;
    LastAppend([s[..i]], rest);
    SuffixOfSuffix(s, a, k');
  }

  /** The occurrence that ends where the last piece starts lies at `i`, or
      inside the rest after the occurrence at `i`. */
  lemma OccursBeforeSuffix(s: String, sep: String, i: nat, k': nat)
    requires OccursAt(s, sep, i)
    requires k' > 0 ==> OccursAt(s[i + |sep|..], sep, k' - |sep|)
    ensures OccursAt(s, sep, i + k')
  {
    if k' > 0 {
      OccursInSuffix(s, sep, i + |sep|, k' - |sep|);
    }
  }

  /** An occurrence in a suffix is an occurrence in the whole. */
  lemma OccursInSuffix(s: String, sub: String, a: nat, j: int)
    requires a <= |s| && OccursAt(s[a..], sub, j)
    ensures OccursAt(s, sub, a + j)
  {
    SliceOfSuffix(s, a, j, j + |sub|);
  }

  function Min(a: int, b: int): int { if a <= b then a else b }

  /** `min(n, limit)` used as a cap: never above the limit, `n` itself exactly
      when it is within the limit, and the limit otherwise. */
  function Cap(n: int, limit: int): (r: int)
    ensures r <= limit
    ensures r == n <==> n <= limit
    ensures n > limit ==> r == limit
  {
    Min(n, limit)
  }

  /** The last element of a non-empty list, Python's `parts[-1]`. */
  function Last<T>(xs: seq<T>): T
    requires |xs| > 0
  {
    xs[|xs| - 1]
  }

  /** `s.replace(pat, rep)` for a non-empty `pat`. */
  function Replace(s: String, pat: String, rep: String): (r: String)
    requires pat != []
    ensures !Contains(s, pat) ==> r == s
    decreases |s|
  {
    match Find(s, pat)
    case None => s
    case Some(i) => s[..i] + rep + Replace(s[i + |pat|..], pat, rep)
  }

  /** A one-character string is contained exactly where the character is. */
  lemma ContainsChar(s: String, c: char)
    ensures Contains(s, [c]) <==> c in s
  {
    if c in s {
      var i :| 0 <= i < |s| && s[i] == c;
      assert OccursAt(s, [c], i);
    }
    if Contains(s, [c]) {
      var i :| 0 <= i <= |s| - 1 && OccursAt(s, [c], i);
      assert s[i] == s[i..i + 1][0];
    }
  }

  /** `s.replace(c, d)` leaves a character `x` out of the result when `d`
      does not hold it and `x` is either `c` itself or missing from `s`. */
  lemma {:induction false} ReplaceCharAbsent(s: String, c: char, d: String, x: char)
    requires x !in d && (x == c || x !in s)
    ensures x !in Replace(s, [c], d)
    decreases |s|
  {
    var f := Find(s, [c]);
    if f.None? {
      ContainsChar(s, c);
    } else {
      var i := f.value;
      var rest := s[i + 1..];
      CharAbsentAround(s, c, x, i);
      ReplaceCharAbsent(rest, c, d, x);
      assert Replace(s, [c], d) == s[..i] + d + Replace(rest, [c], d);
    }
  }

  /** Before the first `c` there is no `x` when `x` is `c` or not in `s` at
      all; after it there is `x` only when `x` is `c`. */
  lemma CharAbsentAround(s: String, c: char, x: char, i: nat)
    requires i < |s| && (x == c || x !in s)
    requires forall j :: 0 <= j < i ==> !OccursAt(s, [c], j)
    ensures x !in s[..i] && (x == c || x !in s[i + 1..])
  {
    forall j | 0 <= j < i ensures s[..i][j] != x {
      assert !OccursAt(s, [c], j);
      assert s[j..j + 1] == [s[j]];
    }
    if x != c {
      var rest := s[i + 1..];
      forall k | 0 <= k < |rest| ensures rest[k] != x {
        assert rest[k] == s[i + 1 + k];
      }
    }
  }

  /** `sep.join(parts)`. */
  function Join(sep: String, parts: seq<String>): (r: String)
    ensures |parts| == 1 ==> r == parts[0]
  {
    if |parts| == 0 then []
    else if |parts| == 1 then parts[0]
    else parts[0] + sep + Join(sep, parts[1..])
  }

  lemma JoinCons(sep: String, p: String, rest: seq<String>)
    requires rest != []
    ensures Join(sep, [p] + rest) == p + sep + Join(sep, rest)
  {
    assert ([p] + rest)[1..] == rest;
  }

  /** `s.lstrip()`. */
  function StripLeft(s: String): (r: String)
    ensures |r| <= |s| && r == s[|s| - |r|..]
    ensures forall i :: 0 <= i < |s| - |r| ==> IsSpace(s[i])
    ensures r != [] ==> !IsSpace(r[0])
  {
    if s != [] && IsSpace(s[0]) then StripLeft(s[1..]) else s
  }

  /** `s.rstrip()`. */
  function StripRight(s: String): (r: String)
    ensures |r| <= |s| && r == s[..|r|]
    ensures forall i :: |r| <= i < |s| ==> IsSpace(s[i])
    ensures r != [] ==> !IsSpace(r[|r| - 1])
  {
    if s != [] && IsSpace(s[|s| - 1]) then StripRight(s[..|s| - 1]) else s
  }

  /** `s.strip()`. */
  function Strip(s: String): (r: String)
    ensures r == [] || (!IsSpace(r[0]) && !IsSpace(r[|r| - 1]))
  {
    StripRight(StripLeft(s))
  }

  /** The stripped string is a piece of the original. */
  lemma StripSlice(s: String) returns (k: nat)
    ensures SliceAt(Strip(s), s, k)
  {
    var l := StripLeft(s);
    k := |s| - |l|;
    assert SliceAt(Strip(s), s, k);
  }

  /** `lstrip` cuts a whitespace prefix. */
  lemma StripLeftPadding(s: String) returns (pre: String)
    ensures s == pre + StripLeft(s)
    ensures forall i :: 0 <= i < |pre| ==> IsSpace(pre[i])
  {
    pre := s[..|s| - |StripLeft(s)|];
  }

  /** `rstrip` cuts a whitespace suffix. */
  lemma StripRightPadding(s: String) returns (post: String)
    ensures s == StripRight(s) + post
    ensures forall i :: 0 <= i < |post| ==> IsSpace(post[i])
  {
    var r := StripRight(s);
    post := s[|r|..];
    assert forall i :: 0 <= i < |post| ==> post[i] == s[|r| + i];
  }

  /** The string is its stripped form with whitespace before and after. */
  lemma StripPadding(s: String) returns (pre: String, post: String)
    ensures s == pre + (Strip(s) + post)
    ensures forall i :: 0 <= i < |pre| ==> IsSpace(pre[i])
    ensures forall i :: 0 <= i < |post| ==> IsSpace(post[i])
  {
    pre := StripLeftPadding(s);
    post := StripRightPadding(StripLeft(s));
  }

  /** `r` is the piece `s[k..k + |r|]`. */
  predicate SliceAt(r: String, s: String, k: int) {
    0 <= k && k + |r| <= |s| && r == s[k..k + |r|]
  }

  /** `str.split()` with no argument: the maximal runs of non-whitespace
      characters. `cur` is the word being read. */
  function SplitWords(s: String, cur: String): (r: seq<String>)
    requires NoSpace(cur)
    ensures forall k :: 0 <= k < |r| ==> r[k] != [] && NoSpace(r[k])
  {
    if s == [] then (if cur == [] then [] else [cur])
    else if IsSpace(s[0]) then (if cur == [] then [] else [cur]) + SplitWords(s[1..], [])
    else SplitWords(s[1..], cur + [s[0]])
  }

  function Words(s: String): (r: seq<String>)
    ensures forall k :: 0 <= k < |r| ==> r[k] != [] && NoSpace(r[k])
  {
    SplitWords(s, [])
  }

  /** `" ".join(s.split())`. */
  function Collapse(s: String): String {
    Join(" ", Words(s))
  }

  predicate NoSpace(s: String) {
    forall i :: 0 <= i < |s| ==> !IsSpace(s[i])
  }

  /** No whitespace character is followed by another one. */
  predicate NoRepeatedSpace(s: String) {
    forall i :: 0 <= i < |s| - 1 ==> !(IsSpace(s[i]) && IsSpace(s[i + 1]))
  }

  predicate NoEdgeSpace(s: String) {
    s == [] || (!IsSpace(s[0]) && !IsSpace(s[|s| - 1]))
  }

  /** Every whitespace character is a plain space. */
  predicate OnlyPlainSpaces(s: String) {
    forall i :: 0 <= i < |s| && IsSpace(s[i]) ==> s[i] == ' '
  }

  /** The form into which both whitespace normalisations put text. */
  predicate Normalised(s: String) {
    NoRepeatedSpace(s) && NoEdgeSpace(s) && OnlyPlainSpaces(s)
  }

  /** The non-whitespace characters of `s`, in order. */
  function NonSpace(s: String): (r: String)
    ensures NoSpace(r)
  {
    if s == [] then []
    else (if IsSpace(s[0]) then [] else [s[0]]) + NonSpace(s[1..])
  }

  lemma NonSpaceAppend(a: String, b: String)
    ensures NonSpace(a + b) == NonSpace(a) + NonSpace(b)
  {
    if a != [] {
      assert (a + b)[1..] == a[1..] + b;
      NonSpaceAppend(a[1..], b);
    } else {
      assert a + b == b;
    }
  }

  lemma NonSpaceOfNoSpace(s: String)
    requires NoSpace(s)
    ensures NonSpace(s) == s
  {
    if s != [] { NonSpaceOfNoSpace(s[1..]); }
  }

  lemma NonSpaceOfSpaces(s: String)
    requires forall i :: 0 <= i < |s| ==> IsSpace(s[i])
    ensures NonSpace(s) == []
  {
    if s != [] { NonSpaceOfSpaces(s[1..]); }
  }

  /** A joined list of words is in normal form. */
  lemma {:induction false} JoinWordsNormalised(ws: seq<String>)
    requires forall k :: 0 <= k < |ws| ==> ws[k] != [] && NoSpace(ws[k])
    ensures Normalised(Join(" ", ws))
    ensures |ws| > 0 ==> Join(" ", ws) != [] && Join(" ", ws)[0] == ws[0][0]
  {
    if |ws| >= 2 {
      JoinWordsNormalised(ws[1..]);
      var t := Join(" ", ws[1..]);
      var j := Join(" ", ws);
      assert j == ws[0] + " " + t;
      var n := |ws[0]|;
      assert t[0] == ws[1][0];
      forall i | 0 <= i < |j| && IsSpace(j[i]) ensures j[i] == ' ' {
        if i > n { assert j[i] == t[i - n - 1]; }
      }
      forall i | 0 <= i < |j| - 1 ensures !(IsSpace(j[i]) && IsSpace(j[i + 1])) {
        if i > n { assert j[i] == t[i - n - 1] && j[i + 1] == t[i - n]; }
        else if i == n { assert j[i + 1] == t[0]; }
        else if i == n - 1 { assert j[i] == ws[0][n - 1]; }
        else { assert j[i] == ws[0][i] && j[i + 1] == ws[0][i + 1]; }
      }
      assert j[|j| - 1] == t[|t| - 1];
    }
  }

  lemma CollapseNormalised(s: String)
    ensures Normalised(Collapse(s))
  {
    JoinWordsNormalised(Words(s));
  }

  /** Splitting text that is already in normal form and joining it again gives it
      back: `" ".join(t.split()) == t`. `cur` is the word read so far. */
  lemma {:induction false} JoinSplitNormalised(t: String, cur: String)
    requires NoSpace(cur)
    requires NoRepeatedSpace(t) && OnlyPlainSpaces(t)
    requires t == [] || !IsSpace(t[|t| - 1])
    requires cur == [] ==> t == [] || !IsSpace(t[0])
    ensures Join(" ", SplitWords(t, cur)) == cur + t
    decreases |t|
  {
    if t == [] {
    } else if IsSpace(t[0]) {
      var rest := t[1..];
      assert |t| >= 2 && rest[0] == t[1];
      JoinSplitNormalised(rest, []);
      var l := SplitWords(rest, []);
      SplitWordsNonEmpty(rest, []);
      JoinCons(" ", cur, l);
      assert SplitWords(t, cur) == [cur] + l;
      assert cur + t == cur + " " + rest;
    } else {
      JoinSplitNormalised(t[1..], cur + [t[0]]);
      assert cur + [t[0]] + t[1..] == cur + t;
    }
  }

  lemma {:induction false} SplitWordsNonEmpty(s: String, cur: String)
    requires NoSpace(cur)
    requires cur != [] || (s != [] && !IsSpace(s[0]))
    ensures SplitWords(s, cur) != []
    decreases |s|
  {
    if s == [] {
    } else if IsSpace(s[0]) {
    } else {
      SplitWordsNonEmpty(s[1..], cur + [s[0]]);
    }
  }

  lemma CollapseOfNormalised(t: String)
    requires Normalised(t)
    ensures Collapse(t) == t
  {
    JoinSplitNormalised(t, []);
  }

  /** Leading whitespace does not change the words. */
  lemma {:induction false} SplitWordsDropLeading(s: String, k: nat)
    requires k <= |s|
    requires forall i :: 0 <= i < k ==> IsSpace(s[i])
    ensures SplitWords(s[k..], []) == SplitWords(s, [])
    decreases k
  {
    if k > 0 {
      assert s[1..][k - 1..] == s[k..];
      SplitWordsDropLeading(s[1..], k - 1);
    }
  }

  lemma {:induction false} SplitWordsOfSpaces(z: String)
    requires forall i :: 0 <= i < |z| ==> IsSpace(z[i])
    ensures SplitWords(z, []) == []
    decreases |z|
  {
    if z != [] { SplitWordsOfSpaces(z[1..]); }
  }

  /** Trailing whitespace does not change the words. */
  lemma {:induction false} SplitWordsDropTrailing(y: String, z: String, cur: String)
    requires NoSpace(cur)
    requires forall i :: 0 <= i < |z| ==> IsSpace(z[i])
    ensures SplitWords(y + z, cur) == SplitWords(y, cur)
    decreases |y|
  {
    if y == [] {
      assert y + z == z;
      if z != [] {
        SplitWordsOfSpaces(z[1..]);
      }
    } else {
      assert (y + z)[0] == y[0] && (y + z)[1..] == y[1..] + z;
      if IsSpace(y[0]) {
        SplitWordsDropTrailing(y[1..], z, []);
      } else {
        SplitWordsDropTrailing(y[1..], z, cur + [y[0]]);
      }
    }
  }

  lemma WordsOfStrip(s: String)
    ensures Words(Strip(s)) == Words(s)
  {
    var pre := StripLeftPadding(s);
    var l := StripLeft(s);
    SplitWordsDropSpaces(pre, l);
    var post := StripRightPadding(l);
    SplitWordsDropTrailing(StripRight(l), post, []);
  }

  /** Leading spaces add no word. */
  lemma SplitWordsDropSpaces(pre: String, rest: String)
    requires forall i :: 0 <= i < |pre| ==> IsSpace(pre[i])
    ensures SplitWords(pre + rest, []) == SplitWords(rest, [])
  {
    assert (pre + rest)[|pre|..] == rest;
    forall i | 0 <= i < |pre| ensures IsSpace((pre + rest)[i]) {
      assert (pre + rest)[i] == pre[i];
    }
    SplitWordsDropLeading(pre + rest, |pre|);
  }

  /** The non-space characters survive `Collapse`, in order. */
  lemma {:induction false} NonSpaceOfJoin(ws: seq<String>)
    requires forall k :: 0 <= k < |ws| ==> NoSpace(ws[k])
    ensures NonSpace(Join(" ", ws)) == NonSpace(Concat(ws))
  {
    if |ws| == 1 {
      assert ws[1..] == [];
      assert Concat(ws) == ws[0] + Concat(ws[1..]) == ws[0];
    } else if |ws| >= 2 {
      NonSpaceOfJoin(ws[1..]);
      NonSpaceAppend(ws[0] + " ", Join(" ", ws[1..]));
      NonSpaceAppend(ws[0], " ");
      NonSpaceAppend(ws[0], Concat(ws[1..]));
    }
  }

  function Concat(ws: seq<String>): String {
    if ws == [] then [] else ws[0] + Concat(ws[1..])
  }

  /** The words of `s` hold exactly its non-space characters, which are `cur`
      followed by those of `s`. */
  lemma {:induction false} ConcatSplitWords(s: String, cur: String)
    requires NoSpace(cur)
    ensures Concat(SplitWords(s, cur)) == cur + NonSpace(s)
    decreases |s|
  {
    if s == [] {
      if cur != [] { assert Concat([cur]) == cur + Concat([]); }
    } else if IsSpace(s[0]) {
      var rest := SplitWords(s[1..], []);
      ConcatSplitWords(s[1..], []);
      var emitted := if cur == [] then [] else [cur];
      assert SplitWords(s, cur) == emitted + rest;
      ConcatAppend(emitted, rest);
      if cur != [] { assert Concat([cur]) == cur + Concat([]); }
      assert NonSpace(s) == NonSpace(s[1..]);
      assert Concat(rest) == [] + NonSpace(s[1..]);
    } else {
      var cur' := cur + [s[0]];
      ConcatSplitWords(s[1..], cur');
      assert SplitWords(s, cur) == SplitWords(s[1..], cur');
      assert NonSpace(s) == [s[0]] + NonSpace(s[1..]);
      assert cur' + NonSpace(s[1..]) == cur + ([s[0]] + NonSpace(s[1..]));
    }
  }

  lemma {:induction false} ConcatAppend(a: seq<String>, b: seq<String>)
    ensures Concat(a + b) == Concat(a) + Concat(b)
  {
    if a == [] {
      assert a + b == b;
    } else {
      assert (a + b)[1..] == a[1..] + b;
      ConcatAppend(a[1..], b);
    }
  }

  lemma CollapseKeepsNonSpace(s: String)
    ensures NonSpace(Collapse(s)) == NonSpace(s)
  {
    NonSpaceOfJoin(Words(s));
    ConcatSplitWords(s, []);
    assert Concat(Words(s)) == NonSpace(s);
    NonSpaceOfNoSpace(NonSpace(s));
  }

  /** Decimal rendering of an integer, as `str(n)` / `f"{n}"`. */
  function IntToString(n: int): (r: String)
    ensures r != []
  {
    if n < 0 then "-" + NatToString(-n) else NatToString(n)
  }

  function NatToString(n: nat): (r: String)
    ensures r != []
    ensures forall i :: 0 <= i < |r| ==> IsDigit(r[i])
  {
    if n < 10 then [DigitChar(n)] else NatToString(n / 10) + [DigitChar(n % 10)]
  }

  function DigitChar(d: nat): (c: char)
    requires d < 10
    ensures IsDigit(c)
  {
    ('0' as int + d) as char
  }

  /** `s or default` for a string: an empty string is falsy. */
  function OrElse(s: String, default: String): String {
    if s != [] then s else default
  }

  datatype Option<+T> = None | Some(value: T)

  datatype Result<+T, +E> = Success(value: T) | Failure(error: E)

  /** A field of a JSON object or of an SDK result object: missing, present with
      the value null/None, or present with a string. */
  datatype JsonText = Absent | Null | Text(str: String)

  /** `obj.get(key, default)`, when the value is not null. */
  function TextOr(f: JsonText, default: String): String
    requires !f.Null?
  {
    if f.Text? then f.str else default
  }

  /** Python truthiness of `obj.get(key, '')`. */
  predicate Truthy(f: JsonText) {
    f.Text? && f.str != []
  }
}
