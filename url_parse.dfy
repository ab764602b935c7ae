/** The part of `urllib.parse.urlparse` (CPython 3.12) that the Brave Search
    agent reads: the network location. `urlparse` takes it from `urlsplit`,
    which first cleans the text, then removes a scheme and takes what follows
    "//" up to the path, query or fragment. A bracketed host must be a valid
    IPv6 or IPvFuture address, checked with `ipaddress.ip_address`; otherwise
    `urlsplit` raises `ValueError`, written `None` here. */
module UrlParse {
  import opened Text

  // ---------------------------------------------------------------------------
  // Cleaning the input
  // ---------------------------------------------------------------------------

  /** `_WHATWG_C0_CONTROL_OR_SPACE`: U+0000 to U+001F and the space. */
  predicate IsC0OrSpace(c: char) { c <= ' ' }

  /** `url.lstrip(_WHATWG_C0_CONTROL_OR_SPACE)`: a suffix that does not start
      with a control character or a space. */
  function StripC0(s: String): (r: String)
    ensures |r| <= |s| && r == s[|s| - |r|..]
    ensures r != [] ==> !IsC0OrSpace(r[0])
    decreases |s|
  {
    if s != [] && IsC0OrSpace(s[0]) then StripC0(s[1..]) else s
  }

  /** Only controls and spaces are stripped, so the suffix is the longest
      one that does not start with one. */
  lemma {:induction false} StripC0RemovesOnlyC0(s: String)
    ensures forall j :: 0 <= j < |s| - |StripC0(s)| ==> IsC0OrSpace(s[j])
    decreases |s|
  {
    if s != [] && IsC0OrSpace(s[0]) {
      StripC0RemovesOnlyC0(s[1..]);
      assert forall j :: 1 <= j < |s| - |StripC0(s)| ==> s[j] == s[1..][j - 1];
    }
  }

  /** `_UNSAFE_URL_BYTES_TO_REMOVE`: tab, carriage return and line feed. */
  predicate IsUnsafeUrlChar(c: char) { c == '\t' || c == '\r' || c == '\n' }

  /** The loop over `_UNSAFE_URL_BYTES_TO_REMOVE`: each one replaced by
      nothing, in turn. */
  function RemoveUnsafe(s: String): String {
    Replace(Replace(Replace(s, "\t", ""), "\r", ""), "\n", "")
  }

  /** The characters of `s` other than `c`, in order. */
  function Without(s: String, c: char): (r: String)
    ensures c !in r
    decreases |s|
  {
    if s == [] then [] else (if s[0] == c then [] else [s[0]]) + Without(s[1..], c)
  }

  /** The characters of `s` that are not tab, carriage return or line feed,
      in order: the reference for `RemoveUnsafe`. */
  function SafeChars(s: String): (r: String)
    ensures forall j :: 0 <= j < |r| ==> !IsUnsafeUrlChar(r[j])
    decreases |s|
  {
    if s == [] then [] else (if IsUnsafeUrlChar(s[0]) then [] else [s[0]]) + SafeChars(s[1..])
  }

  lemma {:induction false} WithoutAppend(a: String, b: String, c: char)
    ensures Without(a + b, c) == Without(a, c) + Without(b, c)
    decreases |a|
  {
    if a != [] {
      assert (a + b)[1..] == a[1..] + b;
      WithoutAppend(a[1..], b, c);
    } else {
      assert a + b == b;
    }
  }

  lemma {:induction false} WithoutAbsent(s: String, c: char)
    requires c !in s
    ensures Without(s, c) == s
    decreases |s|
  {
    if s != [] {
      WithoutAbsent(s[1..], c);
      assert s == [s[0]] + s[1..];
    }
  }

  /** `s.replace(c, "")` deletes exactly the occurrences of `c`. */
  lemma {:induction false} ReplaceByNothing(s: String, c: char)
    ensures Replace(s, [c], []) == Without(s, c)
    decreases |s|
  {
    var f := Find(s, [c]);
    if f.None? {
      ContainsChar(s, c);
      WithoutAbsent(s, c);
    } else {
      var i := f.value;
      var rest := s[i + 1..];
      CharAbsentAround(s, c, c, i);
      assert s[i..i + 1] == [c];
      assert s == s[..i] + [c] + rest;
      ReplaceByNothing(rest, c);
      WithoutAppend(s[..i] + [c], rest, c);
      WithoutAppend(s[..i], [c], c);
      WithoutAbsent(s[..i], c);
      assert Without([c], c) == [];
      assert Replace(s, [c], []) == s[..i] + [] + Replace(rest, [c], []);
    }
  }

  /** Deleting tab, then carriage return, then line feed keeps exactly the
      other characters, in order. */
  lemma {:induction false} WithoutThree(s: String)
    ensures Without(Without(Without(s, '\t'), '\r'), '\n') == SafeChars(s)
    decreases |s|
  {
    if s != [] {
      var x := [s[0]];
      var t := s[1..];
      assert s == x + t;
      WithoutAppend(x, t, '\t');
      var a := Without(x, '\t');
      WithoutAppend(a, Without(t, '\t'), '\r');
      var b := Without(a, '\r');
      WithoutAppend(b, Without(Without(t, '\t'), '\r'), '\n');
      WithoutThree(t);
      assert Without(b, '\n') == if IsUnsafeUrlChar(s[0]) then [] else x;
    }
  }

  /** Removing the unsafe characters keeps exactly the safe ones, in order. */
  lemma RemoveUnsafeIsSafeChars(s: String)
    ensures RemoveUnsafe(s) == SafeChars(s)
  {
    ReplaceByNothing(s, '\t');
    ReplaceByNothing(Without(s, '\t'), '\r');
    ReplaceByNothing(Without(Without(s, '\t'), '\r'), '\n');
    WithoutThree(s);
  }

  lemma {:induction false} SafeCharsSplit(a: String, b: String)
    ensures SafeChars(a + b) == SafeChars(a) + SafeChars(b)
    decreases |a|
  {
    if a != [] {
      assert (a + b)[1..] == a[1..] + b;
      SafeCharsSplit(a[1..], b);
    } else {
      assert a + b == b;
    }
  }

  lemma {:induction false} SafeCharsOfSafe(s: String)
    requires forall j :: 0 <= j < |s| ==> !IsUnsafeUrlChar(s[j])
    ensures SafeChars(s) == s
    decreases |s|
  {
    if s != [] {
      SafeCharsOfSafe(s[1..]);
      assert s == [s[0]] + s[1..];
    }
  }

  /** The text `urlsplit` parses: leading controls and spaces stripped, then
      tab, carriage return and line feed deleted everywhere. */
  function SplitInput(url: String): String {
    RemoveUnsafe(StripC0(url))
  }

  /** The cleaned text holds no tab, carriage return or line feed, does not
      start with a control character or a space, and is the safe characters
      of the stripped text. */
  lemma SplitInputShape(url: String)
    ensures SplitInput(url) == SafeChars(StripC0(url))
    ensures forall j :: 0 <= j < |SplitInput(url)| ==> !IsUnsafeUrlChar(SplitInput(url)[j])
    ensures SplitInput(url) != [] ==> !IsC0OrSpace(SplitInput(url)[0])
  {
    var s := StripC0(url);
    RemoveUnsafeIsSafeChars(s);
    if s != [] {
      assert !IsUnsafeUrlChar(s[0]);
      assert SafeChars(s) == [s[0]] + SafeChars(s[1..]);
    }
  }

  /** Cleaning is idempotent. */
  lemma SplitInputIdempotent(url: String)
    ensures SplitInput(SplitInput(url)) == SplitInput(url)
  {
    var t := SplitInput(url);
    SplitInputShape(url);
    assert StripC0(t) == t;
    RemoveUnsafeIsSafeChars(t);
    SafeCharsOfSafe(t);
  }

  /** Leading controls and spaces make no difference to the cleaned text. */
  lemma SplitInputSkipsLeading(c: char, url: String)
    requires IsC0OrSpace(c)
    ensures SplitInput([c] + url) == SplitInput(url)
  {
    assert ([c] + url)[1..] == url;
  }

  // ---------------------------------------------------------------------------
  // Scheme and network location
  // ---------------------------------------------------------------------------

  /** `scheme_chars`. */
  predicate IsSchemeChar(c: char) { IsAsciiLetter(c) || IsDigit(c) || c == '+' || c == '-' || c == '.' }

  /** What `urlsplit` leaves once a valid `scheme:` prefix is removed: the text
      before the first ':' is a scheme when it is non-empty, starts with a
      letter and holds only scheme characters. */
  function AfterScheme(url: String): (r: String)
    ensures |r| <= |url| && r == url[|url| - |r|..]
  {
    match Find(url, ":")
    case None => url
    case Some(i) =>
      if i > 0 && IsAsciiLetter(url[0]) && (forall j :: 0 <= j < i ==> IsSchemeChar(url[j])) then url[i + 1..]
      else url
  }

  predicate IsNetlocEnd(c: char) { c == '/' || c == '?' || c == '#' }

  /** `_splitnetloc`: the first position at or after `from` holding '/', '?'
      or '#', or the end. */
  function NetlocEnd(s: String, from: nat): (r: nat)
    requires from <= |s|
    ensures from <= r <= |s|
    ensures forall j :: from <= j < r ==> !IsNetlocEnd(s[j])
    ensures r < |s| ==> IsNetlocEnd(s[r])
    decreases |s| - from
  {
    if from == |s| || IsNetlocEnd(s[from]) then from else NetlocEnd(s, from + 1)
  }

  /** The text `urlsplit` takes the netloc from: the cleaned URL after its
      scheme. */
  function SchemeRest(url: String): String {
    AfterScheme(SplitInput(url))
  }

  /** `_splitnetloc(rest, 2)`: what follows "//" up to the path, query or
      fragment. */
  function NetlocText(rest: String): (n: String)
    requires IsPrefix("//", rest)
    ensures forall j :: 0 <= j < |n| ==> !IsNetlocEnd(n[j])
  {
    rest[2..NetlocEnd(rest, 2)]
  }

  /** `urlsplit(url).netloc`, or `None` for the `ValueError` it raises: after
      cleaning and an optional scheme, the text following "//" up to the
      path, query or fragment, and empty without "//". A '[' without a ']',
      or the reverse, is refused, and so is a netloc with both whose
      bracketed host `_check_bracketed_netloc` rejects. */
  function Netloc(url: String): (r: Option<String>)
    ensures r.Some? ==> forall j :: 0 <= j < |r.value| ==> !IsNetlocEnd(r.value[j])
    ensures !IsPrefix("//", SchemeRest(url)) ==> r == Some([])
    ensures IsPrefix("//", SchemeRest(url)) ==> (r.None? <==> !BracketsValid(NetlocText(SchemeRest(url))))
  {
    var rest := SchemeRest(url);
    if IsPrefix("//", rest) then
      var n := NetlocText(rest);
      if BracketsValid(n) then Some(n) else None
    else Some([])
  }

  /** The two bracket checks of `urlsplit`: both brackets or neither, and
      with both, `_check_bracketed_netloc` passes. */
  predicate BracketsValid(n: String) {
    if ('[' in n) != (']' in n) then false
    else if '[' in n then BracketedNetlocValid(n)
    else true
  }

  /** `_check_bracketed_netloc`: the host and port follow the last '@'.
      Where they hold a '[', nothing may precede it, the host runs to the
      first ']', and what follows that may only be a ":" port. Otherwise the
      host runs to the first ':'. The host must pass `_check_bracketed_host`. */
  predicate BracketedNetlocValid(n: String) {
    var hp := Last(Split(n, "@"));
    match Find(hp, "[")
    case Some(i) =>
      if i > 0 then false
      else
        var b := hp[i + 1..];
        (match Find(b, "]")
         case Some(j) => var port := b[j + 1..]; (port == [] || port[0] == ':') && BracketedHostValid(b[..j])
         case None => BracketedHostValid(b))
    case None =>
      match Find(hp, ":")
      case Some(j) => BracketedHostValid(hp[..j])
      case None => BracketedHostValid(hp)
  }

  /** `_check_bracketed_host`: a host starting with 'v' must match the
      IPvFuture pattern; any other must be an IP address and not IPv4. */
  predicate BracketedHostValid(h: String) {
    if IsPrefix("v", h) then IsIPvFuture(h)
    else if IsIPv4Address(h) then false
    else IsIPv6Address(h)
  }

  // ---------------------------------------------------------------------------
  // Address grammars
  // ---------------------------------------------------------------------------

  predicate IsHexDigit(c: char) { IsDigit(c) || 'a' <= c <= 'f' || 'A' <= c <= 'F' }

  /** The first position at or after `from` that is not a hex digit, or the end. */
  function HexRunEnd(s: String, from: nat): (r: nat)
    requires from <= |s|
    ensures from <= r <= |s|
    ensures forall j :: from <= j < r ==> IsHexDigit(s[j])
    ensures r < |s| ==> !IsHexDigit(s[r])
    decreases |s| - from
  {
    if from == |s| || !IsHexDigit(s[from]) then from else HexRunEnd(s, from + 1)
  }

  /** `re.match(r"\Av[a-fA-F0-9]+\..+\Z", h)`: 'v', at least one hex digit, a
      '.', and at least one more character, none of them a line feed. The hex
      run cannot hold '.', so it must end exactly at the '.'. */
  predicate IsIPvFuture(h: String) {
    && |h| >= 1 && h[0] == 'v'
    && var k := HexRunEnd(h, 1);
       k >= 2 && k + 1 < |h| && h[k] == '.' && '\n' !in h[k + 1..]
  }

  /** The value of a string of decimal digits. */
  function DecimalValue(s: String): nat
    requires forall j :: 0 <= j < |s| ==> IsDigit(s[j])
    decreases |s|
  {
    if s == [] then 0
    else
      var d := s[|s| - 1];
      assert IsDigit(d);
      DecimalValue(s[..|s| - 1]) * 10 + ((d as int) - ('0' as int))
  }

  /** `IPv4Address._parse_octet` succeeds: one to three ASCII digits, no
      leading zero except "0" itself, at most 255. */
  predicate IsOctet(s: String) {
    && 1 <= |s| <= 3
    && (forall j :: 0 <= j < |s| ==> IsDigit(s[j]))
    && (s == "0" || s[0] != '0')
    && DecimalValue(s) <= 255
  }

  /** `IPv4Address(s)` succeeds: no '/', and exactly four '.'-separated
      octets. */
  predicate IsIPv4Address(s: String) {
    && '/' !in s && s != []
    && var octets := Split(s, ".");
       |octets| == 4 && forall k :: 0 <= k < 4 ==> IsOctet(octets[k])
  }

  /** `IPv6Address._parse_hextet` succeeds: one to four hex digits. */
  predicate IsHextet(s: String) {
    1 <= |s| <= 4 && forall j :: 0 <= j < |s| ==> IsHexDigit(s[j])
  }

  /** `IPv6Address(s)` succeeds: no '/'; a '%' starts a scope id that must be
      non-empty and hold no further '%'; the address before it must parse. */
  predicate IsIPv6Address(s: String) {
    && '/' !in s
    && match Find(s, "%")
       case None => IsIPv6Text(s)
       case Some(i) => var scope := s[i + 1..]; scope != [] && '%' !in scope && IsIPv6Text(s[..i])
  }

  /** `IPv6Address._ip_int_from_string` succeeds: at least three
      ':'-separated parts; a last part holding '.' must be an IPv4 address
      and stands for two hextets; at most nine parts then, laid out as
      `HextetsValid` says. */
  predicate IsIPv6Text(s: String) {
    && s != []
    && var parts0 := Split(s, ":");
       && |parts0| >= 3
       && ('.' in Last(parts0) ==> IsIPv4Address(Last(parts0)))
       && var parts := if '.' in Last(parts0) then parts0[..|parts0| - 1] + ["0", "0"] else parts0;
          |parts| <= 9 && HextetsValid(parts)
  }

  /** The positions from `from` to `|parts| - 2` that hold an empty part,
      each the middle of a "::". */
  function InnerEmpty(parts: seq<String>, from: nat): (r: seq<nat>)
    ensures forall k :: 0 <= k < |r| ==> from <= r[k] && r[k] + 1 < |parts| && parts[r[k]] == []
    decreases |parts| - from
  {
    if from + 1 >= |parts| then []
    else (if parts[from] == [] then [from] else []) + InnerEmpty(parts, from + 1)
  }

  /** The layout check of `_ip_int_from_string`. With one "::" the parts
      before and after it are hextets, an empty first or last part is only
      allowed as part of the "::", and at least one hextet is skipped. With
      no "::" there are exactly eight hextets. Two "::" are refused. */
  predicate HextetsValid(parts: seq<String>) {
    var skips := InnerEmpty(parts, 1);
    if |skips| > 1 then false
    else if |skips| == 1 then
      var skip := skips[0];
      var hi := if parts[0] == [] then skip - 1 else skip;
      var lo := if Last(parts) == [] then |parts| - skip - 2 else |parts| - skip - 1;
      && (parts[0] == [] ==> hi == 0)
      && (Last(parts) == [] ==> lo == 0)
      && 8 - (hi + lo) >= 1
      && (forall k :: 0 <= k < hi ==> IsHextet(parts[k]))
      && (forall k :: |parts| - lo <= k < |parts| ==> IsHextet(parts[k]))
    else
      && |parts| == 8 && parts[0] != [] && Last(parts) != []
      && forall k :: 0 <= k < 8 ==> IsHextet(parts[k])
  }

  // ---------------------------------------------------------------------------
  // Finding a character
  // ---------------------------------------------------------------------------

  /** `s.find(c)` where the first `c` is known to sit at `i`. */
  lemma FindCharIs(s: String, c: char, i: nat)
    requires i < |s| && s[i] == c
    requires forall j :: 0 <= j < i ==> s[j] != c
    ensures Find(s, [c]) == Some(i)
  {
    assert s[i..i + 1] == [c];
    assert OccursAt(s, [c], i);
    forall j | 0 <= j < i ensures !OccursAt(s, [c], j) {
      assert s[j..j + 1] == [s[j]];
    }
  }



  /** `s.split(c)` for a character `s` does not hold. */
  lemma SplitCharNone(s: String, c: char)
    requires c !in s
    ensures Split(s, [c]) == [s]
  {
    ContainsChar(s, c);
  }




  // ---------------------------------------------------------------------------
  // Consequences
  // ---------------------------------------------------------------------------

  /** The netloc only depends on the cleaned text. */
  lemma NetlocOfCleaned(url: String)
    ensures Netloc(SplitInput(url)) == Netloc(url)
  {
    SplitInputIdempotent(url);
  }

  /** A leading control character or space does not change the netloc. */
  lemma NetlocSkipsLeading(c: char, url: String)
    requires IsC0OrSpace(c)
    ensures Netloc([c] + url) == Netloc(url)
  {
    SplitInputSkipsLeading(c, url);
  }

  /** A tab, carriage return or line feed after the first character does
      not change the netloc: `urlsplit` deletes it first. */
  lemma NetlocIgnoresUnsafe(a: String, c: char, b: String)
    requires a != [] && !IsC0OrSpace(a[0]) && IsUnsafeUrlChar(c)
    ensures Netloc(a + [c] + b) == Netloc(a + b)
  {
    SplitInputIgnoresUnsafe(a, c, b);
  }

  lemma SplitInputIgnoresUnsafe(a: String, c: char, b: String)
    requires a != [] && !IsC0OrSpace(a[0]) && IsUnsafeUrlChar(c)
    ensures SplitInput(a + [c] + b) == SplitInput(a + b)
  {
    var s := a + [c] + b;
    var t := a + b;
    StripC0Clean(s);
    StripC0Clean(t);
    SplitInputShape(s);
    SplitInputShape(t);
    SafeCharsDropUnsafe(a, c, b);
  }

  lemma StripC0Clean(s: String)
    requires s != [] && !IsC0OrSpace(s[0])
    ensures StripC0(s) == s
  {
  }

  lemma SafeCharsDropUnsafe(a: String, c: char, b: String)
    requires IsUnsafeUrlChar(c)
    ensures SafeChars(a + [c] + b) == SafeChars(a + b)
  {
    SafeCharsSplit(a + [c], b);
    SafeCharsSplit(a, [c]);
    SafeCharsSplit(a, b);
    assert SafeChars([c]) == [] + SafeChars([c][1..]);
  }

  /** A bracketed host without ':' that does not start with 'v' is
      refused: it is no IPv4 address inside brackets, nor an IPv6 address,
      which needs at least two colons. */
  lemma BracketedHostWithoutColonRefused(h: String)
    requires !IsPrefix("v", h) && ':' !in h
    ensures !BracketedHostValid(h)
  {
    var f := Find(h, "%");
    if f.None? {
      SplitCharNone(h, ':');
    } else {
      var a := h[..f.value];
      assert ':' !in a by {
        forall j | 0 <= j < |a| ensures a[j] != ':' { assert a[j] == h[j]; }
      }
      SplitCharNone(a, ':');
    }
  }

  predicate IsHostDelimiter(c: char) { c == '@' || c == '[' || c == ']' || c == ':' }

  /** The netloc "[h]" with such a host is refused, so `urlsplit` raises. */
  lemma BracketedNetlocWithoutColonRefused(h: String)
    requires !IsPrefix("v", h) && forall j :: 0 <= j < |h| ==> !IsHostDelimiter(h[j])
    ensures !BracketsValid("[" + h + "]")
  {
    var n := "[" + h + "]";
    assert ']' in n && '[' in n by { assert n[0] == '[' && n[|n| - 1] == ']'; }
    assert '@' !in n by {
      forall j | 0 <= j < |n| ensures n[j] != '@' {
        if 0 < j < |n| - 1 { assert n[j] == h[j - 1]; }
      }
    }
    SplitCharNone(n, '@');
    FindCharIs(n, '[', 0);
    var b := n[1..];
    assert b == h + "]";
    FindCharIs(b, ']', |h|);
    assert b[..|h|] == h;
    BracketedHostWithoutColonRefused(h);
  }

  /** "::1" and "1::" lay out as valid hextets; "1::2::3" has two "::". */
  lemma HextetExamples()
    ensures HextetsValid(["", "", "1"])
    ensures HextetsValid(["1", "", ""])
    ensures !HextetsValid(["1", "", "2", "", "3"])
  {
    assert InnerEmpty(["", "", "1"], 1) == [1];
    assert InnerEmpty(["1", "", ""], 1) == [1];
    assert InnerEmpty(["1", "", "2", "", "3"], 1) == [1, 3];
  }

  /** "v1.x" is an IPvFuture host; "v.x" and "v1." are not. */
  lemma IPvFutureExamples()
    ensures IsIPvFuture("v1.x")
    ensures !IsIPvFuture("v.x")
    ensures !IsIPvFuture("v1.")
  {
    assert HexRunEnd("v1.x", 1) == 2;
    assert HexRunEnd("v.x", 1) == 1;
    assert HexRunEnd("v1.", 1) == 2;
  }

  /** "127" is an octet; "256" and "01" are not. */
  lemma OctetExamples()
    ensures IsOctet("127") && !IsOctet("256") && !IsOctet("01")
  {
    assert DecimalValue("127") == 127 by {
      assert "127"[..2] == "12" && "12"[..1] == "1" && "1"[..0] == "";
    }
    assert DecimalValue("256") == 256 by {
      assert "256"[..2] == "25" && "25"[..1] == "2" && "2"[..0] == "";
    }
  }
}
