/** When `_json_frame_looks_truncated` is right (ble_service/src/main.py:268-291). */
module Heuristic {
  import opened Options
  import opened Json
  import opened Scanner
  import opened Traversal
  import opened Salvage
  import opened SalvageExact

  /** The characters Python's `str.rstrip()` removes. */
  predicate IsPythonSpace(c: char) {
    var u := c as int;
    || 0x09 <= u <= 0x0D || 0x1C <= u <= 0x20 || u == 0x85 || u == 0xA0 || u == 0x1680
    || 0x2000 <= u <= 0x200A || u == 0x2028 || u == 0x2029 || u == 0x202F || u == 0x205F || u == 0x3000
  }

  const PYTHON_SPACES :=
    "\t\n\U{0B}\U{0C}\r\U{1C}\U{1D}\U{1E}\U{1F} \U{85}\U{A0}\U{1680}\U{2000}\U{2001}\U{2002}\U{2003}\U{2004}" +
    "\U{2005}\U{2006}\U{2007}\U{2008}\U{2009}\U{200A}\U{2028}\U{2029}\U{202F}\U{205F}\U{3000}"

  lemma SpaceVerdict(c: char)
    ensures IsPythonSpace(c) <==> c in PYTHON_SPACES
  {
  }

  predicate IsBlank(w: string) {
    forall k :: 0 <= k < |w| ==> IsPythonSpace(w[k])
  }

  /** Stripping takes off whitespace, and all there is at the end. */
  lemma {:induction false} StripVerdict(s: string)
    ensures exists w :: s == RStrip(s) + w && IsBlank(w)
    ensures RStrip(s) != "" ==> !IsPythonSpace(RStrip(s)[|RStrip(s)| - 1])
  {
    hide IsPythonSpace;
    if s == "" || !IsPythonSpace(s[|s| - 1]) {
      assert s == RStrip(s) + "";
    } else {
      StripVerdict(s[..|s| - 1]);
      var w :| s[..|s| - 1] == RStrip(s[..|s| - 1]) + w && IsBlank(w);
      assert s == RStrip(s) + (w + [s[|s| - 1]]);
    }
  }

  function RStrip(s: string): (r: string)
    ensures r <= s
    ensures r != "" ==> !IsPythonSpace(r[|r| - 1])
  {
    if s != "" && IsPythonSpace(s[|s| - 1]) then RStrip(s[..|s| - 1]) else s
  }

  function Count(c: char, s: string): nat {
    if s == "" then 0 else Count(c, s[..|s| - 1]) + (if s[|s| - 1] == c then 1 else 0)
  }

  predicate EndsWithBrace(s: string) {
    s != "" && s[|s| - 1] == '}'
  }

  predicate LooksTruncated(s: string) {
    var stripped := RStrip(s);
    if !EndsWithBrace(stripped) then true else Count('{', stripped) != Count('}', stripped)
  }

  lemma {:induction false} StripKeepsBraces(s: string, c: char)
    requires c == '{' || c == '}'
    ensures Count(c, RStrip(s)) == Count(c, s)
  {
    if s != "" && IsPythonSpace(s[|s| - 1]) {
      StripKeepsBraces(s[..|s| - 1], c);
    }
  }

  /** All the braces of a prefix are structural ones or stand inside strings. */
  lemma {:induction false} BracesAddUp(t: string, n: nat)
    requires n <= |t|
    ensures Count('{', t[..n]) - Count('}', t[..n]) ==
      OpenObjects(t, n) + InStrings(t, n).opens - InStrings(t, n).closes
  {
    hide Run, OpenObjects, InStrings, Nuls;
    if n == 0 {
      ScanBegins(t);
    } else {
      BracesAddUp(t, n - 1);
      Advance(t, n - 1);
      assert t[..n][..n - 1] == t[..n - 1];
    }
  }

  /**
   The heuristic, told by structure: a prefix passes as intact exactly when surplus closing braces in
   strings balance the open objects.
   */
  lemma LooksTruncatedMeans(t: string, n: nat)
    requires n <= |t|
    ensures LooksTruncated(t[..n]) <==>
      !(EndsWithBrace(RStrip(t[..n])) && OpenObjects(t, n) == InStrings(t, n).closes - InStrings(t, n).opens)
  {
    hide Run, OpenObjects, InStrings, RStrip, Count;
    StripKeepsBraces(t[..n], '{');
    StripKeepsBraces(t[..n], '}');
    BracesAddUp(t, n);
  }

  lemma {:induction false} InStringsGrow(s: string, i: nat, j: nat)
    requires i <= j <= |s|
    ensures InStrings(s, i).opens <= InStrings(s, j).opens && InStrings(s, i).closes <= InStrings(s, j).closes
  {
    if i == j {
    } else {
      InStringsGrow(s, i, j - 1);
    }
  }

  lemma {:induction false} OutsideStaysClosed(s: string, c: nat, n: nat)
    requires c <= n <= |s| && Run(s, c).halt.ClosedAt? && !Run(s, c).inString
    requires SkipWs(s, c) >= n
    ensures OpenObjects(s, n) == OpenObjects(s, c) && InStrings(s, n) == InStrings(s, c) && Nuls(s, n) == Nuls(s, c)
  {
    hide Run, OpenObjects, InStrings, Nuls;
    if c == n {
    } else {
      OutsideStaysClosed(s, c, n - 1);
      HaltIsFinal(s, c, n - 1);
      Advance(s, n - 1);
    }
  }

  /** Whitespace behind the closing brace strips off again. */
  lemma {:induction false} StripsToClose(t: string, c: nat, n: nat)
    requires 1 <= c <= n <= |t| && t[c - 1] == '}' && SkipWs(t, c) >= n
    ensures RStrip(t[..n]) == t[..c]
    decreases n - c
  {
    if c == n {
    } else {
      assert t[..n][..n - 1] == t[..n - 1];
      assert IsWs(t[n - 1]);
      StripsToClose(t, c, n - 1);
    }
  }

  lemma ClosedOutside(t: string)
    requires IsObjectText(t)
    ensures !Run(t, ObjectEnd(t)).inString
  {
    hide *;
    ReachesClose(t);
    CloseLeavesString(t, ObjectEnd(t) - 1);
  }

  lemma CloseLeavesString(t: string, e: nat)
    requires e < |t| && t[e] == '}' && Run(t, e).AtRest()
    ensures !Run(t, e + 1).inString
  {
    hide Run, OpenObjects, InStrings, Nuls;
    Advance(t, e);
  }

  /**
   The complete text, and any cut of the whitespace behind it, is called intact exactly when its
   strings hold as many opening as closing braces.
   */
  lemma WholeTextVerdict(t: string, n: nat)
    requires IsObjectText(t) && ObjectEnd(t) <= n <= |t|
    ensures LooksTruncated(t[..n]) <==>
      StringBraces(Loads(t).value).opens != StringBraces(Loads(t).value).closes
  {
    hide *;
    var c := ObjectEnd(t);
    ObjectTextParses(t);
    ScanCloses(t);
    ClosedOutside(t);
    OutsideStaysClosed(t, c, n);
    StripsToClose(t, c, n);
    LooksTruncatedMeans(t, n);
    EndsAtClose(t, c);
  }

  lemma EndsAtClose(t: string, c: nat)
    requires 1 <= c <= |t| && t[c - 1] == '}'
    ensures EndsWithBrace(t[..c])
  {
  }

  /**
   A cut inside the object is called truncated unless, after stripping, it ends in `}` and its
   strings hold exactly as many surplus closing braces as objects are open; at least one is.
   */
  lemma CutVerdict(t: string, n: nat)
    requires IsObjectText(t) && 1 <= n < ObjectEnd(t)
    ensures OpenObjects(t, n) >= 1
    ensures LooksTruncated(t[..n]) <==>
      !(EndsWithBrace(RStrip(t[..n])) && InStrings(t, n).closes - InStrings(t, n).opens == OpenObjects(t, n))
  {
    hide *;
    ScanInside(t, n);
    LooksTruncatedMeans(t, n);
  }

  /** Where no string holds a brace, the heuristic is right on every non-empty prefix. */
  lemma RightWithoutStringBraces(t: string, n: nat)
    requires IsObjectText(t) && 1 <= n <= |t|
    requires StringBraces(Loads(t).value) == NO_BRACES
    ensures LooksTruncated(t[..n]) <==> n < ObjectEnd(t)
  {
    hide IsObjectText, ObjectEnd, Loads, StringBraces, LooksTruncated, OpenObjects, InStrings, Run, RStrip;
    if n < ObjectEnd(t) {
      CutVerdict(t, n);
      ScanCloses(t);
      InStringsGrow(t, n, ObjectEnd(t));
    } else {
      WholeTextVerdict(t, n);
    }
  }

  /** A closing brace inside a string makes a cut look intact. */
  lemma ClosingBraceMisleads()
    ensures var whole := "{\"a\":\"}\"}"; IsObjectText(whole) && !LooksTruncated(whole[..7]) && Loads(whole[..7]).None?
  {
    hide Loads, IsObjectText, ObjectEnd;
    var whole := "{\"a\":\"}\"}";
    ClosesLate(whole, '}');
    NoProperPrefixIsJson(whole, 7);
    CountSeven(whole[..7]);
    assert RStrip(whole[..7]) == whole[..7];
  }

  /** An opening brace inside a string makes a complete text look truncated. */
  lemma OpeningBraceMisleads()
    ensures var whole := "{\"a\":\"{\"}"; IsObjectText(whole) && LooksTruncated(whole)
  {
    hide Loads, IsObjectText, ObjectEnd;
    var whole := "{\"a\":\"{\"}";
    ClosesLate(whole, '{');
    assert RStrip(whole) == whole;
    assert whole[..8][..7] == whole[..7];
    CountSeven(whole[..7]);
    assert Count('{', whole[..8]) == Count('{', whole[..7]);
    assert Count('}', whole[..8]) == Count('}', whole[..7]);
  }

  lemma CountSeven(s: string)
    requires |s| == 7 && s[..6] == "{\"a\":\"" && s[6] in {'{', '}'}
    ensures Count('{', s) == (if s[6] == '{' then 2 else 1) && Count('}', s) == (if s[6] == '{' then 0 else 1)
  {
    assert s[..6][..5] == "{\"a\":" && s[..6][..5][..4] == "{\"a\"" && s[..6][..5][..4][..3] == "{\"a";
    assert "{\"a"[..2] == "{\"" && "{\""[..1] == "{" && "{"[..0] == "";
    assert Count('{', "{") == 1 && Count('}', "{") == 0;
    assert Count('{', "{\"") == 1 && Count('}', "{\"") == 0;
    assert Count('{', "{\"a") == 1 && Count('}', "{\"a") == 0;
    assert Count('{', "{\"a\"") == 1 && Count('}', "{\"a\"") == 0;
    assert Count('{', "{\"a\":") == 1 && Count('}', "{\"a\":") == 0;
    assert Count('{', s[..6]) == 1 && Count('}', s[..6]) == 0;
  }

  /** `{"a":"x"}` is an object text for a brace `x` too. */
  lemma ClosesLate(t: string, x: char)
    requires x in {'{', '}'} && t == "{\"a\":\"" + [x] + "\"}"
    ensures IsObjectText(t) && ObjectEnd(t) == 9
  {
    assert |t| == 9 && t[0] == '{' && t[1] == '"' && t[2] == 'a' && t[3] == '"' && t[4] == ':' && t[5] == '"';
    assert t[6] == x && t[7] == '"' && t[8] == '}';
    ShortStrings(t, x);
    hide StringEnd, ParseString, Unescape;
    assert SkipWs(t, 0) == 0 && SkipWs(t, 1) == 1 && SkipWs(t, 4) == 4 && SkipWs(t, 5) == 5;
    assert SkipWs(t, 8) == 8 && SkipWs(t, 9) == 9;
    assert ParseValue(t, 5) == Some((Str([x]), 8));
    assert ParseMember(t, 1) == Some(Span(Member("a", Str([x])), 5, 8, 8));
    assert ParseMembers(t, 1) == Some(([Member("a", Str([x]))], 9));
    assert ParseValue(t, 0) == Some((Obj([Member("a", Str([x]))]), 9));
  }

  /** The two literals of `{"a":"x"}`. */
  lemma ShortStrings(t: string, x: char)
    requires x in {'{', '}'} && |t| == 9 && t[1] == '"' && t[2] == 'a' && t[3] == '"' && t[5] == '"' && t[6] == x
    requires t[7] == '"'
    ensures ParseString(t, 1) == Some(("a", 4)) && ParseString(t, 5) == Some(([x], 8))
  {
    assert StringEnd(t, 3) == Some(4);
    assert StringEnd(t, 2) == Some(4);
    assert t[2..3] == "a" && Unescape("a").Some?;
    assert StringEnd(t, 7) == Some(8);
    assert StringEnd(t, 6) == Some(8);
    assert t[6..7] == [x];
    assert UnescapeFrom([x], 1) == Some([]);
    assert Unescape([x]).Some?;
  }
}
