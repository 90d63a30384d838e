/**
 How the scanner crosses text the JSON parser accepts: a value nested below the top level
 leaves it exactly as it was, and a top-level value moves the safe point just behind it
 (a scalar moves nothing).
 */
module Traversal {
  import opened Options
  import opened Json
  import opened Scanner

  // ---------- Counting braces ----------

  /** Opening and closing braces. */
  datatype Braces = Braces(opens: nat, closes: nat)

  const NO_BRACES := Braces(0, 0)

  function Plus(a: Braces, b: Braces): Braces {
    Braces(a.opens + b.opens, a.closes + b.closes)
  }

  function BraceOf(c: char): Braces {
    Braces(if c == '{' then 1 else 0, if c == '}' then 1 else 0)
  }

  function BracesInText(t: string): Braces {
    if t == "" then NO_BRACES else Plus(BraceOf(t[0]), BracesInText(t[1..]))
  }

  /** The braces written inside the strings of a value, keys included. */
  function StringBraces(v: Json): Braces
    decreases v, 0
  {
    match v
    case Obj(ms) => MembersStringBraces(ms)
    case Arr(items) => ItemsStringBraces(items)
    case Str(t) => BracesInText(t)
    case Scalar(_) => NO_BRACES
  }

  function MembersStringBraces(ms: seq<Member>): Braces
    decreases ms, 1
  {
    if ms == [] then NO_BRACES
    else
      var head := ms[0];
      assert ms decreases to head;
      Plus(Plus(BracesInText(head.key), StringBraces(head.value)), MembersStringBraces(ms[1..]))
  }

  function ItemsStringBraces(items: seq<Json>): Braces
    decreases items, 1
  {
    if items == [] then NO_BRACES else Plus(StringBraces(items[0]), ItemsStringBraces(items[1..]))
  }

  /** How many objects are open after `n` characters: structural braces only. */
  function OpenObjects(s: string, n: nat): int
    requires n <= |s|
  {
    if n == 0 then 0
    else
      var b := BraceOf(s[n - 1]);
      OpenObjects(s, n - 1) + (if Run(s, n - 1).inString then 0 else b.opens - b.closes)
  }

  /** The braces met inside strings in the first `n` characters. */
  function InStrings(s: string, n: nat): Braces
    requires n <= |s|
  {
    if n == 0 then NO_BRACES
    else Plus(InStrings(s, n - 1), if Run(s, n - 1).inString then BraceOf(s[n - 1]) else NO_BRACES)
  }

  /** The NUL characters in the first `n` characters. */
  function Nuls(s: string, n: nat): nat
    requires n <= |s|
  {
    if n == 0 then 0 else Nuls(s, n - 1) + (if s[n - 1] == '\0' then 1 else 0)
  }

  /** One more character. */
  lemma Advance(s: string, i: nat)
    requires i < |s|
    ensures Run(s, i + 1) == Step(Run(s, i), i, s[i])
    ensures var b := BraceOf(s[i]);
      && OpenObjects(s, i + 1) == OpenObjects(s, i) + (if Run(s, i).inString then 0 else b.opens - b.closes)
      && InStrings(s, i + 1) == Plus(InStrings(s, i), if Run(s, i).inString then b else NO_BRACES)
    ensures Nuls(s, i + 1) == Nuls(s, i) + (if s[i] == '\0' then 1 else 0)
  {
  }

  // ---------- Crossing a stretch of text ----------

  /** At `m` the scan still goes on, no shallower than at `i`, and has no new safe point. */
  predicate Calm(s: string, i: nat, m: nat)
    requires i <= |s| && m <= |s|
  {
    && Run(s, m).halt.Going?
    && Run(s, m).safe == Run(s, i).safe
    && Run(s, i).depth <= Run(s, m).depth
    && OpenObjects(s, i) <= OpenObjects(s, m)
  }

  predicate CalmUntil(s: string, i: nat, j: nat)
    requires i <= j <= |s| + 1
  {
    forall m :: i <= m < j ==> Calm(s, i, m)
  }

  /** What counting sees between `i` and `j`: no net object, no NUL, and the braces `b` inside strings. */
  predicate Counted(s: string, i: nat, j: nat, b: Braces)
    requires i <= |s| && j <= |s|
  {
    && OpenObjects(s, j) == OpenObjects(s, i)
    && Nuls(s, j) == Nuls(s, i)
    && InStrings(s, j) == Plus(InStrings(s, i), b)
  }

  /** The scan passes from `i` to `j` unchanged. */
  predicate Passes(s: string, i: nat, j: nat, b: Braces)
    requires i <= j <= |s|
  {
    Run(s, j) == Run(s, i) && Counted(s, i, j, b) && CalmUntil(s, i, j + 1)
  }

  /** A top-level value ends at `j`: it is the new safe point. */
  predicate Settles(s: string, i: nat, j: nat, b: Braces)
    requires i <= j <= |s|
  {
    && Run(s, j) == Run(s, i).(awaiting := false, safe := Some(j))
    && Counted(s, i, j, b)
    && CalmUntil(s, i, j)
  }

  lemma PassesCompose(s: string, i: nat, k: nat, j: nat, a: Braces, b: Braces)
    requires i <= k <= j <= |s|
    requires Passes(s, i, k, a) && Passes(s, k, j, b)
    ensures Passes(s, i, j, Plus(a, b))
  {
    hide Run, OpenObjects, InStrings, Nuls;
    forall m | i <= m < j + 1 ensures Calm(s, i, m) {
      if m < k + 1 {
      } else {
        assert Calm(s, k, m);
      }
    }
  }

  lemma CountedCompose(s: string, i: nat, k: nat, j: nat, b: Braces)
    requires i <= k <= j <= |s|
    requires Counted(s, i, k, NO_BRACES) && Counted(s, k, j, b)
    ensures Counted(s, i, j, b)
  {
    hide Run, OpenObjects, InStrings, Nuls;
  }

  /** A character the scanner ignores where it stands. */
  lemma PassChar(s: string, i: nat)
    requires i < |s| && Run(s, i).AtRest()
    requires s[i] !in {'"', '{', '}', '[', ']', '\0'}
    requires s[i] in {':', ','} ==> Run(s, i).depth != 1
    ensures Passes(s, i, i + 1, NO_BRACES)
  {
    hide Run, OpenObjects, InStrings, Nuls;
    Advance(s, i);
    assert BraceOf(s[i]) == NO_BRACES;
  }

  lemma {:induction false} PassWs(s: string, i: nat, j: nat)
    requires i <= j <= |s| && Run(s, i).AtRest()
    requires forall k :: i <= k < j ==> IsWs(s[k]) || IsTokenChar(s[k])
    ensures Passes(s, i, j, NO_BRACES)
    ensures Run(s, j) == Run(s, i) && Counted(s, i, j, NO_BRACES) && Calm(s, i, j)
    decreases j - i
  {
    hide Run, OpenObjects, InStrings, Nuls;
    if i == j {
    } else {
      PassChar(s, i);
      PassWs(s, i + 1, j);
      PassesCompose(s, i, i + 1, j, NO_BRACES, NO_BRACES);
    }
  }

  // ---------- String literals ----------

  lemma {:induction false} UnescapedIsPrintable(t: string, i: nat, k: nat)
    requires i <= k < |t| && UnescapeFrom(t, i).Some?
    ensures t[k] as int >= 0x20
    decreases |t| - i
  {
    if k == i || (t[i] == '\\' && k == i + 1) {
    } else if t[i] != '\\' {
      UnescapedIsPrintable(t, i + 1, k);
    } else if t[i + 1] != 'u' {
      UnescapedIsPrintable(t, i + 2, k);
    } else if k >= i + 6 {
      UnescapedIsPrintable(t, i + 6, k);
    }
  }

  lemma BracesAfter(s: string, i: nat, j: nat)
    requires i < j <= |s|
    ensures BracesInText(s[i..j]) == Plus(BraceOf(s[i]), BracesInText(s[i + 1..j]))
  {
    var text := s[i..j];
    assert text != "" && text[0] == s[i] && text[1..] == s[i + 1..j];
    assert BracesInText(text) == Plus(BraceOf(text[0]), BracesInText(text[1..]));
  }

  lemma NoBracesInNothing()
    ensures BracesInText("") == NO_BRACES
  {
  }

  /** One character of a literal that does not end it. */
  lemma BodyStep(s: string, i: nat)
    requires i < |s| && s[i] != '"' && Run(s, i).halt.Going? && Run(s, i).inString && !Run(s, i).escape
    ensures Run(s, i + 1) == Run(s, i).(escape := s[i] == '\\')
    ensures OpenObjects(s, i + 1) == OpenObjects(s, i) && InStrings(s, i + 1) == Plus(InStrings(s, i), BraceOf(s[i]))
  {
    hide Run, OpenObjects, InStrings, Nuls;
    Advance(s, i);
  }

  /** The character after a backslash. */
  lemma EscapeStep(s: string, i: nat)
    requires i < |s| && Run(s, i).halt.Going? && Run(s, i).inString && Run(s, i).escape
    ensures Run(s, i + 1) == Run(s, i).(escape := false)
    ensures OpenObjects(s, i + 1) == OpenObjects(s, i) && InStrings(s, i + 1) == Plus(InStrings(s, i), BraceOf(s[i]))
  {
    hide Run, OpenObjects, InStrings, Nuls;
    Advance(s, i);
  }

  lemma CalmOn(s: string, i: nat, k: nat, j: nat)
    requires i < k <= i + 2 && k <= |s| && k <= j <= |s| + 1
    requires Calm(s, i, i) && Calm(s, i, i + 1) && Calm(s, i, k) && CalmUntil(s, k, j)
    ensures CalmUntil(s, i, j)
  {
    hide Run, OpenObjects;
    forall m | i <= m < j ensures Calm(s, i, m) {
      if m >= k {
        assert Calm(s, k, m);
      }
    }
  }

  lemma BodyGoesOn(s: string, i: nat, j: nat)
    requires i <= |s| && StringEnd(s, i) == Some(j)
    ensures i < j <= |s|
    ensures s[i] == '"' ==> j == i + 1
    ensures s[i] != '"' && s[i] != '\\' ==> StringEnd(s, i + 1) == Some(j) && i + 1 < j
    ensures s[i] == '\\' ==> i + 2 < j && StringEnd(s, i + 2) == Some(j)
  {
  }

  /** The body of a literal, from `i` (inside it) to its closing quote at `j - 1`. */
  lemma {:induction false} CrossBody(s: string, i: nat, j: nat)
    requires i <= |s| && StringEnd(s, i) == Some(j)
    requires Run(s, i).halt.Going? && Run(s, i).inString && !Run(s, i).escape
    ensures Run(s, j - 1) == Run(s, i)
    ensures OpenObjects(s, j - 1) == OpenObjects(s, i)
    ensures InStrings(s, j - 1) == Plus(InStrings(s, i), BracesInText(s[i..j - 1]))
    ensures CalmUntil(s, i, j)
    decreases |s| - i
  {
    hide Run, OpenObjects, InStrings, Nuls, Step, BracesInText, StringEnd, CalmUntil;
    BodyGoesOn(s, i, j);
    if s[i] == '"' {
      assert s[i..j - 1] == "";
      NoBracesInNothing();
      CalmHere(s, i);
    } else {
      BodyStep(s, i);
      BracesAfter(s, i, j - 1);
      if s[i] != '\\' {
        CrossBody(s, i + 1, j);
        CalmOn(s, i, i + 1, j);
      } else {
        EscapeStep(s, i + 1);
        BracesAfter(s, i + 1, j - 1);
        CrossBody(s, i + 2, j);
        CalmOn(s, i, i + 2, j);
      }
    }
  }

  lemma CalmHere(s: string, i: nat)
    requires i <= |s| && Run(s, i).halt.Going?
    ensures CalmUntil(s, i, i + 1)
  {
  }

  lemma {:induction false} NoNuls(s: string, i: nat, j: nat)
    requires i <= j <= |s|
    requires forall k :: i <= k < j ==> s[k] != '\0'
    ensures Nuls(s, j) == Nuls(s, i)
  {
    if i == j {
    } else {
      NoNuls(s, i, j - 1);
    }
  }

  lemma LiteralHasNoNul(s: string, i: nat, j: nat, lexeme: string)
    requires i < |s| && s[i] == '"' && ParseString(s, i) == Some((lexeme, j))
    ensures Nuls(s, j) == Nuls(s, i)
  {
    hide Run, OpenObjects, InStrings, Nuls, StringEnd, UnescapeFrom;
    forall k | i <= k < j ensures s[k] != '\0' {
      if i < k < j - 1 {
        assert s[k] == lexeme[k - (i + 1)];
        UnescapedIsPrintable(lexeme, 0, k - (i + 1));
      }
    }
    NoNuls(s, i, j);
  }

  /** A whole literal: a top-level value settles, any other literal passes. */
  lemma CrossString(s: string, i: nat, j: nat, lexeme: string)
    requires i < |s| && s[i] == '"' && Run(s, i).AtRest()
    requires ParseString(s, i) == Some((lexeme, j))
    ensures Run(s, i).depth == 1 && Run(s, i).awaiting ==> Settles(s, i, j, BracesInText(lexeme))
    ensures !(Run(s, i).depth == 1 && Run(s, i).awaiting) ==> Passes(s, i, j, BracesInText(lexeme))
  {
    hide Run, OpenObjects, InStrings, Nuls, StringEnd, UnescapeFrom, BracesInText;
    Advance(s, i);
    CrossBody(s, i + 1, j);
    LiteralHasNoNul(s, i, j, lexeme);
    Advance(s, j - 1);
    forall m | i <= m < j ensures Calm(s, i, m) {
      if m > i {
        assert Calm(s, i + 1, m);
      }
    }
  }

  // ---------- Values ----------

  lemma MembersBracesCons(m: Member, rest: seq<Member>)
    ensures MembersStringBraces([m] + rest) ==
      Plus(Plus(BracesInText(m.key), StringBraces(m.value)), MembersStringBraces(rest))
  {
    assert ([m] + rest)[1..] == rest;
  }

  lemma ItemsBracesCons(v: Json, rest: seq<Json>)
    ensures ItemsStringBraces([v] + rest) == Plus(StringBraces(v), ItemsStringBraces(rest))
  {
    assert ([v] + rest)[1..] == rest;
  }

  /** An opening bracket, a stretch that passes one level deeper, and the matching close. */
  lemma Wrap(s: string, i: nat, e: nat, b: Braces)
    requires i < e < |s| && Run(s, i).AtRest() && Run(s, i).depth >= 1
    requires (s[i] == '{' && s[e] == '}') || (s[i] == '[' && s[e] == ']')
    requires Passes(s, i + 1, e, b)
    ensures Run(s, i).depth >= 2 ==> Passes(s, i, e + 1, b)
    ensures Run(s, i).depth == 1 ==> Settles(s, i, e + 1, b)
  {
    hide Run, OpenObjects, InStrings, Nuls;
    Advance(s, i);
    Advance(s, e);
    forall m | i <= m < e + 1 ensures Calm(s, i, m) {
      if m > i {
        assert Calm(s, i + 1, m);
      }
    }
  }

  /** A value below the top level passes; a top-level one settles unless it is a scalar. */
  lemma {:induction false} CrossValue(s: string, i: nat)
    requires i <= |s| && ParseValue(s, i).Some?
    requires Run(s, i).AtRest() && Run(s, i).depth >= 1 && (Run(s, i).depth == 1 ==> Run(s, i).awaiting)
    ensures var (v, j) := ParseValue(s, i).value;
      if Run(s, i).depth >= 2 || v.Scalar? then Passes(s, i, j, StringBraces(v)) else Settles(s, i, j, StringBraces(v))
    decreases |s| - i, 1
  {
    hide Run, OpenObjects, InStrings, Nuls, SkipWs, StringEnd, UnescapeFrom, BracesInText, Passes, Settles;
    var (v, j) := ParseValue(s, i).value;
    match v
    case Str(lexeme) => CrossString(s, i, j, lexeme);
    case Scalar(_) => PassWs(s, i, j);
    case Obj(_) => CrossObject(s, i);
    case Arr(_) => CrossArray(s, i);
  }

  lemma {:induction false} CrossObject(s: string, i: nat)
    requires i < |s| && s[i] == '{' && ParseValue(s, i).Some?
    requires Run(s, i).AtRest() && Run(s, i).depth >= 1
    ensures var (v, j) := ParseValue(s, i).value;
      if Run(s, i).depth >= 2 then Passes(s, i, j, StringBraces(v)) else Settles(s, i, j, StringBraces(v))
    decreases |s| - i, 0
  {
    hide Run, OpenObjects, InStrings, Nuls, SkipWs, BracesInText, Passes, Settles, ParseMembers, ParseItems;
    var (v, j) := ParseValue(s, i).value;
    var k := SkipWs(s, i + 1);
    EnterContainer(s, i);
    if v.members == [] {
      EmptyListsHaveNoBraces();
    } else {
      CrossMembers(s, k);
    }
    LeaveContainer(s, i, k, j - 1, StringBraces(v));
  }

  lemma {:induction false} CrossArray(s: string, i: nat)
    requires i < |s| && s[i] == '[' && ParseValue(s, i).Some?
    requires Run(s, i).AtRest() && Run(s, i).depth >= 1
    ensures var (v, j) := ParseValue(s, i).value;
      if Run(s, i).depth >= 2 then Passes(s, i, j, StringBraces(v)) else Settles(s, i, j, StringBraces(v))
    decreases |s| - i, 0
  {
    hide Run, OpenObjects, InStrings, Nuls, SkipWs, BracesInText, Passes, Settles, ParseMembers, ParseItems;
    var (v, j) := ParseValue(s, i).value;
    var k := SkipWs(s, i + 1);
    EnterContainer(s, i);
    if v.items == [] {
      EmptyListsHaveNoBraces();
    } else {
      CrossItems(s, k);
    }
    LeaveContainer(s, i, k, j - 1, StringBraces(v));
  }

  lemma EmptyListsHaveNoBraces()
    ensures StringBraces(Obj([])) == NO_BRACES && StringBraces(Arr([])) == NO_BRACES
  {
  }

  lemma ObjectBraces(ms: seq<Member>)
    ensures StringBraces(Obj(ms)) == MembersStringBraces(ms)
  {
  }

  lemma EnterContainer(s: string, i: nat)
    requires i < |s| && (s[i] == '{' || s[i] == '[') && Run(s, i).AtRest()
    ensures var k := SkipWs(s, i + 1);
      Run(s, k) == Run(s, i + 1) == Run(s, i).(depth := Run(s, i).depth + 1) && Passes(s, i + 1, k, NO_BRACES)
  {
    hide Run, OpenObjects, InStrings, Nuls, SkipWs;
    Advance(s, i);
    PassWs(s, i + 1, SkipWs(s, i + 1));
  }

  lemma LeaveContainer(s: string, i: nat, k: nat, e: nat, b: Braces)
    requires i < k <= e < |s| && Run(s, i).AtRest() && Run(s, i).depth >= 1
    requires (s[i] == '{' && s[e] == '}') || (s[i] == '[' && s[e] == ']')
    requires Passes(s, i + 1, k, NO_BRACES)
    requires if k == e then b == NO_BRACES else Passes(s, k, e, b)
    ensures Run(s, i).depth >= 2 ==> Passes(s, i, e + 1, b)
    ensures Run(s, i).depth == 1 ==> Settles(s, i, e + 1, b)
  {
    hide Run, OpenObjects, InStrings, Nuls, Passes, Settles;
    if k < e {
      PassesCompose(s, i + 1, k, e, NO_BRACES, b);
    }
    Wrap(s, i, e, b);
  }

  /** A member of a nested object, up to the separator after it. */
  lemma {:induction false} CrossMember(s: string, i: nat)
    requires i <= |s| && ParseMember(s, i).Some?
    requires Run(s, i).AtRest() && Run(s, i).depth >= 2
    ensures var span := ParseMember(s, i).value;
      Passes(s, i, span.sep, Plus(BracesInText(span.member.key), StringBraces(span.member.value)))
    decreases |s| - i, 2
  {
    hide Run, OpenObjects, InStrings, Nuls, SkipWs, StringEnd, UnescapeFrom, BracesInText, ParseValue, Counted;
    hide CalmUntil;
    var span := ParseMember(s, i).value;
    var (key, ke) := ParseString(s, i).value;
    var kb, vb := BracesInText(key), StringBraces(span.member.value);
    CrossString(s, i, ke, key);
    var colon := SkipWs(s, ke);
    PassWs(s, ke, colon);
    PassesCompose(s, i, ke, colon, kb, NO_BRACES);
    PassChar(s, colon);
    PassesCompose(s, i, colon, colon + 1, kb, NO_BRACES);
    PassWs(s, colon + 1, span.valueAt);
    PassesCompose(s, i, colon + 1, span.valueAt, kb, NO_BRACES);
    CrossValue(s, span.valueAt);
    PassesCompose(s, i, span.valueAt, span.valueEnd, kb, vb);
    PassWs(s, span.valueEnd, span.sep);
    PassesCompose(s, i, span.valueEnd, span.sep, Plus(kb, vb), NO_BRACES);
  }

  /** The members of a nested object, up to its closing brace. */
  lemma {:induction false} CrossMembers(s: string, i: nat)
    requires i <= |s| && ParseMembers(s, i).Some?
    requires Run(s, i).AtRest() && Run(s, i).depth >= 2
    ensures var (ms, j) := ParseMembers(s, i).value;
      s[j - 1] == '}' && Passes(s, i, j - 1, MembersStringBraces(ms))
    decreases |s| - i, 3
  {
    hide Run, OpenObjects, InStrings, Nuls, SkipWs, ParseValue, ParseMember, Counted, CalmUntil, BracesInText, Step;
    hide Calm;
    assert MembersStringBraces([]) == NO_BRACES;
    hide MembersStringBraces, StringBraces;
    var (ms, j) := ParseMembers(s, i).value;
    var span := ParseMember(s, i).value;
    var hb := Plus(BracesInText(span.member.key), StringBraces(span.member.value));
    CrossMember(s, i);
    if s[span.sep] == ',' {
      var next := SkipWs(s, span.sep + 1);
      PassComma(s, i, span.sep, hb);
      CrossMembers(s, next);
      var rest := ParseMembers(s, next).value.0;
      PassesCompose(s, i, next, j - 1, hb, MembersStringBraces(rest));
      MembersBracesCons(span.member, rest);
    } else {
      MembersBracesCons(span.member, []);
    }
  }

  /** On past a comma below the top level, and the whitespace after it. */
  lemma PassComma(s: string, i: nat, sep: nat, b: Braces)
    requires i <= sep < |s| && Passes(s, i, sep, b) && s[sep] == ','
    requires Run(s, i).AtRest() && Run(s, i).depth >= 2
    ensures Passes(s, i, SkipWs(s, sep + 1), b)
  {
    hide Run, OpenObjects, InStrings, Nuls, Counted, CalmUntil, Step, Calm;
    var next := SkipWs(s, sep + 1);
    PassChar(s, sep);
    PassesCompose(s, i, sep, sep + 1, b, NO_BRACES);
    PassWs(s, sep + 1, next);
    PassesCompose(s, i, sep + 1, next, b, NO_BRACES);
  }

  /** One item and what follows it. */
  lemma FirstItem(s: string, i: nat)
    requires i <= |s| && ParseItems(s, i).Some?
    ensures ParseValue(s, i).Some?
    ensures var (v, ve) := ParseValue(s, i).value;
      var sep := SkipWs(s, ve);
      sep < |s| && (s[sep] == ']' || (s[sep] == ',' && ParseItems(s, SkipWs(s, sep + 1)).Some?))
    ensures var (v, ve) := ParseValue(s, i).value;
      var sep := SkipWs(s, ve);
      ParseItems(s, i).value ==
        if s[sep] == ']' then ([v] + [], sep + 1)
        else ([v] + ParseItems(s, SkipWs(s, sep + 1)).value.0, ParseItems(s, SkipWs(s, sep + 1)).value.1)
  {
    assert [ParseValue(s, i).value.0] + [] == [ParseValue(s, i).value.0];
  }

  /** The items of an array, up to its closing bracket. */
  lemma {:induction false} CrossItems(s: string, i: nat)
    requires i <= |s| && ParseItems(s, i).Some?
    requires Run(s, i).AtRest() && Run(s, i).depth >= 2
    ensures var (items, j) := ParseItems(s, i).value;
      s[j - 1] == ']' && Passes(s, i, j - 1, ItemsStringBraces(items))
    decreases |s| - i, 3
  {
    hide *;
    FirstItem(s, i);
    var (v, ve) := ParseValue(s, i).value;
    var sep := SkipWs(s, ve);
    var hb := StringBraces(v);
    CrossValue(s, i);
    PassBlanks(s, i, ve, hb);
    if s[sep] == ',' {
      var next := SkipWs(s, sep + 1);
      PassComma(s, i, sep, hb);
      PassesKeepsScan(s, i, next, hb);
      CrossItems(s, next);
      var (rest, j) := ParseItems(s, next).value;
      PassesCompose(s, i, next, j - 1, hb, ItemsStringBraces(rest));
      ItemsBracesCons(v, rest);
    } else {
      OneItemBraces(v);
    }
  }

  lemma OneItemBraces(v: Json)
    ensures ItemsStringBraces([v] + []) == StringBraces(v)
  {
    hide StringBraces, ItemsStringBraces;
    ItemsBracesCons(v, []);
    NoItemsNoBraces();
  }

  lemma NoItemsNoBraces()
    ensures ItemsStringBraces([]) == NO_BRACES
  {
  }

  lemma PassesKeepsScan(s: string, i: nat, j: nat, b: Braces)
    requires i <= j <= |s| && Passes(s, i, j, b)
    ensures Run(s, j) == Run(s, i)
  {
  }

  /** On past whitespace. */
  lemma PassBlanks(s: string, i: nat, j: nat, b: Braces)
    requires i <= j <= |s| && Passes(s, i, j, b) && Run(s, i).AtRest() && Run(s, i).depth >= 1
    ensures Passes(s, i, SkipWs(s, j), b)
  {
    hide Run, OpenObjects, InStrings, Nuls, Counted, CalmUntil, Step;
    PassWs(s, j, SkipWs(s, j));
    PassesCompose(s, i, j, SkipWs(s, j), b, NO_BRACES);
  }
}
