/**
 The salvage of a truncated register object, for every text `json.loads` accepts as an
 object and every cut of it (ble_service/src/main.py:308-433).
 */
module Salvage {
  import opened Options
  import opened Json
  import opened Scanner
  import opened Traversal
  import opened Locality

  // ---------- When a member counts as finished ----------

  /** The shortest cut that holds a member: a string or container ends itself, a scalar needs the character after it. */
  function FinishOf(span: Span): nat {
    if span.member.value.Scalar? then span.sep + 1 else span.valueEnd
  }

  /** The finishing cut of every member of an object, the first key at `i`. */
  function Finishes(s: string, i: nat): (f: seq<nat>)
    requires i <= |s| && ParseMembers(s, i).Some?
    ensures |f| == |ParseMembers(s, i).value.0| > 0
    decreases |s| - i
  {
    var span := ParseMember(s, i).value;
    if s[span.sep] == '}' then [FinishOf(span)]
    else [FinishOf(span)] + Finishes(s, SkipWs(s, span.sep + 1))
  }

  /** How many members of an object are finished within the first `n` characters. */
  function Kept(f: seq<nat>, n: nat): (k: nat)
    ensures k <= |f|
  {
    if f == [] || n < f[0] then 0 else 1 + Kept(f[1..], n)
  }

  predicate Increasing(f: seq<nat>) {
    forall a, b :: 0 <= a < b < |f| ==> f[a] < f[b]
  }

  /** A text that `json.loads` accepts and that starts with its opening brace. */
  predicate IsObjectText(t: string) {
    |t| > 0 && t[0] == '{' && Loads(t).Some?
  }

  /** The index just behind the object's closing brace. */
  function ObjectEnd(t: string): (c: nat)
    requires IsObjectText(t)
    ensures 2 <= c <= |t|
  {
    ParseValue(t, 0).value.1
  }

  function MembersOf(t: string): seq<Member>
    requires IsObjectText(t)
  {
    Loads(t).value.members
  }

  /** The finishing cuts of the members of an object text. */
  function TextFinishes(t: string): (f: seq<nat>)
    requires IsObjectText(t)
    ensures |f| == |MembersOf(t)|
  {
    if MembersOf(t) == [] then [] else Finishes(t, SkipWs(t, 1))
  }

  lemma {:induction false} FinishesIncrease(s: string, i: nat)
    requires i <= |s| && ParseMembers(s, i).Some?
    ensures Increasing(Finishes(s, i))
    ensures forall x :: x in Finishes(s, i) ==> i < x <= ParseMembers(s, i).value.1
    decreases |s| - i
  {
    hide SkipWs, ParseMember;
    var span := ParseMember(s, i).value;
    if s[span.sep] == ',' {
      var next := SkipWs(s, span.sep + 1);
      FinishesIncrease(s, next);
      IncreasingCons(FinishOf(span), Finishes(s, next));
    }
  }

  lemma IncreasingCons(x: nat, rest: seq<nat>)
    requires Increasing(rest) && forall y :: y in rest ==> x < y
    ensures Increasing([x] + rest)
  {
    var f := [x] + rest;
    forall a, b | 0 <= a < b < |f| ensures f[a] < f[b] {
      assert f[b] == rest[b - 1] && f[b] in rest;
      if a > 0 {
        assert f[a] == rest[a - 1];
      }
    }
  }

  lemma {:induction false} KeptIsCount(f: seq<nat>, n: nat)
    requires Increasing(f)
    ensures forall j :: 0 <= j < |f| ==> (j < Kept(f, n) <==> f[j] <= n)
  {
    if f != [] && f[0] <= n {
      assert forall a, b :: 0 <= a < b < |f[1..]| ==> f[1..][a] == f[a + 1] && f[1..][b] == f[b + 1];
      KeptIsCount(f[1..], n);
      forall j | 0 <= j < |f| ensures j < Kept(f, n) <==> f[j] <= n {
        if j > 0 {
          assert f[j] == f[1..][j - 1];
        }
      }
    } else if f != [] {
      forall j | 0 <= j < |f| ensures f[j] > n {
        assert j > 0 ==> f[0] < f[j];
      }
    }
  }

  /**
   The number of members kept is the largest one whose members are all finished within the
   cut; the whole object keeps every member, and a longer cut keeps no fewer.
   */
  lemma KeptIsLargest(t: string, n: nat, m: nat)
    requires IsObjectText(t) && n <= m
    ensures var f := TextFinishes(t);
      && Increasing(f)
      && (forall j :: 0 <= j < |f| ==> (j < Kept(f, n) <==> f[j] <= n))
      && (n >= ObjectEnd(t) ==> Kept(f, n) == |f|)
      && Kept(f, n) <= Kept(f, m)
  {
    hide SkipWs, ParseMember, ParseMembers, Kept, Finishes;
    var f := TextFinishes(t);
    if MembersOf(t) != [] {
      FinishesIncrease(t, SkipWs(t, 1));
    }
    KeptIsCount(f, n);
    KeptIsCount(f, m);
    assert |f| > 0 ==> f[|f| - 1] in f;
    assert Kept(f, n) > 0 ==> f[Kept(f, n) - 1] <= n;
  }

  // ---------- The scan across the top-level members ----------

  /** The scan across one top-level member, up to the separator after it. */
  predicate CrossesTop(s: string, i: nat, span: Span)
    requires i < span.valueEnd <= span.sep < |s|
  {
    && CalmUntil(s, i, span.valueEnd)
    && Run(s, span.valueEnd) == (
         if span.member.value.Scalar? then Run(s, i).(awaiting := true)
         else Run(s, i).(awaiting := false, safe := Some(span.valueEnd)))
    && (forall m :: span.valueEnd <= m <= span.sep ==>
          Run(s, m) == Run(s, span.valueEnd) && OpenObjects(s, m) >= OpenObjects(s, i))
    && Counted(s, i, span.sep, Plus(BracesInText(span.member.key), StringBraces(span.member.value)))
  }

  /** From the key's quote to the value's first character, which the scan then awaits. */
  lemma CrossTopKey(s: string, i: nat)
    requires i <= |s| && ParseMember(s, i).Some?
    requires Run(s, i).AtRest() && Run(s, i).depth == 1 && !Run(s, i).awaiting
    ensures var span := ParseMember(s, i).value;
      && Run(s, span.valueAt) == Run(s, i).(awaiting := true)
      && Counted(s, i, span.valueAt, BracesInText(span.member.key))
      && CalmUntil(s, i, span.valueAt + 1)
  {
    hide Run, OpenObjects, InStrings, Nuls, SkipWs, StringEnd, UnescapeFrom, BracesInText, ParseValue;
    var span := ParseMember(s, i).value;
    var (key, ke) := ParseString(s, i).value;
    var colon := SkipWs(s, ke);
    CrossString(s, i, ke, key);
    PassWs(s, ke, colon);
    PassesCompose(s, i, ke, colon, BracesInText(key), NO_BRACES);
    Advance(s, colon);
    PassWs(s, colon + 1, span.valueAt);
    forall m | i <= m < span.valueAt + 1 ensures Calm(s, i, m) {
      if m > colon {
        assert Calm(s, colon + 1, m);
      }
    }
  }

  lemma CrossTopMember(s: string, i: nat)
    requires i <= |s| && ParseMember(s, i).Some?
    requires Run(s, i).AtRest() && Run(s, i).depth == 1 && !Run(s, i).awaiting
    ensures CrossesTop(s, i, ParseMember(s, i).value)
  {
    hide Run, OpenObjects, InStrings, Nuls, SkipWs, BracesInText, StringBraces, ParseValue, ParseString;
    var span := ParseMember(s, i).value;
    CrossTopKey(s, i);
    CrossValue(s, span.valueAt);
    PassWs(s, span.valueEnd, span.sep);
    forall m | i <= m < span.valueEnd ensures Calm(s, i, m) {
      if m > span.valueAt {
        assert Calm(s, span.valueAt, m);
      }
    }
    forall m | span.valueEnd <= m <= span.sep
      ensures Run(s, m) == Run(s, span.valueEnd) && OpenObjects(s, m) >= OpenObjects(s, i)
    {
      PassWs(s, span.valueEnd, m);
    }
  }

  /** After the comma: the safe point is the comma itself, and whitespace leads to the next key. */
  lemma CrossTopComma(s: string, i: nat, next: nat)
    requires i <= |s| && ParseMember(s, i).Some?
    requires var span := ParseMember(s, i).value;
      s[span.sep] == ',' && CrossesTop(s, i, span) && SkipWs(s, span.sep + 1) == next
    requires Run(s, i).AtRest() && Run(s, i).depth == 1
    ensures var span := ParseMember(s, i).value;
      && (forall m :: span.sep < m <= next ==>
            Run(s, m) == Run(s, i).(awaiting := false, safe := Some(span.sep)) &&
            OpenObjects(s, m) >= OpenObjects(s, i))
      && Counted(s, i, next, Plus(BracesInText(span.member.key), StringBraces(span.member.value)))
  {
    hide Run, OpenObjects, InStrings, Nuls, SkipWs, BracesInText, StringBraces, ParseMember;
    var span := ParseMember(s, i).value;
    Advance(s, span.sep);
    PassWs(s, span.sep + 1, next);
    forall m | span.sep < m <= next
      ensures Run(s, m) == Run(s, i).(awaiting := false, safe := Some(span.sep))
      ensures OpenObjects(s, m) >= OpenObjects(s, i)
    {
      PassWs(s, span.sep + 1, m);
    }
  }

  // ---------- The parser on the trimmed text ----------

  /** The text the repair builds from a safe point. */
  function Trimmed(s: string, e: nat): string
    requires e <= |s|
  {
    s[..e] + "}"
  }

  /** Trimmed right after its value, or after the whitespace behind it, a member is the object's last one. */
  lemma TrimmedMember(s: string, i: nat, e: nat)
    requires i <= |s| && ParseMember(s, i).Some?
    requires var span := ParseMember(s, i).value;
      span.valueEnd <= e <= span.sep && (span.member.value.Scalar? ==> e == span.sep)
    ensures i <= |Trimmed(s, e)| && ParseMembers(Trimmed(s, e), i) == Some(([ParseMember(s, i).value.member], e + 1))
  {
    hide SkipWs, ParseValue, ParseString;
    var span := ParseMember(s, i).value;
    var t := Trimmed(s, e);
    assert t[..e] == s[..e];
    AgreeLess(s, t, span.valueEnd, e);
    LocalWs(s, t, span.valueEnd, e);
    ScalarIsDelimited(s, span.valueAt);
    AgreeLess(s, t, span.valueEnd, e);
    LocalMember(s, t, i);
  }

  lemma TrimmedAgrees(s: string, e: nat)
    requires e <= |s|
    ensures Agree(s, Trimmed(s, e), e) && |Trimmed(s, e)| == e + 1
  {
    assert Trimmed(s, e)[..e] == s[..e];
  }

  /** A member that lies wholly before the trim keeps its place in front of the rest. */
  lemma TrimmedCons(s: string, i: nat, e: nat, rest: seq<Member>)
    requires i <= |s| && ParseMember(s, i).Some?
    requires var span := ParseMember(s, i).value;
      var next := SkipWs(s, span.sep + 1);
      && s[span.sep] == ','
      && next < e <= |s|
      && ParseMembers(Trimmed(s, e), next) == Some((rest, e + 1))
    ensures ParseMembers(Trimmed(s, e), i) == Some(([ParseMember(s, i).value.member] + rest, e + 1))
  {
    hide SkipWs, ParseMember, ParseMembers, Agree, Trimmed;
    var span := ParseMember(s, i).value;
    var next := SkipWs(s, span.sep + 1);
    var t := Trimmed(s, e);
    TrimmedAgrees(s, e);
    AgreeLess(s, t, span.sep + 1, e);
    AgreeLess(s, t, span.sep, e);
    AgreeLess(s, t, next, e);
    LocalWholeMember(s, t, i);
    LocalWs(s, t, span.sep + 1, next);
    MembersCons(t, i);
  }

  lemma MembersCons(t: string, i: nat)
    requires i <= |t| && ParseMember(t, i).Some?
    requires var span := ParseMember(t, i).value;
      t[span.sep] == ',' && ParseMembers(t, SkipWs(t, span.sep + 1)).Some?
    ensures var span := ParseMember(t, i).value;
      var (rest, j) := ParseMembers(t, SkipWs(t, span.sep + 1)).value;
      ParseMembers(t, i) == Some(([span.member] + rest, j))
  {
  }

  /** What the scan remembers after a cut among top-level members, and how the trimmed text reads. */
  predicate TopCut(s: string, i: nat, n: nat)
    requires i <= |s| && n <= |s| && ParseMembers(s, i).Some?
  {
    var st := Run(s, n);
    var ms := ParseMembers(s, i).value.0;
    var k := Kept(Finishes(s, i), n);
    && st.halt.Going?
    && OpenObjects(s, i) <= OpenObjects(s, n)
    && (k == 0 ==> st.safe == Run(s, i).safe)
    && (k > 0 ==>
          && st.safe.Some? && i < st.safe.value <= n
          && ParseMembers(Trimmed(s, st.safe.value), i) == Some((ms[..k], st.safe.value + 1)))
  }

  /** A cut before the first member is finished. */
  lemma EarlyCut(s: string, i: nat, n: nat)
    requires i <= n <= |s| && ParseMembers(s, i).Some?
    requires var span := ParseMember(s, i).value;
      CrossesTop(s, i, span) && n <= span.sep && n < FinishOf(span)
    requires Run(s, i).AtRest()
    ensures TopCut(s, i, n)
  {
    hide Run, OpenObjects, InStrings, Nuls, SkipWs, ParseMember, BracesInText, StringBraces;
    var span := ParseMember(s, i).value;
    assert Kept(Finishes(s, i), n) == 0;
    if n < span.valueEnd {
      assert Calm(s, i, n);
    }
  }

  /** A cut after the first member is finished and before the next one starts. */
  lemma FirstCut(s: string, i: nat, n: nat, e: nat)
    requires i <= n <= |s| && ParseMembers(s, i).Some?
    requires var span := ParseMember(s, i).value;
      && FinishOf(span) <= n
      && (s[span.sep] == ',' ==> n <= SkipWs(s, span.sep + 1))
      && span.valueEnd <= e <= span.sep && e <= n && (span.member.value.Scalar? ==> e == span.sep)
    requires Run(s, n).halt.Going? && Run(s, n).safe == Some(e) && OpenObjects(s, i) <= OpenObjects(s, n)
    ensures TopCut(s, i, n)
  {
    hide Run, OpenObjects, SkipWs, ParseMember, Finishes;
    KeptOne(s, i, n);
    assert ParseMembers(s, i).value.0[..1] == [ParseMember(s, i).value.member];
    TrimmedMember(s, i, e);
  }

  lemma KeptOne(s: string, i: nat, n: nat)
    requires i <= n <= |s| && ParseMembers(s, i).Some?
    requires var span := ParseMember(s, i).value;
      FinishOf(span) <= n && (s[span.sep] == ',' ==> n <= SkipWs(s, span.sep + 1))
    ensures Kept(Finishes(s, i), n) == 1
  {
    hide SkipWs, ParseMember;
    var span := ParseMember(s, i).value;
    var f := Finishes(s, i);
    if s[span.sep] == ',' {
      var next := SkipWs(s, span.sep + 1);
      FinishesIncrease(s, next);
      assert f[1..] == Finishes(s, next);
      assert f[1..][0] in f[1..];
    }
    assert Kept(f, n) == 1 + Kept(f[1..], n);
  }

  /** A cut beyond the first key after the first member. */
  lemma LateKept(s: string, i: nat, n: nat)
    requires i <= n <= |s| && ParseMembers(s, i).Some?
    requires var span := ParseMember(s, i).value;
      s[span.sep] == ',' && SkipWs(s, span.sep + 1) < n
    ensures var next := SkipWs(s, ParseMember(s, i).value.sep + 1);
      Kept(Finishes(s, i), n) == 1 + Kept(Finishes(s, next), n)
  {
    hide SkipWs, ParseMember;
    var next := SkipWs(s, ParseMember(s, i).value.sep + 1);
    assert Finishes(s, i)[1..] == Finishes(s, next);
  }

  lemma LateCut(s: string, i: nat, n: nat)
    requires i <= n <= |s| && ParseMembers(s, i).Some?
    requires var span := ParseMember(s, i).value;
      var next := SkipWs(s, span.sep + 1);
      && s[span.sep] == ',' && next < n
      && TopCut(s, next, n)
      && Run(s, next).safe == Some(span.sep)
      && OpenObjects(s, i) <= OpenObjects(s, next)
    ensures TopCut(s, i, n)
  {
    hide Run, OpenObjects, SkipWs, ParseMember, Finishes, Kept, Trimmed;
    var span := ParseMember(s, i).value;
    var next := SkipWs(s, span.sep + 1);
    var rest := ParseMembers(s, next).value.0;
    var k := Kept(Finishes(s, next), n);
    LateKept(s, i, n);
    assert ParseMembers(s, i).value.0[..1 + k] == [span.member] + rest[..k];
    if k == 0 {
      TrimmedMember(s, i, span.sep);
    } else {
      TrimmedCons(s, i, Run(s, n).safe.value, rest[..k]);
    }
  }

  lemma {:induction false} CrossTopMembers(s: string, i: nat, n: nat)
    requires i <= n <= |s| && ParseMembers(s, i).Some? && n < ParseMembers(s, i).value.1
    requires Run(s, i).AtRest() && Run(s, i).depth == 1 && !Run(s, i).awaiting
    ensures TopCut(s, i, n)
    decreases |s| - i
  {
    hide Run, OpenObjects, InStrings, Nuls, SkipWs, ParseMember, BracesInText, StringBraces, TopCut, Finishes;
    var span := ParseMember(s, i).value;
    CrossTopMember(s, i);
    if n <= span.sep {
      if n < FinishOf(span) {
        EarlyCut(s, i, n);
      } else {
        FirstCut(s, i, n, span.valueEnd);
      }
    } else {
      var next := SkipWs(s, span.sep + 1);
      CrossTopComma(s, i, next);
      if n <= next {
        FirstCut(s, i, n, span.sep);
      } else {
        CrossTopMembers(s, next, n);
        LateCut(s, i, n);
      }
    }
  }

  /** Up to the closing brace of the outer object. */
  lemma {:induction false} CrossToClose(s: string, i: nat)
    requires i <= |s| && ParseMembers(s, i).Some?
    requires Run(s, i).AtRest() && Run(s, i).depth == 1 && !Run(s, i).awaiting
    ensures var (ms, c) := ParseMembers(s, i).value;
      && s[c - 1] == '}'
      && Run(s, c - 1).AtRest() && Run(s, c - 1).depth == 1
      && Counted(s, i, c - 1, MembersStringBraces(ms))
    decreases |s| - i
  {
    hide Run, OpenObjects, InStrings, Nuls, SkipWs, ParseMember, BracesInText;
    assert MembersStringBraces([]) == NO_BRACES;
    hide MembersStringBraces, StringBraces;
    var span := ParseMember(s, i).value;
    CrossTopMember(s, i);
    if s[span.sep] == '}' {
      MembersBracesCons(span.member, []);
    } else {
      var next := SkipWs(s, span.sep + 1);
      CrossTopComma(s, i, next);
      CrossToClose(s, next);
      MembersBracesCons(span.member, ParseMembers(s, next).value.0);
    }
  }
}
