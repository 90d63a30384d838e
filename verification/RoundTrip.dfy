/** Printing a value and reading the text back gives the value. */
module RoundTrip {
  import opened Options
  import opened Json
  import opened JsonForms
  import opened Locality
  import opened Salvage

  /** The text `p` stands at position `i` of `s`. */
  predicate At(s: string, i: nat, p: string) {
    i + |p| <= |s| && s[i..i + |p|] == p
  }

  lemma AtSplit(s: string, i: nat, p: string, q: string)
    ensures At(s, i, p + q) <==> At(s, i, p) && At(s, i + |p|, q)
  {
    if At(s, i, p + q) {
      assert s[i..i + |p|] == (p + q)[..|p|];
      assert s[i + |p|..i + |p| + |q|] == (p + q)[|p|..];
    }
  }

  lemma AtChar(s: string, i: nat, p: string, k: nat)
    requires At(s, i, p) && k < |p|
    ensures i + k < |s| && s[i + k] == p[k]
  {
    assert s[i..i + |p|][k] == s[i + k];
  }

  lemma NoWs(s: string, i: nat)
    requires i < |s| && !IsWs(s[i])
    ensures SkipWs(s, i) == i
  {
  }

  // ---------- Scalars and strings ----------

  lemma NumberIsToken(t: string)
    requires IsNumber(t)
    ensures t != "" && forall k :: 0 <= k < |t| ==> IsTokenChar(t[k])
  {
    var sign := if t[0] == '-' then 1 else 0;
    var whole := IntEnd(t, sign);
    var fraction := FractionEnd(t, whole);
    forall k | 0 <= k < |t| ensures IsTokenChar(t[k]) {
      if k >= fraction {
        assert k == fraction || k == fraction + 1 || IsDigit(t[k]);
      } else if k >= whole {
        assert k == whole || IsDigit(t[k]);
      } else if k >= sign {
        assert IsDigit(t[k]);
      }
    }
  }

  lemma ScalarIsToken(t: string)
    requires IsScalarText(t)
    ensures t != "" && forall k :: 0 <= k < |t| ==> IsTokenChar(t[k])
  {
    if IsNumber(t) {
      NumberIsToken(t);
    }
  }

  lemma {:induction false} TokenRunsTo(s: string, i: nat, j: nat)
    requires i <= j <= |s| && (forall k :: i <= k < j ==> IsTokenChar(s[k])) && (j < |s| ==> !IsTokenChar(s[j]))
    ensures TokenEnd(s, i) == j
    decreases j - i
  {
    if i == j {
    } else {
      TokenRunsTo(s, i + 1, j);
    }
  }

  lemma ScalarReadsBack(s: string, i: nat, t: string)
    requires IsScalarText(t) && At(s, i, t) && Delimited(Scalar(t), s, i + |t|)
    ensures ParseValue(s, i) == Some((Scalar(t), i + |t|))
  {
    hide IsScalarText;
    ScalarIsToken(t);
    forall k | i <= k < i + |t| ensures IsTokenChar(s[k]) {
      AtChar(s, i, t, k - i);
    }
    TokenRunsTo(s, i, i + |t|);
    assert s[i] == t[0];
  }

  /** After one character or escape of a valid lexeme, the rest is valid. */
  lemma NextUnit(t: string, k: nat)
    requires k < |t| && UnescapeFrom(t, k).Some?
    ensures t[k] != '"'
    ensures t[k] != '\\' ==> UnescapeFrom(t, k + 1).Some?
    ensures t[k] == '\\' ==> k + 1 < |t|
    ensures t[k] == '\\' && t[k + 1] != 'u' ==> UnescapeFrom(t, k + 2).Some?
    ensures t[k] == '\\' && t[k + 1] == 'u' ==> HexUnit(t, k + 2).Some? && UnescapeFrom(t, k + 6).Some?
  {
  }

  /** The scan for the closing quote stops exactly behind a valid lexeme. */
  lemma {:induction false} LexemeEnds(s: string, base: nat, t: string, k: nat)
    requires k <= |t| && UnescapeFrom(t, k).Some? && At(s, base, t + "\"")
    ensures StringEnd(s, base + k) == Some(base + |t| + 1)
    decreases |t| - k
  {
    hide At, UnescapeFrom;
    AtChar(s, base, t + "\"", k);
    if k == |t| {
    } else {
      NextUnit(t, k);
      if t[k] != '\\' {
        LexemeEnds(s, base, t, k + 1);
      } else {
        AtChar(s, base, t + "\"", k + 1);
        if t[k + 1] != 'u' {
          LexemeEnds(s, base, t, k + 2);
        } else {
          AtChar(s, base, t + "\"", k + 2);
          AtChar(s, base, t + "\"", k + 3);
          AtChar(s, base, t + "\"", k + 4);
          AtChar(s, base, t + "\"", k + 5);
          LexemeEnds(s, base, t, k + 6);
          HexIsPlain(s, base + k + 2);
        }
      }
    }
  }

  lemma HexIsPlain(s: string, i: nat)
    requires i + 4 <= |s| && IsHex(s[i]) && IsHex(s[i + 1]) && IsHex(s[i + 2]) && IsHex(s[i + 3])
    ensures StringEnd(s, i) == StringEnd(s, i + 4)
  {
    assert StringEnd(s, i) == StringEnd(s, i + 1);
    assert StringEnd(s, i + 1) == StringEnd(s, i + 2);
    assert StringEnd(s, i + 2) == StringEnd(s, i + 3);
    assert StringEnd(s, i + 3) == StringEnd(s, i + 4);
  }

  lemma StringReadsBack(s: string, i: nat, t: string)
    requires Unescape(t).Some? && At(s, i, Quote(t))
    ensures i < |s| && s[i] == '"' && ParseString(s, i) == Some((t, i + |t| + 2))
  {
    hide UnescapeFrom, StringEnd;
    AtSplit(s, i, "\"", t + "\"");
    assert Quote(t) == "\"" + (t + "\"");
    AtChar(s, i, Quote(t), 0);
    LexemeEnds(s, i + 1, t, 0);
    AtSplit(s, i + 1, t, "\"");
  }

  // ---------- Values ----------

  /** A printed value starts with a character that is no whitespace and no closing bracket. */
  lemma PrintStarts(v: Json)
    requires WellFormed(v)
    ensures Print(v) != "" && !IsWs(Print(v)[0]) && Print(v)[0] !in {'}', ']', ',', ':'}
  {
    if v.Scalar? {
      ScalarVerdict(v.text);
      ScalarIsToken(v.text);
    }
  }

  lemma {:induction false} ReadsBack(s: string, i: nat, v: Json)
    requires WellFormed(v) && At(s, i, Print(v)) && Delimited(v, s, i + |Print(v)|)
    ensures ParseValue(s, i) == Some((v, i + |Print(v)|))
    decreases v, 0
  {
    hide SkipWs, ParseString, ParseMembers, ParseItems, IsScalarText, Unescape, TokenEnd;
    match v
    case Scalar(t) => {
      ScalarVerdict(t);
      ScalarReadsBack(s, i, t);
    }
    case Str(t) => {
      StringVerdict(t);
      StringReadsBack(s, i, t);
    }
    case Obj(ms) => {
      BracketLayout(s, i, '{', PrintMembers(ms), '}');
      MembersStart(ms);
      NoWs(s, i + 1);
      if ms != [] {
        MembersReadBack(s, i + 1, ms);
      }
    }
    case Arr(items) => {
      BracketLayout(s, i, '[', PrintItems(items), ']');
      ItemsStart(items);
      NoWs(s, i + 1);
      if items != [] {
        ItemsReadBack(s, i + 1, items);
      }
    }
  }

  /** A bracketed text at `i`: the opening bracket, then what follows it. */
  lemma BracketLayout(s: string, i: nat, open: char, inner: string, close: char)
    requires At(s, i, [open] + inner + [close])
    ensures i + 1 < |s| && s[i] == open && At(s, i + 1, inner + [close]) && s[i + 1] == (inner + [close])[0]
  {
    hide At;
    assert [open] + inner + [close] == [open] + (inner + [close]);
    AtSplit(s, i, [open], inner + [close]);
    AtChar(s, i, [open], 0);
    AtChar(s, i + 1, inner + [close], 0);
  }

  lemma MembersStart(ms: seq<Member>)
    ensures (PrintMembers(ms) + "}")[0] == (if ms == [] then '}' else '"')
  {
  }

  lemma ItemsStart(items: seq<Json>)
    requires forall k :: 0 <= k < |items| ==> WellFormed(items[k])
    ensures var c := (PrintItems(items) + "]")[0]; !IsWs(c) && (items != [] ==> c != ']') && (items == [] ==> c == ']')
  {
    if items != [] {
      PrintStarts(items[0]);
    }
  }

  /** Where the parts of a printed member stand. */
  lemma MemberLayout(s: string, i: nat, m: Member, c: char)
    requires At(s, i, PrintMember(m) + [c])
    ensures var at := i + |m.key| + 3;
      && At(s, i, Quote(m.key)) && s[at - 1] == ':'
      && At(s, at, Print(m.value)) && at + |Print(m.value)| < |s| && s[at + |Print(m.value)|] == c
  {
    hide Print, At;
    var at := i + |m.key| + 3;
    var p := Print(m.value);
    assert PrintMember(m) + [c] == Quote(m.key) + (":" + (p + [c]));
    AtSplit(s, i, Quote(m.key), ":" + (p + [c]));
    AtSplit(s, at - 1, ":", p + [c]);
    AtSplit(s, at, p, [c]);
    AtChar(s, at - 1, ":", 0);
    AtChar(s, at + |p|, [c], 0);
  }

  /** One printed member, with a separator right behind it. */
  lemma {:induction false} MemberReadsBack(s: string, i: nat, m: Member, c: char)
    requires WellFormedMember(m) && (c == ',' || c == '}')
    requires At(s, i, PrintMember(m) + [c])
    ensures var at := i + |m.key| + 3;
      var sep := at + |Print(m.value)|;
      && at < sep < |s| && s[sep] == c && ParseMember(s, i) == Some(Span(m, at, sep, sep))
      && sep == i + |PrintMember(m)|
    decreases m, 1
  {
    hide SkipWs, ParseString, ParseValue, Unescape, Print, At, WellFormed;
    var at := i + |m.key| + 3;
    var sep := at + |Print(m.value)|;
    MemberLayout(s, i, m, c);
    StringVerdict(m.key);
    StringReadsBack(s, i, m.key);
    NoWs(s, at - 1);
    PrintStarts(m.value);
    AtChar(s, at, Print(m.value), 0);
    NoWs(s, at);
    ReadsBack(s, at, m.value);
    NoWs(s, sep);
  }

  lemma {:induction false} MembersReadBack(s: string, i: nat, ms: seq<Member>)
    requires ms != [] && (forall k :: 0 <= k < |ms| ==> WellFormedMember(ms[k])) && At(s, i, PrintMembers(ms) + "}")
    ensures ParseMembers(s, i) == Some((ms, i + |PrintMembers(ms)| + 1))
    decreases ms, 2
  {
    hide SkipWs, ParseMember, WellFormedMember, PrintMember, At;
    var head, rest := ms[0], ms[1..];
    assert ms decreases to head;
    assert ms == [head] + rest;
    if rest == [] {
      assert ms == [head];
      MemberReadsBack(s, i, head, '}');
    } else {
      var h := PrintMember(head) + ",";
      assert PrintMembers(ms) + "}" == h + (PrintMembers(rest) + "}");
      AtSplit(s, i, h, PrintMembers(rest) + "}");
      MemberReadsBack(s, i, head, ',');
      MembersStart(rest);
      AtChar(s, i + |h|, PrintMembers(rest) + "}", 0);
      AtInside(s, i + |h|, PrintMembers(rest) + "}");
      NoWs(s, i + |h|);
      MembersReadBack(s, i + |h|, rest);
    }
  }

  lemma AtInside(s: string, i: nat, p: string)
    requires At(s, i, p)
    ensures i + |p| <= |s|
  {
  }

  lemma {:induction false} ItemsReadBack(s: string, i: nat, items: seq<Json>)
    requires items != [] && (forall k :: 0 <= k < |items| ==> WellFormed(items[k])) && At(s, i, PrintItems(items) + "]")
    ensures ParseItems(s, i) == Some((items, i + |PrintItems(items)| + 1))
    decreases items, 2
  {
    hide SkipWs, ParseValue, WellFormed, Print, At;
    var head, rest := items[0], items[1..];
    assert items == [head] + rest;
    if rest == [] {
      assert items == [head];
      ItemReadsBack(s, i, head, ']');
    } else {
      var h := Print(head) + ",";
      assert PrintItems(items) + "]" == h + (PrintItems(rest) + "]");
      AtSplit(s, i, h, PrintItems(rest) + "]");
      ItemReadsBack(s, i, head, ',');
      ItemsStart(rest);
      AtChar(s, i + |h|, PrintItems(rest) + "]", 0);
      AtInside(s, i + |h|, PrintItems(rest) + "]");
      NoWs(s, i + |h|);
      ItemsReadBack(s, i + |h|, rest);
    }
  }

  /** One printed item, with a separator right behind it. */
  lemma {:induction false} ItemReadsBack(s: string, i: nat, v: Json, c: char)
    requires WellFormed(v) && (c == ',' || c == ']') && At(s, i, Print(v) + [c])
    ensures var sep := i + |Print(v)|;
      sep < |s| && s[sep] == c && ParseValue(s, i) == Some((v, sep)) && SkipWs(s, sep) == sep
    decreases v, 1
  {
    hide SkipWs, ParseValue, WellFormed, Print;
    AtSplit(s, i, Print(v), [c]);
    AtChar(s, i + |Print(v)|, [c], 0);
    ReadsBack(s, i, v);
    NoWs(s, i + |Print(v)|);
  }

  /** `json.loads` inverts the compact printer. */
  lemma LoadsInvertsPrint(v: Json)
    requires WellFormed(v)
    ensures Loads(Print(v)) == Some(v)
  {
    hide WellFormed, Print, ParseValue, SkipWs;
    var t := Print(v);
    PrintStarts(v);
    NoWs(t, 0);
    assert t[0..0 + |t|] == t;
    ReadsBack(t, 0, v);
    NothingToSkip(t);
  }

  lemma NothingToSkip(t: string)
    ensures SkipWs(t, |t|) == |t|
  {
  }

  /** Every printed object is a text the salvage theorems speak about, closed by its last character. */
  lemma PrintedObject(ms: seq<Member>)
    requires WellFormed(Obj(ms))
    ensures var t := Print(Obj(ms)); IsObjectText(t) && MembersOf(t) == ms && ObjectEnd(t) == |t|
  {
    hide WellFormed, ParseValue, SkipWs;
    var t := Print(Obj(ms));
    LoadsInvertsPrint(Obj(ms));
    assert t[0..0 + |t|] == t;
    ReadsBack(t, 0, Obj(ms));
  }

  // ---------- Whatever is read can be printed ----------

  lemma {:induction false} ReadIsWellFormed(s: string, i: nat)
    requires i <= |s| && ParseValue(s, i).Some?
    ensures WellFormed(ParseValue(s, i).value.0)
    decreases |s| - i, 0
  {
    hide SkipWs, TokenEnd, IsScalarText, Unescape, StringEnd, ParseMembers, ParseItems;
    if s[i] == '{' {
      var k := SkipWs(s, i + 1);
      if s[k] != '}' {
        ReadMembersAreWellFormed(s, k);
      }
    } else if s[i] == '[' {
      var k := SkipWs(s, i + 1);
      if s[k] != ']' {
        ReadItemsAreWellFormed(s, k);
      }
    } else {
      ReadLeafIsWellFormed(s, i);
    }
  }

  lemma ReadLeafIsWellFormed(s: string, i: nat)
    requires i < |s| && ParseValue(s, i).Some? && s[i] != '{' && s[i] != '['
    ensures WellFormed(ParseValue(s, i).value.0)
  {
    hide SkipWs, TokenEnd, IsScalarText, Unescape, StringEnd, ParseMembers, ParseItems, StringForm, ScalarForm;
    match ParseValue(s, i).value.0
    case Str(t) => StringVerdict(t);
    case Scalar(t) => ScalarVerdict(t);
  }

  lemma {:induction false} ReadMembersAreWellFormed(s: string, i: nat)
    requires i <= |s| && ParseMembers(s, i).Some?
    ensures forall k :: 0 <= k < |ParseMembers(s, i).value.0| ==> WellFormedMember(ParseMembers(s, i).value.0[k])
    decreases |s| - i, 1
  {
    hide SkipWs, ParseMember, WellFormedMember;
    var head := ParseMember(s, i).value;
    ReadMemberIsWellFormed(s, i);
    if s[head.sep] == ',' {
      ReadMembersAreWellFormed(s, SkipWs(s, head.sep + 1));
    }
  }

  lemma {:induction false} ReadMemberIsWellFormed(s: string, i: nat)
    requires i <= |s| && ParseMember(s, i).Some?
    ensures WellFormedMember(ParseMember(s, i).value.member)
    decreases |s| - i, 0
  {
    hide SkipWs, ParseValue, Unescape, StringEnd, WellFormed;
    hide StringForm;
    var key := ParseString(s, i).value;
    StringVerdict(key.0);
    ReadIsWellFormed(s, SkipWs(s, SkipWs(s, key.1) + 1));
  }

  lemma {:induction false} ReadItemsAreWellFormed(s: string, i: nat)
    requires i <= |s| && ParseItems(s, i).Some?
    ensures forall k :: 0 <= k < |ParseItems(s, i).value.0| ==> WellFormed(ParseItems(s, i).value.0[k])
    decreases |s| - i, 1
  {
    hide SkipWs, ParseValue, WellFormed;
    ReadIsWellFormed(s, i);
    var sep := SkipWs(s, ParseValue(s, i).value.1);
    if s[sep] == ',' {
      ReadItemsAreWellFormed(s, SkipWs(s, sep + 1));
    }
  }

  /** Printing comes back exactly for the values some text reads as. */
  lemma PrintIsFaithful(v: Json)
    ensures Loads(Print(v)) == Some(v) <==> WellFormed(v)
    ensures WellFormed(v) <==> exists t :: Loads(t) == Some(v)
  {
    hide WellFormed, Print, ParseValue, SkipWs;
    if WellFormed(v) {
      LoadsInvertsPrint(v);
    }
    forall t | Loads(t) == Some(v) ensures WellFormed(v) {
      ReadIsWellFormed(t, SkipWs(t, 0));
    }
  }
}
