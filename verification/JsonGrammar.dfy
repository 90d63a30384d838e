/**
 JSON texts as the grammar of RFC 8259 has them (sections 2 to 7), and that `json.loads` as
 modelled reads exactly these, and as exactly what they say.
 */
module JsonGrammar {
  import opened Options
  import opened Json
  import opened JsonForms
  import opened Locality
  import opened Salvage
  import opened RoundTrip

  // ---------- The grammar ----------

  /** Space, horizontal tab, line feed and carriage return. */
  predicate Blank(w: string) {
    forall k :: 0 <= k < |w| ==> w[k] == ' ' || w[k] == '\t' || w[k] == '\n' || w[k] == '\r'
  }

  ghost predicate ValueText(t: string, v: Json)
    decreases v, 2
  {
    match v
    case Scalar(x) => t == x && ScalarForm(x)
    case Str(x) => t == "\"" + x + "\"" && StringForm(x)
    case Arr(items) => exists inner :: t == "[" + inner + "]" && ItemsText(inner, items)
    case Obj(ms) => exists inner :: t == "{" + inner + "}" && MembersText(inner, ms)
  }

  /** A value with whitespace around it. */
  ghost predicate Padded(t: string, v: Json)
    decreases v, 3
  {
    exists a, x, b :: Around(t, a, x, b) && ValueText(x, v)
  }

  predicate Around(t: string, a: string, x: string, b: string) {
    t == a + x + b && Blank(a) && Blank(b)
  }

  predicate Parted(t: string, head: string, rest: string) {
    t == head + "," + rest
  }

  ghost predicate ItemsText(t: string, items: seq<Json>)
    decreases items, 0
  {
    if items == [] then Blank(t)
    else if |items| == 1 then Padded(t, items[0])
    else exists head, rest :: Parted(t, head, rest) && Padded(head, items[0]) && ItemsText(rest, items[1..])
  }

  predicate Named(t: string, a: string, key: string, b: string, value: string) {
    t == a + "\"" + key + "\"" + b + ":" + value && Blank(a) && Blank(b)
  }

  ghost predicate MemberText(t: string, m: Member)
    decreases m, 4
  {
    exists a, b, value :: Named(t, a, m.key, b, value) && StringForm(m.key) && Padded(value, m.value)
  }

  ghost predicate MembersText(t: string, ms: seq<Member>)
    decreases ms, 0
  {
    if ms == [] then Blank(t)
    else
      var head := ms[0];
      assert ms decreases to head;
      if |ms| == 1 then MemberText(t, head)
      else exists first, rest :: Parted(t, first, rest) && MemberText(first, head) && MembersText(rest, ms[1..])
  }

  // ---------- What is read follows the grammar ----------

  lemma {:induction false} SkipsBlank(s: string, i: nat)
    requires i <= |s|
    ensures Blank(s[i..SkipWs(s, i)])
    decreases |s| - i
  {
    var w := s[i..SkipWs(s, i)];
    forall k | 0 <= k < |w| ensures w[k] == ' ' || w[k] == '\t' || w[k] == '\n' || w[k] == '\r' {
      assert w[k] == s[i + k];
    }
  }

  lemma BlankJoins(a: string, b: string)
    requires Blank(a) && Blank(b)
    ensures Blank(a + b)
  {
  }

  /** More whitespace in front. */
  lemma PaddedMore(w: string, t: string, v: Json)
    requires Blank(w) && Padded(t, v)
    ensures Padded(w + t, v)
  {
    hide ValueText, Blank;
    var a, x, b :| Around(t, a, x, b) && ValueText(x, v);
    BlankJoins(w, a);
    assert w + t == (w + a) + x + b;
    assert Around(w + t, w + a, x, b);
  }

  lemma ItemsMore(w: string, t: string, items: seq<Json>)
    requires Blank(w) && ItemsText(t, items) && items != []
    ensures ItemsText(w + t, items)
  {
    hide Blank, Padded;
    if |items| == 1 {
      PaddedMore(w, t, items[0]);
    } else {
      var head, rest :| Parted(t, head, rest) && Padded(head, items[0]) && ItemsText(rest, items[1..]);
      PaddedMore(w, head, items[0]);
      assert w + t == (w + head) + "," + rest;
      assert Parted(w + t, w + head, rest);
    }
  }

  lemma MemberMore(w: string, t: string, m: Member)
    requires Blank(w) && MemberText(t, m)
    ensures MemberText(w + t, m)
  {
    hide Blank, Padded, StringForm;
    var a, b, value :| Named(t, a, m.key, b, value) && StringForm(m.key) && Padded(value, m.value);
    BlankJoins(w, a);
    assert w + t == (w + a) + "\"" + m.key + "\"" + b + ":" + value;
    assert Named(w + t, w + a, m.key, b, value);
  }

  lemma MembersMore(w: string, t: string, ms: seq<Member>)
    requires Blank(w) && MembersText(t, ms) && ms != []
    ensures MembersText(w + t, ms)
  {
    hide Blank, MemberText;
    if |ms| == 1 {
      MemberMore(w, t, ms[0]);
    } else {
      var first, rest :| Parted(t, first, rest) && MemberText(first, ms[0]) && MembersText(rest, ms[1..]);
      MemberMore(w, first, ms[0]);
      assert w + t == (w + first) + "," + rest;
      assert Parted(w + t, w + first, rest);
    }
  }

  /** The text from `i` to `j` cut in two. */
  lemma Cut(s: string, i: nat, k: nat, j: nat)
    requires i <= k <= j <= |s|
    ensures s[i..j] == s[i..k] + s[k..j]
  {
  }

  lemma Bracketed(s: string, i: nat, j: nat)
    requires i + 2 <= j <= |s|
    ensures s[i..j] == [s[i]] + s[i + 1..j - 1] + [s[j - 1]]
  {
  }

  lemma ObjectText(t: string, inner: string, ms: seq<Member>)
    requires t == "{" + inner + "}" && MembersText(inner, ms)
    ensures ValueText(t, Obj(ms))
  {
    hide MembersText;
  }

  lemma ArrayText(t: string, inner: string, items: seq<Json>)
    requires t == "[" + inner + "]" && ItemsText(inner, items)
    ensures ValueText(t, Arr(items))
  {
    hide ItemsText;
  }

  lemma EmptyTexts(w: string)
    requires Blank(w)
    ensures ItemsText(w, []) && MembersText(w, [])
  {
  }

  lemma {:induction false} ReadValueFollows(s: string, i: nat)
    requires i <= |s| && ParseValue(s, i).Some?
    ensures var (v, j) := ParseValue(s, i).value; ValueText(s[i..j], v)
    decreases |s| - i, 3
  {
    if s[i] == '{' {
      ReadObjectFollows(s, i);
    } else if s[i] == '[' {
      ReadArrayFollows(s, i);
    } else if s[i] == '"' {
      ReadStringFollows(s, i);
    } else {
      ReadScalarFollows(s, i);
    }
  }

  lemma {:induction false} ReadObjectFollows(s: string, i: nat)
    requires i < |s| && s[i] == '{' && ParseValue(s, i).Some?
    ensures var (v, j) := ParseValue(s, i).value; ValueText(s[i..j], v)
    decreases |s| - i, 2
  {
    hide SkipWs, ParseMembers, MembersText, ValueText, Blank;
    var (v, j) := ParseValue(s, i).value;
    var k := SkipWs(s, i + 1);
    SkipsBlank(s, i + 1);
    if s[k] != '}' {
      ReadMembersFollow(s, k);
      Cut(s, i + 1, k, j - 1);
      MembersMore(s[i + 1..k], s[k..j - 1], v.members);
    } else {
      EmptyTexts(s[i + 1..k]);
    }
    Bracketed(s, i, j);
    ObjectText(s[i..j], s[i + 1..j - 1], v.members);
  }

  lemma {:induction false} ReadArrayFollows(s: string, i: nat)
    requires i < |s| && s[i] == '[' && ParseValue(s, i).Some?
    ensures var (v, j) := ParseValue(s, i).value; ValueText(s[i..j], v)
    decreases |s| - i, 2
  {
    hide SkipWs, ParseItems, ItemsText, ValueText, Blank;
    var (v, j) := ParseValue(s, i).value;
    var k := SkipWs(s, i + 1);
    SkipsBlank(s, i + 1);
    if s[k] != ']' {
      ReadItemsFollow(s, k);
      Cut(s, i + 1, k, j - 1);
      ItemsMore(s[i + 1..k], s[k..j - 1], v.items);
    } else {
      EmptyTexts(s[i + 1..k]);
    }
    Bracketed(s, i, j);
    ArrayText(s[i..j], s[i + 1..j - 1], v.items);
  }

  lemma ReadStringFollows(s: string, i: nat)
    requires i < |s| && s[i] == '"' && ParseValue(s, i).Some?
    ensures var (v, j) := ParseValue(s, i).value; ValueText(s[i..j], v)
  {
    hide UnescapeFrom, StringEnd, StringForm;
    var (v, j) := ParseValue(s, i).value;
    StringVerdict(v.lexeme);
    Bracketed(s, i, j);
  }

  lemma ReadScalarFollows(s: string, i: nat)
    requires i < |s| && s[i] !in {'{', '[', '"'} && ParseValue(s, i).Some?
    ensures var (v, j) := ParseValue(s, i).value; ValueText(s[i..j], v)
  {
    hide TokenEnd, IsScalarText, ScalarForm;
    ScalarVerdict(ParseValue(s, i).value.0.text);
  }

  /** A value read at `k` with whitespace on both sides. */
  lemma PaddedAt(s: string, i: nat, k: nat, e: nat, j: nat, v: Json)
    requires i <= k <= e <= j <= |s| && Blank(s[i..k]) && Blank(s[e..j]) && ValueText(s[k..e], v)
    ensures Padded(s[i..j], v)
  {
    hide ValueText, Blank;
    Cut(s, i, k, j);
    Cut(s, k, e, j);
    assert Around(s[i..j], s[i..k], s[k..e], s[e..j]);
  }

  lemma LastItem(t: string, v: Json)
    requires Padded(t, v)
    ensures ItemsText(t, [v])
  {
    hide Padded;
  }

  lemma MoreItems(t: string, head: string, rest: string, v: Json, vs: seq<Json>)
    requires Parted(t, head, rest) && Padded(head, v) && vs != [] && ItemsText(rest, vs)
    ensures ItemsText(t, [v] + vs)
  {
    hide Padded, Parted;
    assert ([v] + vs)[1..] == vs;
  }

  /** An item, a comma, and the items read behind it. */
  lemma CommaText(s: string, i: nat, sep: nat, next: nat, j: nat, v: Json, rest: seq<Json>)
    requires i <= sep < next <= j <= |s| && s[sep] == ',' && Blank(s[sep + 1..next])
    requires Padded(s[i..sep], v) && rest != [] && ItemsText(s[next..j], rest)
    ensures ItemsText(s[i..j], [v] + rest)
  {
    hide Blank, Padded, ItemsText, Parted;
    Cut(s, sep + 1, next, j);
    ItemsMore(s[sep + 1..next], s[next..j], rest);
    AtComma(s, i, sep, j);
    MoreItems(s[i..j], s[i..sep], s[sep + 1..j], v, rest);
  }

  lemma {:induction false} ReadItemFollows(s: string, i: nat)
    requires i <= |s| && ParseValue(s, i).Some?
    ensures var (v, e) := ParseValue(s, i).value; Padded(s[i..SkipWs(s, e)], v)
    decreases |s| - i, 4
  {
    hide SkipWs, ParseValue, ValueText, Blank, Padded;
    var (v, e) := ParseValue(s, i).value;
    ReadValueFollows(s, i);
    SkipsBlank(s, e);
    NoBlank(s, i);
    PaddedAt(s, i, i, e, SkipWs(s, e), v);
  }

  /** The items read are the first one, and those behind its comma if it has one. */
  lemma ItemsStep(s: string, i: nat)
    requires i <= |s| && ParseItems(s, i).Some?
    ensures ParseValue(s, i).Some?
    ensures var (v, e) := ParseValue(s, i).value;
      var sep := SkipWs(s, e);
      sep < |s| &&
      if s[sep] == ',' then
        var rest := ParseItems(s, SkipWs(s, sep + 1));
        rest.Some? && ParseItems(s, i) == Some(([v] + rest.value.0, rest.value.1))
      else s[sep] == ']' && ParseItems(s, i) == Some(([v], sep + 1))
  {
    hide SkipWs, ParseValue;
  }

  lemma {:induction false} ReadItemsFollow(s: string, i: nat)
    requires i <= |s| && ParseItems(s, i).Some?
    ensures var (items, j) := ParseItems(s, i).value; s[j - 1] == ']' && ItemsText(s[i..j - 1], items)
    decreases |s| - i, 5
  {
    hide SkipWs, ParseValue, ParseItems, ItemsText, Blank, Padded;
    ItemsStep(s, i);
    var (v, e) := ParseValue(s, i).value;
    var sep := SkipWs(s, e);
    ReadItemFollows(s, i);
    if s[sep] == ',' {
      var next := SkipWs(s, sep + 1);
      var (rest, j) := ParseItems(s, next).value;
      ReadItemsFollow(s, next);
      SkipsBlank(s, sep + 1);
      CommaText(s, i, sep, next, j - 1, v, rest);
    } else {
      LastItem(s[i..sep], v);
    }
  }

  lemma NoBlank(s: string, i: nat)
    requires i <= |s|
    ensures Blank(s[i..i])
  {
  }

  lemma AtComma(s: string, i: nat, sep: nat, j: nat)
    requires i <= sep < j <= |s| && s[sep] == ','
    ensures Parted(s[i..j], s[i..sep], s[sep + 1..j])
  {
  }

  lemma {:induction false} ReadMemberFollows(s: string, i: nat)
    requires i <= |s| && ParseMember(s, i).Some?
    ensures var span := ParseMember(s, i).value; MemberText(s[i..span.sep], span.member)
    decreases |s| - i, 4
  {
    hide SkipWs, ParseValue, Unescape, StringEnd, ValueText, Blank, StringForm, Padded;
    var span := ParseMember(s, i).value;
    var ke := ParseString(s, i).value.1;
    var colon := SkipWs(s, ke);
    ReadValueFollows(s, span.valueAt);
    SkipsBlank(s, ke);
    SkipsBlank(s, colon + 1);
    SkipsBlank(s, span.valueEnd);
    PaddedAt(s, colon + 1, span.valueAt, span.valueEnd, span.sep, span.member.value);
    StringVerdict(span.member.key);
    NoBlank(s, i);
    NamedAt(s, i, ke, colon, span.sep);
  }

  lemma NamedAt(s: string, i: nat, ke: nat, colon: nat, j: nat)
    requires i + 2 <= ke <= colon < j <= |s| && s[i] == '"' && s[ke - 1] == '"' && s[colon] == ':'
    requires Blank(s[ke..colon])
    ensures Named(s[i..j], "", s[i + 1..ke - 1], s[ke..colon], s[colon + 1..j])
  {
    hide Blank;
    Bracketed(s, i, ke);
    Cut(s, i, ke, j);
    Cut(s, ke, colon, j);
    Cut(s, colon, colon + 1, j);
    NoBlank(s, i);
    assert s[i..i] == "" && s[colon..colon + 1] == ":";
    assert s[i..j] == "" + "\"" + s[i + 1..ke - 1] + "\"" + s[ke..colon] + ":" + s[colon + 1..j];
  }

  lemma LastMember(t: string, m: Member)
    requires MemberText(t, m)
    ensures MembersText(t, [m])
  {
    hide MemberText;
  }

  lemma MoreMembers(t: string, first: string, rest: string, m: Member, ms: seq<Member>)
    requires Parted(t, first, rest) && MemberText(first, m) && ms != [] && MembersText(rest, ms)
    ensures MembersText(t, [m] + ms)
  {
    hide MemberText, Parted;
    assert ([m] + ms)[1..] == ms;
  }

  /** A member, a comma, and the members read behind it. */
  lemma CommaMembers(s: string, i: nat, sep: nat, next: nat, j: nat, m: Member, rest: seq<Member>)
    requires i <= sep < next <= j <= |s| && s[sep] == ',' && Blank(s[sep + 1..next])
    requires MemberText(s[i..sep], m) && rest != [] && MembersText(s[next..j], rest)
    ensures MembersText(s[i..j], [m] + rest)
  {
    hide Blank, MemberText, MembersText, Parted;
    Cut(s, sep + 1, next, j);
    MembersMore(s[sep + 1..next], s[next..j], rest);
    AtComma(s, i, sep, j);
    MoreMembers(s[i..j], s[i..sep], s[sep + 1..j], m, rest);
  }

  /** The members read are the first one, and those behind its comma if it has one. */
  lemma MembersStep(s: string, i: nat)
    requires i <= |s| && ParseMembers(s, i).Some?
    ensures ParseMember(s, i).Some?
    ensures var span := ParseMember(s, i).value;
      if s[span.sep] == ',' then
        var rest := ParseMembers(s, SkipWs(s, span.sep + 1));
        rest.Some? && ParseMembers(s, i) == Some(([span.member] + rest.value.0, rest.value.1))
      else s[span.sep] == '}' && ParseMembers(s, i) == Some(([span.member], span.sep + 1))
  {
    hide SkipWs, ParseMember;
  }

  lemma {:induction false} ReadMembersFollow(s: string, i: nat)
    requires i <= |s| && ParseMembers(s, i).Some?
    ensures var (ms, j) := ParseMembers(s, i).value; s[j - 1] == '}' && MembersText(s[i..j - 1], ms)
    decreases |s| - i, 5
  {
    hide SkipWs, ParseMember, ParseMembers, MembersText, MemberText, Blank;
    MembersStep(s, i);
    var span := ParseMember(s, i).value;
    var sep := span.sep;
    ReadMemberFollows(s, i);
    if s[sep] == ',' {
      var next := SkipWs(s, sep + 1);
      var (rest, j) := ParseMembers(s, next).value;
      ReadMembersFollow(s, next);
      SkipsBlank(s, sep + 1);
      CommaMembers(s, i, sep, next, j - 1, span.member, rest);
    } else {
      LastMember(s[i..sep], span.member);
    }
  }

  // ---------- What follows the grammar is read ----------

  lemma {:induction false} BlankRun(s: string, i: nat, w: string)
    requires At(s, i, w) && Blank(w) && (i + |w| < |s| ==> !IsWs(s[i + |w|]))
    ensures SkipWs(s, i) == i + |w|
    decreases |w|
  {
    if w == "" {
    } else {
      AtChar(s, i, w, 0);
      assert w == [w[0]] + w[1..];
      AtSplit(s, i, [w[0]], w[1..]);
      BlankRun(s, i + 1, w[1..]);
    }
  }

  lemma ValueStarts(x: string, v: Json)
    requires ValueText(x, v)
    ensures x != "" && !IsWs(x[0]) && x[0] !in {'}', ']', ',', ':'}
  {
    if v.Scalar? {
      ScalarVerdict(v.text);
      ScalarIsToken(v.text);
    }
  }

  /** What may stand behind a value: the end, a separator or a closing bracket. */
  predicate Ends(s: string, j: nat) {
    j <= |s| && (j < |s| ==> s[j] in {',', ']', '}'})
  }

  lemma {:induction false} PaddedIsRead(s: string, i: nat, t: string, v: Json)
    requires Padded(t, v) && At(s, i, t) && Ends(s, i + |t|)
    ensures var k := SkipWs(s, i);
      && k < |s| && s[k] !in {'}', ']'} && ParseValue(s, k).Some? && ParseValue(s, k).value.0 == v
      && SkipWs(s, ParseValue(s, k).value.1) == i + |t|
    decreases v, 3
  {
    hide ValueText, Blank, SkipWs, ParseValue, At;
    var a, x, b :| Around(t, a, x, b) && ValueText(x, v);
    AroundAt(s, i, t, a, x, b);
    ValueStarts(x, v);
    AtChar(s, i + |a|, x, 0);
    BlankRun(s, i, a);
    BlankRun(s, i + |a| + |x|, b);
    BlankDelimits(s, i + |a| + |x|, b, v);
    ValueIsRead(s, i + |a|, x, v);
  }

  lemma AroundAt(s: string, i: nat, t: string, a: string, x: string, b: string)
    requires Around(t, a, x, b) && At(s, i, t)
    ensures At(s, i, a) && At(s, i + |a|, x) && At(s, i + |a| + |x|, b) && i + |t| == i + |a| + |x| + |b|
  {
    hide Blank, At;
    assert t == a + (x + b);
    AtSplit(s, i, a, x + b);
    AtSplit(s, i + |a|, x, b);
  }

  lemma BlankDelimits(s: string, j: nat, b: string, v: Json)
    requires At(s, j, b) && Blank(b) && Ends(s, j + |b|)
    ensures Delimited(v, s, j)
  {
    if b != "" {
      AtChar(s, j, b, 0);
    }
  }

  lemma {:induction false} ValueIsRead(s: string, i: nat, t: string, v: Json)
    requires ValueText(t, v) && At(s, i, t) && Delimited(v, s, i + |t|)
    ensures ParseValue(s, i) == Some((v, i + |t|))
    decreases v, 2
  {
    hide SkipWs, ParseString, ParseMembers, ParseItems, IsScalarText, Unescape, TokenEnd;
    hide ItemsText, MembersText, StringForm, ScalarForm, At;
    match v
    case Scalar(x) => {
      ScalarVerdict(x);
      ScalarReadsBack(s, i, x);
    }
    case Str(x) => {
      StringVerdict(x);
      StringReadsBack(s, i, x);
    }
    case Obj(ms) => {
      var inner :| t == "{" + inner + "}" && MembersText(inner, ms);
      BracketLayout(s, i, '{', inner, '}');
      ObjectIsRead(s, i, inner, ms);
    }
    case Arr(items) => {
      var inner :| t == "[" + inner + "]" && ItemsText(inner, items);
      BracketLayout(s, i, '[', inner, ']');
      ArrayIsRead(s, i, inner, items);
    }
  }

  lemma {:induction false} ObjectIsRead(s: string, i: nat, inner: string, ms: seq<Member>)
    requires i < |s| && s[i] == '{' && At(s, i + 1, inner + "}") && MembersText(inner, ms)
    ensures ParseValue(s, i) == Some((Obj(ms), i + |inner| + 2))
    decreases ms, 1
  {
    hide SkipWs, ParseMembers, MembersText, At;
    AtSplit(s, i + 1, inner, "}");
    AtChar(s, i + 1 + |inner|, "}", 0);
    if ms == [] {
      BlankMembers(inner);
      BlankRun(s, i + 1, inner);
    } else {
      MembersAreRead(s, i + 1, inner, ms);
    }
  }

  lemma {:induction false} ArrayIsRead(s: string, i: nat, inner: string, items: seq<Json>)
    requires i < |s| && s[i] == '[' && At(s, i + 1, inner + "]") && ItemsText(inner, items)
    ensures ParseValue(s, i) == Some((Arr(items), i + |inner| + 2))
    decreases items, 1
  {
    hide SkipWs, ParseItems, ItemsText, At;
    AtSplit(s, i + 1, inner, "]");
    AtChar(s, i + 1 + |inner|, "]", 0);
    if items == [] {
      BlankItems(inner);
      BlankRun(s, i + 1, inner);
    } else {
      ItemsAreRead(s, i + 1, inner, items);
    }
  }

  lemma BlankMembers(w: string)
    requires MembersText(w, [])
    ensures Blank(w)
  {
  }

  lemma BlankItems(w: string)
    requires ItemsText(w, [])
    ensures Blank(w)
  {
  }

  lemma OneMoreItem(s: string, k: nat, sep: nat, rest: seq<Json>, j: nat)
    requires k <= |s| && ParseValue(s, k).Some? && SkipWs(s, ParseValue(s, k).value.1) == sep < |s| && s[sep] == ','
    requires ParseItems(s, SkipWs(s, sep + 1)) == Some((rest, j))
    ensures ParseItems(s, k) == Some(([ParseValue(s, k).value.0] + rest, j))
  {
    hide SkipWs, ParseValue;
  }

  lemma {:induction false} LastItemIsRead(s: string, i: nat, t: string, v: Json)
    requires Padded(t, v) && At(s, i, t) && i + |t| < |s| && s[i + |t|] == ']'
    ensures var k := SkipWs(s, i); k < |s| && s[k] != ']' && ParseItems(s, k) == Some(([v], i + |t| + 1))
    decreases v, 4
  {
    hide SkipWs, ParseValue, Padded, At;
    PaddedIsRead(s, i, t, v);
  }

  lemma {:induction false} ItemsAreRead(s: string, i: nat, t: string, items: seq<Json>)
    requires items != [] && ItemsText(t, items) && At(s, i, t) && i + |t| < |s| && s[i + |t|] == ']'
    ensures var k := SkipWs(s, i); k < |s| && s[k] != ']' && ParseItems(s, k) == Some((items, i + |t| + 1))
    decreases items, 0
  {
    hide SkipWs, ParseValue, ParseItems, Padded, At;
    var v, vs := items[0], items[1..];
    assert items == [v] + vs;
    if vs == [] {
      assert items == [v];
      LastItemIsRead(s, i, t, v);
    } else {
      var head, rest :| Parted(t, head, rest) && Padded(head, v) && ItemsText(rest, vs);
      hide ItemsText, Parted;
      PartedAt(s, i, t, head, rest);
      PaddedIsRead(s, i, head, v);
      ItemsAreRead(s, i + |head| + 1, rest, vs);
      OneMoreItem(s, SkipWs(s, i), i + |head|, vs, i + |t| + 1);
    }
  }

  lemma PartedAt(s: string, i: nat, t: string, head: string, rest: string)
    requires Parted(t, head, rest) && At(s, i, t)
    ensures At(s, i, head) && At(s, i + |head| + 1, rest) && i + |head| < |s| && s[i + |head|] == ','
    ensures |t| == |head| + 1 + |rest|
  {
    hide At;
    assert t == head + ("," + rest);
    AtSplit(s, i, head, "," + rest);
    AtSplit(s, i + |head|, ",", rest);
    AtChar(s, i + |head|, ",", 0);
  }

  lemma OneMoreMember(s: string, k: nat, rest: seq<Member>, j: nat)
    requires k <= |s| && ParseMember(s, k).Some? && s[ParseMember(s, k).value.sep] == ','
    requires ParseMembers(s, SkipWs(s, ParseMember(s, k).value.sep + 1)) == Some((rest, j))
    ensures ParseMembers(s, k) == Some(([ParseMember(s, k).value.member] + rest, j))
  {
    hide SkipWs, ParseMember;
  }

  lemma {:induction false} LastMemberIsRead(s: string, i: nat, t: string, m: Member)
    requires MemberText(t, m) && At(s, i, t) && i + |t| < |s| && s[i + |t|] == '}'
    ensures var k := SkipWs(s, i); k < |s| && s[k] != '}' && ParseMembers(s, k) == Some(([m], i + |t| + 1))
    decreases m, 5
  {
    hide SkipWs, ParseMember, MemberText, At;
    MemberIsRead(s, i, t, m);
  }

  lemma {:induction false} MembersAreRead(s: string, i: nat, t: string, ms: seq<Member>)
    requires ms != [] && MembersText(t, ms) && At(s, i, t) && i + |t| < |s| && s[i + |t|] == '}'
    ensures var k := SkipWs(s, i); k < |s| && s[k] != '}' && ParseMembers(s, k) == Some((ms, i + |t| + 1))
    decreases ms, 0
  {
    hide SkipWs, ParseMember, ParseMembers, MemberText, At;
    var m, more := ms[0], ms[1..];
    assert ms decreases to m;
    assert ms == [m] + more;
    if more == [] {
      assert ms == [m];
      LastMemberIsRead(s, i, t, m);
    } else {
      var first, rest :| Parted(t, first, rest) && MemberText(first, m) && MembersText(rest, more);
      hide MembersText, Parted;
      PartedAt(s, i, t, first, rest);
      MemberIsRead(s, i, first, m);
      MembersAreRead(s, i + |first| + 1, rest, more);
      OneMoreMember(s, SkipWs(s, i), more, i + |t| + 1);
    }
  }

  lemma MemberFromParts(s: string, k: nat, colon: nat, sep: nat)
    requires k < |s| && s[k] == '"' && ParseString(s, k).Some?
    requires SkipWs(s, ParseString(s, k).value.1) == colon < |s| && s[colon] == ':'
    requires ParseValue(s, SkipWs(s, colon + 1)).Some?
    requires SkipWs(s, ParseValue(s, SkipWs(s, colon + 1)).value.1) == sep < |s|
    ensures ParseMember(s, k).Some? && ParseMember(s, k).value.sep == sep
    ensures ParseMember(s, k).value.member ==
      Member(ParseString(s, k).value.0, ParseValue(s, SkipWs(s, colon + 1)).value.0)
  {
    hide SkipWs, ParseString, ParseValue;
  }

  lemma {:induction false} MemberIsRead(s: string, i: nat, t: string, m: Member)
    requires MemberText(t, m) && At(s, i, t) && i + |t| < |s| && s[i + |t|] in {',', '}'}
    ensures var k := SkipWs(s, i);
      && k < |s| && s[k] == '"' && ParseMember(s, k).Some?
      && ParseMember(s, k).value.member == m && ParseMember(s, k).value.sep == i + |t|
    decreases m, 4
  {
    hide SkipWs, ParseString, ParseValue, ParseMember, Unescape, Blank, Padded, StringForm, At;
    var a, b, value :| Named(t, a, m.key, b, value) && StringForm(m.key) && Padded(value, m.value);
    NamedParts(s, i, t, a, m.key, b, value);
    StringVerdict(m.key);
    StringReadsBack(s, i + |a|, m.key);
    BlankRun(s, i, a);
    BlankRun(s, i + |a| + |m.key| + 2, b);
    PaddedIsRead(s, i + |a| + |m.key| + |b| + 3, value, m.value);
    MemberFromParts(s, i + |a|, i + |a| + |m.key| + |b| + 2, i + |t|);
  }

  /** Where the parts of a member stand. */
  lemma NamedParts(s: string, i: nat, t: string, a: string, key: string, b: string, value: string)
    requires Named(t, a, key, b, value) && At(s, i, t)
    ensures var e := i + |a| + |key| + 2;
      && At(s, i, a) && At(s, i + |a|, Quote(key)) && i + |a| < |s| && s[i + |a|] == '"'
      && At(s, e, b) && e + |b| < |s| && s[e + |b|] == ':'
      && At(s, e + |b| + 1, value) && i + |t| == e + |b| + 1 + |value|
  {
    hide At, Blank;
    var e := i + |a| + |key| + 2;
    assert t == a + (Quote(key) + (b + (":" + value)));
    AtSplit(s, i, a, Quote(key) + (b + (":" + value)));
    AtSplit(s, i + |a|, Quote(key), b + (":" + value));
    AtSplit(s, e, b, ":" + value);
    AtSplit(s, e + |b|, ":", value);
    AtChar(s, i + |a|, Quote(key), 0);
    AtChar(s, e + |b|, ":", 0);
  }

  // ---------- What json.loads accepts ----------

  /** Exactly the texts of the grammar are read, each as the value it is a text of. */
  lemma LoadsVerdict(t: string, v: Json)
    ensures Loads(t) == Some(v) <==> Padded(t, v)
  {
    hide ParseValue, SkipWs, ValueText, Blank, Padded;
    if Loads(t) == Some(v) {
      var k := SkipWs(t, 0);
      var e := ParseValue(t, k).value.1;
      ReadValueFollows(t, k);
      SkipsBlank(t, 0);
      SkipsBlank(t, e);
      PaddedAt(t, 0, k, e, |t|, v);
      assert t[0..|t|] == t;
    }
    if Padded(t, v) {
      assert t[0..0 + |t|] == t;
      PaddedIsRead(t, 0, t, v);
    }
  }

  /** The values that have a text at all, and the text that is one. */
  lemma WellFormedVerdict(v: Json)
    ensures WellFormed(v) <==> exists t :: Padded(t, v)
    ensures WellFormed(v) ==> Padded(Print(v), v)
  {
    hide WellFormed, Loads, Print, Padded;
    PrintIsFaithful(v);
    LoadsVerdict(Print(v), v);
    forall t | Padded(t, v) ensures WellFormed(v) {
      LoadsVerdict(t, v);
    }
  }

  /** The texts the salvage results speak about. */
  lemma ObjectTextVerdict(t: string)
    ensures IsObjectText(t) <==> t != "" && t[0] == '{' && exists ms :: Padded(t, Obj(ms))
    ensures IsObjectText(t) ==> Padded(t, Obj(MembersOf(t)))
  {
    hide Loads, Padded;
    if IsObjectText(t) {
      BraceReadsObject(t);
      LoadsVerdict(t, Obj(MembersOf(t)));
    }
    forall ms | Padded(t, Obj(ms)) ensures Loads(t) == Some(Obj(ms)) {
      LoadsVerdict(t, Obj(ms));
    }
  }

  lemma BraceReadsObject(t: string)
    requires IsObjectText(t)
    ensures Loads(t) == Some(Obj(MembersOf(t)))
  {
    hide ParseMembers;
    NoWs(t, 0);
  }
}
