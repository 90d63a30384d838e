/**
 The parser looks no further than the value it returns: the same characters parse to the
 same value whatever follows, except that a scalar must not be continued.
 */
module Locality {
  import opened Options
  import opened Json

  /** Both texts start with the same `j` characters. */
  predicate Agree(s: string, t: string, j: nat) {
    j <= |s| && j <= |t| && s[..j] == t[..j]
  }

  lemma AgreeLess(s: string, t: string, i: nat, j: nat)
    requires i <= j && Agree(s, t, j)
    ensures Agree(s, t, i)
    ensures i < j ==> s[i] == t[i]
  {
    assert s[..i] == s[..j][..i] == t[..j][..i] == t[..i];
    if i < j {
      assert s[i] == s[..j][i] == t[..j][i] == t[i];
    }
  }

  lemma {:induction false} LocalWs(s: string, t: string, i: nat, j: nat)
    requires i <= j && j <= |s| && SkipWs(s, i) >= j && Agree(s, t, j) && (j < |t| ==> !IsWs(t[j]))
    ensures SkipWs(t, i) == j
    decreases j - i
  {
    if i == j {
    } else {
      AgreeLess(s, t, i, j);
      LocalWs(s, t, i + 1, j);
    }
  }

  lemma {:induction false} LocalToken(s: string, t: string, i: nat, j: nat)
    requires i <= j && j <= |s| && TokenEnd(s, i) == j && Agree(s, t, j) && (j < |t| ==> !IsTokenChar(t[j]))
    ensures TokenEnd(t, i) == j
    decreases j - i
  {
    if i == j {
    } else {
      AgreeLess(s, t, i, j);
      LocalToken(s, t, i + 1, j);
    }
  }

  lemma {:induction false} LocalStringEnd(s: string, t: string, i: nat, j: nat)
    requires i <= |s| && StringEnd(s, i) == Some(j) && Agree(s, t, j)
    ensures StringEnd(t, i) == Some(j)
    decreases |s| - i
  {
    AgreeLess(s, t, i, j);
    if s[i] != '"' {
      LocalStringEnd(s, t, if s[i] == '\\' then i + 2 else i + 1, j);
    }
  }

  lemma LocalString(s: string, t: string, i: nat)
    requires i < |s| && ParseString(s, i).Some? && Agree(s, t, ParseString(s, i).value.1)
    ensures i < |t| && ParseString(t, i) == ParseString(s, i)
  {
    hide StringEnd, UnescapeFrom;
    var j := ParseString(s, i).value.1;
    LocalStringEnd(s, t, i + 1, j);
    assert s[i + 1..j - 1] == s[..j][i + 1..j - 1] == t[..j][i + 1..j - 1] == t[i + 1..j - 1];
  }

  /** Nothing after position `j` continues the value that ends there. */
  predicate Delimited(v: Json, t: string, j: nat) {
    v.Scalar? && j < |t| ==> !IsTokenChar(t[j])
  }

  lemma {:induction false} LocalValue(s: string, t: string, i: nat)
    requires i <= |s| && ParseValue(s, i).Some?
    requires var (v, j) := ParseValue(s, i).value; Agree(s, t, j) && Delimited(v, t, j)
    ensures i <= |t| && ParseValue(t, i) == ParseValue(s, i)
    decreases |s| - i, 0
  {
    hide SkipWs, TokenEnd, StringEnd, UnescapeFrom, IsScalarText;
    var (v, j) := ParseValue(s, i).value;
    AgreeLess(s, t, i, j);
    match v
    case Str(_) => LocalString(s, t, i);
    case Scalar(text) => {
      LocalToken(s, t, i, j);
      assert s[i..j] == s[..j][i..j] == t[..j][i..j] == t[i..j];
    }
    case Obj(ms) => {
      var k := SkipWs(s, i + 1);
      AgreeLess(s, t, k, j);
      LocalWs(s, t, i + 1, k);
      if ms != [] {
        LocalMembers(s, t, k);
      }
    }
    case Arr(items) => {
      var k := SkipWs(s, i + 1);
      AgreeLess(s, t, k, j);
      LocalWs(s, t, i + 1, k);
      if items != [] {
        LocalItems(s, t, k);
      }
    }
  }

  /** Up to the end of a member's value the texts agree; the separator may come earlier or later. */
  lemma {:induction false} LocalMember(s: string, t: string, i: nat)
    requires i <= |s| && ParseMember(s, i).Some?
    requires var span := ParseMember(s, i).value;
      && Agree(s, t, span.valueEnd)
      && Delimited(span.member.value, t, span.valueEnd)
      && SkipWs(t, span.valueEnd) < |t|
    ensures var span := ParseMember(s, i).value;
      ParseMember(t, i) == Some(span.(sep := SkipWs(t, span.valueEnd)))
    decreases |s| - i, 1
  {
    hide SkipWs, StringEnd, UnescapeFrom, ParseValue, ParseString;
    var span := ParseMember(s, i).value;
    var ke := ParseString(s, i).value.1;
    var colon := SkipWs(s, ke);
    AgreeLess(s, t, i, span.valueEnd);
    AgreeLess(s, t, ke, span.valueEnd);
    AgreeLess(s, t, colon, span.valueEnd);
    AgreeLess(s, t, colon + 1, span.valueEnd);
    AgreeLess(s, t, span.valueAt, span.valueEnd);
    LocalString(s, t, i);
    LocalWs(s, t, ke, colon);
    LocalWs(s, t, colon + 1, span.valueAt);
    LocalValue(s, t, span.valueAt);
  }

  /** A scalar stops where its token stops. */
  lemma ScalarIsDelimited(s: string, i: nat)
    requires i <= |s| && ParseValue(s, i).Some?
    ensures var (v, j) := ParseValue(s, i).value; Delimited(v, s, j)
  {
    hide SkipWs, StringEnd, UnescapeFrom, IsScalarText;
  }

  /** Agreement beyond the separator carries the whole member over. */
  lemma {:induction false} LocalWholeMember(s: string, t: string, i: nat)
    requires i <= |s| && ParseMember(s, i).Some? && Agree(s, t, ParseMember(s, i).value.sep + 1)
    ensures i <= |t| && ParseMember(t, i) == ParseMember(s, i)
    decreases |s| - i, 2
  {
    var span := ParseMember(s, i).value;
    hide SkipWs, ParseString, ParseValue;
    ScalarIsDelimited(s, span.valueAt);
    AgreeLess(s, t, span.valueEnd, span.sep + 1);
    AgreeLess(s, t, span.sep, span.sep + 1);
    LocalWs(s, t, span.valueEnd, span.sep);
    LocalMember(s, t, i);
  }

  lemma {:induction false} LocalMembers(s: string, t: string, i: nat)
    requires i <= |s| && ParseMembers(s, i).Some? && Agree(s, t, ParseMembers(s, i).value.1)
    ensures i <= |t| && ParseMembers(t, i) == ParseMembers(s, i)
    decreases |s| - i, 3
  {
    hide SkipWs, ParseMember;
    var j := ParseMembers(s, i).value.1;
    var span := ParseMember(s, i).value;
    AgreeLess(s, t, span.sep + 1, j);
    AgreeLess(s, t, span.sep, span.sep + 1);
    LocalWholeMember(s, t, i);
    if s[span.sep] == ',' {
      var next := SkipWs(s, span.sep + 1);
      AgreeLess(s, t, next, j);
      LocalWs(s, t, span.sep + 1, next);
      LocalMembers(s, t, next);
    }
  }

  /** One array item and the whitespace after it, up to and including the separator. */
  lemma {:induction false} LocalItem(s: string, t: string, i: nat, sep: nat)
    requires i <= |s| && ParseValue(s, i).Some? && SkipWs(s, ParseValue(s, i).value.1) == sep < |s|
    requires Agree(s, t, sep + 1)
    ensures i <= |t| && ParseValue(t, i) == ParseValue(s, i) && SkipWs(t, ParseValue(s, i).value.1) == sep
    decreases |s| - i, 1
  {
    hide SkipWs, ParseValue;
    var ve := ParseValue(s, i).value.1;
    AgreeLess(s, t, sep, sep + 1);
    AgreeLess(s, t, ve, sep + 1);
    ScalarIsDelimited(s, i);
    LocalWs(s, t, ve, sep);
    LocalValue(s, t, i);
  }

  lemma {:induction false} LocalItems(s: string, t: string, i: nat)
    requires i <= |s| && ParseItems(s, i).Some? && Agree(s, t, ParseItems(s, i).value.1)
    ensures i <= |t| && ParseItems(t, i) == ParseItems(s, i)
    decreases |s| - i, 3
  {
    hide SkipWs, ParseValue, Agree;
    var j := ParseItems(s, i).value.1;
    var sep := SkipWs(s, ParseValue(s, i).value.1);
    AgreeLess(s, t, sep + 1, j);
    AgreeLess(s, t, sep, sep + 1);
    LocalItem(s, t, i, sep);
    if s[sep] == ',' {
      var next := SkipWs(s, sep + 1);
      AgreeLess(s, t, next, j);
      LocalWs(s, t, sep + 1, next);
      LocalItems(s, t, next);
    }
  }
}
