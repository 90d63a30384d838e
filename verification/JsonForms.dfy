/**
 The forms of numbers, literals and strings (RFC 8259, sections 2, 3, 6 and 7), written down as
 what they are made of, and that the reader of `Json` accepts exactly these.
 */
module JsonForms {
  import opened Options
  import opened Json

  // ---------- Numbers (section 6) ----------

  predicate Digits(d: string) {
    d != "" && forall k :: 0 <= k < |d| ==> '0' <= d[k] <= '9'
  }

  predicate Whole(w: string) {
    w == "0" || (Digits(w) && w[0] != '0')
  }

  predicate Fraction(f: string) {
    f == "" || (f[0] == '.' && Digits(f[1..]))
  }

  predicate Exponent(e: string) {
    e == "" || ((e[0] == 'e' || e[0] == 'E') && (Digits(e[1..]) || (|e| > 1 && e[1] in "+-" && Digits(e[2..]))))
  }

  /** A sign, an integer without a leading zero, a fraction and an exponent. */
  predicate NumberOf(t: string, sign: string, whole: string, fraction: string, exponent: string) {
    && (sign == "" || sign == "-") && Whole(whole) && Fraction(fraction) && Exponent(exponent)
    && t == sign + whole + fraction + exponent
  }

  ghost predicate Number(t: string) {
    exists sign, whole, fraction, exponent :: NumberOf(t, sign, whole, fraction, exponent)
  }

  lemma {:induction false} DigitsRunTo(t: string, i: nat, j: nat)
    requires i <= j <= |t| && (forall k :: i <= k < j ==> '0' <= t[k] <= '9')
    requires j < |t| ==> !('0' <= t[j] <= '9')
    ensures DigitsEnd(t, i) == j
    decreases j - i
  {
    if i == j {
    } else {
      DigitsRunTo(t, i + 1, j);
    }
  }

  lemma DigitsSlice(t: string, i: nat)
    requires i <= |t|
    ensures i < DigitsEnd(t, i) ==> Digits(t[i..DigitsEnd(t, i)])
  {
  }

  /** Where the parts of a number end, as the reader finds them. */
  lemma PartsAreForms(t: string)
    requires IsNumber(t)
    ensures Number(t)
  {
    var sign := if t[0] == '-' then 1 else 0;
    var whole := IntEnd(t, sign);
    var fraction := FractionEnd(t, whole);
    assert ExponentEnd(t, fraction) == |t| && sign < whole;
    hide IsNumber, IntEnd, FractionEnd, ExponentEnd, Whole, Fraction, Exponent;
    WholeSlice(t, sign);
    FractionSlice(t, whole);
    ExponentSlice(t, fraction);
    JoinFour(t, sign, whole, fraction);
    PartsMake(t, t[..sign], t[sign..whole], t[whole..fraction], t[fraction..|t|]);
  }

  lemma PartsMake(t: string, sign: string, whole: string, fraction: string, exponent: string)
    requires |sign| <= 1 && (sign != "" ==> sign[0] == '-') && Whole(whole) && Fraction(fraction) && Exponent(exponent)
    requires t == sign + whole + fraction + exponent
    ensures Number(t)
  {
    hide Whole, Fraction, Exponent;
    assert sign == "" || sign == "-";
    assert NumberOf(t, sign, whole, fraction, exponent);
  }

  lemma JoinFour(t: string, a: nat, b: nat, c: nat)
    requires a <= b <= c <= |t|
    ensures t == t[..a] + t[a..b] + t[b..c] + t[c..|t|]
  {
  }

  lemma WholeSlice(t: string, i: nat)
    requires i <= |t| && i < IntEnd(t, i)
    ensures Whole(t[i..IntEnd(t, i)])
  {
    DigitsSlice(t, i);
    if t[i] == '0' {
      assert t[i..i + 1] == "0";
    }
  }

  lemma FractionSlice(t: string, i: nat)
    requires i <= |t|
    ensures Fraction(t[i..FractionEnd(t, i)])
  {
    if FractionEnd(t, i) > i {
      DigitsSlice(t, i + 1);
      assert t[i..FractionEnd(t, i)][1..] == t[i + 1..FractionEnd(t, i)];
    }
  }

  lemma ExponentSlice(t: string, i: nat)
    requires i <= |t|
    ensures Exponent(t[i..ExponentEnd(t, i)])
  {
    var j := ExponentEnd(t, i);
    if j > i {
      var e := t[i..j];
      DigitsSlice(t, i + 1);
      if i + 1 < |t| && (t[i + 1] == '+' || t[i + 1] == '-') {
        DigitsSlice(t, i + 2);
        assert e[2..] == t[i + 2..j];
      } else {
        assert e[1..] == t[i + 1..j];
      }
    }
  }

  /** The reader stops where each part ends. */
  lemma FormsAreParts(t: string, sign: string, whole: string, fraction: string, exponent: string)
    requires NumberOf(t, sign, whole, fraction, exponent)
    ensures IsNumber(t)
  {
    hide IsNumber, Whole, Fraction, Exponent;
    var a, b, c := |sign|, |sign| + |whole|, |sign| + |whole| + |fraction|;
    SlicesOfFour(t, sign, whole, fraction, exponent);
    AfterWhole(whole, fraction, exponent);
    WholeEnds(t, a, b);
    FractionEnds(t, b, c);
    ExponentEnds(t, c);
    NumberFromEnds(t, a, b, c);
  }

  lemma SlicesOfFour(t: string, w: string, x: string, y: string, z: string)
    requires t == w + x + y + z
    ensures var a, b, c := |w|, |w| + |x|, |w| + |x| + |y|;
      && a <= b <= c <= |t| && t[..a] == w && t[a..b] == x && t[b..c] == y && t[c..] == z
      && (a > 0 ==> t[0] == w[0]) && (x != "" ==> t[a] == x[0])
      && (y != "" ==> t[b] == y[0]) && (z != "" ==> t[c] == z[0])
      && (y == "" ==> b == c) && (z == "" ==> c == |t|)
  {
  }

  /** No part of a number starts with a digit but the integer, which does. */
  lemma AfterWhole(whole: string, fraction: string, exponent: string)
    requires Whole(whole) && Fraction(fraction) && Exponent(exponent)
    ensures whole != "" && '0' <= whole[0] <= '9'
    ensures fraction != "" ==> fraction[0] == '.'
    ensures exponent != "" ==> exponent[0] == 'e' || exponent[0] == 'E'
  {
  }

  lemma NumberFromEnds(t: string, a: nat, b: nat, c: nat)
    requires a <= 1 && a < b <= c <= |t| && (t[0] == '-' <==> a == 1)
    requires IntEnd(t, a) == b && FractionEnd(t, b) == c && ExponentEnd(t, c) == |t|
    ensures IsNumber(t)
  {
    hide IntEnd, FractionEnd, ExponentEnd;
  }

  lemma WholeEnds(t: string, a: nat, b: nat)
    requires a < b <= |t| && Whole(t[a..b]) && (b < |t| ==> !('0' <= t[b] <= '9'))
    ensures IntEnd(t, a) == b
  {
    if t[a] != '0' {
      assert forall k :: a <= k < b ==> t[k] == t[a..b][k - a];
      DigitsRunTo(t, a, b);
    } else {
      assert t[a..b][0] == '0';
    }
  }

  lemma FractionEnds(t: string, b: nat, c: nat)
    requires b <= c <= |t| && Fraction(t[b..c]) && (c < |t| ==> t[c] == 'e' || t[c] == 'E')
    ensures FractionEnd(t, b) == c
  {
    if b < c {
      var f := t[b..c];
      assert t[b] == f[0];
      assert forall k :: b + 1 <= k < c ==> t[k] == f[1..][k - b - 1];
      DigitsRunTo(t, b + 1, c);
    }
  }

  lemma ExponentEnds(t: string, c: nat)
    requires c <= |t| && Exponent(t[c..])
    ensures ExponentEnd(t, c) == |t|
  {
    if c < |t| {
      var e := t[c..];
      assert t[c] == e[0];
      if |e| > 1 && e[1] in "+-" && Digits(e[2..]) {
        assert t[c + 1] == e[1];
        assert forall k :: c + 2 <= k < |t| ==> t[k] == e[2..][k - c - 2];
        DigitsRunTo(t, c + 2, |t|);
      } else {
        assert forall k :: c + 1 <= k < |t| ==> t[k] == e[1..][k - c - 1];
        assert t[c + 1] == e[1..][0];
        DigitsRunTo(t, c + 1, |t|);
      }
    }
  }

  /** The reader's numbers are the numbers of section 6. */
  lemma NumberVerdict(t: string)
    ensures IsNumber(t) <==> Number(t)
  {
    hide IsNumber;
    if IsNumber(t) {
      PartsAreForms(t);
    }
    if Number(t) {
      var sign, whole, fraction, exponent :| NumberOf(t, sign, whole, fraction, exponent);
      FormsAreParts(t, sign, whole, fraction, exponent);
    }
  }

  /** A literal name of section 3, one of the three Python adds, or a number. */
  ghost predicate ScalarForm(t: string) {
    || t == "true" || t == "false" || t == "null"
    || t == "NaN" || t == "Infinity" || t == "-Infinity"
    || Number(t)
  }

  lemma ScalarVerdict(t: string)
    ensures IsScalarText(t) <==> ScalarForm(t)
  {
    hide IsNumber, Number;
    NumberVerdict(t);
  }

  // ---------- Strings (section 7) ----------

  /** A character as it is, a two-character escape, or a code unit in four hexadecimal digits. */
  datatype Unit = Plain(c: char) | Simple(c: char) | Hex(digits: string)

  const LOWER_HEX := "0123456789abcdef"
  const UPPER_HEX := "0123456789ABCDEF"

  predicate IsUnit(u: Unit) {
    match u
    case Plain(c) => c as int >= 0x20 && c != '"' && c != '\\'
    case Simple(c) => c in "\"\\/bfnrt"
    case Hex(d) => |d| == 4 && forall k :: 0 <= k < 4 ==> d[k] in LOWER_HEX || d[k] in UPPER_HEX
  }

  function Spelling(u: Unit): (s: string)
    ensures s != ""
  {
    match u
    case Plain(c) => [c]
    case Simple(c) => ['\\', c]
    case Hex(d) => ['\\', 'u'] + d
  }

  function Spell(units: seq<Unit>): string {
    if units == [] then "" else Spelling(units[0]) + Spell(units[1..])
  }

  /** The place of a character in a text. */
  function PlaceIn(text: string, c: char): (n: nat)
    ensures n <= |text| && (n < |text| ==> text[n] == c) && forall k :: 0 <= k < n ==> text[k] != c
  {
    if text == "" || text[0] == c then 0 else 1 + PlaceIn(text[1..], c)
  }

  function Nibble(c: char): nat {
    if c in LOWER_HEX then PlaceIn(LOWER_HEX, c) else PlaceIn(UPPER_HEX, c)
  }

  function Base16(d: string): nat {
    if d == "" then 0 else 16 * Base16(d[..|d| - 1]) + Nibble(d[|d| - 1])
  }

  /** Quotation mark, reverse solidus, solidus, backspace, form feed, line feed, carriage return, tab. */
  const ESCAPED: map<char, nat> := map[
    '"' := 0x22, '\\' := 0x5C, '/' := 0x2F, 'b' := 0x08, 'f' := 0x0C, 'n' := 0x0A, 'r' := 0x0D, 't' := 0x09]

  function CodeUnit(u: Unit): nat {
    match u
    case Plain(c) => c as nat
    case Simple(c) => if c in ESCAPED then ESCAPED[c] else 0
    case Hex(d) => Base16(d)
  }

  /** Two escapes that make one character outside the basic plane. */
  predicate IsPair(units: seq<Unit>) {
    && |units| >= 2 && units[0].Hex? && units[1].Hex?
    && 0xD800 <= CodeUnit(units[0]) < 0xDC00 && 0xDC00 <= CodeUnit(units[1]) < 0xE000
  }

  function PairPoint(high: nat, low: nat): nat
    requires 0xD800 <= high < 0xDC00 && 0xDC00 <= low < 0xE000
  {
    0x10000 + 0x400 * (high - 0xD800) + (low - 0xDC00)
  }

  function CodePoints(units: seq<Unit>): seq<nat>
    decreases |units|
  {
    if units == [] then []
    else if IsPair(units) then
      [PairPoint(CodeUnit(units[0]), CodeUnit(units[1]))] + CodePoints(units[2..])
    else [CodeUnit(units[0])] + CodePoints(units[1..])
  }

  predicate AreUnits(units: seq<Unit>) {
    forall k :: 0 <= k < |units| ==> IsUnit(units[k])
  }

  /** The body of a string literal that stands for these code points. */
  ghost predicate Means(t: string, codes: seq<nat>) {
    exists units :: AreUnits(units) && Spell(units) == t && CodePoints(units) == codes
  }

  ghost predicate StringForm(t: string) {
    exists units :: AreUnits(units) && Spell(units) == t
  }

  // The reader's characters and escapes

  lemma HexIsNibble(c: char)
    ensures IsHex(c) <==> c in LOWER_HEX || c in UPPER_HEX
    ensures IsHex(c) ==> HexDigit(c) == Nibble(c)
  {
    if IsHex(c) {
      var n := HexDigit(c);
      assert LOWER_HEX[n] == c || UPPER_HEX[n] == c;
      assert c in LOWER_HEX || c in UPPER_HEX;
      PlaceIsUnique(if c in LOWER_HEX then LOWER_HEX else UPPER_HEX, c, n);
    } else {
      assert forall k :: 0 <= k < 16 ==> IsHex(LOWER_HEX[k]) && IsHex(UPPER_HEX[k]);
    }
  }

  lemma PlaceIsUnique(text: string, c: char, n: nat)
    requires text == LOWER_HEX || text == UPPER_HEX
    requires n < 16 && text[n] == c
    ensures PlaceIn(text, c) == n
  {
    assert |text| == 16;
    assert forall i, j :: 0 <= i < j < 16 ==> text[i] != text[j];
  }

  lemma SimpleIsEscaped(c: char)
    ensures SimpleEscape(c).Some? <==> c in "\"\\/bfnrt"
    ensures SimpleEscape(c).Some? ==> c in ESCAPED && SimpleEscape(c).value == ESCAPED[c]
  {
  }

  lemma HexUnitIsBase16(t: string, i: nat)
    requires i + 4 <= |t|
    ensures HexUnit(t, i).Some? <==> IsUnit(Hex(t[i..i + 4]))
    ensures HexUnit(t, i).Some? ==> HexUnit(t, i).value == Base16(t[i..i + 4])
  {
    hide Nibble, HexDigit, Base16, IsHex;
    var d := t[i..i + 4];
    HexIsNibble(d[0]);
    HexIsNibble(d[1]);
    HexIsNibble(d[2]);
    HexIsNibble(d[3]);
    Base16OfFour(d);
  }

  lemma Base16OfFour(d: string)
    requires |d| == 4
    ensures Base16(d) == 4096 * Nibble(d[0]) + 256 * Nibble(d[1]) + 16 * Nibble(d[2]) + Nibble(d[3])
  {
    hide Nibble;
    assert d[..3][..2] == d[..2] && d[..2][..1] == d[..1] && d[..1][..0] == "";
    assert d[..3][2] == d[2] && d[..2][1] == d[1] && d[..1][0] == d[0];
    assert Base16(d[..1]) == Nibble(d[0]);
    assert Base16(d[..2]) == 16 * Base16(d[..1]) + Nibble(d[1]);
    assert Base16(d[..3]) == 16 * Base16(d[..2]) + Nibble(d[2]);
  }

  // A whole lexeme

  /** The unit a valid lexeme has at `i`. */
  function UnitAt(t: string, i: nat): Unit
    requires i < |t| && UnescapeFrom(t, i).Some?
  {
    if t[i] != '\\' then Plain(t[i])
    else if t[i + 1] != 'u' then Simple(t[i + 1])
    else Hex(t[i + 2..i + 6])
  }

  /** What the reader does at a `\u` escape. */
  lemma ReadsHex(t: string, i: nat)
    requires i + 1 < |t| && UnescapeFrom(t, i).Some? && t[i] == '\\' && t[i + 1] == 'u'
    ensures i + 6 <= |t| && HexUnit(t, i + 2).Some? && UnescapeFrom(t, i + 6).Some?
    ensures var pair := 0xD800 <= HexUnit(t, i + 2).value < 0xDC00 && LowFollows(t, i + 6);
      if pair then
        i + 12 <= |t| && UnescapeFrom(t, i + 12).Some? &&
        UnescapeFrom(t, i).value ==
          [PairPoint(HexUnit(t, i + 2).value, HexUnit(t, i + 8).value)] + UnescapeFrom(t, i + 12).value
      else UnescapeFrom(t, i).value == [HexUnit(t, i + 2).value] + UnescapeFrom(t, i + 6).value
  {
  }

  /** An escape of a low surrogate stands at `i`. */
  predicate LowFollows(t: string, i: nat) {
    && i + 1 < |t| && t[i] == '\\' && t[i + 1] == 'u'
    && HexUnit(t, i + 2).Some? && 0xDC00 <= HexUnit(t, i + 2).value < 0xE000
  }

  /** And elsewhere. */
  lemma ReadsOther(t: string, i: nat)
    requires i < |t| && UnescapeFrom(t, i).Some?
    ensures t[i] != '\\' ==> t[i] as int >= 0x20 && t[i] != '"' && UnescapeFrom(t, i + 1).Some?
    ensures t[i] != '\\' ==> UnescapeFrom(t, i).value == [t[i] as nat] + UnescapeFrom(t, i + 1).value
    ensures t[i] == '\\' ==> i + 1 < |t|
    ensures t[i] == '\\' && t[i + 1] != 'u' ==> SimpleEscape(t[i + 1]).Some? && UnescapeFrom(t, i + 2).Some?
    ensures t[i] == '\\' && t[i + 1] != 'u' ==>
      UnescapeFrom(t, i).value == [SimpleEscape(t[i + 1]).value] + UnescapeFrom(t, i + 2).value
  {
  }

  lemma UnitStands(t: string, i: nat)
    requires i < |t| && UnescapeFrom(t, i).Some?
    ensures var u, n := UnitAt(t, i), i + |Spelling(UnitAt(t, i))|;
      IsUnit(u) && n <= |t| && t[i..n] == Spelling(u) && UnescapeFrom(t, n).Some?
  {
    hide UnescapeFrom, HexUnit, Base16, SimpleEscape;
    ReadsOther(t, i);
    if t[i] == '\\' && t[i + 1] == 'u' {
      HexStands(t, i);
    } else if t[i] == '\\' {
      SimpleIsEscaped(t[i + 1]);
      assert t[i..i + 2] == ['\\', t[i + 1]];
    }
  }

  lemma HexStands(t: string, i: nat)
    requires i + 1 < |t| && UnescapeFrom(t, i).Some? && t[i] == '\\' && t[i + 1] == 'u'
    ensures i + 6 <= |t| && UnescapeFrom(t, i + 6).Some?
    ensures IsUnit(Hex(t[i + 2..i + 6])) && t[i..i + 6] == Spelling(Hex(t[i + 2..i + 6]))
    ensures |Spelling(Hex(t[i + 2..i + 6]))| == 6
  {
    hide UnescapeFrom, HexUnit, Base16, IsUnit;
    ReadsHex(t, i);
    HexUnitIsBase16(t, i + 2);
    assert t[i..i + 6] == ['\\', 'u'] + t[i + 2..i + 6];
  }

  function UnitsFrom(t: string, i: nat): seq<Unit>
    requires i <= |t| && UnescapeFrom(t, i).Some?
    decreases |t| - i
  {
    if i == |t| then []
    else
      UnitStands(t, i);
      [UnitAt(t, i)] + UnitsFrom(t, i + |Spelling(UnitAt(t, i))|)
  }

  lemma {:induction false} UnitsSpell(t: string, i: nat)
    requires i <= |t| && UnescapeFrom(t, i).Some?
    ensures AreUnits(UnitsFrom(t, i)) && Spell(UnitsFrom(t, i)) == t[i..]
    decreases |t| - i
  {
    hide UnescapeFrom, UnitAt, IsUnit, Spelling;
    if i == |t| {
    } else {
      UnitStands(t, i);
      var n := i + |Spelling(UnitAt(t, i))|;
      assert n > i;
      UnitsSpell(t, n);
      assert t[i..] == t[i..n] + t[n..];
      assert UnitsFrom(t, i)[1..] == UnitsFrom(t, n);
    }
  }

  /** The lexeme has an escape of a high and one of a low surrogate at `i`. */
  predicate PairAt(t: string, i: nat)
    requires i < |t| && UnescapeFrom(t, i).Some?
  {
    && UnitAt(t, i).Hex? && i + 6 < |t| && UnescapeFrom(t, i + 6).Some? && UnitAt(t, i + 6).Hex?
    && 0xD800 <= CodeUnit(UnitAt(t, i)) < 0xDC00 && 0xDC00 <= CodeUnit(UnitAt(t, i + 6)) < 0xE000
  }

  /** What the reader makes of the unit or pair at `i`. */
  lemma ReadsUnit(t: string, i: nat)
    requires i < |t| && UnescapeFrom(t, i).Some?
    ensures var n := i + |Spelling(UnitAt(t, i))|;
      if PairAt(t, i) then
        i + 12 <= |t| && UnescapeFrom(t, i + 12).Some? &&
        UnescapeFrom(t, i).value ==
          [PairPoint(CodeUnit(UnitAt(t, i)), CodeUnit(UnitAt(t, i + 6)))] + UnescapeFrom(t, i + 12).value
      else
        n <= |t| && UnescapeFrom(t, n).Some? &&
        UnescapeFrom(t, i).value == [CodeUnit(UnitAt(t, i))] + UnescapeFrom(t, n).value
  {
    hide UnescapeFrom, Base16, HexUnit, SimpleEscape;
    ReadsOther(t, i);
    if t[i] == '\\' && t[i + 1] != 'u' {
      SimpleIsEscaped(t[i + 1]);
    } else if t[i] == '\\' {
      ReadsHex(t, i);
      HexUnitIsBase16(t, i + 2);
      LowIsUnit(t, i + 6);
    }
  }

  lemma LowIsUnit(t: string, i: nat)
    requires i <= |t| && UnescapeFrom(t, i).Some?
    ensures LowFollows(t, i) <==>
      i < |t| && UnitAt(t, i).Hex? && 0xDC00 <= CodeUnit(UnitAt(t, i)) < 0xE000
    ensures LowFollows(t, i) ==> CodeUnit(UnitAt(t, i)) == HexUnit(t, i + 2).value
  {
    hide UnescapeFrom, Base16, HexUnit;
    if i < |t| {
      ReadsOther(t, i);
      if t[i] == '\\' && t[i + 1] == 'u' {
        ReadsHex(t, i);
        HexUnitIsBase16(t, i + 2);
      }
    }
  }

  /** The units from `i` on are the one at `i` and those behind it. */
  lemma UnitsStep(t: string, i: nat)
    requires i < |t| && UnescapeFrom(t, i).Some?
    ensures var n := i + |Spelling(UnitAt(t, i))|;
      n <= |t| && UnescapeFrom(t, n).Some? && UnitsFrom(t, i) == [UnitAt(t, i)] + UnitsFrom(t, n)
  {
    hide UnescapeFrom, UnitAt;
    UnitStands(t, i);
  }

  lemma {:induction false} UnitsMean(t: string, i: nat)
    requires i <= |t| && UnescapeFrom(t, i).Some?
    ensures CodePoints(UnitsFrom(t, i)) == UnescapeFrom(t, i).value
    decreases |t| - i
  {
    if i == |t| {
    } else {
      hide UnescapeFrom, UnitsFrom, UnitAt, CodeUnit, PairAt;
      var units, n := UnitsFrom(t, i), i + |Spelling(UnitAt(t, i))|;
      UnitsStep(t, i);
      ReadsUnit(t, i);
      if PairAt(t, i) {
        PairIsRead(t, i);
        UnitsMean(t, i + 12);
      } else {
        NoPairIsRead(t, i);
        UnitsMean(t, n);
        assert units[1..] == UnitsFrom(t, n);
      }
    }
  }

  lemma PairIsRead(t: string, i: nat)
    requires i < |t| && UnescapeFrom(t, i).Some? && PairAt(t, i)
    ensures i + 12 <= |t| && UnescapeFrom(t, i + 12).Some?
    ensures IsPair(UnitsFrom(t, i)) && UnitsFrom(t, i)[2..] == UnitsFrom(t, i + 12)
    ensures UnitsFrom(t, i)[0] == UnitAt(t, i) && UnitsFrom(t, i)[1] == UnitAt(t, i + 6)
  {
    hide UnescapeFrom, UnitsFrom, CodeUnit, UnitAt;
    SixLong(t, i);
    UnitsStep(t, i);
    SixLong(t, i + 6);
    UnitsStep(t, i + 6);
    assert UnitsFrom(t, i) == [UnitAt(t, i)] + ([UnitAt(t, i + 6)] + UnitsFrom(t, i + 12));
  }

  lemma SixLong(t: string, i: nat)
    requires i < |t| && UnescapeFrom(t, i).Some? && UnitAt(t, i).Hex?
    ensures |Spelling(UnitAt(t, i))| == 6
  {
    hide UnescapeFrom, UnitAt;
    UnitStands(t, i);
  }

  lemma NoPairIsRead(t: string, i: nat)
    requires i < |t| && UnescapeFrom(t, i).Some? && !PairAt(t, i)
    ensures !IsPair(UnitsFrom(t, i))
  {
    hide UnescapeFrom, UnitsFrom, CodeUnit, UnitAt;
    UnitsStep(t, i);
    var n := i + |Spelling(UnitAt(t, i))|;
    if UnitAt(t, i).Hex? {
      SixLong(t, i);
    }
    if n < |t| {
      UnitsStep(t, n);
    } else {
      assert UnitsFrom(t, n) == [] by {
        NothingLeft(t, n);
      }
    }
  }

  lemma NothingLeft(t: string, i: nat)
    requires i == |t|
    ensures UnescapeFrom(t, i).Some? && UnitsFrom(t, i) == []
  {
  }

  // The other way round

  lemma SpellsFirst(t: string, i: nat, units: seq<Unit>)
    requires i <= |t| && AreUnits(units) && units != [] && t[i..] == Spell(units)
    ensures var n := i + |Spelling(units[0])|;
      n <= |t| && t[i..n] == Spelling(units[0]) && t[n..] == Spell(units[1..]) && AreUnits(units[1..])
  {
    var n := i + |Spelling(units[0])|;
    assert t[i..n] == t[i..][..n - i] == Spelling(units[0]);
    assert t[n..] == t[i..][n - i..] == Spell(units[1..]);
  }

  /** A lexeme spelled from units is read as these units. */
  lemma {:induction false} SpelledIsValid(t: string, i: nat, units: seq<Unit>)
    requires i <= |t| && AreUnits(units) && t[i..] == Spell(units)
    ensures UnescapeFrom(t, i).Some?
    decreases |units|
  {
    if units == [] {
      assert i == |t|;
    } else {
      hide UnescapeFrom, HexUnit, SimpleEscape, Spell, IsUnit;
      SpellsFirst(t, i, units);
      SpelledIsValid(t, i + |Spelling(units[0])|, units[1..]);
      assert IsUnit(units[0]);
      UnitIsValid(t, i, units[0]);
    }
  }

  lemma UnitIsValid(t: string, i: nat, u: Unit)
    requires i < |t| && IsUnit(u) && i + |Spelling(u)| <= |t| && t[i..i + |Spelling(u)|] == Spelling(u)
    requires UnescapeFrom(t, i + |Spelling(u)|).Some?
    ensures UnescapeFrom(t, i).Some? && UnitAt(t, i) == u
  {
    var n := i + |Spelling(u)|;
    assert t[i] == t[i..n][0];
    if !u.Plain? {
      assert t[i + 1] == t[i..n][1];
    }
    if u.Hex? {
      assert t[i + 2..i + 6] == t[i..n][2..];
      HexIsValid(t, i);
    } else if u.Simple? {
      SimpleIsEscaped(u.c);
    }
  }

  lemma HexIsValid(t: string, i: nat)
    requires i + 6 <= |t| && t[i] == '\\' && t[i + 1] == 'u' && IsUnit(Hex(t[i + 2..i + 6]))
    requires UnescapeFrom(t, i + 6).Some?
    ensures UnescapeFrom(t, i).Some?
  {
    hide HexUnit, Base16, IsUnit, UnescapeFrom;
    HexUnitIsBase16(t, i + 2);
    if i + 7 < |t| && t[i + 6] == '\\' && t[i + 7] == 'u' {
      ReadsHex(t, i + 6);
    }
    HexReads(t, i);
  }

  lemma HexReads(t: string, i: nat)
    requires i + 6 <= |t| && t[i] == '\\' && t[i + 1] == 'u' && HexUnit(t, i + 2).Some?
    requires UnescapeFrom(t, i + 6).Some?
    requires i + 7 < |t| && t[i + 6] == '\\' && t[i + 7] == 'u' ==>
      HexUnit(t, i + 8).Some? && i + 12 <= |t| && UnescapeFrom(t, i + 12).Some?
    ensures UnescapeFrom(t, i).Some?
  {
    hide HexUnit;
  }

  lemma {:induction false} UnitsAreRead(t: string, i: nat, units: seq<Unit>)
    requires i <= |t| && AreUnits(units) && t[i..] == Spell(units) && UnescapeFrom(t, i).Some?
    ensures UnitsFrom(t, i) == units
    decreases |units|
  {
    hide UnescapeFrom, IsUnit, UnitAt;
    if units == [] {
      assert i == |t|;
    } else {
      SpellsFirst(t, i, units);
      assert IsUnit(units[0]);
      var n := i + |Spelling(units[0])|;
      SpelledIsValid(t, n, units[1..]);
      UnitIsValid(t, i, units[0]);
      UnitsAreRead(t, n, units[1..]);
    }
  }

  /** The reader takes a lexeme for these code points exactly if it is made of units that stand for them. */
  lemma UnescapeVerdict(t: string, codes: seq<nat>)
    ensures Unescape(t) == Some(codes) <==> Means(t, codes)
  {
    hide UnescapeFrom, UnitsFrom, Spell, CodePoints, AreUnits;
    assert t[0..] == t;
    if Unescape(t).Some? {
      UnitsSpell(t, 0);
      UnitsMean(t, 0);
      assert Means(t, Unescape(t).value);
    }
    if Means(t, codes) {
      var units :| AreUnits(units) && Spell(units) == t && CodePoints(units) == codes;
      SpelledIsValid(t, 0, units);
      UnitsAreRead(t, 0, units);
      UnitsMean(t, 0);
    }
  }

  lemma StringVerdict(t: string)
    ensures Unescape(t).Some? <==> StringForm(t)
  {
    hide Unescape, Spell, CodePoints, AreUnits;
    if Unescape(t).Some? {
      UnescapeVerdict(t, Unescape(t).value);
    }
    if StringForm(t) {
      var units :| AreUnits(units) && Spell(units) == t;
      assert Means(t, CodePoints(units));
      UnescapeVerdict(t, CodePoints(units));
    }
  }

  // Characters that stand for themselves

  predicate IsPlain(t: string) {
    forall k :: 0 <= k < |t| ==> IsUnit(Plain(t[k]))
  }

  function Codes(t: string): (codes: seq<nat>)
    ensures |codes| == |t|
  {
    seq(|t|, k requires 0 <= k < |t| => t[k] as nat)
  }

  lemma {:induction false} PlainUnescapes(t: string, i: nat)
    requires i <= |t| && IsPlain(t)
    ensures UnescapeFrom(t, i) == Some(Codes(t)[i..])
    decreases |t| - i
  {
    if i == |t| {
    } else {
      PlainUnescapes(t, i + 1);
      assert IsUnit(Plain(t[i]));
      assert Codes(t)[i..] == [t[i] as nat] + Codes(t)[i + 1..];
    }
  }

  /** Without quotes, reverse solidi and control characters, a lexeme stands for its own characters. */
  lemma PlainMeansItself(t: string)
    requires IsPlain(t)
    ensures Means(t, Codes(t)) && StringForm(t)
  {
    hide UnescapeFrom, IsPlain, AreUnits, Spell, CodePoints;
    PlainUnescapes(t, 0);
    UnescapeVerdict(t, Codes(t));
  }

  // ---------- Values ----------

  /** Every scalar and every string of the value has its form. */
  ghost predicate WellFormed(v: Json)
    decreases v, 0
  {
    match v
    case Obj(ms) => forall i :: 0 <= i < |ms| ==> WellFormedMember(ms[i])
    case Arr(items) => forall i :: 0 <= i < |items| ==> WellFormed(items[i])
    case Str(t) => StringForm(t)
    case Scalar(t) => ScalarForm(t)
  }

  ghost predicate WellFormedMember(m: Member)
    decreases m, 1
  {
    StringForm(m.key) && WellFormed(m.value)
  }
}
