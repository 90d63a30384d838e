/**
 JSON texts as Python's `json.loads` reads them (RFC 8259, sections 2 to 7, plus the
 `NaN`/`Infinity` literals Python accepts).

 Strings keep their lexeme and scalars keep their token, so two equal values were
 written with the very same characters; `Unescape` gives a lexeme's code points.
 Members are a sequence, so duplicate keys need no special treatment.
 */
module Json {
  import opened Options

  datatype Json =
    | Obj(members: seq<Member>)
    | Arr(items: seq<Json>)
    | Str(lexeme: string)
    | Scalar(text: string)

  datatype Member = Member(key: string, value: Json)

  /** A member together with where its value starts and ends and where the `,` or `}` after it stands. */
  datatype Span = Span(member: Member, valueAt: nat, valueEnd: nat, sep: nat)

  // ---------- Characters ----------

  predicate IsWs(c: char) {
    c == ' ' || c == '\t' || c == '\n' || c == '\r'
  }

  predicate IsDigit(c: char) {
    '0' <= c <= '9'
  }

  predicate IsHex(c: char) {
    IsDigit(c) || 'a' <= c <= 'f' || 'A' <= c <= 'F'
  }

  /** The characters a number or a bare literal can be made of. */
  predicate IsTokenChar(c: char) {
    IsDigit(c) || 'a' <= c <= 'z' || 'A' <= c <= 'Z' || c == '+' || c == '-' || c == '.'
  }

  function SkipWs(s: string, i: nat): (j: nat)
    requires i <= |s|
    ensures i <= j <= |s|
    ensures forall k :: i <= k < j ==> IsWs(s[k])
    ensures j < |s| ==> !IsWs(s[j])
    decreases |s| - i
  {
    if i < |s| && IsWs(s[i]) then SkipWs(s, i + 1) else i
  }

  function TokenEnd(s: string, i: nat): (j: nat)
    requires i <= |s|
    ensures i <= j <= |s|
    ensures forall k :: i <= k < j ==> IsTokenChar(s[k])
    ensures j < |s| ==> !IsTokenChar(s[j])
    decreases |s| - i
  {
    if i < |s| && IsTokenChar(s[i]) then TokenEnd(s, i + 1) else i
  }

  // ---------- Scalars (RFC 8259, section 6) ----------

  function DigitsEnd(t: string, i: nat): (j: nat)
    requires i <= |t|
    ensures i <= j <= |t|
    ensures forall k :: i <= k < j ==> IsDigit(t[k])
    decreases |t| - i
  {
    if i < |t| && IsDigit(t[i]) then DigitsEnd(t, i + 1) else i
  }

  /** Where the integer part starting at `i` ends; `i` itself when there is none. */
  function IntEnd(t: string, i: nat): (j: nat)
    requires i <= |t|
    ensures i <= j <= |t|
  {
    if i < |t| && t[i] == '0' then i + 1 else DigitsEnd(t, i)
  }

  /** Where an optional fraction or exponent introduced at `i` ends; `i` itself when it has no digit. */
  function TailEnd(t: string, i: nat, digits: nat): (j: nat)
    requires i <= digits <= |t|
    ensures i <= j <= |t|
  {
    if DigitsEnd(t, digits) == digits then i else DigitsEnd(t, digits)
  }

  function FractionEnd(t: string, i: nat): (j: nat)
    requires i <= |t|
    ensures i <= j <= |t|
  {
    if i < |t| && t[i] == '.' then TailEnd(t, i, i + 1) else i
  }

  function ExponentEnd(t: string, i: nat): (j: nat)
    requires i <= |t|
    ensures i <= j <= |t|
  {
    if i < |t| && (t[i] == 'e' || t[i] == 'E')
    then TailEnd(t, i, if i + 1 < |t| && (t[i + 1] == '+' || t[i + 1] == '-') then i + 2 else i + 1)
    else i
  }

  predicate IsNumber(t: string) {
    var sign := if |t| > 0 && t[0] == '-' then 1 else 0;
    var whole := IntEnd(t, sign);
    sign < whole && ExponentEnd(t, FractionEnd(t, whole)) == |t|
  }

  predicate IsScalarText(t: string) {
    t in {"true", "false", "null", "NaN", "Infinity", "-Infinity"} || IsNumber(t)
  }

  // ---------- Strings (RFC 8259, section 7) ----------

  /** The index just after the closing quote of the literal whose body starts at `i`. */
  function StringEnd(s: string, i: nat): (r: Option<nat>)
    requires i <= |s|
    ensures r.Some? ==> i < r.value <= |s| && s[r.value - 1] == '"'
    decreases |s| - i
  {
    if i == |s| then None
    else if s[i] == '"' then Some(i + 1)
    else if s[i] == '\\' then if i + 1 < |s| then StringEnd(s, i + 2) else None
    else StringEnd(s, i + 1)
  }

  function HexDigit(c: char): nat
    requires IsHex(c)
  {
    if IsDigit(c) then c as int - '0' as int
    else if 'a' <= c <= 'f' then c as int - 'a' as int + 10
    else c as int - 'A' as int + 10
  }

  /** The code unit of a four-digit `\u` escape whose digits start at `i`. */
  function HexUnit(t: string, i: nat): (r: Option<nat>)
    ensures r.Some? ==> i + 4 <= |t|
  {
    if i + 4 <= |t| && IsHex(t[i]) && IsHex(t[i + 1]) && IsHex(t[i + 2]) && IsHex(t[i + 3])
    then Some(4096 * HexDigit(t[i]) + 256 * HexDigit(t[i + 1]) + 16 * HexDigit(t[i + 2]) + HexDigit(t[i + 3]))
    else None
  }

  function SimpleEscape(c: char): Option<nat> {
    match c
    case '"' => Some(34)
    case '\\' => Some(92)
    case '/' => Some(47)
    case 'b' => Some(8)
    case 'f' => Some(12)
    case 'n' => Some(10)
    case 'r' => Some(13)
    case 't' => Some(9)
    case _ => None
  }

  function Prepend(u: nat, rest: Option<seq<nat>>): Option<seq<nat>> {
    if rest.Some? then Some([u] + rest.value) else None
  }

  /**
   The code points a lexeme stands for, from index `i` on; `None` when it holds a control
   character or a bad escape. A high surrogate escape followed by a low one makes one code
   point; a lone surrogate is kept, as Python keeps it.
   */
  function UnescapeFrom(t: string, i: nat): (r: Option<seq<nat>>)
    requires i <= |t|
    decreases |t| - i
  {
    if i == |t| then Some([])
    else if t[i] as int < 0x20 || t[i] == '"' then None
    else if t[i] != '\\' then Prepend(t[i] as nat, UnescapeFrom(t, i + 1))
    else if i + 1 == |t| then None
    else if t[i + 1] != 'u' then
      var e := SimpleEscape(t[i + 1]);
      if e.None? then None else Prepend(e.value, UnescapeFrom(t, i + 2))
    else
      var high := HexUnit(t, i + 2);
      if high.None? then None
      else if 0xD800 <= high.value < 0xDC00 && i + 7 < |t| && t[i + 6] == '\\' && t[i + 7] == 'u' then
        var low := HexUnit(t, i + 8);
        if low.None? then None
        else if 0xDC00 <= low.value < 0xE000
        then Prepend(0x10000 + (high.value - 0xD800) * 0x400 + (low.value - 0xDC00), UnescapeFrom(t, i + 12))
        else Prepend(high.value, UnescapeFrom(t, i + 6))
      else Prepend(high.value, UnescapeFrom(t, i + 6))
  }

  function Unescape(lexeme: string): Option<seq<nat>> {
    UnescapeFrom(lexeme, 0)
  }

  /** A string literal starting with the quote at `i`: its lexeme and the index after it. */
  function ParseString(s: string, i: nat): (r: Option<(string, nat)>)
    requires i < |s|
    ensures r.Some? ==> i + 2 <= r.value.1 <= |s|
  {
    var e := StringEnd(s, i + 1);
    if e.Some? && Unescape(s[i + 1..e.value - 1]).Some? then Some((s[i + 1..e.value - 1], e.value)) else None
  }

  // ---------- Values ----------

  function ParseValue(s: string, i: nat): (r: Option<(Json, nat)>)
    requires i <= |s|
    ensures r.Some? ==> i < r.value.1 <= |s|
    decreases |s| - i, 0
  {
    if i == |s| then None
    else if s[i] == '"' then
      var p := ParseString(s, i);
      if p.Some? then Some((Str(p.value.0), p.value.1)) else None
    else if s[i] == '{' then
      var k := SkipWs(s, i + 1);
      if k < |s| && s[k] == '}' then Some((Obj([]), k + 1))
      else
        var p := ParseMembers(s, k);
        if p.Some? then Some((Obj(p.value.0), p.value.1)) else None
    else if s[i] == '[' then
      var k := SkipWs(s, i + 1);
      if k < |s| && s[k] == ']' then Some((Arr([]), k + 1))
      else
        var p := ParseItems(s, k);
        if p.Some? then Some((Arr(p.value.0), p.value.1)) else None
    else
      var j := TokenEnd(s, i);
      if i < j && IsScalarText(s[i..j]) then Some((Scalar(s[i..j]), j)) else None
  }

  /** One `"key" : value` and the separator after it, the key's quote at `i`. */
  function ParseMember(s: string, i: nat): (r: Option<Span>)
    requires i <= |s|
    ensures r.Some? ==> i < r.value.valueAt < r.value.valueEnd <= r.value.sep < |s|
    decreases |s| - i, 1
  {
    if i == |s| || s[i] != '"' then None
    else
      var key := ParseString(s, i);
      if key.None? then None
      else
        var colon := SkipWs(s, key.value.1);
        if colon == |s| || s[colon] != ':' then None
        else
          var at := SkipWs(s, colon + 1);
          var v := ParseValue(s, at);
          if v.None? then None
          else
            var sep := SkipWs(s, v.value.1);
            if sep == |s| then None else Some(Span(Member(key.value.0, v.value.0), at, v.value.1, sep))
  }

  /** The members of an object from the key at `i` on, and the index after the closing brace. */
  function ParseMembers(s: string, i: nat): (r: Option<(seq<Member>, nat)>)
    requires i <= |s|
    ensures r.Some? ==> i + 1 < r.value.1 <= |s| && r.value.0 != []
    decreases |s| - i, 2
  {
    var head := ParseMember(s, i);
    if head.None? then None
    else if s[head.value.sep] == '}' then Some(([head.value.member], head.value.sep + 1))
    else if s[head.value.sep] != ',' then None
    else
      var rest := ParseMembers(s, SkipWs(s, head.value.sep + 1));
      if rest.None? then None else Some(([head.value.member] + rest.value.0, rest.value.1))
  }

  /** The items of an array from the value at `i` on, and the index after the closing bracket. */
  function ParseItems(s: string, i: nat): (r: Option<(seq<Json>, nat)>)
    requires i <= |s|
    ensures r.Some? ==> i + 1 < r.value.1 <= |s| && r.value.0 != []
    decreases |s| - i, 2
  {
    var head := ParseValue(s, i);
    if head.None? then None
    else
      var sep := SkipWs(s, head.value.1);
      if sep == |s| then None
      else if s[sep] == ']' then Some(([head.value.0], sep + 1))
      else if s[sep] != ',' then None
      else
        var rest := ParseItems(s, SkipWs(s, sep + 1));
        if rest.None? then None else Some(([head.value.0] + rest.value.0, rest.value.1))
  }

  /** `json.loads`: one value, with nothing but whitespace around it. */
  function Loads(s: string): (r: Option<Json>) {
    var p := ParseValue(s, SkipWs(s, 0));
    if p.Some? && SkipWs(s, p.value.1) == |s| then Some(p.value.0) else None
  }

  // ---------- Printing ----------

  function Quote(lexeme: string): string {
    "\"" + lexeme + "\""
  }

  /** The compact text of a value. */
  function Print(v: Json): (t: string)
    decreases v, 0
  {
    match v
    case Obj(ms) => "{" + PrintMembers(ms) + "}"
    case Arr(items) => "[" + PrintItems(items) + "]"
    case Str(t) => Quote(t)
    case Scalar(t) => t
  }

  function PrintMember(m: Member): string
    decreases m, 1
  {
    Quote(m.key) + ":" + Print(m.value)
  }

  function PrintMembers(ms: seq<Member>): string
    decreases ms, 2
  {
    if ms == [] then ""
    else
      var head := ms[0];
      assert ms decreases to head;
      if |ms| == 1 then PrintMember(head) else PrintMember(head) + "," + PrintMembers(ms[1..])
  }

  function PrintItems(items: seq<Json>): string
    decreases items, 2
  {
    if items == [] then ""
    else if |items| == 1 then Print(items[0])
    else Print(items[0]) + "," + PrintItems(items[1..])
  }
}
