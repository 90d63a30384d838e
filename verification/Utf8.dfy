/** UTF-8 as Python's strict decoder reads it (RFC 3629, sections 3 and 4). */
module Utf8 {
  import opened Options

  type Byte = b: int | 0 <= b < 256

  type Bytes = seq<Byte>

  function EncodeChar(c: char): (b: Bytes)
    ensures 1 <= |b| <= 4
    ensures c != '\0' ==> forall k :: 0 <= k < |b| ==> b[k] != 0
  {
    var u := c as int;
    if u < 0x80 then [u]
    else if u < 0x800 then [0xC0 + u / 64, 0x80 + u % 64]
    else if u < 0x10000 then [0xE0 + u / 64 / 64, 0x80 + u / 64 % 64, 0x80 + u % 64]
    else [0xF0 + u / 64 / 64 / 64, 0x80 + u / 64 / 64 % 64, 0x80 + u / 64 % 64, 0x80 + u % 64]
  }

  function Encode(s: string): (b: Bytes)
    ensures |s| <= |b| <= 4 * |s|
  {
    if s == "" then [] else EncodeChar(s[0]) + Encode(s[1..])
  }

  predicate IsContinuation(b: Byte) {
    0x80 <= b < 0xC0
  }

  /** The six bits a continuation byte adds to the code point read so far. */
  function Join(u: nat, b: Byte): nat
    requires IsContinuation(b)
  {
    u * 64 + (b as int - 0x80)
  }

  /** The bits of a leading byte whose mark is `mark`. */
  function Lead(b: Byte, mark: nat): nat
    requires mark <= b
  {
    b as int - mark
  }

  /** A code point that UTF-8 may carry in `n` bytes: no surrogate, and not expressible in fewer. */
  function Scalar(u: int, n: nat): Option<(char, nat)>
    requires 0 <= u
  {
    if n == 2 && 0x80 <= u < 0x800 then Some((u as char, 2))
    else if n == 3 && 0x800 <= u < 0x10000 && !(0xD800 <= u < 0xE000) then Some((u as char, 3))
    else if n == 4 && 0x10000 <= u < 0x110000 then Some((u as char, 4))
    else None
  }

  /** The first character of a byte string and how many bytes it takes. */
  function DecodeFirst(b: Bytes): (r: Option<(char, nat)>)
    ensures r.Some? ==> 1 <= r.value.1 <= |b|
  {
    if b == [] then None
    else if b[0] < 0x80 then Some((b[0] as char, 1))
    else if 0xC0 <= b[0] < 0xE0 && |b| >= 2 && IsContinuation(b[1]) then
      Scalar(Join(Lead(b[0], 0xC0), b[1]), 2)
    else if 0xE0 <= b[0] < 0xF0 && |b| >= 3 && IsContinuation(b[1]) && IsContinuation(b[2]) then
      Scalar(Join(Join(Lead(b[0], 0xE0), b[1]), b[2]), 3)
    else if 0xF0 <= b[0] < 0xF8 && |b| >= 4 && IsContinuation(b[1]) && IsContinuation(b[2]) && IsContinuation(b[3]) then
      Scalar(Join(Join(Join(Lead(b[0], 0xF0), b[1]), b[2]), b[3]), 4)
    else None
  }

  function Decode(b: Bytes): (r: Option<string>)
  {
    if b == [] then Some("")
    else
      var first := DecodeFirst(b);
      if first.None? then None
      else
        var rest := Decode(b[first.value.1..]);
        if rest.None? then None else Some([first.value.0] + rest.value)
  }

  // ---------- One character ----------

  lemma FirstOfEncoded(c: char, rest: Bytes)
    ensures DecodeFirst(EncodeChar(c) + rest) == Some((c, |EncodeChar(c)|))
  {
    var u := c as int;
    var b := EncodeChar(c) + rest;
    assert b[..|EncodeChar(c)|] == EncodeChar(c);
    if 0x80 <= u < 0x800 {
      assert Join(Lead(b[0], 0xC0), b[1]) == u;
    } else if 0x800 <= u < 0x10000 {
      assert Join(Lead(b[0], 0xE0), b[1]) == u / 64;
    } else if 0x10000 <= u {
      assert Join(Lead(b[0], 0xF0), b[1]) == u / 64 / 64;
      assert Join(Join(Lead(b[0], 0xF0), b[1]), b[2]) == u / 64;
    }
  }

  lemma FirstReencodes(b: Bytes)
    requires DecodeFirst(b).Some?
    ensures EncodeChar(DecodeFirst(b).value.0) == b[..DecodeFirst(b).value.1]
  {
    var (c, n) := DecodeFirst(b).value;
    if n == 2 {
      JoinSplits(Lead(b[0], 0xC0), b[1]);
      assert EncodeChar(c) == [b[0], b[1]];
    } else if n == 3 {
      var two := Join(Lead(b[0], 0xE0), b[1]);
      JoinSplits(Lead(b[0], 0xE0), b[1]);
      JoinSplits(two, b[2]);
      assert EncodeChar(c) == [b[0], b[1], b[2]];
    } else if n == 4 {
      var two := Join(Lead(b[0], 0xF0), b[1]);
      JoinSplits(Lead(b[0], 0xF0), b[1]);
      JoinSplits(two, b[2]);
      JoinSplits(Join(two, b[2]), b[3]);
      assert EncodeChar(c) == [b[0], b[1], b[2], b[3]];
    }
  }

  lemma JoinSplits(u: nat, b: Byte)
    requires IsContinuation(b)
    ensures Join(u, b) / 64 == u && 0x80 + Join(u, b) % 64 == b
  {
  }

  /** What decodes from a prefix decodes alike from the whole. */
  lemma FirstOfPrefix(b: Bytes, n: nat)
    requires n <= |b| && DecodeFirst(b[..n]).Some?
    ensures DecodeFirst(b) == DecodeFirst(b[..n])
  {
  }

  // ---------- Whole strings ----------

  lemma {:induction false} DecodeInvertsEncode(s: string)
    ensures Decode(Encode(s)) == Some(s)
  {
    if s == "" {
    } else {
      FirstOfEncoded(s[0], Encode(s[1..]));
      assert Encode(s)[|EncodeChar(s[0])|..] == Encode(s[1..]);
      DecodeInvertsEncode(s[1..]);
      assert [s[0]] + s[1..] == s;
    }
  }

  lemma {:induction false} EncodeInvertsDecode(b: Bytes)
    requires Decode(b).Some?
    ensures Encode(Decode(b).value) == b
  {
    hide DecodeFirst, EncodeChar;
    if b == [] {
    } else {
      var (c, n) := DecodeFirst(b).value;
      FirstReencodes(b);
      EncodeInvertsDecode(b[n..]);
      var s := Decode(b).value;
      assert s[0] == c && s[1..] == Decode(b[n..]).value;
      assert b[..n] + b[n..] == b;
    }
  }

  lemma {:induction false} EncodeConcat(s: string, t: string)
    ensures Encode(s + t) == Encode(s) + Encode(t)
  {
    if s == "" {
      assert s + t == t;
    } else {
      assert (s + t)[0] == s[0] && (s + t)[1..] == s[1..] + t;
      EncodeConcat(s[1..], t);
    }
  }

  /** Encodings are prefixes only of encodings of longer strings. */
  lemma {:induction false} EncodePrefix(r: string, s: string)
    requires Encode(r) <= Encode(s)
    ensures r <= s
  {
    if r == "" {
    } else {
      var n := |Encode(r)|;
      assert Encode(s)[..n] == Encode(r);
      FirstOfEncoded(r[0], Encode(r[1..]));
      FirstOfPrefix(Encode(s), n);
      FirstOfEncoded(s[0], Encode(s[1..]));
      var w := |EncodeChar(r[0])|;
      assert Encode(s)[w..][..n - w] == Encode(r)[w..] == Encode(r[1..]);
      assert Encode(s)[w..] == Encode(s[1..]);
      EncodePrefix(r[1..], s[1..]);
      assert r == [r[0]] + r[1..] && s == [s[0]] + s[1..];
    }
  }

  /** A byte cut of an encoding decodes exactly when it falls between two characters. */
  lemma CutDecodes(s: string, n: nat)
    requires n <= |Encode(s)|
    ensures var r := Decode(Encode(s)[..n]);
      r.Some? ==> |r.value| <= |s| && r.value == s[..|r.value|] && n == |Encode(r.value)|
    ensures forall m :: 0 <= m <= |s| && n == |Encode(s[..m])| ==> Decode(Encode(s)[..n]) == Some(s[..m])
  {
    var r := Decode(Encode(s)[..n]);
    if r.Some? {
      EncodeInvertsDecode(Encode(s)[..n]);
      EncodePrefix(r.value, s);
    }
    forall m | 0 <= m <= |s| && n == |Encode(s[..m])| ensures r == Some(s[..m]) {
      assert s == s[..m] + s[m..];
      EncodeConcat(s[..m], s[m..]);
      assert Encode(s)[..n] == Encode(s[..m]);
      DecodeInvertsEncode(s[..m]);
    }
  }

  /** Text without NUL encodes to bytes without NUL. */
  lemma {:induction false} NoNulBytes(s: string)
    requires forall k :: 0 <= k < |s| ==> s[k] != '\0'
    ensures forall k :: 0 <= k < |Encode(s)| ==> Encode(s)[k] != 0
  {
    if s == "" {
    } else {
      NoNulBytes(s[1..]);
    }
  }
}
