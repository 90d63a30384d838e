/** Decoding one `D{...}` register notification (ble_service/src/main.py:436-558), bytes first. */
module RegisterFrame {
  import opened Options
  import opened Json
  import opened JsonForms
  import opened JsonGrammar
  import opened RoundTrip
  import opened Utf8
  import opened Scanner
  import opened Traversal
  import opened Salvage
  import opened SalvageExact
  import opened Heuristic

  /** What becomes of a frame: the whole value, the members salvaged from it, or nothing. */
  datatype Outcome = Clean(value: Json) | Salvaged(value: Json) | Dropped

  function StripNuls(data: Bytes): (r: Bytes)
    ensures r <= data
  {
    if data != [] && data[|data| - 1] == 0 then StripNuls(data[..|data| - 1]) else data
  }

  /** The JSON text behind the frame's first character; `None` when the bytes are not UTF-8. */
  function FrameText(data: Bytes): Option<string> {
    var s := Decode(StripNuls(data));
    if s.None? then None else if s.value == "" then Some("") else Some(s.value[1..])
  }

  function Classify(text: string): Outcome {
    if Loads(text).Some? then Clean(Loads(text).value)
    else if !LooksTruncated(text) then Dropped
    else
      var repaired := RepairSpec(text);
      if repaired.None? then Dropped
      else
        var v := Loads(repaired.value.0);
        if v.Some? && v.value.Obj? then Salvaged(v.value) else Dropped
  }

  function OutcomeOf(data: Bytes): Outcome {
    var text := FrameText(data);
    if text.None? then Dropped else Classify(text.value)
  }

  /** The notification dictionary the decoder fills in place. */
  class Notification {
    var format: string
    var parsed: Option<Json>
    var partial: bool

    constructor ()
      ensures format == "" && parsed == None && !partial
    {
      format, parsed, partial := "", None, false;
    }

    /** `_decode_register_frame`: reports whether a register came out, and fills the dictionary accordingly. */
    method DecodeRegisterFrame(data: Bytes) returns (ok: bool)
      modifies this
      ensures ok <==> !OutcomeOf(data).Dropped?
      ensures format == (if ok then "json" else "raw")
      ensures parsed == (if ok then Some(OutcomeOf(data).value) else old(parsed))
      ensures partial == (OutcomeOf(data).Salvaged? || old(partial))
    {
      var decoded := Decode(StripNuls(data));
      if decoded.None? {
        format := "raw";
        return false;
      }
      var text := if decoded.value == "" then "" else decoded.value[1..];
      var loaded := Loads(text);
      if loaded.Some? {
        parsed := loaded;
        format := "json";
        return true;
      }
      if LooksTruncated(text) {
        var repaired := Repair(text);
        var parsedRepair: Option<Json> := None;
        if repaired.Some? {
          parsedRepair := Loads(repaired.value.0);
        }
        if parsedRepair.Some? && parsedRepair.value.Obj? {
          parsed := parsedRepair;
          format := "json";
          partial := true;
          return true;
        }
        format := "raw";
      } else {
        format := "raw";
      }
      return false;
    }
  }

  // ---------- A frame is a byte cut of an object text ----------

  function Zeros(n: nat): (z: Bytes)
    ensures |z| == n
  {
    seq(n, _ => 0)
  }

  /** `D`, the first `n` bytes of the text, and NUL padding. */
  function FrameOf(text: string, n: nat, padding: nat): Bytes
    requires n <= |Encode(text)|
  {
    [68] + Encode(text)[..n] + Zeros(padding)
  }

  lemma {:induction false} StripsPadding(body: Bytes, padding: nat)
    requires body != [] && body[|body| - 1] != 0
    ensures StripNuls(body + Zeros(padding)) == body
  {
    if padding == 0 {
      assert body + Zeros(0) == body;
    } else {
      var data := body + Zeros(padding);
      assert data[..|data| - 1] == body + Zeros(padding - 1);
      StripsPadding(body, padding - 1);
    }
  }

  lemma {:induction false} NoNulChars(s: string, n: nat)
    requires n <= |s| && Nuls(s, n) == 0
    ensures forall k :: 0 <= k < n ==> s[k] != '\0'
  {
    if n == 0 {
    } else {
      NoNulChars(s, n - 1);
    }
  }

  /** An object text holds no NUL, not even as UTF-8. */
  lemma TextHasNoNul(t: string)
    requires IsObjectText(t)
    ensures forall k :: 0 <= k < |Encode(t)| ==> Encode(t)[k] != 0
  {
    hide *;
    ObjectTextParses(t);
    ScanCloses(t);
    ClosedOutside(t);
    OutsideStaysClosed(t, ObjectEnd(t), |t|);
    NoNulChars(t, |t|);
    NoNulBytes(t);
  }

  /** The decoder sees the characters of the cut, or no text at all when the cut splits a character. */
  lemma FrameTextOfCut(t: string, n: nat, padding: nat)
    requires IsObjectText(t) && n <= |Encode(t)|
    ensures FrameText(FrameOf(t, n, padding)) == Decode(Encode(t)[..n])
  {
    hide IsObjectText, DecodeFirst, EncodeChar;
    TextHasNoNul(t);
    var body := [68] + Encode(t)[..n];
    assert FrameOf(t, n, padding) == body + Zeros(padding);
    StripsPadding(body, padding);
    assert DecodeFirst(body) == Some(('D', 1)) by { LetterFirst(body); }
    assert body[1..] == Encode(t)[..n];
  }

  lemma LetterFirst(b: Bytes)
    requires b != [] && b[0] == 68
    ensures DecodeFirst(b) == Some(('D', 1))
  {
  }

  /** The members a text cut yields, if any: all of them behind the closing brace, else the finished ones. */
  function Expected(t: string, m: nat): Outcome
    requires IsObjectText(t) && m <= |t|
  {
    var k := Kept(TextFinishes(t), m);
    if m >= ObjectEnd(t) then Clean(Obj(MembersOf(t)))
    else if k >= 1 && LooksTruncated(t[..m]) then Salvaged(Obj(MembersOf(t)[..k]))
    else Dropped
  }

  lemma ClassifyCut(t: string, m: nat)
    requires IsObjectText(t) && m <= |t|
    ensures Classify(t[..m]) == Expected(t, m)
  {
    hide IsObjectText, ObjectEnd, MembersOf, TextFinishes, Kept, Loads, LooksTruncated, RepairSpec;
    ObjectTextParses(t);
    SalvageIsExact(t, m);
    if m >= ObjectEnd(t) {
      PrefixWithClose(t, m);
    } else {
      NoProperPrefixIsJson(t, m);
    }
  }

  /**
   Every byte cut of every object text, with any padding. A cut inside a character is dropped;
   any other cut yields the whole object, the finished members, or nothing.
   */
  lemma DecodeEveryCut(t: string, n: nat, padding: nat)
    requires IsObjectText(t) && n <= |Encode(t)|
    ensures forall m :: 0 <= m <= |t| && n == |Encode(t[..m])| ==> OutcomeOf(FrameOf(t, n, padding)) == Expected(t, m)
    ensures (forall m :: 0 <= m <= |t| ==> n != |Encode(t[..m])|) ==> OutcomeOf(FrameOf(t, n, padding)) == Dropped
  {
    hide IsObjectText, Expected, Classify, FrameText, FrameOf, Decode, Encode;
    FrameTextOfCut(t, n, padding);
    CutDecodes(t, n);
    forall m | 0 <= m <= |t| && n == |Encode(t[..m])| ensures OutcomeOf(FrameOf(t, n, padding)) == Expected(t, m) {
      ClassifyCut(t, m);
    }
  }

  /**
   For a text that ends at its closing brace and has no brace inside a string: the full object
   exactly when nothing was cut, a whole-member prefix exactly when the cut falls between two
   characters with at least one member finished, and nothing otherwise.
   */
  lemma DecodeWithoutStringBraces(t: string, m: nat, padding: nat)
    requires IsObjectText(t) && ObjectEnd(t) == |t| && StringBraces(Loads(t).value) == NO_BRACES
    requires m <= |t|
    ensures var n, k := |Encode(t[..m])|, Kept(TextFinishes(t), m);
      && n <= |Encode(t)|
      && OutcomeOf(FrameOf(t, n, padding)) == (
           if m == |t| then Clean(Loads(t).value)
           else if k >= 1 then Salvaged(Obj(MembersOf(t)[..k]))
           else Dropped)
  {
    hide IsObjectText, ObjectEnd, Loads, StringBraces, Kept, TextFinishes, LooksTruncated, Encode, OutcomeOf, FrameOf;
    hide MembersOf;
    var n := |Encode(t[..m])|;
    EncodeConcat(t[..m], t[m..]);
    assert t[..m] + t[m..] == t;
    DecodeEveryCut(t, n, padding);
    ObjectTextParses(t);
    if m == 0 {
      NothingKeptOfNothing(t);
    } else {
      RightWithoutStringBraces(t, m);
    }
  }

  lemma NothingKeptOfNothing(t: string)
    requires IsObjectText(t)
    ensures Kept(TextFinishes(t), 0) == 0 && 0 < ObjectEnd(t)
  {
    hide *;
    NothingFinishedBefore(t, 0);
  }

  /** A whole printed register comes out as it went in. */
  lemma PrintedIsClean(ms: seq<Member>, padding: nat)
    requires WellFormed(Obj(ms))
    ensures var t := Print(Obj(ms)); OutcomeOf(FrameOf(t, |Encode(t)|, padding)) == Clean(Obj(ms))
  {
    hide WellFormed, Print, IsObjectText, ObjectEnd, MembersOf, TextFinishes, Kept, OutcomeOf, Encode, FrameOf;
    var t := Print(Obj(ms));
    PrintedObject(ms);
    DecodeEveryCut(t, |Encode(t)|, padding);
    assert t[..|t|] == t;
  }

  // ---------- What comes out clean ----------

  /** A frame is a register in full exactly if it is UTF-8 and a JSON text stands behind its first character. */
  lemma CleanVerdict(data: Bytes, v: Json)
    ensures OutcomeOf(data) == Clean(v) <==>
      exists first, text :: StripNuls(data) == Encode([first] + text) && Padded(text, v)
  {
    hide Decode, Encode, Loads, Padded, LooksTruncated, RepairSpec, StripNuls;
    var bytes := StripNuls(data);
    if OutcomeOf(data) == Clean(v) {
      var s := Decode(bytes).value;
      EncodeInvertsDecode(bytes);
      LoadsVerdict("", v);
      EmptyIsNoText(v);
      LoadsVerdict(s[1..], v);
      assert [s[0]] + s[1..] == s;
    }
    forall first, text | bytes == Encode([first] + text) && Padded(text, v) ensures OutcomeOf(data) == Clean(v) {
      DecodeInvertsEncode([first] + text);
      assert ([first] + text)[1..] == text;
      LoadsVerdict(text, v);
    }
  }

  lemma EmptyIsNoText(v: Json)
    ensures Loads("") != Some(v)
  {
  }

  const LATITUDE := Member("LAT", Scalar("48.208176"))

  /** A coordinate with decimals. */
  lemma DecimalsAreClean(padding: nat)
    ensures var t := "{\"LAT\":48.208176}"; OutcomeOf(FrameOf(t, |Encode(t)|, padding)) == Clean(Obj([LATITUDE]))
  {
    hide OutcomeOf, FrameOf, Encode, Means, StringForm, Number, Print;
    DecimalForm("48", "208176");
    PlainMeansItself("LAT");
    assert ScalarForm("48" + "." + "208176");
    assert "48.208176" == "48" + "." + "208176";
    assert WellFormed(LATITUDE.value);
    assert WellFormedMember(LATITUDE);
    PrintedIsClean([LATITUDE], padding);
    LatitudeText();
  }

  lemma LatitudeText()
    ensures Print(Obj([LATITUDE])) == "{\"LAT\":48.208176}"
  {
    assert PrintMembers([LATITUDE]) == PrintMember(LATITUDE) == "\"LAT\":48.208176";
  }

  lemma DecimalForm(w: string, f: string)
    requires Digits(w) && w[0] != '0' && Digits(f)
    ensures Number(w + "." + f)
  {
    var t := w + "." + f;
    assert ("." + f)[1..] == f;
    assert t == "" + w + ("." + f) + "";
    assert NumberOf(t, "", w, "." + f, "");
  }
}
