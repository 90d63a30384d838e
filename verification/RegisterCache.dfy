/** The register cache as a function of the log of frames and connect targets (ble_service/src/main.py:561-638). */
module RegisterCache {
  import opened Options
  import opened Json
  import opened JsonForms
  import opened RoundTrip
  import opened Utf8
  import opened Salvage
  import opened RegisterFrame

  /** What reaches the cache: a notification, or a connect entry point naming its target. */
  datatype Entry = Frame(data: Bytes) | Target(mac: string)

  datatype Cache = Cache(registers: map<seq<nat>, Json>, mac: Option<string>)

  const EMPTY := Cache(map[], None)

  const CACHEABLE_TYPS: set<string> := {"I", "SN", "G", "SA", "SE", "S1", "SW", "S2", "W", "IO", "TM", "AN"}

  /** A dict's value for a key: the last member of that name wins, as in Python. */
  function Get(ms: seq<Member>, key: seq<nat>): Option<Json> {
    if ms == [] then None
    else
      var last := ms[|ms| - 1];
      if Unescape(last.key) == Some(key) then Some(last.value) else Get(ms[..|ms| - 1], key)
  }

  predicate IsCacheable(typ: seq<nat>) {
    exists t :: t in CACHEABLE_TYPS && typ == Codes(t)
  }

  /** The cache key of a decoded register, if it is one that is cached. */
  function CacheKey(v: Json): Option<seq<nat>> {
    if !v.Obj? then None
    else
      var typ := Get(v.members, Codes("TYP"));
      if typ.None? || !typ.value.Str? then None
      else
        var codes := Unescape(typ.value.lexeme);
        if codes.Some? && IsCacheable(codes.value) then codes else None
  }

  predicate IsRegisterFrame(data: Bytes) {
    |data| >= 2 && data[0] == 68 && data[1] == 123
  }

  // ---------- What a register is ----------

  /** The code points of I, SN, G, SA, SE, S1, SW, S2, W, IO, TM and AN. */
  const REGISTER_TYPES: seq<seq<nat>> := [
    [73], [83, 78], [71], [83, 65], [83, 69], [83, 49], [83, 87], [83, 50], [87], [73, 79], [84, 77], [65, 78]]

  /** Member `i` is the last one of the name "TYP", however its key is written. */
  ghost predicate IsLastTyp(ms: seq<Member>, i: nat) {
    && i < |ms| && Means(ms[i].key, [84, 89, 80])
    && forall j: nat :: i < j < |ms| ==> !Means(ms[j].key, [84, 89, 80])
  }

  /** An object whose last "TYP" is a string that stands for `typ`, one of the twelve types. */
  ghost predicate IsRegister(v: Json, typ: seq<nat>) {
    && v.Obj? && typ in REGISTER_TYPES
    && exists i: nat :: IsLastTyp(v.members, i) && v.members[i].value.Str? && Means(v.members[i].value.lexeme, typ)
  }

  lemma CodesOfTyp()
    ensures Codes("TYP") == [84, 89, 80]
  {
  }

  lemma OneCode(c: char)
    ensures Codes([c]) == [c as nat]
  {
  }

  lemma TwoCodes(c: char, d: char)
    ensures Codes([c, d]) == [c as nat, d as nat]
  {
  }

  lemma CodesOfTypes()
    ensures Codes("I") == [73] && Codes("G") == [71] && Codes("W") == [87]
    ensures Codes("SN") == [83, 78] && Codes("SA") == [83, 65] && Codes("SE") == [83, 69]
    ensures Codes("S1") == [83, 49] && Codes("SW") == [83, 87] && Codes("S2") == [83, 50]
    ensures Codes("IO") == [73, 79] && Codes("TM") == [84, 77] && Codes("AN") == [65, 78]
  {
    hide Codes;
    OneCode('I');
    OneCode('G');
    OneCode('W');
    TwoCodes('S', 'N');
    TwoCodes('S', 'A');
    TwoCodes('S', 'E');
    TwoCodes('S', '1');
    TwoCodes('S', 'W');
    TwoCodes('S', '2');
    TwoCodes('I', 'O');
    TwoCodes('T', 'M');
    TwoCodes('A', 'N');
  }

  lemma CacheableVerdict(typ: seq<nat>)
    ensures IsCacheable(typ) <==> typ in REGISTER_TYPES
  {
    hide Codes;
    CodesOfTypes();
  }

  /** A dict keeps the last member of a name. */
  lemma {:induction false} GetIsLast(ms: seq<Member>)
    ensures forall i: nat :: IsLastTyp(ms, i) ==> Get(ms, [84, 89, 80]) == Some(ms[i].value)
    ensures Get(ms, [84, 89, 80]).Some? ==> exists i: nat :: IsLastTyp(ms, i)
  {
    hide Means;
    if ms == [] {
    } else {
      var n := |ms| - 1;
      GetIsLast(ms[..n]);
      UnescapeVerdict(ms[n].key, [84, 89, 80]);
      if Means(ms[n].key, [84, 89, 80]) {
        assert IsLastTyp(ms, n);
      } else {
        forall i: nat ensures IsLastTyp(ms, i) <==> IsLastTyp(ms[..n], i) {
          assert forall j: nat :: j < n ==> ms[..n][j] == ms[j];
        }
      }
    }
  }

  /** The values that have a key are the registers, and the key is their type. */
  lemma KeyVerdict(v: Json, typ: seq<nat>)
    ensures CacheKey(v) == Some(typ) <==> IsRegister(v, typ)
  {
    hide Means, Get, IsCacheable, Unescape;
    if v.Obj? {
      CodesOfTyp();
      GetIsLast(v.members);
      CacheableVerdict(typ);
      var last := Get(v.members, [84, 89, 80]);
      if last.Some? && last.value.Str? {
        UnescapeVerdict(last.value.lexeme, typ);
      }
    }
  }

  lemma TypesAreShort(typ: seq<nat>)
    requires typ in REGISTER_TYPES
    ensures |typ| <= 2 && (|typ| == 2 ==> typ[0] != 77)
  {
  }

  /** Neither the burst's end marker nor the list of heard stations is ever a register. */
  lemma MarkersAreNoRegisters(v: Json)
    ensures !IsRegister(v, [67, 79, 78, 70, 70, 73, 78])
    ensures !IsRegister(v, [77, 72])
  {
    if IsRegister(v, [67, 79, 78, 70, 70, 73, 78]) {
      TypesAreShort([67, 79, 78, 70, 70, 73, 78]);
    }
    if IsRegister(v, [77, 72]) {
      TypesAreShort([77, 72]);
    }
  }

  /** Two members of the name: the second one decides. */
  lemma SecondTypDecides(before: seq<Member>, first: Json, typ: string)
    requires IsPlain(typ) && Codes(typ) in REGISTER_TYPES
    ensures var v := Obj(before + [Member("TYP", first), Member("TYP", Str(typ))]); IsRegister(v, Codes(typ))
  {
    hide Means;
    PlainMeansItself("TYP");
    PlainMeansItself(typ);
    CodesOfTyp();
    var ms := before + [Member("TYP", first), Member("TYP", Str(typ))];
    assert IsLastTyp(ms, |before| + 1);
  }

  /** The key and value a frame puts into the cache. */
  function Register(data: Bytes): Option<(seq<nat>, Json)> {
    if !IsRegisterFrame(data) || OutcomeOf(data).Dropped? then None
    else
      var key := CacheKey(OutcomeOf(data).value);
      if key.None? then None else Some((key.value, OutcomeOf(data).value))
  }

  function Store(c: Cache, v: Json): Cache {
    var key := CacheKey(v);
    if key.None? then c else c.(registers := c.registers[key.value := v])
  }

  function Retarget(c: Cache, mac: string): Cache {
    Cache(if c.mac.Some? && c.mac.value != mac then map[] else c.registers, Some(mac))
  }

  function Apply(c: Cache, e: Entry): Cache {
    match e
    case Target(mac) => Retarget(c, mac)
    case Frame(data) =>
      var r := Register(data);
      if r.None? then c else c.(registers := c.registers[r.value.0 := r.value.1])
  }

  /** A whole printed register is stored under its type, in place of what was there. */
  lemma PrintedIsStored(c: Cache, ms: seq<Member>, typ: seq<nat>, padding: nat)
    requires WellFormed(Obj(ms)) && IsRegister(Obj(ms), typ)
    ensures var t := Print(Obj(ms));
      Apply(c, Frame(FrameOf(t, |Encode(t)|, padding))) == c.(registers := c.registers[typ := Obj(ms)])
  {
    hide WellFormed, OutcomeOf, Print, FrameOf, Encode, CacheKey;
    PrintedIsClean(ms, padding);
    KeyVerdict(Obj(ms), typ);
    BraceFollows(ms, padding);
  }

  lemma BraceFollows(ms: seq<Member>, padding: nat)
    ensures var t := Print(Obj(ms)); IsRegisterFrame(FrameOf(t, |Encode(t)|, padding))
  {
    var t := Print(Obj(ms));
    assert t[0] == '{';
    assert Encode(t)[0] == 123;
  }

  /** The cache after a whole log. */
  function Replay(log: seq<Entry>): Cache {
    if log == [] then EMPTY else Apply(Replay(log[..|log| - 1]), log[|log| - 1])
  }

  // ---------- What the cache means ----------

  /** The target named last before position `n`. */
  function TargetBefore(log: seq<Entry>, n: nat): Option<string>
    requires n <= |log|
  {
    if n == 0 then None
    else if log[n - 1].Target? then Some(log[n - 1].mac)
    else TargetBefore(log, n - 1)
  }

  /** Entry `i` moves the connect target from one device to a different one. */
  predicate Switches(log: seq<Entry>, i: nat)
    requires i < |log|
  {
    log[i].Target? && TargetBefore(log, i).Some? && TargetBefore(log, i).value != log[i].mac
  }

  /** The entry is a `D{` frame that decodes to a register of this type. */
  ghost predicate Carries(e: Entry, typ: seq<nat>) {
    && e.Frame? && |e.data| >= 2 && e.data[0] == 68 && e.data[1] == 123
    && !OutcomeOf(e.data).Dropped? && IsRegister(OutcomeOf(e.data).value, typ)
  }

  lemma RegisterVerdict(data: Bytes, typ: seq<nat>)
    ensures Carries(Frame(data), typ) <==> Register(data).Some? && Register(data).value.0 == typ
    ensures Carries(Frame(data), typ) ==> Register(data).value.1 == OutcomeOf(data).value
  {
    hide OutcomeOf, IsRegister, CacheKey;
    if !OutcomeOf(data).Dropped? {
      KeyVerdict(OutcomeOf(data).value, typ);
    }
  }

  /** Entry `i` is the last frame carrying `typ`, and no switch of target follows it. */
  ghost predicate IsLatest(log: seq<Entry>, typ: seq<nat>, i: nat) {
    && i < |log| && Carries(log[i], typ)
    && forall j: nat :: i < j < |log| ==> !Switches(log, j) && !Carries(log[j], typ)
  }

  lemma {:induction false} TargetBeforePrefix(log: seq<Entry>, n: nat, k: nat)
    requires k <= n <= |log|
    ensures TargetBefore(log[..n], k) == TargetBefore(log, k)
  {
    if k == 0 {
    } else {
      TargetBeforePrefix(log, n, k - 1);
    }
  }

  lemma {:induction false} ReplayTarget(log: seq<Entry>)
    ensures Replay(log).mac == TargetBefore(log, |log|)
  {
    if log == [] {
    } else {
      var n := |log| - 1;
      ReplayTarget(log[..n]);
      TargetBeforePrefix(log, n, n);
    }
  }

  lemma LatestOfPrefix(log: seq<Entry>, typ: seq<nat>, i: nat)
    requires log != [] && i < |log| - 1
    ensures var n := |log| - 1;
      IsLatest(log, typ, i) <==> IsLatest(log[..n], typ, i) && !Switches(log, n) && !Carries(log[n], typ)
  {
    hide TargetBefore, Carries;
    var n := |log| - 1;
    forall j: nat | i < j < n ensures Switches(log[..n], j) <==> Switches(log, j) {
      TargetBeforePrefix(log, n, j);
    }
    assert forall j: nat :: i <= j < n ==> log[..n][j] == log[j];
  }

  /**
   The cache refines the log: a TYP is cached exactly when some frame carried it after the last
   switch of target, and its value is what the last such frame decoded to.
   */
  lemma {:induction false} CacheIsLatest(log: seq<Entry>, typ: seq<nat>)
    ensures typ in Replay(log).registers <==> exists i: nat :: IsLatest(log, typ, i)
    ensures forall i: nat :: IsLatest(log, typ, i) ==> Replay(log).registers[typ] == OutcomeOf(log[i].data).value
  {
    hide Register, TargetBefore, OutcomeOf, IsRegister;
    if log == [] {
    } else {
      var n := |log| - 1;
      if log[n].Frame? {
        RegisterVerdict(log[n].data, typ);
      }
      CacheIsLatest(log[..n], typ);
      ReplayTarget(log[..n]);
      TargetBeforePrefix(log, n, n);
      assert Switches(log, n) <==>
        log[n].Target? && Replay(log[..n]).mac.Some? && Replay(log[..n]).mac.value != log[n].mac;
      forall i: nat | i < n
        ensures IsLatest(log, typ, i) <==> IsLatest(log[..n], typ, i) && !Switches(log, n) && !Carries(log[n], typ)
      {
        LatestOfPrefix(log, typ, i);
      }
      if Carries(log[n], typ) {
        assert IsLatest(log, typ, n);
      } else if typ in Replay(log[..n]).registers {
        var i: nat :| IsLatest(log[..n], typ, i);
        assert Switches(log, n) || IsLatest(log, typ, i);
      }
      forall i: nat | IsLatest(log, typ, i) ensures Replay(log).registers[typ] == OutcomeOf(log[i].data).value {
        if i < n {
          assert IsLatest(log[..n], typ, i);
        }
      }
    }
  }

  // ---------- Only whole members of registers really sent ----------

  /** The frame is a cut of the register text `t`. */
  predicate IsCutOf(data: Bytes, t: string, n: nat, padding: nat) {
    IsObjectText(t) && n <= |Encode(t)| && data == FrameOf(t, n, padding)
  }

  /** Whatever a cut decodes to is a prefix of the members of the text that was sent. */
  lemma CutYieldsPrefix(t: string, n: nat, padding: nat)
    requires IsObjectText(t) && n <= |Encode(t)|
    requires !OutcomeOf(FrameOf(t, n, padding)).Dropped?
    ensures var v := OutcomeOf(FrameOf(t, n, padding)).value; v.Obj? && v.members <= MembersOf(t)
  {
    hide IsObjectText, OutcomeOf, FrameOf, MembersOf, Encode, TextFinishes, Kept;
    DecodeEveryCut(t, n, padding);
    var m :| 0 <= m <= |t| && n == |Encode(t[..m])|;
    assert OutcomeOf(FrameOf(t, n, padding)) == Expected(t, m);
  }

  ghost predicate CutOfSome(data: Bytes) {
    exists t, n, padding :: IsCutOf(data, t, n, padding)
  }

  /** The value holds whole members only, the first ones of a text of which the frame is a cut. */
  ghost predicate WholeMembersOf(data: Bytes, v: Json) {
    exists t, n, padding :: IsCutOf(data, t, n, padding) && v.Obj? && v.members <= MembersOf(t)
  }

  /**
   If every register frame of a log is a cut of a text, each cached value is a whole-member prefix of
   one of those texts.
   */
  lemma CachedIsPrefix(log: seq<Entry>, typ: seq<nat>)
    requires forall i :: 0 <= i < |log| && log[i].Frame? && IsRegisterFrame(log[i].data) ==> CutOfSome(log[i].data)
    requires typ in Replay(log).registers
    ensures exists i: nat :: IsLatest(log, typ, i) && WholeMembersOf(log[i].data, Replay(log).registers[typ])
  {
    hide Replay, OutcomeOf, MembersOf, FrameOf, IsObjectText, IsRegister, Switches;
    CacheIsLatest(log, typ);
    var i: nat :| IsLatest(log, typ, i);
    var t, n, padding :| IsCutOf(log[i].data, t, n, padding);
    CutYieldsPrefix(t, n, padding);
    assert WholeMembersOf(log[i].data, Replay(log).registers[typ]);
  }
}
