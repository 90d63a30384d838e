/**
 The frames written to the device (ble_service/src/ble_adapter.py:359-396,
 ble_service/src/ble_adapter.py:1383-1650), and a reader of their documented layout:
 length byte, type byte, payload, with one-byte lengths before the texts inside.
 */
module Frames {
  import opened Options
  import opened Utf8

  const TIME_SYNC: Byte := 0x20
  const SET_CALLSIGN: Byte := 0x50
  const SET_WIFI: Byte := 0x55
  const SET_ALTITUDE: Byte := 0x90
  const SET_APRS_SYMBOLS: Byte := 0x95
  const TEXT_COMMAND: Byte := 0xA0

  const SAVE_TO_FLASH: Byte := 0x0A
  const RAM_ONLY: Byte := 0x0B

  const MAX_CALLSIGN_LEN := 9
  const MAX_SSID_LEN := 32
  const MAX_WIFI_PASSWORD_LEN := 63
  const BLE_MTU_LIMIT := 247
  const FRAME_LENGTH_PREFIX_MAX := 255

  /** The frame, or the exception raised instead. */
  datatype Sent = Frame(bytes: Bytes) | RuntimeError | ValueError | OverflowError

  // ---------- Writing ----------

  /** `int.to_bytes(1, ...)` or `bytes([n])`: one byte, if it fits. */
  function OneByte(n: nat): Option<Byte> {
    if n < 256 then Some(n) else None
  }

  /** `_frame` */
  function FrameOf(kind: Byte, payload: Bytes): Sent {
    match OneByte(|payload| + 2)
    case None => OverflowError
    case Some(length) => Frame([length, kind] + payload)
  }

  /** A text behind its own length byte. */
  function Prefixed(text: string): Option<Bytes> {
    match OneByte(|Encode(text)|)
    case None => None
    case Some(length) => Some([length] + Encode(text))
  }

  function SetCallsign(connected: bool, callsign: string): Sent {
    if !connected then RuntimeError
    else if callsign == "" || |callsign| > MAX_CALLSIGN_LEN then ValueError
    else
      match Prefixed(callsign)
      case None => ValueError
      case Some(payload) =>
        if |payload| + 2 > BLE_MTU_LIMIT then ValueError else FrameOf(SET_CALLSIGN, payload)
  }

  function SetWifi(connected: bool, ssid: string, password: string): Sent {
    if !connected then RuntimeError
    else if ssid == "" || |ssid| > MAX_SSID_LEN then ValueError
    else if |password| > MAX_WIFI_PASSWORD_LEN then ValueError
    else
      match (Prefixed(ssid), Prefixed(password))
      case (Some(name), Some(secret)) =>
        var payload := name + secret;
        if |payload| + 2 > BLE_MTU_LIMIT then ValueError else FrameOf(SET_WIFI, payload)
      case _ => ValueError
  }

  /** `n.to_bytes(k, "little")` of a number that fits. */
  function LittleEndian(n: nat, k: nat): (b: Bytes)
    ensures |b| == k
  {
    if k == 0 then [] else [n % 256] + LittleEndian(n / 256, k - 1)
  }

  const TWO_32 := 0x1_0000_0000

  /** The two's complement of a signed number in 32 bits. */
  function Unsigned(n: int): nat
    requires -TWO_32 / 2 <= n < TWO_32 / 2
  {
    if n < 0 then n + TWO_32 else n
  }

  function SetAltitude(connected: bool, altitude: int, save: bool): Sent {
    if !connected then RuntimeError
    else if !(-1000 <= altitude <= 10000) then ValueError
    else FrameOf(SET_ALTITUDE, LittleEndian(Unsigned(altitude), 4) + [if save then SAVE_TO_FLASH else RAM_ONLY])
  }

  function SetAprsSymbols(connected: bool, primary: string, secondary: string): Sent {
    if !connected then RuntimeError
    else if |primary| != 1 || |secondary| != 1 then ValueError
    else
      match (OneByte(primary[0] as nat), OneByte(secondary[0] as nat))
      case (Some(p), Some(s)) => FrameOf(SET_APRS_SYMBOLS, [p, s])
      case _ => ValueError
  }

  /** The frame of `set_time`, for the seconds since the epoch. */
  function TimeSync(now: nat): Sent {
    if now >= TWO_32 then OverflowError else FrameOf(TIME_SYNC, LittleEndian(now, 4))
  }

  function SendCommand(command: string): Sent {
    if |Encode(command)| + 2 > FRAME_LENGTH_PREFIX_MAX then ValueError
    else FrameOf(TEXT_COMMAND, Encode(command))
  }

  function SendMessage(text: string, group: string): Sent {
    SendCommand("{" + group + "}" + text)
  }

  const HELLO: Bytes := [0x10, 0x20, 0x30]

  function Digits(n: nat, width: nat): (s: string)
    ensures |s| >= width
  {
    if n == 0 && width == 0 then ""
    else Digits(n / 10, if width == 0 then 0 else width - 1) + [('0' as int + n % 10) as char]
  }

  /** `build_hello_bytes`, for any hash function of 32 bytes. */
  function BuildHello(pin: int, sha256: Bytes -> Bytes): Bytes {
    if pin > 0 then [0x24] + HELLO + sha256(Encode(Digits(pin, 6))) else [0x04] + HELLO
  }

  // ---------- Reading ----------

  /** The payload of a frame of this kind, if the length byte agrees. */
  function PayloadOf(kind: Byte, b: Bytes): Option<Bytes> {
    if |b| >= 2 && b[0] == |b| && b[1] == kind then Some(b[2..]) else None
  }

  /** A text behind its length byte, and what follows it. */
  function ReadText(b: Bytes): Option<(string, Bytes)> {
    if b == [] || |b| < 1 + b[0] as nat then None
    else
      match Decode(b[1..1 + b[0] as nat])
      case None => None
      case Some(text) => Some((text, b[1 + b[0] as nat..]))
  }

  function ReadCallsign(b: Bytes): Option<string> {
    match PayloadOf(SET_CALLSIGN, b)
    case None => None
    case Some(p) => if ReadText(p).Some? && ReadText(p).value.1 == [] then Some(ReadText(p).value.0) else None
  }

  function ReadWifi(b: Bytes): Option<(string, string)> {
    match PayloadOf(SET_WIFI, b)
    case None => None
    case Some(p) =>
      match ReadText(p)
      case None => None
      case Some(ssid) =>
        match ReadText(ssid.1)
        case None => None
        case Some(password) => if password.1 == [] then Some((ssid.0, password.0)) else None
  }

  function FromLittleEndian(b: Bytes): nat {
    if b == [] then 0 else b[0] as nat + 256 * FromLittleEndian(b[1..])
  }

  function Signed(n: nat): int {
    if n >= TWO_32 / 2 then n - TWO_32 else n
  }

  function ReadAltitude(b: Bytes): Option<(int, bool)> {
    match PayloadOf(SET_ALTITUDE, b)
    case None => None
    case Some(p) =>
      if |p| == 5 && (p[4] == SAVE_TO_FLASH || p[4] == RAM_ONLY) then
        Some((Signed(FromLittleEndian(p[..4])), p[4] == SAVE_TO_FLASH))
      else None
  }

  function ReadTime(b: Bytes): Option<nat> {
    match PayloadOf(TIME_SYNC, b)
    case None => None
    case Some(p) => if |p| == 4 then Some(FromLittleEndian(p)) else None
  }

  function ReadSymbols(b: Bytes): Option<(char, char)> {
    match PayloadOf(SET_APRS_SYMBOLS, b)
    case None => None
    case Some(p) => if |p| == 2 then Some((p[0] as char, p[1] as char)) else None
  }

  function ReadCommand(b: Bytes): Option<string> {
    match PayloadOf(TEXT_COMMAND, b)
    case None => None
    case Some(p) => Decode(p)
  }

  function IndexOf(s: string, c: char): (i: nat)
    ensures i <= |s| && (forall k :: 0 <= k < i ==> s[k] != c) && (i < |s| ==> s[i] == c)
  {
    if s == "" || s[0] == c then 0 else 1 + IndexOf(s[1..], c)
  }

  /** The group up to the first closing brace, and the text after it. */
  function ReadMessage(b: Bytes): Option<(string, string)> {
    match ReadCommand(b)
    case None => None
    case Some(m) =>
      if |m| > 0 && m[0] == '{' && IndexOf(m, '}') < |m| then Some((m[1..IndexOf(m, '}')], m[IndexOf(m, '}') + 1..]))
      else None
  }

  // ---------- What comes back ----------

  /** The first byte is the frame's length, which therefore fits a byte. */
  predicate LengthPrefixed(b: Bytes) {
    2 <= |b| <= 255 && b[0] == |b|
  }

  lemma PrefixedReads(text: string, rest: Bytes)
    requires Prefixed(text).Some?
    ensures ReadText(Prefixed(text).value + rest) == Some((text, rest))
  {
    hide Encode, Decode;
    var b := Prefixed(text).value + rest;
    assert b[1..1 + b[0] as nat] == Encode(text);
    assert b[1 + b[0] as nat..] == rest;
    DecodeInvertsEncode(text);
  }

  lemma {:induction false} LittleEndianReads(n: nat, k: nat)
    requires n < Power(k)
    ensures FromLittleEndian(LittleEndian(n, k)) == n
  {
    if k == 0 {
    } else {
      LittleEndianReads(n / 256, k - 1);
      assert LittleEndian(n, k)[1..] == LittleEndian(n / 256, k - 1);
    }
  }

  function Power(k: nat): nat {
    if k == 0 then 1 else 256 * Power(k - 1)
  }

  lemma FourBytes()
    ensures Power(4) == TWO_32
  {
    assert Power(2) == 0x1_0000;
  }

  /** Every callsign of 1 to 9 characters is framed and read back; no length byte overflows. */
  lemma CallsignComesBack(connected: bool, callsign: string)
    ensures var sent := SetCallsign(connected, callsign);
      (sent.Frame? <==> connected && 1 <= |callsign| <= MAX_CALLSIGN_LEN) && !sent.OverflowError?
    ensures var sent := SetCallsign(connected, callsign);
      sent.Frame? ==> LengthPrefixed(sent.bytes) && |sent.bytes| <= 39 && ReadCallsign(sent.bytes) == Some(callsign)
  {
    hide Encode, ReadText;
    if connected && 1 <= |callsign| <= MAX_CALLSIGN_LEN {
      var payload := Prefixed(callsign).value;
      PrefixedReads(callsign, []);
      assert payload + [] == payload;
      assert SetCallsign(connected, callsign).bytes[2..] == payload;
    }
  }

  /** Credentials are framed exactly if their characters and their bytes stay within the limits, and are read back. */
  lemma WifiComesBack(connected: bool, ssid: string, password: string)
    ensures var sent := SetWifi(connected, ssid, password);
      (sent.Frame? <==>
        connected && 1 <= |ssid| <= MAX_SSID_LEN && |password| <= MAX_WIFI_PASSWORD_LEN
        && |Encode(ssid)| + |Encode(password)| + 4 <= BLE_MTU_LIMIT) && !sent.OverflowError?
    ensures var sent := SetWifi(connected, ssid, password);
      sent.Frame? ==> LengthPrefixed(sent.bytes) && ReadWifi(sent.bytes) == Some((ssid, password))
  {
    hide Encode, ReadText;
    var sent := SetWifi(connected, ssid, password);
    if sent.Frame? {
      var name, secret := Prefixed(ssid).value, Prefixed(password).value;
      PrefixedReads(ssid, secret);
      PrefixedReads(password, []);
      assert secret + [] == secret;
      assert sent.bytes[2..] == name + secret;
    }
  }

  /** The length byte before a name or password within the character limits never overflows. */
  lemma InnerLengthsFit(ssid: string, password: string)
    requires |ssid| <= MAX_SSID_LEN && |password| <= MAX_WIFI_PASSWORD_LEN
    ensures Prefixed(ssid).Some? && Prefixed(password).Some?
  {
  }

  lemma AltitudeComesBack(connected: bool, altitude: int, save: bool)
    ensures var sent := SetAltitude(connected, altitude, save);
      sent.Frame? <==> connected && -1000 <= altitude <= 10000
    ensures var sent := SetAltitude(connected, altitude, save);
      sent.Frame? ==> LengthPrefixed(sent.bytes) && ReadAltitude(sent.bytes) == Some((altitude, save))
  {
    hide LittleEndian, FromLittleEndian, Power;
    if connected && -1000 <= altitude <= 10000 {
      FourBytes();
      LittleEndianReads(Unsigned(altitude), 4);
      var payload := LittleEndian(Unsigned(altitude), 4) + [if save then SAVE_TO_FLASH else RAM_ONLY];
      assert SetAltitude(connected, altitude, save).bytes[2..] == payload;
      assert payload[..4] == LittleEndian(Unsigned(altitude), 4);
    }
  }

  lemma TimeComesBack(now: nat)
    ensures TimeSync(now).Frame? <==> now < TWO_32
    ensures TimeSync(now).Frame? ==> LengthPrefixed(TimeSync(now).bytes) && ReadTime(TimeSync(now).bytes) == Some(now)
  {
    hide LittleEndian, FromLittleEndian, Power;
    if now < TWO_32 {
      FourBytes();
      LittleEndianReads(now, 4);
      assert TimeSync(now).bytes[2..] == LittleEndian(now, 4);
    }
  }

  /** One character that fits a byte. */
  predicate IsByte(s: string) {
    |s| == 1 && s[0] as nat < 256
  }

  /** Single-character symbols come back; those beyond one byte are refused. */
  lemma SymbolsComeBack(connected: bool, primary: string, secondary: string)
    ensures var sent := SetAprsSymbols(connected, primary, secondary);
      sent.Frame? <==> connected && IsByte(primary) && IsByte(secondary)
    ensures var sent := SetAprsSymbols(connected, primary, secondary);
      sent.Frame? ==> LengthPrefixed(sent.bytes) && ReadSymbols(sent.bytes) == Some((primary[0], secondary[0]))
  {
  }

  lemma CommandComesBack(command: string)
    ensures SendCommand(command).Frame? <==> |Encode(command)| <= 253
    ensures !SendCommand(command).OverflowError?
    ensures SendCommand(command).Frame? ==>
      LengthPrefixed(SendCommand(command).bytes) && ReadCommand(SendCommand(command).bytes) == Some(command)
  {
    hide Encode, Decode;
    if |Encode(command)| <= 253 {
      DecodeInvertsEncode(command);
      assert SendCommand(command).bytes[2..] == Encode(command);
    }
  }

  /** A message comes back with its group exactly if the group holds no closing brace. */
  lemma MessageComesBack(text: string, group: string)
    requires SendMessage(text, group).Frame?
    ensures ReadMessage(SendMessage(text, group).bytes) == Some((group, text)) <==> '}' !in group
  {
    hide Encode, Decode;
    var m := "{" + group + "}" + text;
    CommandComesBack(m);
    var i := IndexOf(m, '}');
    assert m[1 + |group|] == '}' && m[0] == '{';
    assert forall k :: 0 <= k < |group| ==> m[1 + k] == group[k];
    assert i <= 1 + |group|;
    if '}' in group {
      var k :| 0 <= k < |group| && group[k] == '}';
      assert m[1 + k] == '}';
      assert |m[1..i]| < |group|;
    } else {
      assert i == 1 + |group|;
      assert m[1..i] == group && m[i + 1..] == text;
    }
  }

  /** Either hello names its own length and starts with the same three bytes. */
  lemma HelloIsLengthPrefixed(pin: int, sha256: Bytes -> Bytes)
    requires forall b :: |sha256(b)| == 32
    ensures LengthPrefixed(BuildHello(pin, sha256)) && BuildHello(pin, sha256)[1..4] == HELLO
  {
  }

  function Value(s: string): nat
    requires forall k :: 0 <= k < |s| ==> '0' <= s[k] <= '9'
  {
    if s == "" then 0 else 10 * Value(s[..|s| - 1]) + (s[|s| - 1] as nat - '0' as nat)
  }

  function Power10(k: nat): nat {
    if k == 0 then 1 else 10 * Power10(k - 1)
  }

  lemma ValueOfAppend(head: string, last: char)
    requires (forall k :: 0 <= k < |head| ==> '0' <= head[k] <= '9') && '0' <= last <= '9'
    ensures forall k :: 0 <= k < |head + [last]| ==> '0' <= (head + [last])[k] <= '9'
    ensures Value(head + [last]) == 10 * Value(head) + (last as nat - '0' as nat)
  {
    assert (head + [last])[..|head|] == head;
  }

  lemma DigitsStep(n: nat, width: nat)
    requires n > 0 || width > 0
    ensures Digits(n, width) ==
      Digits(n / 10, if width == 0 then 0 else width - 1) + [('0' as int + n % 10) as char]
  {
  }

  /** What is hashed are the PIN's decimal digits, padded to the width, so that no two PINs are hashed alike. */
  lemma {:induction false} DigitsOf(n: nat, width: nat)
    ensures forall k :: 0 <= k < |Digits(n, width)| ==> '0' <= Digits(n, width)[k] <= '9'
    ensures Value(Digits(n, width)) == n
    ensures n < Power10(width) ==> |Digits(n, width)| == width
    decreases n, width
  {
    if n == 0 && width == 0 {
    } else {
      hide Value, Digits;
      var w := if width == 0 then 0 else width - 1;
      DigitsStep(n, width);
      DigitsOf(n / 10, w);
      ValueOfAppend(Digits(n / 10, w), ('0' as int + n % 10) as char);
    }
  }

  // ---------- On the wire, byte by byte ----------

  /** Length, 0x50, the callsign's own length, the callsign; nothing is sent unconnected. */
  lemma CallsignLayout(connected: bool, callsign: string)
    ensures SetCallsign(connected, callsign).RuntimeError? <==> !connected
    ensures var e := Encode(callsign);
      connected && 1 <= |callsign| <= 9 ==>
        SetCallsign(connected, callsign) == Frame([|e| + 3, 0x50, |e|] + e)
  {
    hide Encode;
    var e := Encode(callsign);
    if connected && 1 <= |callsign| <= 9 {
      assert [|e| + 3, 0x50] + ([|e|] + e) == [|e| + 3, 0x50, |e|] + e;
    }
  }

  lemma Joined(head: Bytes, a: Bytes, b: Bytes, c: Bytes, d: Bytes)
    ensures head + (a + b + (c + d)) == head + a + b + c + d
  {
  }

  /** Length, 0x55, then name and password, each behind its own length. */
  lemma WifiLayout(connected: bool, ssid: string, password: string)
    ensures SetWifi(connected, ssid, password).RuntimeError? <==> !connected
    ensures var n, p := Encode(ssid), Encode(password);
      connected && 1 <= |ssid| <= 32 && |password| <= 63 && |n| + |p| <= 243 ==>
        SetWifi(connected, ssid, password) == Frame([|n| + |p| + 4, 0x55] + [|n|] + n + [|p|] + p)
  {
    hide Encode;
    var n, p := Encode(ssid), Encode(password);
    if connected && 1 <= |ssid| <= 32 && |password| <= 63 && |n| + |p| <= 243 {
      Joined([|n| + |p| + 4, 0x55], [|n|], n, [|p|], p);
    }
  }

  /** Four bytes, the lowest first, worth a number. */
  predicate Worth(b: Bytes, n: nat) {
    |b| == 4 && n == b[0] as nat + 0x100 * b[1] as nat + 0x1_0000 * b[2] as nat + 0x100_0000 * b[3] as nat
  }

  lemma LittleEndianIsWorth(n: nat)
    requires n < 0x1_0000_0000
    ensures Worth(LittleEndian(n, 4), n)
  {
    var b := LittleEndian(n, 4);
    var n1, n2, n3 := n / 256, n / 256 / 256, n / 256 / 256 / 256;
    assert LittleEndian(n3, 1) == [n3 % 256];
    assert LittleEndian(n2, 2) == [n2 % 256, n3 % 256];
    assert LittleEndian(n1, 3) == [n1 % 256, n2 % 256, n3 % 256];
    assert b == [n % 256, n1 % 256, n2 % 256, n3 % 256];
  }

  /** 7, 0x90, the altitude as four bytes in two's complement, and 0x0A to keep it or 0x0B not to. */
  lemma AltitudeLayout(connected: bool, altitude: int, save: bool)
    ensures SetAltitude(connected, altitude, save).RuntimeError? <==> !connected
    ensures connected && -1000 <= altitude <= 10000 ==>
      exists b :: Worth(b, if altitude >= 0 then altitude else 0x1_0000_0000 + altitude) &&
        SetAltitude(connected, altitude, save) == Frame([7, 0x90] + b + [if save then 0x0A else 0x0B])
  {
    hide LittleEndian, Worth;
    if connected && -1000 <= altitude <= 10000 {
      LittleEndianIsWorth(Unsigned(altitude));
      var b := LittleEndian(Unsigned(altitude), 4);
      var flag: Byte := if save then 0x0A else 0x0B;
      assert [7, 0x90] + (b + [flag]) == [7, 0x90] + b + [flag];
    }
  }

  /** 6, 0x20, and the time as four bytes. */
  lemma TimeLayout(now: nat)
    requires now < 0x1_0000_0000
    ensures exists b :: Worth(b, now) && TimeSync(now) == Frame([6, 0x20] + b)
  {
    hide LittleEndian, Worth;
    LittleEndianIsWorth(now);
  }

  lemma SymbolsLayout(connected: bool, primary: string, secondary: string)
    ensures SetAprsSymbols(connected, primary, secondary).RuntimeError? <==> !connected
    ensures connected && IsByte(primary) && IsByte(secondary) ==>
      SetAprsSymbols(connected, primary, secondary) == Frame([4, 0x95, primary[0] as nat, secondary[0] as nat])
  {
  }

  /** Length, 0xA0, the command; a message is a command of the group in braces and the text. */
  lemma CommandLayout(command: string, text: string, group: string)
    ensures var e := Encode(command);
      SendCommand(command) == if |e| <= 253 then Frame([|e| + 2, 0xA0] + e) else ValueError
    ensures SendMessage(text, group) == SendCommand("{" + group + "}" + text)
  {
    hide Encode;
  }

  /** 4, 0x10, 0x20, 0x30 without a PIN; with one, 36, the same three bytes, and the hash of its six digits. */
  lemma HelloLayout(pin: int, sha256: Bytes -> Bytes)
    ensures pin <= 0 ==> BuildHello(pin, sha256) == [4, 0x10, 0x20, 0x30]
    ensures pin > 0 ==> BuildHello(pin, sha256) == [36, 0x10, 0x20, 0x30] + sha256(Encode(Digits(pin, 6)))
  {
    hide Encode, Digits;
  }
}
