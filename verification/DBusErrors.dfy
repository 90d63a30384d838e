/** The failures BlueZ and the adapter raise, and how they are told apart (ble_service/src/ble_adapter.py:139-337). */
module DBusErrors {
  import opened Options

  /** A D-Bus error, a `ConnectionError` with its cause, a timeout, or any other Python exception. */
  datatype Exn =
    | DBus(name: string, text: string)
    | Connection(text: string, cause: Option<Exn>)
    | Timeout
    | Python(kind: string, text: string)

  /** The name half of `_dbus_error_parts`: the D-Bus name, else the exception's type. */
  function Name(e: Exn): (n: string)
    ensures n != ""
  {
    match e
    case DBus(name, _) => if name == "" then "DBusError" else name
    case Connection(_, _) => "ConnectionError"
    case Timeout => "TimeoutError"
    case Python(kind, _) => if kind == "" then "Exception" else kind
  }

  predicate StandsAt(text: string, marker: string, i: nat) {
    i + |marker| <= |text| && text[i..i + |marker|] == marker
  }

  predicate Contains(text: string, marker: string) {
    exists i: nat :: i <= |text| && StandsAt(text, marker, i)
  }

  lemma NotInShortText(text: string, marker: string)
    requires |text| < |marker|
    ensures !Contains(text, marker)
  {
  }

  function LowerChar(c: char): char {
    if 'A' <= c <= 'Z' then (c as int + 32) as char else c
  }

  function Lower(text: string): string {
    seq(|text|, i requires 0 <= i < |text| => LowerChar(text[i]))
  }

  const DEVICE_NOT_FOUND := "Device not found or not paired"

  predicate IsDeviceNotFound(e: Exn) {
    e.Connection? && Contains(e.text, DEVICE_NOT_FOUND)
  }

  const GATT_SECURITY_NAMES: set<string> := {
    "org.bluez.Error.NotPermitted", "org.bluez.Error.NotAuthorized", "org.bluez.Error.NotPaired"
  }

  const GATT_SECURITY_MARKERS: set<string> := {
    "not permitted", "not authorized", "not paired", "insufficient authentication", "insufficient encryption"
  }

  /** A GATT failure that means "pair first". */
  predicate IsGattSecurityError(e: Exn) {
    e.DBus? && (e.name in GATT_SECURITY_NAMES || exists m :: m in GATT_SECURITY_MARKERS && Contains(Lower(e.text), m))
  }

  lemma SecurityErrorIsDBus(e: Exn)
    ensures IsGattSecurityError(e) ==> e.DBus?
  {
  }

  /** BlueZ's answer to pairing what is already paired. */
  predicate IsAlreadyPaired(e: Exn) {
    e.DBus? && e.name == "org.bluez.Error.AlreadyExists"
  }

  const STALE_BOND_NAME := "org.bluez.Error.AuthenticationFailed"

  /** The D-Bus error an exception is, or wraps. */
  function DBusCause(e: Exn): Option<Exn> {
    if e.DBus? then Some(e)
    else if e.Connection? && e.cause.Some? && e.cause.value.DBus? then e.cause
    else None
  }

  predicate IsStaleBondSignature(e: Exn) {
    DBusCause(e).Some? && DBusCause(e).value.name == STALE_BOND_NAME
  }

  predicate IsPlainTimeout(e: Exn) {
    e.Timeout? || (e.Connection? && e.cause.Some? && e.cause.value.Timeout?)
  }

  /** The two tests exclude each other, so the timeout gate never decides alone. */
  lemma TimeoutIsNoStaleBond(e: Exn)
    ensures !(IsPlainTimeout(e) && IsStaleBondSignature(e))
  {
  }

  // ---------- The same, by their names and words ----------

  /** A marker is contained in a text that has it in between. */
  lemma ContainsVerdict(text: string, marker: string)
    ensures Contains(text, marker) <==> exists pre, post :: text == pre + marker + post
  {
    if Contains(text, marker) {
      var i: nat :| i <= |text| && StandsAt(text, marker, i);
      assert text == text[..i] + marker + text[i + |marker|..];
    }
    forall pre, post | text == pre + marker + post ensures Contains(text, marker) {
      assert StandsAt(text, marker, |pre|);
    }
  }

  /** Lower case takes the 26 capital letters 32 places on, and leaves the rest. */
  lemma LowerVerdict(text: string)
    ensures |Lower(text)| == |text|
    ensures forall i :: 0 <= i < |text| && 65 <= text[i] as int <= 90 ==> Lower(text)[i] as int == text[i] as int + 32
    ensures forall i :: 0 <= i < |text| && !(65 <= text[i] as int <= 90) ==> Lower(text)[i] == text[i]
  {
  }

  /** The text has the phrase in it, in whatever case. */
  ghost predicate Says(text: string, phrase: string) {
    exists pre, post :: Lower(text) == pre + phrase + post
  }

  /** BlueZ asks for pairing, by one of three names or one of five phrases. */
  ghost predicate SaysPairFirst(e: Exn) {
    && e.DBus?
    && (e.name == "org.bluez.Error.NotPermitted" || e.name == "org.bluez.Error.NotAuthorized"
        || e.name == "org.bluez.Error.NotPaired"
        || Says(e.text, "not permitted") || Says(e.text, "not authorized") || Says(e.text, "not paired")
        || Says(e.text, "insufficient authentication") || Says(e.text, "insufficient encryption"))
  }

  lemma SecurityVerdict(e: Exn)
    ensures IsGattSecurityError(e) <==> SaysPairFirst(e)
  {
    hide Contains, Lower, Says;
    if e.DBus? {
      forall m | m in GATT_SECURITY_MARKERS ensures Contains(Lower(e.text), m) <==> Says(e.text, m) {
        SaysVerdict(e.text, m);
      }
    }
  }

  lemma SaysVerdict(text: string, m: string)
    ensures Contains(Lower(text), m) <==> Says(text, m)
  {
    hide Contains, Lower;
    ContainsVerdict(Lower(text), m);
  }

  lemma NotFoundVerdict(e: Exn)
    ensures IsDeviceNotFound(e) <==>
      e.Connection? && exists pre, post :: e.text == pre + "Device not found or not paired" + post
  {
    hide Contains;
    if e.Connection? {
      ContainsVerdict(e.text, "Device not found or not paired");
    }
  }

  lemma AlreadyPairedVerdict(e: Exn)
    ensures IsAlreadyPaired(e) <==> exists text :: e == DBus("org.bluez.Error.AlreadyExists", text)
  {
  }

  /** A stale bond shows as one D-Bus error, raised as it is or as the cause of a failed connect. */
  lemma StaleBondVerdict(e: Exn)
    ensures IsStaleBondSignature(e) <==> exists text ::
      e == DBus("org.bluez.Error.AuthenticationFailed", text) || WrapsAuthenticationFailure(e, text)
  {
    if IsStaleBondSignature(e) {
      var text := DBusCause(e).value.text;
      assert e == DBus("org.bluez.Error.AuthenticationFailed", text) || WrapsAuthenticationFailure(e, text);
    }
  }

  predicate WrapsAuthenticationFailure(e: Exn, text: string) {
    e.Connection? && e.cause == Some(DBus("org.bluez.Error.AuthenticationFailed", text))
  }
}
