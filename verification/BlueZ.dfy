/**
 What BlueZ answers during `ensure_connected`, and what comes of it when nothing else strikes
 (ble_service/src/ble_adapter.py:973-1048, ble_service/src/ble_adapter.py:1238-1273,
 ble_service/src/ble_adapter.py:1837-2243).
 */
module BlueZ {
  import opened Options
  import opened DBusErrors

  datatype Stage = AlreadyConnected | StageConnected | StageConnect | StagePair | StageGatt | StageGattPostPair

  datatype Result = Result(success: bool, stage: Stage, errorName: Option<string>, errorText: Option<string>)
  {
    /** Every failure names its cause. */
    predicate FailsAt(stages: set<Stage>) {
      !success && stage in stages && errorName.Some? && errorName.value != "" && errorText.Some?
    }
  }

  /** An exception may escape from a scan or an introspection instead of becoming a result. */
  datatype Outcome<+T> = Returned(value: T) | Escaped(error: Exn)

  function Text(e: Exn): string {
    match e
    case DBus(_, text) => text
    case Connection(text, _) => text
    case Timeout => ""
    case Python(_, text) => text
  }

  function Failure(stage: Stage, e: Exn): (r: Result)
    ensures r.FailsAt({stage})
  {
    Result(false, stage, Some(Name(e)), Some(Text(e)))
  }

  const CONNECTED := Result(true, StageConnected, None, None)

  const ALREADY := Result(true, AlreadyConnected, None, None)

  const NOT_CONNECTED := Python("RuntimeError", "Not connected")

  /** What working on a proxy raises that a drop has taken away. */
  const LOST_PROXY := Python("AttributeError", "")

  const NO_INTERFACE := Python("InterfaceNotFoundError", "")

  /** The pairing that BlueZ accepted and that is not there. */
  const NOT_PAIRED :=
    Result(false, StagePair, Some("PairingNotEstablished"),
           Some("Pair() reported success but BlueZ still reports the device as not paired"))

  // ---------- Answers ----------

  /** On the way to `Device1.Connect`: what opening a bus and introspecting raise, and which interfaces there are. */
  datatype Reaching = Reaching(
    bus: Option<Exn>, introspection: Option<Exn>, hasDevice: bool, hasProps: bool, stale: bool)

  /** After it: what waiting for the services raises, and what is found. */
  datatype Discovery = Discovery(
    waiting: Option<Exn>, resolved: bool, late: bool, readFound: bool, writeFound: bool, hasReadProps: bool)

  datatype ConnectAnswers = ConnectAnswers(reaching: Reaching, raised: Option<Exn>, discovery: Discovery)

  datatype ScanAnswers = ScanAnswers(bus: Option<Exn>, raised: Option<Exn>)

  /**
   To stale-bond recovery: the paired state as read, the way to the removal, the removal, the scan, and
   the last attempt.
   */
  datatype RecoveryAnswers = RecoveryAnswers(
    bus: Option<Exn>, paired: bool, reaching: Option<Exn>, removed: bool, scan: Option<Exn>, again: ConnectAnswers)

  /**
   To `start_notify`: what reading the state raises, whether it notifies already, what `StartNotify`
   raises, and whether the link falls meanwhile.
   */
  datatype NotifyAnswers = NotifyAnswers(reading: Option<Exn>, notifying: bool, raised: Option<Exn>, falls: bool)

  datatype PairAnswers = PairAnswers(
    reaching: Option<Exn>, hasDevice: bool, alreadyPaired: bool, raised: Option<Exn>, isPaired: bool)

  datatype Answers = Answers(
    first: ConnectAnswers, scan: ScanAnswers, again: ConnectAnswers, recovery: RecoveryAnswers,
    notify: NotifyAnswers, pairing: PairAnswers, resumed: NotifyAnswers)

  // ---------- What comes of them ----------

  /** What an attempt raises when `Device1.Connect` raises `e`. */
  function ConnectError(e: Exn): Exn {
    if e.Timeout? then Connection("Connection timeout after 10 seconds", Some(Timeout))
    else if e.DBus? && Contains(e.text, "In Progress") then Connection("Cleared stale BlueZ state, will retry", Some(e))
    else if e.DBus? then Connection("Connect failed: " + e.text, Some(e))
    else e
  }

  /** BlueZ has no object for the device; what the exception itself says is left out. */
  const UNKNOWN_DEVICE := Connection(DEVICE_NOT_FOUND + ": ", Some(NO_INTERFACE))

  /** `live` tells whether there is a bus already. */
  function BusError(live: bool, bus: Option<Exn>): Option<Exn> {
    if live then None else bus
  }

  function ReachError(a: Reaching, live: bool): Option<Exn> {
    if BusError(live, a.bus).Some? then a.bus
    else if a.introspection.Some? then a.introspection
    else if !a.hasDevice then Some(UNKNOWN_DEVICE)
    else if !a.hasProps then Some(NO_INTERFACE)
    else None
  }

  function DiscoveryError(d: Discovery): Option<Exn> {
    if d.waiting.Some? then d.waiting
    else if !d.resolved then Some(Connection("Services not resolved within timeout", None))
    else if d.late then Some(Connection("GATT characteristic discovery timeout", Some(Timeout)))
    else if !d.readFound || !d.writeFound then Some(Connection("Required GATT characteristics not found", None))
    else if !d.hasReadProps then Some(NO_INTERFACE)
    else None
  }

  function AttemptError(a: ConnectAnswers, live: bool): Option<Exn> {
    if ReachError(a.reaching, live).Some? then ReachError(a.reaching, live)
    else if a.raised.Some? then Some(ConnectError(a.raised.value))
    else DiscoveryError(a.discovery)
  }

  function ScanError(s: ScanAnswers, live: bool): Option<Exn> {
    if BusError(live, s.bus).Some? then s.bus else s.raised
  }

  /** The first attempt, and after a scan the second. */
  function FirstOutcome(a: Answers, live: bool): Outcome<Option<Exn>> {
    var e := AttemptError(a.first, live);
    if e.None? || !IsDeviceNotFound(e.value) then Returned(e)
    else if ScanError(a.scan, false).Some? then Escaped(ScanError(a.scan, false).value)
    else Returned(AttemptError(a.again, true))
  }

  /** Recovery is due: a user asked, and the failure looks like a stale bond. */
  predicate RecoveryIsDue(userInitiated: bool, e: Exn) {
    userInitiated && !IsPlainTimeout(e) && IsStaleBondSignature(e)
  }

  function RecoveryOutcome(userInitiated: bool, e: Exn, a: RecoveryAnswers): Outcome<Option<Exn>> {
    if !RecoveryIsDue(userInitiated, e) || a.bus.Some? || !a.paired then Returned(Some(e))
    else if a.reaching.Some? then Escaped(a.reaching.value)
    else if !a.removed then Returned(Some(e))
    else if a.scan.Some? then Escaped(a.scan.value)
    else
      match AttemptError(a.again, true)
      case None => Returned(None)
      case Some(x) => Returned(Some(Python("BondRecoveryReconnectError", Text(x))))
  }

  function ConnectOutcome(userInitiated: bool, a: Answers, live: bool): Outcome<Option<Exn>> {
    var first := FirstOutcome(a, live);
    if first.Escaped? || first.value.None? then first else RecoveryOutcome(userInitiated, first.value.value, a.recovery)
  }

  /**
   When a failure to connect keeps the bus open: recovery opened one to read the paired state,
   and the device was not paired, or was not removed.
   */
  predicate KeepsBus(userInitiated: bool, failure: Exn, a: RecoveryAnswers) {
    RecoveryIsDue(userInitiated, failure) && a.bus.None? && (!a.paired || !a.removed)
  }

  function NotifyError(up: bool, n: NotifyAnswers): Option<Exn> {
    if !up then Some(NOT_CONNECTED)
    else if n.reading.Some? then n.reading
    else if n.notifying then None
    else n.raised
  }

  /** `StartNotify` is called and the link falls while it is awaited. */
  predicate FallsDuring(n: NotifyAnswers) {
    n.reading.None? && !n.notifying && n.falls
  }

  /** The GATT layer asks for pairing first. */
  predicate NeedsPairing(n: NotifyAnswers) {
    NotifyError(true, n).Some? && IsGattSecurityError(NotifyError(true, n).value)
  }

  function PairOutcome(p: PairAnswers): Outcome<(bool, Option<Exn>)> {
    if p.reaching.Some? then Escaped(p.reaching.value)
    else if !p.hasDevice then Returned((false, Some(NO_INTERFACE)))
    else if !p.alreadyPaired && p.raised.Some? && !IsAlreadyPaired(p.raised.value) then Returned((false, p.raised))
    else Returned((p.isPaired, None))
  }

  /** `Pair` is called once if the device is there and not paired, and not at all otherwise. */
  function PairCalls(p: PairAnswers): nat {
    if p.reaching.None? && p.hasDevice && !p.alreadyPaired then 1 else 0
  }

  /** The result of pairing on demand and subscribing again. */
  function ResumeOutcome(up: bool, p: PairAnswers, resumed: NotifyAnswers): Outcome<Option<Result>> {
    match PairOutcome(p)
    case Escaped(e) => Escaped(e)
    case Returned((paired, error)) =>
      if !paired then Returned(Some(if error.Some? then Failure(StagePair, error.value) else NOT_PAIRED))
      else ResumedAs(NotifyError(up, resumed))
  }

  /** Subscribing after pairing, and what that raises. */
  function ResumedAs(e: Option<Exn>): Outcome<Option<Result>> {
    if e.None? then Returned(None) else Returned(Some(Failure(StageGattPostPair, e.value)))
  }

  /** The failure to become ready, if any, of a link that is up. */
  function ReadyOutcome(a: Answers): Outcome<Option<Result>> {
    match NotifyError(true, a.notify)
    case None => Returned(None)
    case Some(e) =>
      if IsGattSecurityError(e) then ResumeOutcome(!FallsDuring(a.notify), a.pairing, a.resumed)
      else Returned(Some(Failure(StageGatt, e)))
  }

  /** The link is up in the end, given that becoming ready succeeds. */
  predicate StaysUp(a: Answers) {
    !FallsDuring(a.notify) && (NeedsPairing(a.notify) ==> !FallsDuring(a.resumed))
  }

  /** What `ensure_connected` returns for a device it is not connected to, when nothing but BlueZ's answers happens. */
  function EnsureOutcome(userInitiated: bool, a: Answers, live: bool): Outcome<Result> {
    match ConnectOutcome(userInitiated, a, live)
    case Escaped(e) => Escaped(e)
    case Returned(Some(e)) => Returned(Failure(StageConnect, e))
    case Returned(None) => ReadyResult(ReadyOutcome(a))
  }

  function ReadyResult(r: Outcome<Option<Result>>): Outcome<Result> {
    if r.Escaped? then Escaped(r.error) else Returned(if r.value.Some? then r.value.value else CONNECTED)
  }

  /** What the pair operation returns. */
  function PairResult(p: PairAnswers): Outcome<bool> {
    match PairOutcome(p)
    case Escaped(e) => Escaped(e)
    case Returned((paired, _)) => Returned(paired)
  }

  /** What the unpair operation returns: only D-Bus errors of the removal are caught. */
  function UnpairResult(reaching: Option<Exn>, raised: Option<Exn>): Outcome<bool> {
    if reaching.Some? then Escaped(reaching.value)
    else if raised.None? then Returned(true)
    else if raised.value.DBus? then Returned(false)
    else Escaped(raised.value)
  }

  // ---------- What may come of them when the link goes ----------

  /** A failure to subscribe that pairing cannot mend: the very exception BlueZ raised, or that the link has gone. */
  predicate GattFailure(n: NotifyAnswers, r: Result) {
    || r == Failure(StageGatt, NOT_CONNECTED) || r == Failure(StageGatt, LOST_PROXY)
    || (NotifyError(true, n).Some? && !NeedsPairing(n) && r == Failure(StageGatt, NotifyError(true, n).value))
  }

  predicate IsGattFailure(r: Outcome<Option<Result>>) {
    r.Returned? && r.value.Some? && r.value.value.stage.StageGatt?
  }

  /** The outcome of subscribing again, whether or not the link goes. */
  predicate IsResumed(r: Outcome<Option<Result>>, resumed: NotifyAnswers) {
    r in {ResumedAs(NotifyError(true, resumed)), ResumedAs(Some(NOT_CONNECTED)), ResumedAs(Some(LOST_PROXY))}
  }

  /** The outcome of pairing and subscribing again, whether or not the link goes. */
  predicate FromResuming(r: Outcome<Option<Result>>, p: PairAnswers, resumed: NotifyAnswers) {
    || r == ResumeOutcome(true, p, resumed) || r == ResumeOutcome(false, p, resumed)
    || (PairOutcome(p) == Returned((true, None)) && r == Returned(Some(Failure(StageGattPostPair, LOST_PROXY))))
  }

  /** The outcome of becoming ready, whether or not the link goes: pairing is tried exactly if it was asked for. */
  predicate FromSubscribing(r: Outcome<Option<Result>>, a: Answers) {
    if IsGattFailure(r) then GattFailure(a.notify, r.value.value)
    else if NotifyError(true, a.notify).None? then r == Returned(None)
    else NeedsPairing(a.notify) && FromResuming(r, a.pairing, a.resumed)
  }

  lemma GoneIsNoSecurityError()
    ensures !IsGattSecurityError(NOT_CONNECTED) && !IsGattSecurityError(LOST_PROXY)
  {
  }

  // ---------- What can be said of the outcome before the call ----------

  /** All is well with the answers of an attempt. */
  predicate Connects(a: ConnectAnswers) {
    && a.reaching.bus.None? && a.reaching.introspection.None? && a.reaching.hasDevice && a.reaching.hasProps
    && a.raised.None?
    && a.discovery.waiting.None? && a.discovery.resolved && !a.discovery.late
    && a.discovery.readFound && a.discovery.writeFound && a.discovery.hasReadProps
  }

  /** An attempt fails exactly if something is not well with it. */
  lemma AttemptVerdict(a: ConnectAnswers, live: bool)
    ensures AttemptError(a, false).None? <==> Connects(a)
    ensures AttemptError(a, true).None? <==> Connects(a.(reaching := a.reaching.(bus := None)))
  {
  }

  /** Whatever `Device1.Connect` raises is told on: a timeout as one, a D-Bus error as the cause. */
  lemma ConnectErrorVerdict(e: Exn)
    ensures DBusCause(ConnectError(e)) == DBusCause(e)
    ensures IsPlainTimeout(ConnectError(e)) <==> IsPlainTimeout(e)
    ensures !e.DBus? && !e.Timeout? ==> ConnectError(e) == e
  {
    hide Contains;
  }

  /** Subscribing raises nothing. */
  predicate Subscribes(n: NotifyAnswers) {
    n.reading.None? && (n.notifying || n.raised.None?)
  }

  /** Subscribing raises an error that asks for pairing, in reading the state or in `StartNotify` itself. */
  ghost predicate RefusesUnpaired(n: NotifyAnswers) {
    if n.reading.Some? then SaysPairFirst(n.reading.value)
    else !n.notifying && n.raised.Some? && SaysPairFirst(n.raised.value)
  }

  lemma NotifyVerdict(n: NotifyAnswers)
    ensures NotifyError(true, n).None? <==> Subscribes(n)
    ensures NeedsPairing(n) <==> RefusesUnpaired(n)
  {
    hide IsGattSecurityError, SaysPairFirst;
    if n.reading.Some? {
      SecurityVerdict(n.reading.value);
    } else if n.raised.Some? {
      SecurityVerdict(n.raised.value);
    }
  }

  /** Pairing works out: `Pair` is called unless the device is paired already, and its word is not taken for it. */
  predicate Pairs(p: PairAnswers) {
    && p.reaching.None? && p.hasDevice && p.isPaired
    && (p.alreadyPaired || p.raised.None?
        || (p.raised.value.DBus? && p.raised.value.name == "org.bluez.Error.AlreadyExists"))
  }

  lemma PairVerdict(p: PairAnswers)
    ensures PairOutcome(p) == Returned((true, None)) <==> Pairs(p)
    ensures PairResult(p) == Returned(true) <==> Pairs(p)
    ensures Pairs(p) ==> PairCalls(p) == if p.alreadyPaired then 0 else 1
  {
  }

  /** Pairing works out, and so does subscribing afterwards. */
  predicate PairsAndResumes(a: Answers) {
    Pairs(a.pairing) && !FallsDuring(a.notify) && Subscribes(a.resumed)
  }

  /**
   With a first attempt that connects, the whole succeeds exactly if subscribing does, at once or after
   the pairing it asks for.
   */
  lemma SuccessVerdict(userInitiated: bool, a: Answers, live: bool)
    requires Connects(a.first)
    ensures EnsureOutcome(userInitiated, a, live) == Returned(CONNECTED) <==>
      Subscribes(a.notify) || (RefusesUnpaired(a.notify) && PairsAndResumes(a))
  {
    hide IsGattSecurityError, SaysPairFirst, IsDeviceNotFound, IsPlainTimeout, IsStaleBondSignature, Pairs, PairOutcome;
    NotifyVerdict(a.notify);
    NotifyVerdict(a.resumed);
    PairVerdict(a.pairing);
  }

  /** The link comes up, subscribing asks for pairing, and pairing helps. */
  ghost predicate PairingMends(a: Answers) {
    Connects(a.first) && RefusesUnpaired(a.notify) && PairsAndResumes(a) && !a.pairing.alreadyPaired
  }

  /** A link that subscribing finds unpaired is paired, by one call, and then is as good as any other. */
  lemma PairsOnDemand(userInitiated: bool, a: Answers, live: bool)
    requires PairingMends(a)
    ensures EnsureOutcome(userInitiated, a, live) == Returned(CONNECTED)
    ensures NeedsPairing(a.notify) && PairCalls(a.pairing) == 1
  {
    hide EnsureOutcome, RefusesUnpaired, NeedsPairing, Pairs;
    SuccessVerdict(userInitiated, a, live);
    NotifyVerdict(a.notify);
    PairVerdict(a.pairing);
  }

  /** A device BlueZ does not know is scanned for and tried once more; any other failure is not. */
  lemma ScanVerdict(a: Answers, live: bool)
    ensures var r := a.first.reaching;
      (live || r.bus.None?) && r.introspection.None? && !r.hasDevice ==>
        FirstOutcome(a, live) ==
          if a.scan.bus.Some? then Escaped(a.scan.bus.value)
          else if a.scan.raised.Some? then Escaped(a.scan.raised.value)
          else Returned(AttemptError(a.again, true))
    ensures var e := AttemptError(a.first, live);
      e.Some? && !(e.value.Connection? &&
                   exists pre, post :: e.value.text == pre + "Device not found or not paired" + post) ==>
        FirstOutcome(a, live) == Returned(e)
  {
    hide IsDeviceNotFound, ConnectError, DiscoveryError;
    var e := AttemptError(a.first, live);
    if e.Some? {
      NotFoundVerdict(e.value);
    }
    var unknown := "Device not found or not paired";
    assert UNKNOWN_DEVICE.text == "" + unknown + ": ";
    NotFoundVerdict(UNKNOWN_DEVICE);
  }

  /** Recovery succeeds exactly by a user's request, a stale bond, and everything on its way going well. */
  lemma RecoveryVerdict(userInitiated: bool, e: Exn, a: RecoveryAnswers)
    ensures RecoveryIsDue(userInitiated, e) <==>
      userInitiated && exists text ::
        e == DBus("org.bluez.Error.AuthenticationFailed", text) || WrapsAuthenticationFailure(e, text)
    ensures RecoveryOutcome(userInitiated, e, a) == Returned(None) <==>
      RecoveryIsDue(userInitiated, e) && a.bus.None? && a.paired && a.reaching.None? && a.removed && a.scan.None? &&
      Connects(a.again.(reaching := a.again.reaching.(bus := None)))
    ensures var last := AttemptError(a.again, true);
      RecoveryIsDue(userInitiated, e) && a.bus.None? && a.paired && a.reaching.None? && a.removed && a.scan.None?
      && last.Some? ==>
        RecoveryOutcome(userInitiated, e, a) == Returned(Some(Python("BondRecoveryReconnectError", Text(last.value))))
  {
    hide AttemptError, IsStaleBondSignature, IsPlainTimeout, Connects;
    TimeoutIsNoStaleBond(e);
    StaleBondVerdict(e);
    AttemptVerdict(a.again, true);
  }

  /** Pairing is tried exactly if the GATT layer asks for it. */
  lemma PairingVerdict(a: Answers)
    ensures ReadyOutcome(a).Returned? && ReadyOutcome(a).value.Some? ==>
      (ReadyOutcome(a).value.value.stage.StageGatt? <==> !NeedsPairing(a.notify))
  {
    hide IsGattSecurityError;
  }

  /** Whatever fails while connecting is what is returned, or what the last attempt of recovery failed with. */
  lemma FailureVerdict(userInitiated: bool, e: Exn, a: RecoveryAnswers)
    ensures KeepsBus(userInitiated, e, a) && a.reaching.None? ==>
      RecoveryOutcome(userInitiated, e, a) == Returned(Some(e))
    ensures var r := RecoveryOutcome(userInitiated, e, a);
      r.Returned? && r != Returned(Some(e)) ==> RecoveryIsDue(userInitiated, e) && a.bus.None? && a.paired && a.removed
  {
  }

  /** What a failure is reported as: where, by what name, with what words. */
  lemma ReportVerdict(stage: Stage, e: Exn)
    ensures Failure(stage, e) == match e
      case DBus(name, text) => Result(false, stage, Some(if name == "" then "DBusError" else name), Some(text))
      case Connection(text, _) => Result(false, stage, Some("ConnectionError"), Some(text))
      case Timeout => Result(false, stage, Some("TimeoutError"), Some(""))
      case Python(kind, text) => Result(false, stage, Some(if kind == "" then "Exception" else kind), Some(text))
  {
  }

  /** Unpairing succeeds exactly if the removal raises nothing, and fails exactly if it raises a D-Bus error. */
  lemma UnpairVerdict(reaching: Option<Exn>, raised: Option<Exn>)
    ensures UnpairResult(reaching, raised) == Returned(true) <==> reaching.None? && raised.None?
    ensures UnpairResult(reaching, raised) == Returned(false) <==>
      reaching.None? && raised.Some? && raised.value.DBus?
  {
  }
}
