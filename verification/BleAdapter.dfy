/**
 `BLEAdapter`: connecting, stale-bond recovery, on-demand pairing, teardown and the notify
 handler (ble_service/src/ble_adapter.py:556-1375, ble_service/src/ble_adapter.py:1740-2230).

 Every D-Bus call is an oracle: its outcome is chosen freely, and while it is awaited
 (`Suspend`) the link may drop, BlueZ may release the agent, and other tasks may run their
 own pieces of `start_notify`, reset the bus where they find the lock free, and take whatever
 step on lock and bus their own code stands at. `Act` makes every write of the lock and the bus.
 */
module BleAdapter {
  import opened Options
  import opened DBusErrors
  import opened BondMonitor
  import opened OperationLock
  import opened BlueZ
  import opened Session

  // ---------- Phases of an operation ----------

  /** During a connect attempt: no link is counted as up, and no task of an earlier session lives. */
  predicate Attempting(s: Session) {
    && Held(s) && s.mac.None? && !s.tasks.AnyLive()
    && (s.state.Connecting? || s.state.Disconnected?)
  }

  /** The link is up for `mac`, with the proxies a subscription needs and the tasks that keep it alive. */
  predicate Up(s: Session, mac: string) {
    && s.state.Connected? && s.mac == Some(mac) && s.gatt.readChar && s.gatt.readProps.Some?
    && Live(s.tasks.keepalive) && Live(s.tasks.dst)
  }

  /** The link dropped after it had come up. */
  predicate Fallen(s: Session) {
    s.state.Disconnected? && s.mac.None? && s.gatt == NO_GATT && s.world.dropsAtConnect < s.drops
  }

  predicate UpOrFallen(s: Session, mac: string) {
    Held(s) && (Up(s, mac) || Fallen(s))
  }

  /** The link is up or fallen; up, it has its handler unless others took one since they had taken `taken`. */
  predicate Subscribed(s: Session, mac: string, taken: nat) {
    UpOrFallen(s, mac) && (Up(s, mac) && s.others.taken == taken ==> s.notifyAttached)
  }

  predicate OneHandler(s: Session) {
    s.gatt.readProps.Some? && s.HandlersOn(s.gatt.readProps.value) == 1
  }

  /**
   The link is up, or fallen since it came up; it is up if it did not fall in the whole operation; and up
   it has its one handler unless others took handlers.
   */
  predicate EndsConnected(s: Session, mac: string, drops: nat, taken: nat) {
    && (Up(s, mac) || Fallen(s)) && (Up(s, mac) <==> s.world.dropsAtConnect == s.drops)
    && (s.drops == drops ==> Up(s, mac))
    && (Up(s, mac) && s.others.taken == taken ==> OneHandler(s))
  }

  predicate WellConnected(s: Session, mac: string) {
    Up(s, mac) && OneHandler(s)
  }

  /** Nothing of a session is left. */
  predicate Bare(s: Session) {
    s.lock.bus.None? && s.gatt == NO_GATT && s.mac.None? && !s.notifyAttached && !s.tasks.AnyLive()
  }

  /** Counters only grow while an operation runs, and nobody takes a handler in a calm one. */
  predicate Grows(a: Session, b: Session) {
    && a.drops <= b.drops && a.others.taken <= b.others.taken && (a.cancel ==> b.cancel)
    && b.calm == a.calm && (a.calm ==> b.others.taken == a.others.taken && b.cancel == a.cancel)
    && a.world.me == b.world.me
  }

  /** What a scan and an attempt after it add to the watch. */
  predicate ScannedThenSeen(m: Monitor, n: Monitor, r: Outcome<Option<Exn>>) {
    if r.Escaped? then n == m else ConnectSeen(Observe(m, ScanDone), n, r.value)
  }

  /** What a connect stage adds to the watch. */
  predicate ConnectSeen(m: Monitor, n: Monitor, r: Option<Exn>) {
    match r
    case None => n == Observe(m, ConnectCall)
    case Some(e) => n == Observe(m, ConnectFailed(e)) || n == Observe(Observe(m, ConnectCall), ConnectFailed(e))
  }

  /** The attempt of this number succeeds; the first may find a bus there already. */
  predicate WorksAt(answers: seq<ConnectAnswers>, k: nat, live: bool) {
    k < |answers| && AttemptError(answers[k], live && k == 0).None?
  }

  ghost predicate SomeAttemptWorks(answers: seq<ConnectAnswers>, live: bool) {
    exists k: nat :: WorksAt(answers, k, live)
  }

  lemma BoundaryIsOfTheSession(a: Session, b: Session)
    requires b == a.(lock := b.lock, cancel := b.cancel, world := b.world)
    ensures AtBoundary(a) == AtBoundary(b)
  {
  }

  /** The link is up or fallen, and no task of a fallen one sleeps on. */
  predicate AtRest(s: Session, mac: string) {
    && (UpOrFallen(s, mac) || (AtBoundary(s) && s.state.Connected?))
    && (!s.state.Connected? ==> !s.tasks.keepalive.Sleeping? && !s.tasks.dst.Sleeping?)
  }

  /** Leaving the lock after a connect. */
  lemma AfterConnect(a: Session, b: Session, mac: string, ok: bool)
    requires b == a.(lock := b.lock)
    ensures Up(a, mac) == Up(b, mac) && Fallen(a) == Fallen(b) && AtBoundary(a) == AtBoundary(b)
    ensures AtRest(a, mac) ==> AtBoundary(Happened(b, TasksRun))
  {
    hide Sound, Held;
  }

  /** Holding the lock or not does not change what a session is. */
  lemma LockIsNoMatter(a: Session, b: Session, mac: string)
    requires b == a.(lock := b.lock)
    ensures Up(a, mac) == Up(b, mac) && Fallen(a) == Fallen(b) && OneHandler(a) == OneHandler(b)
    ensures WellConnected(a, mac) == WellConnected(b, mac) && AtBoundary(a) == AtBoundary(b)
    ensures forall drops: nat, taken: nat :: EndsConnected(a, mac, drops, taken) == EndsConnected(b, mac, drops, taken)
  {
  }

  /** What pairing adds to the watch. */
  function AfterPairing(m: Monitor, p: PairAnswers): Monitor {
    if PairCalls(p) == 1 then Observe(m, PairCall) else m
  }

  class BLEAdapter {
    var state: LinkState
    var connectedMac: Option<string>
    var gatt: Gatt
    var tasks: Tasks
    var bus: Option<nat>
    var locked: bool
    var agentRegistered: bool
    var notifyAttached: bool
    var cancelConnect: bool
    // Facts about the world outside, kept to state what happens to it
    var inside: map<Actor, Place>
    var handlers: map<nat, nat>
    var drops: nat
    var others: Others
    var world: World
    const calm: bool

    function S(): (s: Session)
      reads this
    {
      Session(state, connectedMac, gatt, tasks, Lock(locked, inside, bus), agentRegistered,
              notifyAttached, handlers, drops, others, cancelConnect, calm, world)
    }

    constructor (calm: bool)
      ensures S() == Start(calm) && Sound(S()) && AtBoundary(S())
    {
      this.calm := calm;
      state, connectedMac, gatt, tasks := Disconnected, None, NO_GATT, NO_TASKS;
      bus, locked, inside := None, false, map[];
      agentRegistered, notifyAttached, cancelConnect := false, false, false;
      handlers, drops, others := map[], 0, Others(map[], 0);
      world := World(Other(0), 0, 0, {}, 0, 0, Watching(false), []);
    }

    // ---------- Events ----------

    /** `_on_disconnect_detected` */
    method OnDisconnectDetected()
      modifies this
      ensures S() == Drop(old(S()))
    {
      if state.Disconnected? {
        return;
      }
      state := Disconnected;
      connectedMac := None;
      tasks := NO_TASKS;
      gatt := NO_GATT;
      notifyAttached := false;
      drops := drops + 1;
    }

    /** `_on_agent_released` */
    method OnAgentReleased()
      modifies this`agentRegistered
      ensures S() == AgentGone(old(S()))
    {
      agentRegistered := false;
    }

    /** `reset_bus`, which takes no lock: its caller looked whether it is free. */
    method DropStaleBus()
      requires !locked
      modifies this`bus, this`agentRegistered
      ensures S() == ResetBus(old(S()))
    {
      bus := None;
      agentRegistered := false;
    }

    /** The piece of `start_notify` that attaches the handler, once per proxy. */
    method AttachNotifyHandler()
      requires gatt.readProps.Some?
      modifies this`notifyAttached, this`handlers
      ensures S() == Attach(old(S()))
    {
      if !notifyAttached {
        handlers := handlers[gatt.readProps.value := S().HandlersOn(gatt.readProps.value) + 1];
        notifyAttached := true;
      }
    }

    /** `_detach_notify_handler` */
    method DetachNotifyHandler()
      modifies this`notifyAttached, this`handlers
      ensures S() == Detach(old(S()))
    {
      if notifyAttached && gatt.readProps.Some? && S().HandlersOn(gatt.readProps.value) > 0 {
        handlers := handlers[gatt.readProps.value := S().HandlersOn(gatt.readProps.value) - 1];
      }
      notifyAttached := false;
    }

    /** An event by somebody else. */
    method Happens(e: Event)
      requires CanHappen(S(), e)
      modifies this
      ensures S() == Happened(old(S()), e)
    {
      match e
      case LinkDrops => OnDisconnectDetected();
      case AgentReleased => OnAgentReleased();
      case TasksRun => tasks := RunTasks(tasks, state.Connected?);
      case BusReset => if !locked { DropStaleBus(); }
      case _ => BecomeSession(Happened(S(), e));
    }

    method BecomeSession(n: Session)
      requires n.calm == calm
      modifies this
      ensures S() == n
    {
      BecomeLink(n);
      bus, locked, inside := n.lock.bus, n.lock.locked, n.lock.inside;
      agentRegistered, cancelConnect, world := n.agentRegistered, n.cancel, n.world;
    }

    method BecomeLink(n: Session)
      modifies this`state, this`connectedMac, this`gatt, this`tasks, this`notifyAttached, this`handlers
      modifies this`drops, this`others
      ensures S() == old(S()).(state := n.state, mac := n.mac, gatt := n.gatt, tasks := n.tasks,
        notifyAttached := n.notifyAttached, handlers := n.handlers, drops := n.drops, others := n.others)
    {
      state, connectedMac, gatt, tasks := n.state, n.mac, n.gatt, n.tasks;
      notifyAttached, handlers, drops, others := n.notifyAttached, n.handlers, n.drops, n.others;
    }

    /**
     An `await`: anything by anybody else in any order, then the created tasks have run, and a disconnect
     request may have come.
     */
    method Suspend()
      requires Sound(S()) && world.me in inside
      modifies this
      ensures Sound(S()) && Suspended(old(S()), S())
      ensures drops == old(drops) ==> tasks == RunTasks(old(tasks), state.Connected?)
    {
      hide Watch, Exclusive, CanHappen, Happened;
      var n: nat := *;
      while n > 0
        invariant Sound(S()) && Suspended(old(S()), S())
      {
        var e: Event := *;
        if !calm && CanHappen(S(), e) && !IsBy(e, world.me) {
          SuspensionGrows(old(S()), S(), e);
          Happens(e);
        }
        n := n - 1;
      }
      tasks := RunTasks(tasks, state.Connected?);
    }

    /** Recording a BlueZ operation. */
    method Note(op: Op)
      requires Sound(S())
      modifies this`world
      ensures Sound(S())
      ensures S() == old(S()).(world := world)
      ensures world == old(world).(monitor := Observe(old(world.monitor), op), trace := old(world.trace) + [op])
    {
      WatchAppend(world.trace, op, world.monitor.userInitiated);
      world := world.(monitor := Observe(world.monitor, op), trace := world.trace + [op]);
    }

    /** A step of the operation itself on lock and bus; nothing else of the operation writes them. */
    method Act(m: Move)
      requires MayMove(S(), world.me, m)
      modifies this`bus, this`locked, this`inside, this`gatt, this`connectedMac, this`notifyAttached
      modifies this`agentRegistered, this`world
      ensures S() == Moved(old(S()), old(world.me), m)
      ensures world.me == old(world.me)
    {
      hide Do, May, Sound, Exclusive;
      StepOnLock(m);
      if m.Open? {
        world := world.(nextBus := m.newBus + 1);
      } else if m.StartRegistering? {
        world := world.(registrations := world.registrations + 1);
      } else if m.DropBus? {
        gatt, connectedMac, notifyAttached, agentRegistered := NO_GATT, None, false, false;
      }
    }

    method StepOnLock(m: Move)
      requires MayMove(S(), world.me, m)
      modifies this`bus, this`locked, this`inside
      ensures S() == old(S()).(lock := Do(old(S().lock), world.me, m))
    {
      hide Do, Sound, Exclusive;
      var lock := Do(Lock(locked, inside, bus), world.me, m);
      locked, inside, bus := lock.locked, lock.inside, lock.bus;
    }

    /** Inside `async with self._operation_lock`. */
    method Enter(me: Actor)
      requires Sound(S()) && !locked
      modifies this
      ensures Held(S()) && world.me == me
      ensures old(S().lock) == Lock(false, map[], bus) && S().lock == Lock(true, map[me := Holding], bus)
      ensures S() == old(S()).(lock := S().lock, world := old(world).(me := me)) && bus == old(bus)
    {
      hide Watch, Exclusive;
      FreeLockIsEmpty(S().lock);
      world := world.(me := me);
      Act(Acquire);
    }

    /** And out of it. */
    method Leave()
      requires Held(S())
      modifies this
      ensures Sound(S()) && S().lock == Lock(false, map[], bus)
      ensures S() == old(S()).(lock := S().lock) && bus == old(bus)
    {
      hide Watch, Exclusive;
      Act(Release);
      FreeLockIsEmpty(S().lock);
    }

    // ---------- Bus and agent ----------

    /** `_ensure_bus`: a live bus, and another try at registering the agent whenever none is registered. */
    method EnsureBus(raises: Option<Exn>) returns (r: Option<Exn>)
      requires Held(S())
      modifies this
      ensures Held(S()) && LinkKept(old(S()), S()) && SameWatch(old(S()), S())
      ensures r == BusError(old(bus).Some?, raises)
      ensures bus.Some? <==> r.None?
      ensures old(bus).Some? ==> bus == old(bus)
      ensures r.None? && !old(agentRegistered) ==> world.registrations == old(world.registrations) + 1
    {
      hide Watch, Exclusive;
      if bus.None? {
        Act(StartOpening);
        Suspend();
        if raises.Some? {
          Act(FailOpening);
          return raises;
        }
        Act(Open(world.nextBus));
      }
      if !agentRegistered {
        var introspected, accepted, isDefault: bool := *, *, *;
        RegisterAgent(introspected, accepted, isDefault);
      }
      return None;
    }

    /**
     `_register_agent` on the live bus: the flag is set exactly if all three calls work; a failure is
     logged and forgotten.
     */
    method RegisterAgent(introspected: bool, accepted: bool, isDefault: bool)
      requires Held(S()) && bus.Some? && !agentRegistered
      modifies this
      ensures Held(S()) && LinkKept(old(S()), S()) && SameWatch(old(S()), S()) && bus == old(bus)
      ensures agentRegistered <==> introspected && accepted && isDefault
      ensures world.registrations == old(world.registrations) + 1
    {
      hide Watch, Exclusive;
      Act(StartRegistering);
      RegisterOnBus(introspected, accepted, isDefault);
      Act(EndRegistering);
    }

    /** The first of the calls that register the agent. */
    method IssueRegister()
      requires Sound(S()) && world.me in inside && inside[world.me].Registering?
      modifies this`world
      ensures Sound(S()) && S() == Issue(old(S()), old(world.me)) && LinkKept(old(S()), S()) && SameWatch(old(S()), S())
      ensures world.me == old(world.me) && inside[world.me].on in world.agentBuses
    {
      hide Watch;
      world := world.(agentBuses := world.agentBuses + {inside[world.me].on});
    }

    /** The three calls to BlueZ, each on the bus taken at the start. */
    method RegisterOnBus(introspected: bool, accepted: bool, isDefault: bool)
      requires !agentRegistered && Sound(S()) && world.me in inside && inside[world.me].Registering?
      modifies this
      ensures Sound(S()) && LinkKept(old(S()), S()) && SameWatch(old(S()), S())
      ensures bus == old(bus) && locked == old(locked) && inside == old(inside)
      ensures world.registrations == old(world.registrations)
      ensures agentRegistered <==> introspected && accepted && isDefault
    {
      hide Watch, Exclusive;
      ghost var before := S();
      Suspend();
      if !introspected {
        return;
      }
      IssueRegister();
      ghost var issued := S();
      Suspend();
      LinkKeptTwice(before, issued, S());
      if !accepted {
        return;
      }
      ghost var requested := S();
      Suspend();
      LinkKeptTwice(before, requested, S());
      if isDefault {
        ConfirmRegistered();
      }
    }

    /** The agent is registered, on the bus the calls were made on. */
    method ConfirmRegistered()
      requires Sound(S()) && world.me in inside && inside[world.me].Registering?
      requires inside[world.me].on in world.agentBuses
      modifies this`agentRegistered
      ensures S() == Confirm(old(S()), world.me)
    {
      agentRegistered := true;
    }

    // ---------- Connecting ----------

    /** A suspension inside a connect attempt. */
    method SuspendAttempt()
      requires Attempting(S()) && gatt.readProps.None?
      modifies this
      ensures Attempting(S()) && gatt.readProps.None? && (gatt == old(gatt) || gatt == NO_GATT)
      ensures Grows(old(S()), S()) && world == old(world) && bus == old(bus)
      ensures calm ==> gatt == old(gatt)
    {
      hide Watch, Sound;
      Suspend();
    }

    /** Everything of `_attempt_connection` up to the answer of `Device1.Connect`. */
    method CallConnect(a: ConnectAnswers) returns (r: Option<Exn>)
      requires Attempting(S()) && gatt == NO_GATT
      modifies this
      ensures Attempting(S()) && gatt.readProps.None? && Grows(old(S()), S())
      ensures r.None? ==> world.monitor == Observe(old(world.monitor), ConnectCall) && bus.Some?
      ensures world.monitor == old(world.monitor) || world.monitor == Observe(old(world.monitor), ConnectCall)
      ensures calm && r.None? ==> a.raised.None? && ReachError(a.reaching, old(bus).Some?).None? && gatt.props
      ensures calm && r.Some? ==> r == AttemptError(a, old(bus).Some?)
    {
      hide Watch, Observe, ConnectError, DiscoveryError, ReachError, Exclusive;
      r := ReachConnect(a.reaching);
      if r.Some? {
        return;
      }
      Note(ConnectCall);
      SuspendAttempt();
      if a.raised.Some? {
        if a.raised.value.DBus? && Contains(a.raised.value.text, "In Progress") {
          SuspendAttempt();
        }
        r := Some(ConnectError(a.raised.value));
      }
    }

    /** Everything of `_attempt_connection` before `Device1.Connect`. */
    method ReachConnect(a: Reaching) returns (r: Option<Exn>)
      requires Attempting(S()) && gatt == NO_GATT
      modifies this
      ensures Attempting(S()) && gatt.readProps.None? && Grows(old(S()), S())
      ensures world.monitor == old(world.monitor) && (r.None? ==> bus.Some?)
      ensures calm ==> r == ReachError(a, old(bus).Some?) && (r.None? ==> gatt.props)
    {
      hide Watch, Exclusive;
      r := EnsureBus(a.bus);
      if r.Some? {
        return;
      }
      SuspendAttempt();
      if a.introspection.Some? {
        return a.introspection;
      }
      if !a.hasDevice {
        return Some(UNKNOWN_DEVICE);
      }
      gatt := gatt.(dev := true);
      if !a.hasProps {
        return Some(NO_INTERFACE);
      }
      gatt := gatt.(props := true);
      // A connection BlueZ still believes in is dropped first; nothing here can fail the attempt.
      SuspendAttempt();
      if a.stale {
        SuspendAttempt();
        SuspendAttempt();
      }
      if !gatt.dev {
        return Some(LOST_PROXY);
      }
    }

    /** `_find_gatt_characteristic`: any failure just means "not found". */
    method FindGattCharacteristic(answer: bool) returns (found: bool)
      requires Attempting(S()) && gatt.readProps.None? && bus.Some?
      modifies this
      ensures Attempting(S()) && gatt.readProps.None? && Grows(old(S()), S()) && bus == old(bus)
      ensures world.monitor == old(world.monitor) && found == answer
      ensures calm ==> gatt == old(gatt)
    {
      hide Watch, Exclusive;
      var r := EnsureBus(None);
      SuspendAttempt();
      found := answer;
    }

    /** `_find_characteristics`, one lookup after the other, and what the attempt then insists on. */
    method FindCharacteristics(d: Discovery) returns (r: Option<Exn>)
      requires Attempting(S()) && gatt.readProps.None? && bus.Some?
      modifies this
      ensures Attempting(S()) && Grows(old(S()), S()) && bus == old(bus)
      ensures r.None? ==> gatt.readChar && gatt.readProps.Some? && gatt.writeChar && !notifyAttached
      ensures r.Some? ==> gatt.readProps.None?
      ensures world.monitor == old(world.monitor)
      ensures calm && d.waiting.None? && d.resolved ==> r == DiscoveryError(d)
    {
      hide Watch, Observe, Exclusive;
      var foundRead := FindGattCharacteristic(d.readFound);
      gatt := gatt.(readChar := foundRead);
      var foundWrite := FindGattCharacteristic(d.writeFound);
      if d.late {
        return Some(Connection("GATT characteristic discovery timeout", Some(Timeout)));
      }
      gatt := gatt.(writeChar := foundWrite);
      if !gatt.readChar || !gatt.writeChar {
        return Some(Connection("Required GATT characteristics not found", None));
      }
      if !d.hasReadProps {
        return Some(NO_INTERFACE);
      }
      TakeReadProps();
      return None;
    }

    /** A properties proxy of the read characteristic, not seen before. */
    method TakeReadProps()
      requires Attempting(S()) && gatt.readChar && gatt.readProps.None?
      modifies this`gatt, this`world
      ensures Attempting(S()) && S() == TakeProxy(old(S()))
      ensures bus == old(bus)
    {
      hide Watch, Exclusive;
      gatt := gatt.(readProps := Some(world.nextProxy));
      world := world.(nextProxy := world.nextProxy + 1);
    }

    /** `_attempt_connection`: on success the proxies for reading, writing and notifications are in place. */
    method AttemptConnection(a: ConnectAnswers) returns (r: Option<Exn>)
      requires Attempting(S()) && gatt == NO_GATT
      modifies this
      ensures Attempting(S()) && Grows(old(S()), S())
      ensures r.None? ==> gatt.readChar && gatt.readProps.Some? && gatt.writeChar && !notifyAttached && bus.Some?
      ensures r.Some? ==> gatt.readProps.None?
      ensures r.None? ==> world.monitor == Observe(old(world.monitor), ConnectCall)
      ensures world.monitor == old(world.monitor) || world.monitor == Observe(old(world.monitor), ConnectCall)
      ensures calm ==> r == AttemptError(a, old(bus).Some?)
    {
      hide Watch, Observe, ConnectError, ReachError, Exclusive;
      r := CallConnect(a);
      if r.Some? {
        return;
      }
      // Trusted, then the wait for ServicesResolved: neither works on proxies a drop has taken away.
      SuspendAttempt();
      var hadProps := gatt.props;
      SuspendAttempt();
      if a.discovery.waiting.Some? {
        return a.discovery.waiting;
      }
      if hadProps && !gatt.props {
        return Some(LOST_PROXY);
      }
      if !hadProps || !a.discovery.resolved {
        return Some(Connection("Services not resolved within timeout", None));
      }
      r := FindCharacteristics(a.discovery);
    }

    /** `_start_keepalive` and `_start_dst_check` */
    method StartTasks()
      modifies this`tasks
      ensures S() == old(S()).(tasks := tasks)
      ensures !old(tasks).AnyLive() ==> tasks == Tasks(Created, Created)
    {
      if !Live(tasks.keepalive) {
        tasks := tasks.(keepalive := Created);
      }
      if !Live(tasks.dst) {
        tasks := tasks.(dst := Created);
      }
    }

    /** From here on the link counts as up. */
    method BecomeConnected(mac: string)
      requires Attempting(S()) && gatt.readChar && gatt.readProps.Some?
      modifies this`connectedMac, this`state, this`world
      ensures Held(S()) && S() == Become(old(S()), Connected).(mac := Some(mac))
      ensures world.me == old(world.me)
    {
      hide Watch, Exclusive;
      connectedMac := Some(mac);
      state := Connected;
      world := world.(dropsAtConnect := drops);
    }

    /** `_finalize_successful_connection`: the link is up, unless it drops while its name or MTU is read. */
    method Finalize(mac: string)
      requires Attempting(S()) && gatt.readChar && gatt.readProps.Some?
      modifies this
      ensures UpOrFallen(S(), mac) && Grows(old(S()), S())
      ensures world.monitor == old(world.monitor) && old(drops) <= world.dropsAtConnect
      ensures !state.Connected? ==> !tasks.keepalive.Sleeping? && !tasks.dst.Sleeping?
      ensures bus == old(bus) && (calm ==> Up(S(), mac) && notifyAttached == old(notifyAttached))
    {
      hide Watch, Exclusive;
      BecomeConnected(mac);
      if gatt.props {
        Suspend();
      }
      StartTasks();
      if gatt.readProps.Some? {
        Suspend();
      }
    }

    /** `_cleanup_failed_connection`, which ends in `_reset_state`. */
    method CleanupFailedConnection()
      requires Attempting(S())
      modifies this
      ensures Attempting(S()) && Bare(S()) && Grows(old(S()), S()) && world == old(world)
    {
      hide Watch, Exclusive;
      Suspend();
      Act(DropBus);
    }

    /** `_connect_stage`: one attempt; a failed one leaves nothing behind. */
    method ConnectStage(mac: string, a: ConnectAnswers) returns (r: Option<Exn>)
      requires Held(S()) && !state.Connected? && gatt == NO_GATT && connectedMac.None? && !tasks.AnyLive()
      modifies this
      ensures Grows(old(S()), S()) && ConnectSeen(old(world.monitor), world.monitor, r)
      ensures r.None? ==> UpOrFallen(S(), mac) && old(drops) <= world.dropsAtConnect && bus.Some?
      ensures r.Some? ==> Attempting(S()) && Bare(S())
      ensures r.Some? ==> world.trace != [] && world.trace[|world.trace| - 1] == ConnectFailed(r.value)
      ensures calm ==> r == AttemptError(a, old(bus).Some?) && (r.None? ==> Up(S(), mac) && !notifyAttached)
    {
      hide Watch, Observe, AttemptError, Exclusive;
      state := Connecting;
      r := AttemptConnection(a);
      if r.Some? {
        CleanupFailedConnection();
        Note(ConnectFailed(r.value));
      } else {
        Finalize(mac);
      }
    }

    // ---------- Subscribing and pairing ----------

    /** A suspension while the link is up, or already fallen. */
    method SuspendLink(ghost mac: string)
      requires UpOrFallen(S(), mac)
      modifies this
      ensures UpOrFallen(S(), mac) && Grows(old(S()), S()) && world == old(world) && bus == old(bus)
      ensures Up(S(), mac) ==> Up(old(S()), mac) && gatt == old(gatt)
      ensures calm ==> Up(S(), mac) == Up(old(S()), mac)
      ensures Up(S(), mac) && others.taken == old(others.taken) && old(notifyAttached) ==> notifyAttached
      ensures !state.Connected? && (old(state).Connected? || old(tasks) == NO_TASKS) ==> tasks == NO_TASKS
    {
      hide Watch, Exclusive;
      Suspend();
    }

    /**
     `start_notify`: without an exception and without a drop, one handler is attached to the live proxy.
     What it raises is what BlueZ raises, or that the link has gone.
     */
    method StartNotify(ghost mac: string, n: NotifyAnswers) returns (r: Option<Exn>)
      requires UpOrFallen(S(), mac)
      modifies this
      ensures UpOrFallen(S(), mac) && Grows(old(S()), S()) && world == old(world) && bus == old(bus)
      ensures r.None? && Up(S(), mac) && others.taken == old(others.taken) ==> notifyAttached
      ensures !state.Connected? && (old(state).Connected? || old(tasks) == NO_TASKS) ==> tasks == NO_TASKS
      ensures r == NotifyError(old(state).Connected?, n) || (!state.Connected? && r == Some(LOST_PROXY))
      ensures calm ==> r == NotifyError(old(state).Connected?, n)
      ensures calm ==> (Up(S(), mac) <==> old(state).Connected? && !FallsDuring(n))
    {
      hide Watch, Exclusive;
      if !state.Connected? || !gatt.readChar || gatt.readProps.None? {
        return Some(NOT_CONNECTED);
      }
      SuspendLink(mac);
      if n.reading.Some? {
        return n.reading;
      }
      if !notifyAttached {
        if gatt.readProps.None? {
          return Some(LOST_PROXY);
        }
        AttachNotifyHandler();
      }
      if n.notifying {
        return None;
      }
      SuspendLink(mac);
      if n.falls {
        FallWhile(mac);
      }
      r := n.raised;
      if r.Some? {
        DetachNotifyHandler();
      }
    }

    /** The link falls, if it has not already. */
    method FallWhile(ghost mac: string)
      requires UpOrFallen(S(), mac)
      modifies this
      ensures UpOrFallen(S(), mac) && !state.Connected? && Grows(old(S()), S()) && world == old(world)
      ensures bus == old(bus)
      ensures old(state).Connected? || old(tasks) == NO_TASKS ==> tasks == NO_TASKS
    {
      hide Watch, Exclusive;
      OnDisconnectDetected();
    }

    /** `_stop_notify`; what BlueZ answers is ignored by its caller. */
    method StopNotify()
      requires Held(S())
      modifies this
      ensures Held(S()) && Grows(old(S()), S()) && world == old(world)
      ensures state == old(state) || state.Disconnected?
      ensures tasks == old(tasks) || tasks == NO_TASKS || tasks == RunTasks(old(tasks), old(state).Connected?)
      ensures calm ==> !notifyAttached
    {
      hide Watch, Exclusive;
      if !gatt.readChar {
        notifyAttached := false;
        return;
      }
      DetachNotifyHandler();
      Suspend();
    }

    /** Cancel the background tasks and wait for each. */
    method StopTasks()
      requires Held(S())
      modifies this
      ensures Held(S()) && Grows(old(S()), S()) && world == old(world) && tasks == NO_TASKS
    {
      hide Watch, Exclusive;
      if Live(tasks.keepalive) {
        Suspend();
      }
      tasks := tasks.(keepalive := NoTask);
      if Live(tasks.dst) {
        Suspend();
      }
      tasks := tasks.(dst := NoTask);
    }

    /** `_disconnect_internal`: whatever strikes meanwhile, nothing of the session is left. */
    method DisconnectInternal()
      requires Held(S())
      modifies this
      ensures Held(S()) && Grows(old(S()), S()) && world == old(world) && state.Disconnected?
      ensures old(state).Disconnected? ==> S() == old(S())
      ensures !old(state).Disconnected? ==> Bare(S()) && tasks == NO_TASKS
    {
      hide Watch, Exclusive;
      if state.Disconnected? {
        return;
      }
      state := Disconnecting;
      StopTasks();
      StopNotify();
      Suspend();
      Act(DropBus);
      state := Disconnected;
    }

    /**
     `_pair_unlocked` without its final disconnect: whether the device ends up paired, and the failure if BlueZ
     raised one.
     `Pair` is called exactly if the device is there and not paired.
     */
    method PairUnlocked(bus: Option<Exn>, p: PairAnswers) returns (r: Outcome<(bool, Option<Exn>)>)
      requires Held(S())
      modifies this
      ensures Held(S()) && LinkKept(old(S()), S())
      ensures var error := BusError(old(this.bus).Some?, bus);
        if error.Some? then r == Escaped(error.value) && world.monitor == old(world.monitor) && this.bus.None?
        else r == PairOutcome(p) && world.monitor == AfterPairing(old(world.monitor), p) && this.bus.Some?
    {
      hide Watch, Observe, LinkKept, Exclusive;
      ghost var before := S();
      LinkKeptSelf(before);
      var b := EnsureBus(bus);
      if b.Some? {
        return Escaped(b.value);
      }
      SuspendOn(before);
      if p.reaching.Some? {
        return Escaped(p.reaching.value);
      }
      if !p.hasDevice {
        return Returned((false, Some(NO_INTERFACE)));
      }
      SuspendOn(before);
      if !p.alreadyPaired {
        NoteOn(before, PairCall);
        SuspendOn(before);
        if p.raised.Some? && !IsAlreadyPaired(p.raised.value) {
          return Returned((false, p.raised));
        }
      }
      SuspendOn(before);
      SuspendOn(before);
      return Returned((p.isPaired, None));
    }

    /** A suspension later on in an operation that began at `start`. */
    method SuspendOn(ghost start: Session)
      requires Held(S()) && LinkKept(start, S())
      modifies this
      ensures Held(S()) && LinkKept(start, S()) && world == old(world) && bus == old(bus)
    {
      hide Watch, Exclusive;
      ghost var before := S();
      Suspend();
      LinkKeptTwice(start, before, S());
    }

    method NoteOn(ghost start: Session, op: Op)
      requires Held(S()) && LinkKept(start, S())
      modifies this`world
      ensures Held(S()) && LinkKept(start, S()) && S() == old(S()).(world := world)
      ensures world.monitor == Observe(old(world.monitor), op) && world.trace == old(world.trace) + [op]
    {
      hide Watch, Observe, Exclusive;
      Note(op);
    }

    /**
     `_pair_then_resume`: the outcome is that of pairing and subscribing again, unless the link goes meanwhile; a
     failure
     leaves the state ERROR.
     */
    method PairThenResume(mac: string, p: PairAnswers, resumed: NotifyAnswers) returns (r: Outcome<Option<Result>>)
      requires UpOrFallen(S(), mac) && (!state.Connected? ==> tasks == NO_TASKS) && bus.Some?
      modifies this
      ensures Held(S()) && Grows(old(S()), S()) && world.dropsAtConnect == old(world.dropsAtConnect)
      ensures world.monitor == AfterPairing(old(world.monitor), p)
      ensures FromResuming(r, p, resumed)
      ensures r == Returned(None) ==> Subscribed(S(), mac, old(others.taken))
      ensures r == Returned(None) && !state.Connected? ==> tasks == NO_TASKS
      ensures r.Returned? && r.value.Some? ==> state.Error? && r.value.value.FailsAt({StagePair, StageGattPostPair})
      ensures r.Escaped? ==> UpOrFallen(S(), mac) && (!state.Connected? ==> tasks == NO_TASKS)
      ensures calm ==> r == ResumeOutcome(old(state).Connected?, p, resumed)
      ensures calm && r == Returned(None) ==> (Up(S(), mac) <==> !FallsDuring(resumed))
    {
      hide Watch, Observe, Failure, Exclusive, AfterPairing;
      var paired := PairUnlocked(None, p);
      if paired.Escaped? {
        return Escaped(paired.error);
      }
      if !paired.value.0 {
        state := Error;
        if paired.value.1.Some? {
          return Returned(Some(Failure(StagePair, paired.value.1.value)));
        }
        return Returned(Some(NOT_PAIRED));
      }
      r := Resume(mac, resumed);
    }

    /** Subscribing again after pairing. */
    method Resume(mac: string, resumed: NotifyAnswers) returns (r: Outcome<Option<Result>>)
      requires UpOrFallen(S(), mac) && (!state.Connected? ==> tasks == NO_TASKS)
      modifies this
      ensures Held(S()) && Grows(old(S()), S()) && world == old(world)
      ensures r.Returned?
      ensures IsResumed(r, resumed)
      ensures r == Returned(None) ==> Subscribed(S(), mac, old(others.taken))
      ensures r == Returned(None) && !state.Connected? ==> tasks == NO_TASKS
      ensures r.value.Some? ==> state.Error? && r.value.value.FailsAt({StageGattPostPair})
      ensures calm ==> r == ResumedAs(NotifyError(old(state).Connected?, resumed))
      ensures calm && r == Returned(None) ==> (Up(S(), mac) <==> !FallsDuring(resumed))
    {
      hide Watch, Observe, Failure, Exclusive;
      var e := StartNotify(mac, resumed);
      if e.Some? {
        state := Error;
        return Returned(Some(Failure(StageGattPostPair, e.value)));
      }
      return Returned(None);
    }

    /**
     `_ensure_gatt_ready`: subscribe, and pair exactly if BlueZ asks for it.
     A failure to subscribe is final only if it does not ask for pairing, and is what BlueZ raised, or that the link
     has gone.
     */
    method EnsureGattReady(mac: string, a: Answers) returns (r: Outcome<Option<Result>>)
      requires UpOrFallen(S(), mac) && bus.Some?
      modifies this
      ensures Held(S()) && Grows(old(S()), S()) && world.dropsAtConnect == old(world.dropsAtConnect)
      ensures FromSubscribing(r, a)
      ensures world.monitor ==
        if IsGattFailure(r) || !NeedsPairing(a.notify) then old(world.monitor)
        else AfterPairing(old(world.monitor), a.pairing)
      ensures r == Returned(None) ==> Subscribed(S(), mac, old(others.taken))
      ensures r == Returned(None) && !state.Connected? ==> tasks == NO_TASKS
      ensures r.Returned? && r.value.Some? ==>
        state.Error? && r.value.value.FailsAt({StageGatt, StagePair, StageGattPostPair})
      ensures r.Escaped? ==> UpOrFallen(S(), mac) && (!state.Connected? ==> tasks == NO_TASKS)
      ensures calm && old(state).Connected? ==> r == ReadyOutcome(a)
      ensures calm && old(state).Connected? && r == Returned(None) ==> (Up(S(), mac) <==> StaysUp(a))
    {
      hide Watch, Observe, IsGattSecurityError, Failure, Exclusive, PairOutcome, AfterPairing;
      GoneIsNoSecurityError();
      var e := StartNotify(mac, a.notify);
      if e.None? {
        return Returned(None);
      }
      SecurityErrorIsDBus(e.value);
      if !IsGattSecurityError(e.value) {
        state := Error;
        return Returned(Some(Failure(StageGatt, e.value)));
      }
      r := PairThenResume(mac, a.pairing, a.resumed);
    }

    /** `_teardown_after_post_connect_failure`: the session goes, the ERROR status stays. */
    method TeardownAfterPostConnectFailure()
      requires Held(S()) && state.Error?
      modifies this
      ensures Held(S()) && Bare(S()) && tasks == NO_TASKS && state.Error? && Grows(old(S()), S()) && world == old(world)
    {
      hide Watch, Exclusive;
      DisconnectInternal();
      state := Error;
    }

    // ---------- Scanning and stale bonds ----------

    /** `_scan_unlocked`; what goes wrong here escapes. */
    method ScanUnlocked(a: ScanAnswers) returns (r: Option<Exn>)
      requires Held(S())
      modifies this
      ensures Held(S()) && LinkKept(old(S()), S())
      ensures r == ScanError(a, old(bus).Some?) && (r.None? ==> bus.Some?)
      ensures world.monitor == if r.None? then Observe(old(world.monitor), ScanDone) else old(world.monitor)
    {
      hide Watch, Observe, LinkKept, Exclusive;
      ghost var before := S();
      LinkKeptSelf(before);
      r := EnsureBus(a.bus);
      if r.Some? {
        return;
      }
      SuspendOn(before);
      r := a.raised;
      if r.None? {
        NoteOn(before, ScanDone);
      }
    }

    /** A scan between two connect attempts. */
    method ScanBetweenAttempts(a: ScanAnswers) returns (r: Option<Exn>)
      requires Attempting(S()) && gatt == NO_GATT
      modifies this
      ensures Attempting(S()) && gatt == NO_GATT && Grows(old(S()), S())
      ensures r == ScanError(a, old(bus).Some?) && (r.None? ==> bus.Some?)
      ensures world.monitor == if r.None? then Observe(old(world.monitor), ScanDone) else old(world.monitor)
    {
      hide Watch, Observe, Sound, ScanError;
      r := ScanUnlocked(a);
    }

    /** `_connect_with_scan_retry`: one attempt, and after a scan one more if BlueZ does not know the device. */
    method ConnectWithScanRetry(mac: string, a: Answers) returns (r: Outcome<Option<Exn>>)
      requires Held(S()) && !state.Connected? && gatt == NO_GATT && connectedMac.None? && !tasks.AnyLive()
      requires Within(world.monitor, 0, 0, 0, 0) && !world.monitor.needsScan && !world.monitor.recovery.begun
      modifies this
      ensures Grows(old(S()), S()) && Held(S())
      ensures Within(world.monitor, 2, 1, 0, 0) && !world.monitor.needsScan && !world.monitor.recovery.begun
      ensures world.monitor.userInitiated == old(world.monitor.userInitiated)
      ensures r == Returned(None) ==> UpOrFallen(S(), mac) && old(drops) <= world.dropsAtConnect && bus.Some?
      ensures r.Returned? && r.value.Some? ==> Attempting(S()) && Bare(S()) && FailedLast(r.value.value)
      ensures r.Returned? && r.value.Some? && IsDeviceNotFound(r.value.value) ==> world.monitor.scans == 1
      ensures r.Escaped? ==> Attempting(S()) && gatt == NO_GATT
      ensures calm ==> r == FirstOutcome(a, old(bus).Some?)
      ensures calm && r == Returned(None) ==> Up(S(), mac) && !notifyAttached
    {
      hide Watch, IsDeviceNotFound, AttemptError, ScanError, Sound, Exclusive, MayRemove;
      var e := ConnectStage(mac, a.first);
      if e.None? || !IsDeviceNotFound(e.value) {
        return Returned(e);
      }
      r := ScanAndRetry(mac, a.scan, a.again);
    }

    function LastSeen(): Op
      requires world.trace != []
      reads this
    {
      world.trace[|world.trace| - 1]
    }

    /** A scan after a failed attempt, and one more attempt. */
    method ScanAndRetry(mac: string, scan: ScanAnswers, again: ConnectAnswers) returns (r: Outcome<Option<Exn>>)
      requires Attempting(S()) && gatt == NO_GATT
      modifies this
      ensures Grows(old(S()), S()) && Held(S())
      ensures ScannedThenSeen(old(world.monitor), world.monitor, r)
      ensures r == Returned(None) ==> UpOrFallen(S(), mac) && old(drops) <= world.dropsAtConnect && bus.Some?
      ensures r.Returned? && r.value.Some? ==>
        Attempting(S()) && Bare(S()) && world.trace != [] && LastSeen() == ConnectFailed(r.value.value)
      ensures r.Escaped? ==> Attempting(S()) && gatt == NO_GATT
      ensures var e := ScanError(scan, old(bus).Some?);
        if e.Some? then r == Escaped(e.value) else r.Returned? && (calm ==> r == Returned(AttemptError(again, true)))
      ensures calm && r == Returned(None) ==> Up(S(), mac) && !notifyAttached
    {
      hide Watch, Observe, AttemptError, ScanError, Sound, Exclusive;
      var e := ScanBetweenAttempts(scan);
      if e.Some? {
        return Escaped(e.value);
      }
      var retry := ConnectStage(mac, again);
      return Returned(retry);
    }

    /** The last thing seen of BlueZ is this failure to connect, and recovery has not begun. */
    predicate FailedLast(e: Exn)
      reads this
    {
      && world.monitor.lastError == Some(e) && world.monitor.recovery == Recovery(Some(e), false)
      && world.trace != [] && world.trace[|world.trace| - 1] == ConnectFailed(e)
    }

    /** `_read_paired_live`: any failure to read counts as "not paired". The bus it opens stays. */
    method ReadPairedLive(raises: Option<Exn>, answer: bool) returns (paired: bool)
      requires Attempting(S()) && Bare(S())
      modifies this
      ensures Attempting(S()) && gatt == NO_GATT && Grows(old(S()), S())
      ensures bus.Some? == raises.None? && paired == (raises.None? && answer)
      ensures world.monitor ==
        if raises.None? then Observe(old(world.monitor), PairedRead(paired)) else old(world.monitor)
    {
      hide Watch, Observe, Sound;
      var e := EnsureBus(raises);
      if e.Some? {
        return false;
      }
      SuspendAttempt();
      SuspendAttempt();
      paired := answer;
      Note(PairedRead(paired));
    }

    /** `_stale_bond_recovery_allowed`: the gates in their order. */
    method StaleBondRecoveryAllowed(e: Exn, raises: Option<Exn>, answer: bool) returns (allowed: bool)
      requires Attempting(S()) && Bare(S()) && FailedLast(e)
      modifies this
      ensures Attempting(S()) && gatt == NO_GATT && Grows(old(S()), S())
      ensures bus.Some? <==> RecoveryIsDue(old(world.monitor.userInitiated), e) && raises.None?
      ensures allowed <==> bus.Some? && answer
      ensures !RecoveryIsDue(old(world.monitor.userInitiated), e) ==> world == old(world)
      ensures world.monitor ==
        if bus.Some? then Observe(old(world.monitor), PairedRead(allowed)) else old(world.monitor)
    {
      hide Watch, Observe, IsPlainTimeout, IsStaleBondSignature, Sound;
      if !world.monitor.userInitiated {
        return false;
      }
      if IsPlainTimeout(e) {
        return false;
      }
      if !IsStaleBondSignature(e) {
        return false;
      }
      allowed := ReadPairedLive(raises, answer);
    }

    /** `_remove_device_unlocked`: whether BlueZ removed the device; only the way to the call itself can escape. */
    method RemoveDeviceUnlocked(reaching: Option<Exn>, removed: bool) returns (r: Outcome<bool>)
      requires Attempting(S()) && gatt == NO_GATT && bus.Some?
      modifies this
      ensures Attempting(S()) && gatt == NO_GATT && Grows(old(S()), S()) && bus == old(bus)
      ensures r == if reaching.Some? then Escaped(reaching.value) else Returned(removed)
      ensures world.monitor == if r.Returned? then Observe(old(world.monitor), RemoveDevice) else old(world.monitor)
    {
      hide Watch, Observe, Sound;
      var e := EnsureBus(None);
      SuspendAttempt();
      if reaching.Some? {
        return Escaped(reaching.value);
      }
      Note(RemoveDevice);
      SuspendAttempt();
      return Returned(removed);
    }

    /**
     `_maybe_recover_stale_bond`: remove the bond, scan, connect once more; or hand the failure back.
     A failure is handed back with the bus open exactly if the bus was opened to read the paired state and the device
     was
     not paired or was not removed.
     */
    method MaybeRecoverStaleBond(mac: string, e: Exn, a: RecoveryAnswers) returns (r: Outcome<Option<Exn>>)
      requires Attempting(S()) && Bare(S()) && FailedLast(e)
      requires Within(world.monitor, 2, 1, 0, 0) && !world.monitor.needsScan
      modifies this
      ensures Grows(old(S()), S()) && Held(S())
      ensures Within(world.monitor, 3, 2, 0, 1) && world.monitor.userInitiated == old(world.monitor.userInitiated)
      ensures world.monitor.recovery.failure == Some(e)
      ensures var due := RecoveryIsDue(old(world.monitor.userInitiated), e);
        && (!due ==> world == old(world))
        && (!due || a.bus.Some? || !a.paired || (a.reaching.None? && !a.removed) ==> r == Returned(Some(e)))
        && (due && a.bus.None? && a.paired && a.reaching.Some? ==> r.Escaped?)
        && (due && a.bus.None? && a.paired && r.Returned? ==> world.monitor.removes == old(world.monitor.removes) + 1)
      ensures r == Returned(None) ==> UpOrFallen(S(), mac) && old(drops) <= world.dropsAtConnect && bus.Some?
      ensures r.Returned? && r.value.Some? ==> Attempting(S()) && gatt == NO_GATT
      ensures r.Returned? && r.value.Some? ==> (bus.Some? <==> KeepsBus(world.monitor.userInitiated, e, a))
      ensures r.Escaped? ==> Attempting(S()) && gatt == NO_GATT
      ensures calm ==> r == RecoveryOutcome(old(world.monitor.userInitiated), e, a)
      ensures calm && r == Returned(None) ==> Up(S(), mac) && !notifyAttached
    {
      hide Watch, IsPlainTimeout, IsStaleBondSignature, AttemptError, Sound, Exclusive;
      var allowed := StaleBondRecoveryAllowed(e, a.bus, a.paired);
      if !allowed {
        return Returned(Some(e));
      }
      var removed := RemoveDeviceUnlocked(a.reaching, a.removed);
      if removed.Escaped? {
        return Escaped(removed.error);
      }
      if !removed.value {
        return Returned(Some(e));
      }
      r := ScanAndRetry(mac, ScanAnswers(None, a.scan), a.again);
      if r.Returned? && r.value.Some? {
        r := Returned(Some(Python("BondRecoveryReconnectError", Text(r.value.value))));
      }
    }

    // ---------- The whole operation ----------

    /** Connected to this very device. */
    predicate Serves(mac: string)
      reads this
    {
      state.Connected? && connectedMac == Some(mac)
    }

    /** A bus that no session uses; one of another device's session is dropped with it. */
    predicate HasSpareBus()
      reads this
    {
      bus.Some? && !state.Connected?
    }

    /** Nothing of a session is left; of the bus nothing is said. */
    predicate LeftBehindNothing()
      reads this
    {
      gatt == NO_GATT && connectedMac.None? && !notifyAttached && !tasks.AnyLive()
    }

    /** The failure to connect that recovery, if any, started from: the last one seen before it. */
    function FirstFailure(): Option<Exn>
      reads this
    {
      world.monitor.recovery.failure
    }

    /**
     A failure to connect keeps the bus open exactly as `KeepsBus` says of the request, the failure and BlueZ's
     answers; the
     failure is then what is returned, and is returned too if recovery changes nothing.
     */
    predicate FailedToConnect(r: Result, a: RecoveryAnswers)
      reads this
    {
      && FirstFailure().Some?
      && (bus.Some? <==> KeepsBus(world.monitor.userInitiated, FirstFailure().value, a))
      && (bus.Some? || !RecoveryIsDue(world.monitor.userInitiated, FirstFailure().value) ==>
            r == Failure(StageConnect, FirstFailure().value))
    }

    /** What the trace says of `FirstFailure`. */
    lemma FirstFailureIsInTrace()
      requires Sound(S())
      ensures if FirstFailure().Some? then
                exists j: nat :: FailsAt(world.trace, j) && world.trace[j].error == FirstFailure().value
              else forall k :: 0 <= k < FirstRecovery(world.trace) ==> !world.trace[k].ConnectFailed?
    {
      hide Watch, Exclusive;
      WatchesFailure(world.trace, world.monitor.userInitiated);
    }

    /** The result of subscribing, whether or not the link goes, and whether `Pair` was called for it. */
    predicate Subscribing(r: Result, a: Answers)
      reads this
    {
      && FromSubscribing(Returned(if r.success then None else Some(r)), a)
      && world.monitor.pairs == if r.stage.StageGatt? || !NeedsPairing(a.notify) then 0 else PairCalls(a.pairing)
    }

    /**
     `ensure_connected`, from acquiring the lock on.
     A failure names its cause and leaves nothing behind, except a bus exactly as `FailedToConnect` says.
     Pairing is tried exactly if subscribing asks for it, and success after that means that the device is paired.
     A success other than "already connected" is, without a drop, a link to `mac` with one handler on the live
     characteristic,
     unless others took it; "already connected" changes nothing, so that it has its handler exactly if it had it before.
     What escapes leaves either the link up or nothing behind.
     When nothing but BlueZ's answers happens, the result is the one `EnsureOutcome` tells.
     */
    method EnsureConnected(me: Actor, mac: string, userInitiated: bool, a: Answers) returns (r: Outcome<Result>)
      requires Sound(S()) && AtBoundary(S()) && !locked
      modifies this
      ensures Sound(S()) && AtBoundary(S()) && !locked
      ensures world.monitor == Watch(world.trace, userInitiated) && Disciplined(world.trace, userInitiated)
      ensures world.monitor.userInitiated == userInitiated
      ensures r.Returned? && !r.value.success ==>
        state.Error? && LeftBehindNothing() && r.value.FailsAt({StageConnect, StageGatt, StagePair, StageGattPostPair})
      ensures r.Returned? && r.value.stage.StageConnect? ==> FailedToConnect(r.value, a.recovery)
      ensures r.Returned? && !r.value.success && !r.value.stage.StageConnect? ==> bus.None?
      ensures r.Returned? && !r.value.success && !userInitiated ==> bus.None?
      ensures r.Returned? && !r.value.stage.AlreadyConnected? && !r.value.stage.StageConnect? ==>
        Subscribing(r.value, a)
      ensures old(Serves(mac)) ==> r == Returned(ALREADY)
      ensures r.Returned? && r.value.success ==> r.value == if old(Serves(mac)) then ALREADY else CONNECTED
      ensures r.Returned? && r.value.stage.AlreadyConnected? ==>
        old(state).Connected? && Untouched(old(S())) && (OneHandler(S()) <==> old(notifyAttached))
      ensures r.Returned? && r.value.stage.StageConnected? ==> EndsConnected(S(), mac, old(drops), old(others.taken))
      ensures r.Escaped? ==> Up(S(), mac) || ((state.Connecting? || state.Disconnected?) && LeftBehindNothing())
      ensures calm && !old(Serves(mac)) ==> r == EnsureOutcome(userInitiated, a, old(HasSpareBus()))
      ensures calm && r == Returned(CONNECTED) ==> if StaysUp(a) then WellConnected(S(), mac) else Fallen(S())
      ensures calm && r.Returned? && r.value.stage.StageConnect? ==>
        FirstOutcome(a, old(HasSpareBus())) == Returned(FirstFailure())
    {
      hide Watch, Disciplined, Failure, Exclusive, Sound, Within, EnsureOutcome, FirstOutcome, KeepsBus, RecoveryIsDue;
      hide FromSubscribing, NeedsPairing, StaysUp, PairCalls, Up, Fallen, OneHandler, WellConnected, AtBoundary;
      hide EndsConnected;
      StartWatch(userInitiated);
      BoundaryIsOfTheSession(old(S()), S());
      ghost var outside := S();
      Enter(me);
      BoundaryIsOfTheSession(outside, S());
      r := EnsureConnectedWatched(mac, a);
      UnbrokenIsDisciplined(world.trace, userInitiated);
      ghost var inside := S();
      Leave();
      LockIsNoMatter(inside, S(), mac);
    }

    /** Nothing of BlueZ was seen yet. */
    method StartWatch(userInitiated: bool)
      requires Sound(S())
      modifies this`world, this`cancelConnect
      ensures Sound(S()) && S() == old(S()).(world := world, cancel := false)
      ensures world == old(world).(monitor := Watching(userInitiated), trace := [])
    {
      hide Watch, Exclusive;
      cancelConnect := false;
      world := world.(monitor := Watching(userInitiated), trace := []);
      WatchStart(userInitiated);
    }

    /** The body of `ensure_connected`, inside the lock and seen by a fresh watch. */
    method EnsureConnectedWatched(mac: string, a: Answers) returns (r: Outcome<Result>)
      requires Held(S()) && AtBoundary(S())
      requires world.monitor == Watching(world.monitor.userInitiated)
      modifies this
      ensures Held(S()) && Grows(old(S()), S()) && AtBoundary(S())
      ensures world.monitor == Watch(world.trace, world.monitor.userInitiated) && Within(world.monitor, 3, 2, 1, 1)
      ensures world.monitor.userInitiated == old(world.monitor.userInitiated)
      ensures r.Returned? && !r.value.success ==>
        state.Error? && LeftBehindNothing() && r.value.FailsAt({StageConnect, StageGatt, StagePair, StageGattPostPair})
      ensures r.Returned? && r.value.stage.StageConnect? ==> FailedToConnect(r.value, a.recovery)
      ensures r.Returned? && !r.value.success && !r.value.stage.StageConnect? ==> bus.None?
      ensures r.Returned? && !r.value.success && !world.monitor.userInitiated ==> bus.None?
      ensures r.Returned? && !r.value.stage.AlreadyConnected? && !r.value.stage.StageConnect? ==>
        Subscribing(r.value, a)
      ensures old(Serves(mac)) ==> r == Returned(ALREADY)
      ensures r.Returned? && r.value.success ==> r.value == if old(Serves(mac)) then ALREADY else CONNECTED
      ensures r.Returned? && r.value.stage.AlreadyConnected? ==>
        old(state).Connected? && S() == old(S()) && (OneHandler(S()) <==> old(notifyAttached))
      ensures r.Returned? && r.value.stage.StageConnected? ==> EndsConnected(S(), mac, old(drops), old(others.taken))
      ensures r.Escaped? ==> Up(S(), mac) || ((state.Connecting? || state.Disconnected?) && LeftBehindNothing())
      ensures calm && !old(Serves(mac)) ==> r == EnsureOutcome(world.monitor.userInitiated, a, old(HasSpareBus()))
      ensures calm && r == Returned(CONNECTED) ==> if StaysUp(a) then WellConnected(S(), mac) else Fallen(S())
      ensures calm && r.Returned? && r.value.stage.StageConnect? ==>
        FirstOutcome(a, old(HasSpareBus())) == Returned(FirstFailure())
    {
      hide Watch, Failure, ConnectOutcome, FirstOutcome, ReadyOutcome, StaysUp, FailedToConnect, Subscribing, Exclusive;
      if state.Connected? {
        if connectedMac == Some(mac) {
          return Returned(ALREADY);
        }
        DisconnectInternal();
      }
      var connecting := ConnectOrRecover(mac, a);
      if connecting.Escaped? {
        return Escaped(connecting.error);
      }
      if connecting.value.Some? {
        r := FailToConnect(connecting.value.value, a.recovery);
        return;
      }
      r := BecomeReady(mac, a);
    }

    /** A failure to connect becomes the result. */
    method FailToConnect(e: Exn, ghost a: RecoveryAnswers) returns (r: Outcome<Result>)
      requires Attempting(S()) && LeftBehindNothing() && ConnectingFailed(e, a)
      modifies this`state
      ensures Held(S()) && AtBoundary(S()) && state.Error? && r == Returned(Failure(StageConnect, e))
      ensures FailedToConnect(r.value, a)
    {
      hide Watch, Exclusive, KeepsBus, RecoveryIsDue;
      state := Error;
      r := Returned(Failure(StageConnect, e));
    }

    /** How connecting failed with `e`, before that becomes the result. */
    predicate ConnectingFailed(e: Exn, a: RecoveryAnswers)
      reads this
    {
      && FirstFailure().Some?
      && (bus.Some? <==> KeepsBus(world.monitor.userInitiated, FirstFailure().value, a))
      && (bus.Some? || !RecoveryIsDue(world.monitor.userInitiated, FirstFailure().value) ==> e == FirstFailure().value)
    }

    /** The connecting half: a first attempt, and what recovery makes of its failure. */
    method ConnectOrRecover(mac: string, a: Answers) returns (r: Outcome<Option<Exn>>)
      requires Held(S()) && !state.Connected? && gatt == NO_GATT && connectedMac.None? && !tasks.AnyLive()
      requires world.monitor == Watching(world.monitor.userInitiated)
      modifies this
      ensures Grows(old(S()), S()) && Held(S())
      ensures Within(world.monitor, 3, 2, 0, 1) && world.monitor.userInitiated == old(world.monitor.userInitiated)
      ensures r == Returned(None) ==> UpOrFallen(S(), mac) && old(drops) <= world.dropsAtConnect && bus.Some?
      ensures r.Returned? && r.value.Some? ==>
        Attempting(S()) && LeftBehindNothing() && ConnectingFailed(r.value.value, a.recovery)
      ensures r.Returned? && r.value.Some? && !world.monitor.userInitiated ==> bus.None?
      ensures r.Escaped? ==> Attempting(S()) && LeftBehindNothing()
      ensures calm ==> r == ConnectOutcome(world.monitor.userInitiated, a, old(bus).Some?)
      ensures calm && r.Returned? && r.value.Some? ==> FirstOutcome(a, old(bus).Some?) == Returned(FirstFailure())
      ensures calm && r == Returned(None) ==> Up(S(), mac) && !notifyAttached
    {
      hide Watch, Observe, IsPlainTimeout, IsStaleBondSignature, FirstOutcome, RecoveryOutcome, Exclusive;
      r := ConnectWithScanRetry(mac, a);
      if r.Returned? && r.value.Some? {
        r := MaybeRecoverStaleBond(mac, r.value.value, a.recovery);
      }
    }

    /** The subscribing half: a failure takes the link down again. */
    method BecomeReady(mac: string, a: Answers) returns (r: Outcome<Result>)
      requires UpOrFallen(S(), mac) && Within(world.monitor, 3, 2, 0, 1) && bus.Some?
      modifies this
      ensures Held(S()) && Grows(old(S()), S()) && AtBoundary(S())
      ensures r.Returned? ==>
        !r.value.stage.AlreadyConnected? && !r.value.stage.StageConnect? && Subscribing(r.value, a)
      ensures r.Returned? && !r.value.success ==>
        state.Error? && Bare(S()) && r.value.FailsAt({StageGatt, StagePair, StageGattPostPair})
      ensures r.Returned? && r.value.success ==> r == Returned(CONNECTED) && Subscribed(S(), mac, old(others.taken))
      ensures r.Returned? && r.value.stage.StageConnected? ==> r.value.success
      ensures r.Escaped? ==> UpOrFallen(S(), mac)
      ensures Within(world.monitor, 3, 2, 1, 1) && world.monitor.userInitiated == old(world.monitor.userInitiated)
      ensures world.dropsAtConnect == old(world.dropsAtConnect)
      ensures calm && old(state).Connected? ==> r == ReadyResult(ReadyOutcome(a))
      ensures calm && old(state).Connected? && r == Returned(CONNECTED) ==> (Up(S(), mac) <==> StaysUp(a))
    {
      hide Watch, Exclusive, ReadyOutcome, FromSubscribing, StaysUp, NeedsPairing;
      var gattReady := EnsureGattReady(mac, a);
      if gattReady.Escaped? {
        return Escaped(gattReady.error);
      }
      if gattReady.value.Some? {
        TeardownAfterPostConnectFailure();
        return Returned(gattReady.value.value);
      }
      return Returned(CONNECTED);
    }

    // ---------- The other operations ----------

    /**
     `connect`: as many attempts as there are answers; a failed one, or a cancelled one, leaves nothing behind.
     When nothing but BlueZ's answers happens, it succeeds exactly if one of the attempts does.
     */
    method Connect(me: Actor, mac: string, answers: seq<ConnectAnswers>) returns (ok: bool)
      requires Sound(S()) && AtBoundary(S()) && !locked
      modifies this
      ensures Sound(S()) && !locked
      ensures ok ==> Up(S(), mac) || Fallen(S()) || Untouched(old(S()))
      ensures ok && drops == old(drops) ==> state.Connected? && connectedMac == Some(mac)
      ensures ok ==> AtBoundary(Happened(S(), TasksRun))
      ensures !ok ==> Bare(S()) && AtBoundary(S())
      ensures !ok ==> state == if cancelConnect then Disconnected else Error
      ensures calm && !old(Serves(mac)) ==> (ok <==> SomeAttemptWorks(answers, old(HasSpareBus())))
      ensures calm && !old(Serves(mac)) && ok ==> Up(S(), mac) && !notifyAttached
    {
      hide Watch, Observe, Exclusive, SomeAttemptWorks, AtBoundary, Up, Fallen;
      ghost var outside := S();
      Enter(me);
      BoundaryIsOfTheSession(outside, S());
      cancelConnect := false;
      BoundaryIsOfTheSession(outside, S());
      ok := ConnectInside(mac, answers);
      ghost var inside := S();
      Leave();
      AfterConnect(inside, S(), mac, ok);
    }

    /** Only the request to cancel is withdrawn, and the operation noted. */
    predicate Untouched(before: Session)
      reads this
    {
      S() == before.(world := world, cancel := false)
    }

    /** The body of `connect`, inside the lock. */
    method ConnectInside(mac: string, answers: seq<ConnectAnswers>) returns (ok: bool)
      requires Held(S()) && AtBoundary(S()) && !cancelConnect
      modifies this
      ensures Held(S()) && Grows(old(S()), S())
      ensures ok ==> UpOrFallen(S(), mac) || (S() == old(S()) && state.Connected?)
      ensures ok && drops == old(drops) ==> state.Connected? && connectedMac == Some(mac)
      ensures ok && !state.Connected? ==> !tasks.keepalive.Sleeping? && !tasks.dst.Sleeping?
      ensures !ok ==> Bare(S()) && AtBoundary(S())
      ensures !ok ==> state == if cancelConnect then Disconnected else Error
      ensures calm && !old(Serves(mac)) ==> (ok <==> SomeAttemptWorks(answers, old(HasSpareBus())))
      ensures calm && !old(Serves(mac)) && ok ==> Up(S(), mac) && !notifyAttached
    {
      hide Watch, Observe, Exclusive, SomeAttemptWorks;
      if state.Connected? {
        if connectedMac == Some(mac) {
          return true;
        }
        DisconnectInternal();
      }
      ok := KeepTrying(mac, answers);
    }

    /** The attempts of `connect`, and the end of a connect that failed or was cancelled. */
    method KeepTrying(mac: string, answers: seq<ConnectAnswers>) returns (ok: bool)
      requires Held(S()) && !state.Connected? && gatt == NO_GATT && connectedMac.None? && !tasks.AnyLive()
      modifies this
      ensures Held(S()) && Grows(old(S()), S())
      ensures ok ==> UpOrFallen(S(), mac) && old(drops) <= world.dropsAtConnect
      ensures ok && !state.Connected? ==> !tasks.keepalive.Sleeping? && !tasks.dst.Sleeping?
      ensures !ok ==> Bare(S()) && AtBoundary(S())
      ensures !ok ==> state == if cancelConnect then Disconnected else Error
      ensures calm && !old(cancelConnect) ==> (ok <==> SomeAttemptWorks(answers, old(bus).Some?))
      ensures calm && ok ==> Up(S(), mac) && !notifyAttached
    {
      hide Watch, Observe, Exclusive, AttemptError;
      state := Connecting;
      var attempt := 0;
      while attempt < |answers| && !cancelConnect
        invariant attempt <= |answers|
        invariant Attempting(S()) && Grows(old(S()), S())
        invariant attempt < |answers| ==> gatt == NO_GATT
        invariant bus.Some? == (attempt == 0 && old(bus).Some?) || attempt == |answers|
        invariant calm ==> forall k: nat :: k < attempt ==> !WorksAt(answers, k, old(bus).Some?)
      {
        var e := AttemptConnection(answers[attempt]);
        if e.None? {
          assert calm ==> WorksAt(answers, attempt, old(bus).Some?);
          Finalize(mac);
          return true;
        }
        if attempt < |answers| - 1 {
          CleanupFailedConnection();
          SuspendAttempt();
        }
        attempt := attempt + 1;
      }
      CleanupFailedConnection();
      state := if cancelConnect then Disconnected else Error;
      return false;
    }

    /** `disconnect`: a connect in progress is asked to give up, then the lock acquired. */
    method Disconnect(me: Actor)
      requires Sound(S()) && AtBoundary(S()) && !locked
      modifies this
      ensures cancelConnect
      ensures Sound(S()) && AtBoundary(S()) && state.Disconnected? && !locked
    {
      hide Watch, Exclusive;
      cancelConnect := true;
      Enter(me);
      DisconnectInternal();
      Leave();
    }

    /** `scan`: the session stays as it is, or drops. */
    method Scan(me: Actor, a: ScanAnswers) returns (r: Option<Exn>)
      requires Sound(S()) && AtBoundary(S()) && !locked
      modifies this
      ensures Sound(S()) && AtBoundary(S()) && !locked
      ensures r == ScanError(a, old(bus).Some?)
      ensures drops == old(drops) ==> state == old(state) && connectedMac == old(connectedMac) && gatt == old(gatt)
    {
      hide Watch, Exclusive, Observe;
      Enter(me);
      r := ScanUnlocked(a);
      Leave();
    }

    /** `pair`: unlike on demand, it disconnects the device after a while; its own session stays as it is, or drops. */
    method Pair(me: Actor, bus: Option<Exn>, p: PairAnswers) returns (r: Outcome<bool>)
      requires Sound(S()) && AtBoundary(S()) && !locked
      modifies this
      ensures Sound(S()) && AtBoundary(S()) && !locked
      ensures r == if BusError(old(this.bus).Some?, bus).Some? then Escaped(bus.value) else PairResult(p)
      ensures drops == old(drops) ==> state == old(state) && connectedMac == old(connectedMac) && gatt == old(gatt)
    {
      hide Watch, Exclusive, Observe, PairOutcome;
      Enter(me);
      r := PairAndPart(bus, p);
      Leave();
    }

    /** The body of `pair`: after pairing it waits, and disconnects the device. */
    method PairAndPart(bus: Option<Exn>, p: PairAnswers) returns (r: Outcome<bool>)
      requires Held(S())
      modifies this
      ensures Held(S()) && LinkKept(old(S()), S())
      ensures r == if BusError(old(this.bus).Some?, bus).Some? then Escaped(bus.value) else PairResult(p)
    {
      hide Watch, Exclusive, Observe, PairOutcome, LinkKept, AfterPairing;
      ghost var before := S();
      var paired := PairUnlocked(bus, p);
      if paired.Escaped? {
        return Escaped(paired.error);
      }
      if paired.value.1.None? {
        SuspendOn(before);
        SuspendOn(before);
      }
      return Returned(paired.value.0);
    }

    /**
     `unpair`: whether BlueZ removed the device; what is not a D-Bus error escapes. The session stays as
     it is, or drops.
     */
    method Unpair(me: Actor, bus: Option<Exn>, reaching: Option<Exn>, raised: Option<Exn>) returns (r: Outcome<bool>)
      requires Sound(S()) && AtBoundary(S()) && !locked
      modifies this
      ensures Sound(S()) && AtBoundary(S()) && !locked
      ensures r ==
        if BusError(old(this.bus).Some?, bus).Some? then Escaped(bus.value) else UnpairResult(reaching, raised)
      ensures drops == old(drops) ==> state == old(state) && connectedMac == old(connectedMac) && gatt == old(gatt)
    {
      hide Watch, Exclusive, Observe;
      Enter(me);
      r := UnpairUnlocked(bus, reaching, raised);
      Leave();
    }

    /** The body of `unpair`. */
    method UnpairUnlocked(bus: Option<Exn>, reaching: Option<Exn>, raised: Option<Exn>) returns (r: Outcome<bool>)
      requires Held(S())
      modifies this
      ensures Held(S()) && LinkKept(old(S()), S())
      ensures r ==
        if BusError(old(this.bus).Some?, bus).Some? then Escaped(bus.value) else UnpairResult(reaching, raised)
    {
      hide Watch, Exclusive, Observe, LinkKept;
      ghost var before := S();
      LinkKeptSelf(before);
      var e := EnsureBus(bus);
      if e.Some? {
        return Escaped(e.value);
      }
      SuspendOn(before);
      if reaching.Some? {
        return Escaped(reaching.value);
      }
      NoteOn(before, RemoveDevice);
      SuspendOn(before);
      if raised.Some? && !raised.value.DBus? {
        return Escaped(raised.value);
      }
      return Returned(raised.None?);
    }
  }

  // ---------- Runs in which less holds than one might think ----------

  const REACHED := Reaching(None, None, true, true, false)

  const FOUND := Discovery(None, true, false, true, true, true)

  /** An attempt, a scan and a subscription that go well. */
  const CONNECTS := ConnectAnswers(REACHED, None, FOUND)

  const NOTIFIES := NotifyAnswers(None, false, None, false)

  const NO_RECOVERY := RecoveryAnswers(None, false, None, false, None, CONNECTS)

  const PAIRED := PairAnswers(None, true, true, None, true)

  function AllWell(first: ConnectAnswers, notify: NotifyAnswers): Answers {
    Answers(first, ScanAnswers(None, None), CONNECTS, NO_RECOVERY, notify, PAIRED, NOTIFIES)
  }

  /**
   A failed connect that keeps its bus: the first attempt raises a stale-bond signature, and the device
   turns out not paired.
   */
  method FailureKeepsBus() returns (adapter: BLEAdapter, r: Outcome<Result>)
    ensures fresh(adapter) && r.Returned? && !r.value.success && r.value.stage.StageConnect? && adapter.bus.Some?
  {
    adapter := new BLEAdapter(true);
    var raised := DBus(STALE_BOND_NAME, "");
    NotInShortText("", "In Progress");
    NotInShortText("Connect failed: ", DEVICE_NOT_FOUND);
    assert "Connect failed: " + "" == "Connect failed: ";
    assert ConnectError(raised) == Connection("Connect failed: ", Some(raised));
    var answers := AllWell(CONNECTS.(raised := Some(raised)), NOTIFIES);
    r := adapter.EnsureConnected(Other(0), "AA:BB:CC:DD:EE:FF", true, answers);
  }

  /** A success whose link has fallen: it drops while `StartNotify` is awaited. */
  method ConnectedButFallen() returns (adapter: BLEAdapter, r: Outcome<Result>)
    ensures fresh(adapter) && r == Returned(CONNECTED) && adapter.state.Disconnected?
  {
    adapter := new BLEAdapter(true);
    r := adapter.EnsureConnected(Other(0), "AA:BB:CC:DD:EE:FF", true, AllWell(CONNECTS, NOTIFIES.(falls := true)));
  }

  /** An already connected device without a handler: connected, and never subscribed to. */
  method ConnectedWithoutHandler() returns (adapter: BLEAdapter, r: Outcome<Result>)
    ensures fresh(adapter) && r.Returned? && r.value.success && adapter.state.Connected? && !OneHandler(adapter.S())
  {
    adapter := new BLEAdapter(true);
    var answers := [CONNECTS, CONNECTS, CONNECTS];
    assert WorksAt(answers, 0, false);
    var ok := adapter.Connect(Other(0), "AA:BB:CC:DD:EE:FF", answers);
    r := adapter.EnsureConnected(Other(1), "AA:BB:CC:DD:EE:FF", true, AllWell(CONNECTS, NOTIFIES));
  }

  /**
   Whatever the adapter did before: when nothing but BlueZ's answers happens, a device that is reached and
   asks for pairing is paired, by one call of `Pair`, and connected.
   */
  method PairedOnDemand(adapter: BLEAdapter, me: Actor, mac: string, userInitiated: bool, a: Answers)
    returns (r: Outcome<Result>)
    requires Sound(adapter.S()) && AtBoundary(adapter.S()) && !adapter.locked
    requires adapter.calm && !adapter.Serves(mac) && PairingMends(a)
    modifies adapter
    ensures r == Returned(CONNECTED) && adapter.world.monitor.pairs == 1
  {
    hide PairingMends, Sound, AtBoundary, Disciplined, Watch, EndsConnected, EnsureOutcome;
    PairsOnDemand(userInitiated, a, adapter.HasSpareBus());
    r := adapter.EnsureConnected(me, mac, userInitiated, a);
  }
}
