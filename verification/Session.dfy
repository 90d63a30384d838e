/**
 The adapter's session as a value: its fields, the facts kept about BlueZ, and the effect of
 the events that can strike at any `await` (ble_service/src/ble_adapter.py:556-628,
 ble_service/src/ble_adapter.py:1163-1184, ble_service/src/ble_adapter.py:1238-1375).
 */
module Session {
  import opened Options
  import opened BondMonitor
  import opened OperationLock

  datatype LinkState = Disconnected | Connecting | Connected | Disconnecting | Error

  /** A background task: created and not yet run, asleep in its loop, or over. */
  datatype Task = NoTask | Created | Sleeping | Finished

  predicate Live(t: Task) {
    t.Created? || t.Sleeping?
  }

  /** Which D-Bus proxies the adapter holds; the properties proxy of the read characteristic by its identity. */
  datatype Gatt = Gatt(dev: bool, props: bool, readChar: bool, readProps: Option<nat>, writeChar: bool)

  const NO_GATT := Gatt(false, false, false, None, false)

  datatype Tasks = Tasks(keepalive: Task, dst: Task)
  {
    predicate AnyLive() {
      Live(keepalive) || Live(dst)
    }
  }

  const NO_TASKS := Tasks(NoTask, NoTask)

  /**
   What others cannot change while an operation runs: who runs it, identities handed out, buses with an
   agent, how often one was registered or tried to be, and the watch over BlueZ operations.
   */
  datatype World = World(
    me: Actor, nextBus: nat, nextProxy: nat, agentBuses: set<nat>, registrations: nat, dropsAtConnect: nat,
    monitor: Monitor, trace: seq<Op>)

  /**
   Where a `start_notify` outside the lock stands: reading the state, or awaiting BlueZ with the
   handler on this proxy.
   */
  datatype Notifying = Reading | Starting(on: nat)

  /** The `start_notify` calls outside the lock, and how many handlers they took off again. */
  datatype Others = Others(notifiers: map<Actor, Notifying>, taken: nat)

  /**
   `cancel` says that a disconnect asked a connect in progress to give up, `calm` that nothing strikes at
   any `await` of this run.
   */
  datatype Session = Session(
    state: LinkState, mac: Option<string>, gatt: Gatt, tasks: Tasks,
    lock: Lock, agentRegistered: bool,
    notifyAttached: bool, handlers: map<nat, nat>,
    drops: nat, others: Others, cancel: bool, calm: bool, world: World)
  {
    function HandlersOn(proxy: nat): nat {
      if proxy in handlers then handlers[proxy] else 0
    }
  }

  function Start(calm: bool): Session {
    Session(Disconnected, None, NO_GATT, NO_TASKS, UNLOCKED, false, false, map[], 0, Others(map[], 0), false, calm,
            World(Other(0), 0, 0, {}, 0, 0, Watching(false), []))
  }

  // ---------- Invariants ----------

  /** The agent flag implies a live bus on which RegisterAgent was issued. */
  predicate AgentTracksBus(s: Session) {
    s.agentRegistered ==> s.lock.bus.Some? && s.lock.bus.value in s.world.agentBuses
  }

  /** The live characteristic proxy carries one handler if the flag is set and none otherwise. */
  predicate AtMostOneHandler(s: Session) {
    if s.gatt.readProps.Some? then s.HandlersOn(s.gatt.readProps.value) == (if s.notifyAttached then 1 else 0)
    else !s.notifyAttached
  }

  predicate IdsAreFresh(s: Session) {
    && (s.lock.bus.Some? ==> s.lock.bus.value < s.world.nextBus)
    && (forall b :: b in s.world.agentBuses ==> b < s.world.nextBus)
    && (s.gatt.readProps.Some? ==> s.gatt.readProps.value < s.world.nextProxy)
    && (forall p :: p in s.handlers ==> p < s.world.nextProxy)
  }

  /** Connected means no effective drop since the link came up. */
  predicate ConnectedSinceNoDrop(s: Session) {
    s.world.dropsAtConnect <= s.drops && (s.state.Connected? ==> s.world.dropsAtConnect == s.drops)
  }

  predicate Sound(s: Session) {
    && AgentTracksBus(s) && AtMostOneHandler(s) && IdsAreFresh(s) && ConnectedSinceNoDrop(s)
    && (s.gatt.readProps.Some? ==> s.gatt.readChar)
    && s.world.monitor == Watch(s.world.trace, s.world.monitor.userInitiated)
    && Exclusive(s.lock)
  }

  /** The operation that runs is inside the lock, and awaits no bus and no agent. */
  predicate Held(s: Session) {
    Sound(s) && Stands(s.lock, s.world.me, Holding)
  }

  /**
   Between operations: connected with what a subscription needs, or nothing of a session remains and no
   task of it sleeps on.
   */
  predicate AtBoundary(s: Session) {
    if s.state.Connected? then s.mac.Some? && s.gatt.readChar && s.gatt.readProps.Some?
    else s.gatt == NO_GATT && s.mac.None? && !s.tasks.AnyLive()
  }

  // ---------- Events ----------

  /** `_on_disconnect_detected`: only the first report after a connect has an effect. */
  function Drop(s: Session): (r: Session)
    ensures Sound(s) ==> Sound(r)
    ensures r.drops > s.drops ==> r.state.Disconnected? && r.gatt == NO_GATT && r.mac.None? && r.tasks == NO_TASKS
  {
    if s.state.Disconnected? then s
    else s.(state := Disconnected, mac := None, gatt := NO_GATT, tasks := NO_TASKS, notifyAttached := false,
            drops := s.drops + 1)
  }

  /** `_on_agent_released` */
  function AgentGone(s: Session): (r: Session)
    ensures Sound(s) ==> Sound(r)
    ensures !r.agentRegistered
  {
    s.(agentRegistered := false)
  }

  /** The middle of `start_notify`: attach the handler once per proxy. */
  function Attach(s: Session): (r: Session)
    requires s.gatt.readProps.Some?
    ensures Sound(s) ==> Sound(r)
    ensures r.notifyAttached
  {
    var p := s.gatt.readProps.value;
    if s.notifyAttached then s else s.(notifyAttached := true, handlers := s.handlers[p := s.HandlersOn(p) + 1])
  }

  /** `_detach_notify_handler` */
  function Detach(s: Session): (r: Session)
    ensures Sound(s) ==> Sound(r)
    ensures !r.notifyAttached
  {
    if s.notifyAttached && s.gatt.readProps.Some? && s.HandlersOn(s.gatt.readProps.value) > 0 then
      var p := s.gatt.readProps.value;
      s.(notifyAttached := false, handlers := s.handlers[p := s.HandlersOn(p) - 1])
    else s.(notifyAttached := false)
  }

  /** `reset_bus` where its caller allows it. */
  function ResetBus(s: Session): (r: Session)
    ensures Sound(s) ==> Sound(r)
    ensures !s.lock.locked ==> r.lock.bus.None? && !r.agentRegistered
  {
    if s.lock.locked then s
    else assert Sound(s) ==> Exclusive(ResetIfFree(s.lock)); s.(lock := ResetIfFree(s.lock), agentRegistered := false)
  }

  /** A new bus carries an identity never handed out before. */
  predicate MayMove(s: Session, a: Actor, m: Move) {
    May(s.lock, a, m) && (m.Open? ==> m.newBus == s.world.nextBus)
  }

  /** A step on lock and bus, with what goes with it: `_reset_state` forgets all the bus carried. */
  function Moved(s: Session, a: Actor, m: Move): (r: Session)
    requires MayMove(s, a, m)
    ensures Sound(s) ==> Sound(r)
    ensures r.lock == Do(s.lock, a, m)
  {
    assert Sound(s) ==> Exclusive(Do(s.lock, a, m)) by {
      if Sound(s) {
        MoveKeepsExclusive(s.lock, a, m);
      }
    }
    var n := s.(lock := Do(s.lock, a, m));
    match m
    case Open(b) => n.(world := n.world.(nextBus := b + 1))
    case StartRegistering => n.(world := n.world.(registrations := n.world.registrations + 1))
    case DropBus => n.(gatt := NO_GATT, mac := None, notifyAttached := false, agentRegistered := false)
    case _ => n
  }

  /** RegisterAgent is issued on the bus the caller took with it. */
  function Issue(s: Session, a: Actor): (r: Session)
    requires a in s.lock.inside && s.lock.inside[a].Registering?
    ensures Sound(s) ==> Sound(r)
  {
    s.(world := s.world.(agentBuses := s.world.agentBuses + {s.lock.inside[a].on}))
  }

  /** The agent is registered and the default one: the flag is set, whatever bus there is now. */
  function Confirm(s: Session, a: Actor): (r: Session)
    requires a in s.lock.inside && s.lock.inside[a].Registering? && s.lock.inside[a].on in s.world.agentBuses
    ensures Sound(s) ==> Sound(r)
  {
    s.(agentRegistered := true)
  }

  /** A fresh properties proxy of the read characteristic. */
  function TakeProxy(s: Session): (r: Session)
    requires s.gatt.readProps.None?
    ensures Sound(s) ==> Sound(r)
  {
    s.(gatt := s.gatt.(readChar := true, readProps := Some(s.world.nextProxy)),
       world := s.world.(nextProxy := s.world.nextProxy + 1))
  }

  /** The operation changes the state; becoming connected starts a new count of drops. */
  function Become(s: Session, state: LinkState): (r: Session)
    ensures Sound(s) ==> Sound(r)
  {
    s.(state := state,
       world := s.world.(dropsAtConnect := if state.Connected? then s.drops else s.world.dropsAtConnect))
  }

  function NotifyAt(s: Session, a: Actor, place: Notifying): (r: Session)
    ensures Sound(s) ==> Sound(r)
  {
    s.(others := s.others.(notifiers := s.others.notifiers[a := place]))
  }

  /** A `start_notify` is over, having taken so many handlers off. */
  function NotifyOver(s: Session, a: Actor, taken: nat): (r: Session)
    ensures Sound(s) ==> Sound(r)
  {
    s.(others := Others(s.others.notifiers - {a}, s.others.taken + taken))
  }

  /** The event loop runs freshly created tasks: each checks the link first and ends at once without one. */
  function RunTask(t: Task, connected: bool): Task {
    if t.Created? then if connected then Sleeping else Finished else t
  }

  function RunTasks(t: Tasks, connected: bool): Tasks {
    Tasks(RunTask(t.keepalive, connected), RunTask(t.dst, connected))
  }

  /** A task that was only created sleeps on a live link, and ends without one; no other is touched. */
  lemma TasksVerdict(t: Tasks, connected: bool)
    ensures t.keepalive == Created ==> RunTasks(t, connected).keepalive == if connected then Sleeping else Finished
    ensures t.dst == Created ==> RunTasks(t, connected).dst == if connected then Sleeping else Finished
    ensures t.keepalive != Created ==> RunTasks(t, connected).keepalive == t.keepalive
    ensures t.dst != Created ==> RunTasks(t, connected).dst == t.dst
  {
  }

  /** Everything that happens to a session, by whoever's doing. */
  datatype Event =
    | LinkDrops
    | AgentReleased
    | NotifyBegins(a: Actor)
    | NotifyAttaches(a: Actor)
    | NotifyEnds(a: Actor)
    | NotifyFails(a: Actor)
    | Detaches(a: Actor)
    | TasksRun
    | CancelRequested
    | BusReset
    | Moves(a: Actor, m: Move)
    | Issues(a: Actor)
    | Confirms(a: Actor)
    | TakesProxy(a: Actor)
    | Becomes(a: Actor, state: LinkState)

  /** The events that are steps of an operation are possible only where its code stands; the others always. */
  predicate CanHappen(s: Session, e: Event) {
    match e
    case NotifyBegins(a) => a !in s.others.notifiers && s.state.Connected? && s.gatt.readChar && s.gatt.readProps.Some?
    case NotifyAttaches(a) => a in s.others.notifiers && s.others.notifiers[a].Reading? && s.gatt.readProps.Some?
    case NotifyEnds(a) => a in s.others.notifiers
    case NotifyFails(a) => a in s.others.notifiers && s.others.notifiers[a].Starting?
    case Detaches(a) => Stands(s.lock, a, Holding)
    case Moves(a, m) => MayMove(s, a, m)
    case Issues(a) => a in s.lock.inside && s.lock.inside[a].Registering?
    case Confirms(a) => a in s.lock.inside && s.lock.inside[a].Registering? && s.lock.inside[a].on in s.world.agentBuses
    case TakesProxy(a) => Stands(s.lock, a, Holding) && s.gatt.readProps.None?
    case Becomes(a, _) => Stands(s.lock, a, Holding)
    case _ => true
  }

  function Happened(s: Session, e: Event): (r: Session)
    requires CanHappen(s, e)
    ensures Sound(s) ==> Sound(r)
    ensures r.calm == s.calm
  {
    match e
    case LinkDrops => Drop(s)
    case AgentReleased => AgentGone(s)
    case NotifyBegins(a) => NotifyAt(s, a, Reading)
    case NotifyAttaches(a) => NotifyAt(Attach(s), a, Starting(s.gatt.readProps.value))
    case NotifyEnds(a) => NotifyOver(s, a, 0)
    case NotifyFails(a) => NotifyOver(Detach(s), a, if s.notifyAttached then 1 else 0)
    case Detaches(_) => Detach(s)
    case TasksRun => s.(tasks := RunTasks(s.tasks, s.state.Connected?))
    case CancelRequested => s.(cancel := true)
    case BusReset => ResetBus(s)
    case Moves(a, m) => Moved(s, a, m)
    case Issues(a) => Issue(s, a)
    case Confirms(a) => Confirm(s, a)
    case TakesProxy(_) => TakeProxy(s)
    case Becomes(_, state) => Become(s, state)
  }

  /** The event is a step of `a`. */
  predicate IsBy(e: Event, a: Actor) {
    !e.LinkDrops? && !e.AgentReleased? && !e.TasksRun? && !e.CancelRequested? && !e.BusReset? && e.a == a
  }

  // ---------- Whole runs ----------

  predicate Possible(s: Session, run: seq<Event>)
    decreases |run|
  {
    run == [] || (CanHappen(s, run[0]) && Possible(Happened(s, run[0]), run[1..]))
  }

  function After(s: Session, run: seq<Event>): Session
    requires Possible(s, run)
    decreases |run|
  {
    if run == [] then s else After(Happened(s, run[0]), run[1..])
  }

  lemma {:induction false} SoundAfter(s: Session, run: seq<Event>)
    requires Sound(s) && Possible(s, run)
    ensures Sound(After(s, run))
    decreases |run|
  {
    hide Sound, CanHappen;
    if run == [] {
    } else {
      SoundAfter(Happened(s, run[0]), run[1..]);
    }
  }

  /**
   Over every run from the start, by any number of actors: the agent flag implies a live bus on which RegisterAgent was
   issued, and the live characteristic proxy carries one handler if the flag is set and none otherwise.
   */
  lemma EveryRunIsSound(calm: bool, run: seq<Event>)
    requires Possible(Start(calm), run)
    ensures AgentTracksBus(After(Start(calm), run)) && AtMostOneHandler(After(Start(calm), run))
    ensures Exclusive(After(Start(calm), run).lock)
  {
    hide Possible, After;
    SoundAfter(Start(calm), run);
  }

  // ---------- Suspension of an operation ----------

  /** The link as it was, or dropped once; an attached handler stays attached unless another task detaches one. */
  predicate LinkKept(a: Session, b: Session) {
    && a.others.taken <= b.others.taken && (a.cancel ==> b.cancel)
    && b.calm == a.calm
    && (a.calm ==> b.drops == a.drops && b.others == a.others)
    && (a.calm ==> b.cancel == a.cancel && b.notifyAttached == a.notifyAttached)
    && a.world.me == b.world.me
    && a.world.dropsAtConnect == b.world.dropsAtConnect && a.world.nextProxy == b.world.nextProxy
    && (if b.drops == a.drops then
          && a.state == b.state && a.mac == b.mac && a.gatt == b.gatt
          && (b.tasks == a.tasks || b.tasks == RunTasks(a.tasks, a.state.Connected?))
          && (a.others.taken == b.others.taken && a.notifyAttached ==> b.notifyAttached)
        else
          && !a.state.Disconnected? && b.drops == a.drops + 1
          && b.state.Disconnected? && b.mac.None? && b.gatt == NO_GATT && b.tasks == NO_TASKS)
  }

  predicate SameWatch(a: Session, b: Session) {
    a.world.monitor == b.world.monitor && a.world.trace == b.world.trace
  }

  /** What a suspension leaves as it was, and what it may have done. */
  predicate Suspended(a: Session, b: Session) {
    LinkKept(a, b) && a.lock == b.lock && a.world == b.world && (b.agentRegistered ==> a.agentRegistered)
  }

  lemma LinkKeptSelf(a: Session)
    ensures LinkKept(a, a)
  {
  }

  lemma LinkKeptTwice(a: Session, b: Session, c: Session)
    requires LinkKept(a, b) && LinkKept(b, c)
    ensures LinkKept(a, c)
  {
  }

  /**
   While an operation is inside the lock, the events that are not its own leave lock, bus and its own
   records alone.
   */
  lemma SuspensionGrows(a: Session, b: Session, e: Event)
    requires Suspended(a, b) && !a.calm
    requires Sound(b) && b.world.me in b.lock.inside && CanHappen(b, e) && !IsBy(e, b.world.me)
    ensures Suspended(a, Happened(b, e))
  {
    hide Watch, AgentTracksBus, AtMostOneHandler, IdsAreFresh, ConnectedSinceNoDrop;
    if e.Moves? {
      OthersAreShutOut(b.lock, b.world.me, e.a, e.m);
    }
  }

  lemma TasksRunSuspends(a: Session, b: Session)
    requires Suspended(a, b)
    ensures Suspended(a, Happened(b, TasksRun))
  {
  }

  // ---------- Handlers taken by others ----------

  /** The live proxy `q` loses its one handler. */
  predicate Loses(s: Session, n: Session, q: nat) {
    s.gatt.readProps == Some(q) && s.HandlersOn(q) == 1 && n.HandlersOn(q) == 0
  }

  /**
   A `start_notify` that fails outside the lock takes the handler off the proxy that is live then, exactly if there
   is one:
   another session's, exactly if that proxy is not the one it started on.
   */
  lemma FailedNotifyVerdict(s: Session, a: Actor)
    requires Sound(s) && CanHappen(s, NotifyFails(a))
    ensures forall q: nat ::
      Loses(s, Happened(s, NotifyFails(a)), q) <==> s.notifyAttached && s.gatt.readProps == Some(q)
    ensures var n, started := Happened(s, NotifyFails(a)), s.others.notifiers[a].on;
      (exists q: nat :: q != started && Loses(s, n, q)) <==> s.notifyAttached && s.gatt.readProps != Some(started)
  {
    hide Watch, Exclusive;
    if s.notifyAttached {
      assert Loses(s, Happened(s, NotifyFails(a)), s.gatt.readProps.value);
    }
  }

  /** An operation connects, and leaves the lock again. */
  function Connects(a: Actor): seq<Event> {
    [Moves(a, Acquire), Becomes(a, Connected), TakesProxy(a), Moves(a, Release)]
  }

  /** A `start_notify` outside the lock, up to its call of BlueZ. */
  function Notifies(a: Actor): seq<Event> {
    [NotifyBegins(a), NotifyAttaches(a)]
  }

  /** What connecting makes of a session without one. */
  function ConnectedBy(s: Session): Session
    requires s.gatt.readProps.None?
  {
    TakeProxy(Become(s, Connected))
  }

  lemma OneRuns(s: Session, e: Event)
    requires CanHappen(s, e)
    ensures Possible(s, [e]) && After(s, [e]) == Happened(s, e)
  {
    hide CanHappen, Happened;
    assert [e][1..] == [];
    assert Possible(Happened(s, e), []) && After(Happened(s, e), []) == Happened(s, e);
  }

  lemma ConnectsRuns(s: Session, a: Actor)
    requires s.lock == UNLOCKED && s.gatt.readProps.None?
    ensures Possible(s, Connects(a)) && After(s, Connects(a)) == ConnectedBy(s)
  {
    hide Possible, After, Sound;
    var s1 := Happened(s, Moves(a, Acquire));
    var s2 := Happened(s1, Becomes(a, Connected));
    var s3 := Happened(s2, TakesProxy(a));
    var s4 := Happened(s3, Moves(a, Release));
    assert s4.lock == UNLOCKED;
    assert s4 == ConnectedBy(s);
    OneRuns(s, Moves(a, Acquire));
    OneRuns(s1, Becomes(a, Connected));
    OneRuns(s2, TakesProxy(a));
    OneRuns(s3, Moves(a, Release));
    hide CanHappen, Happened;
    var run := [Moves(a, Acquire)];
    AfterBoth(s, run, [Becomes(a, Connected)]);
    AfterBoth(s, run + [Becomes(a, Connected)], [TakesProxy(a)]);
    AfterBoth(s, run + [Becomes(a, Connected)] + [TakesProxy(a)], [Moves(a, Release)]);
    assert run + [Becomes(a, Connected)] + [TakesProxy(a)] + [Moves(a, Release)] == Connects(a);
  }

  lemma NotifiesRuns(s: Session, a: Actor)
    requires a !in s.others.notifiers && s.state.Connected? && s.gatt.readChar && s.gatt.readProps.Some?
    ensures Possible(s, Notifies(a))
    ensures After(s, Notifies(a)) == NotifyAt(Attach(s), a, Starting(s.gatt.readProps.value))
  {
    var s1 := Happened(s, NotifyBegins(a));
    var s2 := Happened(s1, NotifyAttaches(a));
    var run := Notifies(a);
    assert run[1..] == [NotifyAttaches(a)];
    assert run[1..][1..] == [];
    assert Possible(s2, []) && After(s2, []) == s2;
    assert Possible(s1, run[1..]) && After(s1, run[1..]) == s2;
    assert s2.others.notifiers == s.others.notifiers[a := Starting(s.gatt.readProps.value)];
  }

  lemma {:induction false} AfterBoth(s: Session, run: seq<Event>, more: seq<Event>)
    requires Possible(s, run) && Possible(After(s, run), more)
    ensures Possible(s, run + more) && After(s, run + more) == After(After(s, run), more)
    decreases |run|
  {
    hide CanHappen, Happened;
    if run == [] {
      assert run + more == more;
    } else {
      AfterBoth(Happened(s, run[0]), run[1..], more);
      assert (run + more)[0] == run[0] && (run + more)[1..] == run[1..] + more;
    }
  }

  /** A `start_notify` still awaiting BlueZ when its link drops and another session takes over. */
  function Overtaking(): seq<Event> {
    Connects(Other(0)) + Notifies(Other(1)) + [LinkDrops] + Connects(Other(2)) + Notifies(Other(2))
  }

  /** Whose failure then takes the later session's handler. */
  lemma HandlerIsTaken()
    ensures Possible(Start(false), Overtaking())
    ensures var s := After(Start(false), Overtaking());
      CanHappen(s, NotifyFails(Other(1))) && s.others.notifiers[Other(1)].on == 0 &&
      Loses(s, Happened(s, NotifyFails(Other(1))), 1)
  {
    hide Possible, After;
    var s := Start(false);
    ConnectsRuns(s, Other(0));
    var s1 := ConnectedBy(s);
    NotifiesRuns(s1, Other(1));
    var s2 := NotifyAt(Attach(s1), Other(1), Starting(0));
    AfterBoth(s, Connects(Other(0)), Notifies(Other(1)));
    var s3 := Drop(s2);
    DropRuns(s2);
    AfterBoth(s, Connects(Other(0)) + Notifies(Other(1)), [LinkDrops]);
    ConnectsRuns(s3, Other(2));
    AfterBoth(s, Connects(Other(0)) + Notifies(Other(1)) + [LinkDrops], Connects(Other(2)));
    var s4 := ConnectedBy(s3);
    NotifiesRuns(s4, Other(2));
    AfterBoth(s, Connects(Other(0)) + Notifies(Other(1)) + [LinkDrops] + Connects(Other(2)), Notifies(Other(2)));
  }

  lemma DropRuns(s: Session)
    ensures Possible(s, [LinkDrops]) && After(s, [LinkDrops]) == Drop(s)
  {
    assert [LinkDrops][1..] == [];
    assert Possible(Drop(s), []) && After(Drop(s), []) == Drop(s);
  }
}
