/**
 Connecting, reconnecting and the PIN probe (ble_service/src/main.py:825-1255,
 ble_service/src/main.py:1585-1800): a transition system whose steps are the stretches of code
 between two `await`s, for any number of routes, background tasks and lock holders.
 */
module Protocol {
  import opened Options
  import opened OperationLock

  /** Milliseconds after arming during which a disconnect reads as a rejected PIN. */
  const PIN_REQUIRED_WINDOW: int := 5000

  /** The number of retry delays. */
  const ATTEMPTS: nat := 4

  // ---------- State ----------

  datatype Profile = Reconnect | Startup

  /** Where a background task waits: not yet run, for the hardware, for a delay, or for a connect attempt. */
  datatype Phase = Fresh | Settling | Waiting(attempt: nat) | Trying(attempt: nat) | Over

  datatype Background = Background(profile: Profile, phase: Phase, cancelled: bool, tried: nat)
  {
    predicate Running() {
      !phase.Over? && !cancelled
    }

    predicate Retrying() {
      Running() && (phase.Waiting? || phase.Trying?)
    }
  }

  /** The background tasks and what the service state says about them. */
  datatype Ladder = Ladder(tasks: seq<Background>, reconnect: Option<nat>, auto: Option<nat>, reconnecting: bool)
  {
    /** The reference names a task that is not done. */
    predicate Pending(ref: Option<nat>) {
      ref.Some? && ref.value < |tasks| && !tasks[ref.value].phase.Over?
    }

    function Referenced(): set<nat> {
      (if reconnect.Some? then {reconnect.value} else {}) + (if auto.Some? then {auto.value} else {})
    }
  }

  datatype Probe = Probe(deadline: Option<int>, inits: int, armings: nat, suppressed: nat)

  /** A call of the `ensure_connected` route: waiting for cancelled tasks, connecting, or initialising. */
  datatype Route = Gathering(waits: set<nat>) | Admitted | Initialising(deadline: int)

  /** The adapter as seen from outside: its operation lock and bus, and its link. */
  datatype Link = Link(lock: Lock, up: bool)

  datatype State = State(
    now: int, userDisconnected: bool, ladder: Ladder, probe: Probe, routes: map<nat, Route>, link: Link)

  function Initially(autoConnect: bool): State {
    var ladder := if autoConnect then Ladder([Background(Startup, Fresh, false, 0)], None, Some(0), false)
                  else Ladder([], None, None, false);
    State(0, false, ladder, Probe(None, 0, 0, 0), map[], Link(UNLOCKED, false))
  }

  // ---------- Background tasks ----------

  function SetTask(l: Ladder, t: nat, b: Background): Ladder
    requires t < |l.tasks|
  {
    l.(tasks := l.tasks[t := b])
  }

  /** `task.cancel()` on a task that is not done: a request, delivered when the task next runs. */
  function Cancel(l: Ladder, ref: Option<nat>): Ladder {
    if l.Pending(ref) then SetTask(l, ref.value, l.tasks[ref.value].(cancelled := true)) else l
  }

  /** The task returns, having cleared the reconnecting flag. */
  function Finish(l: Ladder, t: nat): Ladder
    requires t < |l.tasks|
  {
    SetTask(l, t, l.tasks[t].(phase := Over)).(reconnecting := false)
  }

  /** The guard of `_connect_and_initialize` on dropping the bus. */
  predicate MayResetBus(s: State) {
    !s.link.lock.locked && s.probe.inits == 0
  }

  /** The first stretch of `_connect_and_initialize`. */
  function BeginConnect(s: State): State {
    if MayResetBus(s) then s.(link := s.link.(lock := s.link.lock.(bus := None))) else s
  }

  function Try(s: State, t: nat, attempt: nat): State
    requires t < |s.ladder.tasks|
  {
    var b := s.ladder.tasks[t];
    BeginConnect(s.(ladder := SetTask(s.ladder, t, b.(phase := Trying(attempt), tried := b.tried + 1))))
  }

  /** The top of the retry loop, for attempt `attempt`. */
  function LoopTop(s: State, t: nat, attempt: nat): State
    requires t < |s.ladder.tasks|
  {
    var b := s.ladder.tasks[t];
    if attempt > ATTEMPTS || s.userDisconnected then s.(ladder := Finish(s.ladder, t))
    else if b.profile.Startup? then
      if s.link.up then s.(ladder := Finish(s.ladder, t)) else Try(s, t, attempt)
    else s.(ladder := SetTask(s.ladder, t, b.(phase := Waiting(attempt))))
  }

  function EnterRetry(s: State, t: nat): State
    requires t < |s.ladder.tasks|
  {
    LoopTop(s.(ladder := s.ladder.(reconnecting := true)), t, 1)
  }

  /** A task runs on to its next `await`; `answer` is whether a device is known, or whether the attempt succeeded. */
  function TaskRuns(s: State, t: nat, answer: bool): State
    requires t < |s.ladder.tasks|
  {
    var b := s.ladder.tasks[t];
    match b.phase
    case Fresh =>
      if !answer then s.(ladder := SetTask(s.ladder, t, b.(phase := Over)))
      else if b.profile.Reconnect? then EnterRetry(s, t)
      else s.(userDisconnected := false, ladder := SetTask(s.ladder, t, b.(phase := Settling)))
    case Settling => EnterRetry(s, t)
    case Waiting(k) =>
      if b.profile.Startup? then LoopTop(s, t, k + 1)
      else if s.userDisconnected || s.link.up then s.(ladder := Finish(s.ladder, t))
      else Try(s, t, k)
    case Trying(k) =>
      if answer then s.(ladder := Finish(s.ladder, t))
      else if b.profile.Startup? && k < ATTEMPTS then s.(ladder := SetTask(s.ladder, t, b.(phase := Waiting(k))))
      else LoopTop(s, t, k + 1)
    case Over => s
  }

  lemma EnteringRuns(s: State, t: nat)
    requires t < |s.ladder.tasks|
    requires var b := s.ladder.tasks[t]; if b.profile.Startup? then b.phase.Settling? else b.phase.Fresh?
    ensures TaskRuns(s, t, true) == LoopTop(s.(ladder := s.ladder.(reconnecting := true)), t, 1)
  {
  }

  lemma LoopTopMeans(s: State, t: nat, attempt: nat)
    requires t < |s.ladder.tasks|
    ensures var startup := s.ladder.tasks[t].profile.Startup?;
      LoopTop(s, t, attempt) ==
        if attempt > ATTEMPTS || s.userDisconnected || (startup && s.link.up) then s.(ladder := Finish(s.ladder, t))
        else if startup then Try(s, t, attempt)
        else s.(ladder := SetTask(s.ladder, t, s.ladder.tasks[t].(phase := Waiting(attempt))))
  {
  }

  lemma WaitingRuns(s: State, t: nat, answer: bool)
    requires t < |s.ladder.tasks| && s.ladder.tasks[t].phase.Waiting?
    ensures var b := s.ladder.tasks[t];
      TaskRuns(s, t, answer) ==
        if b.profile.Startup? then LoopTop(s, t, b.phase.attempt + 1)
        else if s.userDisconnected || s.link.up then s.(ladder := Finish(s.ladder, t))
        else Try(s, t, b.phase.attempt)
  {
  }

  lemma TryingRuns(s: State, t: nat, answer: bool)
    requires t < |s.ladder.tasks| && s.ladder.tasks[t].phase.Trying?
    ensures var b := s.ladder.tasks[t];
      var k := b.phase.attempt;
      TaskRuns(s, t, answer) ==
        if answer then s.(ladder := Finish(s.ladder, t))
        else if b.profile.Startup? && k < ATTEMPTS then s.(ladder := SetTask(s.ladder, t, b.(phase := Waiting(k))))
        else LoopTop(s, t, k + 1)
  {
  }

  // ---------- Events ----------

  /** A fresh reconnect task, unless the last one is still under way. */
  function ScheduleReconnect(l: Ladder): Ladder {
    if l.Pending(l.reconnect) then l
    else l.(tasks := l.tasks + [Background(Reconnect, Fresh, false, 0)], reconnect := Some(|l.tasks|))
  }

  /** `_on_adapter_disconnect` */
  function LinkLost(s: State): State {
    var s := s.(link := s.link.(up := false));
    if s.userDisconnected then s
    else if s.probe.deadline.Some? && s.now <= s.probe.deadline.value then
      s.(probe := s.probe.(deadline := None, suppressed := s.probe.suppressed + 1))
    else s.(probe := s.probe.(deadline := None), ladder := ScheduleReconnect(s.ladder))
  }

  function PendingSet(l: Ladder): set<nat> {
    (if l.Pending(l.reconnect) then {l.reconnect.value} else {}) + (if l.Pending(l.auto) then {l.auto.value} else {})
  }

  /** The route starts: it cancels the background tasks, and waits for those that were under way. */
  function RouteStart(s: State, r: nat): State {
    var waits := PendingSet(s.ladder);
    if waits == {} then Admit(s, r)
    else
      s.(ladder := Cancel(Cancel(s.ladder, s.ladder.reconnect), s.ladder.auto),
         routes := s.routes[r := Gathering(waits)])
  }

  /** The background tasks are forgotten; a busy adapter then refuses the route (status 409). */
  function Admit(s: State, r: nat): State {
    var s := s.(ladder := s.ladder.(reconnect := None, auto := None, reconnecting := false));
    if s.link.lock.locked then s.(routes := s.routes - {r})
    else s.(userDisconnected := false, routes := s.routes[r := Admitted])
  }

  /** `ensure_connected` succeeded: the probe is armed and the initialisation counted. */
  function Arm(s: State, r: nat): State {
    var deadline := s.now + PIN_REQUIRED_WINDOW;
    s.(probe := s.probe.(deadline := Some(deadline), inits := s.probe.inits + 1, armings := s.probe.armings + 1),
       routes := s.routes[r := Initialising(deadline)])
  }

  /** The `finally` of the initialisation. */
  function Disarm(p: Probe, deadline: int): Probe {
    p.(inits := p.inits - 1, deadline := if p.deadline == Some(deadline) then None else p.deadline)
  }

  function InitEnd(s: State, r: nat): State
    requires r in s.routes && s.routes[r].Initialising?
  {
    s.(probe := Disarm(s.probe, s.routes[r].deadline), routes := s.routes - {r})
  }

  /** Cancel a pending task and forget it; a finished one stays referenced. */
  function StopTasks(l: Ladder): Ladder {
    var stopped := Cancel(Cancel(l, l.auto), l.reconnect);
    stopped.(auto := if l.Pending(l.auto) then None else l.auto,
             reconnect := if l.Pending(l.reconnect) then None else l.reconnect,
             reconnecting := false)
  }

  /** The disconnect and cancel-reconnect routes, up to the adapter's own disconnect. */
  function UserStops(s: State): State {
    s.(userDisconnected := true, ladder := StopTasks(s.ladder))
  }

  datatype Event =
    | Passes(time: nat)
    | RouteStarts(r: nat)
    | GatherEnds(r: nat)
    | Arms(r: nat)
    | RouteFails(r: nat)
    | InitEnds(r: nat)
    | LinkLoses
    | Runs(t: nat, answer: bool)
    | CancelLands(t: nat)
    | CancelSwallowed(t: nat)
    | Stops
    | LegacyConnects
    | Moves(a: Actor, m: Move)
    | ChangesLink(a: Actor, newUp: bool)

  predicate MayAcquire(s: State, a: Actor) {
    match a
    case ByRoute(r) => r in s.routes && s.routes[r].Admitted?
    case ByTask(t) => t < |s.ladder.tasks| && s.ladder.tasks[t].phase.Trying?
    case Other(_) => true
  }

  predicate Enabled(s: State, e: Event) {
    match e
    case Passes(_) => true
    case RouteStarts(r) => r !in s.routes
    case GatherEnds(r) =>
      r in s.routes && s.routes[r].Gathering? &&
      forall t :: t in s.routes[r].waits && t < |s.ladder.tasks| ==> s.ladder.tasks[t].phase.Over?
    case Arms(r) => r in s.routes && s.routes[r].Admitted? && ByRoute(r) !in s.link.lock.inside
    case RouteFails(r) => r in s.routes && s.routes[r].Admitted? && ByRoute(r) !in s.link.lock.inside
    case InitEnds(r) => r in s.routes && s.routes[r].Initialising?
    case LinkLoses => true
    case Runs(t, _) => t < |s.ladder.tasks| && s.ladder.tasks[t].Running() && ByTask(t) !in s.link.lock.inside
    case CancelLands(t) =>
      t < |s.ladder.tasks| && s.ladder.tasks[t].cancelled && !s.ladder.tasks[t].phase.Over? &&
      ByTask(t) !in s.link.lock.inside
    case CancelSwallowed(t) => t < |s.ladder.tasks| && s.ladder.tasks[t].cancelled && s.ladder.tasks[t].phase.Trying?
    case Stops => true
    case LegacyConnects => true
    case Moves(a, m) => May(s.link.lock, a, m) && (m.Acquire? ==> MayAcquire(s, a))
    case ChangesLink(a, _) => a in s.link.lock.inside
  }

  function Apply(s: State, e: Event): State
    requires Enabled(s, e)
  {
    match e
    case Passes(time) => s.(now := s.now + time)
    case RouteStarts(r) => RouteStart(s, r)
    case GatherEnds(r) => Admit(s, r)
    case Arms(r) => Arm(s, r)
    case RouteFails(r) => s.(routes := s.routes - {r})
    case InitEnds(r) => InitEnd(s, r)
    case LinkLoses => LinkLost(s)
    case Runs(t, answer) => TaskRuns(s, t, answer)
    case CancelLands(t) => s.(ladder := SetTask(s.ladder, t, s.ladder.tasks[t].(phase := Over)))
    case CancelSwallowed(t) => s.(ladder := SetTask(s.ladder, t, s.ladder.tasks[t].(cancelled := false)))
    case Stops => UserStops(s)
    case LegacyConnects => BeginConnect(s.(userDisconnected := false))
    case Moves(a, m) => s.(link := s.link.(lock := Do(s.link.lock, a, m)))
    case ChangesLink(a, up) => s.(link := s.link.(up := up))
  }

  predicate Possible(s: State, run: seq<Event>)
    decreases |run|
  {
    run == [] || (Enabled(s, run[0]) && Possible(Apply(s, run[0]), run[1..]))
  }

  function After(s: State, run: seq<Event>): State
    requires Possible(s, run)
    decreases |run|
  {
    if run == [] then s else After(Apply(s, run[0]), run[1..])
  }

  lemma NothingHappens(s: State)
    ensures Possible(s, []) && After(s, []) == s
  {
  }

  lemma {:induction false} AfterOneMore(s: State, run: seq<Event>, e: Event)
    requires Possible(s, run) && Enabled(After(s, run), e)
    ensures Possible(s, run + [e]) && After(s, run + [e]) == Apply(After(s, run), e)
    decreases |run|
  {
    hide Apply, Enabled;
    if run == [] {
      NothingHappens(Apply(s, e));
      assert [e][1..] == [];
    } else {
      AfterOneMore(Apply(s, run[0]), run[1..], e);
      assert (run + [e])[0] == run[0] && (run + [e])[1..] == run[1..] + [e];
    }
  }

  lemma {:induction false} AfterMore(s: State, run: seq<Event>, more: seq<Event>)
    requires Possible(s, run) && Possible(After(s, run), more)
    ensures Possible(s, run + more) && After(s, run + more) == After(After(s, run), more)
    decreases |run|
  {
    hide Apply, Enabled;
    if run == [] {
      assert run + more == more;
    } else {
      AfterMore(Apply(s, run[0]), run[1..], more);
      assert (run + more)[0] == run[0] && (run + more)[1..] == run[1..] + more;
    }
  }

  /** The event is task `t` running on, or ending by its cancellation. */
  predicate Continues(e: Event, t: nat) {
    (e.Runs? || e.CancelLands?) && e.t == t
  }

  /** A step of somebody inside on lock or bus. */
  lemma MoveIsEnabled(s: State, a: Actor, m: Move)
    requires May(s.link.lock, a, m) && !m.Acquire?
    ensures Enabled(s, Moves(a, m)) && Apply(s, Moves(a, m)) == s.(link := s.link.(lock := Do(s.link.lock, a, m)))
    ensures forall t :: !Continues(Moves(a, m), t)
  {
  }

  // ---------- Invariants ----------

  function Inside(routes: map<nat, Route>): set<nat> {
    set r | r in routes && routes[r].Initialising?
  }

  predicate Owns(routes: map<nat, Route>, r: nat, deadline: int) {
    r in routes && routes[r] == Initialising(deadline)
  }

  /**
   The counter counts the routes in their window; an armed probe belongs to one of them; it is disarmed
   as often as armed.
   */
  ghost predicate ProbeSound(s: State) {
    && s.probe.inits == |Inside(s.routes)|
    && (s.probe.deadline.Some? ==> exists r :: Owns(s.routes, r, s.probe.deadline.value))
    && (forall r :: r in Inside(s.routes) ==> s.routes[r].deadline <= s.now + PIN_REQUIRED_WINDOW)
    && s.probe.suppressed + (if s.probe.deadline.Some? then 1 else 0) <= s.probe.armings
  }

  /** No task tries more often than there are delays. */
  predicate TaskSound(b: Background) {
    && b.tried <= ATTEMPTS
    && (b.phase.Fresh? || b.phase.Settling? ==> b.tried == 0)
    && (b.phase.Waiting? ==>
          1 <= b.phase.attempt <= ATTEMPTS &&
          b.tried == if b.profile.Startup? then b.phase.attempt else b.phase.attempt - 1)
    && (b.phase.Trying? ==> 1 <= b.phase.attempt <= ATTEMPTS && b.tried == b.phase.attempt)
  }

  predicate TasksSound(l: Ladder) {
    && (forall t :: 0 <= t < |l.tasks| ==> TaskSound(l.tasks[t]))
    && (l.reconnect.Some? ==> l.reconnect.value < |l.tasks| && l.tasks[l.reconnect.value].profile.Reconnect?)
    && (l.auto.Some? ==> l.auto.value < |l.tasks| && l.tasks[l.auto.value].profile.Startup?)
  }

  predicate Awaits(routes: map<nat, Route>, r: nat, t: nat) {
    r in routes && routes[r].Gathering? && t in routes[r].waits
  }

  predicate Gathers(routes: map<nat, Route>, r: nat) {
    r in routes && routes[r].Gathering?
  }

  /** The referenced reconnect task is on its way to being cancelled only while a route waits for that. */
  ghost predicate CancelAwaited(s: State) {
    s.ladder.Pending(s.ladder.reconnect) && s.ladder.tasks[s.ladder.reconnect.value].cancelled ==>
      exists r :: Awaits(s.routes, r, s.ladder.reconnect.value)
  }

  /** "Reconnecting" is shown only while a task is retrying, or a route is clearing the field. */
  ghost predicate ReconnectingHonest(s: State) {
    s.ladder.reconnecting ==>
      (exists t :: 0 <= t < |s.ladder.tasks| && s.ladder.tasks[t].Retrying()) || (exists r :: Gathers(s.routes, r))
  }

  /** A waiting route waits for something. */
  ghost predicate WaitsSound(s: State) {
    forall r :: Gathers(s.routes, r) ==>
      s.routes[r].waits != {} && forall t :: t in s.routes[r].waits ==> t < |s.ladder.tasks|
  }

  lemma InitiallySound(autoConnect: bool)
    ensures WaitsSound(Initially(autoConnect)) && Exclusive(Initially(autoConnect).link.lock)
    ensures ProbeSound(Initially(autoConnect)) && TasksSound(Initially(autoConnect).ladder)
    ensures CancelAwaited(Initially(autoConnect)) && ReconnectingHonest(Initially(autoConnect))
  {
  }

  /** What a task's stretch of code leaves alone. */
  predicate OnlyTask(s: State, n: State, t: nat)
    requires t < |s.ladder.tasks|
  {
    && n.now == s.now && n.probe == s.probe && n.routes == s.routes
    && n.link.up == s.link.up
    && (n.link == s.link || (MayResetBus(s) && n.link.lock == s.link.lock.(bus := None)))
    && OnlyTaskOf(s.ladder, n.ladder, t)
  }

  predicate OnlyTaskOf(l: Ladder, m: Ladder, t: nat)
    requires t < |l.tasks|
  {
    && m.reconnect == l.reconnect && m.auto == l.auto && |m.tasks| == |l.tasks|
    && (forall i :: 0 <= i < |l.tasks| && i != t ==> m.tasks[i] == l.tasks[i])
    && m.tasks[t].profile == l.tasks[t].profile && m.tasks[t].cancelled == l.tasks[t].cancelled
  }

  lemma LoopTopFrame(s: State, t: nat, attempt: nat)
    requires t < |s.ladder.tasks|
    ensures var n := LoopTop(s, t, attempt);
      && OnlyTask(s, n, t)
      && (n.ladder.reconnecting ==>
            s.ladder.reconnecting && (n.ladder.tasks[t].phase.Waiting? || n.ladder.tasks[t].phase.Trying?))
      && (s.ladder.tasks[t].tried == attempt - 1 <= ATTEMPTS ==> TaskSound(n.ladder.tasks[t]))
  {
  }

  lemma TryFrame(s: State, t: nat, attempt: nat)
    requires t < |s.ladder.tasks|
    ensures var n := Try(s, t, attempt);
      && OnlyTask(s, n, t)
      && n.ladder.reconnecting == s.ladder.reconnecting
      && n.ladder.tasks[t] == s.ladder.tasks[t].(phase := Trying(attempt), tried := s.ladder.tasks[t].tried + 1)
  {
  }

  /** What a task's stretch of code does, given what it was waiting for. */
  predicate StretchOf(s: State, n: State, t: nat)
    requires t < |s.ladder.tasks|
  {
    && OnlyTask(s, n, t)
    && (TaskSound(s.ladder.tasks[t]) ==> TaskSound(n.ladder.tasks[t]))
    && (n.ladder.reconnecting ==>
          n.ladder.tasks[t].Retrying() || (s.ladder.reconnecting && !s.ladder.tasks[t].Retrying()))
  }

  lemma BeginningFrame(s: State, t: nat, answer: bool)
    requires t < |s.ladder.tasks| && s.ladder.tasks[t].Running()
    requires s.ladder.tasks[t].phase.Fresh? || s.ladder.tasks[t].phase.Settling?
    ensures StretchOf(s, TaskRuns(s, t, answer), t)
  {
    hide LoopTop;
    LoopTopFrame(s.(ladder := s.ladder.(reconnecting := true)), t, 1);
  }

  lemma RetryingFrame(s: State, t: nat, answer: bool)
    requires t < |s.ladder.tasks| && s.ladder.tasks[t].Running()
    requires s.ladder.tasks[t].phase.Waiting? || s.ladder.tasks[t].phase.Trying?
    ensures StretchOf(s, TaskRuns(s, t, answer), t)
  {
    hide LoopTop, Try;
    LoopTopFrame(s, t, s.ladder.tasks[t].phase.attempt + 1);
    TryFrame(s, t, s.ladder.tasks[t].phase.attempt);
  }

  /** What a task's stretch of code can touch. */
  lemma TaskRunsFrame(s: State, t: nat, answer: bool)
    requires t < |s.ladder.tasks| && s.ladder.tasks[t].Running()
    ensures StretchOf(s, TaskRuns(s, t, answer), t)
  {
    hide TaskRuns, StretchOf;
    if s.ladder.tasks[t].phase.Fresh? || s.ladder.tasks[t].phase.Settling? {
      BeginningFrame(s, t, answer);
    } else {
      RetryingFrame(s, t, answer);
    }
  }

  /** Nobody but the task itself changes what it waits for; others may cancel it. */
  lemma OthersKeepTask(s: State, e: Event, t: nat)
    requires Enabled(s, e) && !Continues(e, t) && t < |s.ladder.tasks|
    ensures var tasks := Apply(s, e).ladder.tasks;
      t < |tasks| && tasks[t].(cancelled := s.ladder.tasks[t].cancelled) == s.ladder.tasks[t]
  {
    hide TaskRuns;
    if e.Runs? {
      TaskRunsFrame(s, e.t, e.answer);
    }
  }

  lemma ArmKeepsProbe(s: State, r: nat)
    requires ProbeSound(s) && r in s.routes && s.routes[r].Admitted?
    ensures ProbeSound(Arm(s, r))
  {
    var n := Arm(s, r);
    assert Inside(n.routes) == Inside(s.routes) + {r};
    assert Owns(n.routes, r, n.probe.deadline.value);
  }

  lemma InitEndKeepsProbe(s: State, r: nat)
    requires ProbeSound(s) && r in s.routes && s.routes[r].Initialising?
    ensures ProbeSound(InitEnd(s, r))
  {
    var n := InitEnd(s, r);
    assert Inside(n.routes) == Inside(s.routes) - {r};
    if n.probe.deadline.Some? {
      var o :| Owns(s.routes, o, n.probe.deadline.value);
      assert Owns(n.routes, o, n.probe.deadline.value);
    }
  }

  /** Routes outside their window come and go without touching the probe. */
  lemma ProbeKeptAlong(s: State, n: State)
    requires ProbeSound(s) && Inside(n.routes) == Inside(s.routes) && s.now <= n.now
    requires forall r :: r in Inside(s.routes) ==> n.routes[r] == s.routes[r]
    requires n.probe == s.probe || n.probe == s.probe.(deadline := None)
      || (s.probe.deadline.Some? && n.probe == s.probe.(deadline := None, suppressed := s.probe.suppressed + 1))
    ensures ProbeSound(n)
  {
    if n.probe.deadline.Some? {
      var o :| Owns(s.routes, o, n.probe.deadline.value);
      assert o in Inside(s.routes);
      assert Owns(n.routes, o, n.probe.deadline.value);
    }
  }

  lemma ProbeKept(s: State, e: Event)
    requires ProbeSound(s) && Enabled(s, e)
    ensures ProbeSound(Apply(s, e))
  {
    hide ProbeSound, TaskRuns, Arm, InitEnd;
    if e.Arms? {
      ArmKeepsProbe(s, e.r);
    } else if e.InitEnds? {
      InitEndKeepsProbe(s, e.r);
    } else {
      if e.Runs? {
        TaskRunsFrame(s, e.t, e.answer);
      }
      ProbeKeptAlong(s, Apply(s, e));
    }
  }

  lemma FreshIsSound()
    ensures TaskSound(Background(Reconnect, Fresh, false, 0))
  {
  }

  lemma TasksKeptByTask(s: State, t: nat, answer: bool)
    requires TasksSound(s.ladder) && Enabled(s, Runs(t, answer))
    ensures TasksSound(Apply(s, Runs(t, answer)).ladder)
  {
    hide TaskRuns, TaskSound;
    TaskRunsFrame(s, t, answer);
  }

  lemma SettingKeepsTasks(l: Ladder, t: nat, b: Background)
    requires TasksSound(l) && t < |l.tasks| && TaskSound(b) && b.profile == l.tasks[t].profile
    ensures TasksSound(SetTask(l, t, b))
  {
    hide TaskSound;
  }

  lemma CancellingKeepsTasks(l: Ladder, ref: Option<nat>)
    requires TasksSound(l)
    ensures TasksSound(Cancel(l, ref)) && Cancel(l, ref).reconnect == l.reconnect && Cancel(l, ref).auto == l.auto
  {
    hide TasksSound;
    if l.Pending(ref) {
      TasksAreSound(l, ref.value);
      SettingKeepsTasks(l, ref.value, l.tasks[ref.value].(cancelled := true));
    }
  }

  lemma TasksAreSound(l: Ladder, t: nat)
    requires TasksSound(l) && t < |l.tasks|
    ensures TaskSound(l.tasks[t]) && forall c :: TaskSound(l.tasks[t].(cancelled := c))
    ensures TaskSound(l.tasks[t].(phase := Over))
  {
  }

  lemma SchedulingKeepsTasks(l: Ladder)
    requires TasksSound(l)
    ensures TasksSound(ScheduleReconnect(l))
  {
    hide TaskSound;
    FreshIsSound();
  }

  lemma ForgettingKeepsTasks(l: Ladder, reconnect: Option<nat>, auto: Option<nat>, reconnecting: bool)
    requires TasksSound(l) && (reconnect == l.reconnect || reconnect.None?) && (auto == l.auto || auto.None?)
    ensures TasksSound(l.(reconnect := reconnect, auto := auto, reconnecting := reconnecting))
  {
    hide TaskSound;
  }

  lemma TasksKeptByOthers(s: State, e: Event)
    requires TasksSound(s.ladder) && Enabled(s, e) && TouchesTasks(e) && !e.Runs?
    ensures TasksSound(Apply(s, e).ladder)
  {
    hide TasksSound, Cancel, ScheduleReconnect, May, Do, SetTask;
    var l, m := s.ladder, Apply(s, e).ladder;
    match e
    case LinkLoses => SchedulingKeepsTasks(l);
    case CancelLands(t) =>
      TasksAreSound(l, t);
      SettingKeepsTasks(l, t, l.tasks[t].(phase := Over));
    case CancelSwallowed(t) =>
      TasksAreSound(l, t);
      SettingKeepsTasks(l, t, l.tasks[t].(cancelled := false));
    case _ =>
      CancellingKeepsTasks(l, l.reconnect);
      CancellingKeepsTasks(Cancel(l, l.reconnect), l.auto);
      CancellingKeepsTasks(l, l.auto);
      CancellingKeepsTasks(Cancel(l, l.auto), l.reconnect);
      ForgettingKeepsTasks(l, None, None, false);
      ForgettingKeepsTasks(Cancel(Cancel(l, l.auto), l.reconnect), m.reconnect, m.auto, false);
  }

  lemma TasksKept(s: State, e: Event)
    requires TasksSound(s.ladder) && Enabled(s, e)
    ensures TasksSound(Apply(s, e).ladder)
  {
    hide Apply, Enabled, TasksSound;
    if e.Runs? {
      TasksKeptByTask(s, e.t, e.answer);
    } else if TouchesTasks(e) {
      TasksKeptByOthers(s, e);
    } else {
      LadderUntouched(s, e);
    }
  }

  lemma CancelKept(s: State, e: Event)
    requires CancelAwaited(s) && TasksSound(s.ladder) && Enabled(s, e)
    ensures CancelAwaited(Apply(s, e))
  {
    hide TaskRuns, TaskSound;
    var n := Apply(s, e);
    if e.Runs? {
      TaskRunsFrame(s, e.t, e.answer);
    }
    if n.ladder.Pending(n.ladder.reconnect) && n.ladder.tasks[n.ladder.reconnect.value].cancelled {
      var t := n.ladder.reconnect.value;
      if e.RouteStarts? {
        assert Awaits(n.routes, e.r, t);
      } else {
        var r :| Awaits(s.routes, r, t);
        assert Awaits(n.routes, r, t);
      }
    }
  }

  lemma HonestKept(s: State, e: Event)
    requires ReconnectingHonest(s) && TasksSound(s.ladder) && Enabled(s, e)
    ensures ReconnectingHonest(Apply(s, e))
  {
    hide TaskRuns, TaskSound;
    var n := Apply(s, e);
    if e.Runs? {
      TaskRunsFrame(s, e.t, e.answer);
    }
    if n.ladder.reconnecting && s.ladder.reconnecting {
      if r :| Gathers(s.routes, r) {
        assert Gathers(n.routes, r);
      } else if e.RouteStarts? {
        assert Gathers(n.routes, e.r);
      } else {
        var t :| 0 <= t < |s.ladder.tasks| && s.ladder.tasks[t].Retrying();
        assert n.ladder.tasks[t].Retrying();
      }
    }
  }

  lemma WaitsKept(s: State, e: Event)
    requires WaitsSound(s) && TasksSound(s.ladder) && Enabled(s, e)
    ensures WaitsSound(Apply(s, e))
  {
    hide TaskRuns, TaskSound;
    var n := Apply(s, e);
    if e.Runs? {
      TaskRunsFrame(s, e.t, e.answer);
    }
    forall r | Gathers(n.routes, r)
      ensures n.routes[r].waits != {} && forall t :: t in n.routes[r].waits ==> t < |n.ladder.tasks|
    {
      assert Gathers(s.routes, r) || (e.RouteStarts? && e.r == r);
    }
  }

  lemma LockKept(s: State, e: Event)
    requires Exclusive(s.link.lock) && ProbeSound(s) && Enabled(s, e)
    ensures Exclusive(Apply(s, e).link.lock)
  {
    hide TaskRuns, May, Do, ProbeSound;
    if e.Runs? {
      TaskRunsFrame(s, e.t, e.answer);
    } else if e.Moves? {
      MoveKeepsExclusive(s.link.lock, e.a, e.m);
    }
  }

  ghost predicate Inv(s: State) {
    && ProbeSound(s) && TasksSound(s.ladder) && CancelAwaited(s) && ReconnectingHonest(s)
    && WaitsSound(s) && Exclusive(s.link.lock)
  }

  lemma StepKeepsInv(s: State, e: Event)
    requires Inv(s) && Enabled(s, e)
    ensures Inv(Apply(s, e))
  {
    hide ProbeSound, TasksSound, CancelAwaited, ReconnectingHonest, WaitsSound, Exclusive, Apply, Enabled;
    ProbeKept(s, e);
    TasksKept(s, e);
    CancelKept(s, e);
    HonestKept(s, e);
    WaitsKept(s, e);
    LockKept(s, e);
  }

  // The invariants, by the names of the steps the service's handlers take

  lemma LinkLostKeepsInv(s: State)
    requires Inv(s)
    ensures Inv(LinkLost(s))
  {
    hide Inv, LinkLost;
    StepKeepsInv(s, LinkLoses);
  }

  lemma StopsKeepInv(s: State)
    requires Inv(s)
    ensures Inv(UserStops(s))
  {
    hide Inv, UserStops;
    StepKeepsInv(s, Stops);
  }

  lemma StartKeepsInv(s: State, r: nat)
    requires Inv(s) && Enabled(s, RouteStarts(r))
    ensures Inv(RouteStart(s, r))
  {
    hide Inv, RouteStart;
    StepKeepsInv(s, RouteStarts(r));
  }

  lemma AdmitKeepsInv(s: State, r: nat)
    requires Inv(s) && Enabled(s, GatherEnds(r))
    ensures Inv(Admit(s, r))
  {
    hide Inv, Admit;
    StepKeepsInv(s, GatherEnds(r));
  }

  lemma ArmKeepsInv(s: State, r: nat)
    requires Inv(s) && Enabled(s, Arms(r))
    ensures Inv(Arm(s, r))
  {
    hide Inv, Arm;
    StepKeepsInv(s, Arms(r));
  }

  lemma InitEndKeepsInv(s: State, r: nat)
    requires Inv(s) && r in s.routes && s.routes[r].Initialising?
    ensures Inv(InitEnd(s, r))
  {
    hide Inv, InitEnd;
    StepKeepsInv(s, InitEnds(r));
  }

  lemma AskingKeepsInv(s: State)
    requires Inv(s)
    ensures Inv(s.(userDisconnected := false))
  {
    hide TasksSound, ReconnectingHonest;
    assert ReconnectingHonest(s.(userDisconnected := false)) <==> ReconnectingHonest(s) by {
      HonestyIsOfLadderAndRoutes(s, s.(userDisconnected := false));
    }
  }

  lemma HonestyIsOfLadderAndRoutes(s: State, n: State)
    requires s.ladder == n.ladder && s.routes == n.routes
    ensures ReconnectingHonest(s) <==> ReconnectingHonest(n)
  {
  }

  lemma BeginConnectKeepsInv(s: State)
    requires Inv(s)
    ensures Inv(BeginConnect(s))
  {
    hide TasksSound;
  }

  lemma {:induction false} InvAfter(s: State, run: seq<Event>)
    requires Inv(s) && Possible(s, run)
    ensures Inv(After(s, run))
    decreases |run|
  {
    hide Inv, Apply, Enabled;
    if run == [] {
    } else {
      StepKeepsInv(s, run[0]);
      InvAfter(Apply(s, run[0]), run[1..]);
    }
  }

  /** A state some run of the service leads to. */
  ghost predicate Reachable(s: State) {
    exists autoConnect: bool, run: seq<Event> ::
      Possible(Initially(autoConnect), run) && s == After(Initially(autoConnect), run)
  }

  lemma ReachableIsSound(s: State)
    requires Reachable(s)
    ensures Inv(s)
  {
    hide ProbeSound, TasksSound, CancelAwaited, ReconnectingHonest, WaitsSound, Exclusive, Possible, After;
    var autoConnect: bool, run: seq<Event> :|
      Possible(Initially(autoConnect), run) && s == After(Initially(autoConnect), run);
    InitiallySound(autoConnect);
    InvAfter(Initially(autoConnect), run);
  }

  // ---------- What the service promises ----------

  /** The counter is the number of routes inside their window; a set deadline is that of a route still inside. */
  lemma ProbeBelongsToARoute(s: State)
    requires Reachable(s)
    ensures s.probe.inits == |Inside(s.routes)|
    ensures s.probe.deadline.Some? ==> exists r :: Owns(s.routes, r, s.probe.deadline.value)
  {
    ReachableIsSound(s);
  }

  /** With no route inside its window, a disconnect the user did not ask for leaves a reconnect task under way. */
  lemma DisconnectSchedulesReconnect(s: State)
    requires Reachable(s) && Inside(s.routes) == {} && !s.userDisconnected
    ensures var l := LinkLost(s).ladder;
      && l.Pending(l.reconnect) && l.tasks[l.reconnect.value].profile.Reconnect?
      && (l.tasks[l.reconnect.value].Running() || exists r :: Awaits(s.routes, r, l.reconnect.value))
  {
    hide TaskSound;
    ReachableIsSound(s);
    assert forall r, d :: Owns(s.routes, r, d) ==> r in Inside(s.routes);
  }

  /**
   A disconnect is suppressed only within the window of a route that is still inside, and less than a
   window after its arming.
   */
  lemma SuppressionHasAnOwner(s: State)
    requires Reachable(s)
    ensures LinkLost(s).probe.suppressed == s.probe.suppressed + 1 ==>
      exists r :: r in Inside(s.routes) && s.now <= s.routes[r].deadline <= s.now + PIN_REQUIRED_WINDOW
    ensures LinkLost(s).probe.suppressed == s.probe.suppressed + 1 <==>
      !s.userDisconnected && s.probe.deadline.Some? && s.now <= s.probe.deadline.value
    ensures LinkLost(s).probe.suppressed == s.probe.suppressed + 1 ==> LinkLost(s).ladder == s.ladder
  {
    hide TaskSound;
    ReachableIsSound(s);
    if s.probe.deadline.Some? {
      var r :| Owns(s.routes, r, s.probe.deadline.value);
      assert r in Inside(s.routes);
    }
  }

  /** Over any run, no more disconnects are suppressed than probes were armed. */
  lemma SuppressedAtMostArmed(s: State)
    requires Reachable(s)
    ensures s.probe.suppressed <= s.probe.armings
  {
    ReachableIsSound(s);
  }

  /** No background task makes more attempts than there are delays, and "reconnecting" is shown only for a reason. */
  lemma LadderIsBounded(s: State)
    requires Reachable(s)
    ensures forall t :: 0 <= t < |s.ladder.tasks| ==> s.ladder.tasks[t].tried <= 4
    ensures ReconnectingHonest(s)
  {
    ReachableIsSound(s);
    assert forall t :: 0 <= t < |s.ladder.tasks| ==> TaskSound(s.ladder.tasks[t]);
  }

  // ---------- The bus ----------

  /**
   The bus changes only by a step of the one actor inside the lock, or by a reset while nobody is inside and no
   route is in
   its window.
   */
  lemma BusChangesByRule(s: State, e: Event)
    requires Reachable(s) && Enabled(s, e) && Apply(s, e).link.lock.bus != s.link.lock.bus
    ensures (e.Moves? && e.a in s.link.lock.inside && s.link.lock.inside.Keys == {e.a}) ||
      ((e.Runs? || e.LegacyConnects?) && s.link.lock.inside == map[] && Inside(s.routes) == {})
  {
    hide TaskRuns, ProbeSound, TasksSound, CancelAwaited, ReconnectingHonest, WaitsSound;
    ReachableIsSound(s);
    ProbeBelongsToARoute(s);
    if e.Runs? {
      TaskRunsFrame(s, e.t, e.answer);
    }
  }

  /** No two actors are ever inside the lock, which is locked exactly while one is. */
  lemma LockExcludes(s: State)
    requires Reachable(s)
    ensures s.link.lock.locked <==> s.link.lock.inside != map[]
    ensures forall a, b :: a in s.link.lock.inside && b in s.link.lock.inside ==> a == b
  {
    hide ProbeSound, TasksSound, CancelAwaited, ReconnectingHonest, WaitsSound;
    ReachableIsSound(s);
  }

  predicate MovedBy(e: Event, a: Actor) {
    e.Moves? && e.a == a
  }

  lemma OthersKeepTheBus(s: State, e: Event, a: Actor)
    requires Inv(s) && Enabled(s, e) && a in s.link.lock.inside && !MovedBy(e, a)
    ensures Apply(s, e).link.lock == s.link.lock
  {
    hide TaskRuns, ProbeSound, TasksSound, CancelAwaited, ReconnectingHonest, WaitsSound, May, Do;
    if e.Runs? {
      TaskRunsFrame(s, e.t, e.answer);
    } else if e.Moves? {
      OthersAreShutOut(s.link.lock, a, e.a, e.m);
    }
  }

  /**
   From the moment an actor is inside the lock until its own next step on lock or bus, no run of all
   the others changes either.
   */
  lemma {:induction false} LockHolderKeepsTheBus(s: State, run: seq<Event>, a: Actor)
    requires Inv(s) && Possible(s, run) && a in s.link.lock.inside
    requires forall i :: 0 <= i < |run| ==> !MovedBy(run[i], a)
    ensures After(s, run).link.lock == s.link.lock
    decreases |run|
  {
    hide Inv, Apply, Enabled, MovedBy;
    if run == [] {
    } else {
      assert !MovedBy(run[0], a);
      OthersKeepTheBus(s, run[0], a);
      StepKeepsInv(s, run[0]);
      LockHolderKeepsTheBus(Apply(s, run[0]), run[1..], a);
    }
  }

  // ---------- Stopping ----------

  /** Nobody asks for a connection again during the run. */
  predicate StaysStopped(s: State, run: seq<Event>)
    requires Possible(s, run)
    decreases |run|
  {
    s.userDisconnected && (run == [] || StaysStopped(Apply(s, run[0]), run[1..]))
  }

  lemma StoppedStep(s: State, e: Event)
    requires Enabled(s, e) && s.userDisconnected && Apply(s, e).userDisconnected
    ensures |Apply(s, e).ladder.tasks| == |s.ladder.tasks|
    ensures forall t :: 0 <= t < |s.ladder.tasks| ==> Apply(s, e).ladder.tasks[t].tried == s.ladder.tasks[t].tried
  {
    hide May, Do, LinkLost, UserStops;
    if e.LinkLoses? {
      StoppedLink(s);
    } else if e.Stops? {
      StoppedAgain(s);
    }
  }

  lemma StoppedLink(s: State)
    requires s.userDisconnected
    ensures LinkLost(s).ladder == s.ladder
  {
  }

  lemma StoppedAgain(s: State)
    ensures |UserStops(s).ladder.tasks| == |s.ladder.tasks|
    ensures forall t :: 0 <= t < |s.ladder.tasks| ==> UserStops(s).ladder.tasks[t].tried == s.ladder.tasks[t].tried
  {
  }

  /**
   After the user disconnects, and until a connection is asked for again, no background task starts
   another attempt.
   */
  lemma {:induction false} NoAttemptWhileStopped(s: State, run: seq<Event>)
    requires Possible(s, run) && StaysStopped(s, run)
    ensures |After(s, run).ladder.tasks| == |s.ladder.tasks|
    ensures forall t :: 0 <= t < |s.ladder.tasks| ==> After(s, run).ladder.tasks[t].tried == s.ladder.tasks[t].tried
    decreases |run|
  {
    hide Apply, Enabled;
    if run == [] {
    } else {
      StoppedStep(s, run[0]);
      NoAttemptWhileStopped(Apply(s, run[0]), run[1..]);
    }
  }

  // ---------- Orphans ----------

  predicate OrphanAt(l: Ladder, t: nat) {
    t < |l.tasks| && l.tasks[t].Running() && t !in l.Referenced()
  }

  /** A running task the service state no longer refers to, and so can no longer cancel. */
  ghost predicate Orphan(l: Ladder) {
    exists t: nat :: OrphanAt(l, t)
  }

  predicate RunningRef(l: Ladder, ref: Option<nat>) {
    l.Pending(ref) && l.tasks[ref.value].Running()
  }

  /** The step forgets a running task, or brings a forgotten one back to life. */
  predicate Forgets(s: State, e: Event) {
    match e
    case GatherEnds(_) => RunningRef(s.ladder, s.ladder.reconnect) || RunningRef(s.ladder, s.ladder.auto)
    case CancelSwallowed(t) => t !in s.ladder.Referenced()
    case _ => false
  }

  /**
   Orphans come about exactly where a route clears a task created while it was waiting, or a
   cancellation is swallowed.
   */
  lemma OrphanVerdict(s: State, e: Event)
    requires TasksSound(s.ladder) && Enabled(s, e) && !Orphan(s.ladder)
    ensures Orphan(Apply(s, e).ladder) <==> Forgets(s, e)
  {
    hide Apply, Enabled, Orphan, TasksSound, Forgets;
    if e.GatherEnds? {
      OrphansAtGathering(s, e.r);
    } else if e.CancelSwallowed? {
      OrphansAtSwallowing(s, e.t);
    } else if TouchesTasks(e) {
      NoOrphansOtherwise(s, e);
    } else {
      LadderUntouched(s, e);
    }
  }

  /** The events that do something to the background tasks. */
  predicate TouchesTasks(e: Event) {
    e.RouteStarts? || e.GatherEnds? || e.LinkLoses? || e.Runs? || e.CancelLands? || e.CancelSwallowed? || e.Stops?
  }

  lemma LadderUntouched(s: State, e: Event)
    requires Enabled(s, e) && !TouchesTasks(e)
    ensures Apply(s, e).ladder == s.ladder && !Forgets(s, e)
  {
    hide May, Do;
  }

  lemma OrphansAtGathering(s: State, r: nat)
    requires Enabled(s, GatherEnds(r)) && !Orphan(s.ladder)
    ensures Orphan(Apply(s, GatherEnds(r)).ladder) <==> Forgets(s, GatherEnds(r))
  {
    hide TaskRuns, May, Do;
    var l, m := s.ladder, Apply(s, GatherEnds(r)).ladder;
    assert forall t: nat :: !OrphanAt(l, t);
    if RunningRef(l, l.reconnect) {
      assert OrphanAt(m, l.reconnect.value);
    } else if RunningRef(l, l.auto) {
      assert OrphanAt(m, l.auto.value);
    } else {
      forall t: nat ensures !OrphanAt(m, t) {
        assert !OrphanAt(l, t);
      }
    }
  }

  lemma OrphansAtSwallowing(s: State, t: nat)
    requires Enabled(s, CancelSwallowed(t)) && !Orphan(s.ladder)
    ensures Orphan(Apply(s, CancelSwallowed(t)).ladder) <==> Forgets(s, CancelSwallowed(t))
  {
    hide TaskRuns, May, Do;
    var l, m := s.ladder, Apply(s, CancelSwallowed(t)).ladder;
    assert forall u: nat :: !OrphanAt(l, u);
    if t !in l.Referenced() {
      assert OrphanAt(m, t);
    } else {
      forall u: nat ensures !OrphanAt(m, u) {
        assert !OrphanAt(l, u);
      }
    }
  }

  lemma NoOrphansOtherwise(s: State, e: Event)
    requires TasksSound(s.ladder) && Enabled(s, e) && !Orphan(s.ladder)
    requires TouchesTasks(e) && !e.GatherEnds? && !e.CancelSwallowed?
    ensures !Orphan(Apply(s, e).ladder) && !Forgets(s, e)
  {
    hide TaskRuns, TaskSound, MayResetBus, May, Do;
    var l, m := s.ladder, Apply(s, e).ladder;
    if e.Runs? {
      TaskRunsFrame(s, e.t, e.answer);
    }
    forall t: nat ensures !OrphanAt(m, t) {
      assert !OrphanAt(l, t);
    }
  }

  // ---------- Whose probe it is ----------

  /** The route is in its window, and the probe is armed with its deadline. */
  predicate ProbeIs(s: State, r: nat) {
    r in s.routes && s.routes[r].Initialising? && s.probe.deadline == Some(s.routes[r].deadline)
  }

  /**
   The step takes the probe from `r`: another deadline is armed, an equal one is cleared, or a
   disconnect consumes it.
   */
  predicate Takes(s: State, e: Event, r: nat)
    requires ProbeIs(s, r)
  {
    match e
    case Arms(_) => s.now + PIN_REQUIRED_WINDOW != s.routes[r].deadline
    case InitEnds(q) => q in s.routes && s.routes[q] == s.routes[r]
    case LinkLoses => !s.userDisconnected
    case _ => false
  }

  lemma ArmingGivesTheProbe(s: State, r: nat)
    requires Enabled(s, Arms(r))
    ensures ProbeIs(Apply(s, Arms(r)), r)
  {
  }

  /** As long as the route is inside, the probe stops being its own exactly by such a step. */
  lemma ProbeVerdict(s: State, e: Event, r: nat)
    requires ProbeIs(s, r) && Enabled(s, e) && e != InitEnds(r)
    ensures r in Apply(s, e).routes && Apply(s, e).routes[r] == s.routes[r]
    ensures ProbeIs(Apply(s, e), r) <==> !Takes(s, e, r)
  {
    hide TaskRuns, May, Do, Cancel, ScheduleReconnect, StopTasks;
    if e.Runs? {
      TaskRunsFrame(s, e.t, e.answer);
    }
  }

  predicate KeepsProbe(s: State, run: seq<Event>, r: nat)
    requires Possible(s, run)
    decreases |run|
  {
    ProbeIs(s, r) && (run == [] || KeepsProbe(Apply(s, run[0]), run[1..], r))
  }

  predicate Undisturbed(s: State, run: seq<Event>, r: nat)
    requires Possible(s, run)
    decreases |run|
  {
    run == [] || (ProbeIs(s, r) && !Takes(s, run[0], r) && Undisturbed(Apply(s, run[0]), run[1..], r))
  }

  /** Over any run within its window, a route keeps its probe exactly if no step of the run takes it. */
  lemma {:induction false} ProbeStays(s: State, run: seq<Event>, r: nat)
    requires Possible(s, run) && ProbeIs(s, r)
    requires forall i :: 0 <= i < |run| ==> run[i] != InitEnds(r)
    ensures KeepsProbe(s, run, r) <==> Undisturbed(s, run, r)
    decreases |run|
  {
    hide ProbeIs, Takes, Apply, Enabled;
    if run == [] {
    } else {
      ProbeVerdict(s, run[0], r);
      if ProbeIs(Apply(s, run[0]), r) {
        ProbeStays(Apply(s, run[0]), run[1..], r);
      }
    }
  }

  // ---------- What a route does to reconnecting ----------

  /** A starting route interrupts exactly the tasks under way, and waits exactly if there are any. */
  lemma StartVerdict(s: State, r: nat)
    requires Inv(s) && Enabled(s, RouteStarts(r))
    ensures var n, waits := RouteStart(s, r), PendingSet(s.ladder);
      && (Gathers(n.routes, r) <==> waits != {})
      && (waits != {} ==> n.routes[r].waits == waits)
      && (forall t: nat :: t in waits <==>
            Some(t) in {s.ladder.reconnect, s.ladder.auto} && s.ladder.tasks[t].phase != Over)
      && |n.ladder.tasks| == |s.ladder.tasks|
      && (forall t :: 0 <= t < |s.ladder.tasks| ==>
            n.ladder.tasks[t] == if t in waits then s.ladder.tasks[t].(cancelled := true) else s.ladder.tasks[t])
  {
    hide TaskSound, ProbeSound, CancelAwaited, ReconnectingHonest, WaitsSound, Exclusive;
    if s.ladder.Pending(s.ladder.reconnect) {
      assert s.ladder.reconnect.value in PendingSet(s.ladder);
    }
    if s.ladder.Pending(s.ladder.auto) {
      assert s.ladder.auto.value in PendingSet(s.ladder);
    }
  }

  /** The route is gone, and with it whatever the service knew of reconnecting. */
  predicate Forgotten(s: State, r: nat, n: State) {
    && r !in n.routes && n.userDisconnected == s.userDisconnected && n.ladder.tasks == s.ladder.tasks
    && n.ladder.reconnect.None? && n.ladder.auto.None? && !n.ladder.reconnecting
  }

  /**
   A route that finds the adapter busy is refused, but leaves nothing of reconnecting: the tasks it waited for are
   over, and
   it waited exactly if there were any.
   */
  lemma RefusalVerdict(s: State, r: nat)
    requires Reachable(s) && s.link.lock.locked
    ensures Enabled(s, GatherEnds(r)) ==> Forgotten(s, r, Apply(s, GatherEnds(r))) && s.routes[r].waits != {}
    ensures Enabled(s, GatherEnds(r)) ==>
      forall t :: t in s.routes[r].waits ==> t < |s.ladder.tasks| && s.ladder.tasks[t].phase.Over?
    ensures Enabled(s, RouteStarts(r)) ==>
      (Forgotten(s, r, Apply(s, RouteStarts(r))) <==> PendingSet(s.ladder) == {})
  {
    hide TasksSound, ProbeSound, CancelAwaited, ReconnectingHonest, Exclusive;
    ReachableIsSound(s);
    assert r in s.routes && s.routes[r].Gathering? ==> Gathers(s.routes, r);
  }

  // ---------- Runs that show where promises end ----------

  /** A route interrupts the one reconnect task there is, and its cancellation lands. */
  lemma Interruption(s: State)
    requires s.ladder == Ladder([Background(Reconnect, Fresh, false, 0)], Some(0), None, false) && s.routes == map[]
    requires ByTask(0) !in s.link.lock.inside
    ensures Enabled(s, RouteStarts(0)) && Enabled(Apply(s, RouteStarts(0)), CancelLands(0))
    ensures Apply(Apply(s, RouteStarts(0)), CancelLands(0)) == s.(
      ladder := Ladder([Background(Reconnect, Over, true, 0)], Some(0), None, false),
      routes := map[0 := Gathering({0})])
  {
    hide TaskRuns, StopTasks, BeginConnect, Arm, InitEnd, May, Do;
    assert PendingSet(s.ladder) == {0};
    var n := Apply(s, RouteStarts(0));
    assert n.ladder == Ladder([Background(Reconnect, Fresh, true, 0)], Some(0), None, false);
  }

  /** A lost link, and a route that interrupts the reconnecting and sees it end. */
  lemma InterruptedRun(taken: bool)
    ensures var s := Initially(false);
      var s1 := LinkLost(s);
      var s2 := if taken then s1.(link := s1.link.(lock := Lock(true, map[Other(0) := Holding], None))) else s1;
      var run := [LinkLoses] + (if taken then [Moves(Other(0), Acquire)] else []) + [RouteStarts(0), CancelLands(0)];
      && Possible(s, run)
      && After(s, run) == s2.(
           ladder := Ladder([Background(Reconnect, Over, true, 0)], Some(0), None, false),
           routes := map[0 := Gathering({0})])
  {
    hide TaskRuns, StopTasks, BeginConnect, Arm, InitEnd, Possible, After;
    var s := Initially(false);
    NothingHappens(s);
    AfterOneMore(s, [], LinkLoses);
    var run := [LinkLoses] + (if taken then [Moves(Other(0), Acquire)] else []);
    assert [] + [LinkLoses] == [LinkLoses] == [LinkLoses] + [];
    if taken {
      AfterOneMore(s, [LinkLoses], Moves(Other(0), Acquire));
    }
    var s2 := After(s, run);
    assert s2.ladder == Ladder([Background(Reconnect, Fresh, false, 0)], Some(0), None, false) && s2.routes == map[];
    assert taken ==> s2.link.lock == Lock(true, map[Other(0) := Holding], None);
    Interruption(s2);
    hide Apply, Enabled;
    AfterOneMore(s, run, RouteStarts(0));
    AfterOneMore(s, run + [RouteStarts(0)], CancelLands(0));
    assert run + [RouteStarts(0)] + [CancelLands(0)] == run + [RouteStarts(0), CancelLands(0)];
  }

  /** A link lost while a route waits for the old reconnect task leaves a new one running that nothing refers to. */
  lemma OrphanWitness()
    ensures var run := [LinkLoses, RouteStarts(0), CancelLands(0), LinkLoses, GatherEnds(0)];
      Possible(Initially(false), run) && Orphan(After(Initially(false), run).ladder)
  {
    hide TaskRuns, StopTasks, BeginConnect, Arm, InitEnd, Possible, After;
    var s := Initially(false);
    InterruptedRun(false);
    var run := [LinkLoses] + [] + [RouteStarts(0), CancelLands(0)];
    AfterOneMore(s, run, LinkLoses);
    AfterOneMore(s, run + [LinkLoses], GatherEnds(0));
    assert run + [LinkLoses] + [GatherEnds(0)] == [LinkLoses, RouteStarts(0), CancelLands(0), LinkLoses, GatherEnds(0)];
    assert OrphanAt(After(s, run + [LinkLoses] + [GatherEnds(0)]).ladder, 1);
  }

  /** A second route that starts and ends its window inside the first one's disarms the first one's probe. */
  lemma OverlapDisarms()
    ensures var run := [RouteStarts(0), Arms(0), RouteStarts(1), Passes(1), Arms(1), InitEnds(1)];
      && Possible(Initially(false), run)
      && var s := After(Initially(false), run);
         0 in Inside(s.routes) && s.now <= s.routes[0].deadline && s.probe.deadline.None?
  {
    hide TaskRuns, StopTasks, BeginConnect, LinkLost, Cancel, May, Do, MayAcquire;
    var s0 := Initially(false);
    var s1 := Apply(s0, RouteStarts(0));
    var s2 := Apply(s1, Arms(0));
    var s3 := Apply(s2, RouteStarts(1));
    var s4 := Apply(s3, Passes(1));
    var s5 := Apply(s4, Arms(1));
    var s6 := Apply(s5, InitEnds(1));
  }

  /** A route refused because the adapter is busy has already ended the reconnecting it interrupted. */
  lemma RefusalEndsReconnecting()
    ensures var run := [LinkLoses, Moves(Other(0), Acquire), RouteStarts(0), CancelLands(0), GatherEnds(0)];
      && Possible(Initially(false), run)
      && var s := After(Initially(false), run);
         !s.userDisconnected && !s.link.up && s.routes == map[] &&
         forall t :: 0 <= t < |s.ladder.tasks| ==> !s.ladder.tasks[t].Running()
  {
    hide TaskRuns, StopTasks, BeginConnect, Arm, InitEnd, Possible, After;
    var s := Initially(false);
    InterruptedRun(true);
    var run := [LinkLoses] + [Moves(Other(0), Acquire)] + [RouteStarts(0), CancelLands(0)];
    AfterOneMore(s, run, GatherEnds(0));
    var n := Apply(After(s, run), GatherEnds(0));
    assert n.routes == map[] && n.ladder.tasks == [Background(Reconnect, Over, true, 0)];
    assert run + [GatherEnds(0)] ==
      [LinkLoses, Moves(Other(0), Acquire), RouteStarts(0), CancelLands(0), GatherEnds(0)];
  }
}
