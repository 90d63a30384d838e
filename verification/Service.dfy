/**
 The mutable state of the BLE service (ble_service/src/main.py:168-240): the register cache,
 the bounded notification queue and its event, the background tasks and the PIN probe. Every
 method is one stretch of code without an `await`.
 */
module Service {
  import opened Options
  import opened Json
  import opened Utf8
  import opened RegisterFrame
  import Cache = RegisterCache
  import opened SseQueue
  import Protocol
  import opened Stretches
  import Lock = OperationLock

  const NOTIFICATION_QUEUE_SIZE: nat := 1000

  datatype Notice =
    | Data(raw: Bytes, format: string, parsed: Option<Json>, partial: bool)
    | Status(state: string, number: Option<nat>)

  const FRESH := Protocol.Background(Protocol.Reconnect, Protocol.Fresh, false, 0)

  /** What a notification is queued as; `None` when a register frame is dropped. */
  function NoticeOf(data: Bytes): Option<Notice> {
    if Cache.IsRegisterFrame(data) then
      match OutcomeOf(data)
      case Dropped => None
      case Clean(v) => Some(Data(data, "json", Some(v), false))
      case Salvaged(v) => Some(Data(data, "json", Some(v), true))
    else if data != [] && data[0] == 64 then Some(Data(data, "binary", None, false))
    else Some(Data(data, "unknown", None, false))
  }

  const CONNECTED := Status("connected", None)
  const EXHAUSTED := Status("reconnect_exhausted", Some(4))

  function Reconnecting(attempt: nat): Notice {
    Status("reconnecting", Some(attempt))
  }

  /** "reconnecting", numbered from 1 to `n`. */
  function Announced(n: nat): (a: seq<Notice>)
    ensures |a| == n
  {
    seq(n, i requires 0 <= i < n => Reconnecting(i + 1))
  }

  /** The last stretch tells how the task ended. */
  predicate Answers(own: seq<Stretch>, ok: bool, cancelled: bool) {
    own != [] && (ok <==> IsSuccess(own[|own| - 1])) && (cancelled <==> own[|own| - 1].Cancelled?)
  }

  /**
   Each back-off or attempt begun is announced, by number; then the connection exactly if there is
   one, or exhaustion exactly if four attempts failed; and nothing else.
   */
  predicate Reports(own: seq<Stretch>, p: Protocol.Profile, ok: bool, before: seq<Notice>, after: seq<Notice>) {
    var begun := before + Announced(Begun(own, p));
    after == if ok then begun + [CONNECTED] else if Failures(own) == 4 then begun + [EXHAUSTED] else begun
  }

  /** The task ended in the turn of this attempt, announced if it came to that. */
  predicate TurnEnds(
    own: seq<Stretch>, p: Protocol.Profile, attempt: nat, ok: bool, cancelled: bool,
    before: seq<Notice>, after: seq<Notice>)
  {
    && attempt > 0
    && (EndsAfter(own, p, attempt - 1, ok, cancelled) || EndsAfter(own, p, attempt, ok, cancelled))
    && var begun := if Begun(own, p) == attempt then before + [Reconnecting(attempt)] else before;
       after == if ok then begun + [CONNECTED] else begun
  }

  lemma StopsAtTop(
    own: seq<Stretch>, at: Protocol.Phase, answer: bool, p: Protocol.Profile, attempt: nat, said: seq<Notice>)
    requires 1 <= attempt <= 4 && AllFailed(own, at, answer, p, attempt - 1)
    ensures TurnEnds(own + [Ran(at, answer, Protocol.Over)], p, attempt, false, false, said, said)
  {
    hide Begun, Failures;
    OneMore(own, Ran(at, answer, Protocol.Over), p);
  }

  /** Before attempt `attempt`, a reconnect has announced its back-off and is in it. */
  lemma BacksOff(own: seq<Stretch>, at: Protocol.Phase, answer: bool, attempt: nat, said: seq<Notice>)
    requires 1 <= attempt <= 4 && AllFailed(own, at, answer, Protocol.Reconnect, attempt - 1)
    ensures var slept, now := own + [Ran(at, answer, Protocol.Waiting(attempt))], said + [Reconnecting(attempt)];
      && TurnEnds(slept + [Cancelled], Protocol.Reconnect, attempt, false, true, said, now)
      && TurnEnds(slept + [Ran(Protocol.Waiting(attempt), answer, Protocol.Over)],
                  Protocol.Reconnect, attempt, false, false, said, now)
      && TriesNow(slept + [Ran(Protocol.Waiting(attempt), answer, Protocol.Trying(attempt))],
                  Protocol.Reconnect, attempt)
  {
    hide Begun, Failures;
    var slept := own + [Ran(at, answer, Protocol.Waiting(attempt))];
    OneMore(own, Ran(at, answer, Protocol.Waiting(attempt)), Protocol.Reconnect);
    OneMore(slept, Cancelled, Protocol.Reconnect);
    OneMore(slept, Ran(Protocol.Waiting(attempt), answer, Protocol.Over), Protocol.Reconnect);
    OneMore(slept, Ran(Protocol.Waiting(attempt), answer, Protocol.Trying(attempt)), Protocol.Reconnect);
  }

  /** Attempt `attempt` has just been begun, and all before it failed. */
  predicate TriesNow(own: seq<Stretch>, p: Protocol.Profile, attempt: nat) {
    attempt > 0 && Begun(own, p) == attempt && Failures(own) == attempt - 1
  }

  lemma StartsAtOnce(own: seq<Stretch>, at: Protocol.Phase, answer: bool, attempt: nat)
    requires 1 <= attempt <= 4 && AllFailed(own, at, answer, Protocol.Startup, attempt - 1)
    ensures TriesNow(own + [Ran(at, answer, Protocol.Trying(attempt))], Protocol.Startup, attempt)
  {
    hide Begun, Failures;
    OneMore(own, Ran(at, answer, Protocol.Trying(attempt)), Protocol.Startup);
  }

  lemma EndsWithAttempt(
    own: seq<Stretch>, p: Protocol.Profile, attempt: nat, ok: bool, cancelled: bool,
    before: seq<Notice>, after: seq<Notice>)
    requires attempt > 0 && EndsAfter(own, p, attempt, ok, cancelled)
    requires var begun := before + [Reconnecting(attempt)]; after == if ok then begun + [CONNECTED] else begun
    ensures TurnEnds(own, p, attempt, ok, cancelled, before, after)
  {
    hide Begun, Failures;
  }

  lemma TurnReports(
    own: seq<Stretch>, p: Protocol.Profile, attempt: nat, ok: bool, cancelled: bool,
    first: seq<Notice>, before: seq<Notice>, after: seq<Notice>)
    requires attempt > 0 && before == first + Announced(attempt - 1)
    requires TurnEnds(own, p, attempt, ok, cancelled, before, after)
    ensures Answers(own, ok, cancelled) && Reports(own, p, ok, first, after)
  {
    hide Begun, Failures;
    AnnouncedMore(first, attempt - 1);
  }

  lemma GivingUpReports(
    own: seq<Stretch>, at: Protocol.Phase, answer: bool, p: Protocol.Profile,
    first: seq<Notice>, after: seq<Notice>)
    requires AllFailed(own, at, answer, p, 4) && after == first + Announced(4) + [EXHAUSTED]
    ensures var all := own + [Ran(at, answer, Protocol.Over)];
      Answers(all, false, false) && Reports(all, p, false, first, after)
  {
    hide Begun, Failures;
    OneMore(own, Ran(at, answer, Protocol.Over), p);
  }

  lemma AnnouncedMore(said: seq<Notice>, n: nat)
    ensures said + Announced(n) + [Reconnecting(n + 1)] == said + Announced(n + 1)
  {
  }

  /** A notice is put down to the background task that is running. */
  function HavingSaid(speaker: Option<nat>, said: map<nat, seq<Notice>>, n: Notice): map<nat, seq<Notice>> {
    if speaker.None? then said
    else said[speaker.value := (if speaker.value in said then said[speaker.value] else []) + [n]]
  }

  predicate StartsWith(data: Bytes, head: Bytes) {
    head <= data
  }

  // ---------- Stretches of a background task ----------

  /** No event of the run is task `t` running on. */
  predicate NoneOf(run: seq<Protocol.Event>, t: nat) {
    forall e :: e in run ==> !Protocol.Continues(e, t)
  }


  /** Task `t` woke at the end of the run `past`, and may run on. */
  ghost predicate Awake(t: nat, start: Protocol.State, past: seq<Protocol.Event>, woke: Protocol.State) {
    && Protocol.Possible(start, past) && Protocol.After(start, past) == woke
    && forall a :: Protocol.Enabled(woke, Protocol.Runs(t, a))
  }

  /** Since it woke, it is on its way to `next`, where it will wait again or be over. */
  ghost predicate Due(
    t: nat, start: Protocol.State, past: seq<Protocol.Event>, woke: Protocol.State, answer: bool,
    next: Protocol.State) {
    Awake(t, start, past, woke) && t < |woke.ladder.tasks| && Protocol.TaskRuns(woke, t, answer) == next
  }

  /** The stretch to `next` is one more step of the run. */
  lemma NextStretch(
    t: nat, start: Protocol.State, past: seq<Protocol.Event>, woke: Protocol.State, answer: bool,
    next: Protocol.State)
    requires Due(t, start, past, woke, answer, next)
    ensures var run := past + [Protocol.Runs(t, answer)];
      && Protocol.Possible(start, run) && Protocol.After(start, run) == next
      && Own(start, run, t) == Own(start, past, t) + [Ran(PhaseOf(woke, t), answer, PhaseOf(next, t))]
  {
    hide Protocol.TaskRuns, Protocol.Possible, Protocol.After, Own;
    OwnOneMore(start, past, Protocol.Runs(t, answer), t);
  }

  lemma AwakeIsDue(t: nat, start: Protocol.State, past: seq<Protocol.Event>, woke: Protocol.State, answer: bool)
    requires Awake(t, start, past, woke) && t < |woke.ladder.tasks|
    ensures Due(t, start, past, woke, answer, Protocol.TaskRuns(woke, t, answer))
  {
    hide Protocol.TaskRuns, Awake;
  }

  /** Where the task waits for its next attempt. */
  function Waits(s: Protocol.State, t: nat, attempt: nat): Protocol.State
    requires t < |s.ladder.tasks|
  {
    s.(ladder := Protocol.SetTask(s.ladder, t, s.ladder.tasks[t].(phase := Protocol.Waiting(attempt))))
  }

  /** After a failed attempt: a startup task waits before the next, a reconnect goes straight to the loop's top. */
  function Failed(s: Protocol.State, t: nat, attempt: nat): Protocol.State
    requires t < |s.ladder.tasks|
  {
    if s.ladder.tasks[t].profile.Startup? && attempt < Protocol.ATTEMPTS then Waits(s, t, attempt)
    else Protocol.LoopTop(s, t, attempt + 1)
  }

  class ServiceState {
    var queue: seq<Notice>
    var event: bool
    var registerCache: map<seq<nat>, Json>
    var registerCacheMac: Option<string>
    var userDisconnected: bool
    var reconnectTask: Option<nat>
    var autoConnectTask: Option<nat>
    var reconnecting: bool
    var pinProbeDeadline: Option<int>
    var postConnectInit: int
    // The event loop's tasks, the adapter as the service sees it, and the clock
    var tasks: seq<Protocol.Background>
    var link: Protocol.Link
    var now: int
    var routes: map<nat, Protocol.Route>
    var armings: nat
    var suppressed: nat
    // The background task whose code is running, if one is, and what each has announced
    ghost var speaker: Option<nat>
    ghost var said: map<nat, seq<Notice>>
    ghost var draining: set<nat>
    ghost var pushed: seq<Notice>
    ghost var removed: seq<Removal<Notice>>

    ghost function Queue(): Sse<Notice>
      reads this
    {
      Sse(queue, event, draining, pushed, removed)
    }

    ghost function SaidBy(t: nat): seq<Notice>
      reads this`said
    {
      if t in said then said[t] else []
    }

    function Registers(): Cache.Cache
      reads this
    {
      Cache.Cache(registerCache, registerCacheMac)
    }

    function Ladder(): Protocol.Ladder
      reads this
    {
      Protocol.Ladder(tasks, reconnectTask, autoConnectTask, reconnecting)
    }

    function Coordination(): Protocol.State
      reads this
    {
      Protocol.State(now, userDisconnected, Ladder(),
        Protocol.Probe(pinProbeDeadline, postConnectInit, armings, suppressed), routes, link)
    }

    /** The protocol's invariants hold of the service's fields. */
    ghost predicate Valid()
      reads this
    {
      Protocol.Inv(Coordination())
    }

    constructor ()
      ensures Queue() == Empty() && Registers() == Cache.EMPTY
      ensures Coordination() == Protocol.Initially(false) && Valid()
    {
      userDisconnected, reconnectTask, autoConnectTask, reconnecting := false, None, None, false;
      pinProbeDeadline, postConnectInit, armings, suppressed := None, 0, 0, 0;
      tasks, link, now, routes := [], Protocol.Link(Lock.UNLOCKED, false), 0, map[];
      queue, event := [], false;
      registerCache, registerCacheMac := map[], None;
      draining, pushed, removed, speaker, said := {}, [], [], None, map[];
      Protocol.InitiallySound(false);
    }

    /** The notice stands behind those queued before, of which a full queue lost the oldest, and the event is raised. */
    predicate IsQueued(before: seq<Notice>, n: Notice)
      reads this
    {
      event && queue == (if |before| < 1000 then before else before[1..]) + [n]
    }

    /** Appending to the bounded deque and raising the event. */
    method Enqueue(n: Notice)
      modifies this`queue, this`event, this`pushed, this`removed, this`said
      ensures IsQueued(old(queue), n) && said == HavingSaid(speaker, old(said), n)
      ensures Queue() == Step(old(Queue()), Push(n), NOTIFICATION_QUEUE_SIZE)
    {
      if |queue| >= NOTIFICATION_QUEUE_SIZE {
        removed := removed + [Evicted(queue[0])];
        queue := queue[1..];
      }
      queue := queue + [n];
      pushed := pushed + [n];
      said := HavingSaid(speaker, said, n);
      event := true;
    }

    /** `_note_register_cache_target` */
    method NoteRegisterCacheTarget(mac: string)
      modifies this`registerCache, this`registerCacheMac
      ensures Registers() == Cache.Apply(old(Registers()), Cache.Target(mac))
      ensures registerCacheMac == Some(mac)
      ensures registerCache == if old(registerCacheMac) in {None, Some(mac)} then old(registerCache) else map[]
    {
      if registerCacheMac.Some? && registerCacheMac.value != mac {
        registerCache := map[];
      }
      registerCacheMac := Some(mac);
    }

    /** `_cache_register_if_applicable` */
    method CacheRegisterIfApplicable(parsed: Json)
      modifies this`registerCache
      ensures Registers() == Cache.Store(old(Registers()), parsed)
      ensures forall typ :: Cache.IsRegister(parsed, typ) ==> registerCache == old(registerCache)[typ := parsed]
      ensures (forall typ :: !Cache.IsRegister(parsed, typ)) ==> registerCache == old(registerCache)
    {
      hide Cache.CacheKey, Cache.IsRegister;
      forall typ ensures Cache.CacheKey(parsed) == Some(typ) <==> Cache.IsRegister(parsed, typ) {
        Cache.KeyVerdict(parsed, typ);
      }
      var key := Cache.CacheKey(parsed);
      if key.Some? {
        registerCache := registerCache[key.value := parsed];
      }
    }

    /** `notification_callback`: a dropped register frame touches neither the cache nor the queue. */
    method NotificationCallback(data: Bytes)
      modifies this`queue, this`event, this`pushed, this`removed, this`said, this`registerCache
      ensures Registers() == Cache.Apply(old(Registers()), Cache.Frame(data))
      ensures Queue() == (
        if NoticeOf(data).None? then old(Queue())
        else Step(old(Queue()), Push(NoticeOf(data).value), NOTIFICATION_QUEUE_SIZE))
      ensures StartsWith(data, [68, 123]) && OutcomeOf(data).Dropped? ==> queue == old(queue) && event == old(event)
      ensures StartsWith(data, [68, 123]) && OutcomeOf(data).Clean? ==>
        IsQueued(old(queue), Data(data, "json", Some(OutcomeOf(data).value), false))
      ensures StartsWith(data, [68, 123]) && OutcomeOf(data).Salvaged? ==>
        IsQueued(old(queue), Data(data, "json", Some(OutcomeOf(data).value), true))
      ensures StartsWith(data, [64]) ==> IsQueued(old(queue), Data(data, "binary", None, false))
      ensures !StartsWith(data, [68, 123]) && !StartsWith(data, [64]) ==>
        IsQueued(old(queue), Data(data, "unknown", None, false))
      ensures StartsWith(data, [68, 123]) && !OutcomeOf(data).Dropped? ==>
        forall typ :: Cache.IsRegister(OutcomeOf(data).value, typ) ==>
          registerCache == old(registerCache)[typ := OutcomeOf(data).value]
      ensures !StartsWith(data, [68, 123]) || OutcomeOf(data).Dropped? ==> registerCache == old(registerCache)
    {
      hide Cache.CacheKey, Cache.IsRegister, OutcomeOf;
      var notification := new Notification();
      if Cache.IsRegisterFrame(data) {
        var ok := notification.DecodeRegisterFrame(data);
        if !ok {
          return;
        }
        CacheRegisterIfApplicable(notification.parsed.value);
      } else if data != [] && data[0] == 64 {
        notification.format := "binary";
      } else {
        notification.format := "unknown";
      }
      Enqueue(Data(data, notification.format, notification.parsed, notification.partial));
    }

    /** `_push_status_event` */
    method PushStatusEvent(state: string, number: Option<nat>)
      modifies this`queue, this`event, this`pushed, this`removed, this`said
      ensures IsQueued(old(queue), Status(state, number))
      ensures said == HavingSaid(speaker, old(said), Status(state, number))
      ensures speaker.Some? ==> SaidBy(speaker.value) == old(SaidBy(speaker.value)) + [Status(state, number)]
      ensures Queue() == Step(old(Queue()), Push(Status(state, number)), NOTIFICATION_QUEUE_SIZE)
    {
      Enqueue(Status(state, number));
    }

    /** A consumer's wait returned: it clears the event and starts draining. */
    method ConsumerWakes(ghost consumer: nat)
      requires Enabled(Queue(), Wake(consumer))
      modifies this`event, this`draining
      ensures !event
      ensures Queue() == Step(old(Queue()), Wake(consumer), NOTIFICATION_QUEUE_SIZE)
    {
      event := false;
      draining := draining + {consumer};
    }

    /** One turn of the drain loop, up to its `yield`; `None` ends the loop. */
    method ConsumerTakes(ghost consumer: nat) returns (item: Option<Notice>)
      requires consumer in Queue().draining
      modifies this`queue, this`removed, this`draining
      ensures item.Some? <==> old(queue) != []
      ensures item.Some? ==> old(queue) == [item.value] + queue
      ensures item.Some? ==> Queue() == Step(old(Queue()), Pop(consumer), NOTIFICATION_QUEUE_SIZE)
      ensures item.None? ==> Queue() == Step(old(Queue()), Drained(consumer), NOTIFICATION_QUEUE_SIZE)
    {
      if queue == [] {
        draining := draining - {consumer};
        return None;
      }
      item := Some(queue[0]);
      removed := removed + [Delivered(queue[0], consumer)];
      queue := queue[1..];
    }

    // ---------- Connecting and reconnecting ----------

    /** `task.done()` of a referenced task, negated. */
    predicate Pending(ref: Option<nat>)
      reads this
    {
      ref.Some? && ref.value < |tasks| && !tasks[ref.value].phase.Over?
    }

    /** The user wants the link, no probe's window is open, and the last reconnect task, if any, is done. */
    predicate CallsForReconnect()
      reads this
    {
      && !userDisconnected && (pinProbeDeadline.Some? ==> pinProbeDeadline.value < now)
      && (reconnectTask.Some? && reconnectTask.value < |tasks| ==> tasks[reconnectTask.value].phase == Protocol.Over)
    }

    /** `_on_adapter_disconnect` */
    method OnAdapterDisconnect()
      requires Valid()
      modifies this`queue, this`event, this`pushed, this`removed, this`said, this`link
      modifies this`pinProbeDeadline, this`suppressed, this`reconnectTask, this`tasks
      ensures Coordination() == Protocol.LinkLost(old(Coordination()))
      ensures Queue() == Step(old(Queue()), Push(Status("disconnected", None)), NOTIFICATION_QUEUE_SIZE)
      ensures Valid()
      ensures tasks == old(tasks) + (if old(CallsForReconnect()) then [FRESH] else [])
      ensures reconnectTask == if old(CallsForReconnect()) then Some(|old(tasks)|) else old(reconnectTask)
      ensures pinProbeDeadline == if userDisconnected then old(pinProbeDeadline) else None
      ensures !link.up && link.lock == old(link.lock)
    {
      hide Step, Protocol.ScheduleReconnect, Protocol.Inv, Protocol.Enabled, IsQueued, HavingSaid;
      Protocol.LinkLostKeepsInv(Coordination());
      link := link.(up := false);
      PushStatusEvent("disconnected", None);
      if userDisconnected {
        return;
      }
      var suppress := ConsumeProbe();
      if suppress {
        return;
      }
      ScheduleReconnect();
    }

    /** A disconnect consumes the probe, whether or not its window is still open. */
    method ConsumeProbe() returns (suppress: bool)
      modifies this`pinProbeDeadline, this`suppressed
      ensures suppress <==> old(pinProbeDeadline).Some? && now <= old(pinProbeDeadline).value
      ensures pinProbeDeadline.None? && suppressed == old(suppressed) + (if suppress then 1 else 0)
    {
      suppress := pinProbeDeadline.Some? && now <= pinProbeDeadline.value;
      pinProbeDeadline := None;
      if suppress {
        suppressed := suppressed + 1;
      }
    }

    /** A fresh reconnect task, unless the last one is still under way. */
    method ScheduleReconnect()
      modifies this`reconnectTask, this`tasks
      ensures Ladder() == Protocol.ScheduleReconnect(old(Ladder()))
      ensures tasks == old(tasks) + (if old(Pending(reconnectTask)) then [] else [FRESH])
      ensures reconnectTask == if old(Pending(reconnectTask)) then old(reconnectTask) else Some(|old(tasks)|)
    {
      if !Pending(reconnectTask) {
        reconnectTask := Some(|tasks|);
        tasks := tasks + [FRESH];
      }
    }

    /** `task.cancel()` on a task that is not done. */
    method CancelTask(ref: Option<nat>)
      modifies this`tasks
      ensures Ladder() == Protocol.Cancel(old(Ladder()), ref)
    {
      if Pending(ref) {
        tasks := tasks[ref.value := tasks[ref.value].(cancelled := true)];
      }
    }

    /** The start of the `ensure_connected` route: it waits only if there is something to wait for. */
    method BeginEnsureConnected(r: nat, mac: string) returns (gathering: bool, busy: bool)
      requires Valid() && Protocol.Enabled(Coordination(), Protocol.RouteStarts(r))
      modifies this`registerCache, this`registerCacheMac, this`reconnectTask, this`autoConnectTask, this`reconnecting
      modifies this`userDisconnected, this`tasks, this`routes
      ensures Coordination() == Protocol.RouteStart(old(Coordination()), r)
      ensures Registers() == Cache.Apply(old(Registers()), Cache.Target(mac))
      ensures gathering <==> Protocol.PendingSet(old(Ladder())) != {}
      ensures busy <==> !gathering && old(link.lock.locked)
      ensures Valid()
    {
      hide Cache.Apply, Protocol.Admit, Protocol.Inv, Protocol.Enabled;
      Protocol.StartKeepsInv(Coordination(), r);
      NoteRegisterCacheTarget(mac);
      gathering, busy := false, false;
      var waits := Protocol.PendingSet(Ladder());
      if Pending(reconnectTask) {
        gathering := true;
        assert reconnectTask.value in waits;
      }
      if Pending(autoConnectTask) {
        gathering := true;
        assert autoConnectTask.value in waits;
      }
      if !gathering {
        busy := AdmitRoute(r);
        return;
      }
      CancelTask(reconnectTask);
      CancelTask(autoConnectTask);
      routes := routes[r := Protocol.Gathering(waits)];
    }

    /** The route once the background tasks are gone; a busy adapter refuses it. */
    method AdmitRoute(r: nat) returns (busy: bool)
      modifies this`reconnectTask, this`autoConnectTask, this`reconnecting, this`userDisconnected, this`routes
      ensures Coordination() == Protocol.Admit(old(Coordination()), r)
      ensures busy <==> old(link.lock.locked)
      ensures reconnectTask.None? && autoConnectTask.None? && !reconnecting
      ensures userDisconnected == (busy && old(userDisconnected))
      ensures routes == if busy then old(routes) - {r} else old(routes)[r := Protocol.Admitted]
      ensures old(Valid() && Protocol.Enabled(Coordination(), Protocol.GatherEnds(r))) ==> Valid()
    {
      hide Step, Cache.Apply, Protocol.Inv, Protocol.Enabled;
      if Valid() && Protocol.Enabled(Coordination(), Protocol.GatherEnds(r)) {
        Protocol.AdmitKeepsInv(Coordination(), r);
      }
      reconnectTask := None;
      autoConnectTask := None;
      reconnecting := false;
      if link.lock.locked {
        routes := routes - {r};
        return true;
      }
      userDisconnected := false;
      routes := routes[r := Protocol.Admitted];
      return false;
    }

    /** Arming the probe and counting the initialisation, before its first write. */
    method BeginInit(r: nat) returns (deadline: int)
      requires Valid() && Protocol.Enabled(Coordination(), Protocol.Arms(r))
      modifies this`pinProbeDeadline, this`postConnectInit, this`armings, this`routes
      ensures Coordination() == Protocol.Arm(old(Coordination()), r)
      ensures r in routes && routes[r] == Protocol.Initialising(deadline)
      ensures deadline == now + 5000 && pinProbeDeadline == Some(deadline)
      ensures postConnectInit == old(postConnectInit) + 1
      ensures Valid()
    {
      hide Step, Cache.Apply, Protocol.Inv, Protocol.Enabled;
      Protocol.ArmKeepsInv(Coordination(), r);
      deadline := now + Protocol.PIN_REQUIRED_WINDOW;
      pinProbeDeadline := Some(deadline);
      postConnectInit := postConnectInit + 1;
      armings := armings + 1;
      routes := routes[r := Protocol.Initialising(deadline)];
    }

    /** The `finally` of the initialisation. */
    method EndInit(r: nat, deadline: int)
      requires r in routes && routes[r] == Protocol.Initialising(deadline)
      requires Valid()
      modifies this`pinProbeDeadline, this`postConnectInit, this`routes
      ensures Coordination() == Protocol.InitEnd(old(Coordination()), r)
      ensures pinProbeDeadline == if old(pinProbeDeadline) == Some(deadline) then None else old(pinProbeDeadline)
      ensures postConnectInit == old(postConnectInit) - 1 && routes == old(routes) - {r}
      ensures Valid()
    {
      hide Step, Cache.Apply, Protocol.Inv, Protocol.Enabled;
      Protocol.InitEndKeepsInv(Coordination(), r);
      postConnectInit := postConnectInit - 1;
      if pinProbeDeadline == Some(deadline) {
        pinProbeDeadline := None;
      }
      routes := routes - {r};
    }

    /** What the disconnect and cancel-reconnect routes do to the background tasks. */
    method StopBackgroundTasks()
      requires Valid()
      modifies this`userDisconnected, this`reconnectTask, this`autoConnectTask, this`reconnecting, this`tasks
      ensures Coordination() == Protocol.UserStops(old(Coordination()))
      ensures Valid()
    {
      hide Step, Cache.Apply, Protocol.Inv, Protocol.Enabled;
      Protocol.StopsKeepInv(Coordination());
      userDisconnected := true;
      if Pending(autoConnectTask) {
        CancelTask(autoConnectTask);
        autoConnectTask := None;
      }
      if Pending(reconnectTask) {
        CancelTask(reconnectTask);
        reconnectTask := None;
      }
      reconnecting := false;
    }

    /** The first stretch of `_connect_and_initialize`. */
    method ConnectAndInitialize(mac: string)
      modifies this`registerCache, this`registerCacheMac, this`link
      ensures Coordination() == Protocol.BeginConnect(old(Coordination()))
      ensures Registers() == Cache.Apply(old(Registers()), Cache.Target(mac))
      ensures old(Valid()) ==> Valid()
    {
      hide Cache.Apply, Protocol.Inv;
      if Valid() {
        Protocol.BeginConnectKeepsInv(Coordination());
      }
      NoteRegisterCacheTarget(mac);
      if !link.lock.locked && postConnectInit == 0 {
        link := link.(lock := link.lock.(bus := None));
      }
    }

    /** The legacy connect route, up to its connect. */
    method BeginLegacyConnect(mac: string)
      requires Valid()
      modifies this`registerCache, this`registerCacheMac, this`link, this`userDisconnected
      ensures Coordination() == Protocol.Apply(old(Coordination()), Protocol.LegacyConnects)
      ensures Registers() == Cache.Apply(old(Registers()), Cache.Target(mac))
      ensures Valid()
    {
      hide Cache.Apply, Protocol.Inv;
      Protocol.StepKeepsInv(Coordination(), Protocol.LegacyConnects);
      Protocol.AskingKeepsInv(Coordination());
      userDisconnected := false;
      ConnectAndInitialize(mac);
    }

    // ---------- Retrying ----------

    /** An event of the protocol, caused by somebody else. */
    method Happen(e: Protocol.Event)
      requires Protocol.Enabled(Coordination(), e)
      modifies this`now, this`userDisconnected, this`routes, this`link, this`tasks, this`reconnectTask
      modifies this`autoConnectTask, this`reconnecting, this`pinProbeDeadline, this`postConnectInit
      modifies this`armings, this`suppressed
      ensures Coordination() == Protocol.Apply(old(Coordination()), e)
    {
      hide Protocol.Apply, Protocol.Enabled;
      var n := Protocol.Apply(Coordination(), e);
      now, userDisconnected, routes, link := n.now, n.userDisconnected, n.routes, n.link;
      tasks, reconnectTask, autoConnectTask, reconnecting :=
        n.ladder.tasks, n.ladder.reconnect, n.ladder.auto, n.ladder.reconnecting;
      pinProbeDeadline, postConnectInit, armings, suppressed :=
        n.probe.deadline, n.probe.inits, n.probe.armings, n.probe.suppressed;
    }

    /** The task is where it was, though perhaps cancelled. */
    predicate KeepsTask(t: nat, before: seq<Protocol.Background>)
      reads this`tasks
    {
      t < |tasks| && t < |before| && tasks[t].(cancelled := before[t].cancelled) == before[t]
    }

    /**
     An `await` of task `t`: anything may happen but its own next stretch, anybody else may announce
     anything, and its own use of the adapter ends.
     */
    method Elsewhere(t: nat) returns (ghost run: seq<Protocol.Event>)
      requires t < |tasks| && speaker == Some(t)
      modifies this
      ensures Protocol.Possible(old(Coordination()), run) && Coordination() == Protocol.After(old(Coordination()), run)
      ensures Own(old(Coordination()), run, t) == []
      ensures speaker == Some(t) && SaidBy(t) == old(SaidBy(t))
      ensures KeepsTask(t, old(tasks))
      ensures Lock.ByTask(t) !in link.lock.inside
    {
      hide Protocol.Possible, Protocol.After, Protocol.Continues, Own;
      run := Meanwhile(t);
      run := LeaveLock(t, old(Coordination()), run);
      OthersOwnNothing(old(Coordination()), run, t);
      speaker := Some(t);
    }

    /** Events and announcements, none of them task `t`'s. */
    method Meanwhile(t: nat) returns (ghost run: seq<Protocol.Event>)
      requires t < |tasks|
      modifies this
      ensures Protocol.Possible(old(Coordination()), run) && Coordination() == Protocol.After(old(Coordination()), run)
      ensures NoneOf(run, t)
      ensures SaidBy(t) == old(SaidBy(t)) && KeepsTask(t, old(tasks))
    {
      hide Protocol.Possible, Protocol.After, Protocol.Continues;
      run := [];
      Protocol.NothingHappens(Coordination());
      var n: nat := *;
      while n > 0
        invariant Protocol.Possible(old(Coordination()), run)
        invariant Coordination() == Protocol.After(old(Coordination()), run)
        invariant NoneOf(run, t)
        invariant SaidBy(t) == old(SaidBy(t)) && KeepsTask(t, old(tasks))
      {
        run := OneThing(t, old(Coordination()), run);
        n := n - 1;
      }
    }

    method OneThing(t: nat, ghost start: Protocol.State, ghost past: seq<Protocol.Event>)
      returns (ghost run: seq<Protocol.Event>)
      requires t < |tasks| && Protocol.Possible(start, past) && Coordination() == Protocol.After(start, past)
      requires NoneOf(past, t)
      modifies this
      ensures Protocol.Possible(start, run) && Coordination() == Protocol.After(start, run)
      ensures NoneOf(run, t)
      ensures SaidBy(t) == old(SaidBy(t)) && KeepsTask(t, old(tasks))
    {
      hide Protocol.Possible, Protocol.After, Protocol.Continues;
      run := OneEvent(t, start, past);
      Announcement(t);
    }

    /** Something happens that is not task `t` running on. */
    method OneEvent(t: nat, ghost start: Protocol.State, ghost past: seq<Protocol.Event>)
      returns (ghost run: seq<Protocol.Event>)
      requires t < |tasks| && Protocol.Possible(start, past) && Coordination() == Protocol.After(start, past)
      requires NoneOf(past, t)
      modifies this`now, this`userDisconnected, this`routes, this`link, this`tasks, this`reconnectTask
      modifies this`autoConnectTask, this`reconnecting, this`pinProbeDeadline, this`postConnectInit
      modifies this`armings, this`suppressed
      ensures Protocol.Possible(start, run) && Coordination() == Protocol.After(start, run)
      ensures NoneOf(run, t)
      ensures KeepsTask(t, old(tasks))
    {
      hide Protocol.Apply, Protocol.Enabled, Protocol.Possible, Protocol.After, Protocol.Continues;
      run := past;
      var e: Protocol.Event := *;
      if !Protocol.Continues(e, t) && Protocol.Enabled(Coordination(), e) {
        Protocol.OthersKeepTask(Coordination(), e, t);
        Protocol.AfterOneMore(start, run, e);
        Happen(e);
        run := run + [e];
      }
    }

    /** Anybody but task `t` announces something. */
    method Announcement(t: nat)
      modifies this`queue, this`event, this`pushed, this`removed, this`said, this`speaker
      ensures SaidBy(t) == old(SaidBy(t))
    {
      hide Step;
      ghost var somebody: Option<nat> := *;
      speaker := if somebody == Some(t) then None else somebody;
      var notice: Notice := *;
      Enqueue(notice);
    }

    /** Whatever task `t` was doing inside the adapter's lock comes to its end. */
    method LeaveLock(t: nat, ghost start: Protocol.State, ghost past: seq<Protocol.Event>)
      returns (ghost run: seq<Protocol.Event>)
      requires t < |tasks| && Protocol.Possible(start, past) && Coordination() == Protocol.After(start, past)
      modifies this`now, this`userDisconnected, this`routes, this`link, this`tasks, this`reconnectTask
      modifies this`autoConnectTask, this`reconnecting, this`pinProbeDeadline, this`postConnectInit
      modifies this`armings, this`suppressed
      ensures Protocol.Possible(start, run) && Coordination() == Protocol.After(start, run)
      ensures NoneOf(past, t) ==> NoneOf(run, t)
      ensures tasks == old(tasks) && Lock.ByTask(t) !in link.lock.inside
    {
      hide Protocol.Apply, Protocol.Enabled, Protocol.Possible, Protocol.After;
      var me := Lock.ByTask(t);
      run := past;
      if me in link.lock.inside && link.lock.inside[me].Opening? {
        run := Move(me, Lock.FailOpening, start, run);
      }
      if me in link.lock.inside && link.lock.inside[me].Registering? {
        run := Move(me, Lock.EndRegistering, start, run);
      }
      if me in link.lock.inside {
        run := Move(me, Lock.Release, start, run);
      }
    }

    method Move(a: Lock.Actor, m: Lock.Move, ghost start: Protocol.State, ghost past: seq<Protocol.Event>)
      returns (ghost run: seq<Protocol.Event>)
      requires Protocol.Possible(start, past) && Coordination() == Protocol.After(start, past)
      requires Lock.May(link.lock, a, m) && !m.Acquire?
      modifies this`now, this`userDisconnected, this`routes, this`link, this`tasks, this`reconnectTask
      modifies this`autoConnectTask, this`reconnecting, this`pinProbeDeadline, this`postConnectInit
      modifies this`armings, this`suppressed
      ensures Protocol.Possible(start, run) && Coordination() == Protocol.After(start, run)
      ensures run == past + [Protocol.Moves(a, m)]
      ensures tasks == old(tasks) && link.lock == Lock.Do(old(link.lock), a, m)
    {
      hide Protocol.Apply, Protocol.Enabled, Protocol.Possible, Protocol.After;
      Protocol.MoveIsEnabled(Coordination(), a, m);
      Protocol.AfterOneMore(start, past, Protocol.Moves(a, m));
      Happen(Protocol.Moves(a, m));
      run := past + [Protocol.Moves(a, m)];
    }

    /** The task's own retry record is at phase `phase`. */
    method Enter(t: nat, phase: Protocol.Phase)
      requires t < |tasks|
      modifies this`tasks
      ensures Ladder() == Protocol.SetTask(old(Ladder()), t, old(tasks[t]).(phase := phase))
    {
      tasks := tasks[t := tasks[t].(phase := phase)];
    }

    /** The task returns: the retry record is cleared. */
    method Finish(t: nat)
      requires t < |tasks|
      modifies this`tasks, this`reconnecting
      ensures Ladder() == Protocol.Finish(old(Ladder()), t)
    {
      Enter(t, Protocol.Over);
      reconnecting := false;
    }

    /** The start of attempt `attempt`: it is counted, and `_connect_and_initialize` begins. */
    method BeginAttempt(t: nat, attempt: nat, mac: string)
      requires t < |tasks|
      modifies this`tasks, this`link, this`registerCache, this`registerCacheMac
      ensures Coordination() == Protocol.Try(old(Coordination()), t, attempt)
      ensures Registers() == Cache.Apply(old(Registers()), Cache.Target(mac))
      ensures t < |tasks| && tasks[t].profile == old(tasks[t]).profile && tasks[t].phase == Protocol.Trying(attempt)
    {
      hide Cache.Apply;
      tasks := tasks[t := tasks[t].(phase := Protocol.Trying(attempt), tried := tasks[t].tried + 1)];
      ConnectAndInitialize(mac);
    }

    /** The stretch since `woke` is over and the task waits; it comes back, or is cancelled. */
    method Await(
      t: nat, ghost start: Protocol.State, ghost past: seq<Protocol.Event>, ghost woke: Protocol.State,
      ghost answer: bool)
      returns (cancelled: bool, ghost run: seq<Protocol.Event>)
      requires Due(t, start, past, woke, answer, Coordination()) && t < |tasks| && !tasks[t].phase.Over?
      requires speaker == Some(t)
      modifies this
      ensures speaker == Some(t) && SaidBy(t) == old(SaidBy(t))
      ensures var waited := Own(start, past, t) + [Ran(PhaseOf(woke, t), answer, old(tasks[t]).phase)];
        Own(start, run, t) == if cancelled then waited + [Cancelled] else waited
      ensures t < |tasks| && tasks[t].profile == old(tasks[t]).profile
      ensures cancelled ==> Ended(t, start, run)
      ensures !cancelled ==> Awake(t, start, run, Coordination()) && tasks[t].phase == old(tasks[t]).phase
    {
      hide Protocol.Possible, Protocol.After, Due, Own;
      NextStretch(t, start, past, woke, answer, Coordination());
      run := past + [Protocol.Runs(t, answer)];
      var others := Elsewhere(t);
      Protocol.AfterMore(start, run, others);
      OwnMore(start, run, others, t);
      run := run + others;
      cancelled := tasks[t].cancelled;
      if cancelled {
        OwnOneMore(start, run, Protocol.CancelLands(t), t);
        Happen(Protocol.CancelLands(t));
        run := run + [Protocol.CancelLands(t)];
      }
    }

    /** Whether the run `run` from `start` has led here, with task `t` over. */
    ghost predicate Ended(t: nat, start: Protocol.State, run: seq<Protocol.Event>)
      reads this
    {
      && Protocol.Possible(start, run) && Protocol.After(start, run) == Coordination()
      && t < |tasks| && tasks[t].phase.Over?
    }

    /** The task returns, which ends its last stretch. */
    method Return(
      t: nat, ghost start: Protocol.State, ghost past: seq<Protocol.Event>, ghost woke: Protocol.State,
      ghost answer: bool)
      returns (ghost run: seq<Protocol.Event>)
      requires t < |tasks|
      requires Due(t, start, past, woke, answer, Coordination().(ladder := Protocol.Finish(Ladder(), t)))
      modifies this`tasks, this`reconnecting
      ensures Own(start, run, t) == Own(start, past, t) + [Ran(PhaseOf(woke, t), answer, Protocol.Over)]
      ensures Ended(t, start, run) && !reconnecting
    {
      hide Protocol.Possible, Protocol.After, Due, Own;
      NextStretch(t, start, past, woke, answer, Coordination().(ladder := Protocol.Finish(Ladder(), t)));
      Finish(t);
      run := past + [Protocol.Runs(t, answer)];
    }

    /** The back-off itself: announced, and waited for. */
    method BackOff(
      t: nat, attempt: nat, ghost start: Protocol.State, ghost past: seq<Protocol.Event>,
      ghost woke: Protocol.State, ghost answer: bool)
      returns (cancelled: bool, ghost run: seq<Protocol.Event>)
      requires t < |tasks| && tasks[t].profile.Reconnect? && speaker == Some(t)
      requires Due(t, start, past, woke, answer, Waits(Coordination(), t, attempt))
      modifies this
      ensures speaker == Some(t) && SaidBy(t) == old(SaidBy(t)) + [Reconnecting(attempt)]
      ensures var waited := Own(start, past, t) + [Ran(PhaseOf(woke, t), answer, Protocol.Waiting(attempt))];
        Own(start, run, t) == if cancelled then waited + [Cancelled] else waited
      ensures t < |tasks| && tasks[t].profile.Reconnect?
      ensures cancelled ==> Ended(t, start, run)
      ensures !cancelled ==> Awake(t, start, run, Coordination()) && tasks[t].phase == Protocol.Waiting(attempt)
    {
      hide Step, Due, Awake, Own, IsQueued, HavingSaid, Ended;
      Enter(t, Protocol.Waiting(attempt));
      PushStatusEvent("reconnecting", Some(attempt));
      cancelled, run := Await(t, start, past, woke, answer);
    }

    /** Backing off before an attempt, as a reconnect does; the user or another connect may end the ladder. */
    method SleepBefore(
      t: nat, attempt: nat, ghost start: Protocol.State, ghost past: seq<Protocol.Event>,
      ghost woke: Protocol.State, ghost answer: bool)
      returns (stopped: bool, cancelled: bool, ghost run: seq<Protocol.Event>, ghost woken: Protocol.State)
      requires t < |tasks| && tasks[t].profile.Reconnect? && speaker == Some(t)
      requires Due(t, start, past, woke, answer, Waits(Coordination(), t, attempt))
      modifies this
      ensures speaker == Some(t) && SaidBy(t) == old(SaidBy(t)) + [Reconnecting(attempt)]
      ensures var waited := Own(start, past, t) + [Ran(PhaseOf(woke, t), answer, Protocol.Waiting(attempt))];
        Own(start, run, t) ==
          if cancelled then waited + [Cancelled]
          else if stopped then waited + [Ran(Protocol.Waiting(attempt), answer, Protocol.Over)]
          else waited
      ensures stopped || cancelled ==> Ended(t, start, run)
      ensures stopped ==> !cancelled && !reconnecting && (userDisconnected || link.up)
      ensures !stopped && !cancelled ==>
        t < |tasks| && tasks[t].profile.Reconnect? && PhaseOf(woken, t) == Protocol.Waiting(attempt) &&
        Due(t, start, run, woken, answer, Protocol.Try(Coordination(), t, attempt))
    {
      hide Protocol.Possible, Protocol.After, Protocol.TaskRuns, Protocol.Try, Step, Due, Awake, Own;
      stopped := false;
      cancelled, run := BackOff(t, attempt, start, past, woke, answer);
      woken := Coordination();
      if cancelled {
        return;
      }
      Protocol.WaitingRuns(woken, t, answer);
      AwakeIsDue(t, start, run, woken, answer);
      if userDisconnected || link.up {
        run := Return(t, start, run, woken, answer);
        stopped := true;
      }
    }

    /** The attempt itself: begun, and waited for. */
    method AttemptToConnect(
      t: nat, attempt: nat, mac: string, ghost start: Protocol.State, ghost past: seq<Protocol.Event>,
      ghost woke: Protocol.State, ghost answer: bool)
      returns (cancelled: bool, ghost run: seq<Protocol.Event>)
      requires t < |tasks| && Due(t, start, past, woke, answer, Protocol.Try(Coordination(), t, attempt))
      requires speaker == Some(t)
      modifies this
      ensures speaker == Some(t) && SaidBy(t) == old(SaidBy(t))
      ensures var tried := Own(start, past, t) + [Ran(PhaseOf(woke, t), answer, Protocol.Trying(attempt))];
        Own(start, run, t) == if cancelled then tried + [Cancelled] else tried
      ensures t < |tasks| && tasks[t].profile == old(tasks[t]).profile
      ensures cancelled ==> Ended(t, start, run)
      ensures !cancelled ==> Awake(t, start, run, Coordination()) && tasks[t].phase == Protocol.Trying(attempt)
    {
      hide Protocol.Try, Cache.Apply, Due, Awake, Own, Ended;
      BeginAttempt(t, attempt, mac);
      cancelled, run := Await(t, start, past, woke, answer);
    }

    /** One attempt: it succeeds and the task is over, or what follows a failure is due. */
    method OneAttempt(
      t: nat, attempt: nat, mac: string, ghost start: Protocol.State, ghost past: seq<Protocol.Event>,
      ghost woke: Protocol.State, ghost answer: bool)
      returns (ok: bool, cancelled: bool, ghost run: seq<Protocol.Event>, ghost woken: Protocol.State)
      requires t < |tasks| && Due(t, start, past, woke, answer, Protocol.Try(Coordination(), t, attempt))
      requires speaker == Some(t)
      modifies this
      ensures speaker == Some(t) && SaidBy(t) == if ok then old(SaidBy(t)) + [CONNECTED] else old(SaidBy(t))
      ensures var tried := Own(start, past, t) + [Ran(PhaseOf(woke, t), answer, Protocol.Trying(attempt))];
        Own(start, run, t) ==
          if cancelled then tried + [Cancelled]
          else if ok then tried + [Ran(Protocol.Trying(attempt), true, Protocol.Over)]
          else tried
      ensures ok || cancelled ==> Ended(t, start, run)
      ensures ok ==> !reconnecting && !cancelled
      ensures !ok && !cancelled ==>
        t < |tasks| && tasks[t].profile == old(tasks[t]).profile && PhaseOf(woken, t) == Protocol.Trying(attempt) &&
        Due(t, start, run, woken, false, Failed(Coordination(), t, attempt))
    {
      hide Protocol.Possible, Protocol.After, Protocol.TaskRuns, Protocol.Try, Protocol.LoopTop, Step;
      hide Due, Awake, Own, IsQueued, HavingSaid;
      ok := false;
      cancelled, run := AttemptToConnect(t, attempt, mac, start, past, woke, answer);
      woken := Coordination();
      if cancelled {
        return;
      }
      ok := *;
      Protocol.TryingRuns(woken, t, ok);
      AwakeIsDue(t, start, run, woken, ok);
      if ok {
        run := Succeed(t, start, run, woken);
      }
    }

    /** The attempt succeeded: the task announces the connection and returns. */
    method Succeed(t: nat, ghost start: Protocol.State, ghost past: seq<Protocol.Event>, ghost woke: Protocol.State)
      returns (ghost run: seq<Protocol.Event>)
      requires t < |tasks| && speaker == Some(t)
      requires Due(t, start, past, woke, true, Coordination().(ladder := Protocol.Finish(Ladder(), t)))
      modifies this`queue, this`event, this`pushed, this`removed, this`said, this`tasks, this`reconnecting
      ensures SaidBy(t) == old(SaidBy(t)) + [CONNECTED]
      ensures Own(start, run, t) == Own(start, past, t) + [Ran(PhaseOf(woke, t), true, Protocol.Over)]
      ensures Ended(t, start, run) && !reconnecting
    {
      hide Protocol.Possible, Protocol.After, Protocol.Finish, Step, Due, Own, IsQueued, HavingSaid;
      run := Return(t, start, past, woke, true);
      PushStatusEvent("connected", None);
    }

    /** Backing off after a failed attempt, as a startup connect does. */
    method SleepAfter(
      t: nat, attempt: nat, ghost start: Protocol.State, ghost past: seq<Protocol.Event>,
      ghost woke: Protocol.State)
      returns (cancelled: bool, ghost run: seq<Protocol.Event>, ghost woken: Protocol.State)
      requires t < |tasks| && Due(t, start, past, woke, false, Failed(Coordination(), t, attempt))
      requires speaker == Some(t) && PhaseOf(woke, t) == Protocol.Trying(attempt)
      modifies this
      ensures speaker == Some(t) && SaidBy(t) == old(SaidBy(t))
      ensures var waits := old(tasks[t]).profile.Startup? && attempt < 4;
        var waited := Own(start, past, t) + [Ran(Protocol.Trying(attempt), false, Protocol.Waiting(attempt))];
        && Own(start, run, t) ==
             (if cancelled then waited + [Cancelled] else if waits then waited else Own(start, past, t))
        && (cancelled ==> waits)
        && (!cancelled ==> PhaseOf(woken, t) == if waits then Protocol.Waiting(attempt) else Protocol.Trying(attempt))
      ensures cancelled ==> Ended(t, start, run)
      ensures !cancelled ==>
        t < |tasks| && tasks[t].profile == old(tasks[t]).profile &&
        Due(t, start, run, woken, false, Protocol.LoopTop(Coordination(), t, attempt + 1))
    {
      hide Protocol.Possible, Protocol.After, Protocol.TaskRuns, Protocol.Try, Protocol.LoopTop, Step, Due, Awake, Own;
      cancelled, run, woken := false, past, woke;
      if tasks[t].profile.Startup? && attempt < Protocol.ATTEMPTS {
        Enter(t, Protocol.Waiting(attempt));
        cancelled, run := Await(t, start, past, woke, false);
        woken := Coordination();
        if !cancelled {
          Protocol.WaitingRuns(woken, t, false);
          AwakeIsDue(t, start, run, woken, false);
        }
      }
    }

    /** From the attempt on: the task ends in what follows, or the next turn is due. */
    method AttemptAndRest(
      t: nat, attempt: nat, mac: string, ghost start: Protocol.State, ghost past: seq<Protocol.Event>,
      ghost woke: Protocol.State, ghost answer: bool)
      returns (over: bool, ok: bool, cancelled: bool, ghost run: seq<Protocol.Event>, ghost woken: Protocol.State)
      requires t < |tasks| && 1 <= attempt <= 4 && speaker == Some(t)
      requires Due(t, start, past, woke, answer, Protocol.Try(Coordination(), t, attempt))
      requires TriesNow(
        Own(start, past, t) + [Ran(PhaseOf(woke, t), answer, Protocol.Trying(attempt))], tasks[t].profile, attempt)
      modifies this
      ensures speaker == Some(t)
      ensures SaidBy(t) == if over && ok then old(SaidBy(t)) + [CONNECTED] else old(SaidBy(t))
      ensures over ==> Ended(t, start, run) && (!cancelled ==> !reconnecting)
      ensures over ==> EndsAfter(Own(start, run, t), old(tasks[t]).profile, attempt, ok, cancelled)
      ensures !over ==>
        && t < |tasks| && tasks[t].profile == old(tasks[t]).profile
        && Due(t, start, run, woken, false, Protocol.LoopTop(Coordination(), t, attempt + 1))
        && AllFailed(Own(start, run, t), PhaseOf(woken, t), false, tasks[t].profile, attempt)
    {
      hide Protocol.Possible, Protocol.After, Protocol.TaskRuns, Protocol.Try, Protocol.LoopTop, Protocol.Finish;
      hide Step, Due, Own, Begun, Failures;
      ghost var p := tasks[t].profile;
      ghost var tried := Own(start, past, t) + [Ran(PhaseOf(woke, t), answer, Protocol.Trying(attempt))];
      over := true;
      ok, cancelled, run, woken := OneAttempt(t, attempt, mac, start, past, woke, answer);
      if ok || cancelled {
        OneMore(tried, if ok then Ran(Protocol.Trying(attempt), true, Protocol.Over) else Cancelled, p);
        return;
      }
      cancelled, run, woken := SleepAfter(t, attempt, start, run, woken);
      over := cancelled;
      ghost var failed := Ran(Protocol.Trying(attempt), false, Protocol.Waiting(attempt));
      OneMore(tried, failed, p);
      OneMore(tried + [failed], Cancelled, p);
    }

    /** One turn of the loop: the task ends in it, or the next turn is due. */
    method Turn(
      t: nat, attempt: nat, mac: string, ghost start: Protocol.State, ghost past: seq<Protocol.Event>,
      ghost woke: Protocol.State, ghost answer: bool)
      returns (over: bool, ok: bool, cancelled: bool, ghost run: seq<Protocol.Event>, ghost woken: Protocol.State)
      requires t < |tasks| && 1 <= attempt <= 4 && speaker == Some(t)
      requires Due(t, start, past, woke, answer, Protocol.LoopTop(Coordination(), t, attempt))
      requires AllFailed(Own(start, past, t), PhaseOf(woke, t), answer, tasks[t].profile, attempt - 1)
      modifies this
      ensures speaker == Some(t)
      ensures over ==> Ended(t, start, run) && (!cancelled ==> !reconnecting)
      ensures over ==>
        TurnEnds(Own(start, run, t), old(tasks[t]).profile, attempt, ok, cancelled, old(SaidBy(t)), SaidBy(t))
      ensures !over ==>
        && t < |tasks| && tasks[t].profile == old(tasks[t]).profile
        && Due(t, start, run, woken, false, Protocol.LoopTop(Coordination(), t, attempt + 1))
        && AllFailed(Own(start, run, t), PhaseOf(woken, t), false, tasks[t].profile, attempt)
        && SaidBy(t) == old(SaidBy(t)) + [Reconnecting(attempt)]
    {
      hide Protocol.Possible, Protocol.After, Protocol.TaskRuns, Protocol.Try, Protocol.LoopTop, Protocol.Finish;
      hide Step, Due, Own, Begun, Failures, IsQueued, HavingSaid, AllFailed, TurnEnds, EndsAfter, TriesNow, Ended;
      over, ok, cancelled, run, woken := true, false, false, past, woke;
      ghost var p, at, own, told := tasks[t].profile, PhaseOf(woke, t), Own(start, past, t), SaidBy(t);
      Protocol.LoopTopMeans(Coordination(), t, attempt);
      if userDisconnected || (tasks[t].profile.Startup? && link.up) {
        run := Return(t, start, run, woke, answer);
        StopsAtTop(own, at, answer, p, attempt, told);
        return;
      }
      if tasks[t].profile.Reconnect? {
        BacksOff(own, at, answer, attempt, told);
        var stopped;
        stopped, cancelled, run, woken := SleepBefore(t, attempt, start, run, woke, answer);
        if stopped || cancelled {
          return;
        }
      } else {
        StartsAtOnce(own, at, answer, attempt);
        PushStatusEvent("reconnecting", Some(attempt));
      }
      over, ok, cancelled, run, woken := AttemptAndRest(t, attempt, mac, start, run, woken, answer);
      if over {
        EndsWithAttempt(Own(start, run, t), p, attempt, ok, cancelled, told, SaidBy(t));
      }
    }

    /**
     `_retry_connect`, entered by a task that knows its device. With anything happening at its
     awaits, what the loop does is a run of the protocol, and the task is over at its end. It
     succeeds exactly if its last stretch is an attempt that did. It announces each back-off or
     attempt it begins, by number, then the connection exactly if it has it, or exhaustion exactly
     if four attempts failed, and nothing else.
     */
    method RetryConnect(t: nat, mac: string) returns (ok: bool, cancelled: bool, ghost run: seq<Protocol.Event>)
      requires Valid() && t < |tasks| && tasks[t].Running() && Lock.ByTask(t) !in link.lock.inside
      requires if tasks[t].profile.Startup? then tasks[t].phase.Settling? else tasks[t].phase.Fresh?
      requires speaker == Some(t)
      modifies this
      ensures Ended(t, old(Coordination()), run) && Valid()
      ensures Answers(Own(old(Coordination()), run, t), ok, cancelled)
      ensures Reports(Own(old(Coordination()), run, t), old(tasks[t]).profile, ok, old(SaidBy(t)), SaidBy(t))
      ensures !cancelled ==> !reconnecting
    {
      hide Protocol.Possible, Protocol.After, Protocol.TaskRuns, Protocol.LoopTop, Protocol.Inv, Step, Due, Ended;
      hide Own, Begun, Failures, AllFailed, TurnEnds, EndsAfter, Reports, Answers, Announced;
      ghost var start, p := Coordination(), tasks[t].profile;
      ghost var woke, answer := start, true;
      run := [];
      BeginRetry(t);
      NothingYet(start, t, p);
      ghost var told := SaidBy(t);
      assert told + Announced(0) == told;
      var attempt := 1;
      while attempt <= Protocol.ATTEMPTS
        invariant 1 <= attempt <= 5 && t < |tasks| && tasks[t].profile == p && speaker == Some(t)
        invariant Due(t, start, run, woke, answer, Protocol.LoopTop(Coordination(), t, attempt))
        invariant AllFailed(Own(start, run, t), PhaseOf(woke, t), answer, p, attempt - 1)
        invariant SaidBy(t) == told + Announced(attempt - 1)
        invariant attempt > 1 ==> !answer
      {
        var over;
        AnnouncedMore(told, attempt - 1);
        ghost var before := SaidBy(t);
        over, ok, cancelled, run, woke := Turn(t, attempt, mac, start, run, woke, answer);
        answer := false;
        if over {
          TurnReports(Own(start, run, t), p, attempt, ok, cancelled, told, before, SaidBy(t));
          EndedIsValid(t, start, run);
          return;
        }
        attempt := attempt + 1;
      }
      GivingUpReports(Own(start, run, t), PhaseOf(woke, t), answer, p, told, SaidBy(t) + [EXHAUSTED]);
      run := GiveUp(t, attempt, start, run, woke, answer);
      EndedIsValid(t, start, run);
      return false, false, run;
    }

    /** All attempts failed. */
    method GiveUp(
      t: nat, attempt: nat, ghost start: Protocol.State, ghost past: seq<Protocol.Event>,
      ghost woke: Protocol.State, ghost answer: bool)
      returns (ghost run: seq<Protocol.Event>)
      requires t < |tasks| && attempt > Protocol.ATTEMPTS && speaker == Some(t)
      requires Due(t, start, past, woke, answer, Protocol.LoopTop(Coordination(), t, attempt))
      modifies this`queue, this`event, this`pushed, this`removed, this`said, this`tasks, this`reconnecting
      ensures SaidBy(t) == old(SaidBy(t)) + [EXHAUSTED]
      ensures Own(start, run, t) == Own(start, past, t) + [Ran(PhaseOf(woke, t), answer, Protocol.Over)]
      ensures Ended(t, start, run) && !reconnecting
    {
      hide Protocol.Possible, Protocol.After, Protocol.TaskRuns, Protocol.LoopTop, Protocol.Finish, Step, Due, Own;
      hide IsQueued, HavingSaid;
      Protocol.LoopTopMeans(Coordination(), t, attempt);
      run := Return(t, start, past, woke, answer);
      PushStatusEvent("reconnect_exhausted", Some(4));
    }

    lemma EndedIsValid(t: nat, start: Protocol.State, run: seq<Protocol.Event>)
      requires Protocol.Inv(start) && Ended(t, start, run)
      ensures Valid()
    {
      hide Protocol.Inv, Protocol.Possible, Protocol.After;
      Protocol.InvAfter(start, run);
    }

    /** The start of the retrying: the first turn is due. */
    method BeginRetry(t: nat)
      requires t < |tasks| && tasks[t].Running() && Lock.ByTask(t) !in link.lock.inside
      requires if tasks[t].profile.Startup? then tasks[t].phase.Settling? else tasks[t].phase.Fresh?
      modifies this`reconnecting
      ensures Due(t, old(Coordination()), [], old(Coordination()), true, Protocol.LoopTop(Coordination(), t, 1))
    {
      hide Protocol.Possible, Protocol.After, Protocol.TaskRuns, Protocol.LoopTop, Due;
      Protocol.NothingHappens(Coordination());
      AwakeIsDue(t, Coordination(), [], Coordination(), true);
      Protocol.EnteringRuns(Coordination(), t);
      reconnecting := true;
    }
  }
}
