/**
 What single steps of the service do, told by the fields they find (ble_service/src/main.py:999-1024,
 ble_service/src/main.py:1107-1231), and what follows for whole runs.
 */
module Promises {
  import opened Options
  import opened OperationLock
  import opened Protocol

  // ---------- Lost links ----------

  /** The user wants the link, no probe's window is open, and no reconnect task is under way. */
  predicate CallsForReconnect(s: State) {
    && !s.userDisconnected
    && (s.probe.deadline.None? || s.probe.deadline.value < s.now)
    && !UnderWay(s.ladder, s.ladder.reconnect)
  }

  /** A lost link adds a task, and refers to it, exactly if it calls for one; else tasks and reference stay. */
  lemma LinkLostVerdict(s: State)
    ensures var n := LinkLost(s);
      && (CallsForReconnect(s) ==>
            n.ladder.tasks == s.ladder.tasks + [Background(Reconnect, Fresh, false, 0)] &&
            n.ladder.reconnect == Some(|s.ladder.tasks|))
      && (!CallsForReconnect(s) ==> n.ladder == s.ladder)
      && n.ladder.auto == s.ladder.auto && n.ladder.reconnecting == s.ladder.reconnecting
      && n.probe.deadline == (if s.userDisconnected then s.probe.deadline else None)
      && n.now == s.now && n.userDisconnected == s.userDisconnected && n.routes == s.routes
      && n.link == Link(s.link.lock, false)
  {
  }

  function CallsDuring(s: State, run: seq<Event>): nat
    requires Possible(s, run)
    decreases |run|
  {
    if run == [] then 0
    else (if run[0].LinkLoses? && CallsForReconnect(s) then 1 else 0) + CallsDuring(Apply(s, run[0]), run[1..])
  }

  lemma TasksOfStep(s: State, e: Event)
    requires Enabled(s, e)
    ensures |Apply(s, e).ladder.tasks| ==
      |s.ladder.tasks| + if e.LinkLoses? && CallsForReconnect(s) then 1 else 0
    ensures forall t :: |s.ladder.tasks| <= t < |Apply(s, e).ladder.tasks| ==>
      Apply(s, e).ladder.tasks[t].profile.Reconnect?
    ensures forall t :: 0 <= t < |s.ladder.tasks| ==>
      Apply(s, e).ladder.tasks[t].profile == s.ladder.tasks[t].profile
  {
    hide TaskRuns;
    if e.Runs? {
      TaskRunsFrame(s, e.t, e.answer);
    }
  }

  /** Over any run, the tasks created are as many as the lost links that called for one, each a reconnect. */
  lemma {:induction false} TasksAreCreatedByCalls(s: State, run: seq<Event>)
    requires Possible(s, run)
    ensures |After(s, run).ladder.tasks| == |s.ladder.tasks| + CallsDuring(s, run)
    ensures forall t :: 0 <= t < |s.ladder.tasks| ==>
      After(s, run).ladder.tasks[t].profile == s.ladder.tasks[t].profile
    ensures forall t :: |s.ladder.tasks| <= t < |After(s, run).ladder.tasks| ==>
      After(s, run).ladder.tasks[t].profile.Reconnect?
    decreases |run|
  {
    hide Apply, Enabled, CallsForReconnect;
    if run == [] {
    } else {
      TasksOfStep(s, run[0]);
      TasksAreCreatedByCalls(Apply(s, run[0]), run[1..]);
    }
  }

  // ---------- Asking and stopping ----------

  /** The user's wish is withdrawn only by stopping. */
  lemma {:induction false} WishStays(s: State, run: seq<Event>)
    requires Possible(s, run) && !s.userDisconnected && forall i :: 0 <= i < |run| ==> !run[i].Stops?
    ensures !After(s, run).userDisconnected
    decreases |run|
  {
    hide Apply, Enabled;
    if run == [] {
    } else {
      assert !run[0].Stops?;
      WishStaysInStep(s, run[0]);
      WishStays(Apply(s, run[0]), run[1..]);
    }
  }

  lemma WishStaysInStep(s: State, e: Event)
    requires Enabled(s, e) && !s.userDisconnected && !e.Stops?
    ensures !Apply(s, e).userDisconnected
  {
    hide May, Do;
  }

  /** The step lets a route in: it starts with nothing under way, or has seen the tasks it waited for end. */
  predicate LetsIn(s: State, e: Event, r: nat) {
    && Enabled(s, e) && s.link.lock.inside == map[]
    && (e == GatherEnds(r)
        || (e == RouteStarts(r) && !s.ladder.Pending(s.ladder.reconnect) && !s.ladder.Pending(s.ladder.auto)))
  }

  /**
   A route that is let in lifts an earlier disconnect by the user: until the next one, a link lost outside
   every window leaves a reconnect task under way.
   */
  lemma AdmissionLiftsTheStop(s: State, e: Event, r: nat, run: seq<Event>)
    requires Reachable(s) && LetsIn(s, e, r)
    requires Possible(Apply(s, e), run) && forall i :: 0 <= i < |run| ==> !run[i].Stops?
    ensures var n := After(Apply(s, e), run);
      && !n.userDisconnected
      && (Inside(n.routes) == {} ==>
            var l := LinkLost(n).ladder;
            && l.Pending(l.reconnect) && l.tasks[l.reconnect.value].profile.Reconnect?
            && (l.tasks[l.reconnect.value].Running() || exists q :: Awaits(n.routes, q, l.reconnect.value)))
  {
    hide LinkLost, Possible, After;
    LockExcludes(s);
    LetInVerdict(s, e, r);
    WishStays(Apply(s, e), run);
    StillReachable(s, e, run);
    var n := After(Apply(s, e), run);
    if Inside(n.routes) == {} {
      DisconnectSchedulesReconnect(n);
    }
  }

  lemma LetInVerdict(s: State, e: Event, r: nat)
    requires LetsIn(s, e, r) && !s.link.lock.locked
    ensures var n := Apply(s, e); !n.userDisconnected && r in n.routes && n.routes[r] == Admitted
  {
  }

  lemma StillReachable(s: State, e: Event, run: seq<Event>)
    requires Reachable(s) && Enabled(s, e) && Possible(Apply(s, e), run)
    ensures Reachable(After(Apply(s, e), run))
  {
    hide Apply, Enabled, Possible, After;
    var autoConnect: bool, past: seq<Event> :|
      Possible(Initially(autoConnect), past) && s == After(Initially(autoConnect), past);
    AfterOneMore(Initially(autoConnect), past, e);
    AfterMore(Initially(autoConnect), past + [e], run);
  }

  /** The reference names a task that is not over. */
  predicate UnderWay(l: Ladder, ref: Option<nat>) {
    ref.Some? && ref.value < |l.tasks| && l.tasks[ref.value].phase != Over
  }

  /** Stopping cancels exactly the referenced tasks that are under way, and forgets these; others stay referenced. */
  lemma StopVerdict(s: State)
    requires TasksSound(s.ladder)
    ensures var n := UserStops(s);
      && n.userDisconnected && !n.ladder.reconnecting && |n.ladder.tasks| == |s.ladder.tasks|
      && (forall t: nat :: t < |s.ladder.tasks| ==>
            n.ladder.tasks[t] ==
              if Some(t) in {s.ladder.reconnect, s.ladder.auto} && s.ladder.tasks[t].phase != Over
              then s.ladder.tasks[t].(cancelled := true) else s.ladder.tasks[t])
      && n.ladder.reconnect == (if UnderWay(s.ladder, s.ladder.reconnect) then None else s.ladder.reconnect)
      && n.ladder.auto == (if UnderWay(s.ladder, s.ladder.auto) then None else s.ladder.auto)
      && n.now == s.now && n.probe == s.probe && n.routes == s.routes && n.link == s.link
  {
    hide TaskSound;
  }

  // ---------- Probes and buses ----------

  /** Arming opens a window of five seconds. */
  lemma WindowVerdict(s: State, r: nat)
    ensures var n := Arm(s, r);
      && n.probe.deadline == Some(s.now + 5000) && n.probe.inits == s.probe.inits + 1
      && r in n.routes && n.routes[r] == Initialising(s.now + 5000)
      && n.ladder == s.ladder && n.link == s.link && n.userDisconnected == s.userDisconnected
  {
  }

  /** Connecting drops the bus exactly if nobody is inside the lock and no route in its window. */
  lemma ResetVerdict(s: State)
    requires Reachable(s)
    ensures s.link.lock.inside == map[] && Inside(s.routes) == {} ==>
      BeginConnect(s) == s.(link := s.link.(lock := s.link.lock.(bus := None)))
    ensures s.link.lock.inside != map[] || Inside(s.routes) != {} ==> BeginConnect(s) == s
  {
    LockExcludes(s);
    ProbeBelongsToARoute(s);
  }

  // ---------- Attempts ----------

  /** Task `t`, running on, begins an attempt. */
  predicate Begins(s: State, t: nat)
    requires t < |s.ladder.tasks|
  {
    var b := s.ladder.tasks[t];
    && !s.userDisconnected && !s.link.up
    && match b.profile
       case Reconnect => b.phase.Waiting?
       case Startup => b.phase.Settling? || (b.phase.Waiting? && b.phase.attempt < 4)
  }

  /** A background task counts an attempt exactly when it begins one, and nobody else's step does. */
  lemma AttemptVerdict(s: State, e: Event, t: nat)
    requires TasksSound(s.ladder) && Enabled(s, e) && t < |s.ladder.tasks|
    requires s.ladder.tasks[t].phase.Settling? ==> s.ladder.tasks[t].profile.Startup?
    ensures t < |Apply(s, e).ladder.tasks|
    ensures var b, c := s.ladder.tasks[t], Apply(s, e).ladder.tasks[t];
      if e.Runs? && e.t == t && Begins(s, t)
      then c.tried == b.tried + 1 && c.phase == Trying(b.tried + 1)
      else c.tried == b.tried && (c.phase.Trying? ==> b.phase == c.phase)
  {
    hide TaskRuns;
    assert TaskSound(s.ladder.tasks[t]);
    if e.Runs? && e.t == t {
      OwnAttempt(s, t, e.answer);
    } else if e.Runs? {
      TaskRunsFrame(s, e.t, e.answer);
    }
  }

  lemma OwnAttempt(s: State, t: nat, answer: bool)
    requires t < |s.ladder.tasks| && TaskSound(s.ladder.tasks[t]) && Enabled(s, Runs(t, answer))
    requires s.ladder.tasks[t].phase.Settling? ==> s.ladder.tasks[t].profile.Startup?
    ensures t < |TaskRuns(s, t, answer).ladder.tasks|
    ensures var b, c := s.ladder.tasks[t], TaskRuns(s, t, answer).ladder.tasks[t];
      if Begins(s, t) then c.tried == b.tried + 1 && c.phase == Trying(b.tried + 1)
      else c.tried == b.tried && !c.phase.Trying?
  {
  }

  /** From the back-off before attempt `k` on: each attempt is made, and fails. */
  function FailingFrom(t: nat, k: nat): seq<Event>
    decreases 5 - k
  {
    if k > 4 then [] else [Runs(t, false), Runs(t, false)] + FailingFrom(t, k + 1)
  }

  /** A reconnect that is left alone, and fails whenever it tries, makes four attempts and is over. */
  lemma {:induction false} FourAttempts(s: State, t: nat, k: nat)
    requires t < |s.ladder.tasks| && ByTask(t) !in s.link.lock.inside && !s.userDisconnected && !s.link.up
    requires 1 <= k <= 5 && s.ladder.tasks[t].profile.Reconnect? && !s.ladder.tasks[t].cancelled
    requires s.ladder.tasks[t].tried == k - 1
    requires s.ladder.tasks[t].phase == if k <= 4 then Waiting(k) else Over
    ensures Possible(s, FailingFrom(t, k))
    ensures var n := After(s, FailingFrom(t, k));
      t < |n.ladder.tasks| && n.ladder.tasks[t].phase == Over && n.ladder.tasks[t].tried == 4 &&
      (k <= 4 ==> !n.ladder.reconnecting)
    decreases 5 - k
  {
    if k > 4 {
    } else {
      var one := Apply(s, Runs(t, false));
      var two := Apply(one, Runs(t, false));
      var run := FailingFrom(t, k);
      assert run[0] == Runs(t, false) && run[1..][0] == Runs(t, false) && run[1..][1..] == FailingFrom(t, k + 1);
      AttemptFails(s, t, k);
      hide Apply, Enabled;
      FourAttempts(two, t, k + 1);
    }
  }

  lemma AttemptFails(s: State, t: nat, k: nat)
    requires t < |s.ladder.tasks| && ByTask(t) !in s.link.lock.inside && !s.userDisconnected && !s.link.up
    requires 1 <= k <= 4 && s.ladder.tasks[t].profile.Reconnect? && !s.ladder.tasks[t].cancelled
    requires s.ladder.tasks[t].tried == k - 1 && s.ladder.tasks[t].phase == Waiting(k)
    ensures Enabled(s, Runs(t, false)) && Enabled(Apply(s, Runs(t, false)), Runs(t, false))
    ensures var n := Apply(Apply(s, Runs(t, false)), Runs(t, false));
      && !n.userDisconnected && !n.link.up && n.link.lock.inside == s.link.lock.inside
      && t < |n.ladder.tasks| && n.ladder.tasks[t].profile.Reconnect? && !n.ladder.tasks[t].cancelled
      && n.ladder.tasks[t].tried == k
      && n.ladder.tasks[t].phase == (if k < 4 then Waiting(k + 1) else Over)
      && (k == 4 ==> !n.ladder.reconnecting)
  {
  }

  /** Running on, a background task is over exactly if it has nothing to do, has done it, or may no longer. */
  lemma EndVerdict(s: State, t: nat, answer: bool)
    requires t < |s.ladder.tasks| && s.ladder.tasks[t].phase != Over
    ensures var n, b := TaskRuns(s, t, answer), s.ladder.tasks[t];
      var startup := b.profile.Startup?;
      && t < |n.ladder.tasks|
      && (n.ladder.tasks[t].phase == Over <==>
            match b.phase
            case Fresh => !answer || (!startup && s.userDisconnected)
            case Settling => s.userDisconnected || (startup && s.link.up)
            case Waiting(k) => s.userDisconnected || s.link.up || (startup && k >= 4)
            case Trying(k) => answer || k >= 4 || (!startup && s.userDisconnected))
      && (n.ladder.tasks[t].phase == Over && !b.phase.Fresh? ==> !n.ladder.reconnecting)
  {
  }

  /** The user's disconnect holds from a stop until a route is let in, a connect asked for, or a startup task begun. */
  lemma WishVerdict(s: State, e: Event)
    requires Enabled(s, e) && (s.link.lock.locked <==> s.link.lock.inside != map[])
    ensures Apply(s, e).userDisconnected <==> e.Stops? || (s.userDisconnected && !LiftsTheStop(s, e))
  {
    hide May, Do;
  }

  predicate LiftsTheStop(s: State, e: Event)
    requires Enabled(s, e)
  {
    match e
    case LegacyConnects => true
    case RouteStarts(r) => LetsIn(s, e, r)
    case GatherEnds(r) => LetsIn(s, e, r)
    case Runs(t, answer) => s.ladder.tasks[t].profile.Startup? && s.ladder.tasks[t].phase.Fresh? && answer
    case _ => false
  }
}
