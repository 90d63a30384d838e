/**
 The notification queue shared by every SSE client (ble_service/src/main.py:985-995,
 ble_service/src/main.py:2118-2135): a bounded deque, one event flag, and consumers that
 wait for the flag, clear it and drain the queue, suspending at every item.
 */
module SseQueue {
  import opened Options

  /** An item that left the queue: handed to a consumer, or evicted by a push into the full queue. */
  datatype Removal<T> = Delivered(item: T, to: nat) | Evicted(item: T)

  datatype Sse<T> = Sse(
    queue: seq<T>, event: bool, draining: set<nat>, pushed: seq<T>, removed: seq<Removal<T>>)

  datatype Action<T> =
    | Push(item: T)
    | Wake(consumer: nat)
    | Pop(consumer: nat)
    | Drained(consumer: nat)
    | Abort(consumer: nat)

  function Empty<T>(): Sse<T> {
    Sse([], false, {}, [], [])
  }

  /** A consumer may wake at any time; it pops only while draining, and stops draining only once the queue is empty. */
  predicate Enabled<T>(q: Sse<T>, a: Action<T>) {
    match a
    case Push(_) => true
    case Wake(c) => c !in q.draining
    case Pop(c) => c in q.draining && q.queue != []
    case Drained(c) => c in q.draining && q.queue == []
    case Abort(c) => c in q.draining
  }

  function Step<T>(q: Sse<T>, a: Action<T>, capacity: nat): Sse<T>
    requires Enabled(q, a) && capacity > 0
  {
    match a
    case Push(x) =>
      if |q.queue| < capacity || q.queue == [] then q.(queue := q.queue + [x], event := true, pushed := q.pushed + [x])
      else q.(queue := q.queue[1..] + [x], event := true, pushed := q.pushed + [x],
              removed := q.removed + [Evicted(q.queue[0])])
    case Wake(c) => q.(event := false, draining := q.draining + {c})
    case Pop(c) => q.(queue := q.queue[1..], removed := q.removed + [Delivered(q.queue[0], c)])
    case Drained(c) => q.(draining := q.draining - {c})
    case Abort(c) => q.(draining := q.draining - {c})
  }

  /** The queue after a run of actions; `None` when some action was not enabled. */
  function Run<T>(actions: seq<Action<T>>, capacity: nat): Option<Sse<T>>
    requires capacity > 0
  {
    if actions == [] then Some(Empty())
    else
      var before := Run(actions[..|actions| - 1], capacity);
      var a := actions[|actions| - 1];
      if before.None? || !Enabled(before.value, a) then None else Some(Step(before.value, a, capacity))
  }

  function Items<T>(removed: seq<Removal<T>>): (items: seq<T>)
    ensures |items| == |removed|
  {
    seq(|removed|, i requires 0 <= i < |removed| => removed[i].item)
  }

  lemma ItemsAppend<T>(removed: seq<Removal<T>>, r: Removal<T>)
    ensures Items(removed + [r]) == Items(removed) + [r.item]
  {
  }

  /** Items leave in push order, each once, and one is evicted only after as many newer ones came as the queue holds. */
  ghost predicate Conserved<T>(q: Sse<T>, capacity: nat) {
    && Items(q.removed) + q.queue == q.pushed
    && |q.queue| <= capacity
    && forall k :: 0 <= k < |q.removed| && q.removed[k].Evicted? ==> k + capacity < |q.pushed|
  }

  predicate NoLostWakeup<T>(q: Sse<T>) {
    q.queue != [] ==> q.event || q.draining != {}
  }

  lemma StepConserves<T>(q: Sse<T>, a: Action<T>, capacity: nat)
    requires capacity > 0 && Enabled(q, a) && Conserved(q, capacity)
    ensures Conserved(Step(q, a, capacity), capacity)
  {
    var r := Step(q, a, capacity);
    assert |q.removed| + |q.queue| == |Items(q.removed) + q.queue| == |q.pushed|;
    if r.removed != q.removed {
      ItemsAppend(q.removed, r.removed[|q.removed|]);
      assert Items(q.removed) + [q.queue[0]] + q.queue[1..] == Items(q.removed) + q.queue;
    }
  }

  /**
   Over every run, with any number of consumers: what left the queue, in the order it left,
   followed by what is still queued, is exactly what was pushed. So no item is delivered
   twice, and none disappears except by eviction, oldest first, when a full queue of newer ones follows it.
   */
  lemma {:induction false} EveryRunConserves<T>(actions: seq<Action<T>>, capacity: nat)
    requires capacity > 0 && Run(actions, capacity).Some?
    ensures Conserved(Run(actions, capacity).value, capacity)
  {
    if actions == [] {
    } else {
      var n := |actions| - 1;
      EveryRunConserves(actions[..n], capacity);
      StepConserves(Run(actions[..n], capacity).value, actions[n], capacity);
    }
  }

  /** As long as no consumer aborts while draining, a non-empty queue has its event set or a consumer at work on it. */
  lemma {:induction false} EveryRunWakes<T>(actions: seq<Action<T>>, capacity: nat)
    requires capacity > 0 && Run(actions, capacity).Some?
    requires forall i :: 0 <= i < |actions| ==> !actions[i].Abort?
    ensures NoLostWakeup(Run(actions, capacity).value)
  {
    if actions == [] {
    } else {
      var n := |actions| - 1;
      EveryRunWakes(actions[..n], capacity);
      if actions[n].Wake? {
        assert actions[n].consumer in Run(actions, capacity).value.draining;
      }
    }
  }

  /** An abort loses the wakeup exactly when items are left, the flag is down and nobody else drains. */
  lemma AbortVerdict<T>(q: Sse<T>, c: nat, capacity: nat)
    requires capacity > 0 && c in q.draining
    ensures NoLostWakeup(Step(q, Abort(c), capacity)) <==> q.queue == [] || q.event || q.draining != {c}
  {
    assert q.draining - {c} == {} <==> q.draining == {c};
  }

  lemma RunAppend<T>(actions: seq<Action<T>>, a: Action<T>, capacity: nat)
    requires capacity > 0 && Run(actions, capacity).Some? && Enabled(Run(actions, capacity).value, a)
    ensures Run(actions + [a], capacity) == Some(Step(Run(actions, capacity).value, a, capacity))
  {
    assert (actions + [a])[..|actions|] == actions;
  }

  /** A client that leaves in the middle of a drain strands the rest of the queue. */
  lemma AbortStrandsItems()
    ensures var run := [Push(1), Push(2), Wake(0), Pop(0), Abort(0)];
      Run(run, 1000).Some? && !NoLostWakeup(Run(run, 1000).value)
  {
    RunAppend([], Push(1), 1000);
    RunAppend([] + [Push(1)], Push(2), 1000);
    RunAppend([] + [Push(1)] + [Push(2)], Wake(0), 1000);
    RunAppend([] + [Push(1)] + [Push(2)] + [Wake(0)], Pop(0), 1000);
    RunAppend([] + [Push(1)] + [Push(2)] + [Wake(0)] + [Pop(0)], Abort(0), 1000);
    assert [] + [Push(1)] + [Push(2)] + [Wake(0)] + [Pop(0)] + [Abort(0)] ==
      [Push(1), Push(2), Wake(0), Pop(0), Abort(0)];
  }
}
