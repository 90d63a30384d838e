/**
 The adapter's operation lock and its D-Bus bus, told by what each caller's own code can do
 next (ble_service/src/ble_adapter.py:603-690, ble_service/src/ble_adapter.py:703-750,
 ble_service/src/ble_adapter.py:1163-1190). `asyncio.Lock` is one boolean: it knows no owner,
 releasing it asks nobody, and only acquiring it looks at it. No step that writes the bus looks
 at the lock; that the writers exclude each other has to be proved.
 */
module OperationLock {
  import opened Options

  /** Who runs an adapter operation. */
  datatype Actor = ByRoute(route: nat) | ByTask(task: nat) | Other(id: nat)

  /** Where an actor stands inside `async with self._operation_lock`. */
  datatype Place = Holding | Opening | Registering(on: nat)

  datatype Lock = Lock(locked: bool, inside: map<Actor, Place>, bus: Option<nat>)

  const UNLOCKED := Lock(false, map[], None)

  /** A step of an actor's own code; `_reset_state` drops the bus, `_ensure_bus` opens one. */
  datatype Move =
    | Acquire
    | StartOpening
    | Open(newBus: nat)
    | FailOpening
    | StartRegistering
    | EndRegistering
    | DropBus
    | Release

  predicate Stands(l: Lock, a: Actor, p: Place) {
    a in l.inside && l.inside[a] == p
  }

  /** The actor's code is at a point where this is its next step. */
  predicate May(l: Lock, a: Actor, m: Move) {
    match m
    case Acquire => !l.locked && a !in l.inside
    case StartOpening => Stands(l, a, Holding) && l.bus.None?
    case Open(_) => Stands(l, a, Opening)
    case FailOpening => Stands(l, a, Opening)
    case StartRegistering => Stands(l, a, Holding) && l.bus.Some?
    case EndRegistering => a in l.inside && l.inside[a].Registering?
    case DropBus => Stands(l, a, Holding)
    case Release => Stands(l, a, Holding)
  }

  function Do(l: Lock, a: Actor, m: Move): Lock
    requires May(l, a, m)
  {
    match m
    case Acquire => l.(locked := true, inside := l.inside[a := Holding])
    case StartOpening => l.(inside := l.inside[a := Opening])
    case Open(b) => l.(inside := l.inside[a := Holding], bus := Some(b))
    case FailOpening => l.(inside := l.inside[a := Holding])
    case StartRegistering => l.(inside := l.inside[a := Registering(l.bus.value)])
    case EndRegistering => l.(inside := l.inside[a := Holding])
    case DropBus => l.(bus := None)
    case Release => l.(locked := false, inside := l.inside - {a})
  }

  /** `reset_bus` behind its caller's look at `is_busy`: it takes no lock. */
  function ResetIfFree(l: Lock): Lock {
    if l.locked then l else l.(bus := None)
  }

  /**
   At most one actor is inside, and the flag says whether; while it awaits a new bus there is none, and
   while it registers the agent the bus is the one it registers on.
   */
  predicate Exclusive(l: Lock) {
    && (l.locked <==> l.inside != map[])
    && (forall a, b :: a in l.inside && b in l.inside ==> a == b)
    && (forall a :: a in l.inside && l.inside[a].Opening? ==> l.bus.None?)
    && (forall a :: a in l.inside && l.inside[a].Registering? ==> l.bus == Some(l.inside[a].on))
  }

  lemma MoveKeepsExclusive(l: Lock, a: Actor, m: Move)
    requires Exclusive(l) && May(l, a, m)
    ensures Exclusive(Do(l, a, m))
  {
    assert a in Do(l, a, m).inside || m.Release?;
    if m.Release? {
      assert Do(l, a, m).inside == map[];
    }
  }

  lemma FreeLockIsEmpty(l: Lock)
    requires Exclusive(l) && !l.locked
    ensures l.inside == map[]
  {
  }

  /** While somebody is inside, nobody else has a next step on the lock or the bus. */
  lemma OthersAreShutOut(l: Lock, a: Actor, b: Actor, m: Move)
    requires Exclusive(l) && a in l.inside && a != b
    ensures !May(l, b, m) && ResetIfFree(l) == l
  {
  }

  // ---------- Whole runs ----------

  datatype LockEvent = Acts(actor: Actor, move: Move) | Resets

  predicate LockMay(l: Lock, e: LockEvent) {
    e.Acts? ==> May(l, e.actor, e.move)
  }

  function LockStep(l: Lock, e: LockEvent): Lock
    requires LockMay(l, e)
  {
    match e
    case Acts(a, m) => Do(l, a, m)
    case Resets => ResetIfFree(l)
  }

  predicate LockRun(l: Lock, run: seq<LockEvent>)
    decreases |run|
  {
    run == [] || (LockMay(l, run[0]) && LockRun(LockStep(l, run[0]), run[1..]))
  }

  function LockAfter(l: Lock, run: seq<LockEvent>): Lock
    requires LockRun(l, run)
    decreases |run|
  {
    if run == [] then l else LockAfter(LockStep(l, run[0]), run[1..])
  }

  /** Over every run of any number of actors, at most one is inside at a time. */
  lemma {:induction false} ExclusiveAfter(l: Lock, run: seq<LockEvent>)
    requires Exclusive(l) && LockRun(l, run)
    ensures Exclusive(LockAfter(l, run))
    decreases |run|
  {
    hide Exclusive, May, Do;
    if run == [] {
    } else {
      StepKeepsExclusive(l, run[0]);
      ExclusiveAfter(LockStep(l, run[0]), run[1..]);
    }
  }

  lemma StepKeepsExclusive(l: Lock, e: LockEvent)
    requires Exclusive(l) && LockMay(l, e)
    ensures Exclusive(LockStep(l, e))
  {
    hide May, Do;
    if e.Acts? {
      MoveKeepsExclusive(l, e.actor, e.move);
    }
  }

  /** From an actor's entry to its exit, no run of the others and no reset changes the bus or its place. */
  lemma {:induction false} BusIsKept(l: Lock, run: seq<LockEvent>, a: Actor)
    requires Exclusive(l) && LockRun(l, run) && a in l.inside
    requires forall i :: 0 <= i < |run| && run[i].Acts? ==> run[i].actor != a
    ensures LockAfter(l, run) == l
    decreases |run|
  {
    hide Exclusive, May, Do;
    if run == [] {
    } else {
      if run[0].Acts? {
        OthersAreShutOut(l, a, run[0].actor, run[0].move);
      } else {
        OthersAreShutOut(l, a, if a == Other(0) then Other(1) else Other(0), Acquire);
      }
      BusIsKept(LockStep(l, run[0]), run[1..], a);
    }
  }
}
