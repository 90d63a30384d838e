/**
 One client's view of the event log, by positions in it (scripts/update-runner.py:121-156):
 what it has taken, what waits in its queue, and what it missed.
 */
module Feed {

  const EVENT_HISTORY_SIZE: nat := 2000
  const CLIENT_QUEUE_SIZE: nat := 2000

  /**
   `upTo` is the length of the log when the client was last served; `full` tells whether its queue was
   ever found full.
   */
  datatype Feed = Feed(start: nat, joined: nat, upTo: nat, taken: seq<nat>, queued: seq<nat>, full: bool)
  {
    function Stream(): seq<nat> {
      taken + queued
    }
  }

  function Range(from: nat, to: nat): (r: seq<nat>)
    requires from <= to
    ensures |r| == to - from
    ensures forall i :: 0 <= i < |r| ==> r[i] == from + i
  {
    seq(to - from, i requires 0 <= i < to - from => from + i)
  }

  predicate Increasing(s: seq<nat>) {
    forall i, j :: 0 <= i < j < |s| ==> s[i] < s[j]
  }

  predicate Sound(f: Feed) {
    && f.start <= f.joined <= f.upTo && f.joined <= f.start + EVENT_HISTORY_SIZE
    && |f.queued| <= CLIENT_QUEUE_SIZE
    && Increasing(f.Stream())
    && (forall i :: 0 <= i < |f.Stream()| ==> f.start <= f.Stream()[i] < f.upTo)
    && (!f.full ==> f.Stream() == Range(f.start, f.upTo))
  }

  /** Subscribing replays the last `history` of `length` events. */
  function Joined(length: nat, history: nat): Feed
    requires history <= length
  {
    Feed(length - history, length, length, [], Range(length - history, length), false)
  }

  /** Event number `f.upTo` is published: queued, or dropped if the queue is full. */
  function Offered(f: Feed): Feed {
    if |f.queued| < CLIENT_QUEUE_SIZE then f.(upTo := f.upTo + 1, queued := f.queued + [f.upTo])
    else f.(upTo := f.upTo + 1, full := true)
  }

  function Taken(f: Feed): Feed
    requires f.queued != []
  {
    f.(taken := f.taken + [f.queued[0]], queued := f.queued[1..])
  }

  lemma JoinedIsSound(length: nat, history: nat)
    requires history <= length && history <= EVENT_HISTORY_SIZE
    ensures Sound(Joined(length, history))
  {
  }

  lemma OfferedIsSound(f: Feed)
    requires Sound(f)
    ensures Sound(Offered(f))
  {
    if |f.queued| < CLIENT_QUEUE_SIZE {
      assert Offered(f).Stream() == f.Stream() + [f.upTo];
    } else {
      assert Offered(f).Stream() == f.Stream();
    }
  }

  lemma TakenIsSound(f: Feed)
    requires Sound(f) && f.queued != []
    ensures Sound(Taken(f)) && Taken(f).Stream() == f.Stream()
  {
    assert Taken(f).Stream() == f.Stream();
  }

  // ---------- Whole runs ----------

  datatype Event = Publish | Take

  /** A `Take` on an empty queue waits, which changes nothing. */
  function Step(f: Feed, e: Event): Feed {
    match e
    case Publish => Offered(f)
    case Take => if f.queued == [] then f else Taken(f)
  }

  function Run(f: Feed, run: seq<Event>): Feed
    decreases |run|
  {
    if run == [] then f else Run(Step(f, run[0]), run[1..])
  }

  predicate Prefix(a: seq<nat>, b: seq<nat>) {
    |a| <= |b| && a == b[..|a|]
  }

  lemma {:induction false} RunIsSound(f: Feed, run: seq<Event>)
    requires Sound(f)
    ensures Sound(Run(f, run)) && Prefix(f.Stream(), Run(f, run).Stream())
    ensures Run(f, run).start == f.start && Run(f, run).joined == f.joined && (f.full ==> Run(f, run).full)
    decreases |run|
  {
    hide Sound;
    if run == [] {
    } else {
      var g := Step(f, run[0]);
      OfferedIsSound(f);
      if f.queued != [] {
        TakenIsSound(f);
      }
      assert Prefix(f.Stream(), g.Stream()) by {
        assert run[0].Publish? ==> g.Stream() == f.Stream() || g.Stream() == f.Stream() + [f.upTo];
      }
      RunIsSound(g, run[1..]);
    }
  }

  /**
   Whatever is published and taken after subscribing to a log of `length` events, the client's stream never repeats,
   never reorders and starts at most the history size back; it misses nothing if its queue was never found full.
   */
  lemma ClientSeesTheLog(length: nat, history: nat, run: seq<Event>)
    requires history <= length && history <= 2000
    ensures var f := Run(Joined(length, history), run);
      && Increasing(f.Stream())
      && (forall i :: 0 <= i < |f.Stream()| ==> length - history <= f.Stream()[i] < f.upTo)
      && length <= f.upTo
      && (!f.full ==> f.Stream() == Range(length - history, f.upTo))
  {
    JoinedIsSound(length, history);
    RunIsSound(Joined(length, history), run);
  }

  /** An event is dropped exactly if 2000 others wait already. */
  lemma DropVerdict(f: Feed)
    requires Sound(f)
    ensures Offered(f).Stream() == if |f.queued| == 2000 then f.Stream() else f.Stream() + [f.upTo]
    ensures Offered(f).full <==> f.full || |f.queued| == 2000
    ensures Offered(f).upTo == f.upTo + 1 && Offered(f).taken == f.taken
  {
    assert |f.queued| < 2000 ==> Offered(f).Stream() == f.Stream() + [f.upTo];
  }
}
