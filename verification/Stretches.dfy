/**
 The stretches of one background task within a run of the service, each between two of its
 `await`s (ble_service/src/main.py:1080-1231).
 */
module Stretches {
  import opened OperationLock
  import opened Protocol

  /** The task ran on, from one phase to another, or its cancellation landed. */
  datatype Stretch = Ran(from: Phase, answer: bool, to: Phase) | Cancelled

  function PhaseOf(s: State, t: nat): Phase {
    if t < |s.ladder.tasks| then s.ladder.tasks[t].phase else Over
  }

  function OwnOf(s: State, e: Event, t: nat): seq<Stretch>
    requires Enabled(s, e)
  {
    if e == CancelLands(t) then [Cancelled]
    else if e.Runs? && e.t == t then [Ran(PhaseOf(s, t), e.answer, PhaseOf(Apply(s, e), t))]
    else []
  }

  /** What task `t` did during the run. */
  function Own(s: State, run: seq<Event>, t: nat): seq<Stretch>
    decreases |run|
  {
    if run == [] || !Enabled(s, run[0]) then [] else OwnOf(s, run[0], t) + Own(Apply(s, run[0]), run[1..], t)
  }

  lemma {:induction false} OwnMore(s: State, run: seq<Event>, more: seq<Event>, t: nat)
    requires Possible(s, run) && Possible(After(s, run), more)
    ensures Own(s, run + more, t) == Own(s, run, t) + Own(After(s, run), more, t)
    decreases |run|
  {
    hide Apply, Enabled, OwnOf;
    if run == [] {
      assert run + more == more;
    } else {
      OwnMore(Apply(s, run[0]), run[1..], more, t);
      assert (run + more)[0] == run[0] && (run + more)[1..] == run[1..] + more;
    }
  }

  lemma OwnOneMore(s: State, run: seq<Event>, e: Event, t: nat)
    requires Possible(s, run) && Enabled(After(s, run), e)
    ensures Possible(s, run + [e]) && After(s, run + [e]) == Apply(After(s, run), e)
    ensures Own(s, run + [e], t) == Own(s, run, t) + OwnOf(After(s, run), e, t)
  {
    hide Apply, Enabled, OwnOf;
    AfterOneMore(s, run, e);
    var n := After(s, run);
    NothingHappens(Apply(n, e));
    assert [e][1..] == [];
    OwnMore(s, run, [e], t);
  }

  lemma {:induction false} OthersOwnNothing(s: State, run: seq<Event>, t: nat)
    requires Possible(s, run) && forall i :: 0 <= i < |run| ==> !Continues(run[i], t)
    ensures Own(s, run, t) == []
    decreases |run|
  {
    hide Apply, Enabled;
    if run == [] {
    } else {
      assert !Continues(run[0], t);
      OthersOwnNothing(Apply(s, run[0]), run[1..], t);
    }
  }

  // ---------- What the stretches add up to ----------

  /** What the task announces beginning: the back-off before an attempt, or the attempt itself. */
  predicate IsBeginning(x: Stretch, p: Profile) {
    x.Ran? && if p.Reconnect? then x.to.Waiting? else x.to.Trying?
  }

  predicate IsFailure(x: Stretch) {
    x.Ran? && x.from.Trying? && !x.answer
  }

  predicate IsSuccess(x: Stretch) {
    x.Ran? && x.from.Trying? && x.answer
  }

  function Begun(own: seq<Stretch>, p: Profile): nat {
    if own == [] then 0
    else Begun(own[..|own| - 1], p) + if IsBeginning(own[|own| - 1], p) then 1 else 0
  }

  function Failures(own: seq<Stretch>): nat {
    if own == [] then 0
    else Failures(own[..|own| - 1]) + if IsFailure(own[|own| - 1]) then 1 else 0
  }

  /** `k` attempts were begun, and all failed, the last of them perhaps only now that the task leaves phase `at`. */
  predicate AllFailed(own: seq<Stretch>, at: Phase, answer: bool, p: Profile, k: nat) {
    && Begun(own, p) == k && Failures(own) + (if at.Trying? then 1 else 0) == k
    && (at.Trying? ==> !answer)
  }

  /** The task ended after `k` beginnings, before four attempts had failed, and its last stretch says how. */
  predicate EndsAfter(own: seq<Stretch>, p: Profile, k: nat, ok: bool, cancelled: bool) {
    && own != [] && (ok <==> IsSuccess(own[|own| - 1])) && (cancelled <==> own[|own| - 1].Cancelled?)
    && Begun(own, p) == k && Failures(own) < 4
  }

  lemma NothingYet(s: State, t: nat, p: Profile)
    requires PhaseOf(s, t).Fresh? || PhaseOf(s, t).Settling?
    ensures AllFailed(Own(s, [], t), PhaseOf(s, t), true, p, 0)
  {
  }

  lemma OneMore(own: seq<Stretch>, x: Stretch, p: Profile)
    ensures Begun(own + [x], p) == Begun(own, p) + if IsBeginning(x, p) then 1 else 0
    ensures Failures(own + [x]) == Failures(own) + if IsFailure(x) then 1 else 0
  {
    assert (own + [x])[..|own|] == own;
  }
}
