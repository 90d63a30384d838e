/**
 A watch over the BlueZ operations of one `ensure_connected` call
 (ble_service/src/ble_adapter.py:1837-1852, ble_service/src/ble_adapter.py:2033-2157).
 */
module BondMonitor {
  import opened Options
  import opened DBusErrors

  datatype Op =
    | ConnectCall
    | ConnectFailed(error: Exn)
    | ScanDone
    | PairedRead(paired: bool)
    | RemoveDevice
    | PairCall

  /** Counts, what the last operations were, and whether the rules were ever broken. */
  datatype Monitor = Monitor(
    userInitiated: bool, connects: nat, scans: nat, pairs: nat, removes: nat,
    lastError: Option<Exn>, pairedNow: bool, needsScan: bool, broken: bool, recovery: Recovery)

  /** The last failure to connect before recovery asked BlueZ for anything, and whether it did. */
  datatype Recovery = Recovery(failure: Option<Exn>, begun: bool)

  function Watching(userInitiated: bool): Monitor {
    Monitor(userInitiated, 0, 0, 0, 0, None, false, false, false, Recovery(None, false))
  }

  predicate MayRemove(m: Monitor) {
    && m.userInitiated && m.removes == 0 && m.pairedNow
    && m.lastError.Some? && IsStaleBondSignature(m.lastError.value) && !IsPlainTimeout(m.lastError.value)
  }

  function Observe(m: Monitor, op: Op): Monitor {
    match op
    case ConnectCall =>
      m.(connects := m.connects + 1, lastError := None, pairedNow := false, broken := m.broken || m.needsScan)
    case ConnectFailed(e) =>
      m.(lastError := Some(e), pairedNow := false,
         recovery := if m.recovery.begun then m.recovery else Recovery(Some(e), false))
    case ScanDone => m.(scans := m.scans + 1, pairedNow := false, needsScan := false)
    case PairedRead(paired) => m.(pairedNow := paired, recovery := m.recovery.(begun := true))
    case RemoveDevice =>
      m.(removes := m.removes + 1, pairedNow := false, needsScan := true, broken := m.broken || !MayRemove(m),
         recovery := m.recovery.(begun := true))
    case PairCall => m.(pairs := m.pairs + 1, pairedNow := false)
  }

  function Watch(trace: seq<Op>, userInitiated: bool): Monitor {
    if trace == [] then Watching(userInitiated)
    else Observe(Watch(trace[..|trace| - 1], userInitiated), trace[|trace| - 1])
  }

  lemma WatchStart(userInitiated: bool)
    ensures Watch([], userInitiated) == Watching(userInitiated)
  {
  }

  lemma WatchAppend(trace: seq<Op>, op: Op, userInitiated: bool)
    ensures Watch(trace + [op], userInitiated) == Observe(Watch(trace, userInitiated), op)
  {
    assert (trace + [op])[..|trace|] == trace;
  }

  // ---------- What an unbroken watch says about the trace ----------

  /** The last connect failure before position `n` is at `j`, and no connect was tried since. */
  predicate LastFailure(trace: seq<Op>, j: nat, n: nat) {
    && j < n <= |trace| && trace[j].ConnectFailed?
    && forall k :: j < k < n ==> !trace[k].ConnectCall? && !trace[k].ConnectFailed?
  }

  predicate IsStaleBond(e: Exn) {
    IsStaleBondSignature(e) && !IsPlainTimeout(e)
  }

  /**
   The bond is destroyed at `i` only by a user's request, right after `Paired` read true, with a
   recognised error before it.
   */
  ghost predicate JustifiedRemoval(trace: seq<Op>, i: nat, userInitiated: bool)
    requires i < |trace|
  {
    && userInitiated
    && i > 0 && trace[i - 1] == PairedRead(true)
    && exists j: nat :: LastFailure(trace, j, i) && IsStaleBond(trace[j].error)
  }

  predicate ScanBetween(trace: seq<Op>, i: nat, j: nat)
    requires j <= |trace|
  {
    exists k :: i < k < j && trace[k].ScanDone?
  }

  lemma {:induction false} BrokenStays(trace: seq<Op>, n: nat, user: bool)
    requires n <= |trace| && !Watch(trace, user).broken
    ensures !Watch(trace[..n], user).broken
    ensures Watch(trace[..n], user).removes <= Watch(trace, user).removes
  {
    if n == |trace| {
      assert trace[..n] == trace;
    } else {
      assert trace[..|trace| - 1][..n] == trace[..n];
      BrokenStays(trace[..|trace| - 1], n, user);
    }
  }

  lemma Observed(trace: seq<Op>, user: bool)
    requires trace != []
    ensures Watch(trace, user) == Observe(Watch(trace[..|trace| - 1], user), trace[|trace| - 1])
  {
  }

  lemma {:induction false} WatchedUser(trace: seq<Op>, user: bool)
    ensures Watch(trace, user).userInitiated == user
  {
    if trace == [] {
    } else {
      WatchedUser(trace[..|trace| - 1], user);
    }
  }

  lemma PairedNowMeans(trace: seq<Op>, user: bool)
    ensures Watch(trace, user).pairedNow ==> trace != [] && trace[|trace| - 1] == PairedRead(true)
  {
    if trace != [] {
      hide Watch, MayRemove;
      Observed(trace, user);
    }
  }

  lemma {:induction false} LastErrorMeans(trace: seq<Op>, user: bool)
    ensures var m := Watch(trace, user);
      m.lastError.Some? ==> exists j: nat :: LastFailure(trace, j, |trace|) && trace[j].error == m.lastError.value
  {
    if trace == [] {
    } else {
      hide Watch, MayRemove;
      var n := |trace| - 1;
      LastErrorMeans(trace[..n], user);
      Observed(trace, user);
      var before, m := Watch(trace[..n], user), Watch(trace, user);
      if m.lastError.Some? && !trace[n].ConnectFailed? {
        var j: nat :| LastFailure(trace[..n], j, n) && trace[..n][j].error == before.lastError.value;
        assert forall k :: j <= k < n ==> trace[k] == trace[..n][k];
        assert LastFailure(trace, j, |trace|);
      } else if m.lastError.Some? {
        assert LastFailure(trace, n, |trace|);
      }
    }
  }

  /** What the watch says of the trace. */
  lemma WatchFacts(trace: seq<Op>, user: bool)
    ensures var m := Watch(trace, user);
      && m.userInitiated == user
      && (m.pairedNow ==> trace != [] && trace[|trace| - 1] == PairedRead(true))
      && (m.lastError.Some? ==>
            exists j: nat :: LastFailure(trace, j, |trace|) && trace[j].error == m.lastError.value)
  {
    hide Watch, LastFailure;
    WatchedUser(trace, user);
    PairedNowMeans(trace, user);
    LastErrorMeans(trace, user);
  }

  /** In an unbroken watch every removal is justified. */
  lemma RemovalIsJustified(trace: seq<Op>, i: nat, user: bool)
    requires i < |trace| && trace[i].RemoveDevice? && !Watch(trace, user).broken
    ensures JustifiedRemoval(trace, i, user)
  {
    var before := trace[..i];
    BrokenStays(trace, i + 1, user);
    assert trace[..i + 1][..i] == before;
    WatchFacts(before, user);
    var m := Watch(before, user);
    assert MayRemove(m);
    var j: nat :| LastFailure(before, j, i) && before[j].error == m.lastError.value;
    assert before[i - 1] == PairedRead(true);
    assert forall k :: 0 <= k < i ==> trace[k] == before[k];
    assert LastFailure(trace, j, i);
  }

  lemma {:induction false} NeedsScanSince(trace: seq<Op>, i: nat, user: bool)
    requires i < |trace| && trace[i].RemoveDevice? && !ScanBetween(trace, i, |trace|)
    ensures Watch(trace, user).needsScan
  {
    var n := |trace| - 1;
    if i == n {
    } else {
      assert !trace[n].ScanDone?;
      assert forall k :: i < k < n ==> trace[..n][k] == trace[k];
      NeedsScanSince(trace[..n], i, user);
    }
  }

  /** In an unbroken watch a scan stands between a removal and every later connect. */
  lemma ScanBeforeReconnect(trace: seq<Op>, i: nat, j: nat, user: bool)
    requires i < j < |trace| && trace[i].RemoveDevice? && trace[j].ConnectCall? && !Watch(trace, user).broken
    ensures ScanBetween(trace, i, j)
  {
    var before := trace[..j];
    assert trace[..j + 1][..j] == before;
    BrokenStays(trace, j + 1, user);
    assert !Watch(before, user).needsScan;
    assert forall k :: i < k < j ==> before[k] == trace[k];
    assert ScanBetween(before, i, j) ==> ScanBetween(trace, i, j);
    if !ScanBetween(before, i, j) {
      NeedsScanSince(before, i, user);
    }
  }

  // ---------- The failure recovery starts from ----------

  predicate IsRecovery(op: Op) {
    op.PairedRead? || op.RemoveDevice?
  }

  /** Where stale-bond recovery begins to ask BlueZ, or the end of the trace. */
  function FirstRecovery(trace: seq<Op>): (n: nat)
    ensures n <= |trace| && forall k :: 0 <= k < n ==> !IsRecovery(trace[k])
    ensures n < |trace| ==> IsRecovery(trace[n])
  {
    if trace == [] then 0
    else
      var before := FirstRecovery(trace[..|trace| - 1]);
      if before < |trace| - 1 || IsRecovery(trace[before]) then before else before + 1
  }

  /** Position `j` is the last failure to connect before recovery. */
  predicate FailsAt(trace: seq<Op>, j: nat) {
    && j < FirstRecovery(trace) && trace[j].ConnectFailed?
    && forall k :: j < k < FirstRecovery(trace) ==> !trace[k].ConnectFailed?
  }

  lemma RecoveryOfMore(trace: seq<Op>)
    requires trace != []
    ensures var n := |trace| - 1;
      var before := FirstRecovery(trace[..n]);
      FirstRecovery(trace) == if before < n || IsRecovery(trace[n]) then before else before + 1
  {
  }

  lemma ObservedRecovery(trace: seq<Op>, user: bool)
    requires trace != []
    ensures var r, op := Watch(trace[..|trace| - 1], user).recovery, trace[|trace| - 1];
      Watch(trace, user).recovery ==
        if IsRecovery(op) then r.(begun := true)
        else if op.ConnectFailed? && !r.begun then Recovery(Some(op.error), false)
        else r
  {
  }

  lemma {:induction false} WatchesRecovery(trace: seq<Op>, user: bool)
    ensures Watch(trace, user).recovery.begun <==> FirstRecovery(trace) < |trace|
  {
    if trace == [] {
    } else {
      hide Watch, FirstRecovery;
      WatchesRecovery(trace[..|trace| - 1], user);
      ObservedRecovery(trace, user);
      RecoveryOfMore(trace);
    }
  }

  /** The watch knows the last failure to connect before recovery. */
  lemma {:induction false} WatchesFailure(trace: seq<Op>, user: bool)
    ensures var failure := Watch(trace, user).recovery.failure;
      if failure.Some? then exists j: nat :: FailsAt(trace, j) && trace[j].error == failure.value
      else forall k :: 0 <= k < FirstRecovery(trace) ==> !trace[k].ConnectFailed?
  {
    if trace == [] {
    } else {
      hide Watch, FirstRecovery;
      var n := |trace| - 1;
      var before := trace[..n];
      WatchesFailure(before, user);
      WatchesRecovery(before, user);
      ObservedRecovery(trace, user);
      RecoveryOfMore(trace);
      assert forall k :: 0 <= k < n ==> trace[k] == before[k];
      var failure := Watch(trace, user).recovery.failure;
      if FirstRecovery(before) == n && trace[n].ConnectFailed? {
        assert FailsAt(trace, n);
      } else if failure.Some? {
        var j: nat :| FailsAt(before, j) && before[j].error == failure.value;
        assert FailsAt(trace, j);
      }
    }
  }

  // ---------- The whole call ----------

  function Tally(trace: seq<Op>, kind: Op -> bool): nat {
    if trace == [] then 0
    else Tally(trace[..|trace| - 1], kind) + (if kind(trace[|trace| - 1]) then 1 else 0)
  }

  lemma {:induction false} WatchTallies(trace: seq<Op>, user: bool)
    ensures Watch(trace, user).connects == Tally(trace, (op: Op) => op.ConnectCall?)
    ensures Watch(trace, user).scans == Tally(trace, (op: Op) => op.ScanDone?)
    ensures Watch(trace, user).pairs == Tally(trace, (op: Op) => op.PairCall?)
    ensures Watch(trace, user).removes == Tally(trace, (op: Op) => op.RemoveDevice?)
  {
    if trace == [] {
    } else {
      WatchTallies(trace[..|trace| - 1], user);
    }
  }

  /** Within bounds, and no rule broken. */
  predicate Within(m: Monitor, connects: nat, scans: nat, pairs: nat, removes: nat) {
    !m.broken && m.connects <= connects && m.scans <= scans && m.pairs <= pairs && m.removes <= removes
  }

  /** Few operations, no unjustified removal of a bond, and a scan before connecting again after one. */
  ghost predicate Disciplined(trace: seq<Op>, userInitiated: bool) {
    && Tally(trace, (op: Op) => op.ConnectCall?) <= 3
    && Tally(trace, (op: Op) => op.ScanDone?) <= 2
    && Tally(trace, (op: Op) => op.PairCall?) <= 1
    && Tally(trace, (op: Op) => op.RemoveDevice?) <= 1
    && (forall i: nat :: i < |trace| && trace[i].RemoveDevice? ==> JustifiedRemoval(trace, i, userInitiated))
    && (forall i: nat, j: nat ::
          i < j < |trace| && trace[i].RemoveDevice? && trace[j].ConnectCall? ==> ScanBetween(trace, i, j))
  }

  lemma UnbrokenIsDisciplined(trace: seq<Op>, user: bool)
    requires Within(Watch(trace, user), 3, 2, 1, 1)
    ensures Disciplined(trace, user)
  {
    hide Watch, Tally, JustifiedRemoval, ScanBetween;
    WatchTallies(trace, user);
    forall i: nat | i < |trace| && trace[i].RemoveDevice? ensures JustifiedRemoval(trace, i, user) {
      RemovalIsJustified(trace, i, user);
    }
    forall i: nat, j: nat | i < j < |trace| && trace[i].RemoveDevice? && trace[j].ConnectCall?
      ensures ScanBetween(trace, i, j)
    {
      ScanBeforeReconnect(trace, i, j, user);
    }
  }
}
