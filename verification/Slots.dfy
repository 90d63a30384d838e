/**
 Three deployment slots: which one an update goes to, and which one a rollback goes back to
 (scripts/update-runner.py:164-223), over histories of updates.
 */
module Slots {
  import opened Options

  /** `deployed_at`: absent (read as the empty string), `null`, or a time stamp. */
  datatype Stamp = Missing | Null | At(time: nat)

  /** A slot's metadata; `version` is empty when unset, `empty` is the status mark. */
  datatype Meta = Meta(version: string, empty: bool, deployedAt: Stamp)

  type Metas = map<nat, Meta>

  /** `get_slot_meta`: a slot without a file is empty. */
  function MetaOf(metas: Metas, i: nat): Meta {
    if i in metas then metas[i] else Meta("", true, Null)
  }

  predicate Other(active: Option<nat>, i: nat) {
    i < 3 && active != Some(i)
  }

  // ---------- Rollback target ----------

  /** A slot a rollback may go to. */
  predicate Candidate(metas: Metas, i: nat) {
    MetaOf(metas, i).version != "" && MetaOf(metas, i).deployedAt.At?
  }

  /** Older, or equally old with a lower number. */
  predicate Older(metas: Metas, i: nat, j: nat)
    requires Candidate(metas, i) && Candidate(metas, j)
  {
    var (s, t) := (MetaOf(metas, i).deployedAt.time, MetaOf(metas, j).deployedAt.time);
    s < t || (s == t && i < j)
  }

  /** `r` is the newest slot that is not active and was deployed; none if there is none. */
  ghost predicate IsRollback(metas: Metas, active: Option<nat>, r: Option<nat>) {
    match r
    case None => forall i :: Other(active, i) ==> !Candidate(metas, i)
    case Some(t) =>
      Other(active, t) && Candidate(metas, t) &&
      forall i :: Other(active, i) && Candidate(metas, i) && i != t ==> Older(metas, i, t)
  }

  // ---------- Update target ----------

  predicate LooksEmpty(metas: Metas, i: nat) {
    MetaOf(metas, i).empty || MetaOf(metas, i).version == ""
  }

  /** Comparing a `null` stamp with a string raises a `TypeError`. */
  predicate Comparable(metas: Metas, i: nat, j: nat) {
    MetaOf(metas, i).deployedAt.Null? == MetaOf(metas, j).deployedAt.Null?
  }

  function Age(s: Stamp): int {
    if s.At? then s.time else -1
  }

  predicate NotYounger(metas: Metas, i: nat, j: nat) {
    var (s, t) := (Age(MetaOf(metas, i).deployedAt), Age(MetaOf(metas, j).deployedAt));
    s < t || (s == t && i <= j)
  }

  datatype Choice = Slot(id: nat) | TypeError

  /** The first slot that looks empty, else the oldest; never the active one. */
  ghost predicate IsTarget(metas: Metas, active: Option<nat>, r: Choice) {
    if exists i :: Other(active, i) && LooksEmpty(metas, i) then
      r.Slot? && Other(active, r.id) && LooksEmpty(metas, r.id) &&
      forall i :: Other(active, i) && LooksEmpty(metas, i) ==> r.id <= i
    else if exists i, j :: Other(active, i) && Other(active, j) && !Comparable(metas, i, j) then r.TypeError?
    else r.Slot? && Other(active, r.id) && forall i :: Other(active, i) ==> NotYounger(metas, r.id, i)
  }

  /** There is one target, or the error. */
  lemma TargetIsOne(metas: Metas, active: Option<nat>, r: Choice)
    requires IsTarget(metas, active, r)
    ensures r.TypeError? <==> IsTarget(metas, active, TypeError)
  {
  }

  lemma TargetIsOther(metas: Metas, active: Option<nat>, target: nat)
    requires IsTarget(metas, active, Slot(target))
    ensures target < 3 && active != Some(target)
  {
  }

  /**
   The target is a rollback target exactly when it is marked empty although it was deployed, and is the
   newest such slot.
   */
  lemma TargetVerdict(metas: Metas, active: Option<nat>, target: nat, rollback: Option<nat>)
    requires IsTarget(metas, active, Slot(target)) && IsRollback(metas, active, rollback)
    ensures Other(active, target)
    ensures rollback == Some(target) <==>
      Candidate(metas, target) && MetaOf(metas, target).empty &&
      forall i :: Other(active, i) && Candidate(metas, i) && i != target ==> Older(metas, i, target)
  {
    assert exists i :: Other(active, i) && i != target by {
      var i := if target != 0 && active != Some(0) then 0 else if target != 1 && active != Some(1) then 1 else 2;
      assert Other(active, i);
    }
  }

  /** Empty slots are consistently marked: nothing marked empty was deployed. */
  ghost predicate ConsistentlyMarked(metas: Metas) {
    forall i :: 0 <= i < 3 && MetaOf(metas, i).empty ==> !Candidate(metas, i)
  }

  /** An update overwrites neither the running version nor the one a rollback would go back to. */
  lemma TargetIsSpare(metas: Metas, active: Option<nat>, target: nat, rollback: Option<nat>)
    requires ConsistentlyMarked(metas)
    requires IsTarget(metas, active, Slot(target)) && IsRollback(metas, active, rollback)
    ensures target < 3 && active != Some(target) && rollback != Some(target)
  {
    TargetVerdict(metas, active, target, rollback);
  }

  // ---------- Histories ----------

  /** What the update runner remembers; stamps are earlier than `now`. */
  datatype History = History(metas: Metas, active: Option<nat>, now: nat)

  function Deployed(metas: Metas, target: nat, version: string, time: nat): Metas {
    metas[target := Meta(version, false, At(time))]
  }

  /**
   A version was deployed into the slot an update picks, at a time not before `h.now`, and is active if
   it is healthy.
   */
  ghost predicate Update(h: History, version: string, healthy: bool, n: History) {
    version != "" && exists target :: UpdateOf(h, target, version, healthy, n)
  }

  ghost predicate UpdateOf(h: History, target: nat, version: string, healthy: bool, n: History) {
    && h.now < n.now
    && IsTarget(h.metas, h.active, Slot(target))
    && (forall i: nat :: MetaOf(n.metas, i) == MetaOf(Deployed(h.metas, target, version, n.now - 1), i))
    && n.active == if healthy then Some(target) else h.active
  }

  /** A manual rollback. */
  ghost predicate Rollback(h: History, n: History) {
    n.active.Some? && IsRollback(h.metas, h.active, n.active) && n.metas == h.metas && n.now == h.now
  }

  ghost predicate StampedBefore(h: History) {
    forall i :: 0 <= i < 3 && MetaOf(h.metas, i).deployedAt.At? ==> MetaOf(h.metas, i).deployedAt.time < h.now
  }

  /** The running version was deployed after every other. */
  ghost predicate ActiveIsNewest(h: History) {
    && StampedBefore(h) && h.active.Some? && h.active.value < 3 && Candidate(h.metas, h.active.value)
    && forall i :: Other(h.active, i) && Candidate(h.metas, i) ==> Older(h.metas, i, h.active.value)
  }

  lemma SuccessIsNewest(h: History, version: string, n: History)
    requires StampedBefore(h) && Update(h, version, true, n)
    ensures ActiveIsNewest(n)
  {
    var target: nat :| UpdateOf(h, target, version, true, n);
    assert Other(h.active, target);
    assert forall i :: i != target ==> MetaOf(n.metas, i) == MetaOf(h.metas, i);
  }

  /**
   After a successful update a rollback goes back to the version that ran before, exactly when
   that was deployed and no other slot left over was deployed after it.
   */
  lemma RollbackVerdict(h: History, target: nat, version: string, n: History)
    requires h.active.Some? && h.active.value < 3 && UpdateOf(h, target, version, true, n)
    ensures IsRollback(n.metas, n.active, h.active) <==>
      Candidate(h.metas, h.active.value)
      && forall i :: Other(h.active, i) && i != target && Candidate(h.metas, i) ==> Older(h.metas, i, h.active.value)
  {
    var a := h.active.value;
    assert Other(h.active, target);
    assert forall i :: i != target ==> MetaOf(n.metas, i) == MetaOf(h.metas, i);
    assert forall i :: i != target ==> (Candidate(n.metas, i) <==> Candidate(h.metas, i));
    if IsRollback(n.metas, n.active, h.active) {
      forall i | Other(h.active, i) && i != target && Candidate(h.metas, i) ensures Older(h.metas, i, a) {
        assert Other(n.active, i);
        assert Older(n.metas, i, a);
      }
    }
  }

  ghost predicate Succeeds(h: History, n: History) {
    exists version :: Update(h, version, true, n)
  }

  ghost predicate Updates(hs: seq<History>) {
    forall i, j :: 0 <= i && j == i + 1 && j < |hs| ==> Succeeds(hs[i], hs[j])
  }

  /** Over any history of successful updates, each leaves a rollback to the version before it. */
  lemma {:induction false} UpdatesKeepRollback(hs: seq<History>, k: nat)
    requires hs != [] && ActiveIsNewest(hs[0]) && Updates(hs) && k < |hs| - 1
    ensures ActiveIsNewest(hs[k]) && ActiveIsNewest(hs[k + 1])
    ensures IsRollback(hs[k + 1].metas, hs[k + 1].active, hs[k].active)
  {
    if k > 0 {
      UpdatesKeepRollback(hs, k - 1);
    }
    assert Succeeds(hs[k], hs[k + 1]);
    var version :| Update(hs[k], version, true, hs[k + 1]);
    var target: nat :| UpdateOf(hs[k], target, version, true, hs[k + 1]);
    RollbackVerdict(hs[k], target, version, hs[k + 1]);
    SuccessIsNewest(hs[k], version, hs[k + 1]);
  }

  /** A manual rollback right after a successful update goes back to what ran before, and a second one forward again. */
  lemma RollbackAndForward(h: History, version: string, n: History, back: History, forth: History)
    requires ActiveIsNewest(h) && Update(h, version, true, n) && Rollback(n, back) && Rollback(back, forth)
    ensures back.active == h.active && forth.active == n.active
  {
    var target: nat :| UpdateOf(h, target, version, true, n);
    RollbackVerdict(h, target, version, n);
    SuccessIsNewest(h, version, n);
    var a, t := h.active.value, target;
    assert Other(h.active, t);
    assert Other(n.active, a) && Candidate(n.metas, a);
    assert Other(n.active, back.active.value) && Candidate(n.metas, back.active.value);
    assert back.active == h.active;
    assert Other(back.active, t) && Candidate(n.metas, t);
    assert Other(back.active, forth.active.value) && Candidate(n.metas, forth.active.value);
  }

  // ---------- Histories in which the rollback target is not the version before ----------

  /** Slots 0, 1 and 2 deployed at these times. */
  function Deployments(a: nat, b: nat, c: nat): Metas {
    map[0 := Meta("v", false, At(a)), 1 := Meta("v", false, At(b)), 2 := Meta("v", false, At(c))]
  }

  /** Deploying into slot 0 or 1, the oldest of the three. */
  lemma DeployOldest(a: nat, b: nat, c: nat, active: nat, target: nat, now: nat, healthy: bool)
    requires active < 3 && target < 2 && active != target && a != b && b != c && a != c && now > a && now > b && now > c
    requires var times := [a, b, c]; forall i :: 0 <= i < 3 && i != active ==> times[target] <= times[i]
    ensures var metas := if target == 0 then Deployments(now, b, c) else Deployments(a, now, c);
      var n := History(metas, if healthy then Some(target) else Some(active), now + 1);
      UpdateOf(History(Deployments(a, b, c), Some(active), now), target, "v", healthy, n)
  {
    assert [a, b, c][0] == a && [a, b, c][1] == b && [a, b, c][2] == c;
  }

  /** After an unhealthy update and then a healthy one, a rollback goes to the unhealthy version. */
  lemma UnhealthyVersionComesBack()
    ensures var h := History(Deployments(2, 3, 4), Some(2), 5);
      var m := History(Deployments(5, 3, 4), Some(2), 6);
      var n := History(Deployments(5, 6, 4), Some(1), 7);
      ActiveIsNewest(h) && Update(h, "v", false, m) && Update(m, "v", true, n) && IsRollback(n.metas, n.active, Some(0))
  {
    var h := History(Deployments(2, 3, 4), Some(2), 5);
    var m := History(Deployments(5, 3, 4), Some(2), 6);
    var n := History(Deployments(5, 6, 4), Some(1), 7);
    DeployOldest(2, 3, 4, 2, 0, 5, false);
    DeployOldest(5, 3, 4, 2, 1, 6, true);
    assert Update(h, "v", false, m) && Update(m, "v", true, n) by {
      hide IsTarget, Deployments;
    }
  }

  /** After a manual rollback and then an update, a rollback goes to the version rolled back from. */
  lemma RejectedVersionComesBack()
    ensures var h := History(Deployments(2, 3, 4), Some(2), 5);
      var m := History(Deployments(2, 3, 4), Some(1), 5);
      var n := History(Deployments(5, 3, 4), Some(0), 6);
      ActiveIsNewest(h) && Rollback(h, m) && Update(m, "v", true, n) && IsRollback(n.metas, n.active, h.active)
  {
    var h := History(Deployments(2, 3, 4), Some(2), 5);
    var m := History(Deployments(2, 3, 4), Some(1), 5);
    var n := History(Deployments(5, 3, 4), Some(0), 6);
    DeployOldest(2, 3, 4, 1, 0, 5, true);
  }

  // ---------- The same, by what the metadata says ----------

  /** The slot has metadata with a version and a time of deployment. */
  predicate WasDeployedAt(metas: Metas, i: nat, time: nat) {
    i in metas && metas[i].version != "" && metas[i].deployedAt == At(time)
  }

  ghost predicate IsLastDeployed(metas: Metas, active: Option<nat>, t: nat, time: nat) {
    && t < 3 && active != Some(t) && WasDeployedAt(metas, t, time)
    && forall i: nat, other: nat :: i < 3 && active != Some(i) && i != t && WasDeployedAt(metas, i, other) ==>
         other < time || (other == time && i < t)
  }

  /** A rollback goes to the last deployed of the slots but the active one; of two at once, the higher. */
  lemma RollbackInFields(metas: Metas, active: Option<nat>, r: Option<nat>)
    ensures IsRollback(metas, active, r) && r.Some? ==> exists time :: IsLastDeployed(metas, active, r.value, time)
    ensures IsRollback(metas, active, None) <==>
      forall i: nat, time: nat :: i < 3 && Some(i) != active ==> !WasDeployedAt(metas, i, time)
  {
    assert forall i: nat :: Candidate(metas, i) ==> WasDeployedAt(metas, i, MetaOf(metas, i).deployedAt.time);
    assert forall i: nat, time: nat :: WasDeployedAt(metas, i, time) ==>
      Candidate(metas, i) && MetaOf(metas, i).deployedAt.time == time;
    if IsRollback(metas, active, r) && r.Some? {
      var time := MetaOf(metas, r.value).deployedAt.time;
      assert IsLastDeployed(metas, active, r.value, time);
    }
    if forall i: nat, time: nat :: i < 3 && Some(i) != active ==> !WasDeployedAt(metas, i, time) {
      assert forall i: nat :: Other(active, i) ==> !Candidate(metas, i);
    }
  }

  /** Nothing is lost by overwriting the slot: no metadata, marked empty, or without a version. */
  predicate IsFree(metas: Metas, i: nat) {
    i !in metas || metas[i].empty || metas[i].version == ""
  }

  /** An update goes to the first free slot but the active one, else to the longest deployed; a time always counts. */
  lemma TargetInFields(metas: Metas, active: Option<nat>, target: nat)
    requires IsTarget(metas, active, Slot(target))
    ensures target < 3 && active != Some(target)
    ensures (exists i: nat :: i < 3 && active != Some(i) && IsFree(metas, i)) ==>
      IsFree(metas, target) && forall i: nat :: i < target && active != Some(i) ==> !IsFree(metas, i)
    ensures !IsFree(metas, target) && metas[target].deployedAt.At? ==>
      forall i: nat :: i < 3 && active != Some(i) ==>
        metas[i].deployedAt.At? &&
        (metas[target].deployedAt.time < metas[i].deployedAt.time ||
         (metas[target].deployedAt.time == metas[i].deployedAt.time && target <= i))
  {
    assert forall i: nat :: LooksEmpty(metas, i) <==> IsFree(metas, i);
    assert forall i: nat :: Other(active, i) <==> i < 3 && active != Some(i);
  }
}
