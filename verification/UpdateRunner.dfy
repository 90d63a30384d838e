/**
 Updating and rolling back an installation (scripts/update-runner.py:164-301,
 scripts/update-runner.py:423-687, scripts/update-runner.py:752-784). The bootstrap is an
 adversary: it rewrites the target slot's metadata, files under /etc and the database, and may
 activate the target.
 */
module UpdateRunner {
  import opened Options
  import opened Slots

  /** The files under /etc that are snapshotted. */
  const SNAPSHOTTED: set<string> := {
    "/etc/mcapp/config.json", "/etc/systemd/system/mcapp.service", "/etc/systemd/system/mcapp-ble.service",
    "/etc/lighttpd/conf-available/99-mcapp.conf", "/etc/lighttpd/lighttpd.conf"
  }

  datatype Result =
    | Success(version: string, slot: nat)
    | Warning(version: string, slot: nat)
    | RolledBack
    | Failed(reason: Reason)

  datatype Reason = BootstrapError | Unhealthy | NoRollbackTarget | Raised

  type Files = map<string, string>

  /** Whether `tar` and the copying of the database do what they are asked for, when saving and when putting back. */
  datatype Tools = Tools(tarSaves: bool, backupWorks: bool, tarRestores: bool, copyWorks: bool)
  {
    predicate PutBack() {
      tarRestores && copyWorks
    }
  }

  /**
   What an update meets with: tools, a bootstrap to run, whether that succeeds, whether it activates
   the target, and health.
   */
  datatype Course = Course(tools: Tools, found: bool, bootstraps: bool, activates: bool, healthy: bool)
  {
    predicate Deploys() {
      bootstraps || activates
    }
  }

  function Snapshotted(files: Files): (r: Files)
    ensures forall f :: f in r <==> f in SNAPSHOTTED && f in files
    ensures forall f :: f in r ==> r[f] == files[f]
  {
    map f | f in SNAPSHOTTED && f in files :: files[f]
  }

  /** What is saved of /etc is, at most, the files of these five names. */
  lemma SnapshotVerdict(files: Files, f: string)
    ensures f in Snapshotted(files) <==>
      f in files &&
      (f == "/etc/mcapp/config.json" || f == "/etc/systemd/system/mcapp.service"
       || f == "/etc/systemd/system/mcapp-ble.service" || f == "/etc/lighttpd/conf-available/99-mcapp.conf"
       || f == "/etc/lighttpd/lighttpd.conf")
    ensures f in Snapshotted(files) ==> Snapshotted(files)[f] == files[f]
  {
  }

  /** The archives after `snapshot_etc`: with nothing to save, an older archive stays. */
  function ArchivesWith(archives: map<nat, Files>, slot: nat, files: Files): map<nat, Files> {
    if Snapshotted(files) == map[] then archives else archives[slot := Snapshotted(files)]
  }

  /** The backups after `snapshot_database`: without a database, an older backup stays. */
  function BackupsWith(backups: map<nat, string>, slot: nat, database: Option<string>): map<nat, string> {
    if database.None? then backups else backups[slot := database.value]
  }

  // ---------- What an automatic rollback puts back ----------

  /** Files, database and older snapshots, as an update finds them. */
  datatype Kept = Kept(files: Files, database: Option<string>, archives: map<nat, Files>, backups: map<nat, string>)

  function Of(files: Files, f: string): Option<string> {
    if f in files then Some(files[f]) else None
  }

  /**
   What a reader sees after the rollback, given the database before the update, the backups then, and
   the database the bootstrap left.
   */
  function DatabaseAfter(
    database: Option<string>, slot: nat, backups: map<nat, string>, left: Option<string>): Option<string> {
    if database.Some? then database else if slot in backups then Some(backups[slot]) else left
  }

  /**
   A file under /etc after the rollback, given the files before, the archives then, and the files the
   bootstrap left.
   */
  function FileAfter(f: string, files: Files, slot: nat, archives: map<nat, Files>, left: Files): Option<string> {
    if Snapshotted(files) != map[] then if f in Snapshotted(files) then Some(files[f]) else Of(left, f)
    else if slot in archives && f in archives[slot] then Some(archives[slot][f])
    else Of(left, f)
  }

  /**
   The rollback puts the database back exactly if there was one, or if neither an older backup nor the
   bootstrap supplies one.
   */
  lemma DatabaseVerdict(database: Option<string>, slot: nat, backups: map<nat, string>, left: Option<string>)
    ensures DatabaseAfter(database, slot, backups, left) == database <==>
      database.Some? || (slot !in backups && left.None?)
  {
  }

  /** No snapshot of a file that is now missing is unpacked: there is none, or it was replaced by a newer archive. */
  predicate NoOlderFile(f: string, files: Files, slot: nat, archives: map<nat, Files>) {
    Snapshotted(files) != map[] || slot !in archives || f !in archives[slot]
  }

  /**
   A snapshotted file is as it was exactly if it existed, or if neither an older archive nor the
   bootstrap supplies it.
   */
  lemma FileVerdict(f: string, files: Files, slot: nat, archives: map<nat, Files>, left: Files)
    requires f in SNAPSHOTTED
    ensures FileAfter(f, files, slot, archives, left) == Of(files, f) <==>
      f in files || (f !in left && NoOlderFile(f, files, slot, archives))
  {
    if f in files {
      assert f in Snapshotted(files);
    }
  }

  class Installation {
    var current: Option<nat>
    var metas: Metas
    var etc: Files
    /** The database file, and the journal beside it that a reader applies to it. */
    var dbFile: Option<string>
    var journal: string
    var archives: map<nat, Files>
    var backups: map<nat, string>
    var clock: nat

    /** What a reader of the database sees. */
    function Database(): Option<string>
      reads this
    {
      if dbFile.None? then None else Some(dbFile.value + journal)
    }

    /** What slots and metadata say about past updates. */
    function Past(): History
      reads this
    {
      History(metas, current, clock)
    }

    constructor (current: Option<nat>, metas: Metas, etc: Files, dbFile: Option<string>, journal: string)
      ensures this.current == current && this.metas == metas && this.etc == etc && this.dbFile == dbFile
      ensures this.journal == journal
      ensures archives == map[] && backups == map[] && clock == 0
    {
      this.current, this.metas, this.etc, this.dbFile, this.journal := current, metas, etc, dbFile, journal;
      archives, backups, clock := map[], map[], 0;
    }

    // ---------- Slots ----------

    /** `get_rollback_slot` */
    method GetRollbackSlot() returns (r: Option<nat>)
      ensures IsRollback(metas, current, r)
    {
      r := None;
      for i := 0 to 3
        invariant match r
                  case None => forall k: nat :: k < i && Other(current, k) ==> !Candidate(metas, k)
                  case Some(t) =>
                    t < i && Other(current, t) && Candidate(metas, t) &&
                    forall k: nat :: k < i && Other(current, k) && Candidate(metas, k) && k != t ==> Older(metas, k, t)
      {
        if Other(current, i) && Candidate(metas, i) && (r.None? || !Older(metas, i, r.value)) {
          r := Some(i);
        }
      }
    }

    /** `get_oldest_slot`; sorting raises a `TypeError` if a `null` stamp meets a string. */
    method GetOldestSlot() returns (r: Choice)
      ensures IsTarget(metas, current, r)
    {
      for i := 0 to 3
        invariant forall k: nat :: k < i && Other(current, k) ==> !LooksEmpty(metas, k)
      {
        if Other(current, i) && LooksEmpty(metas, i) {
          return Slot(i);
        }
      }
      var oldest: Option<nat> := None;
      for i := 0 to 3
        invariant forall k: nat :: Other(current, k) ==> !LooksEmpty(metas, k)
        invariant forall j: nat, k: nat ::
          j < i && k < i && Other(current, j) && Other(current, k) ==> Comparable(metas, j, k)
        invariant match oldest
                  case None => forall k: nat :: k < i ==> !Other(current, k)
                  case Some(t) =>
                    t < i && Other(current, t) &&
                    forall k: nat :: k < i && Other(current, k) ==> NotYounger(metas, t, k)
      {
        if Other(current, i) {
          if oldest.None? {
            oldest := Some(i);
          } else if !Comparable(metas, oldest.value, i) {
            return TypeError;
          } else if !NotYounger(metas, oldest.value, i) {
            oldest := Some(i);
          }
        }
      }
      assert Other(current, 0) || Other(current, 1);
      r := Slot(oldest.value);
    }

    /** `set_slot_meta` with the time of the call. */
    method SetSlotMeta(slot: nat, version: string)
      modifies this`metas, this`clock
      ensures metas == Deployed(old(metas), slot, version, old(clock)) && clock == old(clock) + 1
    {
      metas := metas[slot := Meta(version, false, At(clock))];
      clock := clock + 1;
    }

    // ---------- Snapshots ----------

    /** `snapshot_etc`; `tar` may fail, leaving anything in the archive. */
    method SnapshotEtc(slot: nat, works: bool) returns (ok: bool)
      modifies this`archives
      ensures ok <==> works || Snapshotted(etc) == map[]
      ensures ok ==> archives == ArchivesWith(old(archives), slot, etc)
    {
      var files := Snapshotted(etc);
      ok := true;
      if files != map[] {
        ok := works;
        var partial: Files := *;
        archives := archives[slot := if ok then files else partial];
      }
    }

    /** `snapshot_database`: an online backup, so what a reader sees. */
    method SnapshotDatabase(slot: nat, works: bool) returns (ok: bool)
      modifies this`backups
      ensures ok <==> works || dbFile.None?
      ensures ok ==> backups == BackupsWith(old(backups), slot, Database())
    {
      if dbFile.None? {
        return true;
      }
      ok := works;
      var partial: string := *;
      backups := backups[slot := if ok then dbFile.value + journal else partial];
    }

    /** `restore_etc`: unpacks the archive over what is there. */
    method RestoreEtc(slot: nat, works: bool) returns (ok: bool)
      modifies this`etc
      ensures works ==> ok
      ensures ok ==> etc == if slot in archives then old(etc) + archives[slot] else old(etc)
    {
      if slot !in archives {
        return true;
      }
      ok := works;
      var partial: Files := *;
      etc := if ok then etc + archives[slot] else partial;
    }

    /** `restore_database`: copies the backup and removes the journal beside the file. */
    method RestoreDatabase(slot: nat, works: bool) returns (ok: bool)
      modifies this`dbFile, this`journal
      ensures works ==> ok
      ensures ok ==> Database() == if slot in backups then Some(backups[slot]) else old(Database())
    {
      if slot !in backups {
        return true;
      }
      ok := works;
      if !ok {
        dbFile := *;
        return;
      }
      dbFile := Some(backups[slot]);
      journal := "";
      assert backups[slot] + "" == backups[slot];
    }

    /** `_do_rollback`; `tar` and the copying work, or raise. */
    method DoRollback(target: nat, tarWorks: bool, copyWorks: bool) returns (ok: bool)
      modifies this`current, this`etc, this`dbFile, this`journal
      ensures tarWorks && copyWorks ==> ok
      ensures current == Some(target)
      ensures ok ==> etc == if target in archives then old(etc) + archives[target] else old(etc)
      ensures ok ==> Database() == if target in backups then Some(backups[target]) else old(Database())
    {
      current := Some(target);
      ok := RestoreEtc(target, tarWorks);
      if !ok {
        return;
      }
      ok := RestoreDatabase(target, copyWorks);
    }

    // ---------- Updates ----------

    /** The bootstrap run of an update. */
    method RunBootstrap(target: nat, activates: bool)
      modifies this`current, this`metas, this`etc, this`dbFile, this`journal
      ensures current == if activates then Some(target) else old(current)
      ensures forall i :: i != target ==> MetaOf(metas, i) == MetaOf(old(metas), i)
    {
      var meta: Meta := *;
      if activates {
        current := Some(target);
      }
      metas := metas[target := meta];
      etc, dbFile, journal := *, *, *;
    }

    /** Converging the system after an accepted update. */
    method Converge()
      modifies this`etc, this`dbFile, this`journal
    {
      etc, dbFile, journal := *, *, *;
    }

    /** The snapshots of the active slot, if there is one, can be taken. */
    predicate CanSave(tools: Tools)
      reads this
    {
      current.Some? ==> (tools.tarSaves || Snapshotted(etc) == map[]) && (tools.backupWorks || dbFile.None?)
    }

    /** An update gets as far as its bootstrap. */
    ghost predicate CanBegin(course: Course)
      reads this
    {
      !IsTarget(metas, current, TypeError) && CanSave(course.tools) && course.found
    }

    /** Both snapshots of the active slot, if there is one. */
    method TakeSnapshots(active: Option<nat>, tools: Tools) returns (ok: bool)
      requires active == current
      modifies this`archives, this`backups
      ensures ok <==> CanSave(tools)
      ensures ok ==> archives == if active.Some? then ArchivesWith(old(archives), active.value, etc) else old(archives)
      ensures ok ==>
        backups == if active.Some? then BackupsWith(old(backups), active.value, Database()) else old(backups)
    {
      ok := true;
      if active.Some? {
        ok := SnapshotEtc(active.value, tools.tarSaves);
        if ok {
          ok := SnapshotDatabase(active.value, tools.backupWorks);
        }
      }
    }

    /** The bootstrap and the activation; a bootstrap that failed only after activating the target counts. */
    method Deploy(target: nat, bootstraps: bool, activates: bool) returns (version: Option<string>)
      requires current != Some(target)
      modifies this`current, this`metas, this`etc, this`dbFile, this`journal, this`clock
      ensures version.Some? <==> bootstraps || activates
      ensures version.None? ==> current == old(current)
      ensures version.Some? ==> current == Some(target) && clock == old(clock) + 1
      ensures version.Some? ==> MetaOf(metas, target) == Meta(version.value, false, At(old(clock)))
      ensures forall i: nat :: i != target ==> MetaOf(metas, i) == MetaOf(old(metas), i)
    {
      RunBootstrap(target, activates);
      ghost var left := metas;
      if !bootstraps && current != Some(target) {
        return None;
      }
      var text: string := *;
      SetSlotMeta(target, text);
      assert forall i: nat :: i != target ==> MetaOf(metas, i) == MetaOf(left, i);
      if bootstraps {
        current := Some(target);
      }
      return Some(text);
    }

    /**
     What every reader of the database and of every file sees, whatever there was before (`files`, `database`), whatever
     older snapshots there were, and whatever the bootstrap left.
     */
    ghost predicate PutBackFrom(before: Kept, leftFiles: Files, left: Option<string>)
      reads this
    {
      && current.Some?
      && Database() == DatabaseAfter(before.database, current.value, before.backups, left)
      && forall f :: Of(etc, f) == FileAfter(f, before.files, current.value, before.archives, leftFiles)
    }

    /** What there is to put back. */
    function Keeping(): Kept
      reads this
    {
      Kept(etc, Database(), archives, backups)
    }

    /** So what existed is there again, in the database and under /etc. */
    lemma WhatExistedIsBack(before: Kept, leftFiles: Files, left: Option<string>)
      requires PutBackFrom(before, leftFiles, left)
      ensures before.database.Some? ==> Database() == before.database
      ensures forall f :: f in SNAPSHOTTED && f in before.files ==> f in etc && etc[f] == before.files[f]
    {
      forall f | f in SNAPSHOTTED && f in before.files ensures f in etc && etc[f] == before.files[f] {
        assert f in Snapshotted(before.files);
        assert Of(etc, f) == Some(before.files[f]);
      }
    }

    /** The automatic rollback, after the snapshots of `before` were taken. */
    method PutBack(slot: nat, tools: Tools, ghost before: Kept) returns (ok: bool)
      requires archives == ArchivesWith(before.archives, slot, before.files)
      requires backups == BackupsWith(before.backups, slot, before.database)
      modifies this`current, this`etc, this`dbFile, this`journal
      ensures current == Some(slot)
      ensures tools.PutBack() ==> ok
      ensures ok ==> PutBackFrom(before, old(etc), old(Database()))
    {
      ok := DoRollback(slot, tools.tarRestores, tools.copyWorks);
    }

    /**
     `run_update`.
     Success: a spare slot was chosen, stamped and made current; the other slots' metadata is as it was.
     Rolled back: the old slot is current again, and what its snapshots held is back; `leftFiles` and `left` are what
     the
     bootstrap left under /etc and as the database.
     Which it is, and which failure, is decided by the course of things.
     */
    method RunUpdate(course: Course) returns (r: Result, ghost leftFiles: Files, ghost left: Option<string>)
      modifies this
      ensures r.Success? <==> old(CanBegin(course)) && course.Deploys() && course.healthy
      ensures r == Failed(BootstrapError) <==> old(CanBegin(course)) && !course.Deploys()
      ensures r == Failed(Unhealthy) <==>
        old(CanBegin(course)) && course.Deploys() && !course.healthy && old(current).None?
      ensures r.RolledBack? ==> old(CanBegin(course)) && course.Deploys() && !course.healthy
      ensures old(CanBegin(course)) && course.Deploys() && !course.healthy && old(current).Some? ==>
        r.RolledBack? || !course.tools.PutBack()
      ensures !r.Warning? && r != Failed(NoRollbackTarget)
      ensures r.Success? ==>
        r.slot < 3 && old(current) != Some(r.slot) && UpdateOf(old(Past()), r.slot, r.version, true, Past())
      ensures r.RolledBack? ==>
        exists target: nat, version: string :: UpdateOf(old(Past()), target, version, false, Past())
      ensures r.RolledBack? ==> old(current).Some? && current == old(current)
      ensures r.RolledBack? ==> PutBackFrom(old(Keeping()), leftFiles, left)
      ensures r == Failed(BootstrapError) ==> current == old(current)
    {
      hide IsTarget, PutBackFrom, ArchivesWith, BackupsWith;
      ghost var before, kept := Past(), Keeping();
      leftFiles, left := etc, Database();
      var active := current;
      var choice := GetOldestSlot();
      TargetIsOne(metas, active, choice);
      if choice.TypeError? {
        r := Failed(Raised);
        return;
      }
      TargetIsOther(metas, active, choice.id);
      var saved := TakeSnapshots(active, course.tools);
      if !saved || !course.found {
        r := Failed(Raised);
        return;
      }
      var version := Deploy(choice.id, course.bootstraps, course.activates);
      if version.None? {
        r := Failed(BootstrapError);
        return;
      }
      if course.healthy {
        Converge();
        assert UpdateOf(before, choice.id, version.value, true, Past());
        r := Success(version.value, choice.id);
        return;
      }
      if active.None? {
        r := Failed(Unhealthy);
        return;
      }
      leftFiles, left := etc, Database();
      var ok := PutBack(active.value, course.tools, kept);
      assert UpdateOf(before, choice.id, version.value, false, Past());
      r := if ok then RolledBack else Failed(Raised);
    }

    /** `run_rollback`: the state left behind is saved under the slot it belongs to, that of the other slot put back. */
    method RunRollback(tools: Tools, healthy: bool) returns (r: Result)
      modifies this`current, this`etc, this`dbFile, this`journal, this`archives, this`backups
      ensures r == Failed(NoRollbackTarget) ==>
        IsRollback(metas, old(current), None) && current == old(current) && etc == old(etc) &&
        Database() == old(Database())
      ensures r.Success? || r.Warning? ==>
        && current == Some(r.slot) && Rollback(old(Past()), Past()) && r.version == MetaOf(metas, r.slot).version
        && archives == (
             if old(current).Some? then ArchivesWith(old(archives), old(current).value, old(etc)) else old(archives))
        && backups == (
             if old(current).Some? then BackupsWith(old(backups), old(current).value, old(Database()))
             else old(backups))
        && etc == (if r.slot in archives then old(etc) + archives[r.slot] else old(etc))
        && Database() == (if r.slot in backups then Some(backups[r.slot]) else old(Database()))
      ensures !r.RolledBack? && r != Failed(BootstrapError) && r != Failed(Unhealthy)
      ensures r == Failed(NoRollbackTarget) <==> IsRollback(metas, old(current), None)
      ensures r.Success? ==> healthy
      ensures r.Warning? ==> !healthy
      ensures !IsRollback(metas, old(current), None) && old(CanSave(tools)) && tools.PutBack() ==> !r.Failed?
    {
      var active := current;
      var target := GetRollbackSlot();
      if target.None? {
        return Failed(NoRollbackTarget);
      }
      var saved := TakeSnapshots(active, tools);
      if !saved {
        return Failed(Raised);
      }
      var ok := DoRollback(target.value, tools.tarRestores, tools.copyWorks);
      if !ok {
        return Failed(Raised);
      }
      var version := MetaOf(metas, target.value).version;
      return if healthy then Success(version, target.value) else Warning(version, target.value);
    }

    /** Rolling back twice puts back the slot, the database and the snapshotted files that were there before. */
    method RollBackAndForward(first: Tools, second: Tools, healthy: bool) returns (there: Result, back: Result)
      requires current.Some? && current.value < 3 && Candidate(metas, current.value)
      requires forall i :: Other(current, i) && Candidate(metas, i) ==> Older(metas, i, current.value)
      modifies this
      ensures (there.Success? || there.Warning?) && (back.Success? || back.Warning?) ==>
        && current == old(current)
        && (old(Database()).Some? ==> Database() == old(Database()))
        && forall f :: f in SNAPSHOTTED && f in old(etc) ==> f in etc && etc[f] == old(etc)[f]
    {
      ghost var active := current;
      there := RunRollback(first, healthy);
      ghost var between := current;
      back := RunRollback(second, healthy);
      if (there.Success? || there.Warning?) && (back.Success? || back.Warning?) {
        assert Other(active, between.value) && Other(between, active.value);
        assert Other(between, back.slot) && Candidate(metas, back.slot);
        assert back.slot == active.value;
      }
    }
  }
  /**
   An installation without a database or files to save, whose automatic rollback puts an older snapshot
   of both in place.
   */
  method OlderSnapshotComesBack() returns (i: Installation)
    ensures fresh(i) && i.current == Some(0)
    ensures i.Database() == Some("old data") && Of(i.etc, "/etc/mcapp/config.json") == Some("old config")
  {
    i := new Installation(Some(0), map[], map[], None, "");
    i.backups := map[0 := "old data"];
    i.archives := map[0 := map["/etc/mcapp/config.json" := "old config"]];
    assert i.Database().None? && Of(i.etc, "/etc/mcapp/config.json").None?;
    assert Snapshotted(i.etc) == map[];
    var ok := i.PutBack(0, Tools(true, true, true, true), i.Keeping());
  }
}
