/**
 The promises of the register-frame salvage, for every object text and every cut of it:
 what the repair keeps, which prefixes are JSON, and when the truncation heuristic is right.
 */
module SalvageExact {
  import opened Options
  import opened Json
  import opened Scanner
  import opened Traversal
  import opened Locality
  import opened Salvage

  // ---------- The scan of a whole object text ----------

  lemma ScanBegins(t: string)
    ensures Run(t, 0) == START && OpenObjects(t, 0) == 0 && InStrings(t, 0) == NO_BRACES && Nuls(t, 0) == 0
  {
  }

  lemma ScanOpens(t: string)
    requires |t| > 0 && t[0] == '{'
    ensures Run(t, 1) == Scan(Going, 1, false, false, false, None) && Run(t, 1).AtRest()
    ensures OpenObjects(t, 1) == 1 && InStrings(t, 1) == NO_BRACES && Nuls(t, 1) == 0
  {
    hide Run, OpenObjects, InStrings, Nuls;
    ScanBegins(t);
    Advance(t, 0);
  }

  lemma ObjectTextParses(t: string)
    requires IsObjectText(t)
    ensures |t| > 0 && t[0] == '{' && Loads(t).Some?
    ensures ParseValue(t, 0) == Some((Loads(t).value, ObjectEnd(t)))
    ensures Loads(t).value == Obj(MembersOf(t))
    ensures SkipWs(t, ObjectEnd(t)) == |t|
    ensures MembersOf(t) != [] ==> ParseMembers(t, SkipWs(t, 1)) == Some((MembersOf(t), ObjectEnd(t)))
    ensures MembersOf(t) == [] ==> SkipWs(t, 1) == ObjectEnd(t) - 1 && t[ObjectEnd(t) - 1] == '}'
  {
    hide SkipWs, ParseMembers;
    assert SkipWs(t, 0) == 0 by { SkipNothing(t); }
  }

  lemma SkipNothing(t: string)
    requires |t| > 0 && t[0] == '{'
    ensures SkipWs(t, 0) == 0
  {
  }

  lemma ReachesClose(t: string)
    requires IsObjectText(t)
    ensures var c := ObjectEnd(t);
      && t[c - 1] == '}'
      && Run(t, c - 1).AtRest() && Run(t, c - 1).depth == 1
      && Counted(t, 1, c - 1, StringBraces(Loads(t).value))
  {
    hide *;
    var c, k := ObjectEnd(t), SkipWs(t, 1);
    ObjectTextParses(t);
    ScanOpens(t);
    PassWs(t, 1, k);
    if MembersOf(t) == [] {
      EmptyListsHaveNoBraces();
    } else {
      CrossToClose(t, k);
      ObjectBraces(MembersOf(t));
      CountedCompose(t, 1, k, c - 1, MembersStringBraces(MembersOf(t)));
    }
  }

  /** The scan closes at the object's own brace, having met exactly the braces its strings hold and no NUL. */
  lemma ScanCloses(t: string)
    requires IsObjectText(t)
    ensures var c := ObjectEnd(t);
      && t[c - 1] == '}'
      && Run(t, c).halt == ClosedAt(c)
      && OpenObjects(t, c) == 0
      && InStrings(t, c) == StringBraces(Loads(t).value)
      && Nuls(t, c) == 0
  {
    hide Run, OpenObjects, InStrings, Nuls, SkipWs, ParseMembers, ParseValue, Loads, StringBraces;
    ScanOpens(t);
    ReachesClose(t);
    Advance(t, ObjectEnd(t) - 1);
  }

  /** Inside the object the scan goes on, at least one object is open, and the safe point tells the members kept. */
  lemma ScanInside(t: string, n: nat)
    requires IsObjectText(t) && 1 <= n < ObjectEnd(t)
    ensures Run(t, n).halt.Going? && OpenObjects(t, n) >= 1
    ensures Kept(TextFinishes(t), n) == 0 ==> Run(t, n).safe.None?
    ensures var k, safe := Kept(TextFinishes(t), n), Run(t, n).safe;
      k > 0 ==> safe.Some? && 1 < safe.value <= n && Loads(Trimmed(t, safe.value)) == Some(Obj(MembersOf(t)[..k]))
  {
    hide *;
    var i, k := SkipWs(t, 1), Kept(TextFinishes(t), n);
    ObjectTextParses(t);
    ScanOpens(t);
    if n <= i {
      PassWs(t, 1, n);
      CalmMeans(t, 1, n);
      NothingFinishedBefore(t, n);
    } else {
      PassWs(t, 1, i);
      CalmMeans(t, 1, i);
      InsideMembers(t, n);
    }
  }

  lemma CalmMeans(s: string, i: nat, m: nat)
    requires i <= |s| && m <= |s| && Calm(s, i, m)
    ensures Run(s, m).halt.Going? && Run(s, m).safe == Run(s, i).safe && OpenObjects(s, i) <= OpenObjects(s, m)
  {
    hide Run, OpenObjects;
  }

  lemma NothingFinishedBefore(t: string, n: nat)
    requires IsObjectText(t) && n <= SkipWs(t, 1)
    ensures Kept(TextFinishes(t), n) == 0
  {
    hide SkipWs, ParseMembers, Finishes;
    if MembersOf(t) != [] {
      FinishesIncrease(t, SkipWs(t, 1));
      assert TextFinishes(t)[0] in TextFinishes(t);
    }
  }

  /** A cut behind the first key's quote. */
  lemma InsideMembers(t: string, n: nat)
    requires IsObjectText(t) && MembersOf(t) != [] && SkipWs(t, 1) <= n < ObjectEnd(t)
    requires ParseMembers(t, SkipWs(t, 1)) == Some((MembersOf(t), ObjectEnd(t)))
    requires var st := Run(t, SkipWs(t, 1)); st.AtRest() && st.depth == 1 && !st.awaiting && st.safe.None?
    requires OpenObjects(t, SkipWs(t, 1)) >= 1
    ensures Run(t, n).halt.Going? && OpenObjects(t, n) >= 1
    ensures Kept(TextFinishes(t), n) == 0 ==> Run(t, n).safe.None?
    ensures var k, safe := Kept(TextFinishes(t), n), Run(t, n).safe;
      k > 0 ==> safe.Some? && 1 < safe.value <= n && Loads(Trimmed(t, safe.value)) == Some(Obj(MembersOf(t)[..k]))
  {
    hide Run, OpenObjects, SkipWs, ParseMembers, ParseValue, Loads, Kept, Finishes, IsObjectText, ObjectEnd, MembersOf;
    var k := Kept(TextFinishes(t), n);
    CrossTopMembers(t, SkipWs(t, 1), n);
    if k > 0 {
      TrimmedLoads(t, Run(t, n).safe.value, MembersOf(t)[..k]);
    }
  }

  /** Once its members parse, the trimmed text is a whole JSON text. */
  lemma TrimmedLoads(t: string, e: nat, ms: seq<Member>)
    requires IsObjectText(t) && e <= |t| && SkipWs(t, 1) < e && ms != []
    requires ParseMembers(Trimmed(t, e), SkipWs(t, 1)) == Some((ms, e + 1))
    ensures Loads(Trimmed(t, e)) == Some(Obj(ms))
  {
    hide SkipWs, ParseMembers;
    var r, i := Trimmed(t, e), SkipWs(t, 1);
    assert r[..e] == t[..e];
    AgreeLess(t, r, i, e);
    AgreeLess(t, r, 0, e);
    LocalWs(t, r, 1, i);
    SkipNothing(r);
    MembersStartAtQuote(r, i);
  }

  lemma MembersStartAtQuote(s: string, i: nat)
    requires i <= |s| && ParseMembers(s, i).Some?
    ensures i < |s| && s[i] == '"'
  {
  }

  // ---------- The repair ----------

  /**
   Whole members only: a cut at or behind the closing brace gives the object back; any
   shorter cut gives the finished members, each with its full original value, or nothing
   when no member is finished. The discarded characters are exactly those behind the kept part.
   */
  lemma SalvageIsExact(t: string, n: nat)
    requires IsObjectText(t) && n <= |t|
    ensures var c := ObjectEnd(t);
      var k := Kept(TextFinishes(t), n);
      var r := RepairSpec(t[..n]);
      if n >= c then r == Some((t[..c], n - c)) && Loads(t[..c]) == Some(Obj(MembersOf(t)))
      else if k == 0 then r.None?
      else
        && r.Some?
        && Loads(r.value.0) == Some(Obj(MembersOf(t)[..k]))
        && r.value.0[..|r.value.0| - 1] <= t[..n]
        && |r.value.0| + r.value.1 == n + 1
  {
    hide Run, Loads, Kept, Finishes, ParseValue, ParseMembers, SkipWs, RepairSpec;
    if n == 0 {
      NothingFinishedBefore(t, 0);
      RepairOfNothing();
    } else if n >= ObjectEnd(t) {
      WholeIsKept(t, n);
    } else {
      ScanInside(t, n);
      CutIsTrimmed(t, n);
    }
  }

  lemma RepairOfNothing()
    ensures RepairSpec("").None?
  {
  }

  lemma WholeIsKept(t: string, n: nat)
    requires IsObjectText(t) && ObjectEnd(t) <= n <= |t|
    ensures var c := ObjectEnd(t);
      RepairSpec(t[..n]) == Some((t[..c], n - c)) && Loads(t[..c]) == Some(Obj(MembersOf(t)))
  {
    hide *;
    var c := ObjectEnd(t);
    assert t[..n][..n] == t[..n];
    RunPrefix(t[..n], t, n);
    ScanCloses(t);
    HaltIsFinal(t, c, n);
    ObjectTextOpens(t);
    RepairOfStopped(t[..n], c);
    assert t[..n][..c] == t[..c];
    PrefixWithClose(t, c);
    ObjectTextParses(t);
  }

  lemma ObjectTextOpens(t: string)
    requires IsObjectText(t)
    ensures t != "" && t[0] == '{' && 1 <= ObjectEnd(t) <= |t|
  {
  }

  lemma RepairOfStopped(s: string, c: nat)
    requires 1 <= c <= |s| && s[0] == '{' && Run(s, |s|).halt == ClosedAt(c)
    ensures RepairSpec(s) == Some((s[..c], |s| - c))
  {
  }

  /** The repair of a cut is told by the scan of the uncut text. */
  lemma CutIsTrimmed(t: string, n: nat)
    requires 1 <= n <= |t| && t[0] == '{' && Run(t, n).halt.Going?
    ensures var r, safe := RepairSpec(t[..n]), Run(t, n).safe;
      && (safe.None? ==> r.None?)
      && (safe.Some? ==> r == Some((Trimmed(t, safe.value), n - safe.value)))
      && (r.Some? ==> r.value.0[..|r.value.0| - 1] <= t[..n] && |r.value.0| + r.value.1 == n + 1)
  {
    hide Run;
    assert t[..n][..n] == t[..n];
    RunPrefix(t[..n], t, n);
    var safe := Run(t, n).safe;
    if safe.Some? {
      assert t[..n][..safe.value] == t[..safe.value];
      assert Trimmed(t, safe.value)[..safe.value] == t[..safe.value];
    }
  }

  // ---------- Which prefixes are JSON ----------

  /** From the closing brace on, every prefix is the same JSON object. */
  lemma PrefixWithClose(t: string, n: nat)
    requires IsObjectText(t) && ObjectEnd(t) <= n <= |t|
    ensures IsObjectText(t[..n]) && Loads(t[..n]) == Loads(t)
  {
    hide SkipWs, ParseMembers, ParseValue;
    var c, r := ObjectEnd(t), t[..n];
    ObjectTextParses(t);
    assert t[..c] == r[..c];
    LocalValue(t, r, 0);
    SkipNothing(r);
    assert r[..n] == t[..n];
    LocalWs(t, r, c, n);
  }

  /** No prefix that stops before the closing brace is a JSON text of any kind. */
  lemma NoProperPrefixIsJson(t: string, n: nat)
    requires IsObjectText(t) && n < ObjectEnd(t)
    ensures Loads(t[..n]).None?
  {
    hide Run, SkipWs, ParseMembers, ParseValue, Kept, Finishes;
    var r := t[..n];
    if Loads(r).Some? {
      if n > 0 {
        ScanInside(t, n);
        assert r[..n] == r;
        RunPrefix(r, t, n);
        ScanCloses(r);
        HaltIsFinal(r, ObjectEnd(r), n);
      }
    }
  }
}
