/**
 The one-pass character scanner behind the repair of a truncated register object
 (ble_service/src/main.py:308-433) and the brace-counting truncation heuristic
 (ble_service/src/main.py:268-291).
 */
module Scanner {
  import opened Options

  datatype Event = NoEvent | UnbalancedClose | ClosedObject | ClosedMember | Comma

  /** What the scan has found so far: still going, the outer object closed just before `end`, or a stray bracket. */
  datatype Halt = Going | ClosedAt(end: nat) | Stopped

  datatype Scan = Scan(
    halt: Halt, depth: int, inString: bool, escape: bool, awaiting: bool, safe: Option<nat>)
  {
    /** Outside every string and still scanning. */
    predicate AtRest() {
      halt.Going? && !inString && !escape
    }
  }

  /** One step inside a string literal: the new (inString, awaiting, escape, closedValue). */
  function ScanStringChar(ch: char, escape: bool, depth: int, awaiting: bool): (bool, bool, bool, bool) {
    if escape then (true, awaiting, false, false)
    else if ch == '\\' then (true, awaiting, true, false)
    else if ch == '"' then
      if depth == 1 && awaiting then (false, false, false, true) else (false, awaiting, false, false)
    else (true, awaiting, false, false)
  }

  /** One step outside every string literal: the new (inString, depth, awaiting, event). */
  function ScanStructuralChar(ch: char, depth: int, awaiting: bool): (bool, int, bool, Event) {
    if ch == '"' then (true, depth, awaiting, NoEvent)
    else if ch == '{' || ch == '[' then (false, depth + 1, awaiting, NoEvent)
    else if ch == '}' || ch == ']' then
      if depth - 1 < 0 then (false, depth - 1, awaiting, UnbalancedClose)
      else if depth - 1 == 0 then (false, depth - 1, awaiting, ClosedObject)
      else if depth - 1 == 1 then (false, depth - 1, false, ClosedMember)
      else (false, depth - 1, awaiting, NoEvent)
    else if depth == 1 && ch == ':' then (false, depth, true, NoEvent)
    else if depth == 1 && ch == ',' then (false, depth, false, Comma)
    else (false, depth, awaiting, NoEvent)
  }

  const START := Scan(Going, 0, false, false, false, None)

  /** The loop body for the character `ch` at index `i`. */
  function Step(st: Scan, i: nat, ch: char): Scan {
    if !st.halt.Going? then st
    else if st.inString then
      var (inString, awaiting, escape, closedValue) := ScanStringChar(ch, st.escape, st.depth, st.awaiting);
      Scan(Going, st.depth, inString, escape, awaiting, if closedValue then Some(i + 1) else st.safe)
    else
      var (inString, depth, awaiting, event) := ScanStructuralChar(ch, st.depth, st.awaiting);
      match event
      case UnbalancedClose => Scan(Stopped, depth, inString, st.escape, awaiting, st.safe)
      case ClosedObject => Scan(ClosedAt(i + 1), depth, inString, st.escape, awaiting, st.safe)
      case ClosedMember => Scan(Going, depth, inString, st.escape, awaiting, Some(i + 1))
      case Comma => Scan(Going, depth, inString, st.escape, awaiting, Some(i))
      case NoEvent => Scan(Going, depth, inString, st.escape, awaiting, st.safe)
  }

  /** The scan after the first `n` characters of `s`. */
  function Run(s: string, n: nat): (st: Scan)
    requires n <= |s|
    ensures st.halt.ClosedAt? ==> 1 <= st.halt.end <= n
    ensures st.safe.Some? ==> st.safe.value <= n
  {
    if n == 0 then START else Step(Run(s, n - 1), n - 1, s[n - 1])
  }

  /** What the repair returns, told by the final scan: the kept text and how many characters went. */
  function RepairSpec(s: string): (r: Option<(string, nat)>)
  {
    if |s| == 0 || s[0] != '{' then None
    else
      var st := Run(s, |s|);
      if st.halt.ClosedAt? then Some((s[..st.halt.end], |s| - st.halt.end))
      else if st.safe.None? then None
      else Some((s[..st.safe.value] + "}", |s| - st.safe.value))
  }

  lemma RunNext(s: string, i: nat)
    requires i < |s|
    ensures Run(s, 0) == Scan(Going, 0, false, false, false, None) && Run(s, i + 1) == Step(Run(s, i), i, s[i])
  {
  }

  lemma StepInString(st: Scan, i: nat, ch: char)
    requires st.halt.Going? && st.inString
    ensures var x := ScanStringChar(ch, st.escape, st.depth, st.awaiting);
      Step(st, i, ch) == Scan(Going, st.depth, x.0, x.2, x.1, if x.3 then Some(i + 1) else st.safe)
  {
  }

  lemma StepOutside(st: Scan, i: nat, ch: char)
    requires st.halt.Going? && !st.inString
    ensures var x := ScanStructuralChar(ch, st.depth, st.awaiting);
      && Step(st, i, ch).inString == x.0 && Step(st, i, ch).depth == x.1 && Step(st, i, ch).awaiting == x.2
      && Step(st, i, ch).escape == st.escape
      && Step(st, i, ch).halt == (
           if x.3.UnbalancedClose? then Stopped else if x.3.ClosedObject? then ClosedAt(i + 1) else Going)
      && Step(st, i, ch).safe == (if x.3.ClosedMember? then Some(i + 1) else if x.3.Comma? then Some(i) else st.safe)
  {
  }

  /** `_repair_truncated_json_object`: one pass, tracking string, escape, depth and awaiting-value state. */
  method Repair(s: string) returns (r: Option<(string, nat)>)
    ensures r == RepairSpec(s)
  {
    hide *;
    if |s| == 0 || s[0] != '{' {
      RepairOfOther(s);
      return None;
    }
    RunNext(s, 0);
    var depth, inString, escape, awaiting := 0, false, false, false;
    var safe: Option<nat> := None;
    var i := 0;
    while i < |s|
      invariant 0 <= i <= |s|
      invariant Run(s, i) == Scan(Going, depth, inString, escape, awaiting, safe)
    {
      var ch := s[i];
      RunNext(s, i);
      if inString {
        StepInString(Run(s, i), i, ch);
        var step := ScanStringChar(ch, escape, depth, awaiting);
        inString, awaiting, escape := step.0, step.1, step.2;
        if step.3 {
          safe := Some(i + 1);
        }
      } else {
        StepOutside(Run(s, i), i, ch);
        var step := ScanStructuralChar(ch, depth, awaiting);
        inString, depth, awaiting := step.0, step.1, step.2;
        if step.3 == UnbalancedClose {
          HaltIsFinal(s, i + 1, |s|);
          break;
        }
        if step.3 == ClosedObject {
          RepairOfClosed(s, i + 1);
          return Some((s[..i + 1], |s| - (i + 1)));
        }
        if step.3 == ClosedMember {
          safe := Some(i + 1);
        } else if step.3 == Comma {
          safe := Some(i);
        }
      }
      i := i + 1;
    }
    RepairOfOpen(s);
    if safe.None? {
      return None;
    }
    return Some((s[..safe.value] + "}", |s| - safe.value));
  }

  lemma RepairOfOther(s: string)
    requires |s| == 0 || s[0] != '{'
    ensures RepairSpec(s).None?
  {
  }

  lemma RepairOfClosed(s: string, n: nat)
    requires 1 <= n <= |s| && s[0] == '{' && Run(s, n).halt == ClosedAt(n)
    ensures RepairSpec(s) == Some((s[..n], |s| - n))
  {
    HaltIsFinal(s, n, |s|);
  }

  lemma RepairOfOpen(s: string)
    requires |s| > 0 && s[0] == '{' && !Run(s, |s|).halt.ClosedAt?
    ensures var safe := Run(s, |s|).safe;
      RepairSpec(s) == if safe.None? then None else Some((s[..safe.value] + "}", |s| - safe.value))
  {
  }

  /** Once halted, the scan ignores the rest of the text. */
  lemma {:induction false} HaltIsFinal(s: string, n: nat, m: nat)
    requires n <= m <= |s|
    requires !Run(s, n).halt.Going?
    ensures Run(s, m) == Run(s, n)
  {
    if n == m {
    } else {
      HaltIsFinal(s, n, m - 1);
    }
  }

  /** The scan of a prefix does not depend on what follows it. */
  lemma {:induction false} RunPrefix(s: string, t: string, n: nat)
    requires n <= |s| && n <= |t| && s[..n] == t[..n]
    ensures Run(s, n) == Run(t, n)
  {
    if n == 0 {
    } else {
      assert s[..n - 1] == s[..n][..n - 1] == t[..n][..n - 1] == t[..n - 1];
      assert s[n - 1] == s[..n][n - 1] == t[..n][n - 1] == t[n - 1];
      RunPrefix(s, t, n - 1);
    }
  }

  // ---------- Every input string ----------

  /**
   Whatever follows an opening brace, the depth stays at least 1 until the outer object
   closes, so a stray bracket is never met, and every safe point lies at depth 1 outside
   every string.
   */
  lemma {:induction false} ScanInvariant(s: string, n: nat)
    requires 1 <= n <= |s| && s[0] == '{'
    ensures var st := Run(s, n);
      && !st.halt.Stopped?
      && (st.halt.Going? ==> st.depth >= 1)
      && (st.escape ==> st.inString)
      && (st.halt.ClosedAt? ==> 2 <= st.halt.end)
  {
    if n == 1 {
      assert Run(s, 0) == START;
    } else {
      ScanInvariant(s, n - 1);
    }
  }

  /** A closed scan is the scan at the closing bracket. */
  lemma {:induction false} ClosedScan(s: string, n: nat)
    requires n <= |s| && Run(s, n).halt.ClosedAt?
    ensures Run(s, Run(s, n).halt.end) == Run(s, n)
  {
    if Run(s, n - 1).halt.ClosedAt? {
      ClosedScan(s, n - 1);
    }
  }

  /** Every safe point lies at depth 1, outside every string. */
  lemma {:induction false} SafePoint(s: string, n: nat)
    requires 1 <= n <= |s| && s[0] == '{' && Run(s, n).safe.Some?
    ensures var e := Run(s, n).safe.value;
      1 <= e && Run(s, e).AtRest() && Run(s, e).depth == 1
  {
    assert Run(s, 0) == START;
    if n > 1 {
      ScanInvariant(s, n - 1);
      if Run(s, n).safe == Run(s, n - 1).safe {
        SafePoint(s, n - 1);
      }
    }
  }

  /** The repaired text never lets a stray bracket stop the scan, and its length and the discard count add up. */
  lemma RepairAccounting(s: string)
    requires RepairSpec(s).Some?
    ensures var (kept, discarded) := RepairSpec(s).value;
      var closed := Run(s, |s|).halt.ClosedAt?;
      && |kept| + discarded == (if closed then |s| else |s| + 1)
      && kept[..|kept| - 1] <= s
      && (closed ==> kept <= s)
      && (!closed ==> kept[|kept| - 1] == '}')
  {
    ScanInvariant(s, |s|);
    var kept := RepairSpec(s).value.0;
    if !Run(s, |s|).halt.ClosedAt? {
      var e := Run(s, |s|).safe.value;
      assert kept[..|kept| - 1] == s[..e];
    }
  }

  /** A text whose last character closes the outer object is returned whole. */
  lemma WholeKept(s: string)
    requires |s| > 0 && s[0] == '{'
    requires Run(s, |s|).halt == ClosedAt(|s|)
    ensures RepairSpec(s) == Some((s, 0))
  {
    assert s[..|s|] == s;
  }

  /** Repairing a repaired text returns it unchanged and discards nothing. */
  lemma RepairIdempotent(s: string)
    requires RepairSpec(s).Some?
    ensures RepairSpec(RepairSpec(s).value.0) == Some((RepairSpec(s).value.0, 0))
  {
    hide Run;
    var st := Run(s, |s|);
    if st.halt.ClosedAt? {
      var kept := s[..st.halt.end];
      ClosedScan(s, |s|);
      assert kept[..|kept|] == kept;
      RunPrefix(kept, s, |kept|);
      WholeKept(kept);
    } else {
      SafePoint(s, |s|);
      TrimCloses(s, st.safe.value);
      WholeKept(s[..st.safe.value] + "}");
    }
  }

  /** Trimming at a safe point and adding a brace closes the outer object with that brace. */
  lemma TrimCloses(s: string, e: nat)
    requires 1 <= e <= |s| && Run(s, e).AtRest() && Run(s, e).depth == 1
    ensures Run(s[..e] + "}", e + 1).halt == ClosedAt(e + 1)
  {
    var kept := s[..e] + "}";
    assert kept[..e] == s[..e];
    RunPrefix(kept, s, e);
    assert kept[e] == '}';
  }

  /** A longer cut of the same text never keeps less. */
  lemma {:induction false} RepairGrows(s: string, n: nat, m: nat)
    requires n <= m <= |s|
    requires RepairSpec(s[..n]).Some?
    ensures RepairSpec(s[..m]).Some?
    ensures |RepairSpec(s[..n]).value.0| <= |RepairSpec(s[..m]).value.0|
  {
    RunPrefix(s, s[..n], n);
    RunPrefix(s, s[..m], m);
    assert s[0] == s[..n][0];
    ScanInvariant(s, n);
    ScanInvariant(s, m);
    SafeGrows(s, n, m);
  }

  lemma {:induction false} SafeGrows(s: string, n: nat, m: nat)
    requires 1 <= n <= m <= |s| && s[0] == '{'
    ensures Run(s, n).halt.ClosedAt? ==> Run(s, m) == Run(s, n)
    ensures Run(s, n).safe.Some? ==> Run(s, m).safe.Some? && Run(s, n).safe.value <= Run(s, m).safe.value
    ensures Run(s, n).halt.Going? && Run(s, m).halt.ClosedAt? ==> n < Run(s, m).halt.end
  {
    hide Run, Step;
    if n == m {
    } else {
      SafeGrows(s, n, m - 1);
      ScanInvariant(s, m - 1);
      RunNext(s, m - 1);
      StepKeepsSafe(Run(s, m - 1), m - 1, s[m - 1]);
    }
  }

  /** One step keeps a safe point or moves it on, and closes only at its own character. */
  lemma StepKeepsSafe(st: Scan, i: nat, ch: char)
    ensures var n := Step(st, i, ch);
      && (st.safe.Some? && st.safe.value <= i ==> n.safe.Some? && st.safe.value <= n.safe.value)
      && (!st.halt.Going? ==> n == st)
      && (st.halt.Going? && n.halt.ClosedAt? ==> n.halt.end == i + 1)
  {
  }
}
