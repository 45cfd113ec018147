/// The rewriting `readIn` applies to every line before it is dispatched:
/// `checkInput` (withingb3.c:280-322) with `searchBackg` (withingb3.c:167-177)
/// and the foreground-only toggle `catchSIGTSTP` (withingb3.c:125-152), stated
/// as functions of the line buffer `proginp` and the flags they touch.
module LineRewrite {
  import opened CStrings
  import Decimal

  /** The globals the toggle and the background step work on: `TSTPflag`
      (foreground-only mode is on), `backgrFlag` (the next external command
      runs in the background) and `numSignals`. */
  datatype Mode = Mode(tstp: bool, backgr: bool, numSignals: int)

  /** The line buffer `proginp` together with the flags. */
  datatype LineState = LineState(line: CString, mode: Mode)

  /** The flags as the shell starts (withingb3.c:66, 81-82). */
  const InitialMode := Mode(false, false, 0)

  /** In foreground-only mode no background launch is pending. */
  predicate ForegroundOnlyHolds(m: Mode)
  {
    m.tstp ==> !m.backgr
  }

  // ---------------------------------------------------------------------
  // catchSIGTSTP

  /** One delivery of SIGTSTP, or one line mentioning TSTP: entering
      foreground-only mode clears `backgrFlag` and restarts the signal count
      at one; leaving it only counts the signal. */
  function Toggle(m: Mode): (r: Mode)
    ensures r.tstp == !m.tstp
    ensures r.tstp ==> !r.backgr && r.numSignals == 1
    ensures !r.tstp ==> r.backgr == m.backgr && r.numSignals == m.numSignals + 1
    ensures ForegroundOnlyHolds(r)
  {
    if !m.tstp then Mode(true, false, 0 + 1)
    else m.(tstp := false, numSignals := m.numSignals + 1)
  }

  /** `k` toggles in a row. */
  function Toggles(m: Mode, k: nat): Mode
  {
    if k == 0 then m else Toggle(Toggles(m, k - 1))
  }

  /** Each toggle flips the mode, so an even number of toggles restores it;
      after any toggle, being in foreground-only mode means the last toggle
      entered it, with nothing pending in the background and a count of one. */
  lemma {:induction false} TogglesParity(m: Mode, k: nat)
    ensures Toggles(m, k).tstp == (m.tstp == (k % 2 == 0))
    ensures k > 0 && Toggles(m, k).tstp ==>
              !Toggles(m, k).backgr && Toggles(m, k).numSignals == 1
    ensures ForegroundOnlyHolds(m) ==> ForegroundOnlyHolds(Toggles(m, k))
  {
    if k > 0 {
      TogglesParity(m, k - 1);
    }
  }

  /** Two toggles return to the starting mode; starting outside
      foreground-only mode they also drop any pending background request and
      leave the count at two. */
  lemma ToggleTwice(m: Mode)
    ensures Toggle(Toggle(m)).tstp == m.tstp
    ensures !m.tstp ==> Toggle(Toggle(m)) == Mode(false, false, 2)
    ensures m.tstp ==> Toggle(Toggle(m)) == Mode(true, false, 1)
  {
  }

  // ---------------------------------------------------------------------
  // The background step: checkInput's first test and searchBackg

  /** `strEquals(out, "echo")`, where `out` holds the first four characters
      `readIn` copied from the line (withingb3.c:210, 222, 297). */
  predicate IsEcho(line: CString)
  {
    StrEquals(Take(line, 4), "echo")
  }

  /** The line is not an `echo` and holds an `&` somewhere, so
      `searchBackg` runs (withingb3.c:297-303). */
  predicate BackgroundMarked(line: CString)
  {
    !IsEcho(line) && '&' in line
  }

  /** The source subtracts 2 from `strlen` unchecked: lines on which
      `searchBackg` runs must have two characters to drop. */
  predicate Droppable(line: CString)
  {
    BackgroundMarked(line) ==> |line| >= 2
  }

  /** `searchBackg`: drop the last two characters of the buffer, and request
      background execution unless foreground-only mode is on. */
  function SearchBackg(s: LineState): (r: LineState)
    requires |s.line| >= 2
    ensures |r.line| == |s.line| - 2 && r.line <= s.line
    ensures r.mode.tstp == s.mode.tstp && r.mode.numSignals == s.mode.numSignals
    ensures r.mode.backgr == (s.mode.backgr || !s.mode.tstp)
    ensures ForegroundOnlyHolds(s.mode) ==> ForegroundOnlyHolds(r.mode)
  {
    LineState(s.line[..|s.line| - 2], if s.mode.tstp then s.mode else s.mode.(backgr := true))
  }

  /** The buffer after the background step. */
  function BackgroundStep(s: LineState): LineState
    requires Droppable(s.line)
  {
    if BackgroundMarked(s.line) then SearchBackg(s) else s
  }

  // ---------------------------------------------------------------------
  // The `$$` step

  /** The `$$` step fires on a buffer holding `$$` and no `TSTP`
      (withingb3.c:306-307). */
  predicate ExpandsPid(line: CString)
  {
    !Contains(line, "TSTP") && Contains(line, "$$")
  }

  /** The `$$` step as written: the last two characters, which the source
      takes to be the `$$`, are replaced by the decimal process id. */
  function ExpandPid(line: CString, ppid: nat): (r: CString)
    ensures ExpandsPid(line) ==> |line| >= 2 && line[..|line| - 2] <= r
    ensures !ExpandsPid(line) ==> r == line
  {
    if ExpandsPid(line) then
      ContainsLength(line, "$$");
      line[..|line| - 2] + Decimal.Format(ppid)
    else line
  }

  // ---------------------------------------------------------------------
  // checkInput

  /** `checkInput` on the buffer `s.line`: the background step, then the `$$`
      step on the rewritten buffer, then one toggle if that buffer holds
      `TSTP`. `ppid` is what `getppid()` returns. */
  function CheckInput(s: LineState, ppid: nat): (r: LineState)
    requires Droppable(s.line)
    ensures Contains(r.line, "TSTP") <==> Contains(BackgroundStep(s).line, "TSTP")
    ensures r.mode.tstp == (s.mode.tstp != Contains(r.line, "TSTP"))
    ensures !BackgroundMarked(s.line) && !Contains(s.line, "$$") && !Contains(s.line, "TSTP") ==> r == s
  {
    var b := BackgroundStep(s);
    ExpandPidSpec(b.line, ppid);
    var expanded := ExpandPid(b.line, ppid);
    LineState(expanded, if Contains(expanded, "TSTP") then Toggle(b.mode) else b.mode)
  }

  /** The line as dispatch sees it: the rewriting does not depend on the
      flags. */
  function Rewritten(line: CString, ppid: nat): CString
    requires Droppable(line)
  {
    CheckInput(LineState(line, InitialMode), ppid).line
  }

  /** The rewritten line is the same whatever the flags were. */
  lemma RewriteIgnoresFlags(line: CString, m: Mode, ppid: nat)
    requires Droppable(line)
    ensures CheckInput(LineState(line, m), ppid).line == Rewritten(line, ppid)
  {
  }

  // ---------------------------------------------------------------------
  // Properties of the rewriting

  /** A digit string has no `T`, so it cannot complete a `TSTP`. */
  lemma {:induction false} NoTstpAcrossDigits(a: CString, d: CString)
    requires !Contains(a, "TSTP") && Decimal.AllDigits(d)
    ensures !Contains(a + d, "TSTP")
  {
    ContainsAt(a + d, "TSTP");
    ContainsAt(a, "TSTP");
    forall i: nat | i + 4 <= |a + d|
      ensures !OccursAt(a + d, "TSTP", i)
    {
      if i + 4 <= |a| {
        assert (a + d)[i..i + 4] == a[i..i + 4];
        assert !OccursAt(a, "TSTP", i);
      } else {
        assert (a + d)[i..i + 4][3] == d[i + 3 - |a|];
        assert Decimal.IsDigit(d[i + 3 - |a|]);
      }
    }
  }

  /** A prefix of a string without `TSTP` has none either. */
  lemma PrefixKeepsNoTstp(a: CString, k: nat)
    requires k <= |a| && !Contains(a, "TSTP")
    ensures !Contains(a[..k], "TSTP")
  {
    assert a[..k] + a[k..] == a;
    ContainsExtends(a[..k], a[k..], "TSTP");
  }

  /** The `$$` step replaces the last two characters by the decimal process
      id, which reads back as that id, and never introduces a `TSTP`; a
      buffer it does not fire on is left alone. */
  lemma ExpandPidSpec(line: CString, ppid: nat)
    ensures var r := ExpandPid(line, ppid);
      if ExpandsPid(line) then
        |line| >= 2 && |r| == |line| - 2 + |Decimal.Format(ppid)| &&
        r[..|line| - 2] == line[..|line| - 2] &&
        Decimal.AllDigits(r[|line| - 2..]) && Decimal.Parse(r[|line| - 2..]) == ppid
      else r == line
    ensures !Contains(line, "TSTP") ==> !Contains(ExpandPid(line, ppid), "TSTP")
  {
    if ExpandsPid(line) {
      ContainsLength(line, "$$");
      var r := ExpandPid(line, ppid);
      assert r[|line| - 2..] == Decimal.Format(ppid);
      Decimal.ParseFormat(ppid);
      PrefixKeepsNoTstp(line, |line| - 2);
      NoTstpAcrossDigits(line[..|line| - 2], Decimal.Format(ppid));
    }
  }

  /** A line triggers exactly one toggle when the buffer left by the
      background step holds `TSTP`, and none otherwise. */
  lemma CheckInputToggles(s: LineState, ppid: nat)
    requires Droppable(s.line)
    ensures CheckInput(s, ppid).mode.tstp ==
              (s.mode.tstp != Contains(BackgroundStep(s).line, "TSTP"))
  {
    ExpandPidSpec(BackgroundStep(s).line, ppid);
  }

  /** `backgrFlag` after `checkInput`: a background request is made only by
      an `&` line outside foreground-only mode, and foreground-only mode
      never leaves one pending. */
  lemma CheckInputBackground(s: LineState, ppid: nat)
    requires Droppable(s.line)
    ensures var r := CheckInput(s, ppid).mode;
      (r.backgr ==> s.mode.backgr || BackgroundMarked(s.line)) &&
      (ForegroundOnlyHolds(s.mode) ==> ForegroundOnlyHolds(r))
    ensures !s.mode.tstp && BackgroundMarked(s.line) &&
            !Contains(BackgroundStep(s).line, "TSTP")
            ==> CheckInput(s, ppid).mode.backgr
    ensures CheckInput(s, ppid).mode.backgr && !s.mode.backgr ==>
              !s.mode.tstp && BackgroundMarked(s.line)
  {
    CheckInputToggles(s, ppid);
  }

  /** The background step runs first, on the same buffer: a line
      `q$$ &` that is not an echo loses its ` &`, which leaves the `$$`
      trailing, so the `$$` step then replaces exactly the sentinel. */
  lemma MarkerStrippedBeforeExpansion(q: CString, m: Mode, ppid: nat)
    requires !Contains(q + "$$", "TSTP")
    requires !IsEcho(q + "$$ &")
    ensures CheckInput(LineState(q + "$$ &", m), ppid) ==
              LineState(q + Decimal.Format(ppid),
                        if m.tstp then m else m.(backgr := true))
  {
    var line := q + "$$ &";
    assert line[|line| - 1] == '&';
    assert line[..|line| - 2] == q + "$$";
    assert OccursAt(q + "$$", "$$", |q|);
    ContainsAt(q + "$$", "$$");
    var expanded := q + Decimal.Format(ppid);
    assert ExpandPid(q + "$$", ppid) == expanded;
    ExpandPidSpec(q + "$$", ppid);
  }

  // ---------------------------------------------------------------------
  // Full expansion, the reference the `$$` step is measured against

  /** Every non-overlapping `$$`, scanning left to right, replaced by `d`. */
  function ExpandAll(s: CString, d: CString): CString
    decreases |s|
  {
    if |s| < 2 then s
    else if s[0] == '$' && s[1] == '$' then d + ExpandAll(s[2..], d)
    else [s[0]] + ExpandAll(s[1..], d)
  }

  /** A `$$` inside a concatenation lies in one part or straddles the seam. */
  lemma SentinelInConcat(a: CString, b: CString)
    ensures Contains(a + b, "$$") ==>
              Contains(a, "$$") || Contains(b, "$$") ||
              (a != [] && b != [] && a[|a| - 1] == '$' && b[0] == '$')
  {
    ContainsAt(a + b, "$$");
    ContainsAt(a, "$$");
    ContainsAt(b, "$$");
    if Contains(a + b, "$$") {
      var i: nat :| OccursAt(a + b, "$$", i);
      if i + 2 <= |a| {
        assert a[i..i + 2] == (a + b)[i..i + 2];
        assert OccursAt(a, "$$", i);
      } else if i >= |a| {
        assert b[i - |a|..i - |a| + 2] == (a + b)[i..i + 2];
        assert OccursAt(b, "$$", i - |a|);
      } else {
        assert (a + b)[i..i + 2][0] == a[|a| - 1];
        assert (a + b)[i..i + 2][1] == b[0];
      }
    }
  }

  /** A string with no `$` holds no `$$`. */
  lemma NoSentinelWithoutDollar(s: CString)
    requires '$' !in s
    ensures !Contains(s, "$$")
  {
    ContainsAt(s, "$$");
    forall i: nat | i + 2 <= |s|
      ensures !OccursAt(s, "$$", i)
    {
      assert s[i] in s;
      assert s[i..i + 2][0] == s[i];
    }
  }

  /** A string that does not begin with `$$` keeps its first character. */
  lemma ExpandAllHead(s: CString, d: CString)
    requires s != [] && !(|s| >= 2 && s[0] == '$' && s[1] == '$')
    ensures ExpandAll(s, d) != [] && ExpandAll(s, d)[0] == s[0]
  {
  }

  /** With a replacement free of `$`, full expansion leaves no `$$`. */
  lemma {:induction false} ExpandAllRemovesSentinels(s: CString, d: CString)
    requires '$' !in d
    ensures !Contains(ExpandAll(s, d), "$$")
    decreases |s|
  {
    if |s| < 2 {
      ContainsLength(s, "$$");
    } else if s[0] == '$' && s[1] == '$' {
      ExpandAllRemovesSentinels(s[2..], d);
      NoSentinelWithoutDollar(d);
      SentinelInConcat(d, ExpandAll(s[2..], d));
      if d != [] { assert d[|d| - 1] in d; }
    } else {
      ExpandAllRemovesSentinels(s[1..], d);
      SentinelInConcat([s[0]], ExpandAll(s[1..], d));
      ContainsLength([s[0]], "$$");
      if s[0] == '$' {
        ExpandAllHead(s[1..], d);
      }
    }
  }

  /** A line without `$$` is left unchanged by full expansion, so expanding
      twice is expanding once. */
  lemma {:induction false} ExpandAllIdentity(s: CString, d: CString)
    requires !Contains(s, "$$")
    ensures ExpandAll(s, d) == s
    decreases |s|
  {
    if |s| >= 2 {
      assert !StartsWith(s, "$$");
      ExpandAllIdentity(s[1..], d);
      assert s == [s[0]] + s[1..];
    }
  }

  lemma ExpandAllIdempotent(s: CString, d: CString)
    requires '$' !in d
    ensures ExpandAll(ExpandAll(s, d), d) == ExpandAll(s, d)
  {
    ExpandAllRemovesSentinels(s, d);
    ExpandAllIdentity(ExpandAll(s, d), d);
  }

  /** A line whose only `$$` is its last two characters, not preceded by a
      third `$`, is expanded alike by both. */
  lemma {:induction false} ExpandAllTrailing(q: CString, d: CString)
    requires !Contains(q, "$$") && (q != [] ==> q[|q| - 1] != '$')
    ensures ExpandAll(q + "$$", d) == q + d
    decreases |q|
  {
    var s := q + "$$";
    if q == [] {
      assert s == "$$" && s[2..] == [];
    } else {
      assert s[0] == q[0];
      assert !(s[0] == '$' && s[1] == '$') by {
        if |q| >= 2 {
          assert !StartsWith(q, "$$");
          assert s[1] == q[1];
        } else {
          assert q[|q| - 1] == q[0];
        }
      }
      assert s[1..] == q[1..] + "$$";
      assert !Contains(q[1..], "$$");
      ExpandAllTrailing(q[1..], d);
      calc {
        ExpandAll(s, d);
        [s[0]] + ExpandAll(s[1..], d);
        [q[0]] + (q[1..] + d);
        { assert q == [q[0]] + q[1..]; }
        q + d;
      }
    }
  }

  /** The `$$` step as written agrees with full expansion on lines whose only
      sentinel is trailing. */
  lemma TrailingSentinelExpandsFully(q: CString, ppid: nat)
    requires !Contains(q, "$$") && (q != [] ==> q[|q| - 1] != '$')
    requires !Contains(q + "$$", "TSTP")
    ensures ExpandPid(q + "$$", ppid) == ExpandAll(q + "$$", Decimal.Format(ppid))
  {
    assert OccursAt(q + "$$", "$$", |q|);
    ContainsAt(q + "$$", "$$");
    assert (q + "$$")[..|q|] == q;
    ExpandAllTrailing(q, Decimal.Format(ppid));
  }

  /** A `$$` in mid-line is not expanded as written: the step drops the last
      two characters instead, so the sentinel survives and the end of the line
      is lost. */
  lemma MidLineSentinelSurvives(ppid: nat)
    ensures ExpandPid("echo $$ x", ppid) == "echo $$" + Decimal.Format(ppid)
    ensures Contains(ExpandPid("echo $$ x", ppid), "$$")
  {
    var line := "echo $$ x";
    assert OccursAt(line, "$$", 5);
    ContainsAt(line, "$$");
    ContainsAt(line, "TSTP");
    forall i: nat | i + 4 <= |line|
      ensures !OccursAt(line, "TSTP", i)
    {
      assert line[i..i + 4][0] == line[i] != 'T';
    }
    assert ExpandsPid(line);
    assert line[..|line| - 2] == "echo $$";
    var r := ExpandPid(line, ppid);
    assert r == "echo $$" + Decimal.Format(ppid);
    assert OccursAt(r, "$$", 5);
    ContainsAt(r, "$$");
  }
}
