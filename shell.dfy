/// The shell's global state (withingb3.c:63-83) as one object, and the
/// procedures that update it in place: `catchSIGTSTP`, `searchBackg`,
/// `checkInput`, `bCMDs`, the parent side of `progFork` with
/// `checkParents`, and the `do`-`while` loop of `main`. Each method is tied
/// to the functions of LineRewrite, Dispatch and Redirection that state what
/// it computes.
module SmallShell {
  import opened CStrings
  import opened Options
  import Decimal
  import opened LineRewrite
  import opened Dispatch
  import Redirection

  /** The capacity of `processArrBG` (withingb3.c:77). */
  const MaxBackground := 40

  /** What the operating system answers while one line is dispatched: the
      working directory (`getcwd`), `$HOME` (`getenv`), what `fork` returned
      in this process, the status word `waitpid` stored (none when it stored
      nothing), and which paths `open` succeeds on for reading and for
      writing. */
  datatype Os = Os(cwd: CString, home: CString, forkResult: int, waitStatus: Option<int>,
                   readable: set<CString>, writable: set<CString>)

  /** What one call of `bCMDs` amounts to: a built-in's decision, the child's
      preparation of `execvp` after `fork` returned 0, or, in the parent, the
      child's pid and whether it was left running in the background. */
  datatype Effect =
    | Builtin(action: Action)
    | InChild(outcome: Redirection.ChildOutcome)
    | Forked(pid: int, background: bool)

  /** The scalar globals: `proginp`, the toggle flags, `backgroundFlag` (the
      main loop goes on), `exitTheChild` (the last status word) and
      `overallProcessCount`. */
  datatype Globals = Globals(proginp: CString, mode: Mode, backgroundFlag: bool,
                             exitTheChild: int, overallProcessCount: nat)

  /** The globals with a new line buffer and flags. */
  function WithLine(g: Globals, s: LineState): Globals
  {
    g.(proginp := s.line, mode := s.mode)
  }

  /** Every line can go through `searchBackg` (see `Droppable`). */
  predicate AllDroppable(lines: seq<CString>)
  {
    forall j :: 0 <= j < |lines| ==> Droppable(lines[j])
  }

  /** The index of the first line that reads `exit` once rewritten, or the
      number of lines when none does. */
  function ExitAt(lines: seq<CString>, ppid: nat): (k: nat)
    requires AllDroppable(lines)
    ensures k <= |lines|
    ensures forall j {:trigger Rewritten(lines[j], ppid)} :: 0 <= j < k ==> Rewritten(lines[j], ppid) != "exit"
    ensures k < |lines| ==> Rewritten(lines[k], ppid) == "exit"
  {
    if lines == [] then 0
    else if Rewritten(lines[0], ppid) == "exit" then 0
    else 1 + ExitAt(lines[1..], ppid)
  }

  /** The flags after one pass of the loop from `m`: `checkInput` rewrites
      them and `bCMDs` clears the background request. */
  function CycleMode(m: Mode, line: CString, ppid: nat): (r: Mode)
    requires Droppable(line)
    ensures !r.backgr
    ensures r.tstp == (m.tstp != Contains(Rewritten(line, ppid), "TSTP"))
  {
    RewriteIgnoresFlags(line, m, ppid);
    CheckInput(LineState(line, m), ppid).mode.(backgr := false)
  }

  /** The flags after the loop has passed over the first `n` of `lines` in
      order, from `m`. */
  function ModesAfter(m: Mode, lines: seq<CString>, n: nat, ppid: nat): (r: Mode)
    requires AllDroppable(lines)
    requires n <= |lines|
    ensures n > 0 ==> !r.backgr
  {
    if n == 0 then m
    else CycleMode(ModesAfter(m, lines, n - 1, ppid), lines[n - 1], ppid)
  }

  /** `progFork` calls `attachChildpid` for an external line mentioning
      `kill` once a signal has been counted (withingb3.c:489); this is the
      condition under which a line, read with flags `m`, does not get there. */
  predicate AttachSkipped(m: Mode, line: CString, ppid: nat)
    requires Droppable(line)
  {
    Classify(Rewritten(line, ppid)) == External && CheckInput(LineState(line, m), ppid).mode.numSignals > 0 ==>
      !Contains(Rewritten(line, ppid), "kill")
  }

  /** The pids one pass over `line`, read with flags `m`, records: the
      child's, when the line is external, this is the parent, and the line
      asked for the background (withingb3.c:523-528). */
  function PassJobs(m: Mode, line: CString, os: Os, ppid: nat): (pids: seq<int>)
    requires Droppable(line)
    ensures |pids| <= 1
    ensures pids != [] ==> pids == [os.forkResult] && Classify(Rewritten(line, ppid)) == External
  {
    if Classify(Rewritten(line, ppid)) == External && os.forkResult != 0 &&
       CheckInput(LineState(line, m), ppid).mode.backgr
    then [os.forkResult]
    else []
  }

  /** `exitTheChild` after one pass over `line` from `status`: the status
      word `waitpid` stored, for an external line in the parent, and
      `status` otherwise. */
  function PassStatus(line: CString, os: Os, ppid: nat, status: int): (r: int)
    requires Droppable(line)
    ensures r != status ==> os.waitStatus == Some(r)
    ensures Classify(Rewritten(line, ppid)) != External ==> r == status
  {
    if Classify(Rewritten(line, ppid)) == External && os.forkResult != 0 && os.waitStatus.Some?
    then os.waitStatus.value
    else status
  }

  /** No line of `lines`, read with the flags the lines before it left,
      gets to `attachChildpid`. */
  predicate AttachSkippedThroughout(m: Mode, lines: seq<CString>, ppid: nat)
    requires AllDroppable(lines)
  {
    forall k {:trigger AttachSkipped(ModesAfter(m, lines, k, ppid), lines[k], ppid)} ::
      0 <= k < |lines| ==> AttachSkipped(ModesAfter(m, lines, k, ppid), lines[k], ppid)
  }

  lemma AttachSkippedAt(m: Mode, lines: seq<CString>, k: nat, ppid: nat)
    requires AllDroppable(lines)
    requires AttachSkippedThroughout(m, lines, ppid) && k < |lines|
    ensures AttachSkipped(ModesAfter(m, lines, k, ppid), lines[k], ppid)
  {
  }

  /** A line before the first `exit` that is not `exit` itself is not the
      first `exit` either. */
  lemma ExitAtPasses(lines: seq<CString>, c: nat, ppid: nat)
    requires AllDroppable(lines)
    requires c < |lines| && c <= ExitAt(lines, ppid)
    requires Rewritten(lines[c], ppid) != "exit"
    ensures c < ExitAt(lines, ppid)
  {
  }

  /** The first line that reads `exit` once rewritten, reached with no
      `exit` before it, is where `ExitAt` points. */
  lemma ExitAtStops(lines: seq<CString>, c: nat, ppid: nat)
    requires AllDroppable(lines)
    requires c < |lines| && c <= ExitAt(lines, ppid)
    requires Rewritten(lines[c], ppid) == "exit"
    ensures c == ExitAt(lines, ppid)
  {
  }

  class Shell {
    var proginp: CString
    var tstpFlag: bool
    var backgrFlag: bool
    var numSignals: int
    var backgroundFlag: bool
    var exitTheChild: int
    const processArrBG: array<int>
    var overallProcessCount: nat

    function Flags(): Mode
      reads this
    {
      Mode(tstpFlag, backgrFlag, numSignals)
    }

    function Buffer(): LineState
      reads this
    {
      LineState(proginp, Flags())
    }

    function State(): Globals
      reads this
    {
      Globals(proginp, Flags(), backgroundFlag, exitTheChild, overallProcessCount)
    }

    /** The pid table has its 40 slots, the count stays within them, and
        foreground-only mode leaves no background request pending. */
    ghost predicate Valid()
      reads this
    {
      processArrBG.Length == MaxBackground &&
      overallProcessCount <= MaxBackground &&
      ForegroundOnlyHolds(Flags())
    }

    /** The pids of the background children launched so far, in launch
        order. */
    ghost function Jobs(): seq<int>
      reads this, processArrBG
      requires Valid()
    {
      processArrBG[..overallProcessCount]
    }

    /** The globals as the program starts (withingb3.c:63-83). */
    constructor ()
      ensures Valid() && fresh(processArrBG)
      ensures State() == Globals([], InitialMode, true, -2, 0)
      ensures Jobs() == [] && processArrBG[..] == seq(MaxBackground, _ => 0)
    {
      proginp := [];
      tstpFlag, backgrFlag, numSignals := false, false, 0;
      backgroundFlag := true;
      exitTheChild := -2;
      processArrBG := new int[MaxBackground](_ => 0);
      overallProcessCount := 0;
    }

    /** `catchSIGTSTP` (withingb3.c:125-152), run by the SIGTSTP handler or
        for a line mentioning TSTP; the messages it writes are left out. */
    method CatchSigtstp()
      requires Valid()
      modifies this
      ensures Valid()
      ensures State() == old(State()).(mode := Toggle(old(Flags())))
    {
      if !tstpFlag {
        numSignals := 0;
        backgrFlag := false;
        tstpFlag := true;
        numSignals := numSignals + 1;
      } else {
        tstpFlag := false;
        numSignals := numSignals + 1;
      }
    }

    /** `searchBackg` (withingb3.c:167-177). */
    method SearchBackg()
      requires Valid() && |proginp| >= 2
      modifies this
      ensures Valid()
      ensures State() == WithLine(old(State()), LineRewrite.SearchBackg(old(Buffer())))
    {
      if !tstpFlag {
        backgrFlag := true;
      }
      proginp := proginp[..|proginp| - 2];
    }

    /** `checkInput` (withingb3.c:280-322) on the line `readIn` stored in
        `proginp`, with `out` its first four characters (withingb3.c:222);
        `ppid` is what `getppid()` returns. */
    method CheckInput(ppid: nat)
      requires Valid() && Droppable(proginp)
      modifies this
      ensures Valid()
      ensures State() == WithLine(old(State()), LineRewrite.CheckInput(old(Buffer()), ppid))
    {
      var out := Take(proginp, 4);
      if !StrEquals(out, "echo") {
        if '&' in proginp {
          SearchBackg();
        }
      }
      if !Contains(proginp, "TSTP") && Contains(proginp, "$$") {
        ContainsLength(proginp, "$$");
        proginp := proginp[..|proginp| - 2] + Decimal.Format(ppid);
      }
      if Contains(proginp, "TSTP") {
        CatchSigtstp();
      }
    }

    /** `checkParents` (withingb3.c:523-539) with the pid `fork` returned: a
        background child is recorded at `processArrBG[overallProcessCount]`,
        the count goes up and the request is cleared; a foreground child is
        waited for. `waitStatus` is what `waitpid` stored, if anything. */
    method CheckParents(forkPid: int, waitStatus: Option<int>)
      requires Valid()
      requires backgrFlag ==> overallProcessCount < MaxBackground
      modifies this, processArrBG
      ensures Valid()
      ensures Jobs() == old(Jobs()) + (if old(backgrFlag) then [forkPid] else [])
      ensures processArrBG[overallProcessCount..] == old(processArrBG[..])[overallProcessCount..]
      ensures State() == old(State()).(
                mode := old(Flags()).(backgr := false),
                exitTheChild := if waitStatus.Some? then waitStatus.value else old(exitTheChild),
                overallProcessCount := old(overallProcessCount) + (if old(backgrFlag) then 1 else 0))
    {
      if backgrFlag {
        processArrBG[overallProcessCount] := forkPid;
        overallProcessCount := overallProcessCount + 1;
        if waitStatus.Some? {
          exitTheChild := waitStatus.value;
        }
        backgrFlag := false;
      } else {
        if waitStatus.Some? {
          exitTheChild := waitStatus.value;
        }
      }
    }

    /** `bCMDs` (withingb3.c:345-403) on the rewritten line: exactly one
        branch runs, in the order comment, `status`, `cd`, `exit`, external;
        only `exit` clears `backgroundFlag`; an external command is forked
        (`progFork`, withingb3.c:484-500), the child preparing `execvp` and
        the parent recording or waiting for it; the background request is
        cleared at the end whatever branch ran. `progFork` also calls
        `attachChildpid` when a signal was counted and the line mentions
        `kill`; that case is excluded here, as is a background fork with
        the pid table full. A child never comes back from
        `redirectionCms`, so what this method leaves in the globals in that
        case is never observed. */
    method BuiltinCommands(os: Os) returns (effect: Effect)
      requires Valid()
      requires Classify(proginp) == External && os.forkResult != 0 && backgrFlag ==>
                 overallProcessCount < MaxBackground
      requires Classify(proginp) == External ==> !(numSignals > 0 && Contains(proginp, "kill"))
      modifies this, processArrBG
      ensures Valid()
      ensures !backgrFlag && proginp == old(proginp)
      ensures overallProcessCount <= old(overallProcessCount) + 1
      ensures old(Jobs()) <= Jobs()
      ensures tstpFlag == old(tstpFlag) && numSignals == old(numSignals)
      ensures backgroundFlag == (old(backgroundFlag) && old(proginp) != "exit")
      ensures Classify(old(proginp)) != External ==>
                effect == Builtin(Decide(old(proginp), os.cwd, os.home, old(exitTheChild))) &&
                Jobs() == old(Jobs()) && exitTheChild == old(exitTheChild)
      ensures Classify(old(proginp)) == External && os.forkResult == 0 ==>
                effect == InChild(Redirection.Plan(Redirection.Tokens(old(proginp)), os.readable, os.writable))
      ensures Classify(old(proginp)) == External && os.forkResult != 0 ==>
                effect == Forked(os.forkResult, old(backgrFlag)) &&
                Jobs() == old(Jobs()) + (if old(backgrFlag) then [os.forkResult] else []) &&
                exitTheChild == (if os.waitStatus.Some? then os.waitStatus.value else old(exitTheChild))
    {
      var kind := Classify(proginp);
      if kind == Comment {
        effect := Builtin(NoAction);
      } else if kind == Status {
        effect := Builtin(PrintExitValue(ExitStatus(exitTheChild)));
      } else if kind == ChangeDir {
        effect := Builtin(Chdir(CdTarget(proginp, os.cwd, os.home)));
      } else if kind == Exit {
        backgroundFlag := false;
        effect := Builtin(StopLoop);
      } else {
        if os.forkResult == 0 {
          var outcome := Redirection.RedirectionCms(proginp, os.readable, os.writable);
          effect := InChild(outcome);
        } else {
          var background := backgrFlag;
          CheckParents(os.forkResult, os.waitStatus);
          effect := Forked(os.forkResult, background);
        }
      }
      backgrFlag := false;
    }

    /** One pass of the loop of `main` after `processTracker`: `readIn`
        stores the line and rewrites it with `checkInput`, then `bCMDs`
        dispatches it. */
    method Cycle(line: CString, os: Os, ppid: nat) returns (effect: Effect)
      requires Valid() && backgroundFlag && Droppable(line)
      requires AttachSkipped(Flags(), line, ppid)
      requires (Classify(Rewritten(line, ppid)) == External && os.forkResult != 0 &&
                LineRewrite.CheckInput(LineState(line, Flags()), ppid).mode.backgr) ==>
                 overallProcessCount < MaxBackground
      modifies this, processArrBG
      ensures Valid()
      ensures proginp == Rewritten(line, ppid)
      ensures Flags() == CycleMode(old(Flags()), line, ppid)
      ensures backgroundFlag == (Rewritten(line, ppid) != "exit")
      ensures overallProcessCount <= old(overallProcessCount) + 1
      ensures old(Jobs()) <= Jobs()
      ensures var r := Rewritten(line, ppid);
        Classify(r) != External ==>
          effect == Builtin(Decide(r, os.cwd, os.home, old(exitTheChild))) &&
          Jobs() == old(Jobs()) && exitTheChild == old(exitTheChild)
      ensures var r := Rewritten(line, ppid);
        Classify(r) == External && os.forkResult == 0 ==>
          effect == InChild(Redirection.Plan(Redirection.Tokens(r), os.readable, os.writable))
      ensures var r := Rewritten(line, ppid);
        var bg := LineRewrite.CheckInput(LineState(line, old(Flags())), ppid).mode.backgr;
        Classify(r) == External && os.forkResult != 0 ==>
          effect == Forked(os.forkResult, bg) &&
          Jobs() == old(Jobs()) + (if bg then [os.forkResult] else []) &&
          exitTheChild == (if os.waitStatus.Some? then os.waitStatus.value else old(exitTheChild))
    {
      proginp := line;
      RewriteIgnoresFlags(line, Flags(), ppid);
      CheckInput(ppid);
      effect := BuiltinCommands(os);
    }

    /** Pass `c` of `Run`'s loop: `Cycle` on line `c`, restated in terms of
        the whole sequence of lines. */
    method RunPass(lines: seq<CString>, oss: seq<Os>, ppid: nat, c: nat, ghost m0: Mode)
      requires Valid() && backgroundFlag
      requires |lines| == |oss| && c < |lines| && oss[c].forkResult != 0
      requires AllDroppable(lines)
      requires AttachSkippedThroughout(m0, lines, ppid)
      requires Flags() == ModesAfter(m0, lines, c, ppid)
      requires c <= ExitAt(lines, ppid)
      requires overallProcessCount + |lines| - c <= MaxBackground
      modifies this, processArrBG
      ensures Valid()
      ensures Flags() == ModesAfter(m0, lines, c + 1, ppid)
      ensures proginp == Rewritten(lines[c], ppid)
      ensures backgroundFlag ==> c + 1 <= ExitAt(lines, ppid)
      ensures !backgroundFlag ==> ExitAt(lines, ppid) == c
      ensures Jobs() == old(Jobs()) + PassJobs(old(Flags()), lines[c], oss[c], ppid)
      ensures exitTheChild == PassStatus(lines[c], oss[c], ppid, old(exitTheChild))
      ensures overallProcessCount + |lines| - (c + 1) <= MaxBackground
    {
      var line := lines[c];
      AttachSkippedAt(m0, lines, c, ppid);
      ghost var before := Flags();
      ghost var jobs := Jobs();
      var effect := Cycle(line, oss[c], ppid);
      if backgroundFlag {
        ExitAtPasses(lines, c, ppid);
      } else {
        ExitAtStops(lines, c, ppid);
      }
      ghost var pass := PassJobs(before, line, oss[c], ppid);
      assert Jobs() == jobs + pass by {
        if Classify(Rewritten(line, ppid)) != External {}
      }
      assert Flags() == CycleMode(before, line, ppid) == ModesAfter(m0, lines, c + 1, ppid);
    }

    /** The `do`-`while` loop of `main` (withingb3.c:731-735) over the lines
        read, one `Os` per line, as seen by the shell process itself (`fork`
        never returns 0 there). It goes on exactly while `backgroundFlag`
        holds, so it stops right after the first line that is `exit` once
        rewritten, or when the lines run out. */
    method Run(lines: seq<CString>, oss: seq<Os>, ppid: nat) returns (cycles: nat)
      requires Valid() && backgroundFlag
      requires |lines| == |oss| && |lines| >= 1
      requires AllDroppable(lines)
      requires AttachSkippedThroughout(Flags(), lines, ppid)
      requires forall k :: 0 <= k < |oss| ==> oss[k].forkResult != 0
      requires overallProcessCount + |lines| <= MaxBackground
      modifies this, processArrBG
      ensures Valid()
      ensures cycles == if ExitAt(lines, ppid) < |lines| then ExitAt(lines, ppid) + 1 else |lines|
      ensures backgroundFlag <==> ExitAt(lines, ppid) == |lines|
      ensures Flags() == ModesAfter(old(Flags()), lines, cycles, ppid)
      ensures 1 <= cycles <= |lines|
      ensures proginp == Rewritten(lines[cycles - 1], ppid)
      ensures old(Jobs()) <= Jobs()
    {
      ghost var m0 := Flags();
      ghost var exitAt := ExitAt(lines, ppid);
      ghost var jobs0 := Jobs();
      cycles := 0;
      while cycles < |lines| && backgroundFlag
        invariant Valid()
        invariant cycles <= |lines|
        invariant backgroundFlag ==> cycles <= exitAt
        invariant !backgroundFlag ==> 1 <= cycles && exitAt == cycles - 1
        invariant overallProcessCount + |lines| - cycles <= MaxBackground
        invariant Flags() == ModesAfter(m0, lines, cycles, ppid)
        invariant cycles > 0 ==> proginp == Rewritten(lines[cycles - 1], ppid)
        invariant jobs0 <= Jobs()
        decreases |lines| - cycles
      {
        RunPass(lines, oss, ppid, cycles, m0);
        cycles := cycles + 1;
      }
      assert 1 <= cycles;
      assert proginp == Rewritten(lines[cycles - 1], ppid);
    }
  }
}
