/// `bCMDs` (withingb3.c:345-403): the classification of the rewritten line
/// into a comment, one of the built-ins `status`, `cd` and `exit`, or an
/// external command, and what each built-in decides. The calls to `chdir`,
/// `getcwd`, `getenv` and `printf` become the decision returned.
module Dispatch {
  import opened CStrings

  datatype Builtin = Comment | Status | ChangeDir | Exit | External

  /** The chain of tests in `bCMDs`, first match wins (withingb3.c:361-397):
      `strncmp` against `#` on one character, `strEquals` against `status`,
      `strncmp` against `cd` on two characters, `strEquals` against `exit`,
      and the final re-test of all four, which always holds when reached. */
  function Classify(line: CString): (b: Builtin)
    ensures b == Comment <==> |line| >= 1 && line[0] == '#'
    ensures b == Status <==> line == "status"
    ensures b == ChangeDir <==> StartsWith(line, "cd")
    ensures b == Exit <==> line == "exit"
    ensures b == External <==>
              !(|line| >= 1 && line[0] == '#') && line != "status" &&
              !StartsWith(line, "cd") && line != "exit"
  {
    if StrNCmp(line, "#", 1) == 0 then Comment
    else if StrEquals(line, "status") then Status
    else if StrNCmp(line, "cd", 2) == 0 then ChangeDir
    else if StrEquals(line, "exit") then Exit
    else
      assert !StrEquals(line, "status") && StrNCmp(line, "cd", 2) != 0 &&
             !StrEquals(line, "exit") && StrNCmp(line, "#", 1) != 0;
      External
  }

  /** The empty line is neither a comment nor a built-in: it is forked as an
      external command. */
  lemma EmptyLineIsExternal()
    ensures Classify("") == External
  {
  }

  /** The `cd` test is a two-character prefix test, so any word starting
      with `cd` is taken for `cd`. */
  lemma CdIsPrefixTest(rest: CString)
    ensures Classify("cd" + rest) == ChangeDir
  {
    assert ("cd" + rest)[..2] == "cd";
  }

  /** The directory handed to `chdir` for a `cd` line
      (withingb3.c:374-383): with a space, the working directory, a `/`, and
      everything after the first space; without one, `$HOME`. */
  function CdTarget(line: CString, cwd: CString, home: CString): (path: CString)
    ensures ' ' !in line ==> path == home
    ensures ' ' in line ==> cwd + "/" <= path && |path| < |cwd| + 1 + |line|
  {
    var sp := IndexOf(line, ' ');
    if sp < |line| then cwd + "/" + line[sp + 1..] else home
  }

  /** `cd dir` goes to `cwd/dir` whatever `dir` holds (an absolute or
      space-separated argument included). */
  lemma CdTargetSpec(dir: CString, cwd: CString, home: CString)
    ensures CdTarget("cd " + dir, cwd, home) == cwd + "/" + dir
  {
    var l := "cd " + dir;
    assert l[2] == ' ' && l[0] != ' ' && l[1] != ' ';
    assert IndexOf(l, ' ') == 2;
    assert l[3..] == dir;
  }

  /** Any line whose first word is `pre` (a `cd` line such as `cdrom x`
      included) goes to the working directory, a `/`, and everything after
      the first space. */
  lemma CdTargetAfterFirstWord(pre: CString, rest: CString, cwd: CString, home: CString)
    requires ' ' !in pre
    ensures CdTarget(pre + " " + rest, cwd, home) == cwd + "/" + rest
  {
    var l := pre + " " + rest;
    assert l[|pre|] == ' ';
    assert forall j :: 0 <= j < |pre| ==> l[j] == pre[j];
    assert IndexOf(l, ' ') == |pre|;
    assert l[|pre| + 1..] == rest;
  }

  /** `WEXITSTATUS(status)`: bits 8 to 15 of the two's complement status
      word, that is `(status & 0xff00) >> 8`. */
  function ExitStatus(status: int): (code: nat)
    ensures code < 256
  {
    (status / 256) % 256
  }

  /** A child that exited with `code` leaves `code * 256` (plus the low
      signal bits, zero for a normal exit) in the status word; decoding
      recovers the code. */
  lemma ExitStatusDecodes(code: nat, low: nat)
    requires code < 256 && low < 256
    ensures ExitStatus(code * 256 + low) == code
  {
  }

  /** `exitTheChild` starts at -2 (withingb3.c:83); `status` before any wait
      has stored a status therefore reports 255. */
  lemma StatusBeforeAnyWait()
    ensures ExitStatus(-2) == 255
  {
  }

  /** What `bCMDs` does for a built-in, or `RunExternal` when it forks. */
  datatype Action =
    | NoAction                     // a comment
    | PrintExitValue(value: nat)   // `status`: "exit value N"
    | Chdir(path: CString)         // `cd`
    | StopLoop                     // `exit`: backgroundFlag cleared
    | RunExternal                  // progFork

  /** The decision `bCMDs` takes on the line, given the working directory,
      `$HOME` and the last status word. */
  function Decide(line: CString, cwd: CString, home: CString, status: int): (a: Action)
    ensures a.PrintExitValue? ==> a.value < 256
    ensures a == NoAction <==> |line| >= 1 && line[0] == '#'
    ensures a.PrintExitValue? <==> line == "status"
    ensures line == "status" ==> a == PrintExitValue(ExitStatus(status))
    ensures a.Chdir? <==> Classify(line) == ChangeDir
    ensures a.Chdir? ==> a.path == CdTarget(line, cwd, home)
    ensures a == StopLoop <==> line == "exit"
    ensures a == RunExternal <==> Classify(line) == External
  {
    match Classify(line)
    case Comment => NoAction
    case Status => PrintExitValue(ExitStatus(status))
    case ChangeDir => Chdir(CdTarget(line, cwd, home))
    case Exit => StopLoop
    case External => RunExternal
  }
}
