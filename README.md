# A verified model of the small shell's line handling

The shell in `withingb3.c` reads one line at a time, rewrites it, decides
whether it is a comment, a built-in (`status`, `cd`, `exit`) or an external
command, and for an external command forks a child. The child splits the line
into words, applies at most one `<` or `>` redirection and calls `execvp`;
the parent either waits for the child or records its pid as a background
job. SIGTSTP, or a line that still holds `TSTP` after the `&` step, toggles a
foreground-only mode, in which an `&` line still loses its last two
characters but raises no background request.

This project models that decision layer in Dafny and proves what it does:

- `cstrings.dfy` (module `CStrings`): `strcmp`, `strncmp`, `strstr` and the
  `strEquals` wrapper, on C strings modelled by their contents.
- `decimal.dfy` (module `Decimal`): the `%d` formatting of the pid that
  replaces `$$`, with its inverse.
- `linerewrite.dfy` (module `LineRewrite`): `checkInput`, `searchBackg` and
  the `catchSIGTSTP` toggle as functions of the line buffer `proginp` and
  the flags `TSTPflag`, `backgrFlag` and `numSignals`. It also holds a full
  left-to-right `$$` expansion as a reference the source's step is compared
  with.
- `dispatch.dfy` (module `Dispatch`): the classification done by `bCMDs`,
  the `cd` target path and `WEXITSTATUS`.
- `redirection.dfy` (module `Redirection`): the child's `strtok` split,
  the scan for the first redirection operator, the cut of the argument
  vector by `runDUP`, and the open mode chosen for the target.
- `shell.dfy` (module `SmallShell`): the globals as one `Shell` object whose
  methods update them in place. Each method's contract ties the new state to
  the functions above. It also models the `do`-`while` loop of `main`.
- `options.dfy` (module `Options`): an `Option` type.

The operating system's answers become parameters: what `fork` returned, the
status `waitpid` stored, the working directory, `$HOME`, which paths `open`
succeeds on, and the value of `getppid()`. Its actions become returned
decisions: the directory to change to, the argument vector and descriptor
binding for `execvp`, and the value `status` prints.

## Where the code departs from its header comment or from a conventional shell

The model follows the code in each of these cases:

- `$$` is replaced by `getppid()`, the pid of the shell's parent, not the
  shell's own pid.
- The `$$` step does not search for the sentinel. It drops the last two
  characters of the line and appends the pid. It agrees with a full
  expansion only when the one `$$` ends the line
  (`TrailingSentinelExpandsFully`). For `echo $$ x` it gives `echo $$`
  followed by the pid (`MidLineSentinelSurvives`).
- The header comment (withingb3.c:28-29) says `&` marks a background
  command only as the last word and is plain text anywhere else. The code
  drops the last two characters of any line that does not start with `echo`
  and holds an `&` anywhere. An `echo` line keeps its `&`.
- `exitTheChild` starts at -2, so `status` before any wait reports exit
  value 255, where a conventional shell reports 0 (`StatusBeforeAnyWait`).
- `cd` is recognised by its first two characters, so `cdrom` counts as
  `cd` too. The target is always the working directory, a `/`, and the
  rest of the line after the first space, even for an absolute path.
- `exit` only ends the loop. Unlike a conventional shell, it sends no
  signal to background jobs.
- The header comment (withingb3.c:20-33) allows `< in` and `> out` together,
  in either order. The code applies only the first `<` or `>`, because
  `execvp` replaces the child there (`OnlyFirstOperatorApplies`).
- `>` opens with `O_CREAT | O_WRONLY` and mode 0755, without the truncation
  a conventional shell applies. Background jobs get no null-device binding.
- Only a `#` in the first column makes a comment. A blank line is forked as
  an external command.

## Model

| member | source | states |
|---|---|---|
| `CStrings.StrCmp` | withingb3.c:245-249 | the sign of strcmp is -1, 0 or 1, and 0 exactly when the two strings are identical; a proper prefix sorts before the longer string |
| `CStrings.StrCmpAntisymmetric` | withingb3.c:245-249 | swapping the operands of strcmp negates its sign |
| `CStrings.StrEquals` | withingb3.c:243-252 | strEquals is true exactly when the two strings are identical and false otherwise |
| `CStrings.StrNCmp` | withingb3.c:361 | strncmp is zero exactly when the first n characters of both strings agree |
| `CStrings.Contains` | withingb3.c:306-307 | `strstr` finds the empty pattern in every string and nothing else in the empty string |
| `CStrings.ContainsAt` | withingb3.c:306-307 | `strstr` succeeds exactly when the pattern occurs at some index |
| `CStrings.IndexOf` | withingb3.c:375 | the first space is found: no space before it, a space at it, or none at all when it is the length |
| `Decimal.Format` | withingb3.c:314 | `%d` writes a pid as a non-empty string of digits with no leading zero unless the pid is 0 |
| `Decimal.ParseFormat` | withingb3.c:314 | the digits `%d` writes for the pid read back as that pid |
| `Decimal.FormatInjective` | withingb3.c:314 | different pids are written as different digit strings |
| `LineRewrite.Toggle` | withingb3.c:125-152 | a toggle flips TSTPflag; entering foreground-only mode clears backgrFlag and sets numSignals to 1; leaving it keeps backgrFlag and increments numSignals; afterwards foreground-only mode has no pending request |
| `LineRewrite.TogglesParity` | withingb3.c:125-152 | each toggle flips TSTPflag, so an even number of toggles restores it; after any toggle, foreground-only mode means backgrFlag is false and numSignals is 1 |
| `LineRewrite.ToggleTwice` | withingb3.c:125-152 | two toggles restore TSTPflag and always leave backgrFlag false; from normal mode numSignals ends at 2, from foreground-only mode at 1 |
| `SmallShell.Shell.CatchSigtstp` | withingb3.c:125-152 | entering foreground-only mode clears backgrFlag and sets numSignals to 1; leaving it increments numSignals; nothing else changes |
| `LineRewrite.SearchBackg` | withingb3.c:167-177 | the buffer becomes its own prefix two characters shorter; backgrFlag is set unless foreground-only mode is on; TSTPflag and numSignals are kept |
| `SmallShell.Shell.SearchBackg` | withingb3.c:167-177 | the buffer loses exactly its last two characters; backgrFlag becomes true outside foreground-only mode and is untouched inside it |
| `LineRewrite.ExpandPid` | withingb3.c:305-316 | the `$$` step as written: when it fires, the line minus its last two characters is kept as a prefix; when it does not, the line is unchanged |
| `LineRewrite.ExpandPidSpec` | withingb3.c:305-316 | with `$$` and no `TSTP` the result is the line minus its last two characters followed by digits that read back as the pid, and no `TSTP` is introduced; otherwise the line is unchanged |
| `LineRewrite.MarkerStrippedBeforeExpansion` | withingb3.c:296-316 | the `&` step runs first on the same buffer: a non-echo line `q$$ &` becomes `q` followed by the pid, with a background request unless foreground-only mode is on |
| `LineRewrite.CheckInputToggles` | withingb3.c:318-321 | a line toggles the mode exactly once when the buffer after the `&` step holds `TSTP`, and not at all otherwise |
| `LineRewrite.CheckInput` | withingb3.c:280-322 | the rewritten buffer holds `TSTP` exactly when the buffer after the `&` step does, TSTPflag flips exactly then, and a line with no `&`, `$$` or `TSTP` passes through with its flags unchanged |
| `LineRewrite.CheckInputBackground` | withingb3.c:297-303 | backgrFlag is true afterwards only if it already was or the line is an `&` line; a newly raised request needs an `&` line read outside foreground-only mode, and such a line raises one unless it also toggles; the invariant that foreground-only mode has no pending request is preserved |
| `LineRewrite.RewriteIgnoresFlags` | withingb3.c:280-322 | the rewritten line does not depend on the flags |
| `LineRewrite.TrailingSentinelExpandsFully` | withingb3.c:305-316 | on a line whose only `$$` ends it, the step as written equals full left-to-right expansion |
| `LineRewrite.MidLineSentinelSurvives` | withingb3.c:310-315 | on `echo $$ x` the step drops ` x`, keeps the `$$` and appends the pid |
| `LineRewrite.ExpandAllRemovesSentinels` | withingb3.c:305-316 | full expansion with a digit replacement leaves no `$$` in the line |
| `LineRewrite.ExpandAllIdempotent` | withingb3.c:305-316 | expanding an expanded line again changes nothing |
| `SmallShell.Shell.CheckInput` | withingb3.c:280-322 | the buffer and flags after checkInput are the `&` step, then the `$$` step on the rewritten buffer, then at most one toggle; nothing else changes |
| `Dispatch.Classify` | withingb3.c:361-397 | the prioritised chain gives comment exactly for a leading `#`, status exactly for `status`, cd exactly for a `cd` prefix, exit exactly for `exit`, and external for everything else |
| `Dispatch.EmptyLineIsExternal` | withingb3.c:395-400 | the empty line is forked as an external command |
| `Dispatch.CdIsPrefixTest` | withingb3.c:374 | every line starting with `cd` takes the cd branch |
| `Dispatch.CdTarget` | withingb3.c:374-383 | a `cd` line without a space goes to `$HOME`; with one, the path starts with the working directory and a `/` |
| `Dispatch.CdTargetSpec` | withingb3.c:374-383 | `cd dir` targets the working directory, `/`, then `dir`, whatever `dir` holds |
| `Dispatch.CdTargetAfterFirstWord` | withingb3.c:374-383 | for any line whose first word has no space, however that word is spelled (`cdrom x` as well as `cd x`), the target is the working directory, `/`, then everything after the first space |
| `Dispatch.ExitStatus` | withingb3.c:369 | WEXITSTATUS yields a value below 256 |
| `Dispatch.ExitStatusDecodes` | withingb3.c:369 | a status word for exit code c decodes to c |
| `Dispatch.StatusBeforeAnyWait` | withingb3.c:369 | with exitTheChild still at its initial -2, status reports 255 |
| `Dispatch.Decide` | withingb3.c:361-391 | nothing is done exactly for a line starting with `#`; the exit value is printed exactly for the line `status`, and it is `WEXITSTATUS` of the last status, below 256; the directory changes exactly for a line classified as `cd`, to `CdTarget`'s path; the loop stops exactly for `exit`; a fork happens exactly for an external line |
| `SmallShell.Shell.BuiltinCommands` | withingb3.c:345-403 | exactly one branch runs; only `exit` clears backgroundFlag; a built-in leaves the pid table and status alone; an external line runs the child's plan or, in the parent, records the pid when a background request was pending; backgrFlag is false afterwards |
| `SmallShell.Shell.CheckParents` | withingb3.c:523-539 | a background child's pid is written at index overallProcessCount, the count goes up by one and the request is cleared; a foreground child is waited for |
| `SmallShell.CycleMode` | withingb3.c:731-735 | after one pass no background request is pending, and TSTPflag has flipped exactly when the rewritten line holds `TSTP` |
| `SmallShell.Shell.Cycle` | withingb3.c:731-735 | after one pass the buffer is the rewritten line, the flags are those `checkInput` gives with the request cleared, backgroundFlag is false exactly when the line is `exit`, and the effect, pid table and status are those `bCMDs` gives on the rewritten line |
| `SmallShell.Shell.Run` | withingb3.c:731-735 | the loop runs until the first line that is `exit` once rewritten, backgroundFlag stays true exactly when there is none, the flags are those left by the lines run, the line buffer holds the last line run as rewritten, and the pid table only grows |
| `SmallShell.Shell.RunPass` | withingb3.c:731-735 | one pass of the loop over line `c` moves the flags from those of the first `c` lines to those of the first `c + 1`, leaves that line rewritten in the buffer, appends to the pid table exactly the pids `PassJobs` names, sets `exitTheChild` to `PassStatus`, and clears backgroundFlag exactly at the first `exit` |
| `SmallShell.PassJobs` | withingb3.c:523-528 | one pass records at most one pid, and only the fork's result for an external line |
| `SmallShell.PassStatus` | withingb3.c:484-538 | the status changes only to the word `waitpid` stored, and never for a built-in line |
| `SmallShell.Shell.constructor` | withingb3.c:63-83 | the globals start with an empty buffer, all flags off, backgroundFlag on, exitTheChild -2 and an empty pid table |
| `Redirection.Tokens` | withingb3.c:585-592 | `strtok` returns at most one word per character of the line |
| `Redirection.NoTokensIffBlank` | withingb3.c:585-592 | `strtok` finds no word exactly when the line is blank |
| `Redirection.NextToken` | withingb3.c:585-589 | one strtok call returns the next maximal run of non-space characters and resumes after it, or NULL when only spaces remain |
| `Redirection.Tokenize` | withingb3.c:585-592 | the first loop collects exactly the words of the line, in order |
| `Redirection.TokensAreWords` | withingb3.c:585-592 | every word is non-empty and holds no space |
| `Redirection.TokensJoin` | withingb3.c:585-592 | splitting words joined by single spaces gives the words back |
| `Redirection.FirstOperator` | withingb3.c:595-620 | the scan stops at the first `<` or `>` word, with none before it |
| `Redirection.Plan` | withingb3.c:595-629 | the argument vector is a prefix of the words; the child gives up on its input only when the line has a `<`; a line with no operator runs with all its words and no binding |
| `Redirection.PlanSpec` | withingb3.c:595-629 | argv is exactly the words before the first operator and holds no operator; the target is the word after the operator; a readable `<` target is bound on fd 0 read-only; after `>`, fd 1 is bound create/write-only when the target is writable and nothing is bound otherwise; an unopenable input ends the child |
| `Redirection.OnlyFirstOperatorApplies` | withingb3.c:605-611 | for `cmd < in > out` only the input file is bound |
| `Redirection.ArgvCut` | withingb3.c:657 | writing NULL at index c limits what execvp reads to the first c words |
| `Redirection.CutAt` | withingb3.c:654-658 | runDUP's `cArg[c] = 0` changes that entry alone |
| `Redirection.RedirectionCms` | withingb3.c:569-636 | the child's outcome is the plan for the words of the line |

## Left out

- `fork`, `execvp`, `waitpid`, `dup2`, `open`, `fcntl`, `chdir`, `getcwd`, `getenv`, `getppid`: these are calls into the operating system. Their results are parameters (`SmallShell.Os`, `ppid`), and their effects are returned decisions (`Dispatch.Action`, `Redirection.ChildOutcome`).
- `readIn` and every `printf`, `write` and `fflush` are terminal I/O. `Cycle` takes the line with its newline already removed, and the messages are not modelled.
- `initSigs` and signal asynchrony: the handler body is the plain method `CatchSigtstp`, which runs between other steps rather than inside them.
- `processTracker` calls `waitpid` with an uninitialised index and decodes wait statuses. It is not modelled, so `Run` neither reaps background jobs nor lets that call overwrite `exitTheChild`.
- `attachChildpid` runs in both parent and child and truncates a pid to a `char`, so it has no coherent specification. `BuiltinCommands`, `Cycle` and `Run` require that it does not run: no external line that mentions `kill` once rewritten may arrive after a signal has been counted. Built-in lines that mention `kill` are not excluded, and a `kill` line read before any toggle is handled like any other external line.
- A failed `execvp`: `runDUP` returns, the scan goes on, and the child ends with `exit(1)`. The model stops at the `execvp` decision.
- The 2048-byte buffers `proginp` and `currentDir` are modelled by their contents, and their overflow is not modelled. The global `forkProcess` is a parameter.
- `Redirection.RedirectionCms`: `cmdArg` has 512 entries (withingb3.c:60, 575). A line of 512 words or more overflows it, and that overflow is not modelled: the model sizes the vector to the words plus the terminating NULL.
- Undefined behaviour is modelled by its evident intent. The uninitialised `arrayCount` is taken as 0. The copy through the uninitialised `bckgroundArr` is taken as a truncation. The `strlen - 2` underflow is excluded by `Droppable`. `strcmp(NULL, ...)` on a line with no words is treated as "no operator". `open` returning descriptor 0 is not distinguished from success.
- `CStrings.StrCmp`: returns only the sign of `strcmp`, and compares characters by code point, where C compares them as `unsigned char`.
- `SmallShell.Shell.Run`: requires a free slot in the pid table for every line, because whether a line records a pid depends on the flags the lines before it left. The loop's contract gives only that the pid table grows, and nothing about `exitTheChild`; `SmallShell.Shell.RunPass` states the pids and the status each pass leaves. It also stops when the given lines run out, where the real shell would read again.
