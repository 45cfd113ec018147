/// What the forked child does with the command line before `execvp`:
/// `redirectionCms` (withingb3.c:569-636) splits the line with `strtok` on
/// single spaces into `cmdArg[]`, scans it for the first `<` or `>` word, and
/// `runDUP` (withingb3.c:654-661) binds the file word that follows onto
/// standard input or output and cuts the argument vector at the operator.
/// The calls to `open`, `dup2` and `execvp` become the outcome returned.
module Redirection {
  import opened CStrings
  import opened Options

  // ---------------------------------------------------------------------
  // strtok with the delimiter set " "

  /** The length of the run of non-space characters `s` starts with. */
  function WordLength(s: CString): (n: nat)
    ensures n <= |s|
    ensures forall j :: 0 <= j < n ==> s[j] != ' '
    ensures n < |s| ==> s[n] == ' '
  {
    if s == [] || s[0] == ' ' then 0 else 1 + WordLength(s[1..])
  }

  /** The words successive `strtok` calls return: the maximal runs of
      non-space characters, in order. */
  function Tokens(s: CString): (words: seq<CString>)
    ensures |words| <= |s|
    decreases |s|
  {
    if s == [] then []
    else if s[0] == ' ' then Tokens(s[1..])
    else [s[..WordLength(s)]] + Tokens(s[WordLength(s)..])
  }

  /** `strtok` finds no word at all exactly when the line is blank. */
  lemma {:induction false} NoTokensIffBlank(s: CString)
    ensures Tokens(s) == [] <==> forall j :: 0 <= j < |s| ==> s[j] == ' '
    decreases |s|
  {
    if s != [] && s[0] == ' ' {
      NoTokensIffBlank(s[1..]);
      assert forall j :: 1 <= j < |s| ==> s[j] == s[1..][j - 1];
    }
  }

  predicate IsWord(w: CString)
  {
    w != [] && ' ' !in w
  }

  /** Every word `strtok` returns is non-empty and holds no space. */
  lemma {:induction false} TokensAreWords(s: CString)
    ensures forall k :: 0 <= k < |Tokens(s)| ==> IsWord(Tokens(s)[k])
    decreases |s|
  {
    if s == [] {
    } else if s[0] == ' ' {
      TokensAreWords(s[1..]);
    } else {
      TokensAreWords(s[WordLength(s)..]);
      var w := s[..WordLength(s)];
      assert forall c :: c in w ==> c != ' ';
    }
  }

  /** The words joined by single spaces. */
  function Join(ws: seq<CString>): CString
  {
    if ws == [] then [] else if |ws| == 1 then ws[0] else ws[0] + " " + Join(ws[1..])
  }

  lemma {:induction false} WordLengthOfWord(w: CString, rest: CString)
    requires ' ' !in w
    requires rest == [] || rest[0] == ' '
    ensures WordLength(w + rest) == |w|
    decreases |w|
  {
    if w != [] {
      assert w[0] in w;
      assert (w + rest)[1..] == w[1..] + rest;
      WordLengthOfWord(w[1..], rest);
    }
  }

  /** Splitting words joined by single spaces gives the words back. */
  lemma {:induction false} TokensJoin(ws: seq<CString>)
    requires forall k :: 0 <= k < |ws| ==> IsWord(ws[k])
    ensures Tokens(Join(ws)) == ws
    decreases |ws|
  {
    if ws == [] {
    } else {
      var w := ws[0];
      var rest := if |ws| == 1 then [] else " " + Join(ws[1..]);
      assert Join(ws) == w + rest;
      assert w[0] in w;
      WordLengthOfWord(w, rest);
      TakeWord(w + rest, |w|);
      assert (w + rest)[..|w|] == w;
      assert (w + rest)[|w|..] == rest;
      if |ws| > 1 {
        TokensJoin(ws[1..]);
        assert rest[1..] == Join(ws[1..]);
      }
      assert ws == [w] + ws[1..];
    }
  }

  /** `strtok(p, " ")` resumed at position `pos` of the line: skip the spaces,
      then take the word that follows, if any; `next` is where the following
      call resumes. */
  method NextToken(line: CString, pos: nat) returns (tok: Option<CString>, next: nat)
    requires pos <= |line|
    ensures pos <= next <= |line|
    ensures tok == None ==> Tokens(line[pos..]) == []
    ensures tok.Some? ==> pos < next && Tokens(line[pos..]) == [tok.value] + Tokens(line[next..])
  {
    var start := pos;
    while start < |line| && line[start] == ' '
      invariant pos <= start <= |line|
      invariant forall j :: pos <= j < start ==> line[j] == ' '
    {
      start := start + 1;
    }
    if start == |line| {
      TokensAt(line, pos, start, start);
      return None, start;
    }
    var end := start;
    while end < |line| && line[end] != ' '
      invariant start <= end <= |line|
      invariant forall j :: start <= j < end ==> line[j] != ' '
    {
      end := end + 1;
    }
    TokensAt(line, pos, start, end);
    tok, next := Some(line[start..end]), end;
  }

  /** The word a string starts with is measured exactly. */
  lemma {:induction false} WordLengthIs(t: CString, k: nat)
    requires k <= |t|
    requires forall j :: 0 <= j < k ==> t[j] != ' '
    requires k < |t| ==> t[k] == ' '
    ensures WordLength(t) == k
  {
    if k > 0 {
      WordLengthIs(t[1..], k - 1);
    }
  }

  /** Leading spaces contribute no word. */
  lemma {:induction false} SkipSpaces(s: CString, k: nat)
    requires k <= |s|
    requires forall j :: 0 <= j < k ==> s[j] == ' '
    ensures Tokens(s) == Tokens(s[k..])
  {
    if k > 0 {
      SkipSpaces(s[1..], k - 1);
      assert s[1..][k - 1..] == s[k..];
    }
  }

  /** A word at the front of the line is the first token. */
  lemma TakeWord(t: CString, k: nat)
    requires 0 < k <= |t|
    requires forall j :: 0 <= j < k ==> t[j] != ' '
    requires k < |t| ==> t[k] == ' '
    ensures Tokens(t) == [t[..k]] + Tokens(t[k..])
  {
    WordLengthIs(t, k);
  }

  /** The spaces from `pos` to `start` contribute no word. */
  lemma SkipSpacesAt(line: CString, pos: nat, start: nat)
    requires pos <= start <= |line|
    requires forall j :: pos <= j < start ==> line[j] == ' '
    ensures Tokens(line[pos..]) == Tokens(line[start..])
  {
    var s := line[pos..];
    assert forall j :: 0 <= j < start - pos ==> s[j] == line[pos + j];
    SkipSpaces(s, start - pos);
    assert s[start - pos..] == line[start..];
  }

  /** The word from `start` to `end` is the next token. */
  lemma TakeWordAt(line: CString, start: nat, end: nat)
    requires start < end <= |line|
    requires forall j :: start <= j < end ==> line[j] != ' '
    requires end < |line| ==> line[end] == ' '
    ensures Tokens(line[start..]) == [line[start..end]] + Tokens(line[end..])
  {
    var t := line[start..];
    assert forall j :: 0 <= j < end - start ==> t[j] == line[start + j];
    TakeWord(t, end - start);
    assert t[..end - start] == line[start..end];
    assert t[end - start..] == line[end..];
  }

  /** The words of `line` from `pos` on, given where the spaces skipped end
      (`start`) and where the word after them ends (`end`). */
  lemma TokensAt(line: CString, pos: nat, start: nat, end: nat)
    requires pos <= start <= end <= |line|
    requires forall j :: pos <= j < start ==> line[j] == ' '
    requires start < |line| ==> line[start] != ' '
    requires forall j :: start <= j < end ==> line[j] != ' '
    requires end < |line| ==> line[end] == ' '
    ensures start == |line| ==> Tokens(line[pos..]) == []
    ensures start < |line| ==>
              start < end && Tokens(line[pos..]) == [line[start..end]] + Tokens(line[end..])
  {
    SkipSpacesAt(line, pos, start);
    if start == |line| {
      assert line[start..] == [];
    } else {
      TakeWordAt(line, start, end);
    }
  }

  /** The first `do`-`while` loop of `redirectionCms`
      (withingb3.c:585-592): call `strtok` until it returns NULL, collecting
      the words in `cmdArg[]`. */
  method Tokenize(line: CString) returns (cmdArg: seq<CString>)
    ensures cmdArg == Tokens(line)
  {
    cmdArg := [];
    var pos := 0;
    assert line[pos..] == line;
    var tok, next := NextToken(line, pos);
    while tok.Some?
      invariant pos <= next <= |line|
      invariant cmdArg + Tokens(line[pos..]) == Tokens(line)
      invariant tok == None ==> Tokens(line[pos..]) == []
      invariant tok.Some? ==> pos < next && Tokens(line[pos..]) == [tok.value] + Tokens(line[next..])
      decreases |line| - pos
    {
      cmdArg := cmdArg + [tok.value];
      pos := next;
      tok, next := NextToken(line, pos);
    }
  }

  // ---------------------------------------------------------------------
  // The second loop: the first redirection operator decides

  /** `strEquals(word, "<")` or `strEquals(word, ">")`. */
  predicate IsOperator(word: CString)
  {
    StrEquals(word, "<") || StrEquals(word, ">")
  }

  /** The index of the first `<` or `>` word, or the number of words when
      there is none. */
  function FirstOperator(words: seq<CString>): (i: nat)
    ensures i <= |words|
    ensures forall j :: 0 <= j < i ==> words[j] != "<" && words[j] != ">"
    ensures i < |words| ==> words[i] == "<" || words[i] == ">"
  {
    if words == [] then 0
    else if IsOperator(words[0]) then 0
    else 1 + FirstOperator(words[1..])
  }

  /** How a redirection target is opened: `O_RDONLY`, or
      `O_CREAT | O_WRONLY` with mode 0755 (no `O_TRUNC`). */
  datatype OpenMode = ReadOnly | CreateWriteOnly

  /** `dup2` of the opened target onto descriptor `fd`. */
  datatype Binding = Binding(fd: nat, path: CString, mode: OpenMode)

  /** How the child ends its preparation: the input file could not be
      opened (the source prints the target word and exits with status 1), or
      `execvp` is called on `argv` after applying `binding`. */
  datatype ChildOutcome =
    | InputUnopenable(target: Option<CString>)
    | Exec(argv: seq<CString>, binding: Option<Binding>)

  /** What the child does with the words of the line, given which paths can
      be opened for reading and which for writing. The first operator cuts
      the argument vector; the word after it (none when the operator is last,
      which makes `open` fail) is the target. `<` binds descriptor 0
      read-only and gives up when the open fails; `>` binds descriptor 1 for
      create-and-write, and when that open fails `dup2` fails too, so the
      command runs with standard output untouched. Later operators are never
      looked at, because `execvp` replaces the child at the first one. */
  function Plan(words: seq<CString>, readable: set<CString>, writable: set<CString>): (o: ChildOutcome)
    ensures o.Exec? ==> o.argv <= words
    ensures o.InputUnopenable? ==> "<" in words
    ensures "<" !in words && ">" !in words ==> o == Exec(words, None)
  {
    var i := FirstOperator(words);
    var target := if i + 1 < |words| then Some(words[i + 1]) else None;
    if i == |words| then Exec(words, None)
    else if words[i] == "<" then
      if target.Some? && target.value in readable
      then Exec(words[..i], Some(Binding(0, target.value, ReadOnly)))
      else InputUnopenable(target)
    else
      if target.Some? && target.value in writable
      then Exec(words[..i], Some(Binding(1, target.value, CreateWriteOnly)))
      else Exec(words[..i], None)
  }

  /** The argument vector handed to `execvp` is the words before the first
      operator, so it never holds `<` or `>`; when a target is bound, it is
      the word right after that operator, `<` reading on descriptor 0 and `>`
      creating and writing on descriptor 1. */
  lemma PlanSpec(words: seq<CString>, readable: set<CString>, writable: set<CString>)
    ensures var o := Plan(words, readable, writable);
      o.Exec? ==>
        o.argv <= words &&
        (forall j :: 0 <= j < |o.argv| ==> o.argv[j] != "<" && o.argv[j] != ">") &&
        (o.argv == words <==> FirstOperator(words) == |words|) &&
        (o.binding.Some? ==>
           |o.argv| + 1 < |words| && o.binding.value.path == words[|o.argv| + 1] &&
           (o.binding.value.fd == 0 <==> words[|o.argv|] == "<") &&
           (o.binding.value.fd == 0 ==> o.binding.value.mode == ReadOnly && o.binding.value.path in readable) &&
           (o.binding.value.fd == 1 ==> o.binding.value.mode == CreateWriteOnly && o.binding.value.path in writable))
    ensures var o := Plan(words, readable, writable);
      o.Exec? ==> o.argv == words[..FirstOperator(words)]
    ensures var o := Plan(words, readable, writable); var i := FirstOperator(words);
      i + 1 < |words| && words[i] == "<" && words[i + 1] in readable ==>
        o == Exec(words[..i], Some(Binding(0, words[i + 1], ReadOnly)))
    ensures var o := Plan(words, readable, writable); var i := FirstOperator(words);
      i < |words| && words[i] == ">" ==>
        o == Exec(words[..i], if i + 1 < |words| && words[i + 1] in writable
                              then Some(Binding(1, words[i + 1], CreateWriteOnly)) else None)
    ensures var o := Plan(words, readable, writable);
      o.InputUnopenable? <==>
        FirstOperator(words) < |words| && words[FirstOperator(words)] == "<" &&
        !(FirstOperator(words) + 1 < |words| && words[FirstOperator(words) + 1] in readable)
  {
  }

  /** A line `cmd args < in > out`: only the input file is bound. */
  lemma OnlyFirstOperatorApplies(cmd: seq<CString>, inFile: CString, outFile: CString,
                                 readable: set<CString>, writable: set<CString>)
    requires forall j :: 0 <= j < |cmd| ==> cmd[j] != "<" && cmd[j] != ">"
    requires inFile in readable
    ensures Plan(cmd + ["<", inFile, ">", outFile], readable, writable) ==
              Exec(cmd, Some(Binding(0, inFile, ReadOnly)))
  {
    var words := cmd + ["<", inFile, ">", outFile];
    assert words[|cmd|] == "<";
    assert FirstOperator(words) == |cmd|;
    assert words[..|cmd|] == cmd;
  }

  /** The vector `execvp` reads: the entries of `cmdArg` up to the first
      NULL. */
  function Argv(cmdArg: seq<Option<CString>>): seq<CString>
  {
    if cmdArg == [] || cmdArg[0] == None then [] else [cmdArg[0].value] + Argv(cmdArg[1..])
  }

  /** `cmdArg` as the first loop leaves it: the words, then a NULL. */
  function Terminated(words: seq<CString>): (a: seq<Option<CString>>)
    ensures |a| == |words| + 1
  {
    seq(|words| + 1, j requires 0 <= j <= |words| => if j < |words| then Some(words[j]) else None)
  }

  /** Writing NULL at index `c` of the terminated vector cuts `execvp`'s view
      to the first `c` words. */
  lemma {:induction false} ArgvCut(words: seq<CString>, c: nat)
    requires c <= |words|
    ensures Argv(Terminated(words)[c := None]) == words[..c]
    decreases |words|
  {
    var a := Terminated(words)[c := None];
    if c > 0 {
      assert a[1..] == Terminated(words[1..])[c - 1 := None];
      ArgvCut(words[1..], c - 1);
      assert words[..c] == [words[0]] + words[1..][..c - 1];
    }
  }

  /** `runDUP`'s `cArg[c] = 0` (withingb3.c:657): cut the vector at the
      operator. The `dup2` before it and the `execvp` after it are the binding
      and argument vector the caller returns. */
  method CutAt(cArg: array<Option<CString>>, c: nat)
    requires c < cArg.Length
    modifies cArg
    ensures cArg[..] == old(cArg[..])[c := None]
  {
    cArg[c] := None;
  }

  /** `redirectionCms` in the child (withingb3.c:569-636): split the line,
      then walk the words (the second `do`-`while` loop) until the first
      operator, where the outcome is decided; with no operator, `execvp` runs
      on all the words. */
  method RedirectionCms(line: CString, readable: set<CString>, writable: set<CString>)
    returns (outcome: ChildOutcome)
    ensures outcome == Plan(Tokens(line), readable, writable)
  {
    var words := Tokenize(line);
    var n := |words|;
    var cmdArg := new Option<CString>[n + 1](j requires 0 <= j <= n => if j < n then Some(words[j]) else None);
    assert cmdArg[..] == Terminated(words);
    var i := 0;
    while i < n
      invariant 0 <= i <= n
      invariant forall j :: 0 <= j < i ==> words[j] != "<" && words[j] != ">"
      invariant cmdArg[..] == Terminated(words)
    {
      var word := cmdArg[i].value;
      var target := cmdArg[i + 1];
      assert target == if i + 1 < n then Some(words[i + 1]) else None;
      if StrEquals(word, "<") && !(target.Some? && target.value in readable) {
        assert FirstOperator(words) == i;
        return InputUnopenable(target);
      } else if StrEquals(word, "<") {
        CutAt(cmdArg, i);
        ArgvCut(words, i);
        assert FirstOperator(words) == i;
        return Exec(Argv(cmdArg[..]), Some(Binding(0, target.value, ReadOnly)));
      } else if StrEquals(word, ">") {
        CutAt(cmdArg, i);
        ArgvCut(words, i);
        assert FirstOperator(words) == i;
        var binding := if target.Some? && target.value in writable
                       then Some(Binding(1, target.value, CreateWriteOnly)) else None;
        return Exec(Argv(cmdArg[..]), binding);
      }
      i := i + 1;
    }
    assert FirstOperator(words) == n;
    ArgvCut(words, n);
    assert cmdArg[..][n := None] == cmdArg[..];
    assert words[..n] == words;
    outcome := Exec(Argv(cmdArg[..]), None);
  }
}
