/// The C string primitives the shell's decisions rest on: `strcmp`,
/// `strncmp`, `strstr`, `strchr` and the `strEquals` wrapper around
/// `strcmp` (withingb3.c:243-252). A C string is modelled by its contents up
/// to, not including, the terminating NUL.
module CStrings {

  type CString = seq<char>

  /** The first `n` characters of `s`, or all of `s` when it is shorter:
      what `strncpy`/`strncmp` see of a string bounded by `n`. */
  function Take(s: CString, n: nat): (t: CString)
    ensures |t| == if |s| <= n then |s| else n
    ensures t <= s
  {
    if |s| <= n then s else s[..n]
  }

  /** The sign of `strcmp(a, b)`: -1, 0 or 1 by lexicographic order, a
      proper prefix ordering before the longer string. */
  function StrCmp(a: CString, b: CString): (r: int)
    ensures -1 <= r <= 1
    ensures r == 0 <==> a == b
    ensures a < b ==> r == -1
    ensures b < a ==> r == 1
  {
    if a == [] && b == [] then 0
    else if a == [] then -1
    else if b == [] then 1
    else if a[0] < b[0] then -1
    else if a[0] > b[0] then 1
    else
      assert a == [a[0]] + a[1..] && b == [b[0]] + b[1..];
      StrCmp(a[1..], b[1..])
  }

  /** Swapping the operands of strcmp negates the result. */
  lemma {:induction false} StrCmpAntisymmetric(a: CString, b: CString)
    ensures StrCmp(a, b) == -StrCmp(b, a)
  {
    if a != [] && b != [] && a[0] == b[0] {
      StrCmpAntisymmetric(a[1..], b[1..]);
    }
  }

  /** `strEquals`: the three-way test on strcmp's sign. The source's last
      branch, `strcmp == 0`, is the only one left when neither of the first two
      holds, so the fall-through without a return value is never reached. */
  function StrEquals(a: CString, b: CString): (r: bool)
    ensures r <==> a == b
  {
    if StrCmp(a, b) < 0 then false
    else if StrCmp(a, b) > 0 then false
    else assert StrCmp(a, b) == 0; true
  }

  /** The sign of `strncmp(a, b, n)`: strcmp on the first `n` characters. */
  function StrNCmp(a: CString, b: CString, n: nat): (r: int)
    ensures r == 0 <==> Take(a, n) == Take(b, n)
  {
    StrCmp(Take(a, n), Take(b, n))
  }

  /** `p` is a prefix of `s`. */
  predicate StartsWith(s: CString, p: CString)
  {
    |p| <= |s| && s[..|p|] == p
  }

  /** `strstr(s, p) != NULL`: `p` occurs somewhere in `s`. The empty
      pattern is found in every string, and the empty string holds no other
      pattern. */
  predicate Contains(s: CString, p: CString): (b: bool)
    ensures p == [] ==> b
    ensures s == [] ==> (b <==> p == [])
    decreases |s|
  {
    StartsWith(s, p) || (s != [] && Contains(s[1..], p))
  }

  /** `p` occurs in `s` starting at index `i`. */
  predicate OccursAt(s: CString, p: CString, i: nat)
  {
    i + |p| <= |s| && s[i..i + |p|] == p
  }

  /** `s` contains `p` exactly when `p` occurs at some index of `s`. */
  lemma {:induction false} ContainsAt(s: CString, p: CString)
    ensures Contains(s, p) <==> exists i: nat :: OccursAt(s, p, i)
  {
    if StartsWith(s, p) {
      assert OccursAt(s, p, 0);
    } else if s != [] {
      ContainsAt(s[1..], p);
      if Contains(s[1..], p) {
        var i: nat :| OccursAt(s[1..], p, i);
        assert s[i + 1..i + 1 + |p|] == s[1..][i..i + |p|];
        assert OccursAt(s, p, i + 1);
      }
      if i: nat :| OccursAt(s, p, i) {
        if i > 0 {
          assert s[1..][i - 1..i - 1 + |p|] == s[i..i + |p|];
          assert OccursAt(s[1..], p, i - 1);
        }
      }
    }
  }

  /** Whatever a string contains, any string extending it contains too. */
  lemma {:induction false} ContainsExtends(s: CString, t: CString, p: CString)
    ensures Contains(s, p) ==> Contains(s + t, p)
  {
    if StartsWith(s, p) {
      assert (s + t)[..|p|] == s[..|p|];
    } else if s != [] {
      assert (s + t)[1..] == s[1..] + t;
      ContainsExtends(s[1..], t, p);
    }
  }

  /** An occurrence of a pattern needs at least that many characters. */
  lemma {:induction false} ContainsLength(s: CString, p: CString)
    ensures Contains(s, p) ==> |p| <= |s|
  {
    if !StartsWith(s, p) && s != [] {
      ContainsLength(s[1..], p);
    }
  }

  /** The position `strstr`/`strchr` returns for a single character: the index
      of the first `c` in `s`, or `|s|` when there is none. */
  function IndexOf(s: CString, c: char): (i: nat)
    ensures i <= |s|
    ensures i < |s| <==> c in s
    ensures i < |s| ==> s[i] == c
    ensures forall j :: 0 <= j < i ==> s[j] != c
  {
    if s == [] then 0
    else if s[0] == c then 0
    else 1 + IndexOf(s[1..], c)
  }
}
