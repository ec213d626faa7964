// C strings as the sources compare them: a string is the sequence of its
// characters before the terminating NUL, and `strcmp` orders strings by
// their first differing character read as an unsigned byte, a string
// that ends first comparing as its NUL.

module CStrings {

  /** A string that can be held in a NUL-terminated buffer. */
  predicate CString(s: seq<char>)
  {
    forall i :: 0 <= i < |s| ==> s[i] != '\0'
  }

  /** `strcmp(a, b)`: negative, zero or positive as `a` sorts before, equal
    * to or after `b`. */
  function StrCmp(a: seq<char>, b: seq<char>): int
    decreases |a|
  {
    if |a| == 0 && |b| == 0 then 0
    else if |a| == 0 then 0 - (b[0] as int)
    else if |b| == 0 then a[0] as int
    else if a[0] != b[0] then a[0] as int - b[0] as int
    else StrCmp(a[1..], b[1..])
  }

  /** `strncmp(a, b, n)`: `strcmp` limited to the first `n` characters. */
  function StrNCmp(a: seq<char>, b: seq<char>, n: nat): int
    decreases n
  {
    if n == 0 || (|a| == 0 && |b| == 0) then 0
    else if |a| == 0 then 0 - (b[0] as int)
    else if |b| == 0 then a[0] as int
    else if a[0] != b[0] then a[0] as int - b[0] as int
    else StrNCmp(a[1..], b[1..], n - 1)
  }

  /** Limited to the length of its first operand, `strncmp` on C strings is
    * zero exactly when that operand is a prefix of the second. */
  lemma {:induction false} StrNCmpPrefix(a: seq<char>, b: seq<char>)
    requires CString(a) && CString(b)
    ensures StrNCmp(a, b, |a|) == 0 <==> a <= b
    decreases |a|
  {
    if |a| > 0 && |b| > 0 && a[0] == b[0] {
      StrNCmpPrefix(a[1..], b[1..]);
      if a[1..] <= b[1..] {
        assert a == [a[0]] + a[1..] && b[..|a|] == [b[0]] + b[1..][..|a| - 1];
      }
    }
  }

  /** The strict order `strcmp(a, b) < 0`. */
  predicate StrLess(a: seq<char>, b: seq<char>)
  {
    StrCmp(a, b) < 0
  }

  /** On C strings, `strcmp` is zero exactly for equal strings. */
  lemma {:induction false} StrCmpZero(a: seq<char>, b: seq<char>)
    requires CString(a) && CString(b)
    ensures StrCmp(a, b) == 0 <==> a == b
    decreases |a|
  {
    if |a| > 0 && |b| > 0 && a[0] == b[0] {
      StrCmpZero(a[1..], b[1..]);
      if a[1..] == b[1..] {
        assert a == [a[0]] + a[1..] && b == [b[0]] + b[1..];
      }
    }
  }

  /** Swapping the operands negates the comparison. */
  lemma {:induction false} StrCmpAntisymmetric(a: seq<char>, b: seq<char>)
    ensures StrCmp(b, a) == -StrCmp(a, b)
    decreases |a|
  {
    if |a| > 0 && |b| > 0 && a[0] == b[0] {
      StrCmpAntisymmetric(a[1..], b[1..]);
    }
  }

  /** The order is transitive. */
  lemma {:induction false} StrLessTransitive(a: seq<char>, b: seq<char>, c: seq<char>)
    requires StrLess(a, b) && StrLess(b, c)
    ensures StrLess(a, c)
    decreases |a|
  {
    if |a| > 0 && |b| > 0 && |c| > 0 && a[0] == b[0] && b[0] == c[0] {
      StrLessTransitive(a[1..], b[1..], c[1..]);
    }
  }

  /** Names sorted strictly ascending by `strcmp`. */
  predicate StrictlySorted(names: seq<seq<char>>)
  {
    forall i, j :: 0 <= i < j < |names| ==> StrLess(names[i], names[j])
  }

  /** The C string a buffer holds: its characters before the first NUL (all
    * of them when there is none). */
  function UpToNul(s: seq<char>): (r: seq<char>)
    ensures CString(r) && r <= s
    ensures |r| < |s| ==> s[|r|] == '\0'
  {
    if |s| == 0 || s[0] == '\0' then []
    else [s[0]] + UpToNul(s[1..])
  }

  /** A C string followed by its terminator reads back as itself, whatever
    * follows the terminator. */
  lemma {:induction false} UpToNulTerminated(p: seq<char>, rest: seq<char>)
    requires CString(p)
    ensures UpToNul(p + ['\0'] + rest) == p
  {
    if |p| > 0 {
      assert (p + ['\0'] + rest)[1..] == p[1..] + ['\0'] + rest;
      UpToNulTerminated(p[1..], rest);
    }
  }
}
