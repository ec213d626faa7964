// Shared vocabulary: optional values, bytes, and the alignment arithmetic
// the allocators and cache writers use.

module Common {

  datatype Option<T> = None | Some(value: T)

  newtype byte = x: int | 0 <= x < 256

  /** The bits of a source's `flags` word that the compiler looks at: only
    * BCC_SKIP_DEP_SHA1 has a meaning of its own. */
  datatype Flag = SkipDepSha1 | OtherFlag(bit: nat)

  /** The 20-byte digest stored for a source whose SHA-1 is not computed. */
  function ZeroSha1(): (z: seq<byte>)
    ensures |z| == 20 && forall i :: 0 <= i < 20 ==> z[i] == 0
  {
    seq(20, i => 0)
  }

  lemma MulNonneg(a: int, b: int)
    requires a >= 0 && b >= 0
    ensures a * b >= 0
  {
  }

  /** A non-zero multiple of `a` is at least `a` away from zero. */
  lemma MulBound(a: int, m: int)
    requires a >= 1
    ensures m >= 1 ==> a * m >= a
    ensures m <= -1 ==> a * m <= -a
  {
    if m >= 1 {
      MulNonneg(a, m - 1);
      assert a * m == a * (m - 1) + a;
    }
    if m <= -1 {
      MulNonneg(a, -m - 1);
      assert a * m == -(a * (-m - 1)) - a;
    }
  }

  /** A multiple of `a` has remainder 0. */
  lemma MultipleMod(a: int, k: int)
    requires a >= 1
    ensures (a * k) % a == 0
  {
    var q, r := (a * k) / a, (a * k) % a;
    assert a * k == a * q + r;
    assert r == a * (k - q);
    MulBound(a, k - q);
  }

  /** Rounds `x` down to a multiple of `a`; for a power of two `a` this is
    * the C idiom `x & ~(a - 1)`. */
  function AlignDown(x: int, a: int): (r: int)
    requires a >= 1
    ensures r % a == 0
    ensures r <= x < r + a
  {
    assert x - x % a == a * (x / a);
    MultipleMod(a, x / a);
    x - x % a
  }

  /** Two multiples of `a` less than `a` apart are equal. */
  lemma MultiplesApart(x: int, y: int, a: int)
    requires a >= 1 && x % a == 0 && y % a == 0
    requires x <= y < x + a
    ensures x == y
  {
    assert y - x == a * (y / a - x / a);
    MulBound(a, y / a - x / a);
  }

  /** Rounds `x` up to a multiple of `a`: `(x + a - 1) & ~(a - 1)`. */
  function AlignUp(x: int, a: int): (r: int)
    requires a >= 1
    ensures r % a == 0
    ensures x <= r < x + a
    ensures x % a == 0 ==> r == x
  {
    var r := AlignDown(x + a - 1, a);
    assert x % a == 0 ==> r == x by {
      if x % a == 0 {
        MultiplesApart(x, r, a);
      }
    }
    r
  }

  /** The allocators treat a requested alignment of 0 as 1. */
  function EffectiveAlign(a: nat): (r: nat)
    ensures r >= 1
    ensures a >= 1 ==> r == a
    ensures a == 0 ==> r == 1
  {
    if a == 0 then 1 else a
  }

  /** A prefix one longer is the shorter prefix and the next element. */
  lemma PrefixSnoc<T>(s: seq<T>, i: nat)
    requires i < |s|
    ensures s[..i + 1] == s[..i] + [s[i]]
  {
  }

  function Min(a: int, b: int): (r: int)
    ensures r <= a && r <= b
    ensures r == a || r == b
  {
    if a <= b then a else b
  }
}
