/** The few Python builtins the scripts lean on: min, max and list[:n]. */
module PyBuiltins {

  function Min(a: int, b: int): int { if a <= b then a else b }

  function Max(a: int, b: int): int { if a >= b then a else b }

  /** `xs[:n]` for a non-negative `n`: the first `n` elements, or all of them. */
  function Take<T>(xs: seq<T>, n: nat): (r: seq<T>)
    ensures |r| == Min(n, |xs|)
    ensures r == xs[..|r|]
  {
    if n <= |xs| then xs[..n] else xs
  }

  /** Python's `a // b` for a non-negative `a` and positive `b`, with the
      bound the budget computations of the collectors rely on. */
  lemma FloorDivBound(a: nat, b: nat)
    requires b > 0
    ensures (a / b) * b <= a
    ensures a < b ==> a / b == 0
  {
  }

  /** The multiplication steps the budget bounds are built from. */
  lemma MulStep(m: nat, per: nat)
    requires m >= 1
    ensures (m - 1) * per + per == m * per
  {
  }

  lemma MulMonotone(m: nat, n: nat, per: nat)
    requires m <= n
    ensures m * per <= n * per
  {
  }

  lemma MulCommute(a: nat, b: nat)
    ensures a * b == b * a
  {
  }

  /** A non-empty sequence appended to another is the front part followed by
      its last element. */
  lemma SplitLast<T>(a: seq<T>, b: seq<T>)
    requires b != []
    ensures b == b[..|b| - 1] + [b[|b| - 1]]
    ensures a + b == (a + b[..|b| - 1]) + [b[|b| - 1]]
  {
  }

  /** A sequence is the part before position `k`, the element at `k` and
      the part after it. */
  lemma SplitAt<T>(s: seq<T>, k: nat)
    requires k < |s|
    ensures s == (s[..k] + [s[k]]) + s[k + 1..]
  {
  }

  /** The prefix one longer is the prefix followed by the next element. */
  lemma PrefixSnoc<T>(s: seq<T>, k: nat)
    requires k < |s|
    ensures s[..k + 1] == s[..k] + [s[k]]
  {
  }

  lemma AppendNil<T>(s: seq<T>)
    ensures s + [] == s
  {
  }

  lemma AppendAssoc<T>(x: seq<T>, y: seq<T>, z: seq<T>)
    ensures (x + y) + z == x + (y + z)
  {
  }
}
