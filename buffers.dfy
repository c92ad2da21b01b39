/**
 * The append-only buffers both demos fill: runs of equal values, as the
 * colour loops push them, and the regrouping of successive appends.
 */
module Buffers {

  /** `n` copies of `x`. */
  function Copies<T>(x: T, n: nat): seq<T> {
    seq(n, _ => x)
  }

  /** Appending to an empty buffer yields what was appended. */
  lemma AppendToEmpty<T>(s: seq<T>)
    ensures [] + s == s
  {
  }

  /** Appending in two steps is appending the concatenation. */
  lemma AppendTwice<T>(s: seq<T>, a: seq<T>, b: seq<T>)
    ensures s + a + b == s + (a + b)
  {
  }

  /** Appending six pieces in turn is appending their concatenation. */
  lemma AppendSix<T>(s: seq<T>, a: seq<T>, b: seq<T>, c: seq<T>, d: seq<T>, e: seq<T>, f: seq<T>)
    ensures s + a + b + c + d + e + f == s + (a + b + c + d + e + f)
  {
    AppendTwice(s, a, b);
    AppendTwice(s, a + b, c);
    AppendTwice(s, a + b + c, d);
    AppendTwice(s, a + b + c + d, e);
    AppendTwice(s, a + b + c + d + e, f);
  }

  /** Two runs of copies make one longer run. */
  lemma CopiesAppend<T>(x: T, m: nat, n: nat)
    ensures Copies(x, m) + Copies(x, n) == Copies(x, m + n)
  {
  }

  /** Copies appended in two runs are one longer run. */
  lemma AppendCopies<T>(s: seq<T>, x: T, m: nat, n: nat)
    ensures s + Copies(x, m) + Copies(x, n) == s + Copies(x, m + n)
  {
    AppendTwice(s, Copies(x, m), Copies(x, n));
    CopiesAppend(x, m, n);
  }
}
