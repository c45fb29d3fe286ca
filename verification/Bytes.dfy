/**
 Byte strings and the two integer encodings the wallet depends on: unsigned little-endian
 words of a fixed width, and the minimal signed little-endian form that the NeoVM uses for
 integers in storage keys, push operands and serialized values.
 */
module Bytes {

  type Byte = b: int | 0 <= b < 256

  function Pow256(n: nat): (p: nat)
    ensures p > 0
  {
    if n == 0 then 1 else 256 * Pow256(n - 1)
  }

  lemma {:induction false} Pow256Monotone(m: nat, n: nat)
    requires m <= n
    ensures Pow256(m) <= Pow256(n)
    decreases n
  {
    if m < n {
      Pow256Monotone(m, n - 1);
    }
  }

  lemma ConcatAssociates<T>(a: seq<T>, b: seq<T>, c: seq<T>)
    ensures a + (b + c) == (a + b) + c
  {
  }

  // ---------------------------------------------------------------------------
  // Unsigned words
  // ---------------------------------------------------------------------------

  /** The low `n` bytes of `v`, least significant first. */
  function ToLe(v: nat, n: nat): (s: seq<Byte>)
    ensures |s| == n
    decreases n
  {
    if n == 0 then [] else [v % 256] + ToLe(v / 256, n - 1)
  }

  function FromLe(s: seq<Byte>): nat {
    if s == [] then 0 else s[0] + 256 * FromLe(s[1..])
  }

  lemma {:induction false} FromLeBound(s: seq<Byte>)
    ensures FromLe(s) < Pow256(|s|)
  {
    if s != [] {
      FromLeBound(s[1..]);
    }
  }

  lemma {:induction false} LeRoundTrip(v: nat, n: nat)
    requires v < Pow256(n)
    ensures FromLe(ToLe(v, n)) == v
    decreases n
  {
    if n > 0 {
      LeRoundTrip(v / 256, n - 1);
      assert ToLe(v, n)[1..] == ToLe(v / 256, n - 1);
    }
  }

  lemma {:induction false} LeRoundTripBytes(s: seq<Byte>)
    ensures ToLe(FromLe(s), |s|) == s
  {
    if s != [] {
      LeRoundTripBytes(s[1..]);
      assert FromLe(s) / 256 == FromLe(s[1..]) && FromLe(s) % 256 == s[0];
      assert s == [s[0]] + s[1..];
    }
  }

  // ---------------------------------------------------------------------------
  // Signed words
  // ---------------------------------------------------------------------------

  /** `v` is representable in `n` two's-complement bytes; only zero needs no byte at all. */
  predicate Fits(v: int, n: nat) {
    if n == 0 then v == 0 else -128 * Pow256(n - 1) <= v < 128 * Pow256(n - 1)
  }

  function ToSigned(v: int, n: nat): (s: seq<Byte>)
    requires Fits(v, n)
    ensures |s| == n
  {
    if v < 0 then ToLe(v + Pow256(n), n) else ToLe(v, n)
  }

  function FromSigned(s: seq<Byte>): int {
    if s == [] || s[|s| - 1] < 128 then FromLe(s) else FromLe(s) - Pow256(|s|)
  }

  lemma TopStep(top: int, p: int, high: int, low: int)
    requires top * p <= high < (top + 1) * p && 0 <= low < 256
    ensures top * (256 * p) <= low + 256 * high < (top + 1) * (256 * p)
  {
    assert top * (256 * p) == 256 * (top * p);
    assert (top + 1) * (256 * p) == 256 * ((top + 1) * p);
  }

  /** The last byte carries the sign. */
  lemma {:induction false} TopByte(s: seq<Byte>)
    requires s != []
    ensures var top: int := s[|s| - 1];
            top * Pow256(|s| - 1) <= FromLe(s) < (top + 1) * Pow256(|s| - 1)
  {
    if |s| > 1 {
      TopByte(s[1..]);
      assert s[1..][|s| - 2] == s[|s| - 1];
      TopStep(s[|s| - 1], Pow256(|s| - 2), FromLe(s[1..]), s[0]);
    }
  }

  lemma MulMonotone(a: int, b: int, p: nat)
    requires a <= b
    ensures a * p <= b * p
  {
  }

  lemma {:induction false} SignByte(s: seq<Byte>)
    requires s != []
    ensures s[|s| - 1] < 128 <==> FromLe(s) < 128 * Pow256(|s| - 1)
  {
    TopByte(s);
    var top: int, p: int := s[|s| - 1], Pow256(|s| - 1);
    if top < 128 {
      MulMonotone(top + 1, 128, p);
    } else {
      MulMonotone(128, top, p);
    }
  }

  lemma SignedRoundTrip(v: int, n: nat)
    requires Fits(v, n)
    ensures FromSigned(ToSigned(v, n)) == v
  {
    if n > 0 {
      var u := if v < 0 then v + Pow256(n) else v;
      assert Pow256(n) == 256 * Pow256(n - 1);
      LeRoundTrip(u, n);
      SignByte(ToSigned(v, n));
    }
  }

  lemma {:induction false} FitsMonotone(v: int, m: nat, n: nat)
    requires m <= n && Fits(v, m)
    ensures Fits(v, n)
  {
    if 0 < m {
      Pow256Monotone(m - 1, n - 1);
    }
  }

  /** The least width from `n` upwards that holds `v`. */
  function WidthFrom(v: int, n: nat, enough: nat): (w: nat)
    requires n <= enough && Fits(v, enough)
    ensures n <= w <= enough && Fits(v, w)
    ensures forall m | n <= m < w :: !Fits(v, m)
    decreases enough - n
  {
    if Fits(v, n) then n else WidthFrom(v, n + 1, enough)
  }

  function Magnitude(v: int): nat {
    if v < 0 then -v else v
  }

  lemma {:induction false} SomeWidthFits(v: int, a: nat)
    requires Magnitude(v) <= a
    ensures Fits(v, a + 1)
    decreases a
  {
    if a > 0 {
      SomeWidthFits(if v > 0 then v - 1 else if v < 0 then v + 1 else 0, a - 1);
    }
  }

  /** The number of bytes of the minimal signed form; zero is the empty string. */
  function Width(v: int): (w: nat)
    ensures Fits(v, w)
    ensures forall m: nat | m < w :: !Fits(v, m)
  {
    SomeWidthFits(v, Magnitude(v));
    WidthFrom(v, 0, Magnitude(v) + 1)
  }

  /** The minimal signed little-endian form, the NeoVM's byte form of an integer. */
  function Minimal(v: int): (s: seq<Byte>)
    ensures |s| == Width(v)
  {
    ToSigned(v, Width(v))
  }

  lemma MinimalInjective(v: int, w: int)
    requires Minimal(v) == Minimal(w)
    ensures v == w
  {
    SignedRoundTrip(v, Width(v));
    SignedRoundTrip(w, Width(w));
  }
}
