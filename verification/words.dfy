/** Machine words, bit tests and repeated application of a one-cycle step.
    Registers of the modelled machine are integers with their width as a subset
    type, so every update proves that it neither overflows nor underflows. */
module Words {

  type u1 = x: int | 0 <= x < 2
  type u3 = x: int | 0 <= x < 8
  type u7 = x: int | 0 <= x < 0x80
  type u8 = x: int | 0 <= x < 0x100
  type u11 = x: int | 0 <= x < 0x800
  type u15 = x: int | 0 <= x < 0x8000
  type u16 = x: int | 0 <= x < 0x1_0000
  type u32 = x: int | 0 <= x < 0x1_0000_0000

  const U32_MAX := 0xFFFF_FFFF

  datatype Option<+T> = None | Some(value: T)

  datatype Result<+T, +E> = Ok(value: T) | Err(error: E)

  function Min(a: int, b: int): int {
    if a <= b then a else b
  }

  function Max(a: int, b: int): int {
    if a <= b then b else a
  }

  /** u32 saturating addition. */
  function SatAdd(a: nat, b: nat): u32 {
    Min(a + b, U32_MAX)
  }

  /** Whether the bit of `v` with the given weight (a power of two) is set. */
  predicate Bit(v: nat, weight: nat)
    requires 0 < weight
  {
    (v / weight) % 2 == 1
  }

  /** `n` applications of a step function. Every clocked unit is specified as
      `Iterate(OneCycle, state, n)`; every batched method is proved to be it. */
  function Iterate<S>(step: S -> S, s: S, n: nat): S {
    if n == 0 then s else step(Iterate(step, s, n - 1))
  }

  lemma {:induction false} IterateAdd<S>(step: S -> S, s: S, a: nat, b: nat)
    ensures Iterate(step, Iterate(step, s, a), b) == Iterate(step, s, a + b)
  {
    if b > 0 {
      IterateAdd(step, s, a, b - 1);
    }
  }

  lemma MulLe(a: nat, b: nat, p: nat)
    requires a <= b
    ensures a * p <= b * p
  {
  }

  lemma {:induction false} DivModUnique(x: nat, p: nat, q: nat, r: nat)
    requires 0 < p && r < p && x == q * p + r
    ensures x / p == q && x % p == r
  {
    var q', r' := x / p, x % p;
    assert x == q' * p + r' && 0 <= r' < p;
    assert (q' + 1) * p == q' * p + p && (q + 1) * p == q * p + p;
    if q' < q {
      MulLe(q' + 1, q, p);
    } else if q < q' {
      MulLe(q + 1, q', p);
    }
  }

  lemma DivPlus(x: nat, p: nat, k: nat)
    requires 0 < p
    ensures (x + p * k) / p == x / p + k
  {
    var q, r := x / p, x % p;
    assert x == q * p + r;
    assert (q + k) * p == q * p + p * k;
    DivModUnique(x + p * k, p, q + k, r);
  }

  lemma {:induction false} SuccMod(k: nat, p: nat)
    requires 0 < p
    ensures (k + 1) % p == if k % p == p - 1 then 0 else k % p + 1
    ensures (k + 1) / p == if k % p == p - 1 then k / p + 1 else k / p
  {
    var q, r := k / p, k % p;
    assert k == q * p + r;
    if r == p - 1 {
      assert (q + 1) * p == q * p + p;
      DivModUnique(k + 1, p, q + 1, 0);
    } else {
      DivModUnique(k + 1, p, q, r + 1);
    }
  }

  lemma {:induction false} ModAdd(a: nat, b: nat, m: nat)
    requires 0 < m
    ensures (a % m + b) % m == (a + b) % m
  {
    var q := a / m;
    var q2, r2 := (a % m + b) / m, (a % m + b) % m;
    assert a == q * m + a % m;
    assert a % m + b == q2 * m + r2;
    assert (q + q2) * m == q * m + q2 * m;
    DivModUnique(a + b, m, q + q2, r2);
  }

  lemma {:induction false} IterateFixed<S>(step: S -> S, s: S, n: nat)
    requires step(s) == s
    ensures Iterate(step, s, n) == s
  {
    if n > 0 {
      IterateFixed(step, s, n - 1);
    }
  }
}
