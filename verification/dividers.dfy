/** Countdowns in closed form: a timer that reloads from its period when it is clocked
    at zero, and the decay level and length counters that such timers drive. */
module Dividers {
  import opened Words

  /** A countdown after `n` clocks: at the period again one clock after zero. */
  function TimerAt(timer: int, period: int, n: int): int {
    if n <= timer then timer - n else if period < 0 then 0 else period - (n - timer - 1) % (period + 1)
  }

  /** How often it was clocked at zero: first after `timer + 1` clocks and then every
      `period + 1`. */
  function Expiries(timer: int, period: int, n: int): int {
    if n <= timer || period < 0 then 0 else (n - timer - 1) / (period + 1) + 1
  }

  lemma QuotientNatural(n: nat, p: nat)
    requires p >= 1
    ensures 0 <= n / p && 0 <= n % p < p
  {
  }

  lemma TimerStart(timer: nat, period: nat)
    ensures TimerAt(timer, period, 0) == timer && Expiries(timer, period, 0) == 0
  {
  }

  lemma TimerStep(timer: nat, period: nat, n: nat)
    ensures var t, k := TimerAt(timer, period, n), Expiries(timer, period, n);
            && 0 <= t <= Max(timer, period) && 0 <= k <= n
            && TimerAt(timer, period, n + 1) == (if t == 0 then period else t - 1)
            && Expiries(timer, period, n + 1) == (if t == 0 then k + 1 else k)
  {
    if n > timer {
      SuccMod(n - timer - 1, period + 1);
      QuotientNatural(n - timer - 1, period + 1);
      QuotientSmall(n - timer - 1, period + 1);
    } else if n == timer {
      DivModUnique(0, period + 1, 0, 0);
    }
  }

  lemma QuotientSmall(n: nat, p: nat)
    requires p >= 1
    ensures n / p <= n
  {
    var q, r := n / p, n % p;
    assert n == q * p + r;
    QuotientNatural(n, p);
    MulLe(1, p, q);
  }

  /** A decay level after `k` steps: down to zero and, when looping, round from 15. */
  function DecayAfter(level: int, loops: bool, k: int): int {
    if k <= level then level - k else if loops then 15 - (k - level - 1) % 16 else 0
  }

  lemma DecayStep(level: nat, loops: bool, k: nat)
    ensures 0 <= DecayAfter(level, loops, k) <= Max(level, 15)
    ensures DecayAfter(level, loops, k + 1) ==
            (var d := DecayAfter(level, loops, k); if d > 0 then d - 1 else if loops then 15 else 0)
    ensures DecayAfter(level, loops, 0) == level
  {
    if loops && k > level {
      SuccMod(k - level - 1, 16);
    }
  }
}
