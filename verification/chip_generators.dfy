/** The sound generators of the VRC6, the MMC5 and the Sunsoft 5B in closed form, over
    any number of cycles without a register write (src/expansion.rs:31-249, 321-677,
    761-1061). */
module ChipGenerators {
  import opened Words
  import opened Dividers
  import opened KonamiVrc6
  import opened NintendoMmc5
  import opened Sunsoft5b

  // -------------------------------------------------------------------- VRC6

  /** A pulse divider that reloads from `period`, and its duty step, which counts down. */
  predicate VrcPulseAfter(p: VrcPulse, r: VrcPulse, period: int, n: nat) {
    && r.enabled == p.enabled && r.timerPeriod == p.timerPeriod
    && (if p.enabled then
          r.timer == TimerAt(p.timer, period, n) && r.step == (p.step - Expiries(p.timer, period, n)) % 16
        else r == p)
  }

  /** The sawtooth: fourteen steps, the rate added on every even one and the sum cleared
      on step zero. */
  predicate SawAfter(s: Saw, r: Saw, period: int, n: nat) {
    var k := Expiries(s.timer, period, n);
    && r.enabled == s.enabled && r.timerPeriod == s.timerPeriod && r.rate == s.rate
    && (if s.enabled then
          && r.timer == TimerAt(s.timer, period, n) && r.step == (s.step + k) % 14
          && r.accum == SawSum(s.accum, s.rate, s.step, k)
        else r == s)
  }

  /** A sum that `c` rates have been added to, in eight bits. */
  function Added(sum: int, rate: int, c: int): int {
    (sum + rate * c) % 0x100
  }

  function SawSum(accum: int, rate: int, step: int, k: int): int {
    if step + k < 14 then Added(accum, rate, (step + k) / 2 - step / 2) else Added(0, rate, (step + k) % 14 / 2)
  }

  lemma PeriodFits(period: u16, divisor: int)
    requires divisor >= 1
    ensures 0 <= period / divisor <= period
  {
    var q := period / divisor;
    assert period == q * divisor + period % divisor;
    assert 0 <= q;
    MulLe(1, divisor, q);
  }

  lemma VrcPulseStep(p: VrcPulse, r: VrcPulse, divisor: int, period: nat, n: nat)
    requires divisor >= 1 && period == p.timerPeriod / divisor && p.step < 16 && VrcPulseAfter(p, r, period, n)
    ensures VrcPulseAfter(p, VrcPulseTick(r, divisor), period, n + 1)
  {
    TimerStep(p.timer, period, n);
    hide TimerAt, Expiries;
    if r.timer == 0 {
      PeriodFits(p.timerPeriod, divisor);
      assert VrcPulseTick(r, divisor).timer == period || !p.enabled;
    }
  }

  lemma AddRate(sum: nat, rate: nat, c: nat)
    ensures Added(sum, rate, c + 1) == (Added(sum, rate, c) + rate) % 0x100 && 0 <= Added(sum, rate, c) < 0x100
  {
    assert rate * (c + 1) == rate * c + rate;
    ModAdd(sum + rate * c, rate, 0x100);
  }

  lemma AddNone(sum: u8, rate: u8)
    ensures Added(sum, rate, 0) == sum
  {
  }

  lemma SawSumStep(accum: u8, rate: u8, step: int, k: nat)
    requires 0 <= step < 14
    ensures var next := (step + k + 1) % 14;
            var sum := SawSum(accum, rate, step, k);
            && 0 <= sum < 0x100
            && SawSum(accum, rate, step, k + 1) == if next == 0 then 0 else if next % 2 == 0 then (sum + rate) % 0x100 else sum
    ensures SawSum(accum, rate, step, 0) == accum
  {
    hide Added;
    SuccMod(step + k, 14);
    AddNone(accum, rate);
    AddNone(0, rate);
    if step + k < 14 {
      AddRate(accum, rate, (step + k) / 2 - step / 2);
    } else {
      AddRate(0, rate, (step + k) % 14 / 2);
    }
  }

  lemma SawTickIs(s: Saw, divisor: int, period: u16)
    requires divisor >= 1 && period == s.timerPeriod / divisor
    ensures SawTick(s, divisor) ==
            if !s.enabled then s
            else if s.timer > 0 then s.(timer := s.timer - 1)
            else
              var step := (s.step + 1) % 14;
              s.(timer := period, step := step,
                 accum := if step == 0 then 0 else if step % 2 == 0 then (s.accum + s.rate) % 0x100 else s.accum)
  {
  }

  lemma SawStep(s: Saw, r: Saw, divisor: int, period: nat, n: nat)
    requires divisor >= 1 && period == s.timerPeriod / divisor && s.step < 14 && SawAfter(s, r, period, n)
    ensures SawAfter(s, SawTick(r, divisor), period, n + 1)
  {
    hide TimerAt, Expiries, SawSum, SawTick;
    TimerStep(s.timer, period, n);
    PeriodFits(s.timerPeriod, divisor);
    SawTickIs(r, divisor, period);
    if s.enabled && r.timer == 0 {
      var k := Expiries(s.timer, period, n);
      SawSumStep(s.accum, s.rate, s.step, k);
      SuccMod(s.step + k, 14);
      assert r.step == 13 || (r.step + 1) % 14 == r.step + 1;
    }
  }

  lemma VrcStarts(p: VrcPulse, s: Saw, period: nat, q: nat)
    requires p.step < 16 && s.step < 14
    ensures VrcPulseAfter(p, p, period, 0) && SawAfter(s, s, q, 0)
  {
    TimerStart(p.timer, period);
    TimerStart(s.timer, q);
    SawSumStep(s.accum, s.rate, s.step, 0);
    hide TimerAt, Expiries, SawSum;
  }

  /** How the 256x and 16x flags of $9003 divide a reloaded period. */
  function Divisor(flags: u8): (d: int)
    ensures d >= 1
  {
    if flags / 2 % 2 == 1 then 256 else if flags % 2 == 1 then 16 else 1
  }

  /** The VRC6 after a batch of any size: both pulses and the sawtooth, unless halted. */
  lemma {:induction false} VrcRuns(s: Vrc6, n: nat)
    requires s.pulse0.step < 16 && s.pulse1.step < 16 && s.saw.step < 14
    ensures var r, d := Vrc6Batch(s, n), Divisor(s.freqShift);
            && r == s.(pulse0 := r.pulse0, pulse1 := r.pulse1, saw := r.saw)
            && (if s.halt then r == s else
                  && VrcPulseAfter(s.pulse0, r.pulse0, s.pulse0.timerPeriod / d, n)
                  && VrcPulseAfter(s.pulse1, r.pulse1, s.pulse1.timerPeriod / d, n)
                  && SawAfter(s.saw, r.saw, s.saw.timerPeriod / d, n))
  {
    var d := Divisor(s.freqShift);
    assert PeriodDivisor(s.freqShift) == d;
    hide VrcPulseAfter, SawAfter, VrcPulseTick, SawTick, PeriodDivisor, Divisor;
    PeriodFits(s.pulse0.timerPeriod, d);
    PeriodFits(s.pulse1.timerPeriod, d);
    PeriodFits(s.saw.timerPeriod, d);
    if n == 0 {
      VrcStarts(s.pulse0, s.saw, s.pulse0.timerPeriod / d, s.saw.timerPeriod / d);
      VrcStarts(s.pulse1, s.saw, s.pulse1.timerPeriod / d, s.saw.timerPeriod / d);
    } else if !s.halt {
      VrcRuns(s, n - 1);
      var t := Vrc6Batch(s, n - 1);
      VrcPulseStep(s.pulse0, t.pulse0, d, s.pulse0.timerPeriod / d, n - 1);
      VrcPulseStep(s.pulse1, t.pulse1, d, s.pulse1.timerPeriod / d, n - 1);
      SawStep(s.saw, t.saw, d, s.saw.timerPeriod / d, n - 1);
    }
  }

  // -------------------------------------------------------------------- MMC5

  /** A pulse after `t` clocks of its timer and `k` of the 240 Hz clock. */
  predicate MmcPulseAfter(p: MmcPulse, r: MmcPulse, t: nat, k: nat) {
    && r == p.(timer := r.timer, step := r.step, length := r.length, envStart := r.envStart, envDecay := r.envDecay,
               envDivider := r.envDivider)
    && r.timer == TimerAt(p.timer, p.timerPeriod, t) && r.step == (p.step + Expiries(p.timer, p.timerPeriod, t)) % 8
    && r.length == (if p.halt then p.length else Max(p.length - k, 0))
    && r.envStart == (p.envStart && k == 0)
    && MmcEnvelopeAfter(p, r.envDivider, r.envDecay, k)
  }

  predicate MmcEnvelopeAfter(p: MmcPulse, divider: int, decay: int, k: nat) {
    if p.envStart && k > 0 then
      && divider == TimerAt(p.volume, p.volume, k - 1)
      && decay == DecayAfter(15, p.halt, Expiries(p.volume, p.volume, k - 1))
    else
      && divider == TimerAt(p.envDivider, p.volume, k)
      && decay == DecayAfter(p.envDecay, p.halt, Expiries(p.envDivider, p.volume, k))
  }

  lemma MmcStarts(p: MmcPulse)
    requires p.step < 8
    ensures MmcPulseAfter(p, p, 0, 0)
  {
    TimerStart(p.timer, p.timerPeriod);
    TimerStart(p.envDivider, p.volume);
    DecayStep(p.envDecay, p.halt, 0);
    hide TimerAt, Expiries, DecayAfter;
  }

  lemma MmcTimerStep(p: MmcPulse, r: MmcPulse, t: nat, k: nat)
    requires MmcPulseAfter(p, r, t, k)
    ensures MmcPulseAfter(p, MmcPulseTick(r), t + 1, k)
  {
    TimerStep(p.timer, p.timerPeriod, t);
    SuccMod(p.step + Expiries(p.timer, p.timerPeriod, t), 8);
    hide TimerAt, Expiries, MmcEnvelopeAfter;
  }

  lemma MmcFrameStep(p: MmcPulse, r: MmcPulse, t: nat, k: nat)
    requires MmcPulseAfter(p, r, t, k)
    ensures MmcPulseAfter(p, NintendoMmc5.ClockLength(ClockEnvelope(r)), t, k + 1)
  {
    hide TimerAt, Expiries, DecayAfter;
    if p.envStart {
      if k == 0 {
        TimerStart(p.volume, p.volume);
        DecayStep(15, p.halt, 0);
      } else {
        TimerStep(p.volume, p.volume, k - 1);
        DecayStep(15, p.halt, Expiries(p.volume, p.volume, k - 1));
      }
    } else {
      TimerStep(p.envDivider, p.volume, k);
      DecayStep(p.envDecay, p.halt, Expiries(p.envDivider, p.volume, k));
    }
  }

  lemma MmcCycle(s: Mmc5, r: Mmc5, t: nat, k: nat)
    requires MmcPulseAfter(s.pulse0, r.pulse0, t, k) && MmcPulseAfter(s.pulse1, r.pulse1, t, k)
    ensures var q, t' := Mmc5Tick(r), t + r.carry;
            var k' := if r.frameAcc == 7456 then k + 1 else k;
            && q == r.(pulse0 := q.pulse0, pulse1 := q.pulse1, carry := 1 - r.carry,
                       frameAcc := if r.frameAcc == 7456 then 0 else r.frameAcc + 1)
            && MmcPulseAfter(s.pulse0, q.pulse0, t', k') && MmcPulseAfter(s.pulse1, q.pulse1, t', k')
  {
    hide MmcPulseAfter, MmcPulseTick, ClockEnvelope, NintendoMmc5.ClockLength;
    MmcTimerStep(s.pulse0, r.pulse0, t, k);
    MmcTimerStep(s.pulse1, r.pulse1, t, k);
    var u, t' := TimersTick(r), t + r.carry;
    MmcFrameStep(s.pulse0, u.pulse0, t', k);
    MmcFrameStep(s.pulse1, u.pulse1, t', k);
  }

  /** Of `n` cycles, those that clock the timers and those that clock the frame units. */
  function HalfClocks(s: Mmc5, n: nat): nat {
    QuotientNatural(s.carry + n, 2);
    (s.carry + n) / 2
  }

  function FrameClocks(s: Mmc5, n: nat): nat {
    QuotientNatural(s.frameAcc + n, 7457);
    (s.frameAcc + n) / 7457
  }

  lemma ClocksStep(s: Mmc5, n: nat)
    ensures HalfClocks(s, 0) == 0 && FrameClocks(s, 0) == 0
    ensures HalfClocks(s, n + 1) == HalfClocks(s, n) + (s.carry + n) % 2
    ensures FrameClocks(s, n + 1) == FrameClocks(s, n) + if (s.frameAcc + n) % 7457 == 7456 then 1 else 0
    ensures (s.carry + n + 1) % 2 == 1 - (s.carry + n) % 2
    ensures (s.frameAcc + n + 1) % 7457 == if (s.frameAcc + n) % 7457 == 7456 then 0 else (s.frameAcc + n) % 7457 + 1
  {
    SuccMod(s.carry + n, 2);
    SuccMod(s.frameAcc + n, 7457);
  }

  /** The MMC5 after any number of cycles: its pulse timers at half the CPU clock, and
      envelope and length counter of both pulses once every 7457 cycles. */
  lemma {:induction false} MmcRuns(s: Mmc5, n: nat)
    requires s.pulse0.step < 8 && s.pulse1.step < 8
    ensures var r := Iterate(Mmc5Tick, s, n);
            var t, k := HalfClocks(s, n), FrameClocks(s, n);
            && r == s.(pulse0 := r.pulse0, pulse1 := r.pulse1, frameAcc := (s.frameAcc + n) % 7457, carry := (s.carry + n) % 2)
            && MmcPulseAfter(s.pulse0, r.pulse0, t, k) && MmcPulseAfter(s.pulse1, r.pulse1, t, k)
  {
    hide MmcPulseAfter, Mmc5Tick, HalfClocks, FrameClocks;
    if n == 0 {
      ClocksStep(s, 0);
      MmcStarts(s.pulse0);
      MmcStarts(s.pulse1);
    } else {
      MmcRuns(s, n - 1);
      ClocksStep(s, n - 1);
      MmcCycle(s, Iterate(Mmc5Tick, s, n - 1), HalfClocks(s, n - 1), FrameClocks(s, n - 1));
    }
  }

  // -------------------------------------------------------------- Sunsoft 5B

  /** A tone flips its level every `period` intervals. */
  lemma {:induction false} ToneRuns(t: Tone, n: nat)
    requires t.timer < Max(t.timerPeriod, 1) && t.level < 2
    ensures var p := Max(t.timerPeriod, 1);
            && 0 <= (t.timer + n) / p && 0 <= (t.timer + n) % p < p
            && Iterate(ToneStep, t, n) == t.(timer := (t.timer + n) % p, level := (t.level + (t.timer + n) / p) % 2)
  {
    var p := Max(t.timerPeriod, 1);
    QuotientNatural(t.timer + n, p);
    if n == 0 {
      DivModUnique(t.timer, p, 0, t.timer);
    } else {
      ToneRuns(t, n - 1);
      SuccMod(t.timer + n - 1, p);
      QuotientNatural(t.timer + n - 1, p);
    }
  }

  /** One shift of the 17-bit noise register: bits 0 and 3 feed its top. */
  function NoiseNext(lfsr: nat): nat {
    lfsr / 2 + if (lfsr % 2 == 1) != (lfsr / 8 % 2 == 1) then 0x1_0000 else 0
  }

  function NoiseAfter(lfsr: nat, k: nat): nat {
    if k == 0 then lfsr else NoiseNext(NoiseAfter(lfsr, k - 1))
  }

  /** The noise register shifts every `2 * period` intervals. */
  lemma {:induction false} NoiseRuns5b(s: NoiseGen, n: nat)
    requires s.timer < 2 * Max(s.period, 1) && s.lfsr < 0x2_0000
    ensures var p := 2 * Max(s.period, 1);
            && 0 <= (s.timer + n) / p && 0 <= (s.timer + n) % p < p && NoiseAfter(s.lfsr, (s.timer + n) / p) < 0x2_0000
            && Iterate(Sunsoft5b.NoiseStep, s, n)
               == s.(timer := (s.timer + n) % p, lfsr := NoiseAfter(s.lfsr, (s.timer + n) / p))
  {
    hide NoiseNext;
    var p := 2 * Max(s.period, 1);
    QuotientNatural(s.timer + n, p);
    if n == 0 {
      DivModUnique(s.timer, p, 0, s.timer);
    } else {
      NoiseRuns5b(s, n - 1);
      SuccMod(s.timer + n - 1, p);
      QuotientNatural(s.timer + n - 1, p);
      NoiseStepIs(Iterate(Sunsoft5b.NoiseStep, s, n - 1));
      hide Sunsoft5b.NoiseStep;
    }
  }

  lemma NoiseStepIs(s: NoiseGen)
    requires s.timer < 2 * Max(s.period, 1) && s.lfsr < 0x2_0000
    ensures NoiseNext(s.lfsr) < 0x2_0000
    ensures Sunsoft5b.NoiseStep(s) == if s.timer + 1 == 2 * Max(s.period, 1) then s.(timer := 0, lfsr := NoiseNext(s.lfsr))
                                      else s.(timer := s.timer + 1)
  {
  }

  /** The envelope as a write of its shape leaves it. */
  function FreshRamp(period: u16, shape: u8): Sunsoft5b.Envelope {
    Sunsoft5b.Envelope(period, 0, if shape / 4 % 2 == 1 then 0 else 31, shape, false, false)
  }

  /** The level of each of the sixteen shapes after `a` steps. */
  function ShapeLevel(shape: u8, a: int): int {
    var attack, alternate := shape / 4 % 2 == 1, shape / 2 % 2 == 1;
    if a <= 31 then if attack then a else 31 - a
    else if shape < 8 then 0
    else if shape % 2 == 1 then if attack != alternate then 31 else 0
    else if !alternate then if attack then a % 32 else 31 - a % 32
    else
      var back := if a <= 62 then 62 - a else a % 2;
      if attack then back else 31 - back
  }

  predicate Holds(shape: u8) {
    shape < 8 || shape % 2 == 1
  }

  /** The ramp after `a` steps of which the last was just made. */
  function RampAt(period: u16, shape: u8, a: nat): Sunsoft5b.Envelope {
    Sunsoft5b.Envelope(period, 0, ShapeLevel(shape, a), shape, a >= 32, a >= 32 && Holds(shape))
  }

  lemma AdvanceRamp(period: u16, shape: u8, a: nat)
    requires shape < 16 && (a < 32 || !Holds(shape))
    ensures RampAdvance(RampAt(period, shape, a)) == RampAt(period, shape, a + 1)
  {
    SuccMod(a, 32);
    SuccMod(a, 2);
  }

  lemma HeldRamp(period: u16, shape: u8, a: nat)
    requires shape < 16 && a >= 32 && Holds(shape)
    ensures RampAt(period, shape, a) == RampAt(period, shape, 32)
  {
  }

  /** The envelope after any number of intervals from a shape write on: one step every
      `period` of them, each shape at its own level, and held where the shape holds. */
  lemma {:induction false} RampRuns(period: u16, shape: u8, n: nat)
    requires shape < 16
    ensures var p := Max(period, 1);
            && 0 <= n / p && 0 <= n % p < p
            && Iterate(RampStep, FreshRamp(period, shape), n) == TimedRamp(period, shape, n / p, n % p)
  {
    hide TimedRamp, RampStep;
    var p := Max(period, 1);
    QuotientNatural(n, p);
    if n == 0 {
      DivModUnique(0, p, 0, 0);
      FreshIs(period, shape);
    } else {
      RampRuns(period, shape, n - 1);
      SuccMod(n - 1, p);
      QuotientNatural(n - 1, p);
      RampInterval(period, shape, (n - 1) / p, (n - 1) % p);
    }
  }

  function TimedRamp(period: u16, shape: u8, a: nat, t: u16): Sunsoft5b.Envelope {
    var r := RampAt(period, shape, a);
    r.(timer := if r.holding then 0 else t)
  }

  lemma RampInterval(period: u16, shape: u8, a: nat, t: u16)
    requires shape < 16 && t < Max(period, 1)
    ensures RampStep(TimedRamp(period, shape, a, t))
         == if t + 1 < Max(period, 1) then TimedRamp(period, shape, a, t + 1) else TimedRamp(period, shape, a + 1, 0)
  {
    hide RampAdvance, ShapeLevel, Holds;
    if a < 32 || !Holds(shape) {
      AdvanceRamp(period, shape, a);
    } else {
      HeldRamp(period, shape, a);
      HeldRamp(period, shape, a + 1);
    }
  }

  lemma FreshIs(period: u16, shape: u8)
    requires shape < 16
    ensures FreshRamp(period, shape) == TimedRamp(period, shape, 0, 0)
  {
  }

  /** The triangle of a ramp that flips its direction at each edge. */
  function TriangleLevel(attack: bool, a: nat): int {
    var x := if a % 62 <= 31 then a % 62 else 62 - a % 62;
    if attack then x else 31 - x
  }

  /** The two shapes that alternate without holding, 10 and 14, follow that triangle for
      63 steps, and afterwards bounce between the last two levels they reached: they are
      on it only where it comes within one step of that end. */
  lemma AlternatesIff(attack: bool, a: nat)
    ensures ShapeLevel(if attack then 14 else 10, a) == TriangleLevel(attack, a)
            <==> a <= 63 || a % 62 == 0 || a % 62 == 1 || a % 62 == 61
  {
    if a > 62 {
      SixtyTwo(a);
    }
  }

  lemma SixtyTwo(a: nat)
    ensures a % 62 % 2 == a % 2
  {
  }

  /** The concrete case: shape 10 with period 1. Its second fall ends after one step. */
  lemma AlternatesCounterexample()
    ensures Iterate(RampStep, FreshRamp(1, 10), 62).step == 31
    ensures Iterate(RampStep, FreshRamp(1, 10), 63).step == 30
    ensures Iterate(RampStep, FreshRamp(1, 10), 64).step == 31 != TriangleLevel(false, 64)
  {
    hide *;
    RampLevel(10, 62);
    RampLevel(10, 63);
    RampLevel(10, 64);
    assert ShapeLevel(10, 62) == 31 && ShapeLevel(10, 63) == 30 && ShapeLevel(10, 64) == 31 && TriangleLevel(false, 64) == 29 by {
      SomeLevels();
    }
  }

  lemma SomeLevels()
    ensures ShapeLevel(10, 62) == 31 && ShapeLevel(10, 63) == 30 && ShapeLevel(10, 64) == 31 && TriangleLevel(false, 64) == 29
  {
  }

  /** With period 1 the level is that of as many steps as intervals. */
  lemma RampLevel(shape: u8, n: nat)
    requires shape < 16
    ensures Iterate(RampStep, FreshRamp(1, shape), n).step == ShapeLevel(shape, n)
  {
    hide RampStep, Iterate, ShapeLevel;
    RampRuns(1, shape, n);
    DivModUnique(n, 1, n, 0);
  }

  /** The whole unit, over a batch of any size: every generator makes one step for each
      sixteen cycles, and the remainder is carried. */
  lemma UnitRuns5b(s: S5b, cycles: nat)
    ensures var r, k := S5bBatch(s, cycles), (s.clockRem + cycles) / 16;
            && r == s.(toneA := r.toneA, toneB := r.toneB, toneC := r.toneC, noise := r.noise, ramp := r.ramp,
                       clockRem := (s.clockRem + cycles) % 16)
            && r.toneA == Iterate(ToneStep, s.toneA, k) && r.toneB == Iterate(ToneStep, s.toneB, k)
            && r.toneC == Iterate(ToneStep, s.toneC, k) && r.noise == Iterate(Sunsoft5b.NoiseStep, s.noise, k)
            && r.ramp == Iterate(RampStep, s.ramp, k)
  {
    hide Interval, ToneStep, Sunsoft5b.NoiseStep, RampStep, Iterate;
    var k := (s.clockRem + cycles) / 16;
    IntervalRuns(s, k);
    assert S5bBatch(s, cycles) == Iterate(Interval, s, k).(clockRem := (s.clockRem + cycles) % 16);
  }

  lemma {:induction false} IntervalRuns(s: S5b, k: nat)
    ensures var r := Iterate(Interval, s, k);
            && r == s.(toneA := r.toneA, toneB := r.toneB, toneC := r.toneC, noise := r.noise, ramp := r.ramp)
            && r.toneA == Iterate(ToneStep, s.toneA, k) && r.toneB == Iterate(ToneStep, s.toneB, k)
            && r.toneC == Iterate(ToneStep, s.toneC, k) && r.noise == Iterate(Sunsoft5b.NoiseStep, s.noise, k)
            && r.ramp == Iterate(RampStep, s.ramp, k)
  {
    hide ToneStep, Sunsoft5b.NoiseStep, RampStep;
    if k > 0 {
      IntervalRuns(s, k - 1);
    }
  }
}
