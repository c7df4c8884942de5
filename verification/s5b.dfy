/** The Sunsoft 5B sound unit (src/expansion.rs:761-1061). */
module Sunsoft5b {
  import opened Words

  type Cycle16 = x: int | 0 <= x < 16

  datatype Tone = Tone(timerPeriod: u16, timer: u16, level: u8)

  datatype NoiseGen = NoiseGen(period: u8, timer: u16, lfsr: nat)

  datatype Envelope = Envelope(period: u16, timer: u16, step: int, shape: u8, attacked: bool, holding: bool)

  datatype S5b = S5b(enabled: bool, toneA: Tone, toneB: Tone, toneC: Tone, noise: NoiseGen, ramp: Envelope,
                     clockRem: Cycle16)

  /** The counter saturates, flips the level on reaching the period and restarts. */
  function ToneStep(t: Tone): Tone {
    var timer := Min(t.timer + 1, 0xFFFF);
    if timer >= Max(t.timerPeriod, 1) then t.(timer := 0, level := 1 - t.level % 2) else t.(timer := timer)
  }

  /** Advances every other interval: a 17-bit register with taps at bits 0 and 3. */
  function NoiseStep(n: NoiseGen): NoiseGen {
    var timer := (n.timer + 1) % 0x1_0000;
    if timer % 2 == 0 && timer / 2 >= Max(n.period, 1) then
      n.(timer := 0, lfsr := (n.lfsr / 2 + (n.lfsr % 2 + n.lfsr / 8 % 2) % 2 * 0x1_0000) % 0x2_0000)
    else n.(timer := timer)
  }

  /** One envelope step, with the continue, attack, alternate and hold bits. */
  function RampAdvance(r: Envelope): Envelope {
    var attack, cont, alt, hold := Bit(r.shape, 4), Bit(r.shape, 8), Bit(r.shape, 2), Bit(r.shape, 1);
    var rising := if !r.attacked then attack else attack != alt;
    var next := if rising then r.step + 1 else r.step - 1;
    if 0 <= next <= 31 then r.(step := next)
    else if !cont then r.(step := 0, attacked := true, holding := true)
    else if hold then r.(step := if rising != alt then 31 else 0, attacked := true, holding := true)
    else if alt then r.(step := if rising then 30 else 1, attacked := true)
    else r.(step := if rising then 0 else 31, attacked := true)
  }

  function RampStep(r: Envelope): Envelope {
    if r.holding then r
    else
      var timer := (r.timer + 1) % 0x1_0000;
      if timer >= Max(r.period, 1) then RampAdvance(r.(timer := 0)) else r.(timer := timer)
  }

  /** One 16-clock interval. */
  function Interval(s: S5b): S5b {
    s.(toneA := ToneStep(s.toneA), toneB := ToneStep(s.toneB), toneC := ToneStep(s.toneC),
       noise := NoiseStep(s.noise), ramp := RampStep(s.ramp))
  }

  /** One CPU cycle. */
  function S5bTick(s: S5b): S5b {
    if s.clockRem == 15 then Interval(s.(clockRem := 0)) else s.(clockRem := s.clockRem + 1)
  }

  /** `tick`: whole intervals are consumed and the remainder carries over. */
  function S5bBatch(s: S5b, cycles: nat): S5b {
    Iterate(Interval, s, (s.clockRem + cycles) / 16).(clockRem := (s.clockRem + cycles) % 16)
  }

  /** A batch of any size is that many single cycles. */
  lemma {:induction false} CyclesAreIntervals(s: S5b, cycles: nat)
    ensures S5bBatch(s, cycles) == Iterate(S5bTick, s, cycles)
    ensures Iterate(Interval, s, (s.clockRem + cycles) / 16).clockRem == s.clockRem
  {
    hide ToneStep, NoiseStep, RampStep;
    if cycles > 0 {
      CyclesAreIntervals(s, cycles - 1);
    }
  }

  /** The ramp never leaves 0..31, and once a shape holds it holds for good. */
  lemma {:induction false} RampStays(r: Envelope, n: nat)
    requires 0 <= r.step <= 31
    ensures 0 <= Iterate(RampStep, r, n).step <= 31
    ensures r.holding ==> Iterate(RampStep, r, n) == r
  {
    if n > 0 {
      RampStays(r, n - 1);
    }
  }

  class Sunsoft5bChip {
    var enabled: bool
    var toneA: Tone
    var toneB: Tone
    var toneC: Tone
    var noise: NoiseGen
    var ramp: Envelope
    var clockRem: Cycle16

    ghost function State(): S5b
      reads this
    {
      S5b(enabled, toneA, toneB, toneC, noise, ramp, clockRem)
    }

    constructor ()
      ensures State() == S5b(false, Tone(0, 0, 0), Tone(0, 0, 0), Tone(0, 0, 0), NoiseGen(0, 0, 1),
                             Envelope(0, 0, 0, 0, false, false), 0)
    {
      enabled, toneA, toneB, toneC := false, Tone(0, 0, 0), Tone(0, 0, 0), Tone(0, 0, 0);
      noise, ramp, clockRem := NoiseGen(0, 0, 1), Envelope(0, 0, 0, 0, false, false), 0;
    }

    method Tick(cycles: nat)
      modifies this
      ensures State() == S5bBatch(old(State()), cycles) == Iterate(S5bTick, old(State()), cycles)
    {
      hide ToneStep, NoiseStep, RampStep, S5bTick;
      ghost var was := State();
      CyclesAreIntervals(was, cycles);
      var total := clockRem + cycles;
      var intervals := total / 16;
      for i := 0 to intervals
        invariant State() == Iterate(Interval, was, i)
      {
        toneA, toneB, toneC := ToneStep(toneA), ToneStep(toneB), ToneStep(toneC);
        noise := NoiseStep(noise);
        ramp := RampStep(ramp);
      }
      clockRem := total % 16;
    }
  }
}
