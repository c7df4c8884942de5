/** The VRC6 oscillators (src/expansion.rs:31-249). */
module KonamiVrc6 {
  import opened Words

  datatype VrcPulse = VrcPulse(enabled: bool, timerPeriod: u16, timer: u16, step: u8)

  datatype Saw = Saw(enabled: bool, rate: u8, timerPeriod: u16, timer: u16, accum: u8, step: u8)

  datatype Vrc6 = Vrc6(enabled: bool, pulse0: VrcPulse, pulse1: VrcPulse, saw: Saw, freqShift: u8, halt: bool)

  /** Divisor of a reloaded period: the 256x flag overrides the 16x flag. */
  function PeriodDivisor(freqShift: u8): (w: int)
    ensures w >= 1
  {
    if Bit(freqShift, 2) then 256 else if Bit(freqShift, 1) then 16 else 1
  }

  function VrcPulseTick(p: VrcPulse, divisor: int): VrcPulse
    requires divisor >= 1
  {
    if !p.enabled then p
    else if p.timer == 0 then
      p.(timer := p.timerPeriod / divisor, step := if p.step == 0 then 15 else p.step - 1)
    else p.(timer := p.timer - 1)
  }

  /** Fourteen steps: the accumulator resets at step 0 and grows at even ones. */
  function SawTick(s: Saw, divisor: int): Saw
    requires divisor >= 1
  {
    if !s.enabled then s
    else if s.timer == 0 then
      var step := (s.step + 1) % 14;
      s.(timer := s.timerPeriod / divisor, step := step,
         accum := if step == 0 then 0 else if step % 2 == 0 then (s.accum + s.rate) % 0x100 else s.accum)
    else s.(timer := s.timer - 1)
  }

  function Vrc6Tick(s: Vrc6): Vrc6 {
    if s.halt then s
    else
      var w := PeriodDivisor(s.freqShift);
      s.(pulse0 := VrcPulseTick(s.pulse0, w), pulse1 := VrcPulseTick(s.pulse1, w), saw := SawTick(s.saw, w))
  }

  /** The loop of `tick`: all oscillators, cycle by cycle. */
  function Oscillators(s: Vrc6, divisor: int, n: nat): Vrc6
    requires divisor >= 1
  {
    if n == 0 then s
    else
      var t := Oscillators(s, divisor, n - 1);
      t.(pulse0 := VrcPulseTick(t.pulse0, divisor), pulse1 := VrcPulseTick(t.pulse1, divisor),
         saw := SawTick(t.saw, divisor))
  }

  /** `tick`: a halted chip stands still, and the divisor is read once a batch. */
  function Vrc6Batch(s: Vrc6, n: nat): Vrc6 {
    if s.halt then s else Oscillators(s, PeriodDivisor(s.freqShift), n)
  }

  /** A batch of any size is that many single cycles. */
  lemma {:induction false} BatchIsCycles(s: Vrc6, n: nat)
    ensures Vrc6Batch(s, n) == Iterate(Vrc6Tick, s, n)
    ensures Vrc6Batch(s, n).halt == s.halt && Vrc6Batch(s, n).freqShift == s.freqShift
  {
    hide VrcPulseTick, SawTick, PeriodDivisor;
    if s.halt {
      IterateFixed(Vrc6Tick, s, n);
    } else if n > 0 {
      BatchIsCycles(s, n - 1);
    }
  }

  class Vrc6Chip {
    var enabled: bool
    var pulse0: VrcPulse
    var pulse1: VrcPulse
    var saw: Saw
    var freqShift: u8
    var halt: bool

    ghost function State(): Vrc6
      reads this
    {
      Vrc6(enabled, pulse0, pulse1, saw, freqShift, halt)
    }

    constructor ()
      ensures State() == Vrc6(false, VrcPulse(false, 0, 0, 15), VrcPulse(false, 0, 0, 15),
                              Saw(false, 0, 0, 0, 0, 0), 0, false)
    {
      enabled, freqShift, halt := false, 0, false;
      pulse0, pulse1 := VrcPulse(false, 0, 0, 15), VrcPulse(false, 0, 0, 15);
      saw := Saw(false, 0, 0, 0, 0, 0);
    }

    method Tick(cycles: nat)
      modifies this
      ensures State() == Vrc6Batch(old(State()), cycles) == Iterate(Vrc6Tick, old(State()), cycles)
    {
      hide VrcPulseTick, SawTick, PeriodDivisor;
      ghost var was := State();
      BatchIsCycles(was, cycles);
      if halt {
        return;
      }
      var divisor := PeriodDivisor(freqShift);
      for i := 0 to cycles
        invariant State() == Oscillators(was, divisor, i)
      {
        pulse0 := VrcPulseTick(pulse0, divisor);
        pulse1 := VrcPulseTick(pulse1, divisor);
        saw := SawTick(saw, divisor);
      }
    }
  }
}
