/** The MMC5 sound unit (src/expansion.rs:321-677). */
module NintendoMmc5 {
  import opened Words

  const MMC5_FRAME_CPU := 7457

  type FrameAcc = x: int | 0 <= x < MMC5_FRAME_CPU

  datatype MmcPulse = MmcPulse(
    enabled: bool, duty: u8, volume: u8, constant: bool, timerPeriod: u16, timer: u16, step: u8,
    length: u8, halt: bool, envStart: bool, envDecay: u8, envDivider: u8)

  datatype Mmc5 = Mmc5(
    enabled: bool, pulse0: MmcPulse, pulse1: MmcPulse, pcm: u8, pcmReadMode: bool, status: u8,
    irqEnable: bool, irqTrip: bool, frameAcc: FrameAcc, carry: u1)

  function MmcPulseTick(p: MmcPulse): MmcPulse {
    if p.timer == 0 then p.(timer := p.timerPeriod, step := (p.step + 1) % 8)
    else p.(timer := p.timer - 1)
  }

  function ClockEnvelope(p: MmcPulse): MmcPulse {
    if p.envStart then p.(envStart := false, envDecay := 15, envDivider := p.volume)
    else if p.envDivider == 0 then
      p.(envDivider := p.volume,
         envDecay := if p.envDecay > 0 then p.envDecay - 1 else if p.halt then 15 else p.envDecay)
    else p.(envDivider := p.envDivider - 1)
  }

  function ClockLength(p: MmcPulse): MmcPulse {
    if !p.halt && p.length > 0 then p.(length := p.length - 1) else p
  }

  /** The two pulse timers at half the CPU rate. */
  function TimersTick(s: Mmc5): Mmc5 {
    if s.carry == 1 then s.(pulse0 := MmcPulseTick(s.pulse0), pulse1 := MmcPulseTick(s.pulse1), carry := 0)
    else s.(carry := 1)
  }

  /** The 240 Hz clock: envelope and length of both pulses at once. */
  function FrameClock(s: Mmc5): Mmc5 {
    s.(pulse0 := ClockLength(ClockEnvelope(s.pulse0)), pulse1 := ClockLength(ClockEnvelope(s.pulse1)))
  }

  /** One CPU cycle. */
  function Mmc5Tick(s: Mmc5): Mmc5 {
    var t := TimersTick(s);
    if s.frameAcc + 1 >= MMC5_FRAME_CPU then FrameClock(t.(frameAcc := 0)) else t.(frameAcc := s.frameAcc + 1)
  }

  /** The byte a read-mode or write-mode PCM access feeds to the DAC. */
  function DacUpdate(s: Mmc5, byte: u8): Mmc5 {
    if byte == 0 then s.(irqTrip := true) else s.(pcm := byte, irqTrip := false)
  }

  function ObservePrgRead(s: Mmc5, byte: u8): Mmc5 {
    if s.enabled && s.pcmReadMode then DacUpdate(s, byte) else s
  }

  /** `advance_pulse_timers`: the prescaler's odd cycle carries over. */
  function TimersBatch(s: Mmc5, n: nat): Mmc5 {
    s.(pulse0 := Iterate(MmcPulseTick, s.pulse0, (n + s.carry) / 2),
       pulse1 := Iterate(MmcPulseTick, s.pulse1, (n + s.carry) / 2), carry := (n + s.carry) % 2)
  }

  /** A chunk up to the next 240 Hz boundary, which clocks envelope and length. */
  function ChunkTo(s: Mmc5, n: nat): Mmc5
    requires s.frameAcc + n <= MMC5_FRAME_CPU
  {
    var t := TimersBatch(s, n);
    if s.frameAcc + n >= MMC5_FRAME_CPU then FrameClock(t.(frameAcc := 0)) else t.(frameAcc := s.frameAcc + n)
  }

  /** `tick`: the batch is split at every boundary. */
  function Mmc5Batch(s: Mmc5, n: nat): Mmc5
    decreases n
  {
    if n == 0 then s
    else
      var k := Min(n, MMC5_FRAME_CPU - s.frameAcc);
      Mmc5Batch(ChunkTo(s, k), n - k)
  }

  /** The /2 prescaler is exact for any batch: `n` cycles are `(n + carry) / 2`
      timer ticks of each pulse, and the odd cycle is carried. */
  lemma {:induction false} PrescalerExact(s: Mmc5, n: nat)
    ensures Iterate(TimersTick, s, n) == TimersBatch(s, n)
  {
    hide MmcPulseTick;
    if n > 0 {
      PrescalerExact(s, n - 1);
    }
  }

  /** Below the 240 Hz boundary only the timers move. */
  lemma {:induction false} BelowBoundary(s: Mmc5, n: nat)
    requires s.frameAcc + n < MMC5_FRAME_CPU
    ensures Iterate(Mmc5Tick, s, n) == Iterate(TimersTick, s, n).(frameAcc := s.frameAcc + n)
    ensures Iterate(TimersTick, s, n).frameAcc == s.frameAcc
  {
    hide MmcPulseTick;
    if n > 0 {
      BelowBoundary(s, n - 1);
    }
  }

  /** The cycle that reaches the boundary, or the last one of a batch. */
  lemma LastCycle(s: Mmc5, n: nat)
    requires 0 < n && s.frameAcc + n <= MMC5_FRAME_CPU
    ensures Iterate(Mmc5Tick, s, n)
         == if s.frameAcc + n == MMC5_FRAME_CPU then FrameClock(Iterate(TimersTick, s, n).(frameAcc := 0))
            else Iterate(TimersTick, s, n).(frameAcc := s.frameAcc + n)
  {
    hide MmcPulseTick, FrameClock;
    BelowBoundary(s, n - 1);
  }

  lemma ChunkIsCycles(s: Mmc5, n: nat)
    requires 0 < n && s.frameAcc + n <= MMC5_FRAME_CPU
    ensures ChunkTo(s, n) == Iterate(Mmc5Tick, s, n)
  {
    hide TimersBatch, TimersTick, Mmc5Tick, FrameClock;
    LastCycle(s, n);
    PrescalerExact(s, n);
  }

  /** A batch of any size is that many single cycles. */
  lemma {:induction false} BatchIsCycles(s: Mmc5, n: nat)
    ensures Mmc5Batch(s, n) == Iterate(Mmc5Tick, s, n)
    decreases n
  {
    hide Mmc5Tick, ChunkTo;
    if n > 0 {
      var k := Min(n, MMC5_FRAME_CPU - s.frameAcc);
      ChunkIsCycles(s, k);
      BatchIsCycles(ChunkTo(s, k), n - k);
      IterateAdd(Mmc5Tick, s, k, n - k);
    }
  }

  class Mmc5Chip {
    var enabled: bool
    var pulse0: MmcPulse
    var pulse1: MmcPulse
    var pcm: u8
    var pcmReadMode: bool
    var status: u8
    var irqEnable: bool
    var irqTrip: bool
    var frameAcc: FrameAcc
    var carry: u1

    ghost function State(): Mmc5
      reads this
    {
      Mmc5(enabled, pulse0, pulse1, pcm, pcmReadMode, status, irqEnable, irqTrip, frameAcc, carry)
    }

    constructor ()
      ensures State() == var p := MmcPulse(false, 0, 0, false, 0, 0, 0, 0, false, false, 0, 0);
                         Mmc5(false, p, p, 0, false, 0, false, false, 0, 0)
    {
      pulse0 := MmcPulse(false, 0, 0, false, 0, 0, 0, 0, false, false, 0, 0);
      pulse1 := MmcPulse(false, 0, 0, false, 0, 0, 0, 0, false, false, 0, 0);
      enabled, pcm, pcmReadMode, status, irqEnable, irqTrip := false, 0, false, 0, false, false;
      frameAcc, carry := 0, 0;
    }

    method ObserveRead(byte: u8)
      modifies this`pcm, this`irqTrip
      ensures State() == ObservePrgRead(old(State()), byte)
    {
      if enabled && pcmReadMode {
        if byte == 0 {
          irqTrip := true;
        } else {
          pcm := byte;
          irqTrip := false;
        }
      }
    }

    method TickPulse(pulse: MmcPulse, cycles: nat) returns (r: MmcPulse)
      ensures r == Iterate(MmcPulseTick, pulse, cycles)
    {
      r := pulse;
      for i := 0 to cycles
        invariant r == Iterate(MmcPulseTick, pulse, i)
      {
        if r.timer == 0 {
          r := r.(timer := r.timerPeriod, step := (r.step + 1) % 8);
        } else {
          r := r.(timer := r.timer - 1);
        }
      }
    }

    method AdvancePulseTimers(cycles: nat)
      modifies this
      ensures State() == TimersBatch(old(State()), cycles)
    {
      hide MmcPulseTick;
      var total := cycles + carry;
      var apuCycles := total / 2;
      carry := total % 2;
      pulse0 := TickPulse(pulse0, apuCycles);
      pulse1 := TickPulse(pulse1, apuCycles);
    }

    method ClockFrame()
      modifies this
      ensures State() == FrameClock(old(State()))
    {
      hide ClockEnvelope, ClockLength;
      pulse0 := ClockLength(ClockEnvelope(pulse0));
      pulse1 := ClockLength(ClockEnvelope(pulse1));
    }

    /** One chunk that does not pass the next 240 Hz boundary. */
    method Chunk(n: nat)
      requires 0 < n <= MMC5_FRAME_CPU - frameAcc
      modifies this
      ensures State() == ChunkTo(old(State()), n)
    {
      hide TimersBatch, FrameClock;
      TimersBatchKeepsFrame(State(), n);
      AdvancePulseTimers(n);
      if frameAcc + n >= MMC5_FRAME_CPU {
        frameAcc := frameAcc + n - MMC5_FRAME_CPU;
        ghost var before := State();
        ClockFrame();
        FrameClockKeepsCarry(before);
      } else {
        frameAcc := frameAcc + n;
      }
    }

    /** The batch is split at every 240 Hz boundary, so it is `cycles` single cycles. */
    method Tick(cycles: nat)
      modifies this
      ensures State() == Mmc5Batch(old(State()), cycles) == Iterate(Mmc5Tick, old(State()), cycles)
    {
      hide Mmc5Tick, ChunkTo;
      ghost var goal := Mmc5Batch(State(), cycles);
      BatchIsCycles(State(), cycles);
      var remaining := cycles;
      while remaining > 0
        invariant 0 <= remaining <= cycles
        invariant Mmc5Batch(State(), remaining) == goal
      {
        var n := Min(remaining, MMC5_FRAME_CPU - frameAcc);
        Chunk(n);
        remaining := remaining - n;
      }
    }
  }

  lemma FrameClockKeepsCarry(s: Mmc5)
    ensures FrameClock(s).carry == s.carry && FrameClock(s).frameAcc == s.frameAcc
  {
  }

  lemma TimersBatchKeepsFrame(s: Mmc5, n: nat)
    ensures TimersBatch(s, n).frameAcc == s.frameAcc
  {
  }
}
