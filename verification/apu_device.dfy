/** The APU object of src/apu.rs:931-1530, updating its channels in place. */
module ApuObject {
  import opened Words
  import opened Channels
  import opened DeltaModulation
  import opened FrameSequencer
  import opened ExpansionChips
  import opened Apu2A03

  // --------------------------------------------------- register semantics

  /** $4000-$4013. */
  function ApuWriteRegister(a: Apu, addr: u16, value: u8): Apu {
    if 0x4000 <= addr <= 0x400F then a.(units := WriteUnits(a.units, addr, value))
    else a.(dmc := WriteDmcRegister(a.dmc, addr, value, a.seqr.pal))
  }

  function WritePulse(p: Pulse, index: int, value: u8): Pulse {
    if index == 0 then PulseWriteMain(p, value)
    else if index == 1 then PulseWriteSweep(p, value)
    else if index == 2 then PulseWritePeriodLo(p, value)
    else PulseWritePeriodHi(p, value)
  }

  function WriteUnits(u: Units, addr: u16, value: u8): Units {
    if 0x4000 <= addr <= 0x4003 then u.(pulse1 := WritePulse(u.pulse1, addr - 0x4000, value))
    else if 0x4004 <= addr <= 0x4007 then u.(pulse2 := WritePulse(u.pulse2, addr - 0x4004, value))
    else if addr == 0x4008 then u.(triangle := TriangleWriteLinear(u.triangle, value))
    else if addr == 0x400A then u.(triangle := TriangleWritePeriodLo(u.triangle, value))
    else if addr == 0x400B then u.(triangle := TriangleWritePeriodHi(u.triangle, value))
    else if addr == 0x400C then u.(noise := NoiseWriteMain(u.noise, value))
    else if addr == 0x400E then u.(noise := NoiseWritePeriod(u.noise, value))
    else if addr == 0x400F then u.(noise := NoiseWriteLength(u.noise, value))
    else u
  }

  function WriteDmcRegister(d: Dmc, addr: u16, value: u8, pal: bool): Dmc {
    if addr == 0x4010 then DmcWriteControl(d, value, pal)
    else if addr == 0x4011 then DmcWriteDac(d, value)
    else if addr == 0x4012 then DmcWriteAddr(d, value)
    else if addr == 0x4013 then DmcWriteLen(d, value)
    else d
  }

  /** `set_cpu_hz`: the region selects the frame tables and two period tables. */
  function ApuSetPal(a: Apu, pal: bool): Apu {
    a.(seqr := a.seqr.(pal := pal), dmc := DmcSetPal(a.dmc, pal), units := a.units.(noise := NoiseSetPal(a.units.noise, pal)))
  }

  /** $4015 apart from its DMC enable. */
  function WriteStatus(a: Apu, value: u8): Apu {
    a.(dmc := a.dmc.(irqFlag := false),
       units := Units(PulseEnable(a.units.pulse1, Bit(value, 1)), PulseEnable(a.units.pulse2, Bit(value, 2)),
                      TriangleEnable(a.units.triangle, Bit(value, 4)), NoiseEnable(a.units.noise, Bit(value, 8))))
  }

  function StatusByte(a: Apu): u8 {
    (if a.units.pulse1.length.counter > 0 then 1 else 0) + (if a.units.pulse2.length.counter > 0 then 2 else 0)
    + (if a.units.triangle.length.counter > 0 then 4 else 0) + (if a.units.noise.length.counter > 0 then 8 else 0)
    + (if a.dmc.reader.remaining > 0 then 0x10 else 0) + (if a.seqr.irqFlag then 0x40 else 0)
    + (if a.dmc.irqFlag then 0x80 else 0)
  }

  /** Reading $4015 clears the frame interrupt flag and not the DMC one. */
  function AfterStatusRead(a: Apu): Apu {
    a.(seqr := a.seqr.(irqFlag := false))
  }

  /** Every unit ticked for a whole batch, the pulses at half the rate. */
  function UnitsBatch(u: Units, carry: u1, n: nat): Units {
    var half := (n + carry) / 2;
    Units(Iterate(PulseTick, u.pulse1, half), Iterate(PulseTick, u.pulse2, half),
          Iterate(TriangleTick, u.triangle, n), Iterate(NoiseTick, u.noise, n))
  }

  function TimersBatch(a: Apu, n: nat): Apu {
    a.(units := UnitsBatch(a.units, a.carry, n),
       carry := (n + a.carry) % 2, dmc := Iterate(DmcTick, a.dmc, n), chips := Iterate(ChipsTick, a.chips, n))
  }

  /** The prescaler is exact for any batch. */
  lemma {:induction false} TimersExact(a: Apu, n: nat)
    ensures Iterate(TimersTick, a, n) == TimersBatch(a, n)
  {
    hide PulseTick, TriangleTick, NoiseTick, DmcTick, ChipsTick;
    if n > 0 {
      TimersExact(a, n - 1);
      assert (n + a.carry) / 2 == (n - 1 + a.carry) / 2 + (n - 1 + a.carry) % 2;
    }
  }

  /** Firing due events, one at a time. */
  lemma DueStep(q: Sequencer, u: Units)
    ensures var g := Guard(q);
            var ev := ScheduleOf(g)[g.step];
            if g.acc < ev.offset then FrameSequencer.Settled(q) == g && ClockAll(u, Due(q)) == u
            else FrameSequencer.Settled(q) == FrameSequencer.Settled(Fire(g))
                 && ClockAll(u, Due(q)) == ClockAll(Clock(u, ev), Due(Fire(g)))
  {
    hide Events, Clock;
    var g := Guard(q);
    var ev := ScheduleOf(g)[g.step];
    if g.acc >= ev.offset {
      assert ([ev] + Due(Fire(g)))[1..] == Due(Fire(g));
    }
  }

  class Apu2A03Device {
    const pulse1: PulseChannel
    const pulse2: PulseChannel
    const triangle: TriangleChannel
    const noise: NoiseChannel
    const dmc: DmcChannel
    const expansion: Expansion
    var pal: bool
    var fiveStep: bool
    var frameIrqInhibit: bool
    var frameIrqFlag: bool
    var frameAcc: nat
    var frameStep: nat
    var frameResetDelay: Option<nat>
    var totalCycles: nat
    var carry: u1

    ghost function Objects(): set<object> {
      {this, pulse1, pulse2, triangle, noise, dmc} + expansion.Objects()
    }

    ghost predicate Valid()
      reads expansion.n163
    {
      && pulse1 != pulse2 && expansion.Valid()
      && {this, pulse1, pulse2, triangle, noise, dmc} !! expansion.Objects()
    }

    ghost function SeqState(): Sequencer
      reads this
    {
      Sequencer(fiveStep, pal, frameIrqInhibit, frameIrqFlag, frameAcc, frameStep, frameResetDelay)
    }

    ghost function UnitState(): Units
      reads pulse1, pulse2, triangle, noise
    {
      Units(pulse1.State(), pulse2.State(), triangle.State(), noise.State())
    }

    ghost function State(): Apu
      reads expansion.n163, Objects()
      requires Valid()
    {
      Apu(UnitState(), dmc.State(), expansion.State(), carry, SeqState(), totalCycles)
    }

    constructor ()
      ensures Valid() && fresh(Objects())
      ensures State().dmc == DMC_RESET && State().totalCycles == 0
      ensures SeqState() == Sequencer(false, false, false, false, 0, 0, None)
    {
      pulse1 := new PulseChannel(false);
      pulse2 := new PulseChannel(true);
      triangle := new TriangleChannel();
      noise := new NoiseChannel();
      dmc := new DmcChannel();
      expansion := new Expansion();
      pal, fiveStep, frameIrqInhibit, frameIrqFlag := false, false, false, false;
      frameAcc, frameStep, frameResetDelay, totalCycles, carry := 0, 0, None, 0, 0;
    }

    method AdvanceUnits(cycles: nat)
      requires Valid()
      modifies this`carry, pulse1, pulse2, triangle, noise
      ensures UnitState() == UnitsBatch(old(UnitState()), old(carry), cycles)
      ensures carry == (cycles + old(carry)) % 2
    {
      hide PulseTick, TriangleTick, NoiseTick, Iterate;
      hide PulseChannel.State, TriangleChannel.State, NoiseChannel.State;
      var total := cycles + carry;
      carry := total % 2;
      TickPulses(total / 2);
      noise.TickTimer(cycles);
      triangle.TickTimer(cycles);
    }

    method TickPulses(n: nat)
      requires Valid()
      modifies pulse1, pulse2
      ensures pulse1.State() == Iterate(PulseTick, old(pulse1.State()), n)
      ensures pulse2.State() == Iterate(PulseTick, old(pulse2.State()), n)
    {
      hide PulseTick;
      pulse1.TickTimer(n);
      pulse2.TickTimer(n);
    }

    method AdvanceChannelTimers(cycles: nat)
      requires Valid()
      modifies Objects() - {this}, this`carry
      ensures Valid() && State() == Iterate(TimersTick, old(State()), cycles)
    {
      hide Expansion.State, DmcChannel.State, UnitState;
      hide UnitsBatch, DmcTick, ChipsTick, TimersTick;
      TimersExact(State(), cycles);
      AdvanceUnits(cycles);
      dmc.Tick(cycles);
      expansion.Tick(cycles);
    }

    method TickQuarterFrame()
      requires Valid()
      modifies pulse1, pulse2, triangle, noise
      ensures UnitState() == Quarter(old(UnitState()))
    {
      hide PulseQuarter, TriangleQuarter, NoiseQuarter;
      pulse1.ClockEnvelope();
      pulse2.ClockEnvelope();
      noise.ClockEnvelope();
      triangle.ClockLinear();
    }

    method TickHalfFrame()
      requires Valid()
      modifies pulse1, pulse2, triangle, noise
      ensures UnitState() == Half(old(UnitState()))
    {
      hide PulseHalf, TriangleHalf, NoiseHalf;
      pulse1.ClockLengthAndSweep();
      pulse2.ClockLengthAndSweep();
      triangle.ClockLength();
      noise.ClockLength();
    }

    method CyclesUntilNextFrameEvent() returns (n: nat)
      ensures n == var s := ScheduleOf(SeqState()); Max(s[Min(frameStep, |s| - 1)].offset - frameAcc, 1)
    {
      var schedule := Events(fiveStep, pal);
      n := Max(schedule[Min(frameStep, |schedule| - 1)].offset - frameAcc, 1);
    }

    method FireEvent(ev: FrameEvent)
      requires Valid() && InTable(SeqState()) && frameAcc >= ev.offset
      requires ev == ScheduleOf(SeqState())[frameStep]
      modifies this`frameIrqFlag, this`frameAcc, this`frameStep, pulse1, pulse2, triangle, noise
      ensures SeqState() == Fire(old(SeqState())) && UnitState() == Clock(old(UnitState()), ev)
    {
      hide Quarter, Half, Events, UnitState;
      if ev.quarter {
        TickQuarterFrame();
      }
      if ev.half {
        TickHalfFrame();
      }
      if ev.irq && !frameIrqInhibit {
        frameIrqFlag := true;
      }
      if frameStep == |Events(fiveStep, pal)| - 1 {
        frameAcc := frameAcc - ev.offset;
        frameStep := 0;
      } else {
        frameStep := frameStep + 1;
      }
    }

    /** Fires every event whose offset has been reached. */
    method ProcessDueFrameEvents()
      requires Valid()
      modifies this`frameIrqFlag, this`frameAcc, this`frameStep, pulse1, pulse2, triangle, noise
      ensures SeqState() == FrameSequencer.Settled(old(SeqState()))
      ensures UnitState() == ClockAll(old(UnitState()), Due(old(SeqState())))
    {
      hide Events, Clock, UnitState, FrameSequencer.Settled, Due, ClockAll;
      ghost var seqGoal := FrameSequencer.Settled(SeqState());
      ghost var unitGoal := ClockAll(UnitState(), Due(SeqState()));
      while true
        invariant FrameSequencer.Settled(SeqState()) == seqGoal
        invariant ClockAll(UnitState(), Due(SeqState())) == unitGoal
        decreases frameAcc, Max(|Events(fiveStep, pal)| - frameStep, 0)
      {
        var schedule := Events(fiveStep, pal);
        ghost var u := UnitState();
        DueStep(SeqState(), u);
        if frameStep >= |schedule| {
          frameStep := 0;
          frameAcc := 0;
        }
        var ev := schedule[frameStep];
        if frameAcc < ev.offset {
          break;
        }
        FireEvent(ev);
      }
    }

    /** The deferred $4017 effects of a chunk of `n` cycles. */
    method CountDown(n: nat)
      requires Valid()
      modifies this`frameAcc, this`frameStep, this`frameResetDelay, pulse1, pulse2, triangle, noise
      ensures SeqState() == Count(old(SeqState()), n)
      ensures UnitState() == ResetClocks(old(UnitState()), old(SeqState()), n)
    {
      hide Quarter, Half;
      frameAcc := frameAcc + n;
      if frameResetDelay.Some? {
        var left := Max(frameResetDelay.value - n, 0);
        if left == 0 {
          frameResetDelay := None;
          frameAcc := 0;
          frameStep := 0;
          if fiveStep {
            TickQuarterFrame();
            TickHalfFrame();
          }
        } else {
          frameResetDelay := Some(left);
        }
      }
    }

    /** One turn of the batching loop: as many cycles as pass before something is due. */
    method RunChunk(remaining: nat) returns (n: nat)
      requires Valid() && remaining > 0
      modifies Objects()
      ensures Valid() && 0 < n <= remaining
      ensures Batch(State(), remaining - n) == Batch(old(State()), remaining)
    {
      hide Expansion.State, DmcChannel.State, PulseChannel.State, TriangleChannel.State, NoiseChannel.State;
      hide Settle, Until, TimersTick, ApuTick, Batch, Iterate;
      ghost var a := State();
      var until := CyclesUntilNextFrameEvent();
      n := Min(until, remaining);
      if frameResetDelay.Some? {
        n := Min(n, Max(frameResetDelay.value, 1));
      }
      ChunkSize(a, remaining, n, until);
      AdvanceChannelTimers(n);
      TimersKeepSequencer(a, n);
      FinishChunk(n);
      BatchFirstChunk(a, remaining);
    }

    method TickCpuCycles(cycles: nat)
      requires Valid()
      modifies Objects()
      ensures Valid() && State() == Batch(old(State()), cycles)
      ensures InTable(old(SeqState())) || cycles <= 1 ==> State() == Iterate(ApuTick, old(State()), cycles)
    {
      hide Expansion.State, UnitState, SeqState;
      hide Settle, Until, TimersTick, ApuTick;
      ghost var goal := Batch(State(), cycles);
      if InTable(State().seqr) || cycles <= 1 {
        BatchExact(State(), cycles);
      }
      var remaining := cycles;
      while remaining > 0
        invariant 0 <= remaining && Valid()
        invariant Batch(State(), remaining) == goal
      {
        var n := RunChunk(remaining);
        remaining := remaining - n;
      }
    }

    method FinishChunk(n: nat)
      requires Valid()
      modifies this, pulse1, pulse2, triangle, noise
      ensures Valid() && State() == Settle(old(State()), n)
    {
      hide Expansion.State, DmcChannel.State, PulseChannel.State, TriangleChannel.State, NoiseChannel.State;
      hide Count, ResetClocks, ClockAll, Due, FrameSequencer.Settled;
      totalCycles := totalCycles + n;
      CountDown(n);
      ProcessDueFrameEvents();
      assert expansion.State() == old(expansion.State());
      assert dmc.State() == old(dmc.State());
      assert SeqState() == FrameSequencer.Settled(Count(old(SeqState()), n));
      assert UnitState() == ClockAll(ResetClocks(old(UnitState()), old(SeqState()), n), Due(Count(old(SeqState()), n)));
    }

    method WriteFrameCounter(value: u8)
      requires Valid()
      modifies this
      ensures Valid()
      ensures State() == old(State()).(seqr := FrameSequencer.WriteFrameCounter(old(SeqState()), value, totalCycles))
    {
      hide Bit, UnitState, Expansion.State, DmcChannel.State;
      fiveStep := Bit(value, 0x80);
      frameIrqInhibit := Bit(value, 0x40);
      if frameIrqInhibit {
        frameIrqFlag := false;
      }
      frameResetDelay := Some(if totalCycles % 2 == 1 then 3 else 4);
    }

    method WritePulseRegister(p: PulseChannel, index: int, value: u8)
      modifies p
      ensures p.State() == WritePulse(old(p.State()), index, value)
    {
      hide PulseWriteMain, PulseWriteSweep, PulseWritePeriodLo, PulseWritePeriodHi;
      if index == 0 {
        p.WriteMain(value);
      } else if index == 1 {
        p.WriteSweep(value);
      } else if index == 2 {
        p.WritePeriodLo(value);
      } else {
        p.WritePeriodHi(value);
      }
    }

    method WriteRegister(addr: u16, value: u8)
      requires Valid()
      modifies Objects() - {this}
      ensures Valid() && State() == ApuWriteRegister(old(State()), addr, value)
    {
      hide UnitState, Expansion.State, DmcChannel.State, WriteUnits, WriteDmcRegister;
      if 0x4000 <= addr <= 0x400F {
        WriteUnitRegister(addr, value);
      } else {
        WriteDmc(addr, value);
      }
    }

    method WriteUnitRegister(addr: u16, value: u8)
      requires Valid()
      modifies pulse1, pulse2, triangle, noise
      ensures UnitState() == WriteUnits(old(UnitState()), addr, value)
    {
      hide WritePulse, TriangleWriteLinear, TriangleWritePeriodLo, TriangleWritePeriodHi;
      hide NoiseWriteMain, NoiseWritePeriod, NoiseWriteLength;
      if 0x4000 <= addr <= 0x4003 {
        WritePulseRegister(pulse1, addr - 0x4000, value);
      } else if 0x4004 <= addr <= 0x4007 {
        WritePulseRegister(pulse2, addr - 0x4004, value);
      } else if addr == 0x4008 {
        triangle.WriteLinear(value);
      } else if addr == 0x400A {
        triangle.WritePeriodLo(value);
      } else if addr == 0x400B {
        triangle.WritePeriodHi(value);
      } else if addr == 0x400C {
        noise.WriteMain(value);
      } else if addr == 0x400E {
        noise.WritePeriod(value);
      } else if addr == 0x400F {
        noise.WriteLength(value);
      }
    }

    method WriteDmc(addr: u16, value: u8)
      modifies dmc
      ensures dmc.State() == WriteDmcRegister(old(dmc.State()), addr, value, pal)
    {
      hide DmcWriteControl, DmcWriteDac, DmcWriteAddr, DmcWriteLen;
      if addr == 0x4010 {
        dmc.WriteControl(value, pal);
      } else if addr == 0x4011 {
        dmc.WriteDac(value);
      } else if addr == 0x4012 {
        dmc.WriteAddr(value);
      } else if addr == 0x4013 {
        dmc.WriteLen(value);
      }
    }

    /** A PAL machine is one whose clock is below 1.7 MHz. */
    method SetCpuHz(hz: nat)
      requires Valid()
      modifies this`pal, dmc, noise
      ensures Valid() && State() == ApuSetPal(old(State()), hz < 1_700_000)
    {
      hide Expansion.State, NoiseSetPal, DmcSetPal;
      pal := hz < 1_700_000;
      dmc.RefreshRate(pal);
      noise.SetPal(pal);
    }

    method WriteStatusExceptDmcEnable(value: u8)
      requires Valid()
      modifies pulse1, pulse2, triangle, noise, dmc`irqFlag
      ensures Valid() && State() == WriteStatus(old(State()), value)
    {
      hide PulseEnable, TriangleEnable, NoiseEnable;
      dmc.irqFlag := false;
      pulse1.SetEnabled(Bit(value, 1));
      pulse2.SetEnabled(Bit(value, 2));
      triangle.SetEnabled(Bit(value, 4));
      noise.SetEnabled(Bit(value, 8));
    }

    method ReadStatus() returns (s: u8)
      requires Valid()
      modifies this`frameIrqFlag
      ensures Valid() && s == StatusByte(old(State())) && State() == AfterStatusRead(old(State()))
    {
      hide Expansion.State;
      s := CurrentStatus();
      frameIrqFlag := false;
    }

    method CurrentStatus() returns (s: u8)
      requires Valid()
      ensures s == StatusByte(State())
    {
      hide Expansion.State;
      s := 0;
      if pulse1.length.counter > 0 {
        s := s + 1;
      }
      if pulse2.length.counter > 0 {
        s := s + 2;
      }
      if triangle.length.counter > 0 {
        s := s + 4;
      }
      if noise.length.counter > 0 {
        s := s + 8;
      }
      if dmc.reader.remaining > 0 {
        s := s + 0x10;
      }
      if frameIrqFlag {
        s := s + 0x40;
      }
      if dmc.irqFlag {
        s := s + 0x80;
      }
    }
  }

  lemma ChunkSize(a: Apu, remaining: nat, n: nat, until: nat)
    requires var s := ScheduleOf(a.seqr); until == Max(s[Min(a.seqr.step, |s| - 1)].offset - a.seqr.acc, 1)
    requires n == if a.seqr.delay.Some? then Min(Min(until, remaining), Max(a.seqr.delay.value, 1))
                  else Min(until, remaining)
    ensures n == Min(Until(a.seqr), remaining)
  {
  }
}
