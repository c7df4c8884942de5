/** Region setting and the register scrub before every INIT, outside any instruction
    (src/bus.rs:500-554, src/apu.rs:466-469, 1066-1073). */
module SongReset {
  import opened Words
  import opened IrqTimer
  import opened Channels
  import opened DeltaModulation
  import opened FrameSequencer
  import opened FrameCounter
  import opened FamicomDisk
  import opened ExpansionChips
  import opened Apu2A03
  import opened ApuObject
  import opened DmaEngine
  import opened DmaCycles
  import opened DmaOwnership

  /** `set_cpu_hz` on the bus's APU. */
  function SetPal(m: Machine, pal: bool): Machine {
    m.(apu := ApuSetPal(m.apu, pal))
  }

  /** The first `n` registers from $4000 on written with zero. */
  function Zeroed(m: Machine, n: nat): Machine
    requires n <= 20
  {
    if n == 0 then m else ApplyWrite(Zeroed(m, n - 1), 0x4000 + n - 1, 0)
  }

  /** $4015 off and then on without the DMC, and $4017 in four-step mode. */
  function Enabled(m: Machine): Machine {
    ApplyWrite(ApplyWrite(ApplyWrite(m, 0x4015, 0), 0x4015, 0x0F), 0x4017, 0x40)
  }

  /** `reset_for_tune`; `mem` is the view with RAM cleared and the program reloaded. */
  function ResetForTune(m: Machine, mem: Memory): Machine {
    Enabled(Zeroed(m, 20)).(mem := mem)
  }

  // -------------------------------------------------------------- invariant

  /** The invariant does not depend on what memory and chips hold. */
  lemma FullElsewhere(m: Machine, mem: Memory, timer: Timer, chips: Chips)
    requires Full(m)
    ensures Full(m.(mem := mem, timer := timer, apu := m.apu.(chips := chips)))
  {
    hide DmaOk, Conserved, ParityOk, PhaseOk, InTable, Armed;
  }

  /** A frame sequence that has not started is in phase in either region. */
  lemma SetPalKeepsFull(m: Machine, pal: bool)
    requires Full(m) && m.apu.seqr.acc == 0 && m.apu.seqr.step == 0 && m.apu.seqr.delay.None?
    ensures Full(SetPal(m, pal))
  {
    hide Conserved, ParityOk, Events, RateFor, NoisePeriod;
    StartOfTable(SetPal(m, pal).apu.seqr);
  }

  /** Full at power-up, in every region. */
  lemma PowerUp(m: Machine, pal: bool)
    requires m.apu.dmc == DMC_RESET && m.apu.totalCycles == 0 && m.cycles == 0
    requires m.apu.seqr == Sequencer(false, false, false, false, 0, 0, None)
    requires m.dma == None && m.loadHaltFrom == None
    ensures Full(m) && Full(SetPal(m, pal))
  {
    PhaseAtPowerUp(false, false, false);
    assert Full(m);
    SetPalKeepsFull(m, pal);
  }

  lemma {:induction false} ZeroedKeeps(m: Machine, n: nat)
    requires Base(m) && n <= 20
    ensures var r := Zeroed(m, n);
            Base(r) && r.apu.seqr == m.apu.seqr && SameLine(m, r) && r.cycles == m.cycles
            && r.apu.chips == m.apu.chips && r.timer == m.timer && r.dma == m.dma
  {
    hide Base, ApplyWrite;
    if n > 0 {
      ZeroedKeeps(m, n - 1);
      var r := Zeroed(m, n - 1);
      ApplyWriteKeeps(r, 0x4000 + n - 1, 0);
      ApplyWriteLine(r, 0x4000 + n - 1, 0);
      UnitWriteKeeps(r, 0x4000 + n - 1);
    }
  }

  lemma UnitWriteKeeps(m: Machine, addr: u16)
    requires 0x4000 <= addr <= 0x4013
    ensures var r := ApplyWrite(m, addr, 0);
            r.apu.seqr == m.apu.seqr && r.apu.chips == m.apu.chips && r.timer == m.timer && r.dma == m.dma
  {
    hide WriteUnits, WriteDmcRegister;
  }

  /** The three writes behind: the sample is stopped, so no fetch is needed. */
  lemma EnabledKeeps(m: Machine)
    requires Base(m) && InTable(m.apu.seqr)
    ensures var r := Enabled(m);
            && Full(r) && SameLine(m, r) && r.cycles == m.cycles
            && r.apu.chips == m.apu.chips && r.timer == m.timer
  {
    hide Base, ApplyWrite;
    var off := ApplyWrite(m, 0x4015, 0);
    var on := ApplyWrite(off, 0x4015, 0x0F);
    ApplyWriteKeeps(m, 0x4015, 0);
    ApplyWriteKeeps(off, 0x4015, 0x0F);
    ApplyWriteKeeps(on, 0x4017, 0x40);
    ApplyWriteLine(m, 0x4015, 0);
    ApplyWriteLine(off, 0x4015, 0x0F);
    ApplyWriteLine(on, 0x4017, 0x40);
    StatusStops(m, 0);
    StatusStops(off, 0x0F);
    FourStep(on);
  }

  /** $4015 with its DMC bit clear ends the sample. */
  lemma StatusStops(m: Machine, value: u8)
    requires !Bit(value, 0x10)
    ensures var r := ApplyWrite(m, 0x4015, value);
            r.apu.dmc.reader.remaining == 0 && r.apu.seqr == m.apu.seqr && r.apu.chips == m.apu.chips && r.timer == m.timer
  {
    hide PulseEnable, TriangleEnable, NoiseEnable;
  }

  /** The four-step table is the longer one, so no step index is left outside it. */
  lemma FourStep(m: Machine)
    requires InTable(m.apu.seqr) && m.apu.dmc.reader.remaining == 0
    ensures var r := ApplyWrite(m, 0x4017, 0x40);
            && InTable(r.apu.seqr) && r.apu.dmc == m.apu.dmc && (Base(r) ==> Full(r))
            && r.apu.chips == m.apu.chips && r.timer == m.timer
  {
    hide Base;
    TableLengths();
  }

  lemma TableLengths()
    ensures |NTSC_4| == 6 && |PAL_4| == 6 && |NTSC_5| == 5 && |PAL_5| == 5
  {
  }

  /** The scrub between two songs keeps the whole invariant, whatever DMA is scheduled
      or in flight, takes no time, and leaves the stall account, a pending OAM halt, the
      expansion chips and the NSF2 timer as they were. */
  lemma ResetKeepsFull(m: Machine, mem: Memory)
    requires Full(m)
    ensures var r := ResetForTune(m, mem);
            && Full(r) && r.cycles == m.cycles && r.stall == m.stall && r.oamHaltFrom == m.oamHaltFrom
            && r.apu.chips == m.apu.chips && r.timer == m.timer && r.mem == mem
  {
    hide Full, Base, Zeroed, Enabled, InTable;
    FullParts(m);
    ZeroedKeeps(m, 20);
    var z := Zeroed(m, 20);
    EnabledKeeps(z);
    var e := Enabled(z);
    FullElsewhere(e, mem, e.timer, e.apu.chips);
  }

  lemma FullParts(m: Machine)
    requires Full(m)
    ensures Base(m) && InTable(m.apu.seqr)
  {
    hide Base;
  }

  // ------------------------------------------------- what a new song starts from

  /** Everything a register holds back at zero, the length counter silenced and the
      channel enabled; the timer, sweep and envelope counters run on. */
  function ScrubbedPulse(p: Pulse): Pulse {
    Pulse(true, 0, 0, 0, p.timer, ScrubbedEnvelope(p.envelope), LengthCounter(false, 0),
          false, 0, false, 0, true, p.sweepDivider, p.isPulseTwo)
  }

  function ScrubbedEnvelope(e: Channels.Envelope): Channels.Envelope {
    Channels.Envelope(true, false, false, 0, e.decay, e.divider)
  }

  function ScrubbedTriangle(t: Triangle): Triangle {
    Triangle(true, 0, t.timer, t.seqStep, LengthCounter(false, 0), t.linearCounter, 0, true, false)
  }

  function ScrubbedNoise(n: Noise): Noise {
    Noise(true, false, 0, NoisePeriod(0, n.pal), n.timer, n.shift, ScrubbedEnvelope(n.envelope), LengthCounter(false, 0), n.pal)
  }

  function ScrubbedUnits(u: Units): Units {
    Units(ScrubbedPulse(u.pulse1), ScrubbedPulse(u.pulse2), ScrubbedTriangle(u.triangle), ScrubbedNoise(u.noise))
  }

  predicate ScrubbedDmc(d: Dmc, r: Dmc, pal: bool) {
    && !r.enabled && !r.irqEnable && !r.loopFlag && !r.irqFlag && r.rateIndex == 0 && r.reader.remaining == 0
    && r.reader.addrSeed == 0xC000 && r.reader.lenSeed == 1
    && r.out == d.out.(dac := 0, period := RateFor(0, pal)) && r.filled == d.filled && r.buffer == d.buffer
  }

  /** The zero writes, unit by unit. */
  function ZeroedUnits(u: Units, n: nat): Units
    requires n <= 20
  {
    if n == 0 then u else if n > 16 then ZeroedUnits(u, 16) else WriteUnits(ZeroedUnits(u, n - 1), 0x4000 + n - 1, 0)
  }

  function ZeroedDmc(d: Dmc, pal: bool): Dmc {
    DmcWriteLen(DmcWriteAddr(DmcWriteDac(DmcWriteControl(d, 0, pal), 0), 0), 0)
  }

  lemma {:induction false} ZeroedSplits(m: Machine, n: nat)
    requires n <= 16
    ensures Zeroed(m, n).apu == m.apu.(units := ZeroedUnits(m.apu.units, n))
  {
    hide WriteUnits;
    if n > 0 {
      ZeroedSplits(m, n - 1);
    }
  }

  lemma ZeroedWhole(m: Machine)
    ensures Zeroed(m, 20).apu
         == m.apu.(units := ZeroedUnits(m.apu.units, 16), dmc := ZeroedDmc(m.apu.dmc, m.apu.seqr.pal))
  {
    hide WriteUnits, ZeroedUnits, DmcWriteLen, DmcWriteAddr, DmcWriteDac, DmcWriteControl;
    ZeroedSplits(m, 16);
    ZeroedNext(m, 16);
    ZeroedNext(m, 17);
    ZeroedNext(m, 18);
    ZeroedNext(m, 19);
    hide Zeroed;
  }

  lemma ZeroedNext(m: Machine, n: nat)
    requires n < 20
    ensures Zeroed(m, n + 1) == ApplyWrite(Zeroed(m, n), 0x4000 + n, 0)
  {
    hide ApplyWrite;
  }

  lemma ZeroedUnitsNext(u: Units, n: nat)
    requires n < 16
    ensures ZeroedUnits(u, n + 1) == WriteUnits(ZeroedUnits(u, n), 0x4000 + n, 0)
  {
    hide WriteUnits;
  }

  function ZeroedPulse(p: Pulse): Pulse {
    PulseWritePeriodHi(PulseWritePeriodLo(PulseWriteSweep(PulseWriteMain(p, 0), 0), 0), 0)
  }

  lemma ZeroedPulses(u: Units)
    ensures ZeroedUnits(u, 8) == u.(pulse1 := ZeroedPulse(u.pulse1), pulse2 := ZeroedPulse(u.pulse2))
  {
    hide PulseWritePeriodHi, PulseWritePeriodLo, PulseWriteSweep, PulseWriteMain;
    assert ZeroedUnits(u, 0) == u;
    ZeroedUnitsNext(u, 0);
    ZeroedUnitsNext(u, 1);
    ZeroedUnitsNext(u, 2);
    ZeroedUnitsNext(u, 3);
    ZeroedUnitsNext(u, 4);
    ZeroedUnitsNext(u, 5);
    ZeroedUnitsNext(u, 6);
    ZeroedUnitsNext(u, 7);
    hide ZeroedUnits;
  }

  lemma ZeroedOthers(u: Units)
    ensures var z := ZeroedUnits(u, 8);
            ZeroedUnits(u, 16) == z.(
              triangle := TriangleWritePeriodHi(TriangleWritePeriodLo(TriangleWriteLinear(z.triangle, 0), 0), 0),
              noise := NoiseWriteLength(NoiseWritePeriod(NoiseWriteMain(z.noise, 0), 0), 0))
  {
    hide TriangleWritePeriodHi, TriangleWritePeriodLo, TriangleWriteLinear, NoiseWriteLength, NoiseWritePeriod, NoiseWriteMain;
    ZeroedUnitsNext(u, 8);
    ZeroedUnitsNext(u, 9);
    ZeroedUnitsNext(u, 10);
    ZeroedUnitsNext(u, 11);
    ZeroedUnitsNext(u, 12);
    ZeroedUnitsNext(u, 13);
    ZeroedUnitsNext(u, 14);
    ZeroedUnitsNext(u, 15);
    hide ZeroedUnits;
  }

  lemma PulseScrubs(p: Pulse)
    ensures PulseEnable(PulseEnable(ZeroedPulse(p), false), true) == ScrubbedPulse(p)
  {
    assert p.timerPeriod / 0x100 * 0x100 % 0x100 == 0;
  }

  lemma TriangleScrubs(t: Triangle)
    ensures TriangleEnable(TriangleEnable(
              TriangleWritePeriodHi(TriangleWritePeriodLo(TriangleWriteLinear(t, 0), 0), 0), false), true)
         == ScrubbedTriangle(t)
  {
    assert t.timerPeriod / 0x100 * 0x100 % 0x100 == 0;
  }

  lemma NoiseScrubs(n: Noise)
    ensures NoiseEnable(NoiseEnable(NoiseWriteLength(NoiseWritePeriod(NoiseWriteMain(n, 0), 0), 0), false), true)
         == ScrubbedNoise(n)
  {
  }

  /** The two $4015 writes and the $4017 write, on the units and on the sequencer. */
  lemma EnabledUnits(m: Machine)
    ensures var u, r := m.apu.units, Enabled(m).apu;
            && r.units == Units(PulseEnable(PulseEnable(u.pulse1, false), true), PulseEnable(PulseEnable(u.pulse2, false), true),
                                TriangleEnable(TriangleEnable(u.triangle, false), true), NoiseEnable(NoiseEnable(u.noise, false), true))
            && r.seqr == FrameSequencer.WriteFrameCounter(m.apu.seqr, 0x40, m.apu.totalCycles)
  {
    hide PulseEnable, TriangleEnable, NoiseEnable, DmcEnable, DmcCancel, FrameSequencer.WriteFrameCounter;
    StatusUnits(m, 0);
    StatusUnits(ApplyWrite(m, 0x4015, 0), 0x0F);
    assert Bit(0x0F, 1) && Bit(0x0F, 2) && Bit(0x0F, 4) && Bit(0x0F, 8);
    var on := ApplyWrite(ApplyWrite(m, 0x4015, 0), 0x4015, 0x0F);
    assert on.apu.totalCycles == m.apu.totalCycles;
  }

  lemma StatusUnits(m: Machine, value: u8)
    ensures var u, r := m.apu.units, ApplyWrite(m, 0x4015, value).apu;
            && r.units == Units(PulseEnable(u.pulse1, Bit(value, 1)), PulseEnable(u.pulse2, Bit(value, 2)),
                                TriangleEnable(u.triangle, Bit(value, 4)), NoiseEnable(u.noise, Bit(value, 8)))
            && r.seqr == m.apu.seqr && r.totalCycles == m.apu.totalCycles
  {
    hide PulseEnable, TriangleEnable, NoiseEnable, DmcEnable, DmcCancel, Bit;
  }

  lemma EnabledDmc(m: Machine)
    ensures var d, r := m.apu.dmc, Enabled(m).apu.dmc;
            && !r.enabled && !r.irqFlag && r.reader.remaining == 0 && r.out == d.out && r.rateIndex == d.rateIndex
            && r.irqEnable == d.irqEnable && r.loopFlag == d.loopFlag && r.filled == d.filled && r.buffer == d.buffer
            && r.reader.addrSeed == d.reader.addrSeed && r.reader.lenSeed == d.reader.lenSeed
  {
    hide PulseEnable, TriangleEnable, NoiseEnable, FrameSequencer.WriteFrameCounter;
    StatusDmc(m, 0);
    StatusDmc(ApplyWrite(m, 0x4015, 0), 0x0F);
  }

  lemma StatusDmc(m: Machine, value: u8)
    requires !Bit(value, 0x10)
    ensures var d, r := m.apu.dmc, ApplyWrite(m, 0x4015, value).apu.dmc;
            && !r.enabled && !r.irqFlag && r.reader.remaining == 0 && r.out == d.out && r.rateIndex == d.rateIndex
            && r.irqEnable == d.irqEnable && r.loopFlag == d.loopFlag && r.filled == d.filled && r.buffer == d.buffer
            && r.reader.addrSeed == d.reader.addrSeed && r.reader.lenSeed == d.reader.lenSeed
  {
    hide PulseEnable, TriangleEnable, NoiseEnable, StopDma, DmcEnable, DmcCancel;
    var w := m.(apu := WriteStatus(m.apu, value));
    StopCancels(w);
    DisableKeeps(w.apu.dmc);
    DisableKeeps(DmcCancel(w.apu.dmc));
    CancelKeeps(w.apu.dmc);
  }

  lemma StopCancels(m: Machine)
    ensures StopDma(m).apu.dmc == m.apu.dmc || StopDma(m).apu.dmc == DmcCancel(m.apu.dmc)
  {
    hide DmcCancel;
  }

  lemma CancelKeeps(d: Dmc)
    ensures DmcCancel(d) == d.(fetch := DmcCancel(d).fetch)
  {
  }

  lemma DisableKeeps(d: Dmc)
    ensures var r := DmcEnable(d, false);
            r == d.(enabled := false, reader := r.reader, fetch := r.fetch) && r.reader.remaining == 0
            && r.reader.addrSeed == d.reader.addrSeed && r.reader.lenSeed == d.reader.lenSeed
  {
  }

  /** What every song starts from: all that registers hold is reset, the same whatever
      was playing, and every channel is silent. The timers, dividers and sequencers, the
      frame position and its pending reset, the DMC's buffer and output cycle, the
      expansion chips and the NSF2 timer run on from the song before. */
  lemma ScrubbedState(m: Machine, mem: Memory)
    ensures var r := ResetForTune(m, mem);
            && r.apu.units == ScrubbedUnits(m.apu.units) && ScrubbedDmc(m.apu.dmc, r.apu.dmc, m.apu.seqr.pal)
            && r.apu.seqr == m.apu.seqr.(fiveStep := false, inhibit := true, irqFlag := false,
                                         delay := Some(if m.apu.totalCycles % 2 == 1 then 3 else 4))
  {
    hide Zeroed, ZeroedUnits, ZeroedPulse, Enabled, PulseEnable, TriangleEnable, NoiseEnable, RateFor;
    hide TriangleWritePeriodHi, TriangleWritePeriodLo, TriangleWriteLinear, NoiseWriteLength, NoiseWritePeriod, NoiseWriteMain;
    hide ScrubbedPulse, ScrubbedTriangle, ScrubbedNoise;
    var u, z := m.apu.units, Zeroed(m, 20);
    ZeroedWhole(m);
    ZeroedPulses(u);
    ZeroedOthers(u);
    EnabledUnits(z);
    EnabledDmc(z);
    PulseScrubs(u.pulse1);
    PulseScrubs(u.pulse2);
    TriangleScrubs(u.triangle);
    NoiseScrubs(u.noise);
  }

  /** src/player.rs:319-323 says that every song starts from the same machine state. A
      single $4080 write of the song before is still heard by the next: the scrub does
      not reach the expansion chips. */
  lemma LeakCounterexample(m: Machine, mem: Memory)
    requires Full(m) && m.apu.chips.fds.volume == 0 && m.apu.chips.fds.wavePos == 0
    ensures var chips := m.apu.chips.(fds := FdsWrite(m.apu.chips.fds, 0x4080, 0x90));
            var played := m.(apu := m.apu.(chips := chips));
            && ResetForTune(m, mem).apu.chips.fds.volume == 0
            && ResetForTune(played, mem).apu.chips.fds.volume == 16
  {
    hide Full, EnvPeriod, ResetForTune;
    var chips := m.apu.chips.(fds := FdsWrite(m.apu.chips.fds, 0x4080, 0x90));
    FullElsewhere(m, m.mem, m.timer, chips);
    ResetKeepsFull(m, mem);
    ResetKeepsFull(m.(apu := m.apu.(chips := chips)), mem);
  }
}
