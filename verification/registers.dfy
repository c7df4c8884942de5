/** What the registers of the machine mean: every field a program sets, in numbers, and
    every bit it reads (src/apu.rs:84-165, 191-210, 330-366, 470-487, 690-727, 1200-1330;
    src/bus.rs:84-117, 632-660). */
module RegisterMap {
  import opened Words
  import opened IrqTimer
  import opened Channels
  import opened DeltaModulation
  import opened FrameSequencer
  import opened ExpansionChips
  import opened NintendoMmc5
  import opened Apu2A03
  import opened ApuObject
  import opened DmaEngine
  import opened SongReset

  /** Writes in order, to consecutive registers from `addr` on. */
  function WriteAll(m: Machine, addr: u16, values: seq<u8>): Machine
    requires addr + |values| <= 0x1_0000
  {
    if values == [] then m
    else ApplyWrite(WriteAll(m, addr, values[..|values| - 1]), addr + |values| - 1, values[|values| - 1])
  }

  /** The length a value loads: its upper five bits choose either a note length or, when
      odd, a count of half frames. */
  predicate LengthOf(value: u8, length: u8) {
    var i := value / 8;
    if i % 2 == 1 then length == (if i == 1 then 254 else i - 1)
    else if i < 10 then length == 10 * TwoToThe(i / 2)
    else if i < 16 then length == (if i == 10 then 60 else if i == 12 then 14 else 26)
    else if i < 26 then length == 12 * TwoToThe(i / 2 - 8)
    else length == (if i == 26 then 72 else if i == 28 then 16 else 32)
  }

  function TwoToThe(k: int): int {
    if k <= 0 then 1 else if k == 1 then 2 else if k == 2 then 4 else if k == 3 then 8 else 16
  }

  lemma LengthTable(value: u8)
    ensures LengthOf(value, LENGTH_TABLE[value / 8])
  {
  }

  /** A pulse after its four registers. */
  predicate PulseSet(p: Pulse, r: Pulse, a: u8, b: u8, c: u8, d: u8) {
    && r.duty == a / 0x40 && r.length.halt == (a / 0x20 % 2 == 1)
    && r.envelope.loopFlag == (a / 0x20 % 2 == 1) && r.envelope.constant == (a / 0x10 % 2 == 1)
    && r.envelope.volume == a % 0x10 && r.envelope.start
    && r.sweepEnabled == (b >= 0x80) && r.sweepPeriod == b / 0x10 % 8 && r.sweepNegate == (b / 8 % 2 == 1)
    && r.sweepShift == b % 8 && r.sweepReload
    && r.timerPeriod == c + 0x100 * (d % 8) && r.dutyStep == 0
    && (if p.enabled then LengthOf(d, r.length.counter) else r.length.counter == p.length.counter)
    && r.enabled == p.enabled && r.timer == p.timer && r.sweepDivider == p.sweepDivider && r.isPulseTwo == p.isPulseTwo
    && r.envelope.decay == p.envelope.decay && r.envelope.divider == p.envelope.divider
  }

  lemma PulseSets(p: Pulse, a: u8, b: u8, c: u8, d: u8)
    ensures PulseSet(p, PulseWritePeriodHi(PulseWritePeriodLo(PulseWriteSweep(PulseWriteMain(p, a), b), c), d), a, b, c, d)
  {
    hide LengthOf;
    LengthTable(d);
    assert (p.timerPeriod / 0x100 * 0x100 + c) % 0x100 == c;
  }

  lemma FourWrites(m: Machine, addr: u16, a: u8, b: u8, c: u8, d: u8)
    requires addr <= 0xFFF0
    ensures WriteAll(m, addr, [a, b, c, d])
         == ApplyWrite(ApplyWrite(ApplyWrite(ApplyWrite(m, addr, a), addr + 1, b), addr + 2, c), addr + 3, d)
  {
    hide ApplyWrite;
    assert [a, b, c, d][..3] == [a, b, c] && [a, b, c][..2] == [a, b] && [a, b][..1] == [a] && [a][..0] == [];
    assert WriteAll(m, addr, []) == m;
    assert WriteAll(m, addr, [a]) == ApplyWrite(m, addr, a);
    assert WriteAll(m, addr, [a, b]) == ApplyWrite(WriteAll(m, addr, [a]), addr + 1, b);
    assert WriteAll(m, addr, [a, b, c]) == ApplyWrite(WriteAll(m, addr, [a, b]), addr + 2, c);
  }

  /** $4000 to $4003 set the first pulse and $4004 to $4007 the second, and nothing else. */
  lemma PulseRegisters(m: Machine, second: bool, a: u8, b: u8, c: u8, d: u8)
    ensures var u, r := m.apu.units, WriteAll(m, if second then 0x4004 else 0x4000, [a, b, c, d]);
            && r == m.(apu := m.apu.(units := r.apu.units))
            && r.apu.units == (if second then u.(pulse2 := r.apu.units.pulse2) else u.(pulse1 := r.apu.units.pulse1))
            && PulseSet(if second then u.pulse2 else u.pulse1,
                        if second then r.apu.units.pulse2 else r.apu.units.pulse1, a, b, c, d)
  {
    hide PulseSet, PulseWritePeriodHi, PulseWritePeriodLo, PulseWriteSweep, PulseWriteMain;
    FourWrites(m, if second then 0x4004 else 0x4000, a, b, c, d);
    PulseSets(if second then m.apu.units.pulse2 else m.apu.units.pulse1, a, b, c, d);
  }

  predicate TriangleSet(t: Triangle, r: Triangle, a: u8, c: u8, d: u8) {
    && r.controlFlag == r.length.halt == (a >= 0x80) && r.linearReloadValue == a % 0x80 && r.linearReload
    && r.timerPeriod == c + 0x100 * (d % 8)
    && (if t.enabled then LengthOf(d, r.length.counter) else r.length.counter == t.length.counter)
    && r.enabled == t.enabled && r.timer == t.timer && r.seqStep == t.seqStep && r.linearCounter == t.linearCounter
  }

  lemma TriangleSets(t: Triangle, a: u8, c: u8, d: u8)
    ensures TriangleSet(t, TriangleWritePeriodHi(TriangleWritePeriodLo(TriangleWriteLinear(t, a), c), d), a, c, d)
  {
    hide LengthOf;
    LengthTable(d);
    assert (t.timerPeriod / 0x100 * 0x100 + c) % 0x100 == c;
  }

  /** $4008, $400A and $400B set the triangle; $4009 is nothing. */
  lemma TriangleRegisters(m: Machine, a: u8, b: u8, c: u8, d: u8)
    ensures var u, r := m.apu.units, WriteAll(m, 0x4008, [a, b, c, d]);
            && r == m.(apu := m.apu.(units := u.(triangle := r.apu.units.triangle)))
            && TriangleSet(u.triangle, r.apu.units.triangle, a, c, d)
  {
    hide TriangleSet, TriangleWritePeriodHi, TriangleWritePeriodLo, TriangleWriteLinear;
    FourWrites(m, 0x4008, a, b, c, d);
    TriangleSets(m.apu.units.triangle, a, c, d);
  }

  predicate NoiseSet(n: Noise, r: Noise, a: u8, c: u8, d: u8) {
    && r.length.halt == (a / 0x20 % 2 == 1)
    && r.envelope.loopFlag == (a / 0x20 % 2 == 1) && r.envelope.constant == (a / 0x10 % 2 == 1)
    && r.envelope.volume == a % 0x10 && r.envelope.start
    && r.mode == (c >= 0x80) && r.periodIndex == c % 0x10
    && r.timerPeriod == (if n.pal then NOISE_PERIOD_PAL else NOISE_PERIOD_NTSC)[c % 0x10]
    && (if n.enabled then LengthOf(d, r.length.counter) else r.length.counter == n.length.counter)
    && r.enabled == n.enabled && r.timer == n.timer && r.shift == n.shift && r.pal == n.pal
    && r.envelope.decay == n.envelope.decay && r.envelope.divider == n.envelope.divider
  }

  lemma NoiseSets(n: Noise, a: u8, c: u8, d: u8)
    ensures NoiseSet(n, NoiseWriteLength(NoiseWritePeriod(NoiseWriteMain(n, a), c), d), a, c, d)
  {
    hide LengthOf;
    LengthTable(d);
  }

  /** $400C, $400E and $400F set the noise channel. */
  lemma NoiseRegisters(m: Machine, a: u8, b: u8, c: u8, d: u8)
    ensures var u, r := m.apu.units, WriteAll(m, 0x400C, [a, b, c, d]);
            && r == m.(apu := m.apu.(units := u.(noise := r.apu.units.noise)))
            && NoiseSet(u.noise, r.apu.units.noise, a, c, d)
  {
    hide NoiseSet, NoiseWriteLength, NoiseWritePeriod, NoiseWriteMain;
    FourWrites(m, 0x400C, a, b, c, d);
    NoiseSets(m.apu.units.noise, a, c, d);
  }

  predicate DmcSet(e: Dmc, r: Dmc, pal: bool, a: u8, b: u8, c: u8, d: u8) {
    && r.irqEnable == (a >= 0x80) && r.loopFlag == (a / 0x40 % 2 == 1) && r.rateIndex == a % 0x10
    && r.out == e.out.(period := (if pal then DMC_RATE_PAL else DMC_RATE_NTSC)[a % 0x10], dac := b % 0x80)
    && r.irqFlag == (e.irqFlag && a >= 0x80)
    && r.reader == e.reader.(addrSeed := 0xC000 + 0x40 * c, lenSeed := 0x10 * d + 1)
    && r.enabled == e.enabled && r.implicitStop == e.implicitStop && r.buffer == e.buffer && r.filled == e.filled
    && r.fetch == e.fetch
  }

  lemma DmcSets(e: Dmc, pal: bool, a: u8, b: u8, c: u8, d: u8)
    ensures DmcSet(e, DmcWriteLen(DmcWriteAddr(DmcWriteDac(DmcWriteControl(e, a, pal), b), c), d), pal, a, b, c, d)
  {
  }

  /** $4010 to $4013 set the DMC. */
  lemma DmcRegisters(m: Machine, a: u8, b: u8, c: u8, d: u8)
    ensures var r := WriteAll(m, 0x4010, [a, b, c, d]);
            && r == m.(apu := m.apu.(dmc := r.apu.dmc))
            && DmcSet(m.apu.dmc, r.apu.dmc, m.apu.seqr.pal, a, b, c, d)
  {
    hide DmcSet, DmcWriteLen, DmcWriteAddr, DmcWriteDac, DmcWriteControl;
    FourWrites(m, 0x4010, a, b, c, d);
    DmcSets(m.apu.dmc, m.apu.seqr.pal, a, b, c, d);
  }

  /** A length counter under its bit of $4015. */
  predicate EnabledBy(on: bool, enabled: bool, was: u8, counter: u8) {
    enabled == on && counter == if on then was else 0
  }

  /** $4015: one bit for each channel, and the DMC's interrupt acknowledged. */
  lemma StatusWrite(m: Machine, value: u8)
    ensures var u, r := m.apu.units, ApplyWrite(m, 0x4015, value).apu;
            && EnabledBy(value % 2 == 1, r.units.pulse1.enabled, u.pulse1.length.counter, r.units.pulse1.length.counter)
            && EnabledBy(value / 2 % 2 == 1, r.units.pulse2.enabled, u.pulse2.length.counter, r.units.pulse2.length.counter)
            && EnabledBy(value / 4 % 2 == 1, r.units.triangle.enabled, u.triangle.length.counter, r.units.triangle.length.counter)
            && EnabledBy(value / 8 % 2 == 1, r.units.noise.enabled, u.noise.length.counter, r.units.noise.length.counter)
            && r.dmc.enabled == (value / 0x10 % 2 == 1) && !r.dmc.irqFlag
  {
    StatusUnits(m, value);
    StatusEnables(m, value);
    hide ApplyWrite;
  }

  lemma StatusEnables(m: Machine, value: u8)
    ensures var d := ApplyWrite(m, 0x4015, value).apu.dmc; d.enabled == Bit(value, 0x10) && !d.irqFlag
  {
    hide PulseEnable, TriangleEnable, NoiseEnable, Restart, Bit, StopDma, DmcCancel;
    StopCancels(m.(apu := WriteStatus(m.apu, value)));
    CancelKeeps(WriteStatus(m.apu, value).dmc);
  }

  lemma Halves(bit: int, rest: int, x: int, w: int)
    requires 0 <= bit <= 1 && 0 <= rest && 0 <= x && 1 <= w && x / w == bit + 2 * rest
    ensures x / w % 2 == bit && x / (2 * w) == rest
  {
    var r := x % w;
    assert x == (bit + 2 * rest) * w + r && 0 <= r < w;
    assert (bit + 2 * rest) * w == bit * w + rest * (2 * w);
    assert 0 <= bit * w <= w;
    DivModUnique(x, 2 * w, rest, bit * w + r);
  }

  lemma BitsOfSum(a: int, b: int, c: int, d: int, e: int, g: int, h: int)
    requires 0 <= a <= 1 && 0 <= b <= 1 && 0 <= c <= 1 && 0 <= d <= 1 && 0 <= e <= 1 && 0 <= g <= 1 && 0 <= h <= 1
    ensures var s := a + 2 * b + 4 * c + 8 * d + 0x10 * e + 0x40 * g + 0x80 * h;
            && s % 2 == a && s / 2 % 2 == b && s / 4 % 2 == c && s / 8 % 2 == d && s / 0x10 % 2 == e
            && s / 0x20 % 2 == 0 && s / 0x40 % 2 == g && s / 0x80 == h
  {
    var s := a + 2 * b + 4 * c + 8 * d + 0x10 * e + 0x40 * g + 0x80 * h;
    var s5 := 2 * g + 4 * h;
    var s3 := d + 2 * e + 4 * s5;
    Halves(a, b + 2 * c + 4 * s3, s, 1);
    Halves(b, c + 2 * s3, s, 2);
    Halves(c, s3, s, 4);
    Halves(d, e + 2 * s5, s, 8);
    Halves(e, s5, s, 0x10);
    Halves(0, g + 2 * h, s, 0x20);
    Halves(g, h, s, 0x40);
  }

  function One(b: bool): int {
    if b then 1 else 0
  }

  /** What $4015 reads, bit by bit, and that reading it acknowledges the frame interrupt. */
  lemma StatusRead(m: Machine)
    ensures var s, u := ReadByte(m, 0x4015), m.apu.units;
            && (s % 2 == 1 <==> u.pulse1.length.counter > 0)
            && (s / 2 % 2 == 1 <==> u.pulse2.length.counter > 0)
            && (s / 4 % 2 == 1 <==> u.triangle.length.counter > 0)
            && (s / 8 % 2 == 1 <==> u.noise.length.counter > 0)
            && (s / 0x10 % 2 == 1 <==> m.apu.dmc.reader.remaining > 0)
            && s / 0x20 % 2 == 0
            && (s / 0x40 % 2 == 1 <==> m.apu.seqr.irqFlag)
            && (s / 0x80 == 1 <==> m.apu.dmc.irqFlag)
    ensures AfterRead(m, 0x4015) == m.(apu := m.apu.(seqr := m.apu.seqr.(irqFlag := false)))
  {
    var u := m.apu.units;
    var a, b, c := One(u.pulse1.length.counter > 0), One(u.pulse2.length.counter > 0), One(u.triangle.length.counter > 0);
    var d, e := One(u.noise.length.counter > 0), One(m.apu.dmc.reader.remaining > 0);
    var g, h := One(m.apu.seqr.irqFlag), One(m.apu.dmc.irqFlag);
    assert ReadByte(m, 0x4015) == a + 2 * b + 4 * c + 8 * d + 0x10 * e + 0x40 * g + 0x80 * h;
    hide ReadByte;
    BitsOfSum(a, b, c, d, e, g, h);
  }

  /** $4017: the mode, the inhibit bit, which also acknowledges, and the reset that falls
      on an even cycle three or four cycles later. */
  lemma FrameWrite(m: Machine, value: u8)
    requires m.apu.totalCycles == m.cycles
    ensures var q, r := m.apu.seqr, ApplyWrite(m, 0x4017, value).apu.seqr;
            && r.fiveStep == (value >= 0x80) && r.inhibit == (value / 0x40 % 2 == 1)
            && r.irqFlag == (q.irqFlag && value / 0x40 % 2 == 0)
            && r.delay.Some? && 3 <= r.delay.value <= 4 && (m.cycles + r.delay.value) % 2 == 0
            && r.acc == q.acc && r.step == q.step && r.pal == q.pal
  {
  }

  /** The NSF2 timer: two bytes of reload, and a control that starts it where it stands
      or stops it at its reload value. */
  lemma TimerRegisters(m: Machine, low: u8, high: u8, control: u8)
    requires m.timer.enabled
    ensures var r := ApplyWrite(ApplyWrite(ApplyWrite(m, 0x401B, low), 0x401C, high), 0x401D, control);
            && r.timer == Timer(true, low + 0x100 * high, if control % 2 == 1 then m.timer.counter else low + 0x100 * high,
                                control % 2 == 1, m.timer.irqFlag)
            && ReadByte(r, 0x401B) == low && ReadByte(r, 0x401C) == high
            && ReadByte(r, 0x401D) == (if m.timer.irqFlag then 0x80 else 0) + control % 2
            && !AfterRead(r, 0x401D).timer.irqFlag
  {
    TimerSets(m.timer, low, high, control);
    hide TimerWrite;
    assert (low + 0x100 * high) % 0x100 == low && (low + 0x100 * high) / 0x100 == high;
  }

  lemma TimerSets(t: Timer, low: u8, high: u8, control: u8)
    requires t.enabled
    ensures TimerWrite(TimerWrite(TimerWrite(t, 0x401B, low), 0x401C, high), 0x401D, control)
         == Timer(true, low + 0x100 * high, if control % 2 == 1 then t.counter else low + 0x100 * high, control % 2 == 1, t.irqFlag)
  {
    assert (t.reload / 0x100 * 0x100 + low) % 0x100 == low;
  }

  /** The region: the frame tables and the two period tables that depend on it. */
  lemma RegionSet(m: Machine, pal: bool)
    ensures var r := SetPal(m, pal);
            && r.apu.seqr == m.apu.seqr.(pal := pal)
            && r.apu.units == m.apu.units.(noise := r.apu.units.noise)
            && r.apu.units.noise == m.apu.units.noise.(
                 pal := pal, timerPeriod := (if pal then NOISE_PERIOD_PAL else NOISE_PERIOD_NTSC)[m.apu.units.noise.periodIndex % 16])
            && r.apu.dmc == m.apu.dmc.(
                 out := m.apu.dmc.out.(period := (if pal then DMC_RATE_PAL else DMC_RATE_NTSC)[m.apu.dmc.rateIndex % 16]))
  {
  }

  // --------------------------------------------------------------- PCM reads

  /** What a read does besides giving its byte: $4015 and the timer's $401D acknowledge,
      and with the MMC5 in read mode a byte from $8000 to $BFFF is its next level, where
      a zero raises its interrupt in place of one. Nothing else is touched. */
  lemma ReadObserves(m: Machine, addr: u16)
    requires addr != 0x4015 && !(m.timer.enabled && addr == 0x401D)
    ensures var c, byte := m.apu.chips.mmc5, m.mem[addr];
            AfterRead(m, addr) == m.(apu := m.apu.(chips := m.apu.chips.(mmc5 :=
              if !(0x8000 <= addr <= 0xBFFF && c.enabled && c.pcmReadMode) then c
              else if byte == 0 then c.(irqTrip := true) else c.(pcm := byte, irqTrip := false))))
  {
  }

  function Observed(s: Mmc5, bytes: seq<u8>): Mmc5 {
    if bytes == [] then s else ObservePrgRead(Observed(s, bytes[..|bytes| - 1]), bytes[|bytes| - 1])
  }

  function LastLevel(level: u8, bytes: seq<u8>): u8 {
    if bytes == [] then level
    else if bytes[|bytes| - 1] != 0 then bytes[|bytes| - 1]
    else LastLevel(level, bytes[..|bytes| - 1])
  }

  /** Over any number of reads the level is the last byte that was not zero, and the
      interrupt stands exactly if the last byte of all was. */
  lemma {:induction false} LevelFollows(s: Mmc5, bytes: seq<u8>)
    requires s.enabled && s.pcmReadMode
    ensures Observed(s, bytes) == s.(pcm := LastLevel(s.pcm, bytes),
                                     irqTrip := if bytes == [] then s.irqTrip else bytes[|bytes| - 1] == 0)
  {
    if bytes != [] {
      LevelFollows(s, bytes[..|bytes| - 1]);
    }
  }
}
