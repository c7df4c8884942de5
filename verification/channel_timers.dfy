/** The channel timers in closed form: what the pulse, triangle and noise generators
    and the DMC's output unit have done after any number of cycles
    (src/apu.rs:212-222, 368-380, 489-507, 772-840). */
module ChannelTimers {
  import opened Words
  import opened Dividers
  import opened Channels
  import opened DeltaModulation

  lemma PulseOnce(p: Pulse)
    requires p.dutyStep < 8
    ensures PulseTick(p) == if p.timer > 0 then p.(timer := p.timer - 1)
                            else p.(timer := p.timerPeriod, dutyStep := if p.dutyStep == 7 then 0 else p.dutyStep + 1)
  {
  }

  /** A pulse timer and its duty sequencer: one duty step every `timerPeriod + 1` ticks. */
  lemma {:induction false} PulseRuns(p: Pulse, n: nat)
    requires p.dutyStep < 8
    ensures Iterate(PulseTick, p, n)
         == p.(timer := TimerAt(p.timer, p.timerPeriod, n),
               dutyStep := (p.dutyStep + Expiries(p.timer, p.timerPeriod, n)) % 8)
    ensures 0 <= TimerAt(p.timer, p.timerPeriod, n) < 0x800
  {
    hide TimerAt, Expiries, PulseTick;
    if n == 0 {
      TimerStart(p.timer, p.timerPeriod);
    } else {
      PulseRuns(p, n - 1);
      TimerStep(p.timer, p.timerPeriod, n - 1);
      SuccMod(p.dutyStep + Expiries(p.timer, p.timerPeriod, n - 1), 8);
      PulseOnce(Iterate(PulseTick, p, n - 1));
    }
  }

  predicate TriangleGated(t: Triangle) {
    t.length.counter > 0 && t.linearCounter > 0 && t.timerPeriod >= 2
  }

  lemma TriangleOnce(t: Triangle, r: Triangle, k: nat)
    requires t.seqStep < 32 && r == t.(timer := r.timer, seqStep := if TriangleGated(t) then (t.seqStep + k) % 32 else t.seqStep)
    ensures TriangleTick(r) == if r.timer > 0 then r.(timer := r.timer - 1)
                               else r.(timer := t.timerPeriod,
                                       seqStep := if TriangleGated(t) then (t.seqStep + (k + 1)) % 32 else t.seqStep)
  {
    SuccMod(t.seqStep + k, 32);
  }

  /** The triangle: one of its 32 steps every `timerPeriod + 1` cycles, while both
      counters run and the period is not ultrasonic. */
  lemma {:induction false} TriangleRuns(t: Triangle, n: nat)
    requires t.seqStep < 32
    ensures Iterate(TriangleTick, t, n)
         == t.(timer := TimerAt(t.timer, t.timerPeriod, n),
               seqStep := if TriangleGated(t) then (t.seqStep + Expiries(t.timer, t.timerPeriod, n)) % 32 else t.seqStep)
    ensures 0 <= TimerAt(t.timer, t.timerPeriod, n) < 0x1_0000
  {
    hide TimerAt, Expiries, TriangleTick;
    if n == 0 {
      TimerStart(t.timer, t.timerPeriod);
    } else {
      TriangleRuns(t, n - 1);
      TimerStep(t.timer, t.timerPeriod, n - 1);
      TriangleOnce(t, Iterate(TriangleTick, t, n - 1), Expiries(t.timer, t.timerPeriod, n - 1));
      hide TriangleGated;
    }
  }

  /** `k` shifts of the noise register. */
  function Shifted(shift: u15, mode: bool, k: nat): u15 {
    if k == 0 then shift else NoiseShift(Shifted(shift, mode, k - 1), mode)
  }

  /** The noise generator: one shift every `timerPeriod` cycles. */
  lemma {:induction false} NoiseRuns(n: Noise, cycles: nat)
    ensures var reload := Max(n.timerPeriod - 1, 0);
            && 0 <= Expiries(n.timer, reload, cycles) && 0 <= TimerAt(n.timer, reload, cycles) < 0x1_0000
            && Iterate(NoiseTick, n, cycles)
               == n.(timer := TimerAt(n.timer, reload, cycles), shift := Shifted(n.shift, n.mode, Expiries(n.timer, reload, cycles)))
  {
    hide TimerAt, Expiries, NoiseShift;
    var reload := Max(n.timerPeriod - 1, 0);
    if cycles == 0 {
      TimerStart(n.timer, reload);
    } else {
      NoiseRuns(n, cycles - 1);
      TimerStep(n.timer, reload, cycles - 1);
    }
  }

  /** One shift, bit by bit: the other bits move one place down, and the top one becomes the
      exclusive or of bit 0 and bit 1, or bit 6 in short mode. */
  lemma ShiftBits(shift: u15, mode: bool)
    ensures var r := NoiseShift(shift, mode);
            && r % 0x4000 == shift / 2
            && Bit(r, 0x4000) == (Bit(shift, 1) != Bit(shift, if mode then 0x40 else 2))
  {
  }

  // --------------------------------------------------------- the DMC's output

  function BitPeriod(o: Output): (p: nat)
    ensures 1 <= p <= 0xFFFF
  {
    Max(o.period, 1)
  }

  /** Between output bits, and between output cycles of eight. */
  predicate InCycle(o: Output) {
    1 <= o.bits <= 8 && o.timer < BitPeriod(o)
  }

  /** Cycles until the current output cycle ends. */
  function ToCycleEnd(o: Output): int {
    (o.bits - 1) * BitPeriod(o) + o.timer
  }

  lemma BitsTimes(bits: nat, p: nat)
    requires bits >= 1
    ensures (bits - 1) * p == bits * p - p && (bits >= 2 ==> (bits - 1) * p >= p) && 0 <= (bits - 1) * p
    ensures bits >= 2 ==> (bits - 2) * p == (bits - 1) * p - p
  {
    if bits >= 2 {
      MulLe(1, bits - 1, p);
    }
  }

  /** A cycle on which no bit is due, and one on which a bit is. */
  lemma OutputBetween(d: Dmc)
    requires d.out.timer > 0
    ensures var t := DmcTick(d); t.out == d.out.(timer := d.out.timer - 1) && t.filled == d.filled && t.buffer == d.buffer
  {
    hide ShiftOneBit;
  }

  lemma OutputBit(d: Dmc)
    requires InCycle(d.out) && d.out.timer == 0
    ensures var t := DmcTick(d);
            && t.out.period == d.out.period && t.out.timer == BitPeriod(d.out) - 1 && t.buffer == d.buffer
            && t.out.dac == ShiftDac(d.out)
            && (if d.out.bits > 1 then
                  t.out.bits == d.out.bits - 1 && t.filled == d.filled && t.out.silence == d.out.silence
                  && t.out.shift == d.out.shift / 2
                else
                  t.out.bits == 8 && !t.filled && t.out.silence == !d.filled && (d.filled ==> t.out.shift == d.buffer))
  {
    hide ShiftDac, ShiftOneBit, ArmFetch;
    TickIsUnit(d);
    var e := d.(out := d.out.(timer := Max(d.out.period - 1, 0)));
    assert OutputUnit(d) == ShiftOneBit(e);
    ShiftIs(e);
    DacIgnoresTimer(d.out, e.out.timer);
  }

  lemma DacIgnoresTimer(o: Output, timer: u16)
    ensures ShiftDac(o.(timer := timer)) == ShiftDac(o)
  {
  }

  lemma ShiftIs(e: Dmc)
    requires 1 <= e.out.bits <= 8
    ensures var t := ShiftOneBit(e);
            && t.out.period == e.out.period && t.out.timer == e.out.timer && t.buffer == e.buffer
            && t.out.dac == ShiftDac(e.out)
            && (if e.out.bits > 1 then
                  t.out.bits == e.out.bits - 1 && t.filled == e.filled && t.out.silence == e.out.silence
                  && t.out.shift == e.out.shift / 2
                else
                  t.out.bits == 8 && !t.filled && t.out.silence == !e.filled && (e.filled ==> t.out.shift == e.buffer))
  {
    hide ShiftDac;
  }

  lemma TickIsUnit(d: Dmc)
    ensures var t, u := DmcTick(d), OutputUnit(d); t.out == u.out && t.filled == u.filled && t.buffer == u.buffer
  {
    hide OutputUnit;
  }

  /** One cycle of the output unit: the end of the output cycle comes one cycle nearer,
      and exactly there the buffer moves into the shift register and is empty, or the
      unit falls silent for want of a byte. Nowhere else is the buffer touched. */
  lemma OutputPace(d: Dmc)
    requires InCycle(d.out)
    ensures var t := DmcTick(d);
            && InCycle(t.out) && BitPeriod(t.out) == BitPeriod(d.out) && 0 <= ToCycleEnd(d.out)
            && (if ToCycleEnd(d.out) > 0 then
                  ToCycleEnd(t.out) == ToCycleEnd(d.out) - 1 && t.filled == d.filled && t.out.silence == d.out.silence
                else
                  && ToCycleEnd(t.out) == 8 * BitPeriod(d.out) - 1 && !t.filled && t.out.bits == 8
                  && t.out.silence == !d.filled && (d.filled ==> t.out.shift == d.buffer))
            && t.buffer == d.buffer
  {
    hide DmcTick, ShiftDac;
    BitsTimes(d.out.bits, BitPeriod(d.out));
    if d.out.timer > 0 {
      OutputBetween(d);
    } else {
      OutputBit(d);
    }
  }

  lemma CycleEndNatural(o: Output)
    requires InCycle(o)
    ensures 0 <= ToCycleEnd(o)
  {
    BitsTimes(o.bits, BitPeriod(o));
  }

  /** Cycles of the channel with the bytes its DMA delivers between them. */
  function Fed(d: Dmc, feed: seq<Option<u8>>): Dmc {
    if feed == [] then d
    else
      var t := DmcTick(Fed(d, feed[..|feed| - 1]));
      if feed[|feed| - 1].Some? then DmcSupply(t, feed[|feed| - 1].value) else t
  }

  lemma SupplyKeepsOutput(d: Dmc, byte: u8)
    ensures DmcSupply(d, byte).out == d.out && DmcSupply(d, byte).filled && DmcSupply(d, byte).buffer == byte
  {
  }

  /** However bytes are delivered, a running sample is drained at one byte every
      `8 * period` cycles: the output cycle ends on those cycles and on no others, what
      is in the buffer then goes out, and the buffer is empty afterwards. */
  lemma {:induction false} DrainedEvenly(d: Dmc, feed: seq<Option<u8>>)
    requires InCycle(d.out)
    ensures var t, n, cycle := Fed(d, feed), |feed|, 8 * BitPeriod(d.out);
            && InCycle(t.out) && BitPeriod(t.out) == BitPeriod(d.out)
            && ToCycleEnd(t.out) == TimerAt(ToCycleEnd(d.out), cycle - 1, n)
            && (var r := DmcTick(t);
                if ToCycleEnd(t.out) == 0 then !r.filled && r.out.silence == !t.filled && (t.filled ==> r.out.shift == t.buffer)
                else r.filled == t.filled && r.buffer == t.buffer)
  {
    hide DmcTick, DmcSupply, InCycle, TimerAt, ToCycleEnd, BitPeriod;
    var cycle := 8 * BitPeriod(d.out);
    CycleEndNatural(d.out);
    if feed == [] {
      TimerStart(ToCycleEnd(d.out), cycle - 1);
    } else {
      DrainedEvenly(d, feed[..|feed| - 1]);
      var before := Fed(d, feed[..|feed| - 1]);
      OutputPace(before);
      TimerStep(ToCycleEnd(d.out), cycle - 1, |feed| - 1);
      if feed[|feed| - 1].Some? {
        SupplyKeepsOutput(DmcTick(before), feed[|feed| - 1].value);
      }
    }
    OutputPace(Fed(d, feed));
  }

  /** While the unit is silent the level stands still. */
  lemma SilentLevel(d: Dmc)
    requires InCycle(d.out) && d.out.silence
    ensures DmcTick(d).out.dac == d.out.dac
  {
    hide DmcTick;
    if d.out.timer > 0 {
      OutputBetween(d);
    } else {
      OutputBit(d);
    }
  }

  // ------------------------------------------------------------- the level

  /** The bits of a byte that are set among its lowest `j`. */
  function OnesBelow(byte: nat, j: nat): nat
    decreases j
  {
    if j == 0 then 0 else byte % 2 + OnesBelow(byte / 2, j - 1)
  }

  /** The output level `j` bits into a byte: each of its bits from the lowest up moves
      the level by two, up for a one and down for a zero, where there is room. */
  function LevelAfter(level: int, byte: nat, j: nat): int
    decreases j
  {
    if j == 0 then level
    else
      var moved := if byte % 2 == 1 then level + 2 else level - 2;
      LevelAfter(if 0 <= moved <= 127 then moved else level, byte / 2, j - 1)
  }

  /** Away from the ends of its range the level follows the count of ones. */
  lemma {:induction false} LevelCounts(level: int, byte: nat, j: nat)
    requires 2 * j <= level <= 127 - 2 * j
    ensures LevelAfter(level, byte, j) == level + 4 * OnesBelow(byte, j) - 2 * j
    decreases j
  {
    if j > 0 {
      LevelCounts(if byte % 2 == 1 then level + 2 else level - 2, byte / 2, j - 1);
    }
  }

  lemma LevelOne(o: Output)
    requires !o.silence
    ensures ShiftDac(o) == LevelAfter(o.dac, o.shift, 1)
  {
    var moved := if o.shift % 2 == 1 then o.dac + 2 else o.dac - 2;
    var next := if 0 <= moved <= 127 then moved else o.dac;
    assert LevelAfter(next, o.shift / 2, 0) == next;
  }

  function Halved(byte: nat, j: nat): nat {
    if j == 0 then byte else Halved(byte, j - 1) / 2
  }

  lemma {:induction false} LevelSplit(level: int, byte: nat, j: nat)
    ensures LevelAfter(level, byte, j + 1) == LevelAfter(LevelAfter(level, byte, j), Halved(byte, j), 1)
    ensures j > 0 ==> Halved(byte, j) == Halved(byte / 2, j - 1)
    decreases j
  {
    if j > 0 {
      var moved := if byte % 2 == 1 then level + 2 else level - 2;
      LevelSplit(if 0 <= moved <= 127 then moved else level, byte / 2, j - 1);
      HalvedFront(byte, j);
    }
  }

  lemma {:induction false} HalvedFront(byte: nat, j: nat)
    requires j > 0
    ensures Halved(byte, j) == Halved(byte / 2, j - 1)
  {
    if j > 1 {
      HalvedFront(byte, j - 1);
    }
  }

  /** The start of a sounding output cycle. */
  predicate CycleStarts(o: Output) {
    o.bits == 8 && o.timer == BitPeriod(o) - 1 && !o.silence
  }

  /** The level over an output cycle, from its start and for every number of cycles up to
      its end: one bit of the byte, lowest first, every bit period. */
  lemma {:induction false} LevelRuns(d: Dmc, n: nat)
    requires CycleStarts(d.out) && n < 8 * BitPeriod(d.out)
    ensures var t, p := Iterate(DmcTick, d, n).out, BitPeriod(d.out);
            var j := Expiries(p - 1, p - 1, n);
            && 0 <= j <= 7 && InCycle(t) && BitPeriod(t) == p && !t.silence
            && t.timer == TimerAt(p - 1, p - 1, n) && t.bits == 8 - j
            && t.dac == LevelAfter(d.out.dac, d.out.shift, j) && t.shift == Halved(d.out.shift, j)
  {
    hide DmcTick, TimerAt, Expiries, LevelAfter, ShiftDac;
    var p := BitPeriod(d.out);
    SevenBits(p, n);
    if n == 0 {
      TimerStart(p - 1, p - 1);
      assert LevelAfter(d.out.dac, d.out.shift, 0) == d.out.dac by { NoBits(d.out.dac, d.out.shift); }
    } else {
      LevelRuns(d, n - 1);
      TimerStep(p - 1, p - 1, n - 1);
      var r := Iterate(DmcTick, d, n - 1);
      if r.out.timer > 0 {
        OutputBetween(r);
      } else {
        OutputBit(r);
        LevelOne(r.out);
        LevelSplit(d.out.dac, d.out.shift, Expiries(p - 1, p - 1, n - 1));
      }
    }
  }

  lemma NoBits(level: int, byte: nat)
    ensures LevelAfter(level, byte, 0) == level
  {
  }

  /** Seven bits are due before the end of an output cycle. */
  lemma SevenBits(p: nat, n: nat)
    requires 1 <= p && n < 8 * p
    ensures 0 <= Expiries(p - 1, p - 1, n) <= 7
  {
    if n > p - 1 {
      var k := (n - p) / p;
      QuotientNatural(n - p, p);
      assert n - p == k * p + (n - p) % p;
      if k >= 7 {
        MulLe(7, k, p);
      }
    }
  }
}
