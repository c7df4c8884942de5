/** The 2A03 APU (src/apu.rs:931-1530): registers, status and the batched clock. */
module Apu2A03 {
  import opened Words
  import opened Channels
  import opened DeltaModulation
  import opened FrameSequencer
  import opened FrameCounter
  import opened ExpansionChips

  datatype Apu = Apu(units: Units, dmc: Dmc, chips: Chips, carry: u1, seqr: Sequencer, totalCycles: nat)

  // ---------------------------------------------------------------- clock

  /** One CPU cycle of every channel timer; the pulses run at half the rate. */
  function TimersTick(a: Apu): Apu {
    a.(units := Units(if a.carry == 1 then PulseTick(a.units.pulse1) else a.units.pulse1,
                      if a.carry == 1 then PulseTick(a.units.pulse2) else a.units.pulse2,
                      TriangleTick(a.units.triangle), NoiseTick(a.units.noise)),
       carry := 1 - a.carry, dmc := DmcTick(a.dmc), chips := ChipsTick(a.chips))
  }

  /** The bookkeeping after `n` cycles of the timers: the clocks, a landing reset
      and the frame events that are due. */
  function Settle(a: Apu, n: nat): Apu {
    var counted := Count(a.seqr, n);
    a.(totalCycles := a.totalCycles + n,
       units := ClockAll(ResetClocks(a.units, a.seqr, n), Due(counted)),
       seqr := FrameSequencer.Settled(counted))
  }

  /** One CPU cycle of the whole unit. */
  function ApuTick(a: Apu): Apu {
    Settle(TimersTick(a), 1)
  }

  /** What the batched clock does: chunks that stop at the next scheduled moment. */
  function Batch(a: Apu, n: nat): Apu
    decreases n
  {
    if n == 0 then a
    else
      var k := Min(Until(a.seqr), n);
      Batch(Settle(Iterate(TimersTick, a, k), k), n - k)
  }

  lemma {:induction false} TimersKeepSequencer(a: Apu, n: nat)
    ensures var t := Iterate(TimersTick, a, n);
            t.seqr == a.seqr && t.totalCycles == a.totalCycles
  {
    hide PulseTick, TriangleTick, NoiseTick, DmcTick, ChipsTick;
    if n > 0 {
      TimersKeepSequencer(a, n - 1);
    }
  }

  lemma TimersIgnoreSequencer(a: Apu, q: Sequencer, total: nat)
    ensures TimersTick(a.(seqr := q, totalCycles := total)) == TimersTick(a).(seqr := q, totalCycles := total)
  {
    hide PulseTick, TriangleTick, NoiseTick, DmcTick, ChipsTick;
  }

  /** A chunk that stays short of the next scheduled moment only moves the timers. */
  lemma {:induction false} BeforeDue(a: Apu, n: nat)
    requires InTable(a.seqr) && 0 < n < Until(a.seqr)
    ensures Iterate(ApuTick, a, n)
         == Iterate(TimersTick, a, n).(seqr := Count(a.seqr, n), totalCycles := a.totalCycles + n)
  {
    hide TimersTick, Until, Count, Quiet, InTable, FrameSequencer.Settled, Due;
    TimersKeepSequencer(a, n - 1);
    TimersKeepSequencer(a, n);
    BeforeEnd(a.seqr, n);
    QuietSettled(Count(a.seqr, n));
    var t := Iterate(TimersTick, a, n - 1);
    assert Iterate(TimersTick, a, n) == TimersTick(t);
    if n == 1 {
      assert Iterate(ApuTick, a, 0) == a && t == a;
    } else {
      BeforeDue(a, n - 1);
      BeforeEnd(a.seqr, n - 1);
      CountAdd(a.seqr, n - 1, 1);
      TimersIgnoreSequencer(t, Count(a.seqr, n - 1), a.totalCycles + n - 1);
      ResetLater(a.seqr, n);
    }
  }

  /** A whole chunk is that many single cycles. */
  lemma ChunkExact(a: Apu, n: nat)
    requires 0 < n <= Until(a.seqr) && (InTable(a.seqr) || n == 1)
    ensures Settle(Iterate(TimersTick, a, n), n) == Iterate(ApuTick, a, n)
  {
    hide TimersTick, Until, Count, Quiet, InTable, FrameSequencer.Settled, Due;
    if n == 1 {
      assert Iterate(TimersTick, a, 0) == a && Iterate(ApuTick, a, 0) == a;
    } else {
      BeforeDue(a, n - 1);
      BeforeEnd(a.seqr, n - 1);
      LastOfChunk(a, n);
    }
  }

  /** The last cycle of a chunk is the only one that settles anything. */
  lemma LastOfChunk(a: Apu, n: nat)
    requires n > 1 && !ResetLands(a.seqr, n - 1)
    ensures Iterate(ApuTick, a, n - 1)
            == Iterate(TimersTick, a, n - 1).(seqr := Count(a.seqr, n - 1), totalCycles := a.totalCycles + n - 1)
            ==> Settle(Iterate(TimersTick, a, n), n) == Iterate(ApuTick, a, n)
  {
    hide TimersTick, Until, Count, Quiet, InTable, FrameSequencer.Settled, Due, ClockAll;
    CountAdd(a.seqr, n - 1, 1);
    var t := Iterate(TimersTick, a, n - 1);
    TimersKeepSequencer(a, n - 1);
    TimersKeepSequencer(a, n);
    TimersIgnoreSequencer(t, Count(a.seqr, n - 1), a.totalCycles + n - 1);
    ResetLater(a.seqr, n);
  }

  lemma ResetLater(q: Sequencer, n: nat)
    requires n > 1 && !ResetLands(q, n - 1)
    ensures ResetLands(Count(q, n - 1), 1) == ResetLands(q, n)
    ensures Count(q, n - 1).fiveStep == q.fiveStep
  {
  }

  lemma SettleInTable(a: Apu, n: nat)
    ensures Quiet(Settle(a, n).seqr) && InTable(Settle(a, n).seqr)
    ensures Settle(a, n).totalCycles == a.totalCycles + n
  {
    hide Count, Due, ClockAll, ResetClocks;
  }

  /** The batched clock refines the one-cycle clock: from every state whose step index
      lies in the current table, for any number of cycles. */
  lemma {:induction false} BatchExact(a: Apu, n: nat)
    requires InTable(a.seqr) || n <= 1 || Until(a.seqr) == 1
    ensures Batch(a, n) == Iterate(ApuTick, a, n)
    decreases n
  {
    hide Settle, ApuTick, TimersTick, InTable, Until, Quiet;
    if n > 0 {
      var k := Min(Until(a.seqr), n);
      var t := Iterate(TimersTick, a, k);
      ChunkExact(a, k);
      SettleInTable(t, k);
      BatchExact(Settle(t, k), n - k);
      IterateAdd(ApuTick, a, k, n - k);
    }
  }

  /** Splitting a batch anywhere changes nothing: the whole state is the same. */
  lemma BatchSplits(a: Apu, m: nat, n: nat)
    requires InTable(a.seqr)
    ensures Batch(Batch(a, m), n) == Batch(a, m + n)
  {
    hide Settle, ApuTick, TimersTick, Until, InTable, Batch;
    BatchExact(a, m);
    BatchExact(a, m + n);
    IterateAdd(ApuTick, a, m, n);
    TickInTable(a, m);
    BatchExact(Batch(a, m), n);
  }

  lemma TickInTable(a: Apu, n: nat)
    requires InTable(a.seqr) || n > 0
    ensures InTable(Iterate(ApuTick, a, n).seqr)
    ensures n > 0 ==> Quiet(Iterate(ApuTick, a, n).seqr)
  {
    hide TimersTick, Settle;
    if n > 0 {
      SettleInTable(TimersTick(Iterate(ApuTick, a, n - 1)), 1);
    }
  }

  // ------------------------------------- a step index outside the new table

  lemma {:induction false} TimersIgnoreSequencerN(a: Apu, q: Sequencer, total: nat, n: nat)
    ensures Iterate(TimersTick, a.(seqr := q, totalCycles := total), n)
         == Iterate(TimersTick, a, n).(seqr := q, totalCycles := total)
  {
    hide TimersTick;
    if n > 0 {
      TimersIgnoreSequencerN(a, q, total, n - 1);
      TimersIgnoreSequencer(Iterate(TimersTick, a, n - 1), q, total);
    }
  }

  /** `a` after `n` cycles of the timers, with the sequence at step 0 and cycle
      `acc` and a reset still `left` cycles away. */
  function Pending(a: Apu, n: nat, acc: nat, left: nat): Apu {
    Iterate(TimersTick, a, n).(seqr := a.seqr.(acc := acc, step := 0, delay := Some(left)),
                               totalCycles := a.totalCycles + n)
  }

  /** The same once the reset has landed. */
  function Landed(a: Apu, n: nat): Apu {
    var t := Iterate(TimersTick, a, n);
    t.(units := ResetClocks(t.units, a.seqr.(delay := Some(0)), 0),
       seqr := a.seqr.(acc := 0, step := 0, delay := None), totalCycles := a.totalCycles + n)
  }

  lemma StepOutside(q: Sequencer, k: nat)
    requires !InTable(q) && q.delay.Some? && 0 < k < q.delay.value
    ensures var c := Count(q, k);
            FrameSequencer.Settled(c) == q.(acc := 0, step := 0, delay := Some(q.delay.value - k))
            && Due(c) == [] && !ResetLands(q, k)
  {
  }

  lemma AtStart(q: Sequencer, left: nat)
    requires q.step == 0 && q.acc <= 4 && q.delay == Some(left) && 0 < left <= 4
    ensures InTable(q) && Until(q) == left
  {
  }

  lemma LandedSettled(q: Sequencer, n: nat)
    requires ResetLands(q, n)
    ensures FrameSequencer.Settled(Count(q, n)) == q.(acc := 0, step := 0, delay := None)
    ensures Due(Count(q, n)) == []
  {
  }

  lemma SettleLands(a: Apu, n: nat)
    requires a.seqr.delay == Some(n)
    ensures Settle(Iterate(TimersTick, a, n), n) == Landed(a, n)
  {
    hide TimersTick, FrameSequencer.Settled, Due;
    TimersKeepSequencer(a, n);
    LandedSettled(a.seqr, n);
  }

  /** Single cycles from `Pending` and from `Landed` on. */
  lemma PendingRuns(a: Apu, n: nat, acc: nat, left: nat, m: nat)
    requires acc <= 4 && m <= left <= 4
    ensures m < left ==> Iterate(ApuTick, Pending(a, n, acc, left), m) == Pending(a, n + m, acc + m, left - m)
    ensures 0 < m == left ==> Iterate(ApuTick, Pending(a, n, acc, left), m) == Landed(a, n + m)
  {
    hide TimersTick, Until, InTable, ApuTick, Settle, ResetClocks;
    var p := Pending(a, n, acc, left);
    if m > 0 {
      AtStart(p.seqr, left);
      TimersIgnoreSequencerN(Iterate(TimersTick, a, n), p.seqr, p.totalCycles, m);
      IterateAdd(TimersTick, a, n, m);
      if m < left {
        BeforeDue(p, m);
      } else {
        ChunkExact(p, m);
        SettleLands(p, m);
        LandedSame(a, p, n, m);
      }
    }
  }

  lemma LandedSame(a: Apu, p: Apu, n: nat, m: nat)
    requires p.seqr == a.seqr.(acc := p.seqr.acc, step := 0, delay := p.seqr.delay)
    requires p.totalCycles == a.totalCycles + n
    requires Iterate(TimersTick, p, m).(seqr := a.seqr, totalCycles := 0)
          == Iterate(TimersTick, a, n + m).(seqr := a.seqr, totalCycles := 0)
    ensures Landed(p, m) == Landed(a, n + m)
  {
    hide TimersTick;
  }

  lemma FirstOutside(a: Apu)
    requires !InTable(a.seqr) && a.seqr.delay.Some? && 2 <= a.seqr.delay.value
    ensures ApuTick(a) == Pending(a, 1, 0, a.seqr.delay.value - 1)
  {
    hide TimersTick, FrameSequencer.Settled, Due, InTable;
    StepOutside(a.seqr, 1);
    TimersKeepSequencer(a, 1);
    assert Iterate(TimersTick, a, 0) == a;
  }

  lemma ChunkOutside(a: Apu, k: nat)
    requires !InTable(a.seqr) && a.seqr.delay.Some? && 0 < k < a.seqr.delay.value
    ensures Settle(Iterate(TimersTick, a, k), k) == Pending(a, k, 0, a.seqr.delay.value - k)
  {
    hide TimersTick, FrameSequencer.Settled, Due, InTable;
    StepOutside(a.seqr, k);
    TimersKeepSequencer(a, k);
  }

  lemma SinglesOutside(a: Apu, m: nat)
    requires !InTable(a.seqr) && a.seqr.delay.Some? && 2 <= a.seqr.delay.value <= 4 && 0 < m <= a.seqr.delay.value
    ensures Iterate(ApuTick, a, m)
         == if m < a.seqr.delay.value then Pending(a, m, m - 1, a.seqr.delay.value - m) else Landed(a, m)
  {
    hide ApuTick, Pending, Landed, InTable;
    FirstOutside(a);
    assert Iterate(ApuTick, a, 0) == a;
    IterateAdd(ApuTick, a, 1, m - 1);
    PendingRuns(a, 1, 0, a.seqr.delay.value - 1, m - 1);
    assert Iterate(ApuTick, Pending(a, 1, 0, a.seqr.delay.value - 1), 0) == Pending(a, 1, 0, a.seqr.delay.value - 1);
  }

  lemma BatchFirstChunk(a: Apu, n: nat)
    requires 0 < n
    ensures var k := Min(Until(a.seqr), n);
            Batch(a, n) == Batch(Settle(Iterate(TimersTick, a, k), k), n - k)
  {
    hide Settle, TimersTick, Until;
  }

  lemma LandedInTable(a: Apu, n: nat)
    ensures InTable(Landed(a, n).seqr)
  {
  }

  /** A batch that reaches the pending reset agrees with the single cycles. */
  lemma OutsideReachesReset(a: Apu, n: nat)
    requires !InTable(a.seqr) && a.seqr.delay.Some? && 2 <= a.seqr.delay.value <= Min(n, 4)
    requires Until(a.seqr) > 1
    ensures Batch(a, n) == Iterate(ApuTick, a, n)
  {
    hide ApuTick, TimersTick, Pending, Landed, InTable, Until, Settle, Batch;
    var d := a.seqr.delay.value;
    var k := Min(Until(a.seqr), n);
    UntilReset(a.seqr);
    BatchFirstChunk(a, n);
    SinglesOutside(a, d);
    IterateAdd(ApuTick, a, d, n - d);
    if k == d {
      SettleLands(a, d);
      LandedInTable(a, d);
      BatchExact(Landed(a, d), n - d);
    } else {
      var p := Pending(a, k, 0, d - k);
      ChunkOutside(a, k);
      PendingStart(a, k, d - k);
      BatchExact(p, n - k);
      PendingRuns(a, k, 0, d - k, d - k);
      IterateAdd(ApuTick, p, d - k, n - d);
    }
  }

  /** One that stops short of it does not: the sequence has lost cycles. */
  lemma OutsideStopsShort(a: Apu, n: nat)
    requires !InTable(a.seqr) && a.seqr.delay.Some? && 2 <= n < a.seqr.delay.value <= 4
    requires Until(a.seqr) > 1
    ensures Batch(a, n) != Iterate(ApuTick, a, n)
  {
    hide ApuTick, TimersTick, Pending, Landed, InTable, Until, Settle, Batch;
    var d := a.seqr.delay.value;
    var k := Min(Until(a.seqr), n);
    BatchFirstChunk(a, n);
    var p := Pending(a, k, 0, d - k);
    ChunkOutside(a, k);
    PendingStart(a, k, d - k);
    BatchExact(p, n - k);
    SinglesOutside(a, n);
    PendingRuns(a, k, 0, d - k, n - k);
    PendingDiffer(a, n, n - k, n - 1, d - n);
  }

  /** A mode write can leave the step index outside the new table with its reset
      three or four cycles away. There the batched clock agrees with the single-cycle
      clock if and only if the batch is one cycle, stops after one, or reaches the reset. */
  lemma OutsideExactIff(a: Apu, n: nat)
    requires !InTable(a.seqr) && a.seqr.delay.Some? && 2 <= a.seqr.delay.value <= 4
    ensures Batch(a, n) == Iterate(ApuTick, a, n)
            <==> n <= 1 || Until(a.seqr) == 1 || a.seqr.delay.value <= n
  {
    hide ApuTick, InTable, Until, Batch;
    if n <= 1 || Until(a.seqr) == 1 {
      BatchExact(a, n);
    } else if a.seqr.delay.value <= n {
      OutsideReachesReset(a, n);
    } else {
      OutsideStopsShort(a, n);
    }
  }

  lemma UntilReset(q: Sequencer)
    requires q.delay.Some?
    ensures Until(q) <= Max(q.delay.value, 1)
  {
  }

  lemma PendingStart(a: Apu, n: nat, left: nat)
    requires 0 < left <= 4
    ensures InTable(Pending(a, n, 0, left).seqr)
  {
    AtStart(Pending(a, n, 0, left).seqr, left);
  }

  lemma PendingDiffer(a: Apu, n: nat, acc: nat, other: nat, left: nat)
    requires acc != other
    ensures Pending(a, n, acc, left) != Pending(a, n, other, left)
  {
    assert Pending(a, n, acc, left).seqr.acc == acc;
  }

  lemma {:induction false} SequencerRuns(a: Apu, n: nat)
    ensures Iterate(ApuTick, a, n).seqr == Iterate(SeqTick, a.seqr, n)
    ensures Iterate(ApuTick, a, n).totalCycles == a.totalCycles + n
  {
    hide ApuTick, SeqTick;
    if n > 0 {
      SequencerRuns(a, n - 1);
      TickSequencer(Iterate(ApuTick, a, n - 1));
    }
  }

  lemma TickSequencer(b: Apu)
    ensures ApuTick(b).seqr == SeqTick(b.seqr) && ApuTick(b).totalCycles == b.totalCycles + 1
  {
    hide PulseTick, TriangleTick, NoiseTick, DmcTick, ChipsTick, Count, FrameSequencer.Settled, Due, ClockAll, ResetClocks;
  }

  /** An APU 29829 cycles after power-up, when a $4017 write selects the five-step mode. */
  function LateWrite(powerUp: Apu): Apu {
    var a := Iterate(ApuTick, powerUp, 29829);
    a.(seqr := FrameSequencer.WriteFrameCounter(a.seqr, 0x80, a.totalCycles))
  }

  /** The concrete case, reached from power-up in four-step mode: cycle 29829 stands at
      step 5 of the four-step table, the five-step table has no such step, and the
      write, on an odd cycle, arms its reset three cycles away. A batch of two cycles
      then differs from two single cycles. */
  lemma OutsideCounterexample(powerUp: Apu)
    requires powerUp.seqr == Sequencer(false, false, false, false, 0, 0, None) && powerUp.totalCycles == 0
    ensures var a := LateWrite(powerUp);
            && PhaseOk(Iterate(ApuTick, powerUp, 29829).seqr, 29829)
            && a.seqr.step == 5 && a.seqr.delay == Some(3) && !InTable(a.seqr)
            && Batch(a, 2) != Iterate(ApuTick, a, 2)
  {
    hide ApuTick, Batch, Iterate;
    var q := powerUp.seqr;
    SequencerRuns(powerUp, 29829);
    PowerUpPlaced();
    LongRunPosition(q, 29829);
    StepFive(Iterate(SeqTick, q, 29829));
    OutsideExactIff(LateWrite(powerUp), 2);
  }

  lemma PowerUpPlaced()
    ensures Placed(Sequencer(false, false, false, false, 0, 0, None))
    ensures Period(Sequencer(false, false, false, false, 0, 0, None)) == 29830
  {
  }

  lemma StepFive(r: Sequencer)
    requires Placed(r) && r.delay.None? && ScheduleOf(r) == NTSC_4 && r.acc == 29829
    ensures r.step == 5 && PhaseOk(r, 29829)
    ensures var w := FrameSequencer.WriteFrameCounter(r, 0x80, 29829);
            w.step == 5 && w.delay == Some(3) && !InTable(w) && Until(w) == 3
  {
    assert NTSC_4[4].offset == 29829 && NTSC_4[5].offset == 29830;
    assert forall i :: 0 <= i < 5 ==> NTSC_4[i].offset <= 29829;
    assert !r.pal by { TablesDiffer(r); }
  }

  lemma TablesDiffer(r: Sequencer)
    ensures ScheduleOf(r) == NTSC_4 ==> !r.pal && !r.fiveStep
  {
    assert NTSC_4[0].offset == 7457 && PAL_4[0].offset == 8313 && PAL_5[0].offset == 8313;
    assert |NTSC_4| == 6 && |NTSC_5| == 5;
  }
}
