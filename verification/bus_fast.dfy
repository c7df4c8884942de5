/** The chunked path of `tick_machine` is the cycle-exact walk (src/bus.rs:1059-1127). */
module DmaFastPath {
  import opened Words
  import opened IrqTimer
  import opened DeltaModulation
  import opened FrameSequencer
  import opened ExpansionChips
  import opened Apu2A03
  import opened ApuObject
  import opened DmaEngine
  import opened DmaOwnership

  /** What makes the cheap path sound: a disabled channel has no bytes left, and no
      implicit stop is waiting to be observed. */
  predicate Calm(d: Dmc) {
    !d.implicitStop && (!d.enabled ==> d.reader.remaining == 0)
  }

  predicate Idle(d: Dmc) {
    Calm(d) && !ActivityPossible(d)
  }

  /** While no activity is possible, a cycle arms no fetch, ends no sample and makes
      none possible. */
  lemma IdleTick(d: Dmc)
    requires Idle(d)
    ensures var t := DmcTick(d);
            Idle(t) && DmcTakeStop(DmcTakeFetch(t)) == t && !t.fetch.pending && !t.implicitStop
  {
    hide DmcTick;
    TickKeepsReader(d);
  }

  lemma CalmTick(m: Machine)
    requires Calm(m.apu.dmc)
    ensures Calm(BusTick(m).apu.dmc) && BusTick(m).apu.seqr == SeqTick(m.apu.seqr)
  {
    hide BusTick, DmcTick, SeqTick;
    TickParts(m);
    TickKeepsReader(m.apu.dmc);
  }

  function Together(m: Machine, n: nat): Machine {
    m.(apu := Iterate(ApuTick, m.apu, n), timer := Iterate(TimerTick, m.timer, n), cycles := m.cycles + n)
  }

  lemma ObserveNothing(m: Machine, e: nat)
    requires !m.apu.dmc.fetch.pending && !m.apu.dmc.implicitStop
    ensures Observe(m, e) == m
  {
    hide ScheduleFetch, ScheduleStop;
  }

  lemma ApuTickDmc(a: Apu)
    ensures ApuTick(a).dmc == DmcTick(a.dmc)
  {
    hide DmcTick, TimerTick, ChipsTick, ClockAll, Due, ResetClocks;
  }

  /** An idle stretch needs no observation at all. */
  lemma {:induction false} IdleStretch(m: Machine, n: nat)
    requires Idle(m.apu.dmc)
    ensures Iterate(BusTick, m, n) == Together(m, n) && Idle(Together(m, n).apu.dmc)
  {
    hide ApuTick, TimerTick, DmcTick, Observe, Idle;
    if n > 0 {
      IdleStretch(m, n - 1);
      var t := Together(m, n - 1);
      IdleTick(t.apu.dmc);
      ApuTickDmc(t.apu);
      ObserveNothing(Together(m, n), t.cycles);
    }
  }

  lemma {:induction false} SeqStaysInTable(m: Machine, n: nat)
    requires n > 0
    ensures InTable(Iterate(ApuTick, m.apu, n).seqr)
  {
    TickInTable(m.apu, n);
  }

  /** For every calm state and every n, `tick_machine(n)` is n exact cycles, each
      followed by its observation of the channel. */
  lemma {:induction false} TickMachineExact(m: Machine, n: nat)
    requires Calm(m.apu.dmc) && (InTable(m.apu.seqr) || n <= 1)
    ensures TickMachine(m, n) == Iterate(BusTick, m, n)
    decreases n
  {
    hide BusTick, ApuTick, TimerTick, InTable, Calm, Batch;
    if n > 0 {
      if ActivityPossible(m.apu.dmc) {
        CalmTick(m);
        SeqTickInTable(m.apu.seqr);
        TickMachineExact(BusTick(m), n - 1);
        assert Iterate(BusTick, m, 0) == m && Iterate(BusTick, m, 1) == BusTick(m);
        IterateAdd(BusTick, m, 1, n - 1);
      } else {
        var k := Min(n, 8);
        BatchExact(m.apu, k);
        IdleStretch(m, k);
        SeqStaysInTable(m, k);
        IdleIsCalm(Together(m, k).apu.dmc);
        TickMachineExact(Together(m, k), n - k);
        IterateAdd(BusTick, m, k, n - k);
      }
    }
  }

  lemma IdleIsCalm(d: Dmc)
    requires Idle(d)
    ensures Calm(d)
  {
  }

  /** Every state of an instruction-driven run is calm. */
  lemma BaseIsCalm(m: Machine)
    requires Base(m)
    ensures Calm(m.apu.dmc)
  {
    hide Conserved, ParityOk, ClockOk;
  }
}
