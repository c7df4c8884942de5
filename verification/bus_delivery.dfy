/** What the DMC receives: every byte delivered over every run is the memory byte at
    the sample's next address, and every interrupt is that of a sample's last byte
    (src/apu.rs:845-865, src/bus.rs:937-1049). */
module DmaDelivery {
  import opened Words
  import opened IrqTimer
  import opened DeltaModulation
  import opened FrameSequencer
  import opened FrameCounter
  import opened Apu2A03
  import opened ApuObject
  import opened DmaEngine
  import opened DmaCycles
  import opened DmaOwnership
  import opened CpuPatterns
  import opened CpuRuns

  // -------------------------------------------------------------- histories

  predicate RaisesIrq(e: DmcEvent) {
    e.Delivered? && e.irqRaised
  }

  /** Every byte delivered from one history to the next is the one memory holds. */
  predicate BytesFrom(mem: Memory, before: seq<DmcEvent>, after: seq<DmcEvent>) {
    forall i :: |before| <= i < |after| && after[i].Delivered? ==> after[i].byte == mem[after[i].addr]
  }

  /** An interrupt flag that was clear is set only by a delivered last byte. */
  predicate IrqLogged(d: Dmc, t: Dmc) {
    && d.reader.log <= t.reader.log
    && (t.irqFlag && !d.irqFlag ==> exists i :: |d.reader.log| <= i < |t.reader.log| && RaisesIrq(t.reader.log[i]))
  }

  predicate Supplied(mem: Memory, d: Dmc, t: Dmc) {
    IrqLogged(d, t) && BytesFrom(mem, d.reader.log, t.reader.log)
  }

  /** Over a stretch of machine time in which the memory view does not change. */
  predicate Carries(m: Machine, r: Machine) {
    r.mem == m.mem && Supplied(m.mem, m.apu.dmc, r.apu.dmc)
  }

  lemma IrqTrans(d: Dmc, e: Dmc, t: Dmc)
    requires IrqLogged(d, e) && IrqLogged(e, t)
    ensures IrqLogged(d, t)
  {
    if t.irqFlag && !d.irqFlag && e.irqFlag {
      var i :| |d.reader.log| <= i < |e.reader.log| && RaisesIrq(e.reader.log[i]);
      assert t.reader.log[i] == e.reader.log[i];
    }
  }

  lemma CarriesTrans(m: Machine, r: Machine, t: Machine)
    requires Carries(m, r) && Carries(r, t)
    ensures Carries(m, t)
  {
    IrqTrans(m.apu.dmc, r.apu.dmc, t.apu.dmc);
    var log := t.apu.dmc.reader.log;
    forall i | |m.apu.dmc.reader.log| <= i < |log| && log[i].Delivered?
      ensures log[i].byte == m.mem[log[i].addr]
    {
      if i < |r.apu.dmc.reader.log| {
        assert log[i] == r.apu.dmc.reader.log[i];
      }
    }
  }

  lemma NothingNew(m: Machine, r: Machine)
    requires r.mem == m.mem && r.apu.dmc.reader.log == m.apu.dmc.reader.log
    requires r.apu.dmc.irqFlag ==> m.apu.dmc.irqFlag
    ensures Carries(m, r)
  {
  }

  /** A history that satisfies the account says of every delivered byte which byte of
      which sample it was; the interrupt is raised by the last byte of a sample that
      does not loop and has its interrupt enabled, and by no other. */
  lemma {:induction false} DeliveredIsNext(log: seq<DmcEvent>, i: nat)
    requires LogOk(log) && i < |log| && log[i].Delivered?
    ensures var p := ProgressOf(log[..i]);
            && p.Reading? && p.supplied < p.length && log[i].addr == AddrAt(p.seed, p.supplied)
            && (log[i].irqRaised <==> p.supplied + 1 == p.length && !log[i].looping && log[i].irqEnabled)
    decreases |log|
  {
    if i < |log| - 1 {
      DeliveredIsNext(log[..|log| - 1], i);
      assert log[..|log| - 1][..i] == log[..i];
    }
  }

  // ---------------------------------------------------------------- one cycle

  lemma TickReader(m: Machine)
    ensures var r := BusTick(m);
            r.mem == m.mem && r.apu.dmc.reader == m.apu.dmc.reader && r.apu.dmc.irqFlag == m.apu.dmc.irqFlag
  {
    hide BusTick, DmcTick;
    TickParts(m);
    TickKeepsReader(m.apu.dmc);
  }

  lemma {:induction false} TicksReader(m: Machine, n: nat)
    ensures var r := Iterate(BusTick, m, n);
            r.mem == m.mem && r.apu.dmc.reader == m.apu.dmc.reader && r.apu.dmc.irqFlag == m.apu.dmc.irqFlag
  {
    hide BusTick;
    if n > 0 {
      TicksReader(m, n - 1);
      TickReader(Iterate(BusTick, m, n - 1));
    }
  }

  // -------------------------------------------------------------- deliveries

  lemma SupplyCarries(mem: Memory, d: Dmc, byte: u8)
    requires byte == mem[d.reader.addr]
    ensures Supplied(mem, d, DmcSupply(d, byte))
  {
    var t := DmcSupply(d, byte);
    var n := |d.reader.log|;
    assert t.reader.log[n].Delivered?;
    if t.irqFlag && !d.irqFlag {
      assert RaisesIrq(t.reader.log[n]);
    }
  }

  lemma DeliverCarries(m: Machine, s: Scheduled)
    requires SampleSpace(s.addr) && (s.kind != Unexpected ==> s.addr == m.apu.dmc.reader.addr)
    ensures Carries(m, Deliver(m, s))
  {
    hide AfterRead, DmcSupply, Supplied;
    ReadKeeps(m, s.addr);
    if s.kind == Unexpected {
      NothingNew(m, Deliver(m, s));
    } else {
      SupplyCarries(m.mem, m.apu.dmc, m.mem[s.addr]);
    }
  }

  /** What a scheduled DMA reads: the sample's next byte, or the last fetched address. */
  lemma ScheduledAddress(m: Machine)
    requires Base(m) && m.dma.Some? && m.dma.value.kind != Aborted
    ensures SampleSpace(m.dma.value.addr)
    ensures m.dma.value.kind != Unexpected ==> m.dma.value.addr == m.apu.dmc.reader.addr
  {
    hide PhaseOk, ParityOk, Conserved;
    FetchSpace(m.apu.dmc.reader);
  }

  lemma ServiceCarries(m: Machine, readCycle: bool)
    requires Base(m)
    ensures Carries(m, Service(m, readCycle))
  {
    hide BusTick, Deliver, Base, Supplied;
    if !DueNow(m, readCycle) {
      NothingNew(m, m);
    } else {
      var s := m.dma.value;
      var idle := m.(dma := None);
      if s.kind == Aborted {
        TicksReader(idle.(stall := SatAdd(m.stall, 1)), 1);
        NothingNew(m, Service(m, readCycle));
      } else {
        var n := if m.cycles % 2 == 0 then 3 else 4;
        var held := Stall(idle, n);
        TicksReader(idle.(stall := SatAdd(m.stall, n)), n);
        NothingNew(m, held);
        ScheduledAddress(m);
        DeliverCarries(held, s);
        CarriesTrans(m, held, Deliver(held, s));
      }
    }
  }

  /** A fetch served inside an OAM window delivers just as one outside it. */
  lemma OamServeCarries(m: Machine, left: nat)
    requires Base(m) && m.dma.Some? && m.dma.value.kind != Aborted
    ensures Carries(m, OamServe(m, left))
  {
    hide BusTick, Deliver, Base, Supplied;
    var s := m.dma.value;
    var held := Iterate(BusTick, m.(dma := None), 3);
    TicksReader(m.(dma := None), 3);
    NothingNew(m, held);
    ScheduledAddress(m);
    DeliverCarries(held, s);
    var d := Deliver(held, s);
    CarriesTrans(m, held, d);
    TickReader(d);
    TickReader(BusTick(d));
    NothingNew(d, OamServe(m, left));
    CarriesTrans(m, d, OamServe(m, left));
  }

  lemma {:induction false} OamLoopCarries(m: Machine, remaining: nat)
    requires Full(m)
    ensures Carries(m, OamLoop(m, remaining))
    decreases remaining
  {
    hide BusTick, OamServe, Full, Base, Carries;
    if remaining == 0 {
      NothingNew(m, m);
    } else if OamServes(m) {
      var left := Max(remaining - 3, 0);
      FullIsBase(m);
      OamServeCarries(m, left);
      OamServeKeeps(m, left);
      OamLoopCarries(OamServe(m, left), left);
      CarriesTrans(m, OamServe(m, left), OamLoop(m, remaining));
    } else {
      TickReader(m);
      NothingNew(m, BusTick(m));
      FullIsBase(m);
      TickKeeps(m);
      OamLoopCarries(BusTick(m), remaining - 1);
      CarriesTrans(m, BusTick(m), OamLoop(m, remaining));
    }
  }

  lemma OamStartKeeps(m: Machine)
    requires Base(m)
    ensures Full(OamStart(m))
  {
    hide BusTick, Base, Full;
    TickKeeps(m);
    assert Iterate(BusTick, m, 0) == m && Iterate(BusTick, m, 1) == BusTick(m);
    if m.cycles % 2 == 0 {
      FullIsBase(BusTick(m));
      TickKeeps(BusTick(m));
      assert Iterate(BusTick, m, 2) == BusTick(BusTick(m));
    }
  }

  lemma OamWindowCarries(m: Machine)
    requires Base(m)
    ensures Carries(m, OamWindow(m))
  {
    hide BusTick, OamLoop, Base, Full, Supplied;
    OamStartKeeps(m);
    TicksReader(m, if m.cycles % 2 == 0 then 2 else 1);
    NothingNew(m, OamStart(m));
    OamLoopCarries(OamStart(m), 512);
    CarriesTrans(m, OamStart(m), OamLoop(OamStart(m), 512));
    NothingNew(OamLoop(OamStart(m), 512), OamWindow(m));
    CarriesTrans(m, OamLoop(OamStart(m), 512), OamWindow(m));
  }

  // ------------------------------------------------------------------ writes

  lemma EnableCarries(m: Machine, on: bool)
    ensures Carries(m, ApplyDmcEnable(m, on))
  {
  }

  lemma ApplyWriteCarries(m: Machine, addr: u16, value: u8)
    ensures Carries(m, ApplyWrite(m, addr, value))
  {
    if 0x4000 <= addr <= 0x4013 {
      hide WriteUnits, DmcWriteControl, Carries;
      ControlKeeps(m.apu.dmc, value, m.apu.seqr.pal);
      ControlFlag(m.apu.dmc, value, m.apu.seqr.pal);
      NothingNew(m, ApplyWrite(m, addr, value));
    } else if addr == 0x4015 {
      hide ApplyDmcEnable, Supplied;
      var acked := m.(apu := WriteStatus(m.apu, value));
      NothingNew(m, acked);
      EnableCarries(acked, Bit(value, 0x10));
      CarriesTrans(m, acked, ApplyWrite(m, addr, value));
    } else {
      hide WriteFrameCounter, TimerWrite, Carries;
      NothingNew(m, ApplyWrite(m, addr, value));
    }
  }

  lemma ControlFlag(d: Dmc, value: u8, pal: bool)
    ensures DmcWriteControl(d, value, pal).irqFlag ==> d.irqFlag
  {
    hide RateFor, Bit;
  }

  lemma {:induction false} DeferredCarries(m: Machine, deferred: seq<(nat, u16, u8)>, o: nat)
    ensures Carries(m, ApplyDeferred(m, deferred, o))
    decreases |deferred|
  {
    hide ApplyWrite, Carries;
    if deferred == [] {
      NothingNew(m, m);
    } else {
      var before := ApplyDeferred(m, deferred[..|deferred| - 1], o);
      DeferredCarries(m, deferred[..|deferred| - 1], o);
      var (off, addr, value) := deferred[|deferred| - 1];
      ApplyWriteCarries(before, addr, value);
      CarriesTrans(m, before, ApplyWrite(before, addr, value));
    }
  }

  // ------------------------------------------------------------------- walks

  lemma ServiceOamCarries(m: Machine, readCycle: bool)
    requires Base(m)
    ensures Carries(m, ServiceOam(m, readCycle))
  {
    hide Service, OamWindow, Base, Full, Supplied;
    if !OamHalts(m, readCycle) {
      NothingNew(m, m);
    } else {
      var halted := m.(oamHaltFrom := None);
      BaseForgetsOam(m);
      NothingNew(m, halted);
      OamWindowCarries(halted);
      OamWindowKeeps(halted);
      FullIsBase(OamWindow(halted));
      ServiceCarries(OamWindow(halted), readCycle);
      CarriesTrans(m, halted, OamWindow(halted));
      CarriesTrans(m, OamWindow(halted), ServiceOam(m, readCycle));
    }
  }

  lemma BaseForgetsOam(m: Machine)
    requires Base(m)
    ensures Base(m.(oamHaltFrom := None))
  {
    hide DmaOk, Conserved, ParityOk, PhaseOk;
  }

  lemma WalkCycleCarries(m: Machine, p: Pattern, o: nat)
    requires Full(m) && WritesOnWriteCycles(p)
    ensures Carries(m, WalkCycle(m, p, o))
  {
    hide BusTick, Service, ServiceOam, ApplyDeferred, Base, Supplied;
    var readCycle := !IsWriteCycle(p, o);
    DeferredKeeps(m, p.deferred, o);
    DeferredCarries(m, p.deferred, o);
    var written := ApplyDeferred(m, p.deferred, o);
    var ready := TriggerOam(written, p, o);
    TriggerKeeps(written, p, o);
    NothingNew(written, ready);
    CarriesTrans(m, written, ready);
    ServiceKeeps(ready, readCycle);
    ServiceCarries(ready, readCycle);
    var served := Service(ready, readCycle);
    CarriesTrans(m, ready, served);
    ServiceOamCarries(served, readCycle);
    var halted := ServiceOam(served, readCycle);
    CarriesTrans(m, served, halted);
    TickReader(halted);
    NothingNew(halted, BusTick(halted));
    CarriesTrans(m, halted, BusTick(halted));
  }

  /** Over the walk of any instruction, OAM windows included. */
  lemma {:induction false} WalkCarries(m: Machine, p: Pattern, o: nat)
    requires Full(m) && WritesOnWriteCycles(p)
    ensures Carries(m, Walk(m, p, o))
  {
    hide WalkCycle, Full, WritesOnWriteCycles, Carries;
    if o == 0 {
      NothingNew(m, m);
    } else {
      WalkCarries(m, p, o - 1);
      WalkKeeps(m, p, o - 1);
      WalkCycleCarries(Walk(m, p, o - 1), p, o - 1);
      CarriesTrans(m, Walk(m, p, o - 1), Walk(m, p, o));
    }
  }

  // -------------------------------------------------------------------- runs

  /** Memory as a step of the CPU leaves it, before its cycles are walked. */
  function StepMemory(m: Machine, s: Step): Memory {
    RecordAll(m, Accesses(s)).m.mem
  }

  lemma StepCarries(m: Machine, s: Step)
    requires Full(m) && CpuStep(s)
    ensures Supplied(StepMemory(m, s), m.apu.dmc, AfterStep(m, s).apu.dmc)
  {
    hide Full, CpuStep, Walk, WritesOnWriteCycles, PatternOf, Supplied;
    RecordKeeps(m, Accesses(s));
    RecordKeepsFull(m, Accesses(s));
    StepWritesLand(m, s);
    WalkCarries(RecordAll(m, Accesses(s)).m, StepPattern(m, s), OwnCycles(s));
  }

  /** Every byte delivered in the k-th step of a run, by a fetch in or out of an OAM
      window, is the byte that memory holds during that step at the sample's next
      address; with `DeliveredIsNext` that is the address of byte `supplied` of the
      running sample. */
  lemma RunDelivers(m: Machine, steps: seq<Step>, k: nat)
    requires Full(m) && (forall i :: 0 <= i < |steps| ==> CpuStep(steps[i])) && k < |steps|
    ensures var before, after := Run(m, steps[..k]), Run(m, steps[..k + 1]);
            && before.apu.dmc.reader.log <= after.apu.dmc.reader.log
            && BytesFrom(StepMemory(before, steps[k]), before.apu.dmc.reader.log, after.apu.dmc.reader.log)
            && LogOk(after.apu.dmc.reader.log)
  {
    hide CpuStep, AfterStep, BytesFrom, LogOk, StepMemory;
    var before := Run(m, steps[..k]);
    RunKeepsFull(m, steps[..k]);
    RunKeepsFull(m, steps[..k + 1]);
    assert steps[..k + 1][..k] == steps[..k];
    StepCarries(before, steps[k]);
    AccountIsLog(Run(m, steps[..k + 1]));
    hide Full;
  }

  lemma AccountIsLog(m: Machine)
    requires Full(m)
    ensures LogOk(m.apu.dmc.reader.log)
  {
  }

  /** Over every run, the interrupt flag is newly set only if a byte was delivered that
      raised it, and such a byte was the last of a sample that does not loop and has
      its interrupt enabled. */
  lemma {:induction false} RunInterrupts(m: Machine, steps: seq<Step>)
    requires Full(m) && forall i :: 0 <= i < |steps| ==> CpuStep(steps[i])
    ensures IrqLogged(m.apu.dmc, Run(m, steps).apu.dmc) && LogOk(Run(m, steps).apu.dmc.reader.log)
    decreases |steps|
  {
    hide CpuStep, AfterStep, LogOk, IrqLogged, BytesFrom, Full;
    RunKeepsFull(m, steps);
    AccountIsLog(Run(m, steps));
    if steps == [] {
      IrqNothingNew(m.apu.dmc);
    } else {
      var front := steps[..|steps| - 1];
      RunInterrupts(m, front);
      RunKeepsFull(m, front);
      StepCarries(Run(m, front), steps[|steps| - 1]);
      IrqTrans(m.apu.dmc, Run(m, front).apu.dmc, Run(m, steps).apu.dmc);
    }
  }

  lemma IrqNothingNew(d: Dmc)
    ensures IrqLogged(d, d)
  {
  }
}
