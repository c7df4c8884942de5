/** Who owns a DMC fetch (src/bus.rs:845-1127, src/apu.rs:720-865, 1117-1172): the
    invariant of every instruction-driven run. */
module DmaOwnership {
  import opened Words
  import opened IrqTimer
  import opened Channels
  import opened DeltaModulation
  import opened FrameSequencer
  import opened FrameCounter
  import opened ExpansionChips
  import opened Apu2A03
  import opened ApuObject
  import opened DmaEngine

  /** Between ticks nothing is merely pending; a scheduled DMA means an empty buffer; a
      load or reload is a fetch in flight for the next byte of a running sample; an
      unexpected DMA is none, and re-reads the last fetched address; and an aborted DMA
      still owns a fetch in flight exactly if a program aborted it. */
  predicate DmaOk(d: Dmc, dma: Option<Scheduled>) {
    && !d.fetch.pending && !d.implicitStop
    && (!d.enabled ==> d.reader.remaining == 0)
    && SampleSpace(d.fetch.lastAddr)
    && (d.fetch.inFlight ==> dma.Some? && dma.value.kind != Unexpected)
    && (dma.Some? ==> !d.filled)
    && (dma.Some? && (dma.value.kind == Load || dma.value.kind == Reload) ==>
          d.fetch.inFlight && d.enabled && d.reader.remaining > 0 && dma.value.addr == d.reader.addr)
    && (dma.Some? && dma.value.kind == Unexpected ==> dma.value.addr == d.fetch.lastAddr)
    && (dma.Some? ==>
          if dma.value.kind == Aborted then d.fetch.inFlight <==> dma.value.byProgram else !dma.value.byProgram)
  }

  /** Every load is scheduled on an even (get) cycle and everything else on an odd one. */
  predicate ParityOk(dma: Option<Scheduled>, loadHaltFrom: Option<nat>) {
    && (loadHaltFrom.Some? ==> loadHaltFrom.value % 2 == 0)
    && (dma.Some? ==> (dma.value.haltFrom % 2 == 0 <==> dma.value.kind == Load))
  }

  /** The APU's cycle count is the bus clock, and the frame counter is in phase. */
  predicate ClockOk(m: Machine) {
    m.apu.totalCycles == m.cycles && PhaseOk(m.apu.seqr, m.cycles)
  }

  /** What holds at every moment, also between a register write and the next tick. */
  predicate Base(m: Machine) {
    && DmaOk(m.apu.dmc, m.dma) && Conserved(m.apu.dmc.reader)
    && ParityOk(m.dma, m.loadHaltFrom) && ClockOk(m)
  }

  /** The fetch need has been acted on: bytes remain and the buffer is empty only while
      a fetch is in flight. */
  predicate Armed(d: Dmc) {
    d.reader.remaining > 0 && !d.filled ==> d.fetch.inFlight
  }

  /** What holds after every tick, hence at every instruction boundary. */
  predicate Full(m: Machine) {
    Base(m) && Armed(m.apu.dmc) && InTable(m.apu.seqr)
  }

  /** Ownership, exactly: a fetch is in flight if and only if the bus holds a load, a
      reload or an abort that a program caused; and while any DMA is scheduled the
      buffer is empty. */
  lemma InFlightExactly(m: Machine)
    requires Base(m)
    ensures m.apu.dmc.fetch.inFlight <==>
            && m.dma.Some?
            && (m.dma.value.kind == Load || m.dma.value.kind == Reload
                || (m.dma.value.kind == Aborted && m.dma.value.byProgram))
    ensures m.dma.Some? ==> !m.apu.dmc.filled
  {
  }

  /** A tick, part by part. */
  lemma TickParts(m: Machine)
    ensures var r := BusTick(m);
            var d := DmcTick(m.apu.dmc);
            && r.apu.dmc == DmcTakeStop(DmcTakeFetch(d))
            && r.apu.seqr == SeqTick(m.apu.seqr) && r.apu.totalCycles == m.apu.totalCycles + 1
            && r.cycles == m.cycles + 1 && r.mem == m.mem && r.stall == m.stall && r.oamHaltFrom == m.oamHaltFrom
            && r.loadHaltFrom == (if d.fetch.pending && d.fetch.pendingIsLoad then None else m.loadHaltFrom)
            && r.dma == (if d.fetch.pending then Some(ScheduleFetch(d.fetch, m.loadHaltFrom, m.cycles))
                         else if d.implicitStop && !m.apu.seqr.pal && m.dma.None?
                         then Some(ScheduleStop(d.fetch.lastAddr, m.cycles))
                         else m.dma)
  {
    hide DmcTick, TimerTick, ScheduleFetch, ScheduleStop, ChipsTick, PulseTick, TriangleTick, NoiseTick;
    hide ClockAll, Due, ResetClocks;
  }

  lemma FetchSpace(r: Reader)
    requires Conserved(r)
    ensures SampleSpace(r.addr)
  {
  }

  /** The handshake over one cycle: a fetch arms exactly when it is needed, is taken at
      once, and a sample that ends by itself leaves an aborted or unexpected DMA. */
  lemma DmcHandshake(d: Dmc, dma: Option<Scheduled>, loadHaltFrom: Option<nat>, e: nat, pal: bool)
    requires DmaOk(d, dma) && Conserved(d.reader) && ParityOk(dma, loadHaltFrom)
    ensures var t := DmcTick(d);
            var after := DmcTakeStop(DmcTakeFetch(t));
            var next := if t.fetch.pending then Some(ScheduleFetch(t.fetch, loadHaltFrom, e))
                        else if t.implicitStop && !pal && dma.None? then Some(ScheduleStop(t.fetch.lastAddr, e))
                        else dma;
            var load := if t.fetch.pending && t.fetch.pendingIsLoad then None else loadHaltFrom;
            DmaOk(after, next) && Conserved(after.reader) && Armed(after) && ParityOk(next, load)
  {
    hide DmcTick, Conserved;
    TickKeepsReader(d);
    FetchSpace(d.reader);
  }

  /** One tick, from any moment: the invariant is kept and the fetch need acted on. */
  lemma TickKeeps(m: Machine)
    requires Base(m)
    ensures Full(BusTick(m))
  {
    hide BusTick, DmcTick, SeqTick, DmaOk, Conserved, Armed, ParityOk, PhaseOk, ScheduleFetch, ScheduleStop;
    TickParts(m);
    DmcHandshake(m.apu.dmc, m.dma, m.loadHaltFrom, m.cycles, m.apu.seqr.pal);
    PhaseTick(m.apu.seqr, m.cycles);
    SeqTickInTable(m.apu.seqr);
  }

  lemma SeqTickInTable(q: Sequencer)
    ensures InTable(SeqTick(q))
  {
    hide Count, Due;
  }

  // ---------------------------------------------------------------- stalls

  /** The channel while its DMA holds the CPU: nothing it needs can change. */
  predicate Held(d: Dmc) {
    !d.fetch.pending && !d.implicitStop && !d.filled && (d.fetch.inFlight || d.reader.remaining == 0)
  }

  predicate SameFetch(d: Dmc, t: Dmc) {
    && t.reader == d.reader && t.fetch == d.fetch && t.enabled == d.enabled && t.filled == d.filled
    && t.loopFlag == d.loopFlag && t.irqEnable == d.irqEnable && t.irqFlag == d.irqFlag
  }

  lemma HeldTick(d: Dmc)
    requires Held(d)
    ensures var t := DmcTick(d);
            !t.fetch.pending && !t.implicitStop && DmcTakeStop(DmcTakeFetch(t)) == t && Held(t) && SameFetch(d, t)
  {
    hide DmcTick;
    TickKeepsReader(d);
  }

  lemma {:induction false} HeldTicks(m: Machine, n: nat)
    requires Held(m.apu.dmc) && m.dma.None? && ClockOk(m)
    ensures var r := Iterate(BusTick, m, n);
            && Held(r.apu.dmc) && SameFetch(m.apu.dmc, r.apu.dmc) && r.dma.None? && ClockOk(r)
            && r.loadHaltFrom == m.loadHaltFrom && r.mem == m.mem && r.cycles == m.cycles + n
            && (InTable(m.apu.seqr) ==> InTable(r.apu.seqr))
  {
    hide BusTick, DmcTick, SeqTick, PhaseOk, InTable, Held;
    if n > 0 {
      HeldTicks(m, n - 1);
      var r := Iterate(BusTick, m, n - 1);
      HeldTick(r.apu.dmc);
      TickParts(r);
      NotPending(r.apu.dmc);
      PhaseTick(r.apu.seqr, r.cycles);
      SeqTickInTable(r.apu.seqr);
    }
  }

  lemma NotPending(d: Dmc)
    requires Held(d)
    ensures !d.fetch.pending && !d.implicitStop
  {
  }

  // --------------------------------------------------------------- service

  lemma ReadKeeps(m: Machine, addr: u16)
    ensures var r := AfterRead(m, addr);
            && r.apu.dmc == m.apu.dmc && r.dma == m.dma && r.loadHaltFrom == m.loadHaltFrom
            && r.cycles == m.cycles && r.mem == m.mem && (ClockOk(m) ==> ClockOk(r))
            && (InTable(m.apu.seqr) ==> InTable(r.apu.seqr))
  {
    hide ChipsObserveRead;
  }

  /** A completed load or reload fills the buffer with the byte at the next address of
      the running sample; an unexpected DMA refills it without touching the sample. */
  lemma DeliverKeeps(m: Machine, s: Scheduled)
    requires Held(m.apu.dmc) && m.dma.None? && ClockOk(m) && Conserved(m.apu.dmc.reader)
    requires ParityOk(None, m.loadHaltFrom)
    requires s.kind == Load || s.kind == Reload || s.kind == Unexpected
    requires s.kind != Unexpected ==> m.apu.dmc.enabled && m.apu.dmc.reader.remaining > 0
    requires s.kind == Unexpected ==> !m.apu.dmc.fetch.inFlight
    requires SampleSpace(m.apu.dmc.fetch.lastAddr)
    requires !m.apu.dmc.enabled ==> m.apu.dmc.reader.remaining == 0
    ensures Base(Deliver(m, s)) && Armed(Deliver(m, s).apu.dmc)
    ensures InTable(m.apu.seqr) ==> InTable(Deliver(m, s).apu.seqr)
    ensures var d := Deliver(m, s).apu.dmc;
            && d.filled && d.buffer == ReadByte(m, s.addr) && !d.fetch.inFlight
            && (s.kind == Unexpected ==> d.reader == m.apu.dmc.reader)
  {
    hide AfterRead, ReadByte, Conserved, PhaseOk, InTable, Restart;
    ReadKeeps(m, s.addr);
    if s.kind != Unexpected {
      SupplyConserves(m.apu.dmc, ReadByte(m, s.addr));
    }
  }

  /** Servicing keeps the invariant. On a write cycle only an aborted DMA acts, so no
      cycle is stolen there; the tick that follows restores the rest. */
  lemma ServiceKeeps(m: Machine, readCycle: bool)
    requires Base(m) && (readCycle ==> Full(m))
    ensures Base(Service(m, readCycle))
  {
    hide BusTick, Deliver, Conserved, PhaseOk, InTable;
    if DueNow(m, readCycle) {
      var s := m.dma.value;
      var idle := m.(dma := None);
      if s.kind != Aborted {
        var n := if m.cycles % 2 == 0 then 3 else 4;
        HeldTicks(idle.(stall := SatAdd(m.stall, n)), n);
        DeliverKeeps(Stall(idle, n), s);
      } else if m.cycles == s.haltFrom && readCycle {
        HeldTicks(idle.(stall := SatAdd(m.stall, 1)), 1);
      }
    }
  }

  /** The byte a serviced load or reload delivers is the memory byte at the address of
      the sample's next position; an aborted DMA leaves the buffer empty. */
  lemma ServiceDelivers(m: Machine, readCycle: bool)
    requires Full(m) && DueNow(m, readCycle)
    ensures var d := m.apu.dmc;
            var r := Service(m, readCycle).apu.dmc;
            && (m.dma.value.kind == Aborted ==> !r.filled && r.reader == d.reader)
            && (m.dma.value.kind == Unexpected ==>
                  r.filled && r.buffer == m.mem[d.fetch.lastAddr] && r.reader == d.reader)
            && (m.dma.value.kind == Load || m.dma.value.kind == Reload ==>
                  && ProgressOf(d.reader.log).Reading?
                  && var p := ProgressOf(d.reader.log);
                     r.filled && r.buffer == m.mem[AddrAt(p.seed, p.supplied)])
  {
    hide BusTick, Deliver, PhaseOk, InTable, AddrAt, LogOk, ProgressOf;
    var s := m.dma.value;
    var idle := m.(dma := None);
    if s.kind == Aborted {
      if m.cycles == s.haltFrom && readCycle {
        HeldTicks(idle.(stall := SatAdd(m.stall, 1)), 1);
      }
    } else {
      var n := if m.cycles % 2 == 0 then 3 else 4;
      HeldTicks(idle.(stall := SatAdd(m.stall, n)), n);
      DeliverKeeps(Stall(idle, n), s);
      FetchSpace(m.apu.dmc.reader);
      assert SampleSpace(s.addr);
    }
  }

  lemma OamServeKeeps(m: Machine, left: nat)
    requires Full(m) && OamServes(m)
    ensures Full(OamServe(m, left))
  {
    hide BusTick, Deliver, Conserved, PhaseOk, InTable, DmaOk;
    var idle := m.(dma := None);
    HeldWhenDue(m);
    HeldTicks(idle, 3);
    DeliverKeeps(Iterate(BusTick, idle, 3), m.dma.value);
    var d := Deliver(Iterate(BusTick, idle, 3), m.dma.value);
    TickKeeps(d);
    if left > 0 {
      TickKeeps(BusTick(d));
    }
  }

  lemma HeldWhenDue(m: Machine)
    requires Full(m) && m.dma.Some? && m.dma.value.kind != Aborted
    ensures var d := m.apu.dmc;
            && Held(d) && ClockOk(m) && Conserved(d.reader) && ParityOk(None, m.loadHaltFrom)
            && (m.dma.value.kind != Unexpected ==> d.enabled && d.reader.remaining > 0)
            && (m.dma.value.kind == Unexpected ==> !d.fetch.inFlight)
            && (!d.enabled ==> d.reader.remaining == 0) && SampleSpace(d.fetch.lastAddr)
  {
    hide Conserved, PhaseOk, InTable;
  }

  lemma {:induction false} OamLoopKeeps(m: Machine, remaining: nat)
    requires Full(m)
    ensures Full(OamLoop(m, remaining))
    decreases remaining
  {
    hide BusTick, OamServe, Full;
    if remaining > 0 {
      if OamServes(m) {
        OamServeKeeps(m, Max(remaining - 3, 0));
        OamLoopKeeps(OamServe(m, Max(remaining - 3, 0)), Max(remaining - 3, 0));
      } else {
        FullIsBase(m);
        TickKeeps(m);
        OamLoopKeeps(BusTick(m), remaining - 1);
      }
    }
  }

  lemma FullIsBase(m: Machine)
    requires Full(m)
    ensures Base(m)
  {
  }

  lemma StallKeepsFull(m: Machine, stall: u32)
    requires Full(m)
    ensures Full(m.(stall := stall))
  {
    hide DmaOk, Conserved, ParityOk, PhaseOk, InTable;
  }

  /** A whole OAM window, whatever fetches arrive in it. */
  lemma OamWindowKeeps(m: Machine)
    requires Base(m)
    ensures Full(OamWindow(m))
  {
    hide BusTick, OamLoop, Base, Full;
    TickKeeps(m);
    assert Iterate(BusTick, m, 0) == m && Iterate(BusTick, m, 1) == BusTick(m);
    if m.cycles % 2 == 0 {
      FullIsBase(BusTick(m));
      TickKeeps(BusTick(m));
      assert Iterate(BusTick, m, 2) == BusTick(BusTick(m));
    }
    OamLoopKeeps(OamStart(m), 512);
    var r := OamLoop(OamStart(m), 512);
    StallKeepsFull(r, SatAdd(r.stall, Max(r.cycles - m.cycles, 0)));
  }

  // ----------------------------------------------------------------- writes

  lemma ControlKeeps(d: Dmc, value: u8, pal: bool)
    ensures var t := DmcWriteControl(d, value, pal);
            && t.fetch == d.fetch && t.filled == d.filled && t.enabled == d.enabled
            && t.implicitStop == d.implicitStop && t.reader == d.reader
  {
    hide RateFor, Bit;
  }

  lemma DmcRegisterKeeps(d: Dmc, addr: u16, value: u8, pal: bool)
    requires Conserved(d.reader)
    ensures var t := WriteDmcRegister(d, addr, value, pal);
            && t.fetch == d.fetch && t.filled == d.filled && t.enabled == d.enabled
            && t.implicitStop == d.implicitStop && t.reader.remaining == d.reader.remaining
            && t.reader.addr == d.reader.addr && Conserved(t.reader)
  {
    hide DmcWriteControl, Conserved;
    ControlKeeps(d, value, pal);
    SeedsConserve(d.reader, value);
    if addr == 0x4012 || addr == 0x4013 {
      SeedWriteKeeps(d, value);
    }
    hide DmcWriteAddr, DmcWriteLen;
  }

  lemma SeedWriteKeeps(d: Dmc, value: u8)
    ensures DmcWriteAddr(d, value) == d.(reader := d.reader.(addrSeed := 0xC000 + value * 0x40))
    ensures DmcWriteLen(d, value) == d.(reader := d.reader.(lenSeed := value * 16 + 1))
  {
  }

  lemma EnableKeeps(m: Machine, on: bool)
    requires Base(m)
    ensures Base(ApplyDmcEnable(m, on))
  {
    hide Conserved, PhaseOk, Restart, ProgressOf, LogOk;
    EnableConserves(m.apu.dmc, on);
    EnableConserves(DmcCancel(m.apu.dmc), on);
    RestartFields(m.apu.dmc.reader);
  }

  lemma RestartFields(r: Reader)
    ensures Restart(r).remaining == r.lenSeed
  {
  }

  lemma ApplyWriteKeeps(m: Machine, addr: u16, value: u8)
    requires Base(m)
    ensures Base(ApplyWrite(m, addr, value))
  {
    if 0x4000 <= addr <= 0x4013 {
      hide WriteUnits, WriteDmcRegister, PhaseOk, Conserved;
      DmcRegisterKeeps(m.apu.dmc, addr, value, m.apu.seqr.pal);
    } else if addr == 0x4015 {
      hide ApplyDmcEnable, PhaseOk, Conserved;
      EnableKeeps(m.(apu := WriteStatus(m.apu, value)), Bit(value, 0x10));
    } else if addr == 0x4017 {
      hide WriteFrameCounter, PhaseOk, Conserved, DmaOk;
      PhaseWrite(m.apu.seqr, value, m.cycles);
    } else {
      hide PhaseOk, Conserved, DmaOk, TimerWrite;
    }
  }

  lemma {:induction false} DeferredKeeps(m: Machine, deferred: seq<(nat, u16, u8)>, o: nat)
    requires Base(m)
    ensures Base(ApplyDeferred(m, deferred, o))
    ensures (forall i :: 0 <= i < |deferred| ==> deferred[i].0 != o) ==> ApplyDeferred(m, deferred, o) == m
    decreases |deferred|
  {
    hide Base, ApplyWrite;
    if deferred != [] {
      DeferredKeeps(m, deferred[..|deferred| - 1], o);
      var (off, addr, value) := deferred[|deferred| - 1];
      ApplyWriteKeeps(ApplyDeferred(m, deferred[..|deferred| - 1], o), addr, value);
    }
  }

  // ------------------------------------------------------------------ walks

  /** Register writes land on write cycles, as the CPU's patterns make them. */
  predicate WritesOnWriteCycles(p: Pattern) {
    forall i :: 0 <= i < |p.deferred| ==> IsWriteCycle(p, p.deferred[i].0)
  }

  lemma TriggerKeeps(m: Machine, p: Pattern, o: nat)
    ensures Base(m) ==> Base(TriggerOam(m, p, o))
    ensures Full(m) ==> Full(TriggerOam(m, p, o))
  {
    hide DmaOk, Conserved, ParityOk, PhaseOk, InTable;
  }

  lemma ServiceOamKeeps(m: Machine, readCycle: bool)
    requires Base(m)
    ensures Base(ServiceOam(m, readCycle))
  {
    if OamHalts(m, readCycle) {
      hide Service, OamWindow, DmaOk, Conserved, ParityOk, PhaseOk, InTable, Armed;
      var halted := m.(oamHaltFrom := None);
      assert Base(halted);
      OamWindowKeeps(halted);
      ServiceKeeps(OamWindow(halted), readCycle);
    }
  }

  lemma WalkCycleKeeps(m: Machine, p: Pattern, o: nat)
    requires Full(m) && WritesOnWriteCycles(p)
    ensures Full(WalkCycle(m, p, o))
  {
    hide BusTick, Service, ServiceOam, ApplyDeferred, TriggerOam, Base;
    var readCycle := !IsWriteCycle(p, o);
    DeferredKeeps(m, p.deferred, o);
    var written := ApplyDeferred(m, p.deferred, o);
    TriggerKeeps(written, p, o);
    var ready := TriggerOam(written, p, o);
    ServiceKeeps(ready, readCycle);
    ServiceOamKeeps(Service(ready, readCycle), readCycle);
    TickKeeps(ServiceOam(Service(ready, readCycle), readCycle));
  }

  /** Fetch ownership, sample conservation, DMA parity and the frame-counter phase,
      over every walk of every instruction whose writes land on its write cycles. */
  lemma {:induction false} WalkKeeps(m: Machine, p: Pattern, o: nat)
    requires Full(m) && WritesOnWriteCycles(p)
    ensures Full(Walk(m, p, o))
  {
    hide WalkCycle, Full, WritesOnWriteCycles;
    if o > 0 {
      WalkKeeps(m, p, o - 1);
      WalkCycleKeeps(Walk(m, p, o - 1), p, o - 1);
    }
  }
}
