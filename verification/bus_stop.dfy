/** When DMC DMAs are scheduled, and what stopping the sample by $4015 does to one
    (src/bus.rs:889-972, 1087-1127). */
module DmaStop {
  import opened Words
  import opened Channels
  import opened IrqTimer
  import opened DeltaModulation
  import opened FrameSequencer
  import opened FrameCounter
  import opened ExpansionChips
  import opened Apu2A03
  import opened ApuObject
  import opened DmaEngine
  import opened DmaCycles
  import opened DmaOwnership
  import opened CpuPatterns
  import opened CpuRuns

  // --------------------------------------------------------------- schedules

  /** What a tick schedules, `c` being the next cycle: a reload on the first put from
      there on; a load on a get, the third or fourth cycle after the tick unless the
      write that enabled it fixed one; and after a sample that ended by itself the
      unexpected DMA at once or the aborted one a cycle later, by the parity of `c`. */
  lemma ScheduledWhen(m: Machine)
    requires Base(m)
    ensures var r := BusTick(m);
            var c := r.cycles;
            c == m.cycles + 1 && (r.dma != m.dma ==> r.dma.Some? && var h := r.dma.value.haltFrom;
              match r.dma.value.kind
              case Reload => h % 2 == 1 && c <= h <= c + 1
              case Load =>
                && h % 2 == 0
                && (m.loadHaltFrom.None? ==> c + 2 <= h <= c + 3)
                && (m.loadHaltFrom.Some? ==> m.loadHaltFrom.value <= h && c - 1 <= h
                                             && (h == m.loadHaltFrom.value || h <= c))
              case Unexpected => c % 2 == 1 && h == c
              case Aborted => c % 2 == 0 && h == c + 1)
  {
    hide BusTick, DmcTick, DmaOk, Conserved, PhaseOk;
    TickParts(m);
  }

  /** The output cycle of the channel ends on this cycle, and with it its buffer. */
  predicate Drains(d: Dmc) {
    d.out.timer == 0 && d.out.bits <= 1
  }

  /** What a tick schedules, and for which byte. A fetch, if the buffer is empty or is
      emptied on this cycle while bytes remain: of the next byte of the sample, and a
      load exactly if one was asked for. Otherwise, if an enabled channel plays out the
      last byte it has on an NTSC machine with no DMA scheduled, the unexpected DMA of
      the address last fetched or the aborted one. Otherwise nothing new. */
  lemma TickSchedules(m: Machine)
    requires Base(m)
    ensures var d, r := m.apu.dmc, BusTick(m).dma;
            if (!d.filled || Drains(d)) && d.reader.remaining > 0 && !d.fetch.inFlight then
              && r.Some? && r.value.addr == d.reader.addr && r.value.kind == (if d.fetch.nextIsLoad then Load else Reload)
              && !r.value.byProgram && BusTick(m).apu.dmc.fetch.inFlight
            else if d.filled && Drains(d) && d.reader.remaining == 0 && d.enabled && !m.apu.seqr.pal && m.dma.None? then
              && r.Some? && !r.value.byProgram
              && if m.cycles % 2 == 0 then r.value.kind == Unexpected && r.value.addr == d.fetch.lastAddr
                 else r.value.kind == Aborted
            else r == m.dma
  {
    hide BusTick, DmcTick, Conserved, PhaseOk;
    TickParts(m);
    TickArms(m.apu.dmc);
  }

  lemma TickArms(d: Dmc)
    requires !d.fetch.pending && !d.implicitStop
    ensures var t := DmcTick(d);
            && (t.fetch.pending <==> (!d.filled || Drains(d)) && d.reader.remaining > 0 && !d.fetch.inFlight)
            && (t.fetch.pending ==> t.fetch.pendingAddr == d.reader.addr && t.fetch.pendingIsLoad == d.fetch.nextIsLoad)
            && (t.implicitStop <==> d.filled && Drains(d) && d.reader.remaining == 0 && d.enabled)
            && t.fetch.lastAddr == d.fetch.lastAddr
  {
    UnitDrains(d);
    hide OutputUnit;
  }

  lemma UnitDrains(d: Dmc)
    ensures var u := OutputUnit(d);
            && u.filled == (d.filled && !Drains(d)) && u.reader == d.reader && u.fetch == d.fetch
            && u.implicitStop == (d.implicitStop || (d.filled && Drains(d) && d.reader.remaining == 0 && d.enabled))
  {
    hide ShiftDac;
  }

  /** Enabling an idle channel with an empty buffer at cycle `c`: the load of the
      sample's first byte is scheduled on the get among the third and the fourth cycle
      after it. */
  lemma EnableLoads(m: Machine, value: u8)
    requires Base(m) && m.dma.None? && Bit(value, 0x10)
    requires m.apu.dmc.reader.remaining == 0 && m.apu.dmc.reader.lenSeed > 0 && !m.apu.dmc.filled
    ensures var r := BusTick(ApplyWrite(m, 0x4015, value));
            && r.dma.Some? && r.dma.value.kind == Load && r.dma.value.addr == m.apu.dmc.reader.addrSeed
            && r.dma.value.haltFrom % 2 == 0 && m.cycles + 3 <= r.dma.value.haltFrom <= m.cycles + 4
            && r.apu.dmc.fetch.inFlight && r.apu.dmc.reader.remaining == m.apu.dmc.reader.lenSeed
  {
    hide BusTick, DmcTick, Conserved, PhaseOk, PulseEnable, TriangleEnable, NoiseEnable;
    var w := ApplyWrite(m, 0x4015, value);
    TickParts(w);
    TickKeepsReader(w.apu.dmc);
  }

  // ------------------------------------------------------ reloads are imminent

  /** A scheduled reload halts on the next cycle at the latest, or is overdue. */
  predicate Near(m: Machine) {
    m.dma.Some? && m.dma.value.kind == Reload ==> m.dma.value.haltFrom <= m.cycles + 1
  }

  lemma TickNear(m: Machine)
    requires Near(m)
    ensures Near(BusTick(m))
  {
    hide BusTick, DmcTick;
    TickParts(m);
  }

  lemma {:induction false} TicksNear(m: Machine, n: nat)
    requires Near(m)
    ensures Near(Iterate(BusTick, m, n))
  {
    hide BusTick, Near;
    if n > 0 {
      TicksNear(m, n - 1);
      TickNear(Iterate(BusTick, m, n - 1));
    }
  }

  lemma ServiceNear(m: Machine, readCycle: bool)
    requires Near(m)
    ensures Near(Service(m, readCycle))
  {
    hide BusTick, Deliver, DmcCancel;
    if DueNow(m, readCycle) {
      var s, idle := m.dma.value, m.(dma := None);
      var n := if s.kind == Aborted then 1 else if m.cycles % 2 == 0 then 3 else 4;
      var started := idle.(stall := SatAdd(m.stall, n));
      TicksNear(started, n);
      DeliverLine(Iterate(BusTick, started, n), s);
    }
  }

  lemma OamServeNear(m: Machine, left: nat)
    requires m.dma.Some?
    ensures Near(OamServe(m, left))
  {
    hide BusTick, Deliver;
    var idle := m.(dma := None);
    TicksNear(idle, 3);
    var t := Iterate(BusTick, idle, 3);
    DeliverLine(t, m.dma.value);
    TickNear(Deliver(t, m.dma.value));
    TickNear(BusTick(Deliver(t, m.dma.value)));
  }

  lemma {:induction false} OamLoopNear(m: Machine, remaining: nat)
    requires Near(m)
    ensures Near(OamLoop(m, remaining))
    decreases remaining
  {
    hide BusTick, OamServe, Near;
    if remaining > 0 {
      if OamServes(m) {
        OamServeNear(m, Max(remaining - 3, 0));
        OamLoopNear(OamServe(m, Max(remaining - 3, 0)), Max(remaining - 3, 0));
      } else {
        TickNear(m);
        OamLoopNear(BusTick(m), remaining - 1);
      }
    }
  }

  lemma WriteNear(m: Machine, addr: u16, value: u8)
    requires Near(m)
    ensures Near(ApplyWrite(m, addr, value))
  {
    hide ApuWriteRegister, WriteStatus, DmcEnable, DmcCancel, TimerWrite;
  }

  lemma {:induction false} DeferredNear(m: Machine, deferred: seq<(nat, u16, u8)>, o: nat)
    requires Near(m)
    ensures Near(ApplyDeferred(m, deferred, o))
    decreases |deferred|
  {
    hide Near, ApplyWrite;
    if deferred != [] {
      DeferredNear(m, deferred[..|deferred| - 1], o);
      var (off, addr, value) := deferred[|deferred| - 1];
      WriteNear(ApplyDeferred(m, deferred[..|deferred| - 1], o), addr, value);
    }
  }

  lemma WalkCycleNear(m: Machine, p: Pattern, o: nat)
    requires Near(m)
    ensures Near(WalkCycle(m, p, o))
  {
    hide BusTick, Service, ApplyDeferred, OamLoop;
    var readCycle := !IsWriteCycle(p, o);
    DeferredNear(m, p.deferred, o);
    var ready := TriggerOam(ApplyDeferred(m, p.deferred, o), p, o);
    ServiceNear(ready, readCycle);
    var served := Service(ready, readCycle);
    if OamHalts(served, readCycle) {
      var halted := served.(oamHaltFrom := None);
      TicksNear(halted, if halted.cycles % 2 == 0 then 2 else 1);
      OamLoopNear(OamStart(halted), 512);
      ServiceNear(OamWindow(halted), readCycle);
    }
    TickNear(ServiceOam(served, readCycle));
  }

  lemma {:induction false} WalkNear(m: Machine, p: Pattern, o: nat)
    requires Near(m)
    ensures Near(Walk(m, p, o))
  {
    hide WalkCycle, Near;
    if o > 0 {
      WalkNear(m, p, o - 1);
      WalkCycleNear(Walk(m, p, o - 1), p, o - 1);
    }
  }

  /** At every cycle of every step of every run. */
  lemma {:induction false} RunNear(m: Machine, steps: seq<Step>)
    requires Near(m)
    ensures Near(Run(m, steps))
    ensures forall s: Step, o: nat :: Near(Walk(RecordAll(Run(m, steps), Accesses(s)).m, StepPattern(Run(m, steps), s), o))
  {
    hide Walk, RecordAll, PatternOf;
    if steps != [] {
      RunNear(m, steps[..|steps| - 1]);
    }
    var r := Run(m, steps);
    forall s: Step, o: nat
      ensures Near(Walk(RecordAll(r, Accesses(s)).m, StepPattern(r, s), o))
    {
      RecordKeeps(r, Accesses(s));
      WalkNear(RecordAll(r, Accesses(s)).m, StepPattern(r, s), o);
    }
  }

  // ------------------------------------------------------------ the stop rules

  /** A $4015 write with D4 clear at cycle `c`. A scheduled load is cancelled; a reload
      that would halt at `c + 3` or before is left as an aborted DMA at its own cycle,
      and one that would halt later is cancelled; nothing cancelled stays in flight. A
      DMA that reads nothing for a sample is left alone. */
  lemma StopOutcome(m: Machine, value: u8)
    requires Base(m) && !Bit(value, 0x10)
    ensures var r := ApplyWrite(m, 0x4015, value);
            && !r.apu.dmc.enabled && r.apu.dmc.reader.remaining == 0 && r.loadHaltFrom == None
            && (m.dma.None? ==> r.dma.None? && !r.apu.dmc.fetch.inFlight)
            && (m.dma.Some? ==> var s := m.dma.value;
                 match s.kind
                 case Load => r.dma.None? && !r.apu.dmc.fetch.inFlight
                 case Reload =>
                   if s.haltFrom <= m.cycles + 3
                   then r.dma == Some(Scheduled(s.addr, Aborted, s.haltFrom, true)) && r.apu.dmc.fetch.inFlight
                   else r.dma.None? && !r.apu.dmc.fetch.inFlight
                 case _ => r.dma == m.dma && r.apu.dmc.fetch.inFlight == m.apu.dmc.fetch.inFlight)
  {
    hide Conserved, PhaseOk, PulseEnable, TriangleEnable, NoiseEnable;
  }

  /** In a run every stopped reload is aborted. */
  lemma StopAborts(m: Machine, value: u8)
    requires Base(m) && Near(m) && !Bit(value, 0x10) && m.dma.Some? && m.dma.value.kind == Reload
    ensures ApplyWrite(m, 0x4015, value).dma == Some(m.dma.value.(kind := Aborted, byProgram := true))
  {
    hide ApplyWrite, Base;
    StopOutcome(m, value);
  }

  // ------------------------------------------------------------ what it costs

  /** A stopped channel: nothing buffered and nothing to fetch. */
  predicate Silent(d: Dmc) {
    !d.enabled && d.reader.remaining == 0 && !d.filled && !d.fetch.pending && !d.implicitStop
  }

  lemma SilentTick(m: Machine)
    requires Silent(m.apu.dmc)
    ensures var r := BusTick(m);
            && Silent(r.apu.dmc) && r.apu.dmc.fetch.inFlight == m.apu.dmc.fetch.inFlight && r.dma == m.dma
            && r.cycles == m.cycles + 1 && r.stall == m.stall && r.oamHaltFrom == m.oamHaltFrom
  {
    hide BusTick, DmcTick;
    TickParts(m);
    TickKeepsReader(m.apu.dmc);
  }

  /** The write cycle of the stop itself costs nothing more, and leaves the abort to be
      tried exactly if the reload would have halted on the next cycle. */
  lemma StopCycle(m: Machine, p: Pattern, o: nat, value: u8)
    requires Base(m) && Near(m) && m.dma.Some? && m.dma.value.kind == Reload
    requires IsWriteCycle(p, o) && p.oam != Some(o) && !Bit(value, 0x10)
    requires ApplyDeferred(m, p.deferred, o) == ApplyWrite(m, 0x4015, value)
    ensures var r := WalkCycle(m, p, o);
            && Silent(r.apu.dmc) && r.cycles == m.cycles + 1 && r.stall == m.stall && r.oamHaltFrom == m.oamHaltFrom
            && if m.dma.value.haltFrom == m.cycles + 1
               then r.dma == Some(m.dma.value.(kind := Aborted, byProgram := true))
               else r.dma.None? && !r.apu.dmc.fetch.inFlight
  {
    hide ApplyWrite, ApplyDeferred, BusTick, Conserved, PhaseOk;
    var w := ApplyWrite(m, 0x4015, value);
    StopAborts(m, value);
    StopOutcome(m, value);
    ApplyWriteLine(m, 0x4015, value);
    ApplyWriteKeeps(m, 0x4015, value);
    SilentTick(Service(w, false));
  }

  /** On the cycle after: the abort steals exactly this one cycle if it is a read, and
      does not happen at all if it is a write. Either way nothing is left of it. */
  lemma AbortCycle(m: Machine, p: Pattern, o: nat)
    requires Silent(m.apu.dmc) && m.dma.Some? && m.dma.value.kind == Aborted && m.dma.value.haltFrom == m.cycles
    requires m.oamHaltFrom.None? && p.oam != Some(o) && ApplyDeferred(m, p.deferred, o) == m
    ensures var r := WalkCycle(m, p, o);
            var stolen := if IsWriteCycle(p, o) then 0 else 1;
            && r.cycles == m.cycles + 1 + stolen && r.stall == SatAdd(m.stall, stolen)
            && Silent(r.apu.dmc) && r.dma.None? && !r.apu.dmc.fetch.inFlight && r.oamHaltFrom.None?
  {
    hide ApplyDeferred, BusTick, Silent;
    var idle := m.(dma := None, stall := SatAdd(m.stall, 1));
    assert Iterate(BusTick, idle, 0) == idle && Iterate(BusTick, idle, 1) == BusTick(idle);
    SilentTick(idle);
    SilentCancel(BusTick(idle));
    SilentCancel(m.(dma := None));
    var served := Service(m, !IsWriteCycle(p, o));
    SilentTick(served);
  }

  lemma SilentCancel(m: Machine)
    requires Silent(m.apu.dmc)
    ensures var r := WithDmc(m, DmcCancel(m.apu.dmc));
            Silent(r.apu.dmc) && !r.apu.dmc.fetch.inFlight
  {
  }

  /** With no DMA scheduled a silent channel costs nothing over any stretch. */
  lemma {:induction false} SilentWalk(m: Machine, p: Pattern, a: nat, b: nat)
    requires a <= b && p.deferred == [] && p.oam.None?
    requires var r := Walk(m, p, a); Silent(r.apu.dmc) && r.dma.None? && r.oamHaltFrom.None?
    ensures var r, t := Walk(m, p, a), Walk(m, p, b);
            && Silent(t.apu.dmc) && t.dma.None? && t.oamHaltFrom.None?
            && t.cycles == r.cycles + (b - a) && t.stall == r.stall
  {
    hide BusTick, Silent;
    if a < b {
      SilentWalk(m, p, a, b - 1);
      SilentTick(Walk(m, p, b - 1));
    }
  }

  /** A store to $4015. */
  function StopStore(value: u8): Step {
    Instruction(0x8D, 4, [Access.Write(0x4015, value)])
  }

  lemma StopStorePattern(m: Machine, value: u8)
    ensures CpuStep(StopStore(value)) && RecordAll(m, Accesses(StopStore(value))).m == m
    ensures StepPattern(m, StopStore(value)) == Pattern(4, [false, false, false, true], None, [(3, 0x4015, value)])
  {
    var accesses := Accesses(StopStore(value));
    assert accesses[..0] == [];
    assert RecordAll(m, []) == Recording(m, 0, None, []);
    assert WritesIn([]) == 0;
    assert WriteCycleMask(0x8D, 4) == [false, false, false, true];
    assert FindWrite([false, false, false, true], 0, 4, 0) == 3;
  }

  lemma {:induction false} NoWritesRecorded(m: Machine, accesses: seq<Access>)
    requires WritesIn(accesses) == 0
    ensures var r := RecordAll(m, accesses); r.deferred == [] && r.oamCall.None? && r.m.oamHaltFrom == m.oamHaltFrom
  {
    hide AfterStatusRead, ChipsObserveRead;
    if accesses != [] {
      NoWritesRecorded(m, accesses[..|accesses| - 1]);
    }
  }

  lemma ReadOnlyStep(m: Machine, s: Step)
    requires CpuStep(s) && WritesIn(Accesses(s)) == 0
    ensures var from, p := RecordAll(m, Accesses(s)).m, StepPattern(m, s);
            && p.deferred == [] && p.oam.None? && !IsWriteCycle(p, 0) && OwnCycles(s) >= 1
            && from.dma == m.dma && from.apu.dmc == m.apu.dmc && from.cycles == m.cycles && from.stall == m.stall
            && from.oamHaltFrom == m.oamHaltFrom
  {
    hide CpuStep, MaskOf, RecordAll;
    CyclesBound(s);
    RecordKeeps(m, Accesses(s));
    NoWritesRecorded(m, Accesses(s));
  }

  /** From a silent channel whose abort may be still to try, a step without bus writes
      returns its own cycles and the one the abort steals. */
  lemma StepAfterStop(m: Machine, s: Step)
    requires CpuStep(s) && WritesIn(Accesses(s)) == 0 && m.stall == 0 && m.oamHaltFrom.None? && Silent(m.apu.dmc)
    requires m.dma.Some? ==> m.dma.value.kind == Aborted && m.dma.value.haltFrom == m.cycles
    ensures StepReturns(m, s) == OwnCycles(s) + if m.dma.Some? then 1 else 0
    ensures var r := AfterStep(m, s); Silent(r.apu.dmc) && r.dma.None? && r.oamHaltFrom.None?
  {
    hide CpuStep, RecordAll, PatternOf, WalkCycle, Silent, OwnCycles, IsWriteCycle;
    var from, p, n := RecordAll(m, Accesses(s)).m, StepPattern(m, s), OwnCycles(s);
    ReadOnlyStep(m, s);
    assert Walk(from, p, 0) == from;
    if m.dma.Some? {
      AbortCycle(from, p, 0);
      assert Walk(from, p, 1) == WalkCycle(from, p, 0);
      SilentWalk(from, p, 1, n);
    } else {
      SilentWalk(from, p, 0, n);
    }
  }

  /** A program stops the sample by a store whose last cycle is `c`, while a reload is
      scheduled there: the next step without bus writes returns one cycle more exactly
      if the reload would have halted on `c + 1`, and nothing is fetched. */
  lemma StopThenStep(m: Machine, value: u8, s: Step)
    requires Full(m) && Near(m) && m.stall == 0 && !Bit(value, 0x10) && CpuStep(s) && WritesIn(Accesses(s)) == 0
    ensures var b := Walk(m, StepPattern(m, StopStore(value)), 3);
            var r := AfterStep(m, StopStore(value));
            b.dma.Some? && b.dma.value.kind == Reload && b.oamHaltFrom.None? ==>
            && r.cycles == b.cycles + 1
            && StepReturns(r, s) == OwnCycles(s) + (if b.dma.value.haltFrom == b.cycles + 1 then 1 else 0)
            && AfterStep(r, s).dma.None? && AfterStep(r, s).apu.dmc.reader.remaining == 0
  {
    hide Full, Base, CpuStep, WalkCycle, RecordAll, OwnCycles, ApplyWrite, Near;
    StopStorePattern(m, value);
    var p := StepPattern(m, StopStore(value));
    assert OwnCycles(StopStore(value)) == 4 by { StoreLength(value); }
    assert Walk(m, p, 4) == WalkCycle(Walk(m, p, 3), p, 3) by { LastCycleOf(m, p); }
    hide Walk;
    var b := Walk(m, p, 3);
    StepWritesLand(m, StopStore(value));
    WalkKeeps(m, p, 3);
    FullIsBase(b);
    WalkNear(m, p, 3);
    if b.dma.Some? && b.dma.value.kind == Reload && b.oamHaltFrom.None? {
      OneDeferred(b, value);
      StopCycle(b, p, 3, value);
      StepAfterStop(AfterStep(m, StopStore(value)), s);
    }
  }

  lemma StoreLength(value: u8)
    ensures OwnCycles(StopStore(value)) == 4
  {
  }

  lemma LastCycleOf(m: Machine, p: Pattern)
    ensures Walk(m, p, 4) == WalkCycle(Walk(m, p, 3), p, 3)
  {
    hide WalkCycle;
  }

  lemma OneDeferred(m: Machine, value: u8)
    ensures ApplyDeferred(m, [(3, 0x4015, value)], 3) == ApplyWrite(m, 0x4015, value)
  {
    hide ApplyWrite;
    var d: seq<(nat, u16, u8)> := [(3, 0x4015, value)];
    assert d[..0] == [];
    assert ApplyDeferred(m, [], 3) == m;
  }

  /** Which kind a fetch becomes: enabling asks for a load only of a channel that had
      finished and holds no byte; disabling withdraws that; otherwise the next fetch
      is of the kind it was. */
  lemma EnableKind(m: Machine, value: u8)
    requires Base(m)
    ensures var d, r := m.apu.dmc, ApplyWrite(m, 0x4015, value).apu.dmc;
            r.fetch.nextIsLoad <==> Bit(value, 0x10) && (d.fetch.nextIsLoad || (d.reader.remaining == 0 && !d.filled))
  {
    hide Conserved, PhaseOk, PulseEnable, TriangleEnable, NoiseEnable;
  }
}
