/** How long a due DMA waits for the CPU, and where its sample read falls
    (src/bus.rs:244-278, 892-972, 1087-1127). */
module DmaWait {
  import opened Words
  import opened DeltaModulation
  import opened FrameSequencer
  import opened FrameCounter
  import opened Apu2A03
  import opened ApuObject
  import opened DmaEngine
  import opened DmaCycles
  import opened DmaOwnership

  /** A scheduled DMA that still reads has been refused at most `w` times: its first
      attempt is `haltFrom`, or the cycle after it for a load that armed on that cycle. */
  predicate Waited(m: Machine, w: nat) {
    m.dma.Some? && m.dma.value.kind != Aborted ==>
      m.cycles <= m.dma.value.haltFrom + w + if m.dma.value.kind == Load then 1 else 0
  }

  /** A freshly scheduled DMA has not been refused at all. */
  lemma TickWaits(m: Machine, w: nat)
    requires m.dma.Some? && m.dma.value.kind != Aborted ==>
               m.cycles + 1 <= m.dma.value.haltFrom + w + if m.dma.value.kind == Load then 1 else 0
    ensures Waited(BusTick(m), w)
  {
    hide BusTick, DmcTick;
    TickParts(m);
  }

  /** A read cycle never leaves a due DMA behind. */
  lemma ServiceClears(m: Machine)
    requires Full(m)
    ensures var r := Service(m, true);
            r.dma.Some? ==> r.cycles < r.dma.value.haltFrom
  {
    hide BusTick, Deliver, Conserved, PhaseOk, InTable;
    if DueNow(m, true) {
      var s := m.dma.value;
      var idle := m.(dma := None);
      if s.kind != Aborted {
        var n := if m.cycles % 2 == 0 then 3 else 4;
        HeldTicks(idle.(stall := SatAdd(m.stall, n)), n);
        DeliverLine(Stall(idle, n), s);
      } else if m.cycles == s.haltFrom {
        HeldTicks(idle.(stall := SatAdd(m.stall, 1)), 1);
      }
    }
  }

  lemma StopWaits(m: Machine, addr: u16, value: u8, w: nat)
    requires Waited(m, w)
    ensures Waited(ApplyWrite(m, addr, value), w)
  {
    hide ApuWriteRegister, DmcEnable, DmcCancel;
    ApplyWriteLine(m, addr, value);
  }

  lemma {:induction false} DeferredWaits(m: Machine, deferred: seq<(nat, u16, u8)>, o: nat, w: nat)
    requires Waited(m, w)
    ensures Waited(ApplyDeferred(m, deferred, o), w)
    decreases |deferred|
  {
    hide Waited, ApplyWrite;
    if deferred != [] {
      DeferredWaits(m, deferred[..|deferred| - 1], o, w);
      var (off, addr, value) := deferred[|deferred| - 1];
      StopWaits(ApplyDeferred(m, deferred[..|deferred| - 1], o), addr, value, w);
    }
  }

  /** On a write cycle the halt fails and one more refusal is counted. */
  lemma WriteCycleWaits(m: Machine, p: Pattern, o: nat, w: nat)
    requires Waited(m, w) && IsWriteCycle(p, o)
    ensures Waited(WalkCycle(m, p, o), w + 1)
  {
    hide BusTick, ApplyDeferred, Deliver, Iterate;
    DeferredWaits(m, p.deferred, o, w);
    var ready := TriggerOam(ApplyDeferred(m, p.deferred, o), p, o);
    TickWaits(Service(ready, false), w + 1);
  }

  /** On a read cycle a due DMA halts, so what is left has not been refused. */
  lemma ReadCycleWaits(m: Machine, p: Pattern, o: nat)
    requires Full(m) && WritesOnWriteCycles(p) && !IsWriteCycle(p, o)
    ensures Waited(WalkCycle(m, p, o), 0)
  {
    hide BusTick, ApplyDeferred, Service, OamWindow, Base, TriggerOam;
    DeferredKeeps(m, p.deferred, o);
    TriggerKeeps(m, p, o);
    var ready := TriggerOam(m, p, o);
    ServiceClears(ready);
    ServiceKeeps(ready, true);
    var served := Service(ready, true);
    if OamHalts(served, true) {
      BaseIgnoresOam(served);
      OamWindowKeeps(served.(oamHaltFrom := None));
      ServiceClears(OamWindow(served.(oamHaltFrom := None)));
    }
    TickWaits(ServiceOam(served, true), 0);
  }

  lemma BaseIgnoresOam(m: Machine)
    requires Base(m)
    ensures Base(m.(oamHaltFrom := None))
  {
    hide DmaOk, Conserved, ParityOk, PhaseOk;
  }

  /** Consecutive write cycles just before cycle `o`, `w` of them from the instructions
      before this one. */
  function TrailingWrites(p: Pattern, o: nat, w: nat): nat {
    if o == 0 then w else if IsWriteCycle(p, o - 1) then TrailingWrites(p, o - 1, w) + 1 else 0
  }

  /** The wait over every walk: at any cycle, a DMA that still has to read has been
      refused at most once for each write cycle just before. */
  lemma {:induction false} WalkWaits(m: Machine, p: Pattern, o: nat, w: nat)
    requires Full(m) && WritesOnWriteCycles(p) && Waited(m, w)
    ensures Waited(Walk(m, p, o), TrailingWrites(p, o, w))
  {
    hide WalkCycle, Full, Waited, WritesOnWriteCycles;
    if o > 0 {
      WalkWaits(m, p, o - 1, w);
      WalkKeeps(m, p, o - 1);
      if IsWriteCycle(p, o - 1) {
        WriteCycleWaits(Walk(m, p, o - 1), p, o - 1, TrailingWrites(p, o - 1, w));
      } else {
        ReadCycleWaits(Walk(m, p, o - 1), p, o - 1);
      }
    }
  }

  /** The stall always ends on a get cycle, where the sample is read: an undelayed load
      halts on a get and costs 3, an undelayed reload on a put and costs 4, and every
      odd delay swaps the two. */
  lemma SampleReadOnGet(m: Machine)
    requires Full(m) && DueNow(m, true) && m.dma.value.kind != Aborted
    ensures var r := Service(m, true);
            var delay := m.cycles - m.dma.value.haltFrom;
            && (r.cycles - 1) % 2 == 0
            && r.cycles - m.cycles ==
                 (if (m.dma.value.kind == Load) == (delay % 2 == 0) then 3 else 4)
  {
    hide BusTick, Deliver, DmaOk, Conserved, PhaseOk, InTable;
    ServiceAccounted(m, true);
  }
}
