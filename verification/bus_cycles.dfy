/** Cycle accounting of the DMA engine: every stolen cycle is counted once, and the
    exact length of an OAM window under any arrival of DMC fetches. */
module DmaCycles {
  import opened Words
  import opened IrqTimer
  import opened DeltaModulation
  import opened Apu2A03
  import opened ApuObject
  import opened DmaEngine

  /** From `m` to `r` the CPU spent `len` cycles of its own; every other cycle that
      passed was added to the stall account (a saturating u32). */
  predicate Accounted(m: Machine, r: Machine, len: nat) {
    r.cycles >= m.cycles + len && r.stall == SatAdd(m.stall, r.cycles - m.cycles - len)
  }

  lemma AccountedTrans(m: Machine, r: Machine, t: Machine, a: nat, b: nat)
    requires Accounted(m, r, a) && Accounted(r, t, b)
    ensures Accounted(m, t, a + b)
  {
  }

  /** What the engine keeps while it only waits and reads. */
  predicate SameLine(m: Machine, r: Machine) {
    r.stall == m.stall && r.oamHaltFrom == m.oamHaltFrom && r.mem == m.mem
  }

  lemma TickLine(m: Machine)
    ensures SameLine(m, BusTick(m)) && BusTick(m).cycles == m.cycles + 1
  {
    hide ApuTick, TimerTick, ScheduleFetch, ScheduleStop, DmcTakeFetch, DmcTakeStop;
  }

  lemma {:induction false} TicksLine(m: Machine, n: nat)
    ensures SameLine(m, Iterate(BusTick, m, n)) && Iterate(BusTick, m, n).cycles == m.cycles + n
  {
    hide BusTick;
    if n > 0 {
      TicksLine(m, n - 1);
      TickLine(Iterate(BusTick, m, n - 1));
    }
  }

  lemma DeliverLine(m: Machine, s: Scheduled)
    ensures SameLine(m, Deliver(m, s)) && Deliver(m, s).cycles == m.cycles && Deliver(m, s).dma == m.dma
  {
    hide StatusByte, AfterStatusRead, DmcSupply, DmcSupplyUnexpected;
  }

  /** A serviced DMA advances the clock by exactly what it adds to the account: 3 or 4
      cycles by the parity of its halt, 1 or 0 for an aborted one. */
  lemma ServiceAccounted(m: Machine, readCycle: bool)
    ensures var r := Service(m, readCycle);
            && Accounted(m, r, 0) && r.oamHaltFrom == m.oamHaltFrom
            && r.cycles - m.cycles ==
                 (if !DueNow(m, readCycle) then 0
                  else if m.dma.value.kind == Aborted then
                    if m.cycles == m.dma.value.haltFrom && readCycle then 1 else 0
                  else if m.cycles % 2 == 0 then 3 else 4)
  {
    hide BusTick, Deliver, DmcCancel;
    if DueNow(m, readCycle) {
      var s := m.dma.value;
      var n := if s.kind == Aborted then 1 else if m.cycles % 2 == 0 then 3 else 4;
      var idle := m.(dma := None);
      TicksLine(idle.(stall := SatAdd(m.stall, n)), n);
      DeliverLine(Stall(idle, n), s);
    }
  }

  // ------------------------------------------------------------ OAM window

  /** Cycles one DMC fetch adds to a window, by the puts and gets still to come at its
      halt: 1 on the second-to-last put, 3 on the last and 2 anywhere before. */
  function Cost(remaining: nat): nat {
    if remaining == 3 then 1 else if remaining == 1 then 3 else 2
  }

  /** The fetches a window services, each as the number of window cycles remaining at
      its halt. */
  function Serviced(m: Machine, remaining: nat): seq<nat>
    decreases remaining
  {
    if remaining == 0 then []
    else if OamServes(m) then
      [remaining] + Serviced(OamServe(m, Max(remaining - 3, 0)), Max(remaining - 3, 0))
    else Serviced(BusTick(m), remaining - 1)
  }

  function TotalCost(rs: seq<nat>): nat
    decreases |rs|
  {
    if rs == [] then 0 else Cost(rs[0]) + TotalCost(rs[1..])
  }

  lemma OamServeLine(m: Machine, left: nat)
    requires m.dma.Some?
    ensures SameLine(m, OamServe(m, left)) && OamServe(m, left).cycles == m.cycles + (if left > 0 then 5 else 4)
  {
    hide BusTick, Deliver;
    var t := Iterate(BusTick, m.(dma := None), 3);
    TicksLine(m.(dma := None), 3);
    DeliverLine(t, m.dma.value);
    var d := Deliver(t, m.dma.value);
    TickLine(d);
    TickLine(BusTick(d));
  }

  /** The loop of a window: it ends exactly `remaining` cycles and the cost of its
      fetches later; the fetches halt on odd cycles, so each sees an odd count. */
  lemma {:induction false} OamLoopLength(m: Machine, remaining: nat)
    requires remaining > 0 ==> (m.cycles + remaining) % 2 == 0
    ensures var r := OamLoop(m, remaining);
            SameLine(m, r) && r.cycles == m.cycles + remaining + TotalCost(Serviced(m, remaining))
    ensures forall x :: x in Serviced(m, remaining) ==> x % 2 == 1 && x <= remaining
    ensures remaining + TotalCost(Serviced(m, remaining)) <= 2 * remaining + 3
    decreases remaining
  {
    hide BusTick, OamServe;
    if remaining > 0 {
      if OamServes(m) {
        var left := Max(remaining - 3, 0);
        var next := OamServe(m, left);
        OamServeLine(m, left);
        OamLoopLength(next, left);
        var rest := Serviced(next, left);
        assert Serviced(m, remaining) == [remaining] + rest && ([remaining] + rest)[1..] == rest;
      } else {
        TickLine(m);
        OamLoopLength(BusTick(m), remaining - 1);
      }
    }
  }

  /** The window, for an arbitrary schedule of DMC fetches arriving during it: 513
      cycles from a put-cycle halt or 514 from a get-cycle halt, and per serviced
      fetch 2 mid-window, 1 on the second-to-last put or 3 on the last put. All of it
      is added to the stall account, and it never exceeds 1029 cycles. */
  lemma OamWindowLength(m: Machine)
    ensures var r := OamWindow(m);
            var served := Serviced(OamStart(m), 512);
            && r.cycles == m.cycles + (if m.cycles % 2 == 1 then 513 else 514) + TotalCost(served)
            && (forall x :: x in served ==> x % 2 == 1 && x <= 511)
            && r.cycles - m.cycles <= 1029
            && Accounted(m, r, 0) && r.oamHaltFrom == m.oamHaltFrom
  {
    hide BusTick, OamServe, OamLoop, Serviced, TotalCost;
    TicksLine(m, if m.cycles % 2 == 0 then 2 else 1);
    OamLoopLength(OamStart(m), 512);
  }

  // ---------------------------------------------------------------- walks

  lemma ApplyWriteLine(m: Machine, addr: u16, value: u8)
    ensures SameLine(m, ApplyWrite(m, addr, value)) && ApplyWrite(m, addr, value).cycles == m.cycles
  {
    hide ApuWriteRegister, WriteStatus, TimerWrite, DmcEnable, DmcCancel;
  }

  lemma {:induction false} DeferredLine(m: Machine, deferred: seq<(nat, u16, u8)>, o: nat)
    ensures SameLine(m, ApplyDeferred(m, deferred, o)) && ApplyDeferred(m, deferred, o).cycles == m.cycles
    decreases |deferred|
  {
    hide ApplyWrite;
    if deferred != [] {
      DeferredLine(m, deferred[..|deferred| - 1], o);
      var (off, addr, value) := deferred[|deferred| - 1];
      ApplyWriteLine(ApplyDeferred(m, deferred[..|deferred| - 1], o), addr, value);
    }
  }

  /** One walked cycle costs one CPU cycle; all that DMA steals around it, within or
      outside an OAM window, is accounted, and is at most 1037 cycles. */
  lemma WalkCycleAccounted(m: Machine, p: Pattern, o: nat)
    ensures Accounted(m, WalkCycle(m, p, o), 1)
    ensures WalkCycle(m, p, o).cycles <= m.cycles + 1 + 1037
  {
    hide BusTick, Service, OamWindow, ApplyDeferred;
    var readCycle := !IsWriteCycle(p, o);
    DeferredLine(m, p.deferred, o);
    var ready := TriggerOam(ApplyDeferred(m, p.deferred, o), p, o);
    var served := Service(ready, readCycle);
    ServiceAccounted(ready, readCycle);
    if OamHalts(served, readCycle) {
      var halted := served.(oamHaltFrom := None);
      OamWindowLength(halted);
      ServiceAccounted(OamWindow(halted), readCycle);
    }
    TickLine(ServiceOam(served, readCycle));
  }

  /** Every walk, from every state: the clock advances by the instruction's own
      cycles and by exactly the stall it reports. */
  lemma {:induction false} WalkAccounted(m: Machine, p: Pattern, o: nat)
    ensures Accounted(m, Walk(m, p, o), o)
    ensures Walk(m, p, o).cycles - m.cycles - o <= 1037 * o
  {
    hide WalkCycle;
    if o > 0 {
      WalkAccounted(m, p, o - 1);
      WalkCycleAccounted(Walk(m, p, o - 1), p, o - 1);
      AccountedTrans(m, Walk(m, p, o - 1), Walk(m, p, o), o - 1, 1);
    }
  }
}
