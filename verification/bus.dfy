/** The sub-instruction DMA engine of src/bus.rs:168-278 and 845-1136, as a function
    of the machine state: the cycle-exact semantics that the object follows. */
module DmaEngine {
  import opened Words
  import opened IrqTimer
  import opened DeltaModulation
  import opened FrameSequencer
  import opened ExpansionChips
  import opened Apu2A03
  import opened ApuObject

  datatype DmaKind = Load | Reload | Aborted | Unexpected

  /** A scheduled DMA; `byProgram` is history, recording that a program aborted it. */
  datatype Scheduled = Scheduled(addr: u16, kind: DmaKind, haltFrom: nat, byProgram: bool)

  /** The CPU's current view of its address space, bank selection included. */
  type Memory = s: seq<u8> | |s| == 0x1_0000 witness seq(0x1_0000, _ => 0)

  datatype Machine = Machine(
    apu: Apu, timer: Timer, cycles: nat, stall: u32, dma: Option<Scheduled>,
    oamHaltFrom: Option<nat>, loadHaltFrom: Option<nat>, mem: Memory)

  /** First get (even) cycle at or after `c`. */
  function FirstGet(c: nat): nat {
    if c % 2 == 0 then c else c + 1
  }

  /** First put (odd) cycle at or after `c`. */
  function FirstPut(c: nat): nat {
    if c % 2 == 1 then c else c + 1
  }

  function WithDmc(m: Machine, d: Dmc): Machine {
    m.(apu := m.apu.(dmc := d))
  }

  // ----------------------------------------------------------- one cycle

  /** The DMA scheduled for a fetch that armed on cycle `e`. */
  function ScheduleFetch(f: Fetch, loadHaltFrom: Option<nat>, e: nat): Scheduled {
    if f.pendingIsLoad then
      Scheduled(f.pendingAddr, Load,
                Max(if loadHaltFrom.Some? then loadHaltFrom.value else FirstGet(e + 3), FirstGet(e)), false)
    else Scheduled(f.pendingAddr, Reload, FirstPut(e + 1), false)
  }

  /** The outcome of a sample that ended by itself on cycle `e`. */
  function ScheduleStop(lastAddr: u16, e: nat): Scheduled {
    if e % 2 == 0 then Scheduled(lastAddr, Unexpected, e + 1, false) else Scheduled(0, Aborted, e + 2, false)
  }

  /** A newly armed fetch is taken and scheduled. */
  function ObserveFetch(m: Machine, e: nat): Machine {
    var f := m.apu.dmc.fetch;
    if !f.pending then m
    else WithDmc(m, DmcTakeFetch(m.apu.dmc)).(
      dma := Some(ScheduleFetch(f, m.loadHaltFrom, e)),
      loadHaltFrom := if f.pendingIsLoad then None else m.loadHaltFrom)
  }

  /** An implicit stop becomes a DMA only on an NTSC machine with none scheduled. */
  function ObserveStop(m: Machine, e: nat): Machine {
    var d := m.apu.dmc;
    WithDmc(m, DmcTakeStop(d)).(
      dma := if d.implicitStop && !m.apu.seqr.pal && m.dma.None?
             then Some(ScheduleStop(d.fetch.lastAddr, e)) else m.dma)
  }

  /** `observe_dmc_events` for the cycle `e` just ticked. */
  function Observe(m: Machine, e: nat): Machine {
    ObserveStop(ObserveFetch(m, e), e)
  }

  /** One machine cycle. */
  function BusTick(m: Machine): Machine {
    Observe(m.(apu := ApuTick(m.apu), timer := TimerTick(m.timer), cycles := m.cycles + 1), m.cycles)
  }

  // ---------------------------------------------------------- bus access

  /** A CPU or DMA read: the byte and the read's side effects. */
  function ReadByte(m: Machine, addr: u16): u8 {
    if addr == 0x4015 then StatusByte(m.apu)
    else if m.timer.enabled && addr == 0x401B then m.timer.reload % 0x100
    else if m.timer.enabled && addr == 0x401C then m.timer.reload / 0x100
    else if m.timer.enabled && addr == 0x401D then
      (if m.timer.irqFlag then 0x80 else 0) + (if m.timer.active then 1 else 0)
    else m.mem[addr]
  }

  function AfterRead(m: Machine, addr: u16): Machine {
    if addr == 0x4015 then m.(apu := AfterStatusRead(m.apu))
    else if m.timer.enabled && addr == 0x401D then m.(timer := m.timer.(irqFlag := false))
    else m.(apu := m.apu.(chips := ChipsObserveRead(m.apu.chips, addr, m.mem[addr])))
  }

  /** $4015 D4 at the current cycle: enables latch the load schedule, disables run
      the stop rules against a scheduled DMA. */
  function ApplyDmcEnable(m: Machine, on: bool): Machine {
    if on then WithDmc(m, DmcEnable(m.apu.dmc, true)).(loadHaltFrom := Some(FirstGet(m.cycles + 3)))
    else
      var stopped := StopDma(m);
      WithDmc(stopped, DmcEnable(stopped.apu.dmc, false)).(loadHaltFrom := None)
  }

  function StopDma(m: Machine): Machine {
    if m.dma.Some? && m.dma.value.kind == Reload then
      if m.cycles / 2 + 1 >= m.dma.value.haltFrom / 2 then m.(dma := Some(m.dma.value.(kind := Aborted, byProgram := true)))
      else WithDmc(m.(dma := None), DmcCancel(m.apu.dmc))
    else if m.dma.Some? && m.dma.value.kind == Load then WithDmc(m.(dma := None), DmcCancel(m.apu.dmc))
    else m
  }

  /** The registers whose writes are deferred to their true cycle. */
  predicate TimeSensitive(addr: u16) {
    0x4000 <= addr <= 0x4013 || addr == 0x4015 || addr == 0x4017 || 0x401B <= addr <= 0x401D
  }

  function ApplyWrite(m: Machine, addr: u16, value: u8): Machine {
    if 0x4000 <= addr <= 0x4013 then m.(apu := ApuWriteRegister(m.apu, addr, value))
    else if addr == 0x4015 then ApplyDmcEnable(m.(apu := WriteStatus(m.apu, value)), Bit(value, 0x10))
    else if addr == 0x4017 then
      m.(apu := m.apu.(seqr := WriteFrameCounter(m.apu.seqr, value, m.apu.totalCycles)))
    else if 0x401B <= addr <= 0x401D then m.(timer := TimerWrite(m.timer, addr, value))
    else m
  }

  // --------------------------------------------------------------- stalls

  /** `n` cycles stolen from the CPU. */
  function Stall(m: Machine, n: nat): Machine {
    Iterate(BusTick, m.(stall := SatAdd(m.stall, n)), n)
  }

  /** The DMA's read completes. */
  function Deliver(m: Machine, s: Scheduled): Machine {
    var byte := ReadByte(m, s.addr);
    var r := AfterRead(m, s.addr);
    WithDmc(r, if s.kind == Unexpected then DmcSupplyUnexpected(r.apu.dmc, byte) else DmcSupply(r.apu.dmc, byte))
  }

  predicate DueNow(m: Machine, readCycle: bool) {
    m.dma.Some? && m.cycles >= m.dma.value.haltFrom && (readCycle || m.dma.value.kind == Aborted)
  }

  /** `service_dmc_dma`: a halt on a get cycle costs 3 cycles and on a put cycle 4;
      an aborted DMA costs its halt cycle, or nothing if that attempt fails. */
  function Service(m: Machine, readCycle: bool): Machine {
    if !DueNow(m, readCycle) then m
    else
      var s := m.dma.value;
      var idle := m.(dma := None);
      if s.kind == Aborted then
        var halted := if m.cycles == s.haltFrom && readCycle then Stall(idle, 1) else idle;
        WithDmc(halted, DmcCancel(halted.apu.dmc))
      else Deliver(Stall(idle, if m.cycles % 2 == 0 then 3 else 4), s)
  }

  // ----------------------------------------------------------- OAM window

  /** A DMC DMA halts inside the window only on an OAM put. */
  predicate OamServes(m: Machine) {
    m.dma.Some? && m.dma.value.kind != Aborted && m.cycles >= m.dma.value.haltFrom && m.cycles % 2 == 1
  }

  /** Halt, dummy and alignment overlap up to three cycles of the window. */
  function OamServe(m: Machine, left: nat): Machine
    requires m.dma.Some?
  {
    var s := m.dma.value;
    var d := BusTick(Deliver(Iterate(BusTick, m.(dma := None), 3), s));
    if left > 0 then BusTick(d) else d
  }

  function OamLoop(m: Machine, remaining: nat): Machine
    decreases remaining
  {
    if remaining == 0 then m
    else if OamServes(m) then OamLoop(OamServe(m, Max(remaining - 3, 0)), Max(remaining - 3, 0))
    else OamLoop(BusTick(m), remaining - 1)
  }

  function OamStart(m: Machine): Machine {
    Iterate(BusTick, m, if m.cycles % 2 == 0 then 2 else 1)
  }

  /** The $4014 window, entered on its halt cycle. */
  function OamWindow(m: Machine): Machine {
    var r := OamLoop(OamStart(m), 512);
    r.(stall := SatAdd(r.stall, Max(r.cycles - m.cycles, 0)))
  }

  // ----------------------------------------------------- instruction walk

  /** An instruction as the bus sees it: its length, its write cycles, the cycle of a
      $4014 trigger, and the deferred register writes with their cycles. */
  datatype Pattern = Pattern(len: nat, writes: seq<bool>, oam: Option<nat>, deferred: seq<(nat, u16, u8)>)

  predicate IsWriteCycle(p: Pattern, o: nat) {
    o < |p.writes| && p.writes[o]
  }

  /** The deferred writes of cycle `o`, in order. */
  function ApplyDeferred(m: Machine, deferred: seq<(nat, u16, u8)>, o: nat): Machine {
    if deferred == [] then m
    else
      var before := ApplyDeferred(m, deferred[..|deferred| - 1], o);
      var (off, addr, value) := deferred[|deferred| - 1];
      if off == o then ApplyWrite(before, addr, value) else before
  }

  function TriggerOam(m: Machine, p: Pattern, o: nat): Machine {
    if p.oam == Some(o) then m.(oamHaltFrom := Some(m.cycles + 1)) else m
  }

  predicate OamHalts(m: Machine, readCycle: bool) {
    m.oamHaltFrom.Some? && readCycle && m.cycles >= m.oamHaltFrom.value
  }

  function ServiceOam(m: Machine, readCycle: bool): Machine {
    if OamHalts(m, readCycle) then Service(OamWindow(m.(oamHaltFrom := None)), readCycle) else m
  }

  /** One CPU cycle of an instruction. */
  function WalkCycle(m: Machine, p: Pattern, o: nat): Machine {
    var readCycle := !IsWriteCycle(p, o);
    var ready := TriggerOam(ApplyDeferred(m, p.deferred, o), p, o);
    BusTick(ServiceOam(Service(ready, readCycle), readCycle))
  }

  /** The first `o` cycles of an instruction. */
  function Walk(m: Machine, p: Pattern, o: nat): Machine {
    if o == 0 then m else WalkCycle(Walk(m, p, o - 1), p, o - 1)
  }

  // ----------------------------------------------------------- fast path

  /** `tick_machine`: cycle-exact while DMC activity is possible, 8-cycle chunks otherwise. */
  function TickMachine(m: Machine, n: nat): Machine
    decreases n
  {
    if n == 0 then m
    else if ActivityPossible(m.apu.dmc) then TickMachine(BusTick(m), n - 1)
    else
      var k := Min(n, 8);
      TickMachine(m.(apu := Batch(m.apu, k), timer := Iterate(TimerTick, m.timer, k), cycles := m.cycles + k), n - k)
  }
}
