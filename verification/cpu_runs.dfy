/** Runs of the CPU against the bus: any stream of instructions, interrupt dispatches
    and jammed steps (src/cpu.rs:149-188, src/bus.rs:729-886). */
module CpuRuns {
  import opened Words
  import opened IrqTimer
  import opened DeltaModulation
  import opened FrameSequencer
  import opened FrameCounter
  import opened ExpansionChips
  import opened Apu2A03
  import opened ApuObject
  import opened DmaEngine
  import opened DmaCycles
  import opened DmaOwnership
  import opened DmaWait
  import opened CpuPatterns

  /** What an instruction does to the bus while it executes: reads and writes in
      program order, and the changes of the memory view and of the expansion chips
      that memory-class writes and chip register accesses make at once. */
  datatype Access = Read(addr: u16) | Write(addr: u16, value: u8) | Remap(mem: Memory) | ChipAccess(chips: Chips)

  /** The bus between `begin_instruction` and `run_instruction`. */
  datatype Recording = Recording(m: Machine, calls: nat, oamCall: Option<nat>, deferred: seq<(nat, u16, u8)>)

  function Record(r: Recording, a: Access): Recording {
    match a
    case Read(addr) => r.(m := AfterRead(r.m, addr))
    case Remap(mem) => r.(m := r.m.(mem := mem))
    case ChipAccess(chips) => r.(m := r.m.(apu := r.m.apu.(chips := chips)))
    case Write(addr, value) =>
      var counted := r.(calls := r.calls + 1);
      if addr == 0x4014 then counted.(oamCall := Some(r.calls))
      else if TimeSensitive(addr) then counted.(deferred := r.deferred + [(r.calls, addr, value)])
      else counted
  }

  function RecordAll(m: Machine, accesses: seq<Access>): Recording {
    if accesses == [] then Recording(m, 0, None, [])
    else Record(RecordAll(m, accesses[..|accesses| - 1]), accesses[|accesses| - 1])
  }

  function WritesIn(accesses: seq<Access>): nat {
    if accesses == [] then 0
    else WritesIn(accesses[..|accesses| - 1]) + if accesses[|accesses| - 1].Write? then 1 else 0
  }

  function PatternOf(r: Recording, mask: Mask, cycles: nat): Pattern {
    Pattern(cycles, mask, if r.oamCall.Some? then Some(NthWriteOffset(mask, r.oamCall.value, cycles)) else None,
            seq(|r.deferred|, i requires 0 <= i < |r.deferred| =>
              (NthWriteOffset(mask, r.deferred[i].0, cycles), r.deferred[i].1, r.deferred[i].2)))
  }

  datatype Step =
    | Instruction(opcode: u8, cycles: nat, accesses: seq<Access>)
    | Interrupt(accesses: seq<Access>)
    | Jammed

  function MaskOf(s: Step): Mask {
    match s
    case Instruction(opcode, cycles, _) => WriteCycleMask(opcode, cycles)
    case Interrupt(_) => INTERRUPT_WRITE_MASK
    case Jammed => []
  }

  function OwnCycles(s: Step): nat {
    match s
    case Instruction(_, cycles, _) => cycles
    case Interrupt(_) => 7
    case Jammed => 1
  }

  function Accesses(s: Step): seq<Access> {
    if s.Jammed? then [] else s.accesses
  }

  /** A step the CPU can make: the cycle count `dispatch` returns for its opcode, and
      as many bus writes as it performs. */
  predicate CpuStep(s: Step) {
    match s
    case Instruction(opcode, cycles, accesses) =>
      Dispatches(opcode, cycles) && WritesIn(accesses) <= WriteCalls(opcode)
    case Interrupt(accesses) => WritesIn(accesses) <= 3
    case Jammed => true
  }

  function StepPattern(m: Machine, s: Step): Pattern {
    PatternOf(RecordAll(m, Accesses(s)), MaskOf(s), OwnCycles(s))
  }

  /** The machine when the instruction's cycles have been walked. */
  function Walked(m: Machine, s: Step): Machine {
    Walk(RecordAll(m, Accesses(s)).m, StepPattern(m, s), OwnCycles(s))
  }

  /** `Cpu6502::step`: its return value, and the machine with the stall drained. */
  function StepReturns(m: Machine, s: Step): nat {
    OwnCycles(s) + Walked(m, s).stall
  }

  function AfterStep(m: Machine, s: Step): Machine {
    Walked(m, s).(stall := 0)
  }

  function Run(m: Machine, steps: seq<Step>): Machine {
    if steps == [] then m else AfterStep(Run(m, steps[..|steps| - 1]), steps[|steps| - 1])
  }

  /** The sum of what the steps of a run returned. */
  function Reported(m: Machine, steps: seq<Step>): nat {
    if steps == [] then 0
    else Reported(m, steps[..|steps| - 1]) + StepReturns(Run(m, steps[..|steps| - 1]), steps[|steps| - 1])
  }

  // ---------------------------------------------------------- conservation

  lemma {:induction false} RecordKeeps(m: Machine, accesses: seq<Access>)
    ensures var r := RecordAll(m, accesses);
            && r.m.cycles == m.cycles && r.m.stall == m.stall && r.m.dma == m.dma
            && r.m.apu.dmc == m.apu.dmc && r.m.loadHaltFrom == m.loadHaltFrom
            && (ClockOk(m) ==> ClockOk(r.m)) && (InTable(m.apu.seqr) ==> InTable(r.m.apu.seqr))
            && r.calls == WritesIn(accesses)
            && (r.oamCall.Some? ==> r.oamCall.value < r.calls)
            && (forall i :: 0 <= i < |r.deferred| ==> r.deferred[i].0 < r.calls)
  {
    hide AfterRead, PhaseOk, InTable;
    if accesses != [] {
      RecordKeeps(m, accesses[..|accesses| - 1]);
      var before := RecordAll(m, accesses[..|accesses| - 1]);
      match accesses[|accesses| - 1]
      case Read(addr) =>
        ReadKeeps(before.m, addr);
        ReadKeepsStall(before.m, addr);
      case _ =>
    }
  }

  lemma ReadKeepsStall(m: Machine, addr: u16)
    ensures AfterRead(m, addr).stall == m.stall
  {
    hide ChipsObserveRead, AfterStatusRead;
  }

  lemma CyclesBound(s: Step)
    requires CpuStep(s)
    ensures 1 <= OwnCycles(s) <= 8 && Shaped(MaskOf(s), OwnCycles(s))
    ensures WritesIn(Accesses(s)) <= WritesBefore(MaskOf(s), |MaskOf(s)|)
  {
    hide Shaped, WriteCycleMask;
    match s
    case Instruction(opcode, cycles, _) =>
      EveryOpcodeShaped(opcode, cycles);
      DispatchBound(opcode, cycles);
    case Interrupt(_) => InterruptShaped();
    case Jammed => NoWrites();
  }

  lemma DispatchBound(opcode: u8, cycles: nat)
    requires Dispatches(opcode, cycles)
    ensures 2 <= cycles <= 8
  {
    hide ShapeOf;
    StoreCycles(opcode);
  }

  lemma NoWrites()
    ensures Shaped([], 1)
  {
  }

  /** One step, from a drained account: the clock advances by exactly what it returns. */
  lemma StepConserves(m: Machine, s: Step)
    requires CpuStep(s) && m.stall == 0
    ensures AfterStep(m, s).cycles == m.cycles + StepReturns(m, s)
  {
    hide Walk, CpuStep, PatternOf;
    CyclesBound(s);
    RecordKeeps(m, Accesses(s));
    WalkAccounted(RecordAll(m, Accesses(s)).m, StepPattern(m, s), OwnCycles(s));
  }

  /** Cycle conservation over every run: however DMC and OAM DMA interleave with the
      instructions, the bus clock advances by exactly the sum of the returned counts. */
  lemma {:induction false} RunConserves(m: Machine, steps: seq<Step>)
    requires m.stall == 0 && forall i :: 0 <= i < |steps| ==> CpuStep(steps[i])
    ensures Run(m, steps).cycles == m.cycles + Reported(m, steps) && Run(m, steps).stall == 0
  {
    hide CpuStep, Walked;
    if steps != [] {
      RunConserves(m, steps[..|steps| - 1]);
      StepConserves(Run(m, steps[..|steps| - 1]), steps[|steps| - 1]);
    }
  }

  // ------------------------------------------------------------- ownership

  /** Every deferred register write of a CPU step lands on a write cycle. */
  lemma StepWritesLand(m: Machine, s: Step)
    requires CpuStep(s)
    ensures WritesOnWriteCycles(StepPattern(m, s))
  {
    hide CpuStep, MaskOf, Walk, Shaped;
    CyclesBound(s);
    RecordKeeps(m, Accesses(s));
    var r := RecordAll(m, Accesses(s));
    var p := StepPattern(m, s);
    forall i | 0 <= i < |p.deferred|
      ensures IsWriteCycle(p, p.deferred[i].0)
    {
      NthWriteIsNth(MaskOf(s), r.deferred[i].0, OwnCycles(s));
    }
  }

  lemma RecordKeepsFull(m: Machine, accesses: seq<Access>)
    requires Full(m)
    ensures Full(RecordAll(m, accesses).m)
  {
    hide DmaOk, Conserved, ParityOk, PhaseOk, InTable, RecordAll;
    RecordKeeps(m, accesses);
  }

  lemma StepKeepsFull(m: Machine, s: Step)
    requires Full(m) && CpuStep(s)
    ensures Full(AfterStep(m, s))
  {
    hide Full, CpuStep, Walk, WritesOnWriteCycles, PatternOf;
    RecordKeepsFull(m, Accesses(s));
    StepWritesLand(m, s);
    WalkKeeps(RecordAll(m, Accesses(s)).m, StepPattern(m, s), OwnCycles(s));
    StallKeepsFull(Walked(m, s), 0);
  }

  /** Fetch ownership, sample conservation, DMA parity and frame phase in every run. */
  lemma {:induction false} RunKeepsFull(m: Machine, steps: seq<Step>)
    requires Full(m) && forall i :: 0 <= i < |steps| ==> CpuStep(steps[i])
    ensures Full(Run(m, steps))
  {
    hide Full, CpuStep, AfterStep;
    if steps != [] {
      RunKeepsFull(m, steps[..|steps| - 1]);
      StepKeepsFull(Run(m, steps[..|steps| - 1]), steps[|steps| - 1]);
    }
  }

  // ------------------------------------------------------------------ wait

  /** A CPU pattern never has more than three writes in a row, and at most two of them
      at its end; its first cycle is a read. */
  lemma {:induction false} TrailingBound(p: Pattern, o: nat, w: nat)
    requires Shaped(p.writes, p.len) && o <= p.len && w <= 2
    ensures TrailingWrites(p, o, w) <= 3
    ensures 0 < o == p.len ==> TrailingWrites(p, o, w) <= 2
  {
    if o >= 1 {
      TrailingRun(p, o, w);
    }
    if o >= 4 {
      assert !(IsWriteCycle(p, o - 4) && IsWriteCycle(p, o - 3) && IsWriteCycle(p, o - 2) && IsWriteCycle(p, o - 1));
    }
    if 3 <= o == p.len {
      assert !(IsWriteCycle(p, o - 3) && IsWriteCycle(p, o - 2) && IsWriteCycle(p, o - 1));
    }
  }

  lemma FirstIsRead(p: Pattern, w: nat)
    requires Shaped(p.writes, p.len)
    ensures TrailingWrites(p, 1, w) == 0
  {
  }

  /** Past the first cycle the count is that of the writes right before. */
  lemma {:induction false} TrailingRun(p: Pattern, o: nat, w: nat)
    requires Shaped(p.writes, p.len) && 1 <= o
    ensures var t := TrailingWrites(p, o, w);
            t < o && forall i :: o - t <= i < o ==> IsWriteCycle(p, i)
  {
    FirstIsRead(p, w);
    if o > 1 {
      TrailingRun(p, o - 1, w);
    }
  }

  /** Bounded wait in every run: from a state where nothing has waited long, at every
      cycle of the next CPU step a DMA that still has to read has been refused at most
      three times, and at its end at most twice. */
  lemma StepWaits(m: Machine, s: Step, o: nat)
    requires Full(m) && CpuStep(s) && Waited(m, 2) && o <= OwnCycles(s)
    ensures var from := RecordAll(m, Accesses(s)).m;
            Waited(Walk(from, StepPattern(m, s), o), 3)
    ensures Waited(AfterStep(m, s), 2)
  {
    hide Full, CpuStep, Walk, WritesOnWriteCycles, Shaped;
    var from := RecordAll(m, Accesses(s)).m;
    var p := StepPattern(m, s);
    CyclesBound(s);
    RecordKeeps(m, Accesses(s));
    RecordKeepsFull(m, Accesses(s));
    StepWritesLand(m, s);
    WalkWaits(from, p, o, 2);
    TrailingBound(p, o, 2);
    WalkWaits(from, p, p.len, 2);
    TrailingBound(p, p.len, 2);
  }

  lemma {:induction false} RunWaits(m: Machine, steps: seq<Step>)
    requires Full(m) && Waited(m, 2) && forall i :: 0 <= i < |steps| ==> CpuStep(steps[i])
    ensures Full(Run(m, steps)) && Waited(Run(m, steps), 2)
  {
    hide Full, CpuStep, AfterStep, Waited;
    RunKeepsFull(m, steps);
    if steps != [] {
      RunWaits(m, steps[..|steps| - 1]);
      var last := steps[|steps| - 1];
      StepWaits(Run(m, steps[..|steps| - 1]), last, 0);
    }
  }
}
