/** Which cycles of which opcodes write, opcode by opcode, and what the two writes of a
    read-modify-write do to a DMA (src/cpu.rs:38-93, 399-1810; src/bus.rs:845-887). */
module CpuWrites {
  import opened Words
  import opened IrqTimer
  import opened FrameCounter
  import opened DeltaModulation
  import opened Apu2A03
  import opened ApuObject
  import opened DmaEngine
  import opened DmaCycles
  import opened DmaOwnership
  import opened CpuPatterns
  import opened CpuRuns

  // STA, STX, STY, SAX, SHA, SHX, SHY, TAS, PHA and PHP, by their cycles.
  const STORES_3: set<u8> := {0x85, 0x86, 0x84, 0x87, 0x48, 0x08}
  const STORES_4: set<u8> := {0x95, 0x96, 0x94, 0x97, 0x8D, 0x8E, 0x8C, 0x8F}
  const STORES_5: set<u8> := {0x9D, 0x99, 0x9F, 0x9E, 0x9C, 0x9B}
  const STORES_6: set<u8> := {0x81, 0x91, 0x83, 0x93}

  // ASL, LSR, ROL, ROR, INC, DEC, SLO, RLA, SRE, RRA, DCP and ISB in memory.
  const RMW_5: set<u8> := {0x06, 0x46, 0x26, 0x66, 0xE6, 0xC6, 0x07, 0x27, 0x47, 0x67, 0xC7, 0xE7}
  const RMW_6: set<u8> := {
    0x16, 0x56, 0x36, 0x76, 0xF6, 0xD6, 0x17, 0x37, 0x57, 0x77, 0xD7, 0xF7,
    0x0E, 0x4E, 0x2E, 0x6E, 0xEE, 0xCE, 0x0F, 0x2F, 0x4F, 0x6F, 0xCF, 0xEF}
  const RMW_7: set<u8> := {
    0x1E, 0x5E, 0x3E, 0x7E, 0xFE, 0xDE, 0x1F, 0x3F, 0x5F, 0x7F, 0xDF, 0xFF,
    0x1B, 0x3B, 0x5B, 0x7B, 0xDB, 0xFB}
  const RMW_8: set<u8> := {0x03, 0x23, 0x43, 0x63, 0xC3, 0xE3, 0x13, 0x33, 0x53, 0x73, 0xD3, 0xF3}

  /** Every store by its cycles, and every read-modify-write. */
  predicate Stores(opcode: u8, cycles: nat) {
    || (cycles == 3 && opcode in STORES_3) || (cycles == 4 && opcode in STORES_4)
    || (cycles == 5 && opcode in STORES_5) || (cycles == 6 && opcode in STORES_6)
  }

  predicate Modifies(opcode: u8, cycles: nat) {
    || (cycles == 5 && opcode in RMW_5) || (cycles == 6 && opcode in RMW_6)
    || (cycles == 7 && opcode in RMW_7) || (cycles == 8 && opcode in RMW_8)
  }

  predicate IsStore(opcode: u8) {
    opcode in STORES_3 || opcode in STORES_4 || opcode in STORES_5 || opcode in STORES_6
  }

  predicate IsModify(opcode: u8) {
    opcode in RMW_5 || opcode in RMW_6 || opcode in RMW_7 || opcode in RMW_8
  }

  lemma ShapesListed(opcode: u8)
    ensures IsStore(opcode) ==> ShapeOf(opcode).Store? && Stores(opcode, ShapeOf(opcode).cycles)
    ensures IsModify(opcode) ==> ShapeOf(opcode).ReadModifyWrite? && Modifies(opcode, ShapeOf(opcode).cycles)
    ensures ShapeOf(opcode).Break? <==> opcode == 0x00
    ensures ShapeOf(opcode).Jsr? <==> opcode == 0x20
    ensures !IsStore(opcode) && !IsModify(opcode) && opcode != 0x00 && opcode != 0x20 ==> ShapeOf(opcode).ReadOnly?
  {
  }

  /** How many cycles a mask writes on. */
  function WriteCycles(mask: Mask): nat {
    WritesBefore(mask, |mask|)
  }

  /** The last `n` cycles write and no others. */
  predicate WritesLast(mask: Mask, cycles: nat, n: nat) {
    |mask| == cycles >= n && forall i :: 0 <= i < cycles ==> (mask[i] <==> i + n >= cycles)
  }

  /** Opcode by opcode: a store or a push writes on its final cycle and on no other, a
      read-modify-write on its final two, JSR on its fourth and fifth, BRK on its third
      to fifth, and nothing else writes at all; and each takes the cycles it is listed
      with. */
  lemma WritesByOpcode(opcode: u8, cycles: nat)
    requires Dispatches(opcode, cycles)
    ensures var mask := WriteCycleMask(opcode, cycles);
            && (IsStore(opcode) ==>
                  Stores(opcode, cycles) && WritesLast(mask, cycles, 1) && WriteCycles(mask) == 1 && WriteCalls(opcode) == 1)
            && (IsModify(opcode) ==>
                  Modifies(opcode, cycles) && WritesLast(mask, cycles, 2) && WriteCycles(mask) == 2 && WriteCalls(opcode) == 1)
            && (opcode == 0x20 ==>
                  cycles == 6 && WriteCycles(mask) == 2 == WriteCalls(opcode) && IsWrite(mask, 3) && IsWrite(mask, 4))
            && (opcode == 0x00 ==>
                  cycles == 7 && WriteCycles(mask) == 3 == WriteCalls(opcode)
                  && IsWrite(mask, 2) && IsWrite(mask, 3) && IsWrite(mask, 4))
            && (!IsStore(opcode) && !IsModify(opcode) && opcode != 0x20 && opcode != 0x00 ==>
                  2 <= cycles <= 7 && WriteCycles(mask) == 0 == WriteCalls(opcode))
  {
    ShapesListed(opcode);
    StoreCycles(opcode);
    hide ShapeOf, IsStore, IsModify, Stores, Modifies;
    var mask := WriteCycleMask(opcode, cycles);
    match ShapeOf(opcode)
    case Store(_) => TailWrites(mask, 1);
    case ReadModifyWrite(_) => TailWrites(mask, 2);
    case Break => InterruptShaped();
    case Jsr => JsrShaped();
    case ReadOnly =>
  }

  predicate IsWrite(mask: Mask, i: nat) {
    i < |mask| && mask[i]
  }

  // ------------------------------------------- DMA against two write cycles

  /** A DMA that still has to read. */
  predicate Reads(m: Machine) {
    m.dma.Some? && m.dma.value.kind != Aborted
  }

  /** The same one; an unexpected DMA may have given way to a fetch that was needed. */
  predicate StillReads(m: Machine, r: Machine)
    requires Reads(m)
  {
    Reads(r) && (m.dma.value.kind != Unexpected ==> r.dma == m.dma)
  }

  lemma OtherWriteKeepsDma(m: Machine, addr: u16, value: u8)
    requires addr != 0x4015
    ensures ApplyWrite(m, addr, value).dma == m.dma
  {
    hide ApuWriteRegister, TimerWrite;
  }

  predicate NoStatus(deferred: seq<(nat, u16, u8)>) {
    forall i :: 0 <= i < |deferred| ==> deferred[i].1 != 0x4015
  }

  lemma {:induction false} DeferredKeepsDma(m: Machine, deferred: seq<(nat, u16, u8)>, o: nat)
    requires NoStatus(deferred)
    ensures ApplyDeferred(m, deferred, o).dma == m.dma
    decreases |deferred|
  {
    hide ApplyWrite;
    if deferred != [] {
      DeferredKeepsDma(m, deferred[..|deferred| - 1], o);
      var (off, addr, value) := deferred[|deferred| - 1];
      if off == o {
        OtherWriteKeepsDma(ApplyDeferred(m, deferred[..|deferred| - 1], o), addr, value);
      }
    }
  }

  lemma TickStillReads(m: Machine)
    requires Base(m) && Reads(m)
    ensures StillReads(m, BusTick(m)) && BusTick(m).cycles == m.cycles + 1 && BusTick(m).stall == m.stall
  {
    hide BusTick, DmcTick, Conserved, PhaseOk;
    TickParts(m);
    TickKeepsReader(m.apu.dmc);
  }

  /** A write cycle refuses every DMA that reads, and steals nothing. */
  lemma WriteCycleRefuses(m: Machine, p: Pattern, o: nat)
    requires Base(m) && Reads(m) && IsWriteCycle(p, o)
    requires NoStatus(p.deferred)
    ensures var r := WalkCycle(m, p, o);
            StillReads(m, r) && r.cycles == m.cycles + 1 && r.stall == m.stall
  {
    hide BusTick, ApplyDeferred, Base, Deliver, Iterate;
    DeferredKeeps(m, p.deferred, o);
    DeferredLine(m, p.deferred, o);
    DeferredKeepsDma(m, p.deferred, o);
    var written := ApplyDeferred(m, p.deferred, o);
    TriggerKeeps(written, p, o);
    TickStillReads(TriggerOam(written, p, o));
  }

  /** The deferred writes of a step are among its bus writes. */
  predicate Avoids4015(s: Step) {
    forall i :: 0 <= i < |Accesses(s)| && Accesses(s)[i].Write? ==> Accesses(s)[i].addr != 0x4015
  }

  lemma {:induction false} RecordAvoids(m: Machine, accesses: seq<Access>)
    requires forall i :: 0 <= i < |accesses| && accesses[i].Write? ==> accesses[i].addr != 0x4015
    ensures NoStatus(RecordAll(m, accesses).deferred)
  {
    hide AfterRead;
    if accesses != [] {
      RecordAvoids(m, accesses[..|accesses| - 1]);
      RecordAvoidsOne(RecordAll(m, accesses[..|accesses| - 1]), accesses[|accesses| - 1]);
    }
  }

  lemma RecordAvoidsOne(r: Recording, a: Access)
    requires a.Write? ==> a.addr != 0x4015
    requires NoStatus(r.deferred)
    ensures NoStatus(Record(r, a).deferred)
  {
    hide AfterRead;
  }

  lemma WalkOne(m: Machine, p: Pattern, o: nat)
    ensures Walk(m, p, o + 1) == WalkCycle(Walk(m, p, o), p, o)
  {
    hide WalkCycle;
  }

  lemma FinalTwo(s: Step)
    requires CpuStep(s) && s.Instruction? && IsModify(s.opcode)
    ensures 5 <= OwnCycles(s) <= 8 && IsWrite(MaskOf(s), OwnCycles(s) - 2) && IsWrite(MaskOf(s), OwnCycles(s) - 1)
  {
    WritesByOpcode(s.opcode, s.cycles);
    CyclesBound(s);
    hide IsModify, Dispatches, WriteCycleMask;
  }

  /** A DMA that has still to read two cycles before the end of a read-modify-write
      cannot halt it there: it is still scheduled when the instruction ends, whenever it
      is due, and those two cycles return nothing more than themselves. */
  lemma ModifyRefuses(m: Machine, s: Step)
    requires Full(m) && CpuStep(s) && s.Instruction? && IsModify(s.opcode) && Avoids4015(s)
    ensures 5 <= OwnCycles(s) &&
            var from, p, n := RecordAll(m, Accesses(s)).m, StepPattern(m, s), OwnCycles(s);
            var before := Walk(from, p, n - 2);
            Reads(before) ==>
            StillReads(before, AfterStep(m, s)) && AfterStep(m, s).cycles == before.cycles + 2
            && Walked(m, s).stall == before.stall
  {
    hide Full, Base, CpuStep, WalkCycle, RecordAll, IsModify, MaskOf, OwnCycles;
    FinalTwo(s);
    var from, p, n := RecordAll(m, Accesses(s)).m, StepPattern(m, s), OwnCycles(s);
    RecordKeepsFull(m, Accesses(s));
    RecordAvoids(m, Accesses(s));
    StepWritesLand(m, s);
    WalkKeeps(from, p, n - 2);
    WalkKeeps(from, p, n - 1);
    WalkOne(from, p, n - 2);
    WalkOne(from, p, n - 1);
    hide Walk;
    var before, mid := Walk(from, p, n - 2), Walk(from, p, n - 1);
    FullIsBase(before);
    FullIsBase(mid);
    if Reads(before) {
      WriteCycleRefuses(before, p, n - 2);
      WriteCycleRefuses(mid, p, n - 1);
    }
  }
}
