/** Which cycles of an instruction write (src/cpu.rs:38-93 and the cycle counts of
    `dispatch`, src/cpu.rs:399-1810), and the bus's mapping of its writes onto them
    (src/bus.rs:244-269). A mask is the sequence of its bits. */
module CpuPatterns {
  import opened Words

  type Mask = seq<bool>

  const INTERRUPT_WRITE_MASK: Mask := [false, false, true, true, true, false, false]
  const JSR_WRITE_MASK: Mask := [false, false, false, true, true, false]

  /** What an opcode does to the bus: writes on its final cycle, on its final two, in
      the interrupt or the JSR shape, or never; with the cycles `dispatch` returns. */
  datatype Shape = Store(cycles: nat) | ReadModifyWrite(cycles: nat) | Break | Jsr | ReadOnly

  function ShapeOf(opcode: u8): Shape {
    match opcode
    case 0x00 => Break
    case 0x20 => Jsr
    // STA, STX, STY, SAX, SHA, SHX, SHY, TAS, PHA, PHP
    case 0x85 | 0x86 | 0x84 | 0x87 | 0x48 | 0x08 => Store(3)
    case 0x95 | 0x96 | 0x94 | 0x97 | 0x8D | 0x8E | 0x8C | 0x8F => Store(4)
    case 0x9D | 0x99 | 0x9F | 0x9E | 0x9C | 0x9B => Store(5)
    case 0x81 | 0x91 | 0x83 | 0x93 => Store(6)
    // ASL, LSR, ROL, ROR, INC, DEC and SLO, RLA, SRE, RRA, DCP, ISB
    case 0x06 | 0x46 | 0x26 | 0x66 | 0xE6 | 0xC6 => ReadModifyWrite(5)
    case 0x07 | 0x27 | 0x47 | 0x67 | 0xC7 | 0xE7 => ReadModifyWrite(5)
    case 0x16 | 0x56 | 0x36 | 0x76 | 0xF6 | 0xD6 => ReadModifyWrite(6)
    case 0x17 | 0x37 | 0x57 | 0x77 | 0xD7 | 0xF7 => ReadModifyWrite(6)
    case 0x0E | 0x4E | 0x2E | 0x6E | 0xEE | 0xCE => ReadModifyWrite(6)
    case 0x0F | 0x2F | 0x4F | 0x6F | 0xCF | 0xEF => ReadModifyWrite(6)
    case 0x1E | 0x5E | 0x3E | 0x7E | 0xFE | 0xDE => ReadModifyWrite(7)
    case 0x1F | 0x3F | 0x5F | 0x7F | 0xDF | 0xFF => ReadModifyWrite(7)
    case 0x1B | 0x3B | 0x5B | 0x7B | 0xDB | 0xFB => ReadModifyWrite(7)
    case 0x03 | 0x23 | 0x43 | 0x63 | 0xC3 | 0xE3 => ReadModifyWrite(8)
    case 0x13 | 0x33 | 0x53 | 0x73 | 0xD3 | 0xF3 => ReadModifyWrite(8)
    case _ => ReadOnly
  }

  /** The cycle counts `dispatch` can return: fixed for every opcode that writes, and
      between 2 and 7 for the others. */
  predicate Dispatches(opcode: u8, cycles: nat) {
    match ShapeOf(opcode)
    case Store(c) => cycles == c
    case ReadModifyWrite(c) => cycles == c
    case Break => cycles == 7
    case Jsr => cycles == 6
    case ReadOnly => 2 <= cycles <= 7
  }

  /** How many bus writes `dispatch` makes. A read-modify-write makes one call for the
      two cycles the hardware writes. */
  function WriteCalls(opcode: u8): nat {
    match ShapeOf(opcode)
    case Break => 3
    case Jsr => 2
    case ReadOnly => 0
    case _ => 1
  }

  function WriteCycleMask(opcode: u8, cycles: nat): Mask {
    match ShapeOf(opcode)
    case Store(_) => seq(cycles, i => i == cycles - 1)
    case ReadModifyWrite(_) => seq(cycles, i => i >= cycles - 2)
    case Break => INTERRUPT_WRITE_MASK
    case Jsr => JSR_WRITE_MASK
    case ReadOnly => []
  }

  /** Write cycles among the first `n` of a mask. */
  function WritesBefore(mask: Mask, n: nat): nat
    requires n <= |mask|
  {
    if n == 0 then 0 else WritesBefore(mask, n - 1) + if mask[n - 1] then 1 else 0
  }

  /** `nth_write_offset`: where the n-th write of an instruction happened; its last
      cycle if the mask has no such write. */
  function NthWriteOffset(mask: Mask, n: nat, len: nat): nat {
    FindWrite(mask, n, len, 0)
  }

  function FindWrite(mask: Mask, n: nat, len: nat, from: nat): nat
    decreases |mask| - from
  {
    if from >= |mask| then Max(len - 1, 0)
    else if mask[from] then if n == 0 then from else FindWrite(mask, n - 1, len, from + 1)
    else FindWrite(mask, n, len, from + 1)
  }

  lemma {:induction false} FindWriteFinds(mask: Mask, n: nat, len: nat, from: nat)
    requires from <= |mask| && n + WritesBefore(mask, from) < WritesBefore(mask, |mask|)
    ensures var o := FindWrite(mask, n, len, from);
            from <= o < |mask| && mask[o] && WritesBefore(mask, o) == n + WritesBefore(mask, from)
    decreases |mask| - from
  {
    if from < |mask| && mask[from] {
      if n > 0 {
        FindWriteFinds(mask, n - 1, len, from + 1);
      }
    } else if from < |mask| {
      FindWriteFinds(mask, n, len, from + 1);
    }
  }

  /** The n-th write call is the n-th write cycle, whenever the mask has that many. */
  lemma NthWriteIsNth(mask: Mask, n: nat, len: nat)
    requires n < WritesBefore(mask, |mask|)
    ensures var o := NthWriteOffset(mask, n, len);
            o < |mask| && mask[o] && WritesBefore(mask, o) == n
  {
    FindWriteFinds(mask, n, len, 0);
  }

  /** At most `n` consecutive writes, the first cycle a read, none after the end. */
  predicate Shaped(mask: Mask, cycles: nat) {
    && |mask| <= cycles <= 8 && (|mask| > 0 ==> !mask[0])
    && (forall i :: 0 <= i && i + 3 < |mask| ==> !(mask[i] && mask[i + 1] && mask[i + 2] && mask[i + 3]))
    && (forall i :: 0 <= i && i + 3 == |mask| && |mask| == cycles ==> !(mask[i] && mask[i + 1] && mask[i + 2]))
  }

  lemma TailWrites(mask: Mask, writes: nat)
    requires writes <= |mask| && forall i :: 0 <= i < |mask| ==> (mask[i] <==> i >= |mask| - writes)
    ensures WritesBefore(mask, |mask|) == writes
    decreases writes, |mask|
  {
    TailWritesFrom(mask, writes, |mask|);
  }

  lemma {:induction false} TailWritesFrom(mask: Mask, writes: nat, n: nat)
    requires writes <= |mask| && n <= |mask|
    requires forall i :: 0 <= i < |mask| ==> (mask[i] <==> i >= |mask| - writes)
    ensures WritesBefore(mask, n) == Max(n - (|mask| - writes), 0)
  {
    if n > 0 {
      TailWritesFrom(mask, writes, n - 1);
    }
  }

  /** Every opcode: its mask starts with a read, ends within the instruction, never has
      four writes in a row, and has a write cycle for every bus write. */
  lemma EveryOpcodeShaped(opcode: u8, cycles: nat)
    requires Dispatches(opcode, cycles)
    ensures var mask := WriteCycleMask(opcode, cycles);
            Shaped(mask, cycles) && WriteCalls(opcode) <= WritesBefore(mask, |mask|)
  {
    match ShapeOf(opcode)
    case Store(_) => {
      hide ShapeOf;
      StoreCycles(opcode);
      TailWrites(WriteCycleMask(opcode, cycles), 1);
    }
    case ReadModifyWrite(_) => {
      hide ShapeOf;
      StoreCycles(opcode);
      TailWrites(WriteCycleMask(opcode, cycles), 2);
    }
    case Break => {
      hide ShapeOf;
      InterruptShaped();
    }
    case Jsr => {
      hide ShapeOf;
      JsrShaped();
    }
    case ReadOnly => {
      hide ShapeOf;
    }
  }

  lemma StoreCycles(opcode: u8)
    ensures ShapeOf(opcode).Store? ==> 3 <= ShapeOf(opcode).cycles <= 6
    ensures ShapeOf(opcode).ReadModifyWrite? ==> 5 <= ShapeOf(opcode).cycles <= 8
  {
  }

  lemma InterruptShaped()
    ensures Shaped(INTERRUPT_WRITE_MASK, 7) && WritesBefore(INTERRUPT_WRITE_MASK, 7) == 3
  {
    var mask := INTERRUPT_WRITE_MASK;
    assert WritesBefore(mask, 2) == 0;
    assert WritesBefore(mask, 4) == 2;
    assert WritesBefore(mask, 6) == 3;
  }

  lemma JsrShaped()
    ensures Shaped(JSR_WRITE_MASK, 6) && WritesBefore(JSR_WRITE_MASK, 6) == 2
  {
    var mask := JSR_WRITE_MASK;
    assert WritesBefore(mask, 2) == 0;
    assert WritesBefore(mask, 4) == 1;
  }
}
