/** The slice of the CPU that the NMI wrapper uses, and the wrapper itself
    (src/cpu.rs:177-257, 604-651, 1270-1288; src/player.rs:265-301). */
module NmiWrapper {
  import opened Words

  type Ram = s: seq<u8> | |s| == 0x800 witness seq(0x800, _ => 0)
  type Overlay = s: seq<u8> | |s| == 6 witness [0, 0, 0, 0, 0, 0]
  type View = s: seq<u8> | |s| == 0x1_0000 witness seq(0x1_0000, _ => 0)

  const FLAG_Z := 2
  const FLAG_I := 4
  const FLAG_B := 16
  const FLAG_U := 32
  const FLAG_N := 128

  const WRAPPER_ADDR: u16 := 0x0200
  const STOP_SENTINEL: u16 := 0x4FFF

  /** Registers and address space; `rest` is what lies beyond RAM and the overlay. */
  datatype Cpu = Cpu(a: u8, x: u8, y: u8, sp: u8, pc: u16, p: u8, ram: Ram, overlay: Option<Overlay>, rest: View)

  function Read(c: Cpu, addr: u16): u8 {
    if addr < 0x2000 then c.ram[addr % 0x800]
    else if addr >= 0xFFFA && c.overlay.Some? then c.overlay.value[addr - 0xFFFA]
    else c.rest[addr]
  }

  function WithFlag(p: u8, weight: u8, on: bool): u8
    requires weight in {1, 2, 4, 8, 16, 32, 64, 128}
  {
    if Bit(p, weight) == on then p else if on then p + weight else p - weight
  }

  function Word(lo: u8, hi: u8): u16 {
    var low: int, high: int := lo, hi;
    low + high * 0x100
  }

  function Push(c: Cpu, v: u8): Cpu {
    c.(ram := c.ram[0x100 + c.sp := v], sp := (c.sp + 0xFF) % 0x100)
  }

  function PushWord(c: Cpu, w: u16): Cpu {
    Push(Push(c, w / 0x100), w % 0x100)
  }

  /** The stack pointer after a pop, which then reads the slot it points to. */
  function Popped(c: Cpu): Cpu {
    c.(sp := (c.sp + 1) % 0x100)
  }

  function Top(c: Cpu): u8 {
    c.ram[0x100 + c.sp]
  }

  function TopWord(c: Cpu): u16 {
    Word(Top(Popped(c)), Top(Popped(Popped(c))))
  }

  function Next(pc: u16, n: nat): u16 {
    (pc + n) % 0x1_0000
  }

  /** `set_zn`. */
  function ZeroNegative(p: u8, v: u8): u8 {
    WithFlag(WithFlag(p, FLAG_Z, v == 0), FLAG_N, v >= 0x80)
  }

  /** The flags as interrupt entry pushes them and as RTI restores them. */
  function Plain(p: u8): u8 {
    WithFlag(WithFlag(p, FLAG_B, false), FLAG_U, true)
  }

  /** `service_interrupt`. */
  function Service(c: Cpu, vector: u16): Cpu
    requires vector < 0xFFFF
  {
    var s := Push(PushWord(c, c.pc), Plain(c.p));
    s.(p := WithFlag(c.p, FLAG_I, true), pc := Word(Read(s, vector), Read(s, vector + 1)))
  }

  predicate Modelled(opcode: u8) {
    || opcode == 0x48 || opcode == 0x68 || opcode == 0xAA || opcode == 0xA8 || opcode == 0x8A || opcode == 0x98
    || opcode == 0x20 || opcode == 0x60 || opcode == 0x40
  }

  function Jsr(c: Cpu): Cpu {
    var last := Next(c.pc, 1);
    PushWord(c, last).(pc := Word(Read(c, c.pc), Read(c, last)))
  }

  /** `dispatch` for the wrapper's opcodes, behind the opcode fetch. */
  function Perform(c: Cpu, opcode: u8): Cpu
    requires Modelled(opcode)
  {
    match opcode
    case 0x48 => Push(c, c.a)
    case 0x68 => var v := Top(Popped(c)); Popped(c).(a := v, p := ZeroNegative(c.p, v))
    case 0x20 => Jsr(c)
    case 0x60 => Popped(Popped(c)).(pc := Next(TopWord(c), 1))
    case 0x40 => var s := Popped(c); Popped(Popped(s)).(p := Plain(Top(s)), pc := TopWord(s))
    case 0xAA => c.(x := c.a, p := ZeroNegative(c.p, c.a))
    case 0xA8 => c.(y := c.a, p := ZeroNegative(c.p, c.a))
    case 0x8A => c.(a := c.x, p := ZeroNegative(c.p, c.x))
    case _ => c.(a := c.y, p := ZeroNegative(c.p, c.y))
  }

  function Execute(c: Cpu): Cpu
    requires Modelled(Read(c, c.pc))
  {
    Perform(c.(pc := Next(c.pc, 1)), Read(c, c.pc))
  }

  /** What one step does: an NMI first, then an IRQ the flags allow, then an opcode. */
  function Step(c: Cpu, nmi: bool, irq: bool): Cpu
    requires !nmi && (!irq || Bit(c.p, FLAG_I)) ==> Modelled(Read(c, c.pc))
  {
    if nmi then Service(c, 0xFFFA)
    else if irq && !Bit(c.p, FLAG_I) then Service(c, 0xFFFE)
    else Execute(c)
  }

  // ------------------------------------------------------------ the wrapper

  function Wrapper(play: u16): seq<u8> {
    [0x48, 0x8A, 0x48, 0x98, 0x48, 0x20, play % 0x100, play / 0x100, 0x68, 0xA8, 0x68, 0xAA, 0x68, 0x40]
  }

  predicate Installed(c: Cpu, play: u16) {
    && c.ram[0x200..0x20E] == Wrapper(play)
    && c.overlay.Some? && c.overlay.value[0] == 0x00 && c.overlay.value[1] == 0x02
  }

  /** The k-th stack slot at or below `sp`, wrapping inside page one. */
  function Slot(sp: u8, k: nat): nat {
    0x100 + (sp - k) % 0x100
  }

  function Frame(c: Cpu): seq<u8> {
    [c.pc / 0x100, c.pc % 0x100, Plain(c.p), c.a, c.x, c.y, 0x02, 0x07]
  }

  /** The eight bytes that stand on the stack while PLAY runs: return address, flags,
      registers and PLAY's own return address. */
  predicate Saved(c: Cpu, ram: Ram) {
    forall k :: 0 <= k < 8 ==> ram[Slot(c.sp, k)] == Frame(c)[k]
  }

  /** A run of steps without NMIs, while they stay inside the modelled opcodes. */
  function Steps(c: Cpu, irqs: seq<bool>): Option<Cpu>
    decreases |irqs|
  {
    if irqs == [] then Some(c)
    else if (!irqs[0] || Bit(c.p, FLAG_I)) && !Modelled(Read(c, c.pc)) then None
    else Steps(Step(c, false, irqs[0]), irqs[1..])
  }

  /** The state after `k` of the eight pushes. */
  predicate Pushed(c: Cpu, d: Cpu, k: nat)
    requires k <= 8
  {
    && d.sp == (c.sp - k) % 0x100
    && (forall j :: 0 <= j < k ==> d.ram[Slot(c.sp, j)] == Frame(c)[j])
    && (forall i :: 0 <= i < 0x800 && (forall j :: 0 <= j < k ==> i != Slot(c.sp, j)) ==> d.ram[i] == c.ram[i])
    && d.overlay == c.overlay && d.rest == c.rest
  }

  lemma SlotBelow(sp: u8, k: nat)
    requires k < 8
    ensures 0x100 + (sp - k) % 0x100 == Slot(sp, k) < 0x200
    ensures ((sp - k) % 0x100 + 0xFF) % 0x100 == (sp - (k + 1)) % 0x100
    ensures forall j :: 0 <= j < k ==> Slot(sp, j) != Slot(sp, k)
  {
  }

  lemma PushNext(c: Cpu, d: Cpu, k: nat, v: u8)
    requires k < 8 && Pushed(c, d, k) && v == Frame(c)[k]
    ensures Pushed(c, Push(d, v), k + 1)
  {
    SlotBelow(c.sp, k);
    hide Slot, Frame;
    var e := Push(d, v);
    forall i | 0 <= i < 0x800 && forall j :: 0 <= j < k + 1 ==> i != Slot(c.sp, j)
      ensures e.ram[i] == c.ram[i]
    {
      assert i != Slot(c.sp, k);
    }
  }

  /** The pushes stay in page one, below the wrapper. */
  lemma WrapperIntact(c: Cpu, d: Cpu, k: nat, play: u16, j: nat)
    requires k <= 8 && Pushed(c, d, k) && Installed(c, play) && j < 14
    ensures Read(d, WRAPPER_ADDR + j) == Wrapper(play)[j]
  {
    assert c.ram[0x200..0x20E][j] == c.ram[0x200 + j];
  }

  lemma FlagsKeepI(p: u8, v: u8)
    requires Bit(p, FLAG_I)
    ensures Bit(ZeroNegative(p, v), FLAG_I)
  {
  }

  lemma InterruptSetsI(p: u8)
    ensures Bit(WithFlag(p, FLAG_I, true), FLAG_I)
  {
  }

  /** With I set, no IRQ is taken and a modelled opcode executes. */
  lemma StepExecutes(c: Cpu, irqs: seq<bool>)
    requires irqs != [] && (Bit(c.p, FLAG_I) || !irqs[0]) && Modelled(Read(c, c.pc))
    ensures Steps(c, irqs) == Steps(Execute(c), irqs[1..])
  {
    hide Execute, Bit;
  }

  lemma ServiceFrame(c: Cpu, play: u16)
    requires Installed(c, play)
    ensures var d := Service(c, 0xFFFA);
            Pushed(c, d, 3) && d.pc == WRAPPER_ADDR && Bit(d.p, FLAG_I) && d.a == c.a && d.x == c.x && d.y == c.y
  {
    InterruptSetsI(c.p);
    hide Plain, WithFlag, Bit;
    assert Pushed(c, c, 0);
    PushNext(c, c, 0, c.pc / 0x100);
    PushNext(c, Push(c, c.pc / 0x100), 1, c.pc % 0x100);
    PushNext(c, PushWord(c, c.pc), 2, Plain(c.p));
  }

  /** On the way in: `k` bytes pushed, at byte `j` of the wrapper, IRQs masked. */
  predicate Entering(c: Cpu, d: Cpu, k: nat, j: nat, a: u8)
    requires k <= 8
  {
    Pushed(c, d, k) && d.pc == WRAPPER_ADDR + j && Bit(d.p, FLAG_I) && d.a == a && d.x == c.x && d.y == c.y
  }

  lemma PhaPushes(d: Cpu)
    requires Read(d, d.pc) == 0x48
    ensures Execute(d) == Push(d, d.a).(pc := Next(d.pc, 1))
    ensures Push(d, d.a).p == d.p && Push(d, d.a).a == d.a && Push(d, d.a).x == d.x && Push(d, d.a).y == d.y
  {
  }

  lemma RtsPops(d: Cpu)
    requires Read(d, d.pc) == 0x60
    ensures Execute(d) == Popped(Popped(d)).(pc := Next(TopWord(d), 1))
  {
  }

  lemma RtiPulls(d: Cpu)
    requires Read(d, d.pc) == 0x40
    ensures var s := Popped(d); Execute(d) == Popped(Popped(s)).(p := Plain(Top(s)), pc := TopWord(s))
  {
    hide Plain;
  }

  /** A push of the wrapper executes. */
  lemma PhaStep(c: Cpu, d: Cpu, k: nat, play: u16, j: nat, irqs: seq<bool>, n: nat) returns (e: Cpu)
    requires k < 8 && j < 14 && Installed(c, play) && Wrapper(play)[j] == 0x48
    requires Entering(c, d, k, j, Frame(c)[k]) && n < |irqs|
    ensures Steps(d, irqs[n..]) == Steps(e, irqs[n + 1..]) && Entering(c, e, k + 1, j + 1, Frame(c)[k])
  {
    assert WRAPPER_ADDR == 0x200;
    assert Next(d.pc, 1) == 0x200 + j + 1;
    assert Modelled(0x48);
    hide *;
    EnteringMeans(c, d, k, j, Frame(c)[k]);
    WrapperIntact(c, d, k, play, j);
    StepExecutes(d, irqs[n..]);
    PushNext(c, d, k, d.a);
    PhaPushes(d);
    e := Execute(d);
    assert irqs[n..][1..] == irqs[n + 1..];
    SameFrame(c, Push(d, d.a), e, k + 1);
    MeansEntering(c, e, k + 1, j + 1, Frame(c)[k]);
  }

  /** A transfer to the accumulator executes. */
  lemma TransferIn(c: Cpu, d: Cpu, k: nat, play: u16, j: nat, a: u8, irqs: seq<bool>, n: nat) returns (e: Cpu)
    requires k < 8 && j < 14 && Installed(c, play) && (Wrapper(play)[j] == 0x8A || Wrapper(play)[j] == 0x98)
    requires Entering(c, d, k, j, a) && n < |irqs|
    ensures Steps(d, irqs[n..]) == Steps(e, irqs[n + 1..])
    ensures Entering(c, e, k, j + 1, if Wrapper(play)[j] == 0x8A then c.x else c.y)
  {
    assert WRAPPER_ADDR == 0x200;
    hide *;
    EnteringMeans(c, d, k, j, a);
    WrapperIntact(c, d, k, play, j);
    e := ToAccumulator(d, irqs, n);
    SameFrame(c, d, e, k);
    MeansEntering(c, e, k, j + 1, e.a);
  }

  lemma ToAccumulator(d: Cpu, irqs: seq<bool>, n: nat) returns (e: Cpu)
    requires (Read(d, d.pc) == 0x8A || Read(d, d.pc) == 0x98) && d.pc < 0xFFFF && Bit(d.p, FLAG_I) && n < |irqs|
    ensures Steps(d, irqs[n..]) == Steps(e, irqs[n + 1..])
    ensures e == d.(a := if Read(d, d.pc) == 0x8A then d.x else d.y, pc := d.pc + 1, p := e.p) && Bit(e.p, FLAG_I)
  {
    StepExecutes(d, irqs[n..]);
    FlagsKeepI(d.p, d.x);
    FlagsKeepI(d.p, d.y);
    hide Steps, Bit, ZeroNegative;
    e := Execute(d);
    assert irqs[n..][1..] == irqs[n + 1..];
  }

  lemma EnteringMeans(c: Cpu, d: Cpu, k: nat, j: nat, a: u8)
    requires k <= 8 && Entering(c, d, k, j, a)
    ensures Pushed(c, d, k) && d.pc == WRAPPER_ADDR + j && Bit(d.p, FLAG_I) && d.a == a && d.x == c.x && d.y == c.y
  {
  }

  lemma MeansEntering(c: Cpu, d: Cpu, k: nat, j: nat, a: u8)
    requires k <= 8 && Pushed(c, d, k)
    requires d.pc == WRAPPER_ADDR + j && Bit(d.p, FLAG_I) && d.a == a && d.x == c.x && d.y == c.y
    ensures Entering(c, d, k, j, a)
  {
  }

  /** Whatever the IRQ line does, an NMI runs the wrapper up to PLAY: the interrupted
      context stands on the stack and no other byte of RAM has changed. */
  lemma EntryReachesPlay(c: Cpu, play: u16, irqs: seq<bool>) returns (e: Cpu)
    requires Installed(c, play) && |irqs| == 7
    ensures Steps(Step(c, true, irqs[0]), irqs[1..]) == Some(e)
    ensures e.pc == play && Pushed(c, e, 8) && Bit(e.p, FLAG_I)
  {
    ServiceFrame(c, play);
    var d := Step(c, true, irqs[0]);
    assert Entering(c, d, 3, 0, c.a);
    FrameBytes(c);
    WrapperBytes(play);
    hide *;
    d := PhaStep(c, d, 3, play, 0, irqs, 1);
    d := TransferIn(c, d, 4, play, 1, c.a, irqs, 2);
    d := PhaStep(c, d, 4, play, 2, irqs, 3);
    d := TransferIn(c, d, 5, play, 3, c.x, irqs, 4);
    d := PhaStep(c, d, 5, play, 4, irqs, 5);
    e := JsrStep(c, d, play, irqs, 6);
  }

  lemma FrameBytes(c: Cpu)
    ensures Frame(c)[0] == c.pc / 0x100 && Frame(c)[1] == c.pc % 0x100 && Frame(c)[2] == Plain(c.p)
    ensures Frame(c)[3] == c.a && Frame(c)[4] == c.x && Frame(c)[5] == c.y
  {
    hide Plain;
  }

  lemma WrapperBytes(play: u16)
    ensures var w := Wrapper(play);
            && |w| == 14 && w[0] == w[2] == w[4] == 0x48 && w[1] == 0x8A && w[3] == 0x98 && w[5] == 0x20
            && w[6] == play % 0x100 && w[7] == play / 0x100
            && w[8] == w[10] == w[12] == 0x68 && w[9] == 0xA8 && w[11] == 0xAA && w[13] == 0x40
  {
  }

  lemma SameFrame(c: Cpu, d: Cpu, e: Cpu, k: nat)
    requires k <= 8 && Pushed(c, d, k) && e.sp == d.sp && e.ram == d.ram && e.overlay == d.overlay && e.rest == d.rest
    ensures Pushed(c, e, k)
  {
  }

  /** The JSR pushes the address of its own last byte and jumps to PLAY. */
  lemma JsrStep(c: Cpu, d: Cpu, play: u16, irqs: seq<bool>, n: nat) returns (e: Cpu)
    requires Entering(c, d, 6, 5, c.y) && Installed(c, play) && |irqs| == n + 1
    ensures Steps(d, irqs[n..]) == Some(e)
    ensures e.pc == play && Pushed(c, e, 8) && Bit(e.p, FLAG_I)
  {
    WrapperBytes(play);
    assert WRAPPER_ADDR == 0x200;
    assert Frame(c)[6] == 0x02 && Frame(c)[7] == 0x07;
    assert irqs[n..][1..] == [];
    WordOfHalves(play);
    hide *;
    EnteringMeans(c, d, 6, 5, c.y);
    WrapperIntact(c, d, 6, play, 5);
    WrapperIntact(c, d, 6, play, 6);
    WrapperIntact(c, d, 6, play, 7);
    Calls(d, play);
    StepExecutes(d, irqs[n..]);
    LastStep(Execute(d));
    PushNext(c, d, 6, 0x02);
    PushNext(c, Push(d, 0x02), 7, 0x07);
    e := Execute(d);
    SameFrame(c, Push(Push(d, 0x02), 0x07), e, 8);
  }

  lemma LastStep(e: Cpu)
    ensures Steps(e, []) == Some(e)
  {
  }

  lemma Calls(d: Cpu, play: u16)
    requires d.pc == 0x205 && Read(d, 0x205) == 0x20 && Read(d, 0x206) == play % 0x100 && Read(d, 0x207) == play / 0x100
    ensures Execute(d) == Push(Push(d, 0x02), 0x07).(pc := play) && Execute(d).p == d.p && Modelled(0x20)
  {
    WordOfHalves(play);
    hide Push;
    JumpsFrom(d.(pc := 0x206), play);
    PushIgnoresPc(d, 0x206, 0x02);
    PushIgnoresPc(Push(d, 0x02), 0x206, 0x07);
    PushKeepsRegisters(d, 0x02);
    PushKeepsRegisters(Push(d, 0x02), 0x07);
  }

  lemma JumpsFrom(c: Cpu, play: u16)
    requires c.pc == 0x206 && Read(c, 0x206) == play % 0x100 && Read(c, 0x207) == play / 0x100
    ensures Jsr(c) == Push(Push(c, 0x02), 0x07).(pc := play)
  {
    WordOfHalves(play);
    hide Push, Read, Word;
  }

  lemma PushIgnoresPc(c: Cpu, pc: u16, v: u8)
    ensures Push(c.(pc := pc), v) == Push(c, v).(pc := pc)
  {
  }

  lemma PushKeepsRegisters(c: Cpu, v: u8)
    ensures Push(c, v).p == c.p
  {
  }

  // ----------------------------------------------------------------- the exit

  /** PLAY about to execute its RTS: the stack pointer is where PLAY found it, and
      neither the saved bytes nor the rest of the wrapper have been overwritten. */
  predicate Returning(c: Cpu, u: Cpu) {
    && u.sp == (c.sp - 8) % 0x100
    && Saved(c, u.ram)
    && u.ram[0x208..0x20E] == Wrapper(0)[8..]
    && Read(u, u.pc) == 0x60
  }

  /** `k` bytes of the frame are still on the stack. */
  predicate Popping(c: Cpu, u: Cpu, d: Cpu, k: nat) {
    && d.sp == (c.sp - k) % 0x100
    && d.ram == u.ram && d.overlay == u.overlay && d.rest == u.rest
  }

  lemma PopFrame(c: Cpu, u: Cpu, d: Cpu, k: nat)
    requires Saved(c, u.ram) && Popping(c, u, d, k) && 0 < k <= 8
    ensures Popping(c, u, Popped(d), k - 1) && Top(Popped(d)) == Frame(c)[k - 1]
  {
    hide Plain;
    assert 0x100 + Popped(d).sp == Slot(c.sp, k - 1);
  }

  predicate Quiet(d: Cpu, irqs: seq<bool>) {
    Bit(d.p, FLAG_I) || forall i :: 0 <= i < |irqs| ==> !irqs[i]
  }

  lemma TailByte(c: Cpu, u: Cpu, d: Cpu, k: nat, j: nat)
    requires Returning(c, u) && Popping(c, u, d, k) && 8 <= j < 14
    ensures Read(d, WRAPPER_ADDR + j) == Wrapper(0)[j]
  {
    assert u.ram[0x208..0x20E][j - 8] == u.ram[0x200 + j];
  }

  /** On the way out: `k` bytes of the frame left, at byte `j` of the wrapper. */
  predicate Leaving(c: Cpu, u: Cpu, d: Cpu, k: nat, j: nat, irqs: seq<bool>) {
    Popping(c, u, d, k) && d.pc == WRAPPER_ADDR + j && Quiet(d, irqs)
  }

  /** A PLA of the wrapper executes. */
  lemma PlaStep(c: Cpu, u: Cpu, d: Cpu, k: nat, j: nat, irqs: seq<bool>, n: nat) returns (e: Cpu)
    requires Returning(c, u) && 0 < k <= 8 && 8 <= j < 14 && Wrapper(0)[j] == 0x68 && n < |irqs|
    requires Leaving(c, u, d, k, j, irqs[n..])
    ensures Steps(d, irqs[n..]) == Steps(e, irqs[n + 1..]) && Leaving(c, u, e, k - 1, j + 1, irqs[n + 1..])
    ensures e.a == Frame(c)[k - 1] && e.x == d.x && e.y == d.y
  {
    TailByte(c, u, d, k, j);
    PopFrame(c, u, d, k);
    e := Pull(d, irqs, n);
    hide Steps, Bit, Frame, Returning, Wrapper, Quiet, Top, Slot;
    PoppedLeaves(c, u, d, e, k - 1);
  }

  lemma PoppedLeaves(c: Cpu, u: Cpu, d: Cpu, e: Cpu, k: nat)
    requires Popping(c, u, Popped(d), k) && e == Popped(d).(a := e.a, p := e.p, pc := e.pc)
    ensures Popping(c, u, e, k) && e.x == d.x && e.y == d.y
  {
  }

  lemma Pull(d: Cpu, irqs: seq<bool>, n: nat) returns (e: Cpu)
    requires Read(d, d.pc) == 0x68 && d.pc < 0xFFFF && n < |irqs| && Quiet(d, irqs[n..])
    ensures Steps(d, irqs[n..]) == Steps(e, irqs[n + 1..]) && Quiet(e, irqs[n + 1..])
    ensures e == Popped(d).(a := Top(Popped(d)), pc := d.pc + 1, p := e.p)
  {
    StepExecutes(d, irqs[n..]);
    PlaPulls(d);
    if Bit(d.p, FLAG_I) {
      FlagsKeepI(d.p, Top(Popped(d)));
    }
    hide Steps, Bit, ZeroNegative, Top, Popped, Execute, Read;
    e := Execute(d);
    assert irqs[n..][1..] == irqs[n + 1..];
  }

  lemma PlaPulls(d: Cpu)
    requires Read(d, d.pc) == 0x68 && d.pc < 0xFFFF
    ensures var v := Top(Popped(d)); Execute(d) == Popped(d).(a := v, p := ZeroNegative(d.p, v), pc := d.pc + 1)
  {
    hide ZeroNegative;
  }

  /** A transfer from the accumulator executes. */
  lemma TransferBack(c: Cpu, u: Cpu, d: Cpu, k: nat, j: nat, irqs: seq<bool>, n: nat) returns (e: Cpu)
    requires Returning(c, u) && 8 <= j < 14 && (Wrapper(0)[j] == 0xA8 || Wrapper(0)[j] == 0xAA) && n < |irqs|
    requires Leaving(c, u, d, k, j, irqs[n..])
    ensures Steps(d, irqs[n..]) == Steps(e, irqs[n + 1..]) && Leaving(c, u, e, k, j + 1, irqs[n + 1..])
    ensures Wrapper(0)[j] == 0xA8 ==> e.y == d.a && e.x == d.x
    ensures Wrapper(0)[j] == 0xAA ==> e.x == d.a && e.y == d.y
  {
    TailByte(c, u, d, k, j);
    e := FromAccumulator(d, irqs, n);
    hide Steps, Bit, Returning, Wrapper;
  }

  lemma FromAccumulator(d: Cpu, irqs: seq<bool>, n: nat) returns (e: Cpu)
    requires (Read(d, d.pc) == 0xA8 || Read(d, d.pc) == 0xAA) && d.pc < 0xFFFF && n < |irqs| && Quiet(d, irqs[n..])
    ensures Steps(d, irqs[n..]) == Steps(e, irqs[n + 1..]) && Quiet(e, irqs[n + 1..])
    ensures e == if Read(d, d.pc) == 0xA8 then d.(y := d.a, pc := d.pc + 1, p := e.p)
                 else d.(x := d.a, pc := d.pc + 1, p := e.p)
  {
    StepExecutes(d, irqs[n..]);
    if Bit(d.p, FLAG_I) {
      FlagsKeepI(d.p, d.a);
    }
    hide Steps, Bit, ZeroNegative;
    e := Execute(d);
    assert irqs[n..][1..] == irqs[n + 1..];
  }

  /** From PLAY's RTS on, the wrapper restores the interrupted context. */
  lemma ExitRestores(c: Cpu, u: Cpu, irqs: seq<bool>)
    requires Returning(c, u) && |irqs| == 7 && Quiet(u, irqs)
    ensures Steps(u, irqs)
            == Some(u.(a := c.a, x := c.x, y := c.y, sp := c.sp, pc := c.pc, p := Plain(c.p)))
  {
    FrameBytes(c);
    hide Steps, Plain, Returning, Leaving, Quiet, Frame;
    var d := RtsStep(c, u, irqs);
    d := PlaStep(c, u, d, 6, 8, irqs, 1);
    d := TransferBack(c, u, d, 5, 9, irqs, 2);
    d := PlaStep(c, u, d, 5, 10, irqs, 3);
    d := TransferBack(c, u, d, 4, 11, irqs, 4);
    d := PlaStep(c, u, d, 4, 12, irqs, 5);
    RtiStep(c, u, d, irqs, 6);
  }

  /** Two pops give back a word of the frame. */
  lemma PopWordOfFrame(c: Cpu, u: Cpu, d: Cpu, k: nat)
    requires Saved(c, u.ram) && Popping(c, u, d, k) && 1 < k <= 8
    ensures Popping(c, u, Popped(Popped(d)), k - 2) && TopWord(d) == Word(Frame(c)[k - 1], Frame(c)[k - 2])
  {
    PopFrame(c, u, d, k);
    PopFrame(c, u, Popped(d), k - 1);
    hide Frame, Slot, Saved, Popping, Popped, Top;
  }

  /** PLAY's RTS comes back to the byte behind the JSR. */
  lemma RtsStep(c: Cpu, u: Cpu, irqs: seq<bool>) returns (d: Cpu)
    requires Returning(c, u) && irqs != [] && Quiet(u, irqs)
    ensures Steps(u, irqs) == Steps(d, irqs[1..]) && Leaving(c, u, d, 6, 8, irqs[1..])
  {
    StepExecutes(u, irqs);
    PopWordOfFrame(c, u, u, 8);
    RtsPops(u);
    assert Frame(c)[7] == 0x07 && Frame(c)[6] == 0x02 && Next(Word(0x07, 0x02), 1) == 0x208;
    PoppedKeepsFlags(u);
    hide *;
    d := Popped(Popped(u)).(pc := 0x208);
    NowLeaving(c, u, Popped(Popped(u)), irqs);
  }

  lemma NowLeaving(c: Cpu, u: Cpu, s: Cpu, irqs: seq<bool>)
    requires Popping(c, u, s, 6) && s.p == u.p && Quiet(u, irqs) && irqs != []
    ensures Leaving(c, u, s.(pc := 0x208), 6, 8, irqs[1..])
  {
  }

  lemma PoppedKeepsFlags(d: Cpu)
    ensures Popped(Popped(d)).p == d.p && Popped(Popped(d)).pc == d.pc
  {
  }

  /** The RTI restores the flags and the return address. */
  lemma RtiStep(c: Cpu, u: Cpu, d: Cpu, irqs: seq<bool>, n: nat)
    requires |irqs| == n + 1 && Returning(c, u) && Leaving(c, u, d, 3, 13, irqs[n..])
    ensures Steps(d, irqs[n..])
            == Some(u.(a := d.a, x := d.x, y := d.y, sp := c.sp, pc := c.pc, p := Plain(c.p)))
  {
    TailByte(c, u, d, 3, 13);
    WrapperBytes(0);
    StepExecutes(d, irqs[n..]);
    RtiPops(c, u, d);
    assert irqs[n..][1..] == [];
    hide Execute, Bit, Returning, Wrapper, Quiet;
  }

  lemma RtiPops(c: Cpu, u: Cpu, d: Cpu)
    requires Saved(c, u.ram) && Popping(c, u, d, 3) && Read(d, d.pc) == 0x40
    ensures Execute(d) == u.(a := d.a, x := d.x, y := d.y, sp := c.sp, pc := c.pc, p := Plain(c.p))
  {
    PopFrame(c, u, d, 3);
    PopWordOfFrame(c, u, Popped(d), 2);
    PlainTwice(c.p);
    FrameBytes(c);
    RtiPulls(d);
    WordOfHalves(c.pc);
    hide *;
    var s := Popped(Popped(Popped(d)));
    AllPopped(c, u, d, s);
  }

  lemma AllPopped(c: Cpu, u: Cpu, d: Cpu, s: Cpu)
    requires Popping(c, u, d, 3) && s == Popped(Popped(Popped(d))) && Popping(c, u, s, 0)
    ensures s == u.(a := d.a, x := d.x, y := d.y, sp := c.sp, pc := d.pc, p := d.p)
  {
  }

  lemma WordOfHalves(w: u16)
    ensures Word(w % 0x100, w / 0x100) == w
  {
  }

  lemma PlainTwice(p: u8)
    ensures Plain(Plain(p)) == Plain(p)
  {
  }

  /** NMI-driven PLAY is transparent to the code it interrupts: for every register
      state, dispatch, wrapper and RTI give back A, X, Y, SP and PC exactly, and P up
      to B cleared and U set, provided that PLAY keeps its stack discipline. */
  lemma PlayIsTransparent(c: Cpu, play: u16, before: seq<bool>, u: Cpu, after: seq<bool>) returns (e: Cpu, f: Cpu)
    requires Installed(c, play) && |before| == 7
    requires u.sp == (c.sp - 8) % 0x100 && Read(u, u.pc) == 0x60
    requires u.ram[0x208..0x20E] == Wrapper(play)[8..]
    requires forall k :: 0 <= k < 8 ==> u.ram[Slot(c.sp, k)] == Frame(c)[k]
    requires |after| == 7 && Quiet(u, after)
    ensures Steps(Step(c, true, before[0]), before[1..]) == Some(e) && e.pc == play && e.sp == u.sp && Saved(c, e.ram)
    ensures Steps(u, after) == Some(f) && f.ram == u.ram
    ensures f.a == c.a && f.x == c.x && f.y == c.y && f.sp == c.sp && f.pc == c.pc && f.p == Plain(c.p)
  {
    e := EntryReachesPlay(c, play, before);
    assert Wrapper(play)[8..] == Wrapper(0)[8..];
    ExitRestores(c, u, after);
    f := u.(a := c.a, x := c.x, y := c.y, sp := c.sp, pc := c.pc, p := Plain(c.p));
    hide Steps, Step, Plain, Bit;
  }
}
