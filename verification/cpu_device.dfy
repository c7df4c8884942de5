/** The CPU of src/cpu.rs as an object over the player's memory, for the slice the
    NMI wrapper uses, and the wrapper's installation (src/player.rs:274-301). */
module CpuObject {
  import opened Words
  import opened NmiWrapper

  class Cpu6502 {
    var a: u8
    var x: u8
    var y: u8
    var sp: u8
    var pc: u16
    var p: u8
    const ram: array<u8>
    const overlay: array<u8>
    var overlayActive: bool
    var nmiPending: bool
    const rest: View

    ghost predicate Valid()
      reads this
    {
      ram.Length == 0x800 && overlay.Length == 6 && ram != overlay
    }

    ghost function State(): Cpu
      requires Valid()
      reads this, ram, overlay
    {
      Cpu(a, x, y, sp, pc, p, ram[..], if overlayActive then Some(overlay[..]) else None, rest)
    }

    /** `Cpu6502::new` over a cleared bus. */
    constructor (view: View)
      ensures Valid() && fresh(ram) && fresh(overlay)
      ensures State() == Cpu(0, 0, 0, 0xFD, 0, 0x24, seq(0x800, _ => 0), None, view) && !nmiPending
    {
      a, x, y, sp, pc, p := 0, 0, 0, 0xFD, 0, 0x24;
      overlayActive, nmiPending := false, false;
      rest := view;
      ram := new u8[0x800](_ => 0);
      overlay := new u8[6](_ => 0);
      new;
      assert ram[..] == seq(0x800, _ => 0);
    }

    method Load(addr: u16) returns (v: u8)
      requires Valid()
      ensures v == Read(State(), addr)
    {
      if addr < 0x2000 {
        v := ram[addr % 0x800];
      } else if addr >= 0xFFFA && overlayActive {
        v := overlay[addr - 0xFFFA];
      } else {
        v := rest[addr];
      }
    }

    method PushByte(v: u8)
      requires Valid()
      modifies this`sp, ram
      ensures State() == Push(old(State()), v)
    {
      ram[0x100 + sp] := v;
      sp := (sp + 0xFF) % 0x100;
    }

    method PushAddress(w: u16)
      requires Valid()
      modifies this`sp, ram
      ensures State() == PushWord(old(State()), w)
    {
      PushByte(w / 0x100);
      PushByte(w % 0x100);
    }

    method PopByte() returns (v: u8)
      requires Valid()
      modifies this`sp
      ensures State() == Popped(old(State())) && v == Top(State())
    {
      sp := (sp + 1) % 0x100;
      v := ram[0x100 + sp];
    }

    method PopAddress() returns (w: u16)
      requires Valid()
      modifies this`sp
      ensures State() == Popped(Popped(old(State()))) && w == TopWord(old(State()))
    {
      var lo := PopByte();
      var hi := PopByte();
      w := Word(lo, hi);
    }

    method FetchByte() returns (v: u8)
      requires Valid()
      modifies this`pc
      ensures State() == old(State()).(pc := Next(old(pc), 1)) && v == Read(old(State()), old(pc))
    {
      v := Load(pc);
      pc := Next(pc, 1);
    }

    method FetchWord() returns (w: u16)
      requires Valid()
      modifies this`pc
      ensures State() == old(State()).(pc := Next(old(pc), 2))
      ensures w == Word(Read(old(State()), old(pc)), Read(old(State()), Next(old(pc), 1)))
    {
      var lo := FetchByte();
      var hi := FetchByte();
      w := Word(lo, hi);
    }

    method SetZn(v: u8)
      requires Valid()
      modifies this`p
      ensures State() == old(State()).(p := ZeroNegative(old(p), v))
    {
      p := WithFlag(WithFlag(p, FLAG_Z, false), FLAG_N, false);
      if v == 0 {
        p := WithFlag(p, FLAG_Z, true);
      }
      if v >= 0x80 {
        p := WithFlag(p, FLAG_N, true);
      }
      FlagsSetOnce(old(p), v);
    }

    method ServiceInterrupt(vector: u16)
      requires Valid() && vector < 0xFFFF
      modifies this, ram
      ensures Valid() && State() == Service(old(State()), vector) && nmiPending == old(nmiPending)
    {
      hide WithFlag, Plain;
      PushAddress(pc);
      PushByte(Plain(p));
      p := WithFlag(p, FLAG_I, true);
      var lo := Load(vector);
      var hi := Load(vector + 1);
      pc := Word(lo, hi);
    }

    method JumpSubroutine()
      requires Valid()
      modifies this`pc, this`sp, ram
      ensures State() == Jsr(old(State()))
    {
      hide Read, PushWord;
      var target := FetchWord();
      var last := (pc + 0xFFFF) % 0x1_0000;
      assert last == Next(old(pc), 1);
      PushWordIgnoresPc(State(), old(State()), last);
      PushAddress(last);
      pc := target;
    }

    /** `dispatch` for the wrapper's opcodes, behind the opcode fetch. */
    method Dispatch(opcode: u8)
      requires Valid() && Modelled(opcode)
      modifies this, ram
      ensures Valid() && nmiPending == old(nmiPending) && State() == Perform(old(State()), opcode)
    {
      hide WithFlag, Plain, ZeroNegative, Jsr;
      match opcode {
        case 0x48 => PushByte(a);
        case 0x68 =>
          a := PopByte();
          SetZn(a);
        case 0x20 => JumpSubroutine();
        case 0x60 =>
          var w := PopAddress();
          pc := Next(w, 1);
        case 0x40 =>
          var flags := PopByte();
          var w := PopAddress();
          p := Plain(flags);
          pc := w;
        case 0xAA =>
          x := a;
          SetZn(x);
        case 0xA8 =>
          y := a;
          SetZn(y);
        case 0x8A =>
          a := x;
          SetZn(a);
        case _ =>
          a := y;
          SetZn(a);
      }
    }

    /** One step: a pending NMI, an allowed IRQ, or one instruction. */
    method StepOnce(irqLine: bool)
      requires Valid()
      requires !nmiPending && (!irqLine || Bit(p, FLAG_I)) ==> Modelled(Read(State(), pc))
      modifies this, ram
      ensures Valid() && !nmiPending
      ensures State() == Step(old(State()), old(nmiPending), irqLine)
    {
      hide Service, Perform, Bit, Modelled, Read;
      var nmi := nmiPending;
      nmiPending := false;
      if nmi {
        ServiceInterrupt(0xFFFA);
      } else if irqLine && !Bit(p, FLAG_I) {
        ServiceInterrupt(0xFFFE);
      } else {
        var opcode := FetchByte();
        Dispatch(opcode);
      }
    }

    /** Copies the wrapper to RAM and points the NMI vector at it. */
    method InstallNmiWrapper(play: u16)
      requires Valid()
      modifies this`overlayActive, ram, overlay
      ensures Valid() && Installed(State(), play)
      ensures forall i :: 0 <= i < 0x800 && !(0x200 <= i < 0x20E) ==> ram[i] == old(ram[i])
      ensures overlay[2] == 0xFF && overlay[3] == 0x4F
      ensures overlay[4] == rest[0xFFFE] && overlay[5] == rest[0xFFFF]
    {
      var wrapper := Wrapper(play);
      for i := 0 to 14
        invariant Valid() && ram[0x200..0x200 + i] == wrapper[..i]
        invariant forall k :: 0 <= k < 0x800 && !(0x200 <= k < 0x20E) ==> ram[k] == old(ram[k])
      {
        ram[0x200 + i] := wrapper[i];
      }
      overlay[0], overlay[1] := WRAPPER_ADDR % 0x100, WRAPPER_ADDR / 0x100;
      overlay[2], overlay[3] := STOP_SENTINEL % 0x100, STOP_SENTINEL / 0x100;
      overlay[4], overlay[5] := rest[0xFFFE], rest[0xFFFF];
      overlayActive := true;
    }
  }

  lemma PushWordIgnoresPc(c: Cpu, d: Cpu, w: u16)
    requires c == d.(pc := c.pc)
    ensures PushWord(c, w) == PushWord(d, w).(pc := c.pc)
  {
  }

  lemma FlagsSetOnce(p: u8, v: u8)
    ensures var q := WithFlag(WithFlag(p, FLAG_Z, false), FLAG_N, false);
            var r := if v == 0 then WithFlag(q, FLAG_Z, true) else q;
            (if v >= 0x80 then WithFlag(r, FLAG_N, true) else r) == ZeroNegative(p, v)
  {
  }
}
