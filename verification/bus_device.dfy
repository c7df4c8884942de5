/** The bus object of src/bus.rs:280-369 and 729-1136: its loops and its in-place
    updates, proved against the cycle-exact engine. */
module BusObject {
  import opened Words
  import opened IrqTimer
  import opened DeltaModulation
  import opened FrameSequencer
  import opened FrameCounter
  import opened ExpansionChips
  import opened Apu2A03
  import opened ApuObject
  import opened DmaEngine
  import opened DmaCycles
  import opened DmaOwnership
  import opened DmaFastPath
  import opened SongReset
  import opened CpuPatterns
  import opened CpuRuns

  class NesBus {
    const apu: Apu2A03Device
    const timer: Nsf2IrqTimer
    var cycles: nat
    var pendingDmaStall: u32
    var dmcDma: Option<Scheduled>
    var oamHaltFrom: Option<nat>
    var dmcLoadHaltFrom: Option<nat>
    var mem: Memory
    var inInstruction: bool
    var instrWriteCalls: nat
    var oamTriggerCall: Option<nat>
    var deferredWrites: seq<(nat, u16, u8)>

    ghost function Objects(): set<object> {
      {this, timer} + apu.Objects()
    }

    ghost predicate Valid()
      reads apu.expansion.n163
    {
      apu.Valid() && {this, timer} !! apu.Objects()
    }

    /** The machine state, apart from the recording of the current instruction. */
    ghost function State(): Machine
      reads apu.expansion.n163, Objects()
      requires Valid()
    {
      Machine(apu.State(), timer.State(), cycles, pendingDmaStall, dmcDma, oamHaltFrom, dmcLoadHaltFrom, mem)
    }

    constructor (memory: Memory)
      ensures Valid() && fresh(Objects()) && Full(State()) && State().stall == 0
      ensures State().apu.seqr.acc == 0 && State().apu.seqr.step == 0 && State().apu.seqr.delay.None?
    {
      hide Full, Expansion.State, Apu2A03Device.UnitState;
      apu := new Apu2A03Device();
      timer := new Nsf2IrqTimer();
      cycles, pendingDmaStall, dmcDma, oamHaltFrom, dmcLoadHaltFrom := 0, 0, None, None, None;
      mem, inInstruction, instrWriteCalls, oamTriggerCall, deferredWrites := memory, false, 0, None, [];
      new;
      PowerUp(State(), false);
    }

    /** The region, set before the first cycle. */
    method SetCpuHz(hz: nat)
      requires Valid() && Full(State())
      requires State().apu.seqr.acc == 0 && State().apu.seqr.step == 0 && State().apu.seqr.delay.None?
      modifies apu`pal, apu.dmc, apu.noise
      ensures Valid() && Full(State()) && State() == SetPal(old(State()), hz < 1_700_000)
    {
      hide Full, ApuSetPal, Apu2A03Device.State, Nsf2IrqTimer.State;
      SetPalKeepsFull(State(), hz < 1_700_000);
      apu.SetCpuHz(hz);
    }

    /** The scrub before every INIT; `memory` is the view with RAM cleared and the
        program reloaded. */
    method ResetForTune(memory: Memory)
      requires Valid() && Full(State())
      modifies Objects()
      ensures Valid() && Full(State()) && State() == SongReset.ResetForTune(old(State()), memory)
    {
      hide Full, Base, DmaEngine.ApplyWrite, NesBus.State;
      ghost var m := State();
      FullIsBase(m);
      ResetKeepsFull(m, memory);
      for i := 0 to 20
        invariant Valid() && State() == Zeroed(m, i)
      {
        ZeroedKeeps(m, i);
        WriteDirect(0x4000 + i, 0);
      }
      ZeroedKeeps(m, 20);
      WriteDirect(0x4015, 0);
      WriteDirect(0x4015, 0x0F);
      WriteDirect(0x4017, 0x40);
      LoadMemory(memory);
    }

    method LoadMemory(memory: Memory)
      requires Valid()
      modifies this`mem
      ensures Valid() && State() == old(State()).(mem := memory)
    {
      hide Apu2A03Device.State, Nsf2IrqTimer.State;
      mem := memory;
    }

    method TakeNewFetch(e: nat)
      requires Valid()
      modifies this`dmcDma, this`dmcLoadHaltFrom, apu.dmc
      ensures Valid() && State() == ObserveFetch(old(State()), e)
    {
      hide Expansion.State, Apu2A03Device.UnitState, Apu2A03Device.SeqState, Nsf2IrqTimer.State, FirstGet, FirstPut;
      var fetch := apu.dmc.TakeFetch();
      if fetch.Some? {
        var (addr, isLoad) := fetch.value;
        if isLoad {
          var hf := if dmcLoadHaltFrom.Some? then dmcLoadHaltFrom.value else FirstGet(e + 3);
          dmcLoadHaltFrom := None;
          dmcDma := Some(Scheduled(addr, Load, Max(hf, FirstGet(e)), false));
        } else {
          dmcDma := Some(Scheduled(addr, Reload, FirstPut(e + 1), false));
        }
      }
    }

    method TakeStop(e: nat)
      requires Valid()
      modifies this`dmcDma, apu.dmc
      ensures Valid() && State() == ObserveStop(old(State()), e)
    {
      hide Expansion.State, Apu2A03Device.UnitState;
      var stopped := apu.dmc.TakeImplicitStop();
      if stopped && !apu.pal && dmcDma.None? {
        dmcDma := Some(if e % 2 == 0 then Scheduled(apu.dmc.fetch.lastAddr, Unexpected, e + 1, false)
                       else Scheduled(0, Aborted, e + 2, false));
      }
    }

    /** Picks up what the channel did on the cycle just ticked. */
    method ObserveDmcEvents()
      requires Valid() && cycles > 0
      modifies this`dmcDma, this`dmcLoadHaltFrom, apu.dmc
      ensures Valid() && State() == Observe(old(State()), cycles - 1)
    {
      hide ObserveFetch, ObserveStop, NesBus.State;
      TakeNewFetch(cycles - 1);
      TakeStop(cycles - 1);
    }

    method ExactCycle()
      requires Valid()
      modifies Objects()
      ensures Valid() && State() == BusTick(old(State()))
    {
      hide ApuTick, TimerTick, Observe, Batch, Apu2A03Device.State, Nsf2IrqTimer.State;
      apu.TickCpuCycles(1);
      timer.Tick(1);
      cycles := cycles + 1;
      ObserveDmcEvents();
    }

    method ChunkCycles(k: nat)
      requires Valid() && k > 0
      modifies Objects()
      ensures Valid()
      ensures State() == old(State()).(apu := Batch(old(State()).apu, k),
                                       timer := Iterate(TimerTick, old(State()).timer, k), cycles := old(cycles) + k)
    {
      hide ApuTick, TimerTick, Batch, Apu2A03Device.State, Nsf2IrqTimer.State;
      apu.TickCpuCycles(k);
      timer.Tick(k);
      cycles := cycles + k;
    }

    /** One turn of the loop below: a single observed cycle, or a chunk of up to eight. */
    method TickSome(rem: nat) returns (k: nat)
      requires Valid() && rem > 0
      modifies Objects()
      ensures Valid() && 0 < k <= rem
      ensures DmaEngine.TickMachine(State(), rem - k) == DmaEngine.TickMachine(old(State()), rem)
    {
      hide BusTick, Batch, TimerTick, Iterate;
      ghost var m := State();
      if apu.dmc.fetch.pending || apu.dmc.fetch.inFlight
         || (apu.dmc.enabled && (apu.dmc.reader.remaining > 0 || apu.dmc.filled)) {
        assert ActivityPossible(m.apu.dmc);
        k := 1;
        ExactCycle();
      } else {
        assert !ActivityPossible(m.apu.dmc);
        k := Min(rem, 8);
        ChunkCycles(k);
      }
    }

    /** Cycle-exact while DMC activity is possible, 8-cycle chunks otherwise; from every
        calm state that is `n` exact cycles. */
    method TickMachine(n: nat)
      requires Valid()
      modifies Objects()
      ensures Valid() && State() == DmaEngine.TickMachine(old(State()), n)
      ensures Calm(old(State()).apu.dmc) && (InTable(old(State()).apu.seqr) || n <= 1) ==>
                State() == Iterate(BusTick, old(State()), n)
    {
      hide BusTick, Batch, TimerTick, Calm, InTable, NesBus.State;
      ghost var goal := DmaEngine.TickMachine(State(), n);
      if Calm(State().apu.dmc) && (InTable(State().apu.seqr) || n <= 1) {
        TickMachineExact(State(), n);
      }
      var rem := n;
      while rem > 0
        invariant 0 <= rem && Valid()
        invariant DmaEngine.TickMachine(State(), rem) == goal
      {
        var k := TickSome(rem);
        rem := rem - k;
      }
    }

    /** `n` DMA-stolen cycles, accumulated for `TakeDmaStall`. */
    method StallTicks(n: nat)
      requires Valid() && Calm(State().apu.dmc) && (InTable(State().apu.seqr) || n <= 1)
      modifies Objects()
      ensures Valid() && State() == Stall(old(State()), n)
    {
      hide BusTick, Calm, InTable;
      pendingDmaStall := SatAdd(pendingDmaStall, n);
      TickMachine(n);
    }

    method TakeDmaStall() returns (stall: u32)
      requires Valid()
      modifies this`pendingDmaStall
      ensures Valid() && stall == old(State()).stall && State() == old(State()).(stall := 0)
    {
      hide Apu2A03Device.State, Nsf2IrqTimer.State;
      stall := pendingDmaStall;
      pendingDmaStall := 0;
    }

    method Read(addr: u16) returns (byte: u8)
      requires Valid()
      modifies Objects()
      ensures Valid() && byte == ReadByte(old(State()), addr) && State() == AfterRead(old(State()), addr)
    {
      hide StatusByte, AfterStatusRead, ChipsObserveRead;
      if addr == 0x4015 {
        byte := ReadApuStatus();
      } else if timer.enabled && 0x401B <= addr <= 0x401D {
        ObserveOutside(State().apu.chips, addr, mem[addr]);
        byte := ReadTimer(addr);
      } else {
        byte := mem[addr];
        ObserveRead(addr, byte);
      }
    }

    method ReadApuStatus() returns (byte: u8)
      requires Valid()
      modifies apu`frameIrqFlag
      ensures Valid() && byte == StatusByte(old(State()).apu)
      ensures State() == old(State()).(apu := AfterStatusRead(old(State()).apu))
    {
      hide StatusByte, AfterStatusRead, Apu2A03Device.State, Nsf2IrqTimer.State;
      byte := apu.ReadStatus();
    }

    method ReadTimer(addr: u16) returns (byte: u8)
      requires Valid() && timer.enabled && 0x401B <= addr <= 0x401D
      modifies timer`irqFlag
      ensures Valid() && byte == ReadByte(old(State()), addr)
      ensures State() == if addr == 0x401D then old(State()).(timer := old(State()).timer.(irqFlag := false))
                         else old(State())
    {
      hide Apu2A03Device.State, StatusByte;
      var r := timer.Read(addr);
      byte := r.value;
    }

    method ObserveRead(addr: u16, byte: u8)
      requires Valid()
      modifies apu.expansion.mmc5
      ensures Valid()
      ensures State() == old(State()).(apu := old(State()).apu.(chips := ChipsObserveRead(old(State()).apu.chips, addr, byte)))
    {
      hide ChipsObserveRead, Expansion.State, Apu2A03Device.UnitState, Apu2A03Device.SeqState, DmcChannel.State;
      hide Nsf2IrqTimer.State;
      apu.expansion.ObserveRead(addr, byte);
    }

    /** The DMA's sample read, and the byte's way to the channel. */
    method CompleteDma(s: Scheduled)
      requires Valid()
      modifies Objects()
      ensures Valid() && State() == Deliver(old(State()), s)
    {
      hide ReadByte, AfterRead, DmcSupply, DmcSupplyUnexpected, NesBus.State;
      var byte := Read(s.addr);
      SupplyByte(s.kind, byte);
    }

    method SupplyByte(kind: DmaKind, byte: u8)
      requires Valid()
      modifies apu.dmc
      ensures Valid()
      ensures var d := old(State()).apu.dmc;
              State() == WithDmc(old(State()), if kind == Unexpected then DmcSupplyUnexpected(d, byte) else DmcSupply(d, byte))
    {
      hide DmcSupply, DmcSupplyUnexpected, Expansion.State, Apu2A03Device.UnitState, DmcChannel.State;
      hide Apu2A03Device.SeqState, Nsf2IrqTimer.State;
      if kind == Unexpected {
        apu.dmc.SupplyUnexpectedByte(byte);
      } else {
        apu.dmc.SupplyByte(byte);
      }
    }

    method CancelInFlight()
      requires Valid()
      modifies apu.dmc
      ensures Valid() && State() == WithDmc(old(State()), DmcCancel(old(State()).apu.dmc))
    {
      hide DmcCancel, Expansion.State, Apu2A03Device.UnitState, DmcChannel.State;
      hide Apu2A03Device.SeqState, Nsf2IrqTimer.State;
      apu.dmc.CancelInFlight();
    }

    /** Services a scheduled DMA whose halt lands on the current cycle boundary. */
    method ServiceDmcDma(readCycle: bool)
      requires Valid() && Base(State()) && (readCycle ==> Full(State()))
      modifies Objects()
      ensures Valid() && State() == Service(old(State()), readCycle) && Base(State())
    {
      hide BusTick, Deliver, Base, Full, DmcCancel, Stall, Calm, Apu2A03Device.State, Nsf2IrqTimer.State;
      ServiceKeeps(State(), readCycle);
      if dmcDma.None? || !(cycles >= dmcDma.value.haltFrom && (readCycle || dmcDma.value.kind == Aborted)) {
        return;
      }
      assert DueNow(State(), readCycle);
      ServiceCalm(State(), readCycle);
      var now := cycles;
      var s := TakeScheduled();
      if s.kind == Aborted {
        if now == s.haltFrom && readCycle {
          StallTicks(1);
        }
        CancelInFlight();
      } else {
        StallTicks(if now % 2 == 0 then 3 else 4);
        CompleteDma(s);
      }
    }

    /** One exact cycle from any moment of an instruction-driven run. */
    method OneTick()
      requires Valid() && Calm(State().apu.dmc)
      modifies Objects()
      ensures Valid() && State() == BusTick(old(State())) && Calm(State().apu.dmc)
      ensures old(Base(State())) ==> Full(State())
    {
      hide BusTick, Calm, InTable, Base, Full, NesBus.State;
      ghost var m := State();
      CalmTick(m);
      if Base(m) {
        TickKeeps(m);
      }
      assert Iterate(BusTick, m, 0) == m && Iterate(BusTick, m, 1) == BusTick(m);
      TickMachine(1);
    }

    /** The halt, dummy and alignment cycles of a fetch inside the window overlap up
        to three of the window's own. */
    method OverlapThree(remaining: nat) returns (left: nat)
      requires Valid() && Calm(State().apu.dmc) && remaining > 0
      modifies Objects()
      ensures Valid() && State() == Iterate(BusTick, old(State()), 3) && left == Max(remaining - 3, 0)
    {
      hide BusTick, Calm, Base, Full, NesBus.State;
      ThreeTicks(State());
      OneTick();
      left := remaining - 1;
      OneTick();
      left := Max(left - 1, 0);
      OneTick();
      left := Max(left - 1, 0);
    }

    /** Takes the scheduled DMA out of its slot. */
    method TakeScheduled() returns (s: Scheduled)
      requires Valid() && State().dma.Some?
      modifies this`dmcDma
      ensures Valid() && old(State()).dma == Some(s) && State() == old(State()).(dma := None)
    {
      hide Apu2A03Device.State, Nsf2IrqTimer.State;
      s := dmcDma.value;
      dmcDma := None;
    }

    method ServeInWindow(remaining: nat) returns (left: nat)
      requires Valid() && Full(State()) && OamServes(State()) && State().dma.Some? && remaining > 0
      modifies Objects()
      ensures Valid() && left == Max(remaining - 3, 0)
      ensures State() == OamServe(old(State()), left) && Full(State())
    {
      hide BusTick, Calm, Base, Full, Deliver, OamServes, NesBus.State;
      ServeCalm(State());
      OamServeKeeps(State(), Max(remaining - 3, 0));
      var s := TakeScheduled();
      left := OverlapThree(remaining);
      CompleteDma(s);
      OneTick();
      if left > 0 {
        OneTick();
      }
    }

    /** The halt cycle, and the alignment cycle of a get-half halt. */
    method OpenWindow()
      requires Valid() && Base(State())
      modifies Objects()
      ensures Valid() && State() == OamStart(old(State())) && Full(State())
    {
      hide BusTick, Calm, Base, Full;
      BaseIsCalm(State());
      TwoTicks(State());
      var start := cycles;
      OneTick();
      if start % 2 == 0 {
        FullIsBase(State());
        OneTick();
      }
    }

    /** A window cycle that serves no fetch. */
    method QuietWindowTick()
      requires Valid() && Full(State())
      modifies Objects()
      ensures Valid() && State() == BusTick(old(State())) && Full(State())
    {
      hide BusTick, Calm, Base, Full, NesBus.State;
      FullIsBase(State());
      BaseIsCalm(State());
      OneTick();
    }

    method GetsAndPuts()
      requires Valid() && Full(State())
      modifies Objects()
      ensures Valid() && State() == OamLoop(old(State()), 512) && Full(State())
    {
      hide BusTick, Base, Full, OamServe;
      ghost var goal := OamLoop(State(), 512);
      var remaining := 512;
      while remaining > 0
        invariant 0 <= remaining && Valid() && Full(State())
        invariant OamLoop(State(), remaining) == goal
      {
        if dmcDma.Some? && dmcDma.value.kind != Aborted && cycles >= dmcDma.value.haltFrom && cycles % 2 == 1 {
          assert OamServes(State());
          remaining := ServeInWindow(remaining);
        } else {
          assert !OamServes(State());
          QuietWindowTick();
          remaining := remaining - 1;
        }
      }
    }

    /** The $4014 window, entered on its halt cycle. */
    method RunOamWindow()
      requires Valid() && Base(State())
      modifies Objects()
      ensures Valid() && State() == OamWindow(old(State())) && Full(State())
    {
      hide BusTick, Base, Full, OamStart, OamLoop, Apu2A03Device.State, Nsf2IrqTimer.State;
      OamWindowKeeps(State());
      OamLonger(State());
      var start := cycles;
      OpenWindow();
      GetsAndPuts();
      pendingDmaStall := SatAdd(pendingDmaStall, cycles - start);
    }

    // --------------------------------------------------------------- writes

    /** The $4015 D4 stop rules against a scheduled DMA. */
    method StopScheduled()
      requires Valid()
      modifies this`dmcDma, apu.dmc
      ensures Valid() && State() == StopDma(old(State()))
    {
      hide DmcCancel, Expansion.State, Apu2A03Device.UnitState, DmcChannel.State, Apu2A03Device.SeqState;
      hide Nsf2IrqTimer.State;
      if dmcDma.Some? && dmcDma.value.kind == Reload {
        if cycles / 2 + 1 >= dmcDma.value.haltFrom / 2 {
          dmcDma := Some(dmcDma.value.(kind := Aborted, byProgram := true));
        } else {
          dmcDma := None;
          apu.dmc.CancelInFlight();
        }
      } else if dmcDma.Some? && dmcDma.value.kind == Load {
        dmcDma := None;
        apu.dmc.CancelInFlight();
      }
    }

    method SetDmcEnabled(on: bool, haltFrom: Option<nat>)
      requires Valid()
      modifies this`dmcLoadHaltFrom, apu.dmc
      ensures Valid()
      ensures State() == WithDmc(old(State()), DmcEnable(old(State()).apu.dmc, on)).(loadHaltFrom := haltFrom)
    {
      hide DmcEnable, Expansion.State, Apu2A03Device.UnitState, DmcChannel.State, Apu2A03Device.SeqState;
      hide Nsf2IrqTimer.State;
      apu.dmc.Enable(on);
      dmcLoadHaltFrom := haltFrom;
    }

    method ApplyDmcEnable(on: bool)
      requires Valid()
      modifies this`dmcDma, this`dmcLoadHaltFrom, apu.dmc
      ensures Valid() && State() == DmaEngine.ApplyDmcEnable(old(State()), on)
    {
      hide DmcEnable, StopDma;
      if on {
        SetDmcEnabled(true, Some(FirstGet(cycles + 3)));
      } else {
        StopScheduled();
        SetDmcEnabled(false, None);
      }
    }

    method WriteStatusRegister(value: u8)
      requires Valid()
      modifies apu.pulse1, apu.pulse2, apu.triangle, apu.noise, apu.dmc
      ensures Valid() && State() == old(State()).(apu := WriteStatus(old(State()).apu, value))
    {
      hide WriteStatus, Apu2A03Device.State, Nsf2IrqTimer.State;
      apu.WriteStatusExceptDmcEnable(value);
    }

    method WriteApuRegister(addr: u16, value: u8)
      requires Valid()
      modifies apu.Objects()
      ensures Valid()
      ensures State() == old(State()).(
        apu := if addr == 0x4017 then
                 var a := old(State()).apu;
                 a.(seqr := FrameSequencer.WriteFrameCounter(a.seqr, value, a.totalCycles))
               else ApuWriteRegister(old(State()).apu, addr, value))
    {
      hide ApuWriteRegister, FrameSequencer.WriteFrameCounter, Nsf2IrqTimer.State, Apu2A03Device.UnitState;
      hide Expansion.State, DmcChannel.State;
      if addr == 0x4017 {
        apu.WriteFrameCounter(value);
      } else {
        apu.WriteRegister(addr, value);
      }
    }

    method WriteTimer(addr: u16, value: u8)
      requires Valid()
      modifies timer
      ensures Valid() && State() == old(State()).(timer := TimerWrite(old(State()).timer, addr, value))
    {
      hide TimerWrite, Apu2A03Device.State, Nsf2IrqTimer.State;
      timer.Write(addr, value);
    }

    /** A time-sensitive register write at the current cycle. */
    method ApplyRegister(addr: u16, value: u8)
      requires Valid()
      modifies Objects()
      ensures Valid() && State() == DmaEngine.ApplyWrite(old(State()), addr, value)
    {
      hide ApuWriteRegister, FrameSequencer.WriteFrameCounter, TimerWrite, WriteStatus;
      hide DmaEngine.ApplyDmcEnable, NesBus.State;
      if 0x4000 <= addr <= 0x4013 || addr == 0x4017 {
        WriteApuRegister(addr, value);
      } else if addr == 0x4015 {
        WriteStatusRegister(value);
        ApplyDmcEnable(Bit(value, 0x10));
      } else if 0x401B <= addr <= 0x401D {
        WriteTimer(addr, value);
      }
    }

    /** A write outside any instruction takes effect at once; one of $4014 occupies the
        current cycle and its window starts on the next. */
    method WriteDirect(addr: u16, value: u8)
      requires Valid() && Base(State())
      modifies Objects()
      ensures Valid() && State() == DirectWrite(old(State()), addr, value) && Base(State())
    {
      hide DmaEngine.ApplyWrite, Base, Full, BusTick, OamWindow, Calm, NesBus.State;
      DirectWriteKeeps(State(), addr, value);
      if addr == 0x4014 {
        BaseIsCalm(State());
        OneTick();
        FullIsBase(State());
        RunOamWindow();
      } else if 0x4000 <= addr <= 0x4013 || addr == 0x4015 || addr == 0x4017 || 0x401B <= addr <= 0x401D {
        ApplyRegister(addr, value);
      } else {
        WriteMemory(addr, value);
      }
    }

    method WriteMemory(addr: u16, value: u8)
      requires Valid()
      modifies this`mem
      ensures Valid() && State() == old(State()).(mem := MemoryAfter(old(State()).mem, addr, value))
    {
      hide Apu2A03Device.State, Nsf2IrqTimer.State;
      mem := MemoryAfter(mem, addr, value);
    }

    // ----------------------------------------------------------------- walk

    /** The deferred writes of cycle `o`, in order. */
    method ApplyDeferredWrites(deferred: seq<(nat, u16, u8)>, o: nat)
      requires Valid()
      modifies Objects()
      ensures Valid() && State() == ApplyDeferred(old(State()), deferred, o)
    {
      hide DmaEngine.ApplyWrite, NesBus.State;
      ghost var m := State();
      for i := 0 to |deferred|
        invariant Valid() && State() == ApplyDeferred(m, deferred[..i], o)
      {
        assert deferred[..i + 1][..i] == deferred[..i];
        var (off, addr, value) := deferred[i];
        if off == o {
          ApplyRegister(addr, value);
        }
      }
      assert deferred[..|deferred|] == deferred;
    }

    method Trigger(p: Pattern, o: nat)
      requires Valid()
      modifies this`oamHaltFrom
      ensures Valid() && State() == TriggerOam(old(State()), p, o)
    {
      hide Apu2A03Device.State, Nsf2IrqTimer.State;
      if p.oam == Some(o) {
        oamHaltFrom := Some(cycles + 1);
      }
    }

    /** An OAM halt lands on the first read cycle at or after its schedule point; the
        window may leave a DMC DMA scheduled right past its end. */
    method ServiceOamDma(readCycle: bool)
      requires Valid() && Base(State())
      modifies Objects()
      ensures Valid() && State() == ServiceOam(old(State()), readCycle) && Base(State())
    {
      hide Service, OamWindow, Base, Full, Apu2A03Device.State, Nsf2IrqTimer.State;
      ServiceOamKeeps(State(), readCycle);
      if oamHaltFrom.Some? && readCycle && cycles >= oamHaltFrom.value {
        assert OamHalts(State(), readCycle);
        ForgetOam(State());
        oamHaltFrom := None;
        RunOamWindow();
        FullIsBase(State());
        ServiceDmcDma(readCycle);
      }
    }

    /** Walks the cycles of one instruction, placing every register write, DMA halt and
        OAM window on its true cycle. */
    method WalkPattern(p: Pattern)
      requires Valid() && Full(State()) && WritesOnWriteCycles(p)
      modifies Objects()
      ensures Valid() && State() == Walk(old(State()), p, p.len) && Full(State())
    {
      hide WalkCycle, Full, NesBus.State, WritesOnWriteCycles;
      ghost var m := State();
      for o := 0 to p.len
        invariant Valid() && Full(State()) && State() == Walk(m, p, o)
      {
        WalkOne(p, o);
      }
    }

    method WalkOne(p: Pattern, o: nat)
      requires Valid() && Full(State()) && WritesOnWriteCycles(p)
      modifies Objects()
      ensures Valid() && State() == WalkCycle(old(State()), p, o) && Full(State())
    {
      hide BusTick, Service, ServiceOam, ApplyDeferred, TriggerOam, Base, Full, Calm, NesBus.State;
      ghost var m := State();
      FullIsBase(m);
      DeferredKeeps(m, p.deferred, o);
      TriggerKeeps(ApplyDeferred(m, p.deferred, o), p, o);
      var readCycle := !(o < |p.writes| && p.writes[o]);
      ApplyDeferredWrites(p.deferred, o);
      Trigger(p, o);
      ServiceDmcDma(readCycle);
      ServiceOamDma(readCycle);
      BaseIsCalm(State());
      OneTick();
    }

    // --------------------------------------------------------- instructions

    ghost function Recorded(): Recording
      reads apu.expansion.n163, Objects()
      requires Valid()
    {
      Recording(State(), instrWriteCalls, oamTriggerCall, deferredWrites)
    }

    method BeginInstruction()
      requires Valid()
      modifies this`inInstruction, this`instrWriteCalls, this`oamTriggerCall, this`deferredWrites
      ensures Valid() && inInstruction && Recorded() == Recording(old(State()), 0, None, [])
    {
      hide Apu2A03Device.State, Nsf2IrqTimer.State;
      inInstruction := true;
      instrWriteCalls := 0;
      oamTriggerCall := None;
      deferredWrites := [];
    }

    /** A CPU write: $4014 and the time-sensitive registers are kept for their true
        cycle, everything else is applied to memory at once. */
    method Write(addr: u16, value: u8)
      requires Valid() && inInstruction
      modifies this`instrWriteCalls, this`oamTriggerCall, this`deferredWrites, this`mem
      ensures Valid() && inInstruction
      ensures Recorded() == Record(Record(old(Recorded()), Access.Write(addr, value)),
                                   Remap(MemoryAfter(old(mem), addr, value)))
    {
      hide Apu2A03Device.State, Nsf2IrqTimer.State;
      instrWriteCalls := instrWriteCalls + 1;
      if addr == 0x4014 {
        oamTriggerCall := Some(instrWriteCalls - 1);
      } else if 0x4000 <= addr <= 0x4013 || addr == 0x4015 || addr == 0x4017 || 0x401B <= addr <= 0x401D {
        deferredWrites := deferredWrites + [(instrWriteCalls - 1, addr, value)];
      } else {
        mem := MemoryAfter(mem, addr, value);
      }
    }

    /** Advances machine time for one executed instruction. The n-th write of an
        instruction happened on the n-th write cycle of its mask, so the mask has a
        write cycle for every deferred write. */
    method RunInstruction(cycleCount: nat, writeMask: Mask)
      requires Valid() && Full(State())
      requires forall i :: 0 <= i < |deferredWrites| ==>
                 deferredWrites[i].0 < WritesBefore(writeMask, |writeMask|)
      modifies Objects()
      ensures Valid() && Full(State())
      ensures State() == Walk(old(State()), PatternOf(old(Recorded()), writeMask, cycleCount), cycleCount)
    {
      hide Full, Walk, NesBus.State;
      PatternLands(Recorded(), writeMask, cycleCount);
      var deferred := MapDeferred(deferredWrites, writeMask, cycleCount);
      var oam: Option<nat> := None;
      if oamTriggerCall.Some? {
        var off := NthWrite(writeMask, oamTriggerCall.value, cycleCount);
        oam := Some(off);
      }
      var p := Pattern(cycleCount, writeMask, oam, deferred);
      assert p == PatternOf(Recorded(), writeMask, cycleCount);
      ClearRecording();
      WalkPattern(p);
    }

    /** Each deferred write's call index becomes its cycle offset. */
    static method MapDeferred(writes: seq<(nat, u16, u8)>, mask: Mask, len: nat)
      returns (mapped: seq<(nat, u16, u8)>)
      ensures |mapped| == |writes|
      ensures forall i :: 0 <= i < |writes| ==>
                mapped[i] == (NthWriteOffset(mask, writes[i].0, len), writes[i].1, writes[i].2)
    {
      mapped := [];
      for i := 0 to |writes|
        invariant |mapped| == i
        invariant forall j :: 0 <= j < i ==>
                    mapped[j] == (NthWriteOffset(mask, writes[j].0, len), writes[j].1, writes[j].2)
      {
        var off := NthWrite(mask, writes[i].0, len);
        mapped := mapped + [(off, writes[i].1, writes[i].2)];
      }
    }

    method ClearRecording()
      requires Valid()
      modifies this`inInstruction, this`oamTriggerCall, this`deferredWrites
      ensures Valid() && State() == old(State())
    {
      hide Apu2A03Device.State, Nsf2IrqTimer.State;
      inInstruction := false;
      oamTriggerCall := None;
      deferredWrites := [];
    }

    /** The loop of `nth_write_offset`. */
    static method NthWrite(mask: Mask, n: nat, len: nat) returns (o: nat)
      ensures o == NthWriteOffset(mask, n, len)
    {
      var seen := 0;
      o := 0;
      while o < |mask|
        invariant 0 <= seen <= n && 0 <= o <= |mask|
        invariant FindWrite(mask, n - seen, len, o) == NthWriteOffset(mask, n, len)
      {
        if mask[o] {
          if seen == n {
            return o;
          }
          seen := seen + 1;
        }
        o := o + 1;
      }
      o := Max(len - 1, 0);
    }

    /** Idle CPU time: every cycle is a read. */
    method TickCycles(n: nat)
      requires Valid() && Full(State())
      modifies Objects()
      ensures Valid() && Full(State()) && State() == Walk(old(State()), Pattern(n, [], None, []), n)
    {
      hide Full, Walk;
      WalkPattern(Pattern(n, [], None, []));
    }
  }

  /** A memory-class write: the RAM with its mirrors, and the cartridge RAM. */
  function MemoryAfter(mem: Memory, addr: u16, value: u8): Memory {
    if addr < 0x2000 then
      var a := addr % 0x800;
      mem[a := value][a + 0x800 := value][a + 0x1000 := value][a + 0x1800 := value]
    else if 0x6000 <= addr <= 0x7FFF then mem[addr := value]
    else mem
  }

  function DirectWrite(m: Machine, addr: u16, value: u8): Machine {
    if addr == 0x4014 then OamWindow(BusTick(m))
    else if TimeSensitive(addr) then DmaEngine.ApplyWrite(m, addr, value)
    else m.(mem := MemoryAfter(m.mem, addr, value))
  }

  /** A host's write keeps the invariant, a direct OAM window included. */
  lemma DirectWriteKeeps(m: Machine, addr: u16, value: u8)
    requires Base(m)
    ensures Base(DirectWrite(m, addr, value))
  {
    hide DmaOk, Conserved, ParityOk, FrameCounter.PhaseOk, BusTick, OamWindow, DmaEngine.ApplyWrite;
    ApplyWriteKeeps(m, addr, value);
    TickKeeps(m);
    OamWindowKeeps(BusTick(m));
  }

  lemma ForgetOam(m: Machine)
    requires Base(m)
    ensures Base(m.(oamHaltFrom := None))
  {
    hide DmaOk, Conserved, ParityOk, FrameCounter.PhaseOk;
  }

  lemma PatternLands(r: Recording, mask: Mask, cycles: nat)
    requires forall i :: 0 <= i < |r.deferred| ==> r.deferred[i].0 < WritesBefore(mask, |mask|)
    ensures WritesOnWriteCycles(PatternOf(r, mask, cycles))
  {
    var p := PatternOf(r, mask, cycles);
    forall i | 0 <= i < |p.deferred|
      ensures IsWriteCycle(p, p.deferred[i].0)
    {
      NthWriteIsNth(mask, r.deferred[i].0, cycles);
    }
  }

  lemma OamLonger(m: Machine)
    ensures OamLoop(OamStart(m), 512).cycles >= m.cycles
  {
    hide BusTick, OamServe, OamLoop, Serviced, TotalCost;
    TicksLine(m, if m.cycles % 2 == 0 then 2 else 1);
    OamLoopLength(OamStart(m), 512);
  }

  lemma TwoTicks(m: Machine)
    ensures Iterate(BusTick, m, 1) == BusTick(m) && Iterate(BusTick, m, 2) == BusTick(BusTick(m))
  {
    hide BusTick;
    assert Iterate(BusTick, m, 0) == m;
  }

  lemma ThreeTicks(m: Machine)
    ensures Iterate(BusTick, m, 3) == BusTick(BusTick(BusTick(m)))
  {
    hide BusTick;
    TwoTicks(m);
  }

  /** Every state inside a served fetch is calm. */
  lemma ServeCalm(m: Machine)
    requires Full(m) && OamServes(m) && m.dma.Some?
    ensures Calm(m.(dma := None).apu.dmc)
    ensures Calm(Deliver(Iterate(BusTick, m.(dma := None), 3), m.dma.value).apu.dmc)
  {
    hide BusTick, Deliver;
    HeldWhenDue(m);
    HeldTicks(m.(dma := None), 3);
    var d := Iterate(BusTick, m.(dma := None), 3);
    DeliverKeeps(d, m.dma.value);
    BaseIsCalm(Deliver(d, m.dma.value));
  }

  /** What the stalls of a service start from. */
  lemma ServiceCalm(m: Machine, readCycle: bool)
    requires Base(m) && (readCycle ==> Full(m))
    ensures Calm(m.(dma := None).apu.dmc) && (readCycle ==> InTable(m.(dma := None).apu.seqr))
  {
    BaseIsCalm(m);
  }

  lemma ObserveOutside(c: Chips, addr: u16, byte: u8)
    requires addr < 0x8000
    ensures ChipsObserveRead(c, addr, byte) == c
  {
  }

  /** RAM appears four times below $2000; a write shows at every mirror and nowhere else,
      cartridge RAM only at its own address, and nothing else is writable memory. */
  lemma Mirrors(mem: Memory, addr: u16, value: u8, at: u16)
    ensures MemoryAfter(mem, addr, value)[at]
         == if (addr < 0x2000 && at < 0x2000 && at % 0x800 == addr % 0x800) || (at == addr && 0x6000 <= addr <= 0x7FFF)
            then value else mem[at]
  {
  }
}
