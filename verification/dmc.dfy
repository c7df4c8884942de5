/** The delta modulation channel (src/apu.rs:609-867) and its handshake with the
    bus (src/apu.rs:1117-1172). `log` is a history of the memory reader: it is
    never read by the channel and exists to state what was fetched when. */
module DeltaModulation {
  import opened Words

  const DMC_RATE_NTSC: seq<u16> := [
    428, 380, 340, 320, 286, 254, 226, 214, 190, 160, 142, 128, 106, 84, 72, 54]

  const DMC_RATE_PAL: seq<u16> := [
    398, 354, 316, 298, 276, 236, 210, 198, 176, 148, 132, 118, 98, 78, 66, 50]

  datatype DmcEvent =
    | Restarted(seed: u16, length: u16)
    | Delivered(addr: u16, byte: u8, looping: bool, irqEnabled: bool, irqRaised: bool)
    | Stopped

  /** The output unit: a 7-bit level moved by one bit per timer expiry. */
  datatype Output = Output(dac: u7, shift: u8, bits: u8, silence: bool, timer: u16, period: u16)

  /** The memory reader's position in the current sample. */
  datatype Reader = Reader(addrSeed: u16, lenSeed: u16, addr: u16, remaining: u16, log: seq<DmcEvent>)

  /** The fetch handshake with the bus DMA engine. */
  datatype Fetch = Fetch(pending: bool, pendingAddr: u16, pendingIsLoad: bool, nextIsLoad: bool,
                         inFlight: bool, lastAddr: u16)

  datatype Dmc = Dmc(
    enabled: bool, irqEnable: bool, loopFlag: bool, rateIndex: u8, irqFlag: bool, implicitStop: bool,
    buffer: u8, filled: bool, out: Output, reader: Reader, fetch: Fetch)

  const DMC_RESET := Dmc(
    false, false, false, 0, false, false, 0, false,
    Output(0, 0, 8, true, 0, 0), Reader(0, 0, 0, 0, [Stopped]), Fetch(false, 0, false, false, false, 0))

  function RateFor(index: u8, pal: bool): u16 {
    if pal then DMC_RATE_PAL[index % 16] else DMC_RATE_NTSC[index % 16]
  }

  function DmcWriteControl(d: Dmc, value: u8, pal: bool): Dmc {
    d.(irqEnable := Bit(value, 0x80), loopFlag := Bit(value, 0x40), rateIndex := value % 16,
       out := d.out.(period := RateFor(value % 16, pal)), irqFlag := d.irqFlag && Bit(value, 0x80))
  }

  function DmcSetPal(d: Dmc, pal: bool): Dmc {
    d.(out := d.out.(period := RateFor(d.rateIndex, pal)))
  }

  function DmcWriteDac(d: Dmc, value: u8): Dmc {
    d.(out := d.out.(dac := value % 0x80))
  }

  /** `0xC000 | value << 6`. */
  function DmcWriteAddr(d: Dmc, value: u8): Dmc {
    d.(reader := d.reader.(addrSeed := 0xC000 + value * 0x40))
  }

  function DmcWriteLen(d: Dmc, value: u8): Dmc {
    d.(reader := d.reader.(lenSeed := value * 16 + 1))
  }

  function Restart(r: Reader): Reader {
    r.(addr := r.addrSeed, remaining := r.lenSeed, log := r.log + [Restarted(r.addrSeed, r.lenSeed)])
  }

  /** $4015 D4. */
  function DmcEnable(d: Dmc, on: bool): Dmc {
    if !on then
      d.(enabled := false, reader := d.reader.(remaining := 0, log := d.reader.log + [Stopped]),
         fetch := d.fetch.(nextIsLoad := false, pending := false))
    else if d.reader.remaining == 0 then
      d.(enabled := true, reader := Restart(d.reader),
         fetch := d.fetch.(nextIsLoad := d.fetch.nextIsLoad || (!d.filled && !d.fetch.pending)))
    else d.(enabled := true)
  }

  /** One output bit: the level moves by two unless that would leave 0..127. */
  function ShiftDac(o: Output): u7 {
    if o.silence then o.dac
    else if Bit(o.shift, 1) then if o.dac <= 125 then o.dac + 2 else o.dac
    else if o.dac >= 2 then o.dac - 2 else o.dac
  }

  /** Whether this bit is the last of its output cycle. */
  predicate CycleEnds(o: Output) {
    o.bits <= 1
  }

  function ShiftOneBit(d: Dmc): Dmc {
    var o := d.out.(dac := ShiftDac(d.out), shift := d.out.shift / 2);
    if !CycleEnds(d.out) then d.(out := o.(bits := d.out.bits - 1))
    else if !d.filled then d.(out := o.(bits := 8, silence := true))
    else d.(out := o.(bits := 8, silence := false, shift := d.buffer), filled := false,
            implicitStop := d.implicitStop || (d.reader.remaining == 0 && d.enabled))
  }

  function OutputUnit(d: Dmc): Dmc {
    if d.out.timer == 0 then ShiftOneBit(d.(out := d.out.(timer := Max(d.out.period - 1, 0))))
    else d.(out := d.out.(timer := d.out.timer - 1))
  }

  function ArmFetch(d: Dmc): Dmc {
    if !d.filled && d.reader.remaining > 0 && !d.fetch.pending && !d.fetch.inFlight
    then d.(fetch := d.fetch.(pending := true, pendingAddr := d.reader.addr,
                              pendingIsLoad := d.fetch.nextIsLoad, nextIsLoad := false))
    else d
  }

  /** One CPU cycle: output unit first, then the fetch-need check. */
  function DmcTick(d: Dmc): Dmc {
    ArmFetch(OutputUnit(d))
  }

  function NextAddr(addr: u16): u16 {
    if addr == 0xFFFF then 0x8000 else addr + 1
  }

  /** The byte of a completed load or reload DMA arrives. */
  function DmcSupply(d: Dmc, byte: u8): Dmc {
    var left := if d.reader.remaining > 0 then d.reader.remaining - 1 else 0;
    var irq := left == 0 && !d.loopFlag && d.irqEnable;
    var r := d.reader.(addr := NextAddr(d.reader.addr), remaining := left,
                       log := d.reader.log + [Delivered(d.reader.addr, byte, d.loopFlag, d.irqEnable, irq)]);
    d.(buffer := byte, filled := true, irqFlag := d.irqFlag || irq,
       fetch := d.fetch.(pending := false, inFlight := false),
       reader := if left == 0 && d.loopFlag then Restart(r) else r)
  }

  function DmcSupplyUnexpected(d: Dmc, byte: u8): Dmc {
    d.(buffer := byte, filled := true)
  }

  function DmcTakeFetch(d: Dmc): Dmc {
    if d.fetch.pending
    then d.(fetch := d.fetch.(pending := false, inFlight := true, lastAddr := d.fetch.pendingAddr))
    else d
  }

  function DmcTakeStop(d: Dmc): Dmc {
    d.(implicitStop := false)
  }

  function DmcCancel(d: Dmc): Dmc {
    d.(fetch := d.fetch.(inFlight := false, pending := false))
  }

  predicate ActivityPossible(d: Dmc) {
    d.fetch.pending || d.fetch.inFlight || (d.enabled && (d.reader.remaining > 0 || d.filled))
  }

  // ------------------------------------------------------ sample accounting

  /** The address of byte `k` of a sample: 16-bit, wrapping from $FFFF to $8000. */
  function AddrAt(seed: u16, k: nat): u16 {
    if k == 0 then seed else NextAddr(AddrAt(seed, k - 1))
  }

  lemma {:induction false} AddrAtClosedForm(seed: u16, k: nat)
    ensures seed >= 0x8000 ==> AddrAt(seed, k) == 0x8000 + (seed - 0x8000 + k) % 0x8000
    ensures seed + k < 0x1_0000 ==> AddrAt(seed, k) == seed + k
  {
    if k > 0 {
      AddrAtClosedForm(seed, k - 1);
    }
  }

  /** Position of the memory reader in the sample being fetched. */
  datatype Progress = Idle | Reading(seed: u16, length: u16, supplied: nat)

  function ProgressOf(log: seq<DmcEvent>): Progress {
    if log == [] then Idle
    else match log[|log| - 1]
      case Restarted(seed, length) => Reading(seed, length, 0)
      case Stopped => Idle
      case Delivered(_, _, _, _, _) =>
        match ProgressOf(log[..|log| - 1])
        case Idle => Idle
        case Reading(seed, length, supplied) => Reading(seed, length, supplied + 1)
  }

  /** Every delivered byte belongs to a running sample, comes from the next address
      of it and from no other, and raises the interrupt exactly when it is the last
      byte of a sample that does not loop and has its interrupt enabled. */
  predicate LogOk(log: seq<DmcEvent>) {
    log == [] ||
    var before := log[..|log| - 1];
    && LogOk(before)
    && match log[|log| - 1]
       case Delivered(addr, _, looping, irqEnabled, irqRaised) =>
         && ProgressOf(before).Reading?
         && var p := ProgressOf(before);
            && p.supplied < p.length
            && addr == AddrAt(p.seed, p.supplied)
            && (irqRaised <==> p.supplied + 1 == p.length && !looping && irqEnabled)
       case _ => true
  }

  /** A sample starts at 0 or at $C000 and above and has at most 4081 bytes, so it is
      read from RAM or from $8000 up, and never from a register. */
  predicate SampleSpace(addr: u16) {
    addr >= 0x8000 || addr <= 0xFF1
  }

  predicate InSpace(r: Reader) {
    (r.addrSeed == 0 || r.addrSeed >= 0xC000) && r.lenSeed <= 0xFF1
    && (r.addr >= 0x8000 || r.addr + r.remaining <= 0xFF1)
  }

  /** Bytes supplied plus bytes remaining is the latched length, and the current
      address is that of the next byte. */
  predicate Conserved(r: Reader) {
    && LogOk(r.log) && InSpace(r)
    && match ProgressOf(r.log)
       case Idle => r.remaining == 0
       case Reading(seed, length, supplied) =>
         supplied + r.remaining == length && r.addr == AddrAt(seed, supplied)
  }

  lemma LogStep(log: seq<DmcEvent>, e: DmcEvent)
    ensures (log + [e])[..|log + [e]| - 1] == log
    ensures (log + [e])[|log + [e]| - 1] == e
  {
  }

  lemma RestartConserves(r: Reader)
    requires LogOk(r.log) && InSpace(r)
    ensures Conserved(Restart(r))
  {
    LogStep(r.log, Restarted(r.addrSeed, r.lenSeed));
  }

  /** A delivery keeps the account, logs the byte at the sample's next address, and sets
      the interrupt flag exactly for the last byte of a sample that does not loop and
      has its interrupt enabled. */
  lemma SupplyConserves(d: Dmc, byte: u8)
    requires Conserved(d.reader) && d.reader.remaining > 0
    ensures Conserved(DmcSupply(d, byte).reader)
    ensures var t := DmcSupply(d, byte);
            var p := ProgressOf(d.reader.log);
            && p.Reading? && d.reader.addr == AddrAt(p.seed, p.supplied)
            && (t.irqFlag <==> d.irqFlag || (p.supplied + 1 == p.length && !d.loopFlag && d.irqEnable))
  {
    var left := d.reader.remaining - 1;
    var e := Delivered(d.reader.addr, byte, d.loopFlag, d.irqEnable, left == 0 && !d.loopFlag && d.irqEnable);
    LogStep(d.reader.log, e);
    var r := d.reader.(addr := NextAddr(d.reader.addr), remaining := left, log := d.reader.log + [e]);
    assert Conserved(r);
    RestartConserves(r);
  }

  /** Enabling and disabling keep the account: only a finished sample restarts, from
      the seeds and with nothing supplied; a running one goes on where it was; and
      disabling ends it. Neither touches the interrupt flag. */
  lemma EnableConserves(d: Dmc, on: bool)
    requires Conserved(d.reader)
    ensures Conserved(DmcEnable(d, on).reader)
    ensures var t := DmcEnable(d, on);
            && t.irqFlag == d.irqFlag
            && (on && d.reader.remaining > 0 ==> t.reader == d.reader)
            && (on && d.reader.remaining == 0 ==> ProgressOf(t.reader.log) == Reading(d.reader.addrSeed, d.reader.lenSeed, 0))
            && (!on ==> t.reader.remaining == 0 && ProgressOf(t.reader.log) == Idle)
  {
    LogStep(d.reader.log, Stopped);
    RestartConserves(d.reader);
  }

  /** New seeds from $4012 and $4013 do not disturb the running sample. */
  lemma SeedsConserve(r: Reader, value: u8)
    requires Conserved(r)
    ensures Conserved(r.(addrSeed := 0xC000 + value * 0x40)) && Conserved(r.(lenSeed := value * 16 + 1))
  {
  }

  /** What a clock of the output unit leaves alone, and when it ends a sample. */
  predicate KeepsReader(d: Dmc, t: Dmc) {
    && t.reader == d.reader && t.enabled == d.enabled && t.loopFlag == d.loopFlag
    && t.irqEnable == d.irqEnable && t.irqFlag == d.irqFlag && t.buffer == d.buffer
    && (t.filled ==> d.filled)
    && (t.implicitStop <==> d.implicitStop || (d.filled && !t.filled && d.reader.remaining == 0 && d.enabled))
  }

  lemma OutputUnitKeepsReader(d: Dmc)
    ensures KeepsReader(d, OutputUnit(d)) && OutputUnit(d).fetch == d.fetch
  {
    hide ShiftDac;
  }

  /** The channel's own clock touches neither the reader nor a fetch in flight; it
      arms a fetch exactly when the buffer is empty, bytes remain and none is due. */
  lemma TickKeepsReader(d: Dmc)
    ensures var t := DmcTick(d);
            && KeepsReader(d, t)
            && t.fetch.inFlight == d.fetch.inFlight && t.fetch.lastAddr == d.fetch.lastAddr
            && (t.fetch.pending <==>
                  d.fetch.pending || (!t.filled && d.reader.remaining > 0 && !d.fetch.inFlight))
            && (t.fetch.pending && !d.fetch.pending ==>
                  && t.fetch.pendingAddr == d.reader.addr && t.fetch.pendingIsLoad == d.fetch.nextIsLoad
                  && !t.fetch.nextIsLoad)
            && (t.fetch.pending == d.fetch.pending ==> t.fetch == d.fetch)
  {
    hide OutputUnit;
    OutputUnitKeepsReader(d);
  }

  // ------------------------------------------------------------- the object

  class DmcChannel {
    var enabled: bool
    var irqEnable: bool
    var loopFlag: bool
    var rateIndex: u8
    var irqFlag: bool
    var implicitStop: bool
    var buffer: u8
    var filled: bool
    var out: Output
    var reader: Reader
    var fetch: Fetch

    ghost function State(): Dmc
      reads this
    {
      Dmc(enabled, irqEnable, loopFlag, rateIndex, irqFlag, implicitStop, buffer, filled, out, reader, fetch)
    }

    constructor ()
      ensures State() == DMC_RESET
    {
      enabled, irqEnable, loopFlag, rateIndex, irqFlag, implicitStop := false, false, false, 0, false, false;
      buffer, filled, out := 0, false, Output(0, 0, 8, true, 0, 0);
      reader, fetch := Reader(0, 0, 0, 0, [Stopped]), Fetch(false, 0, false, false, false, 0);
    }

    method WriteControl(value: u8, pal: bool)
      modifies this
      ensures State() == DmcWriteControl(old(State()), value, pal)
    {
      irqEnable := Bit(value, 0x80);
      loopFlag := Bit(value, 0x40);
      rateIndex := value % 16;
      out := out.(period := RateFor(rateIndex, pal));
      if !irqEnable {
        irqFlag := false;
      }
    }

    method RefreshRate(pal: bool)
      modifies this`out
      ensures State() == DmcSetPal(old(State()), pal)
    {
      out := out.(period := RateFor(rateIndex, pal));
    }

    method WriteDac(value: u8)
      modifies this
      ensures State() == DmcWriteDac(old(State()), value)
    {
      out := out.(dac := value % 0x80);
    }

    method WriteAddr(value: u8)
      modifies this
      ensures State() == DmcWriteAddr(old(State()), value)
    {
      reader := reader.(addrSeed := 0xC000 + value * 0x40);
    }

    method WriteLen(value: u8)
      modifies this
      ensures State() == DmcWriteLen(old(State()), value)
    {
      reader := reader.(lenSeed := value * 16 + 1);
    }

    method Enable(on: bool)
      modifies this
      ensures State() == DmcEnable(old(State()), on)
    {
      enabled := on;
      if !on {
        reader := reader.(remaining := 0, log := reader.log + [Stopped]);
        fetch := fetch.(nextIsLoad := false, pending := false);
      } else if reader.remaining == 0 {
        reader := Restart(reader);
        if !filled && !fetch.pending {
          fetch := fetch.(nextIsLoad := true);
        }
      }
    }

    /** The level moves by two, unless silenced or about to leave 0..127. */
    method MoveLevel()
      modifies this`out
      ensures out == old(out).(dac := ShiftDac(old(out)))
    {
      if !out.silence {
        var bitSet := Bit(out.shift, 1);
        if bitSet && out.dac <= 125 {
          out := out.(dac := out.dac + 2);
        } else if !bitSet && out.dac >= 2 {
          out := out.(dac := out.dac - 2);
        }
      }
    }

    method ShiftBit()
      modifies this
      ensures State() == ShiftOneBit(old(State()))
    {
      hide ShiftDac;
      MoveLevel();
      out := out.(shift := out.shift / 2);
      if out.bits > 0 {
        out := out.(bits := out.bits - 1);
      }
      if out.bits == 0 {
        out := out.(bits := 8);
        if !filled {
          out := out.(silence := true);
        } else {
          out := out.(silence := false, shift := buffer);
          filled := false;
          if reader.remaining == 0 && enabled {
            implicitStop := true;
          }
        }
      }
    }

    method ClockOutput()
      modifies this
      ensures State() == OutputUnit(old(State()))
    {
      hide ShiftOneBit;
      if out.timer == 0 {
        out := out.(timer := Max(out.period - 1, 0));
        ShiftBit();
      } else {
        out := out.(timer := out.timer - 1);
      }
    }

    method TickOne()
      modifies this
      ensures State() == DmcTick(old(State()))
    {
      hide OutputUnit;
      ClockOutput();
      if !filled && reader.remaining > 0 && !fetch.pending && !fetch.inFlight {
        fetch := fetch.(pending := true, pendingAddr := reader.addr,
                        pendingIsLoad := fetch.nextIsLoad, nextIsLoad := false);
      }
    }

    method Tick(cycles: nat)
      modifies this
      ensures State() == Iterate(DmcTick, old(State()), cycles)
    {
      hide DmcTick;
      for i := 0 to cycles
        invariant State() == Iterate(DmcTick, old(State()), i)
      {
        TickOne();
      }
    }

    method SupplyByte(byte: u8)
      modifies this
      ensures State() == DmcSupply(old(State()), byte)
    {
      fetch := fetch.(pending := false, inFlight := false);
      buffer := byte;
      filled := true;
      var left := if reader.remaining > 0 then reader.remaining - 1 else 0;
      var irq := left == 0 && !loopFlag && irqEnable;
      reader := reader.(addr := if reader.addr == 0xFFFF then 0x8000 else reader.addr + 1, remaining := left,
                        log := reader.log + [Delivered(reader.addr, byte, loopFlag, irqEnable, irq)]);
      if left == 0 {
        if loopFlag {
          reader := Restart(reader);
        } else if irqEnable {
          irqFlag := true;
        }
      }
    }

    method SupplyUnexpectedByte(byte: u8)
      modifies this
      ensures State() == DmcSupplyUnexpected(old(State()), byte)
    {
      buffer := byte;
      filled := true;
    }

    method TakeFetch() returns (taken: Option<(u16, bool)>)
      modifies this
      ensures State() == DmcTakeFetch(old(State()))
      ensures taken == if old(fetch.pending) then Some((fetch.pendingAddr, fetch.pendingIsLoad)) else None
    {
      if fetch.pending {
        fetch := fetch.(pending := false, inFlight := true, lastAddr := fetch.pendingAddr);
        taken := Some((fetch.pendingAddr, fetch.pendingIsLoad));
      } else {
        taken := None;
      }
    }

    method TakeImplicitStop() returns (stopped: bool)
      modifies this
      ensures State() == DmcTakeStop(old(State())) && stopped == old(implicitStop)
    {
      stopped := implicitStop;
      implicitStop := false;
    }

    method CancelInFlight()
      modifies this
      ensures State() == DmcCancel(old(State()))
    {
      fetch := fetch.(inFlight := false, pending := false);
    }
  }
}
