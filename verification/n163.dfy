/** The Namco 163 sound unit (src/expansion.rs:1135-1394). Its channels keep their
    phase inside the sound RAM the program also reads and writes. A held sample is
    the integer `(sample - 8) * volume`; the source scales it by 1/128. */
module Namco163 {
  import opened Words

  type Ram = s: seq<u8> | |s| == 0x80 witness seq(0x80, _ => 0)
  type Hold = s: seq<int> | |s| == 8 witness seq(8, _ => 0)
  type ActiveCount = x: int | 1 <= x <= 8 witness 1
  type Cycle15 = x: int | 0 <= x < 15

  datatype N163 = N163(
    enabled: bool, addr: u7, addrInc: bool, ram: Ram, channelsActive: ActiveCount,
    cycleAccum: Cycle15, nextSlot: nat, lastOutput: int, hold: Hold, soundDisabled: bool)

  /** The round-robin pointer stays inside the active set. */
  predicate SlotOk(s: N163) {
    s.nextSlot < s.channelsActive
  }

  function ChanBase(ch: nat): nat {
    0x40 + (ch - 1) * 8
  }

  /** Active channels are the highest ones: slot 0 is channel 9 - active. */
  function ActiveChannel(active: ActiveCount, slot: nat): nat
    requires slot < active
  {
    9 - active + slot
  }

  datatype Channel = Channel(freq: nat, phase: nat, waveLen: nat, waveAddr: u8, volume: nat)

  function Word24(lo: u8, mid: u8, hi: u8): nat {
    lo + mid * 0x100 + hi * 0x1_0000
  }

  function Decode(ram: Ram, ch: nat): (c: Channel)
    requires 1 <= ch <= 8
    ensures c.freq < 0x4_0000 && c.phase < 0x100_0000 && 4 <= c.waveLen <= 256
  {
    var b := ChanBase(ch);
    var lengthByte: int := ram[b + 4];
    Channel(Word24(ram[b], ram[b + 2], ram[b + 4] % 4), Word24(ram[b + 1], ram[b + 3], ram[b + 5]),
            256 - lengthByte / 4 * 4, ram[b + 6], ram[b + 7] % 16)
  }

  function Modulus(c: Channel): nat {
    c.waveLen * 0x1_0000
  }

  /** Phase of a channel after one update. */
  function Advance(c: Channel): nat {
    if Modulus(c) == 0 then 0 else (c.phase + c.freq) % Modulus(c)
  }

  function Nibble(ram: Ram, pos: nat): nat {
    var byte := ram[pos % 256 / 2];
    if pos % 2 == 0 then byte % 16 else byte / 16
  }

  function WithPhase(ram: Ram, ch: nat, phase: nat): Ram
    requires 1 <= ch <= 8
  {
    var b := ChanBase(ch);
    ram[b + 1 := phase % 0x100][b + 3 := phase / 0x100 % 0x100][b + 5 := phase / 0x1_0000 % 0x100]
  }

  /** One channel update: the 24-bit phase advances in the RAM itself. */
  function UpdateChannel(s: N163): N163 {
    if !SlotOk(s) then s
    else
      var ch := ActiveChannel(s.channelsActive, s.nextSlot);
      var c := Decode(s.ram, ch);
      var ram := WithPhase(s.ram, ch, Advance(c));
      var sample := (Nibble(ram, Advance(c) / 0x1_0000 + c.waveAddr) - 8) * c.volume;
      s.(ram := ram, hold := s.hold[ch - 1 := sample], lastOutput := sample,
         nextSlot := (s.nextSlot + 1) % s.channelsActive)
  }

  /** One CPU cycle: a channel update on every fifteenth. */
  function N163Tick(s: N163): N163 {
    if !s.enabled || s.soundDisabled then s
    else if s.cycleAccum + 1 >= 15 then UpdateChannel(s.(cycleAccum := 0))
    else s.(cycleAccum := s.cycleAccum + 1)
  }

  /** $E000-$E7FF, $F800-$FFFF and $4800-$4FFF. */
  function N163Write(s: N163, addr: u16, value: u8): N163 {
    if 0xE000 <= addr <= 0xE7FF then s.(soundDisabled := Bit(value, 0x40))
    else if 0xF800 <= addr then s.(addr := value % 0x80, addrInc := Bit(value, 0x80))
    else if 0x4800 <= addr <= 0x4FFF then
      var w := s.(ram := s.ram[s.addr := value],
                  addr := if s.addrInc && s.addr < 0x7F then s.addr + 1 else s.addr);
      if s.addr == 0x7F then
        var active := value / 16 % 8 + 1;
        w.(channelsActive := active, nextSlot := if s.nextSlot >= active then 0 else s.nextSlot)
      else w
    else s
  }

  lemma WriteKeepsSlotOk(s: N163, addr: u16, value: u8)
    requires SlotOk(s)
    ensures SlotOk(N163Write(s, addr, value)) && SlotOk(N163Tick(s))
  {
  }

  // ------------------------------------------------------------- sound RAM

  /** Eight bytes that set a channel up: frequency, phase, wave length in samples, wave
      address and volume, as a program lays them out. */
  predicate SetUp(bytes: seq<u8>, c: Channel) {
    && |bytes| == 8 && c.freq < 0x4_0000 && c.phase < 0x100_0000 && c.waveLen % 4 == 0 && 4 <= c.waveLen <= 0x100 && c.volume < 0x10
    && bytes[0] == c.freq % 0x100 && bytes[2] == c.freq / 0x100 % 0x100
    && bytes[4] == (0x100 - c.waveLen) + c.freq / 0x1_0000
    && bytes[1] == c.phase % 0x100 && bytes[3] == c.phase / 0x100 % 0x100 && bytes[5] == c.phase / 0x1_0000
    && bytes[6] == c.waveAddr && bytes[7] % 0x10 == c.volume
  }

  lemma ThreeBytes(x: nat)
    requires x < 0x100_0000
    ensures x % 0x100 + x / 0x100 % 0x100 * 0x100 + x / 0x1_0000 * 0x1_0000 == x
  {
    assert x / 0x100 / 0x100 == x / 0x1_0000;
  }

  /** Channel 1 lives at $40 of the sound RAM and each next one eight bytes on, up to
      channel 8 at $78; what is set up there is what the channel plays. */
  lemma SetUpDecodes(ram: Ram, ch: nat, c: Channel)
    requires 1 <= ch <= 8 && SetUp(ram[0x38 + 8 * ch..0x40 + 8 * ch], c)
    ensures Decode(ram, ch) == c
  {
    var bytes := ram[0x38 + 8 * ch..0x40 + 8 * ch];
    assert forall i :: 0 <= i < 8 ==> ram[ChanBase(ch) + i] == bytes[i];
    ThreeBytes(c.freq);
    ThreeBytes(c.phase);
    var top: int, high := bytes[4], c.freq / 0x1_0000;
    assert top == 4 * ((0x100 - c.waveLen) / 4) + high && 0 <= high < 4;
  }

  /** Samples packed two to a byte, the earlier one in the low half. */
  predicate Packed(ram: Ram, samples: seq<int>) {
    && |samples| == 0x100
    && forall i :: 0 <= i < 0x100 ==> 0 <= samples[i] < 0x10 && ram[i / 2] == samples[i / 2 * 2] + 0x10 * samples[i / 2 * 2 + 1]
  }

  lemma NibbleIs(ram: Ram, samples: seq<int>, pos: nat)
    requires Packed(ram, samples)
    ensures Nibble(ram, pos) == samples[pos % 0x100]
  {
    var k := pos % 0x100;
    PackedAt(ram, samples, k);
    assert pos % 2 == k % 2 && pos % 256 / 2 == k / 2;
    hide Packed;
  }

  lemma PackedAt(ram: Ram, samples: seq<int>, k: nat)
    requires Packed(ram, samples) && k < 0x100
    ensures var low, high := samples[k / 2 * 2], samples[k / 2 * 2 + 1];
            0 <= low < 0x10 && 0 <= high < 0x10 && ram[k / 2] == low + 0x10 * high
  {
  }

  /** What an update puts out: the sample at the whole part of the new phase from the
      wave address on, less 8, times the volume, held for that channel alone. */
  lemma UpdateHolds(s: N163, samples: seq<int>)
    requires SlotOk(s)
    ensures var r, ch := UpdateChannel(s), 9 - s.channelsActive + s.nextSlot;
            var c := Decode(s.ram, ch);
            Packed(r.ram, samples) ==>
            && r.lastOutput == (samples[(Advance(c) / 0x1_0000 + c.waveAddr) % 0x100] - 8) * c.volume
            && r.hold == s.hold[ch - 1 := r.lastOutput]
  {
    hide Decode, Nibble, WithPhase, Advance, Packed;
    var r, ch := UpdateChannel(s), 9 - s.channelsActive + s.nextSlot;
    var c := Decode(s.ram, ch);
    if Packed(r.ram, samples) {
      NibbleIs(r.ram, samples, Advance(c) / 0x1_0000 + c.waveAddr);
    }
  }

  /** A block written through the data port after its address. */
  function DataWrites(s: N163, values: seq<u8>): N163 {
    if values == [] then s else N163Write(DataWrites(s, values[..|values| - 1]), 0x4800, values[|values| - 1])
  }

  /** With auto-increment the bytes land one after the other from the address on, and the
      last byte of the RAM sets the number of active channels. */
  lemma {:induction false} DataPort(s: N163, address: u7, values: seq<u8>)
    requires address + |values| <= 0x80
    ensures var r := DataWrites(N163Write(s, 0xF800, address + 0x80), values);
            && r.ram == s.ram[..address] + values + s.ram[address + |values|..] && r.addrInc
            && r.addr == Min(address + |values|, 0x7F)
            && r.channelsActive == (if values != [] && address + |values| == 0x80 then values[|values| - 1] / 0x10 % 8 + 1
                                    else s.channelsActive)
  {
    if values != [] {
      var front, last := values[..|values| - 1], values[|values| - 1];
      DataPort(s, address, front);
      var t := DataWrites(N163Write(s, 0xF800, address + 0x80), front);
      assert t.ram[address + |front| := last] == s.ram[..address] + values + s.ram[address + |values|..];
    } else {
      assert s.ram == s.ram[..address] + [] + s.ram[address..];
    }
  }

  // ------------------------------------------------------------ closed form

  /** Channel `ch` as it stands after `k` updates, from its state before them. */
  function After(c: Channel, k: nat): Channel {
    if k == 0 then c else c.(phase := (c.phase + k * c.freq) % Max(Modulus(c), 1))
  }

  lemma BytesOf(x: nat)
    requires x < 0x100_0000
    ensures Word24(x % 0x100, x / 0x100 % 0x100, x / 0x1_0000 % 0x100) == x
  {
  }

  lemma AdvanceFits(c: Channel)
    requires 4 <= c.waveLen <= 256
    ensures Advance(c) < 0x100_0000 && Advance(c) == (c.phase + c.freq) % Modulus(c)
  {
  }

  /** Rewriting one channel's phase bytes changes its phase and nothing else that any
      channel decodes, and no byte outside the three. */
  lemma WithPhaseDecodes(ram: Ram, ch: nat, phase: nat, other: nat)
    requires 1 <= ch <= 8 && 1 <= other <= 8 && phase < 0x100_0000
    ensures Decode(WithPhase(ram, ch, phase), other)
         == if other == ch then Decode(ram, ch).(phase := phase) else Decode(ram, other)
    ensures var b := ChanBase(ch);
            forall i :: 0 <= i < 0x80 && i != b + 1 && i != b + 3 && i != b + 5 ==>
                          WithPhase(ram, ch, phase)[i] == ram[i]
  {
    BytesOf(phase);
  }

  lemma {:induction false} AfterStep(c: Channel, k: nat)
    requires 4 <= c.waveLen <= 256
    ensures After(c, k + 1) == After(c, k).(phase := Advance(After(c, k)))
  {
    var m := Modulus(c);
    AdvanceFits(After(c, k));
    assert (k + 1) * c.freq == k * c.freq + c.freq;
    if k > 0 {
      ModAdd(c.phase + k * c.freq, c.freq, m);
    }
  }

  /** How often channel `ch` is updated among `updates` updates that start at slot
      `start`: once for every one of them whose slot is the channel's. */
  function UpdatesOf(active: ActiveCount, ch: nat, start: nat, updates: nat): nat {
    if updates == 0 then 0
    else UpdatesOf(active, ch, start, updates - 1)
         + if ActiveChannel(active, (start + updates - 1) % active) == ch then 1 else 0
  }

  /** The residue of `x` is `i` exactly when `x` shifted by `m - 1 - i` ends a period. */
  lemma ShiftedResidue(x: nat, i: nat, m: nat)
    requires i < m
    ensures x % m == i <==> (x + (m - 1 - i)) % m == m - 1
  {
    var q, r := x / m, x % m;
    assert x == q * m + r;
    if r <= i {
      DivModUnique(x + (m - 1 - i), m, q, r + (m - 1 - i));
    } else {
      assert (q + 1) * m == q * m + m;
      DivModUnique(x + (m - 1 - i), m, q + 1, r - 1 - i);
    }
  }

  /** The count in closed form, from any starting slot; inactive channels are never
      updated. */
  lemma {:induction false} UpdatesClosedForm(active: ActiveCount, ch: nat, start: nat, updates: nat)
    requires start < active && 1 <= ch <= 8
    ensures UpdatesOf(active, ch, start, updates)
         == if ch < 9 - active then 0
            else var shift := start + (8 - ch); (shift + updates) / active - shift / active
  {
    if updates > 0 {
      UpdatesClosedForm(active, ch, start, updates - 1);
      if ch >= 9 - active {
        ShiftedResidue(start + updates - 1, ch - (9 - active), active);
        SuccMod(start + (8 - ch) + updates - 1, active);
      }
    }
  }

  /** A whole number of rounds updates every active channel that many times, whatever
      slot it starts from. */
  lemma WholeRounds(active: ActiveCount, ch: nat, start: nat, rounds: nat)
    requires start < active && 9 - active <= ch <= 8
    ensures UpdatesOf(active, ch, start, active * rounds) == rounds
  {
    hide UpdatesOf;
    UpdatesClosedForm(active, ch, start, active * rounds);
    DivPlus(start + (8 - ch), active, rounds);
  }

  /** The three phase bytes of an active channel. */
  predicate PhaseByte(active: ActiveCount, i: nat) {
    ChanBase(9 - active) <= i < 0x80 && (i % 8 == 1 || i % 8 == 3 || i % 8 == 5)
  }

  predicate ChannelsReached(active: ActiveCount, was: Ram, now: Ram, start: nat, updates: nat) {
    forall ch {:trigger Decode(now, ch)} :: 1 <= ch <= 8 ==>
      Decode(now, ch) == After(Decode(was, ch), UpdatesOf(active, ch, start, updates))
  }

  /** Frequency, length, address, volume and inactive channels, and the wave data. */
  predicate OtherBytesKept(active: ActiveCount, was: Ram, now: Ram) {
    forall i :: 0 <= i < 0x80 && !PhaseByte(active, i) ==> now[i] == was[i]
  }

  lemma ChannelsStep(active: ActiveCount, was: Ram, now: Ram, start: nat, updates: nat)
    requires ChannelsReached(active, was, now, start, updates)
    ensures var ch := ActiveChannel(active, (start + updates) % active);
            ChannelsReached(active, was, WithPhase(now, ch, Advance(Decode(now, ch))), start, updates + 1)
  {
    hide Decode, Advance, After, WithPhase;
    var ch := ActiveChannel(active, (start + updates) % active);
    var phase := Advance(Decode(now, ch));
    AdvanceFits(Decode(now, ch));
    AfterStep(Decode(was, ch), UpdatesOf(active, ch, start, updates));
    forall other | 1 <= other <= 8
      ensures Decode(WithPhase(now, ch, phase), other)
           == After(Decode(was, other), UpdatesOf(active, other, start, updates + 1))
    {
      WithPhaseDecodes(now, ch, phase, other);
      assert Decode(now, other) == After(Decode(was, other), UpdatesOf(active, other, start, updates));
    }
  }

  lemma BytesStep(active: ActiveCount, was: Ram, now: Ram, slot: nat)
    requires OtherBytesKept(active, was, now) && slot < active
    ensures var ch := ActiveChannel(active, slot);
            OtherBytesKept(active, was, WithPhase(now, ch, Advance(Decode(now, ch))))
  {
    hide Decode, Advance, WithPhase;
    var ch := ActiveChannel(active, slot);
    AdvanceFits(Decode(now, ch));
    WithPhaseDecodes(now, ch, Advance(Decode(now, ch)), ch);
  }

  /** Everything an update leaves alone. */
  predicate SameSettings(from: N163, s: N163) {
    && s.channelsActive == from.channelsActive && s.enabled == from.enabled
    && s.soundDisabled == from.soundDisabled && s.addr == from.addr && s.addrInc == from.addrInc
  }

  lemma UpdateEffect(s: N163)
    requires SlotOk(s)
    ensures var t := UpdateChannel(s);
            var ch := ActiveChannel(s.channelsActive, s.nextSlot);
            && SameSettings(s, t) && t.cycleAccum == s.cycleAccum && SlotOk(t)
            && t.ram == WithPhase(s.ram, ch, Advance(Decode(s.ram, ch)))
            && t.nextSlot == if s.nextSlot + 1 == s.channelsActive then 0 else s.nextSlot + 1
  {
    hide Decode, Advance, WithPhase, Nibble;
  }

  /** The state after `updates` channel updates, from whatever slot is next. */
  predicate Reached(from: N163, s: N163, updates: nat) {
    && SameSettings(from, s) && s.nextSlot == (from.nextSlot + updates) % from.channelsActive
    && ChannelsReached(from.channelsActive, from.ram, s.ram, from.nextSlot, updates)
    && OtherBytesKept(from.channelsActive, from.ram, s.ram)
  }

  lemma ReachedStep(from: N163, s: N163, updates: nat)
    requires Reached(from, s, updates)
    ensures Reached(from, UpdateChannel(s), updates + 1)
  {
    hide UpdateChannel, ChannelsReached, OtherBytesKept, Decode, Advance, WithPhase;
    UpdateEffect(s);
    SuccMod(from.nextSlot + updates, from.channelsActive);
    ChannelsStep(from.channelsActive, from.ram, s.ram, from.nextSlot, updates);
    BytesStep(from.channelsActive, from.ram, s.ram, s.nextSlot);
  }

  lemma {:induction false} UpdatesReach(from: N163, updates: nat)
    requires SlotOk(from)
    ensures Reached(from, Iterate(UpdateChannel, from, updates), updates)
  {
    hide UpdateChannel;
    if updates > 0 {
      UpdatesReach(from, updates - 1);
      ReachedStep(from, Iterate(UpdateChannel, from, updates - 1), updates - 1);
    }
  }

  lemma {:induction false} UpdatesKeep(s: N163, updates: nat)
    requires SlotOk(s)
    ensures var u := Iterate(UpdateChannel, s, updates);
            SlotOk(u) && SameSettings(s, u) && u.cycleAccum == s.cycleAccum
  {
    hide UpdateChannel;
    if updates > 0 {
      UpdatesKeep(s, updates - 1);
      UpdateEffect(Iterate(UpdateChannel, s, updates - 1));
    }
  }

  /** CPU cycles and channel updates: one update per fifteen cycles, remainder kept. */
  lemma {:induction false} CyclesAreUpdates(s: N163, cycles: nat)
    requires s.enabled && !s.soundDisabled && SlotOk(s)
    ensures Iterate(N163Tick, s, cycles)
         == Iterate(UpdateChannel, s, (s.cycleAccum + cycles) / 15).(cycleAccum := (s.cycleAccum + cycles) % 15)
    ensures var u := Iterate(UpdateChannel, s, (s.cycleAccum + cycles) / 15);
            SlotOk(u) && SameSettings(s, u) && u.cycleAccum == s.cycleAccum
  {
    hide UpdateChannel, SlotOk;
    UpdatesKeep(s, (s.cycleAccum + cycles) / 15);
    if cycles > 0 {
      CyclesAreUpdates(s, cycles - 1);
      var u := Iterate(UpdateChannel, s, (s.cycleAccum + cycles - 1) / 15);
      UpdateIgnoresAccum(u, (s.cycleAccum + cycles - 1) % 15);
      UpdateIgnoresAccum(u, 0);
    }
  }

  /** `tick`: one channel update for every fifteen cycles in the accumulator. */
  function N163Batch(s: N163, cycles: nat): N163 {
    if !s.enabled || s.soundDisabled then s else Drain(s, s.cycleAccum + cycles)
  }

  function Drain(s: N163, accum: nat): N163
    decreases accum
  {
    if accum >= 15 then Drain(UpdateChannel(s), accum - 15) else s.(cycleAccum := accum)
  }

  lemma {:induction false} DrainOneMore(s: N163, accum: nat)
    requires s.enabled && !s.soundDisabled
    ensures N163Tick(Drain(s, accum)) == Drain(s, accum + 1)
    decreases accum
  {
    UpdateKeepsSwitches(s);
    hide UpdateChannel;
    if accum >= 15 {
      DrainOneMore(UpdateChannel(s), accum - 15);
    } else if accum == 14 {
      UpdateIgnoresAccum(s, 0);
    }
  }

  lemma UpdateKeepsSwitches(s: N163)
    ensures UpdateChannel(s).enabled == s.enabled && UpdateChannel(s).soundDisabled == s.soundDisabled
  {
    hide Decode, Advance, WithPhase, Nibble;
  }

  /** A batch of any size is that many single cycles. */
  lemma {:induction false} BatchIsCycles(s: N163, cycles: nat)
    ensures N163Batch(s, cycles) == Iterate(N163Tick, s, cycles)
  {
    hide UpdateChannel;
    if !s.enabled || s.soundDisabled {
      IterateFixed(N163Tick, s, cycles);
    } else if cycles > 0 {
      BatchIsCycles(s, cycles - 1);
      DrainOneMore(s, s.cycleAccum + cycles - 1);
    }
  }

  lemma UpdateIgnoresAccum(s: N163, accum: Cycle15)
    ensures UpdateChannel(s.(cycleAccum := accum)) == UpdateChannel(s).(cycleAccum := accum)
  {
    hide Decode, Advance, WithPhase, Nibble, ActiveChannel;
  }

  /** The closed form over the shared RAM, from every state and for every cycle count:
      with sound on and no register access, `(cycleAccum + cycles) / 15` updates go
      round the active channels from the slot that is next; each channel's phase bytes
      hold `(phase + k * freq) mod (length * 65536)` for its own count `k`, and no
      other byte of the RAM has changed. */
  lemma ClosedForm(s: N163, cycles: nat)
    requires s.enabled && !s.soundDisabled && SlotOk(s)
    ensures var r := Iterate(N163Tick, s, cycles);
            Reached(s, r, (s.cycleAccum + cycles) / 15) && r.cycleAccum == (s.cycleAccum + cycles) % 15
  {
    hide UpdateChannel, ChannelsReached, OtherBytesKept;
    CyclesAreUpdates(s, cycles);
    UpdatesReach(s, (s.cycleAccum + cycles) / 15);
  }

  /** After `15 * active * k` cycles every active channel has been updated exactly `k`
      times, whatever slot and remainder the chip was left in, and every inactive one
      not at all. */
  lemma WholeRoundsForm(s: N163, k: nat)
    requires s.enabled && !s.soundDisabled && SlotOk(s)
    ensures var r := Iterate(N163Tick, s, 15 * (s.channelsActive * k));
            && r.cycleAccum == s.cycleAccum && r.nextSlot == s.nextSlot
            && OtherBytesKept(s.channelsActive, s.ram, r.ram)
            && forall ch {:trigger Decode(r.ram, ch)} :: 1 <= ch <= 8 ==>
                 Decode(r.ram, ch) == After(Decode(s.ram, ch), if ch < 9 - s.channelsActive then 0 else k)
  {
    hide UpdateChannel, OtherBytesKept, Decode, After, UpdatesOf, N163Tick;
    var active, updates := s.channelsActive, s.channelsActive * k;
    ClosedForm(s, 15 * updates);
    assert (s.cycleAccum + 15 * updates) / 15 == updates && (s.cycleAccum + 15 * updates) % 15 == s.cycleAccum;
    assert s.nextSlot + updates == k * active + s.nextSlot;
    DivModUnique(s.nextSlot + updates, active, k, s.nextSlot);
    var r := Iterate(N163Tick, s, 15 * updates);
    forall ch | 1 <= ch <= 8
      ensures Decode(r.ram, ch) == After(Decode(s.ram, ch), if ch < 9 - active then 0 else k)
    {
      if ch < 9 - active {
        UpdatesClosedForm(active, ch, s.nextSlot, updates);
      } else {
        WholeRounds(active, ch, s.nextSlot, k);
      }
    }
  }

  class Namco163Chip {
    var enabled: bool
    var addr: u7
    var addrInc: bool
    const ram: array<u8>
    var channelsActive: ActiveCount
    var cycleAccum: Cycle15
    var nextSlot: nat
    var lastOutput: int
    const hold: array<int>
    var soundDisabled: bool

    ghost predicate Valid()
      reads this
    {
      ram.Length == 0x80 && hold.Length == 8 && nextSlot < channelsActive
    }

    ghost function State(): N163
      reads this, ram, hold
      requires Valid()
    {
      N163(enabled, addr, addrInc, ram[..], channelsActive, cycleAccum, nextSlot, lastOutput, hold[..], soundDisabled)
    }

    constructor ()
      ensures Valid() && fresh(ram) && fresh(hold)
      ensures State() == N163(false, 0, false, seq(0x80, _ => 0), 1, 0, 0, 0, seq(8, _ => 0), false)
    {
      enabled, addr, addrInc, channelsActive, cycleAccum := false, 0, false, 1, 0;
      nextSlot, lastOutput, soundDisabled := 0, 0, false;
      ram := new u8[0x80](_ => 0);
      hold := new int[8](_ => 0);
    }

    method Write(address: u16, value: u8)
      requires Valid()
      modifies this, ram
      ensures Valid() && State() == N163Write(old(State()), address, value)
    {
      if 0xE000 <= address <= 0xE7FF {
        soundDisabled := Bit(value, 0x40);
      } else if 0xF800 <= address {
        addr := value % 0x80;
        addrInc := Bit(value, 0x80);
      } else if 0x4800 <= address <= 0x4FFF {
        var target := addr;
        ram[target] := value;
        if addrInc && addr < 0x7F {
          addr := addr + 1;
        }
        if target == 0x7F {
          channelsActive := value / 16 % 8 + 1;
          if nextSlot >= channelsActive {
            nextSlot := 0;
          }
        }
      }
    }

    method TickOneChannel()
      requires Valid()
      modifies this, ram, hold
      ensures Valid() && State() == UpdateChannel(old(State()))
    {
      hide Decode, Advance, Nibble;
      var ch := ActiveChannel(channelsActive, nextSlot);
      ghost var was := State();
      var c := Decode(ram[..], ch);
      var phase := Advance(c);
      AdvanceFits(c);
      var b := ChanBase(ch);
      ram[b + 1] := phase % 0x100;
      ram[b + 3] := phase / 0x100 % 0x100;
      ram[b + 5] := phase / 0x1_0000 % 0x100;
      assert ram[..] == WithPhase(was.ram, ch, phase);
      var sample := (Nibble(ram[..], phase / 0x1_0000 + c.waveAddr) - 8) * c.volume;
      hold[ch - 1] := sample;
      lastOutput := sample;
      nextSlot := (nextSlot + 1) % channelsActive;
    }

    /** The batched tick is `cycles` one-cycle ticks. */
    method Tick(cycles: nat)
      requires Valid()
      modifies this, ram, hold
      ensures Valid() && State() == N163Batch(old(State()), cycles) == Iterate(N163Tick, old(State()), cycles)
    {
      hide UpdateChannel;
      BatchIsCycles(State(), cycles);
      if !enabled || soundDisabled {
        return;
      }
      ghost var goal := N163Batch(State(), cycles);
      var acc := cycleAccum + cycles;
      while acc >= 15
        invariant Valid() && 0 <= acc && Drain(State(), acc) == goal
      {
        acc := acc - 15;
        TickOneChannel();
      }
      cycleAccum := acc;
    }
  }
}
