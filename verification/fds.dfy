/** The Famicom Disk System sound unit (src/expansion.rs:2100-2623). */
module FamicomDisk {
  import opened Words

  type Signed7 = x: int | -64 <= x <= 63
  type u6 = x: int | 0 <= x < 0x40
  type u12 = x: int | 0 <= x < 0x1000
  type u24 = x: int | 0 <= x < 0x100_0000
  type ModTable = s: seq<u3> | |s| == 32 witness seq(32, _ => 0)

  /** One ramp generator: its registers and its countdown. */
  datatype EnvelopeUnit = EnvelopeUnit(speed: u6, increase: bool, disabled: bool, timer: nat)

  type WaveTable = s: seq<u6> | |s| == 64 witness seq(64, _ => 0)

  /** The wave memory, its write enable and the output divider. */
  datatype WaveMemory = WaveMemory(wave: WaveTable, writable: bool, divider: u8)

  datatype Fds = Fds(
    enabled: bool, memory: WaveMemory, modTable: ModTable, volume: u6, freq: u12, modFreq: u12, modDisabled: bool,
    modGain: u6, modCounter: Signed7, modPos: u6, modAcc: u12, wavePos: u6, waveAcc: u24,
    cycleAcc: nat, volEnv: EnvelopeUnit, modEnv: EnvelopeUnit, masterSpeed: u8, envFast: bool,
    envHalt: bool, volPending: Option<u6>, soundEnabled: bool)

  /** CPU clocks per envelope step, `8 * (e + 1) * (m + 1)`, a quarter of it when fast. */
  function EnvPeriod(e: u6, m: u8, fast: bool): (c: nat)
    ensures c == 0 <==> m == 0
  {
    if m == 0 then 0
    else
      assert (e + 1) * (m + 1) >= 1 by { MulLe(1, e + 1, m + 1); }
      var c := 8 * ((e + 1) * (m + 1));
      if fast then Max(c / 4, 1) else c
  }

  /** A volume gain is committed only while the wave position is zero. */
  function SetVolumeGain(s: Fds, gain: u6): Fds {
    if s.wavePos == 0 then s.(volume := gain, volPending := None) else s.(volPending := Some(gain))
  }

  function CommitPendingVolume(s: Fds): Fds {
    if s.wavePos == 0 && s.volPending.Some? then s.(volume := s.volPending.value, volPending := None) else s
  }

  /** One ramp step: up to 32 or down to 0. */
  function RampGain(gain: u6, increase: bool): u6 {
    if increase then if gain < 32 then gain + 1 else gain else if gain > 0 then gain - 1 else gain
  }

  function StepVolumeEnv(s: Fds): Fds {
    var cur := if s.volPending.Some? then s.volPending.value else s.volume;
    var next := RampGain(cur, s.volEnv.increase);
    if next != cur then SetVolumeGain(s, next) else s
  }

  /** The countdown of one envelope for one CPU clock: the new timer and whether it expired. */
  function Countdown(e: EnvelopeUnit, period: nat): (nat, bool) {
    if e.disabled || period == 0 then (e.timer, false)
    else
      var left := (if e.timer == 0 then period else e.timer) - 1;
      if left == 0 then (period, true) else (left, false)
  }

  function VolumeEnvTick(s: Fds): Fds {
    var (timer, expired) := Countdown(s.volEnv, EnvPeriod(s.volEnv.speed, s.masterSpeed, s.envFast));
    var t := if expired then StepVolumeEnv(s) else s;
    t.(volEnv := s.volEnv.(timer := timer))
  }

  function ModEnvTick(s: Fds): Fds {
    var (timer, expired) := Countdown(s.modEnv, EnvPeriod(s.modEnv.speed, s.masterSpeed, s.envFast));
    s.(modGain := if expired then RampGain(s.modGain, s.modEnv.increase) else s.modGain,
       modEnv := s.modEnv.(timer := timer))
  }

  function EnvTick(s: Fds): Fds {
    if s.envHalt || s.masterSpeed == 0 then s else ModEnvTick(VolumeEnvTick(s))
  }

  function ToSigned7(v: int): Signed7 {
    if v % 0x80 >= 0x40 then v % 0x80 - 0x80 else v % 0x80
  }

  /** 0, 1, 2, 4, reset, -4, -2, -1 with seven-bit wrap-around. */
  function StepModCounter(counter: Signed7, entry: u3): Signed7 {
    if entry == 4 then 0
    else ToSigned7(counter + if entry == 0 then 0 else if entry == 1 then 1 else if entry == 2 then 2
                             else if entry == 3 then 4 else if entry == 5 then -4
                             else if entry == 6 then -2 else -1)
  }

  function ModUnit(s: Fds): Fds {
    if s.modDisabled || s.modFreq == 0 || s.envFast then s
    else
      var sum := s.modAcc + s.modFreq;
      if sum >= 0x1000 then
        s.(modAcc := sum - 0x1000, modCounter := StepModCounter(s.modCounter, s.modTable[s.modPos / 2]),
           modPos := (s.modPos + 1) % 0x40)
      else s.(modAcc := sum)
  }

  /** The modulated pitch. `temp` is a two's-complement product, so its bits are
      those of its residue; the scaled factor is between 0 and 255. */
  function WavePitch(freq: u12, counter: Signed7, gain: u6): (pitch: nat)
    ensures pitch <= 0xFFF * 0xFF
  {
    var product := counter * gain;
    var rounded := if product % 0x10 != 0 && product % 0x1000 < 0x800 then product + 0x20 else product;
    var factor := (rounded + 0x400) / 0x10 % 0x100;
    assert freq * factor <= 0xFFF * 0xFF by {
      MulLe(freq, 0xFFF, factor);
    }
    freq * factor
  }

  function WaveUnit(s: Fds): Fds {
    if s.freq == 0 || s.envFast then s
    else
      var acc := (s.waveAcc + WavePitch(s.freq, s.modCounter, s.modGain)) % 0x100_0000;
      s.(waveAcc := acc, wavePos := acc / 0x4_0000)
  }

  /** One 16-clock unit tick. */
  function UnitTick(s: Fds): Fds {
    CommitPendingVolume(WaveUnit(ModUnit(s)))
  }

  /** One turn of the loop in `tick`: both envelopes, then the unit on every sixteenth. */
  function FdsCycle(s: Fds): Fds {
    var e := EnvTick(s);
    if s.cycleAcc + 1 >= 16 then UnitTick(e.(cycleAcc := s.cycleAcc + 1 - 16))
    else e.(cycleAcc := s.cycleAcc + 1)
  }

  /** One CPU cycle. */
  function FdsTick(s: Fds): Fds {
    if !s.soundEnabled then s else FdsCycle(s)
  }

  /** `tick`: disabled sound stands still, and enabled sound runs cycle by cycle. */
  function FdsBatch(s: Fds, n: nat): Fds {
    if !s.soundEnabled then s else Iterate(FdsCycle, s, n)
  }

  /** A batch of any size is that many single cycles. */
  lemma {:induction false} BatchIsCycles(s: Fds, n: nat)
    ensures FdsBatch(s, n) == Iterate(FdsTick, s, n) && FdsBatch(s, n).soundEnabled == s.soundEnabled
  {
    hide FdsCycle;
    if !s.soundEnabled {
      IterateFixed(FdsTick, s, n);
    } else if n > 0 {
      BatchIsCycles(s, n - 1);
      CycleKeepsSwitch(Iterate(FdsCycle, s, n - 1));
    }
  }

  lemma CycleKeepsSwitch(s: Fds)
    ensures FdsCycle(s).soundEnabled == s.soundEnabled
  {
    hide EnvTick, UnitTick;
    EnvKeeps(s);
    if s.cycleAcc + 1 >= 16 {
      UnitKeeps(EnvTick(s).(cycleAcc := s.cycleAcc + 1 - 16));
    }
  }

  // -------------------------------------------------------------- registers

  /** A unit's speed, direction and mode; a write restarts its countdown. */
  function EnvelopeWrite(value: u8, master: u8, fast: bool): EnvelopeUnit {
    EnvelopeUnit(value % 0x40, Bit(value, 0x40), Bit(value, 0x80), EnvPeriod(value % 0x40, master, fast))
  }

  /** $4080: with the mode bit set the gain is written directly, muting at once. */
  function WriteVolume(s: Fds, value: u8): Fds {
    var t := if !Bit(value, 0x80) then s
             else if value % 0x40 == 0 then s.(volume := 0, volPending := None)
             else SetVolumeGain(s, value % 0x40);
    t.(volEnv := EnvelopeWrite(value, s.masterSpeed, s.envFast))
  }

  function Restarted(e: EnvelopeUnit, master: u8, fast: bool): EnvelopeUnit {
    e.(timer := EnvPeriod(e.speed, master, fast))
  }

  /** $4083: the high bits of the frequency; bit 6 halts both envelopes and bit 7 the
      wave unit, which goes back to position zero. */
  function WriteFrequencyHigh(s: Fds, value: u8): Fds {
    var halt, fast := Bit(value, 0x40), Bit(value, 0x80);
    var t := s.(freq := s.freq % 0x100 + value % 0x10 * 0x100, envHalt := halt, envFast := fast);
    var u := if halt then RestartEnvelopes(t) else t;
    if fast then u.(waveAcc := 0, wavePos := 0) else u
  }

  function RestartEnvelopes(s: Fds): Fds {
    s.(volEnv := Restarted(s.volEnv, s.masterSpeed, s.envFast), modEnv := Restarted(s.modEnv, s.masterSpeed, s.envFast))
  }

  /** $4084 to $4088: the modulator. */
  function WriteModulator(s: Fds, addr: u16, value: u8): Fds
    requires 0x4084 <= addr <= 0x4088
  {
    if addr == 0x4084 then
      s.(modGain := if Bit(value, 0x80) then value % 0x40 else s.modGain,
         modEnv := EnvelopeWrite(value, s.masterSpeed, s.envFast))
    else if addr == 0x4085 then s.(modCounter := ToSigned7(value))
    else if addr == 0x4086 then s.(modFreq := s.modFreq / 0x100 * 0x100 + value)
    else if addr == 0x4087 then
      s.(modFreq := s.modFreq % 0x100 + value % 0x10 * 0x100, modDisabled := Bit(value, 0x80),
         modAcc := if Bit(value, 0x80) then 0 else s.modAcc)
    else WriteModTable(s, value)
  }

  /** $4088: honoured only while the modulator is disabled. */
  function WriteModTable(s: Fds, value: u8): Fds {
    if s.modDisabled then s.(modTable := s.modTable[s.modPos / 2 := value % 8], modPos := (s.modPos + 2) % 0x40) else s
  }

  /** $4023: clearing bit 1 halts the sound at wave position zero. */
  function WriteEnable(s: Fds, value: u8): Fds {
    if Bit(value, 2) then s.(soundEnabled := true) else s.(soundEnabled := false, wavePos := 0, waveAcc := 0)
  }

  /** $4040 to $407F and $4089: wave memory is written only while it is enabled. */
  function WriteMemory(m: WaveMemory, addr: u16, value: u8): WaveMemory {
    if addr == 0x4089 then m.(divider := value % 4, writable := Bit(value, 0x80))
    else if 0x4040 <= addr <= 0x407F && m.writable then m.(wave := m.wave[addr - 0x4040 := value % 0x40])
    else m
  }

  function FdsWrite(s: Fds, addr: u16, value: u8): Fds {
    if addr == 0x4023 then WriteEnable(s, value)
    else if 0x4040 <= addr <= 0x407F || addr == 0x4089 then s.(memory := WriteMemory(s.memory, addr, value))
    else if addr == 0x4080 then WriteVolume(s, value)
    else if addr == 0x4082 then s.(freq := s.freq / 0x100 * 0x100 + value)
    else if addr == 0x4083 then WriteFrequencyHigh(s, value)
    else if 0x4084 <= addr <= 0x4088 then WriteModulator(s, addr, value)
    else if addr == 0x408A then s.(masterSpeed := value)
    else s
  }

  // --------------------------------------------------------------- the latch

  /** A staged gain stands at wave position zero without having been committed. */
  predicate Waits(s: Fds) {
    s.volPending.Some? && s.wavePos == 0
  }

  lemma VolumeEnvKeeps(s: Fds)
    ensures var t := VolumeEnvTick(s);
            && t.wavePos == s.wavePos && t.cycleAcc == s.cycleAcc && t.soundEnabled == s.soundEnabled
            && (Waits(t) ==> Waits(s))
            && (s.wavePos != 0 ==> t.volume == s.volume)
            && t.volEnv.disabled == s.volEnv.disabled
            && (s.volEnv.disabled ==> t.volume == s.volume && t.volPending == s.volPending)
  {
    hide EnvPeriod;
  }

  lemma WaveUnitKeeps(s: Fds)
    ensures var t := WaveUnit(s);
            t.volume == s.volume && t.volPending == s.volPending && t.cycleAcc == s.cycleAcc
            && t.soundEnabled == s.soundEnabled && (s.envFast ==> t.wavePos == s.wavePos)
  {
    hide WavePitch;
  }

  lemma ModUnitKeeps(s: Fds)
    ensures var t := ModUnit(s);
            t.volume == s.volume && t.volPending == s.volPending && t.cycleAcc == s.cycleAcc
            && t.wavePos == s.wavePos && t.soundEnabled == s.soundEnabled && t.envFast == s.envFast
  {
    hide StepModCounter;
  }

  lemma EnvKeeps(s: Fds)
    ensures var t := EnvTick(s);
            && t.wavePos == s.wavePos && t.cycleAcc == s.cycleAcc && t.soundEnabled == s.soundEnabled
            && (Waits(t) ==> Waits(s))
            && (s.wavePos != 0 ==> t.volume == s.volume)
            && t.volEnv.disabled == s.volEnv.disabled && t.envFast == s.envFast
            && (s.volEnv.disabled ==> t.volume == s.volume && t.volPending == s.volPending)
  {
    VolumeEnvKeeps(s);
    VolumeEnvFast(s);
    hide VolumeEnvTick, Countdown, EnvPeriod;
  }

  lemma VolumeEnvFast(s: Fds)
    ensures VolumeEnvTick(s).envFast == s.envFast
  {
    hide Countdown, EnvPeriod;
  }

  lemma UnitKeeps(s: Fds)
    ensures var t := UnitTick(s);
            && t.cycleAcc == s.cycleAcc && !Waits(t) && t.soundEnabled == s.soundEnabled
            && (t.volume != s.volume ==> t.wavePos == 0)
            && (s.envFast ==> t.wavePos == s.wavePos)
            && (if s.volPending.Some? && t.wavePos == 0 then t.volume == s.volPending.value && t.volPending.None?
                else t.volume == s.volume && t.volPending == s.volPending)
  {
    hide ModUnit, WaveUnit;
    ModUnitKeeps(s);
    WaveUnitKeeps(ModUnit(s));
  }

  /** One cycle, from every state: the audible gain changes only while the wave
      position is zero, before or after the cycle's wave step, and no cycle leaves a
      gain waiting that did not wait before. */
  lemma LatchStep(s: Fds)
    requires s.cycleAcc < 16
    ensures var t := FdsTick(s);
            && t.cycleAcc < 16 && (Waits(t) ==> Waits(s))
            && (t.volume != s.volume ==> s.wavePos == 0 || t.wavePos == 0)
  {
    hide EnvTick, UnitTick;
    if s.soundEnabled {
      EnvKeeps(s);
      if s.cycleAcc + 1 >= 16 {
        UnitKeeps(EnvTick(s).(cycleAcc := s.cycleAcc + 1 - 16));
      }
    }
  }

  /** Exactly which register write leaves a gain waiting at position zero: one that
      halts the wave there, by $4023 or by $4083, while a gain is staged. Apart from
      muting, no write changes the audible gain away from position zero. */
  lemma WaitsAfterWriteIff(s: Fds, addr: u16, value: u8)
    requires !Waits(s)
    ensures var t := FdsWrite(s, addr, value);
            && (Waits(t) <==> s.volPending.Some? && ((addr == 0x4023 && !Bit(value, 2)) || (addr == 0x4083 && Bit(value, 0x80))))
            && (t.volume != s.volume ==> s.wavePos == 0 || (addr == 0x4080 && t.volume == 0))
            && t.cycleAcc == s.cycleAcc
  {
    Routed(s, addr, value);
    hide FdsWrite, WriteVolume, WriteFrequencyHigh, WriteModulator, Bit;
    if addr == 0x4080 {
      VolumeWriteLatch(s, value);
    } else if addr == 0x4083 {
      FrequencyWriteLatch(s, value);
    } else if 0x4084 <= addr <= 0x4088 {
      ModulatorWriteLatch(s, addr, value);
    }
  }

  lemma Routed(s: Fds, addr: u16, value: u8)
    ensures var t := FdsWrite(s, addr, value);
            if addr == 0x4023 then t == WriteEnable(s, value)
            else if addr == 0x4080 then t == WriteVolume(s, value)
            else if addr == 0x4083 then t == WriteFrequencyHigh(s, value)
            else if 0x4084 <= addr <= 0x4088 then t == WriteModulator(s, addr, value)
            else t.volPending == s.volPending && t.volume == s.volume && t.cycleAcc == s.cycleAcc && t.wavePos == s.wavePos
  {
    hide WriteVolume, WriteFrequencyHigh, WriteModulator, WriteEnable;
  }

  lemma VolumeWriteLatch(s: Fds, value: u8)
    requires !Waits(s)
    ensures var t := WriteVolume(s, value);
            !Waits(t) && t.cycleAcc == s.cycleAcc && (t.volume != s.volume ==> s.wavePos == 0 || t.volume == 0)
  {
    hide EnvelopeWrite, Bit;
  }

  lemma FrequencyWriteLatch(s: Fds, value: u8)
    ensures var t := WriteFrequencyHigh(s, value);
            && t.volPending == s.volPending && t.volume == s.volume && t.cycleAcc == s.cycleAcc
            && t.wavePos == if Bit(value, 0x80) then 0 else s.wavePos
  {
    hide Restarted, Bit;
  }

  lemma ModulatorWriteLatch(s: Fds, addr: u16, value: u8)
    requires 0x4084 <= addr <= 0x4088
    ensures var t := WriteModulator(s, addr, value);
            && t.volPending == s.volPending && t.volume == s.volume && t.cycleAcc == s.cycleAcc && t.wavePos == s.wavePos
  {
    hide EnvelopeWrite, Bit, ToSigned7;
  }

  /** The concrete case: a gain of 16 staged while the wave is running, and then the
      wave unit disabled by $4083. */
  lemma WaitsCounterexample(s: Fds)
    requires s.wavePos != 0
    ensures var t := FdsWrite(FdsWrite(s, 0x4080, 0x90), 0x4083, 0x80);
            Waits(t) && t.volPending == Some(16) && t.volume == s.volume
  {
    hide EnvPeriod;
  }

  /** With sound disabled nothing moves, so a waiting gain waits until it is enabled. */
  lemma {:induction false} WaitsWhileDisabled(s: Fds, n: nat)
    requires !s.soundEnabled
    ensures Iterate(FdsTick, s, n) == s
  {
    hide EnvTick, UnitTick;
    IterateFixed(FdsTick, s, n);
  }

  /** Up to the next unit tick only the envelopes run. */
  lemma {:induction false} BeforeUnitTick(s: Fds, n: nat)
    requires s.soundEnabled && s.cycleAcc + n < 16
    ensures var t := Iterate(FdsTick, s, n);
            && t.soundEnabled && t.cycleAcc == s.cycleAcc + n && t.wavePos == s.wavePos && t.envFast == s.envFast
            && t.volEnv.disabled == s.volEnv.disabled
            && (s.volEnv.disabled ==> t.volume == s.volume && t.volPending == s.volPending)
  {
    if n > 0 {
      BeforeUnitTick(s, n - 1);
      EnvKeeps(Iterate(FdsTick, s, n - 1));
      hide EnvTick, UnitTick;
    }
  }

  /** Just before the next unit tick: the envelopes of its cycle have run. */
  function BeforeUnit(s: Fds): Fds
    requires s.cycleAcc < 16
  {
    EnvTick(Iterate(FdsTick, s, 15 - s.cycleAcc))
  }

  /** With sound enabled, the next unit tick, at most sixteen cycles away, ends the
      wait. The gain staged just before it is committed there exactly if the wave is
      still at position zero after that tick, as it is whenever $4083 holds it there;
      otherwise it is staged again, for the next time the wave comes round. While the
      volume envelope is disabled that gain is the one that waited; a running envelope
      may have moved or committed it by then. */
  lemma UnitTickEndsWait(s: Fds)
    requires s.soundEnabled && s.cycleAcc < 16
    ensures var e, t := BeforeUnit(s), Iterate(FdsTick, s, 16 - s.cycleAcc);
            && !Waits(t)
            && (if e.volPending.Some? && t.wavePos == 0 then t.volume == e.volPending.value && t.volPending.None?
                else t.volume == e.volume && t.volPending == e.volPending)
            && (s.volEnv.disabled ==> e.volPending == s.volPending && e.volume == s.volume)
            && (s.envFast && s.wavePos == 0 ==> t.wavePos == 0)
  {
    hide EnvTick, UnitTick;
    var n := 15 - s.cycleAcc;
    BeforeUnitTick(s, n);
    var u := Iterate(FdsTick, s, n);
    EnvKeeps(u);
    UnitKeeps(EnvTick(u).(cycleAcc := 0));
    assert Iterate(FdsTick, s, n + 1) == FdsTick(u);
  }

  /** Sound enabled again at a high, modulated pitch: the unit tick moves the wave on
      before it looks at the latch, so the gain is staged again and not committed. */
  lemma StagedAgainCounterexample(s: Fds)
    requires s.soundEnabled && s.cycleAcc == 15 && s.masterSpeed == 0 && s.modDisabled && !s.envFast
    requires s.freq == 0xFFF && s.modCounter == 1 && s.modGain == 16 && s.waveAcc == 0
    requires Waits(s) && s.volPending == Some(16) && s.volume == 0
    ensures var t := FdsTick(s); t.wavePos == 1 && t.volPending == Some(16) && t.volume == 0
  {
    assert WavePitch(0xFFF, 1, 16) == 0xFFF * 65;
    assert EnvTick(s) == s;
    var u := s.(cycleAcc := 0);
    assert ModUnit(u) == u;
    hide EnvTick, ModUnit, WavePitch;
  }

  /** And from then on no number of cycles leaves a gain waiting. */
  lemma {:induction false} WaitEnds(s: Fds, n: nat)
    requires s.soundEnabled && s.cycleAcc < 16 && n >= 16 - s.cycleAcc
    ensures !Waits(Iterate(FdsTick, s, n)) && Iterate(FdsTick, s, n).cycleAcc < 16
  {
    hide FdsTick;
    StaysInRange(s, n);
    if n == 16 - s.cycleAcc {
      UnitTickEndsWait(s);
    } else {
      WaitEnds(s, n - 1);
      LatchStep(Iterate(FdsTick, s, n - 1));
    }
  }

  lemma {:induction false} StaysInRange(s: Fds, n: nat)
    requires s.cycleAcc < 16
    ensures Iterate(FdsTick, s, n).cycleAcc < 16
  {
    hide FdsTick;
    if n > 0 {
      StaysInRange(s, n - 1);
      LatchStep(Iterate(FdsTick, s, n - 1));
    }
  }

  class FdsChip {
    var enabled: bool
    var memory: WaveMemory
    var modTable: ModTable
    var volume: u6
    var freq: u12
    var modFreq: u12
    var modDisabled: bool
    var modGain: u6
    var modCounter: Signed7
    var modPos: u6
    var modAcc: u12
    var wavePos: u6
    var waveAcc: u24
    var cycleAcc: nat
    var volEnv: EnvelopeUnit
    var modEnv: EnvelopeUnit
    var masterSpeed: u8
    var envFast: bool
    var envHalt: bool
    var volPending: Option<u6>
    var soundEnabled: bool

    ghost function State(): Fds
      reads this
    {
      Fds(enabled, memory, modTable, volume, freq, modFreq, modDisabled, modGain, modCounter, modPos, modAcc,
          wavePos, waveAcc, cycleAcc, volEnv, modEnv, masterSpeed, envFast, envHalt, volPending, soundEnabled)
    }

    constructor ()
      ensures !Waits(State()) && State().cycleAcc == 0 && State().soundEnabled && State().masterSpeed == 0xE8 && !State().enabled
    {
      enabled, modTable, volume, freq, modFreq, modDisabled := false, seq(32, _ => 0), 0, 0, 0, true;
      memory := WaveMemory(seq(64, _ => 0), false, 0);
      modGain, modCounter, modPos, modAcc, wavePos, waveAcc, cycleAcc := 0, 0, 0, 0, 0, 0, 0;
      volEnv, modEnv := EnvelopeUnit(0, false, true, 0), EnvelopeUnit(0, false, true, 0);
      masterSpeed, envFast, envHalt, volPending, soundEnabled := 0xE8, false, false, None, true;
    }

    method WriteVolumeRegister(value: u8)
      modifies this`volume, this`volPending, this`volEnv
      ensures State() == WriteVolume(old(State()), value)
    {
      hide EnvPeriod, Bit;
      if Bit(value, 0x80) {
        var gain := value % 0x40;
        if gain == 0 {
          volume := 0;
          volPending := None;
        } else if wavePos == 0 {
          volume := gain;
          volPending := None;
        } else {
          volPending := Some(gain);
        }
      }
      volEnv := EnvelopeUnit(value % 0x40, Bit(value, 0x40), Bit(value, 0x80), EnvPeriod(value % 0x40, masterSpeed, envFast));
    }

    method WriteFrequencyRegister(value: u8)
      modifies this`freq, this`envHalt, this`envFast, this`volEnv, this`modEnv, this`waveAcc, this`wavePos
      ensures State() == WriteFrequencyHigh(old(State()), value)
    {
      hide EnvPeriod, Bit, RestartEnvelopes;
      freq := freq % 0x100 + value % 0x10 * 0x100;
      envHalt := Bit(value, 0x40);
      envFast := Bit(value, 0x80);
      if envHalt {
        RestartEnvelopeTimers();
      }
      if envFast {
        ResetWave();
      }
    }

    method ResetWave()
      modifies this`waveAcc, this`wavePos
      ensures State() == old(State()).(waveAcc := 0, wavePos := 0)
    {
      waveAcc := 0;
      wavePos := 0;
    }

    method RestartEnvelopeTimers()
      modifies this`volEnv, this`modEnv
      ensures State() == RestartEnvelopes(old(State()))
    {
      hide EnvPeriod;
      volEnv := volEnv.(timer := EnvPeriod(volEnv.speed, masterSpeed, envFast));
      modEnv := modEnv.(timer := EnvPeriod(modEnv.speed, masterSpeed, envFast));
    }

    method WriteModEnvelope(value: u8)
      modifies this`modGain, this`modEnv
      ensures State() == WriteModulator(old(State()), 0x4084, value)
    {
      hide EnvelopeWrite, Bit, ToSigned7, WriteModTable;
      modEnv := EnvelopeWrite(value, masterSpeed, envFast);
      if Bit(value, 0x80) {
        modGain := value % 0x40;
      }
    }

    method WriteModFrequencyHigh(value: u8)
      modifies this`modFreq, this`modDisabled, this`modAcc
      ensures State() == WriteModulator(old(State()), 0x4087, value)
    {
      hide EnvelopeWrite, Bit, ToSigned7, WriteModTable;
      modFreq := modFreq % 0x100 + value % 0x10 * 0x100;
      modDisabled := Bit(value, 0x80);
      if modDisabled {
        modAcc := 0;
      }
    }

    method WriteModulatorRegister(addr: u16, value: u8)
      modifies this`modGain, this`modEnv, this`modCounter, this`modFreq, this`modDisabled, this`modAcc, this`modTable,
        this`modPos
      requires 0x4084 <= addr <= 0x4088
      ensures State() == WriteModulator(old(State()), addr, value)
    {
      hide EnvPeriod, Bit, ToSigned7, WriteModTable, EnvelopeWrite;
      if addr == 0x4084 {
        WriteModEnvelope(value);
      } else if addr == 0x4085 {
        modCounter := ToSigned7(value);
      } else if addr == 0x4086 {
        modFreq := modFreq / 0x100 * 0x100 + value;
      } else if addr == 0x4087 {
        WriteModFrequencyHigh(value);
      } else {
        WriteModTableRegister(value);
      }
    }

    method WriteModTableRegister(value: u8)
      modifies this`modTable, this`modPos
      ensures State() == WriteModTable(old(State()), value)
    {
      if modDisabled {
        modTable := modTable[modPos / 2 := value % 8];
        modPos := (modPos + 2) % 0x40;
      }
    }

    method WriteEnableRegister(value: u8)
      modifies this`wavePos, this`waveAcc, this`soundEnabled
      ensures State() == WriteEnable(old(State()), value)
    {
      hide Bit;
      if !Bit(value, 2) {
        wavePos := 0;
        waveAcc := 0;
      }
      soundEnabled := Bit(value, 2);
    }

    method WriteMemoryRegister(addr: u16, value: u8)
      modifies this`memory
      ensures State() == old(State()).(memory := WriteMemory(old(memory), addr, value))
    {
      hide Bit;
      if addr == 0x4089 {
        memory := memory.(divider := value % 4, writable := Bit(value, 0x80));
      } else if 0x4040 <= addr <= 0x407F && memory.writable {
        memory := memory.(wave := memory.wave[addr - 0x4040 := value % 0x40]);
      }
    }

    /** A register write. */
    method Write(addr: u16, value: u8)
      modifies this
      ensures State() == FdsWrite(old(State()), addr, value)
    {
      hide WriteVolume, WriteFrequencyHigh, WriteModulator, WriteEnable, WriteMemory, Bit;
      if addr == 0x4023 {
        WriteEnableRegister(value);
      } else if 0x4040 <= addr <= 0x407F || addr == 0x4089 {
        WriteMemoryRegister(addr, value);
      } else if addr == 0x4080 {
        WriteVolumeRegister(value);
      } else if addr == 0x4082 {
        freq := freq / 0x100 * 0x100 + value;
      } else if addr == 0x4083 {
        WriteFrequencyRegister(value);
      } else if 0x4084 <= addr <= 0x4088 {
        WriteModulatorRegister(addr, value);
      } else if addr == 0x408A {
        masterSpeed := value;
      }
    }

    method StepVolume()
      modifies this`volume, this`volPending
      ensures State() == StepVolumeEnv(old(State()))
    {
      var cur := if volPending.Some? then volPending.value else volume;
      var next := cur;
      if volEnv.increase {
        if cur < 32 {
          next := cur + 1;
        }
      } else if cur > 0 {
        next := cur - 1;
      }
      if next != cur {
        if wavePos == 0 {
          volume := next;
          volPending := None;
        } else {
          volPending := Some(next);
        }
      }
    }

    method VolumeEnvOne()
      modifies this`volume, this`volPending, this`volEnv
      ensures State() == VolumeEnvTick(old(State()))
    {
      hide EnvPeriod, StepVolumeEnv;
      if !volEnv.disabled {
        var period := EnvPeriod(volEnv.speed, masterSpeed, envFast);
        if period != 0 {
          var timer := (if volEnv.timer == 0 then period else volEnv.timer) - 1;
          if timer == 0 {
            StepVolume();
            timer := period;
          }
          volEnv := volEnv.(timer := timer);
        }
      }
    }

    method ModEnvOne()
      modifies this`modGain, this`modEnv
      ensures State() == ModEnvTick(old(State()))
    {
      hide EnvPeriod;
      if !modEnv.disabled {
        var period := EnvPeriod(modEnv.speed, masterSpeed, envFast);
        if period != 0 {
          var timer := (if modEnv.timer == 0 then period else modEnv.timer) - 1;
          if timer == 0 {
            modGain := RampGain(modGain, modEnv.increase);
            timer := period;
          }
          modEnv := modEnv.(timer := timer);
        }
      }
    }

    method EnvTickOne()
      modifies this`volume, this`volPending, this`modGain, this`volEnv, this`modEnv
      ensures State() == EnvTick(old(State()))
    {
      hide VolumeEnvTick, ModEnvTick;
      if envHalt || masterSpeed == 0 {
        return;
      }
      VolumeEnvOne();
      ModEnvOne();
    }

    method ClockModUnit()
      modifies this`modAcc, this`modCounter, this`modPos
      ensures State() == ModUnit(old(State()))
    {
      hide StepModCounter;
      if !modDisabled && modFreq != 0 && !envFast {
        var sum := modAcc + modFreq;
        modAcc := sum % 0x1000;
        if sum >= 0x1000 {
          modCounter := StepModCounter(modCounter, modTable[modPos / 2]);
          modPos := (modPos + 1) % 0x40;
        }
      }
    }

    method ClockWaveUnit()
      modifies this`waveAcc, this`wavePos, this`volume, this`volPending
      ensures State() == CommitPendingVolume(WaveUnit(old(State())))
    {
      hide WavePitch;
      if freq != 0 && !envFast {
        waveAcc := (waveAcc + WavePitch(freq, modCounter, modGain)) % 0x100_0000;
        wavePos := waveAcc / 0x4_0000;
      }
      if wavePos == 0 && volPending.Some? {
        volume := volPending.value;
        volPending := None;
      }
    }

    method ClockUnits()
      modifies this`modAcc, this`modCounter, this`modPos, this`waveAcc, this`wavePos, this`volume, this`volPending
      ensures State() == UnitTick(old(State()))
    {
      hide ModUnit, WaveUnit, CommitPendingVolume;
      ClockModUnit();
      ClockWaveUnit();
    }

    method TickOne()
      requires soundEnabled
      modifies this
      ensures soundEnabled && State() == FdsCycle(old(State()))
    {
      hide EnvTick, UnitTick;
      EnvTickOne();
      cycleAcc := cycleAcc + 1;
      if cycleAcc >= 16 {
        cycleAcc := cycleAcc - 16;
        ClockUnits();
      }
    }

    method Tick(cycles: nat)
      modifies this
      ensures State() == FdsBatch(old(State()), cycles) == Iterate(FdsTick, old(State()), cycles)
    {
      ghost var was := State();
      BatchIsCycles(was, cycles);
      if !soundEnabled {
        return;
      }
      hide FdsCycle;
      for i := 0 to cycles
        invariant State() == Iterate(FdsCycle, was, i) && soundEnabled
      {
        TickOne();
      }
    }
  }
}
