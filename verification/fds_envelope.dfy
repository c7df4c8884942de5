/** The envelope ramps of the Famicom Disk System sound unit, in closed form from a
    register write on (src/expansion.rs:2215-2298, 2440-2460, 2540-2623). */
module FdsRamps {
  import opened Words
  import opened FamicomDisk

  /** CPU clocks per ramp step: `8 * (e + 1) * (m + 1)`, or a quarter of that. */
  function RampClocks(e: nat, m: nat, fast: bool): (p: nat)
    ensures p >= 2
  {
    var units := (e + 1) * (m + 1);
    assert units >= 1 by { MulLe(1, e + 1, m + 1); }
    if fast then 2 * units else 8 * units
  }

  /** A gain after `k` steps: up to 32, or down to 0; one above 32 does not rise. */
  function Ramped(gain: int, rising: bool, k: int): int {
    if rising then Max(gain, Min(32, gain + k)) else Max(0, gain - k)
  }

  /** The gain that is set, whether or not it has been let through yet. */
  function SetGain(s: Fds): u6 {
    if s.volPending.Some? then s.volPending.value else s.volume
  }

  /** The wave unit stands still at position zero. */
  predicate WaveHeld(s: Fds) {
    s.wavePos == 0 && s.volPending.None? && (s.freq == 0 || s.envFast)
  }

  lemma PeriodIs(e: u6, m: u8, fast: bool)
    requires m != 0
    ensures EnvPeriod(e, m, fast) == RampClocks(e, m, fast)
  {
    var units := (e + 1) * (m + 1);
    assert units >= 1 by { MulLe(1, e + 1, m + 1); }
    assert 8 * units / 4 == 2 * units;
  }

  /** Both ramps run. */
  predicate Runs(s: Fds) {
    s.soundEnabled && !s.envHalt && s.masterSpeed != 0
  }

  /** What no clock changes: the registers of the envelopes and of the wave unit. */
  predicate SameRegisters(s: Fds, t: Fds) {
    && t.soundEnabled == s.soundEnabled && t.envHalt == s.envHalt && t.envFast == s.envFast
    && t.masterSpeed == s.masterSpeed && t.freq == s.freq
    && t.volEnv == s.volEnv.(timer := t.volEnv.timer) && t.modEnv == s.modEnv.(timer := t.modEnv.timer)
  }

  lemma UnitKeepsRamps(s: Fds)
    ensures var t := UnitTick(s);
            && SameRegisters(s, t) && t.volEnv == s.volEnv && t.modEnv == s.modEnv && t.modGain == s.modGain
            && SetGain(t) == SetGain(s) && (WaveHeld(s) ==> WaveHeld(t))
  {
    ModKeepsRamps(s);
    WaveKeepsRamps(ModUnit(s));
    hide ModUnit, WaveUnit;
  }

  lemma ModKeepsRamps(s: Fds)
    ensures var t := ModUnit(s);
            && SameRegisters(s, t) && t.volEnv == s.volEnv && t.modEnv == s.modEnv && t.modGain == s.modGain
            && t.volPending == s.volPending && t.volume == s.volume && t.wavePos == s.wavePos
  {
    hide StepModCounter;
  }

  lemma WaveKeepsRamps(s: Fds)
    ensures var t := WaveUnit(s);
            && SameRegisters(s, t) && t.volEnv == s.volEnv && t.modEnv == s.modEnv && t.modGain == s.modGain
            && t.volPending == s.volPending && t.volume == s.volume && (WaveHeld(s) ==> t.wavePos == 0)
  {
    hide WavePitch;
  }

  /** One countdown step of a running ramp. */
  lemma CountdownStep(e: EnvelopeUnit, period: nat)
    requires !e.disabled && 2 <= period && 1 <= e.timer <= period
    ensures Countdown(e, period) == if e.timer == 1 then (period, true) else (e.timer - 1, false)
  {
  }

  lemma VolumeTick(s: Fds)
    requires s.masterSpeed != 0 && !s.volEnv.disabled
    requires 1 <= s.volEnv.timer <= RampClocks(s.volEnv.speed, s.masterSpeed, s.envFast)
    ensures var t, last := VolumeEnvTick(s), s.volEnv.timer == 1;
            && t == s.(volume := t.volume, volPending := t.volPending, volEnv := t.volEnv) && SameRegisters(s, t)
            && t.volEnv.timer == (if last then RampClocks(s.volEnv.speed, s.masterSpeed, s.envFast) else s.volEnv.timer - 1)
            && SetGain(t) == (if last then Ramped(SetGain(s), s.volEnv.increase, 1) else SetGain(s))
            && (WaveHeld(s) ==> WaveHeld(t))
  {
    hide EnvPeriod, RampClocks;
    PeriodIs(s.volEnv.speed, s.masterSpeed, s.envFast);
    CountdownStep(s.volEnv, RampClocks(s.volEnv.speed, s.masterSpeed, s.envFast));
    hide Countdown;
  }

  lemma ModTick(s: Fds)
    requires s.masterSpeed != 0 && !s.modEnv.disabled
    requires 1 <= s.modEnv.timer <= RampClocks(s.modEnv.speed, s.masterSpeed, s.envFast)
    ensures var t, last := ModEnvTick(s), s.modEnv.timer == 1;
            && t == s.(modGain := t.modGain, modEnv := t.modEnv) && SameRegisters(s, t)
            && t.modEnv.timer == (if last then RampClocks(s.modEnv.speed, s.masterSpeed, s.envFast) else s.modEnv.timer - 1)
            && t.modGain == (if last then Ramped(s.modGain, s.modEnv.increase, 1) else s.modGain)
  {
    hide EnvPeriod, RampClocks;
    PeriodIs(s.modEnv.speed, s.masterSpeed, s.envFast);
    CountdownStep(s.modEnv, RampClocks(s.modEnv.speed, s.masterSpeed, s.envFast));
    hide Countdown;
  }

  lemma VolumeTickKeeps(s: Fds)
    ensures var t := VolumeEnvTick(s);
            t == s.(volume := t.volume, volPending := t.volPending, volEnv := t.volEnv) && SameRegisters(s, t)
            && (s.volEnv.disabled ==> t == s)
  {
    hide EnvPeriod, RampGain;
  }

  lemma ModTickKeeps(s: Fds)
    ensures var t := ModEnvTick(s); t == s.(modGain := t.modGain, modEnv := t.modEnv) && SameRegisters(s, t)
  {
    hide EnvPeriod, RampGain;
  }

  /** A whole cycle, on the volume ramp, */
  lemma VolumeCycle(s: Fds)
    requires Runs(s) && !s.volEnv.disabled
    requires 1 <= s.volEnv.timer <= RampClocks(s.volEnv.speed, s.masterSpeed, s.envFast)
    ensures var t, last := FdsTick(s), s.volEnv.timer == 1;
            && SameRegisters(s, t)
            && t.volEnv.timer == (if last then RampClocks(s.volEnv.speed, s.masterSpeed, s.envFast) else s.volEnv.timer - 1)
            && SetGain(t) == (if last then Ramped(SetGain(s), s.volEnv.increase, 1) else SetGain(s))
            && (WaveHeld(s) ==> WaveHeld(t))
  {
    hide VolumeEnvTick, ModEnvTick, UnitTick, RampClocks, Ramped;
    VolumeTick(s);
    ModTickKeeps(VolumeEnvTick(s));
    var e := EnvTick(s);
    if s.cycleAcc + 1 >= 16 {
      UnitKeepsRamps(e.(cycleAcc := s.cycleAcc + 1 - 16));
    }
  }

  /** and on the modulator's. */
  lemma ModCycle(s: Fds)
    requires Runs(s) && !s.modEnv.disabled
    requires 1 <= s.modEnv.timer <= RampClocks(s.modEnv.speed, s.masterSpeed, s.envFast)
    ensures var t, last := FdsTick(s), s.modEnv.timer == 1;
            && SameRegisters(s, t)
            && t.modEnv.timer == (if last then RampClocks(s.modEnv.speed, s.masterSpeed, s.envFast) else s.modEnv.timer - 1)
            && t.modGain == (if last then Ramped(s.modGain, s.modEnv.increase, 1) else s.modGain)
  {
    hide VolumeEnvTick, ModEnvTick, UnitTick, RampClocks, Ramped;
    VolumeTickKeeps(s);
    ModTick(VolumeEnvTick(s));
    var e := EnvTick(s);
    if s.cycleAcc + 1 >= 16 {
      UnitKeepsRamps(e.(cycleAcc := s.cycleAcc + 1 - 16));
    }
  }

  lemma NoNegative(n: nat, p: nat)
    requires p >= 1
    ensures 0 <= n / p
  {
  }

  lemma RampedMore(gain: u6, rising: bool, k: int)
    requires 0 <= k
    ensures 0 <= Ramped(gain, rising, k) < 0x40
    ensures Ramped(Ramped(gain, rising, k), rising, 1) == Ramped(gain, rising, k + 1)
    ensures Ramped(gain, rising, 0) == gain
  {
  }

  /** The volume ramp after any number of cycles: one step at the end of every period,
      and none on any other cycle; at a wave position held at zero the audible gain
      follows at once. */
  lemma {:induction false} VolumeRamp(s: Fds, n: nat)
    requires Runs(s) && !s.volEnv.disabled
    requires s.volEnv.timer == RampClocks(s.volEnv.speed, s.masterSpeed, s.envFast)
    ensures var t, p := Iterate(FdsTick, s, n), RampClocks(s.volEnv.speed, s.masterSpeed, s.envFast);
            && SameRegisters(s, t) && t.volEnv.timer == p - n % p
            && SetGain(t) == Ramped(SetGain(s), s.volEnv.increase, n / p)
            && (WaveHeld(s) ==> WaveHeld(t))
  {
    hide FdsTick, RampClocks, Ramped, WaveHeld;
    var p := RampClocks(s.volEnv.speed, s.masterSpeed, s.envFast);
    if n == 0 {
      DivModUnique(0, p, 0, 0);
      RampedMore(SetGain(s), s.volEnv.increase, 0);
    } else {
      VolumeRamp(s, n - 1);
      VolumeCycle(Iterate(FdsTick, s, n - 1));
      SuccMod(n - 1, p);
      NoNegative(n - 1, p);
      RampedMore(SetGain(s), s.volEnv.increase, (n - 1) / p);
    }
  }

  lemma {:induction false} ModRamp(s: Fds, n: nat)
    requires Runs(s) && !s.modEnv.disabled
    requires s.modEnv.timer == RampClocks(s.modEnv.speed, s.masterSpeed, s.envFast)
    ensures var t, p := Iterate(FdsTick, s, n), RampClocks(s.modEnv.speed, s.masterSpeed, s.envFast);
            && SameRegisters(s, t) && t.modEnv.timer == p - n % p
            && t.modGain == Ramped(s.modGain, s.modEnv.increase, n / p)
  {
    hide FdsTick, RampClocks, Ramped;
    var p := RampClocks(s.modEnv.speed, s.masterSpeed, s.envFast);
    if n == 0 {
      DivModUnique(0, p, 0, 0);
      RampedMore(s.modGain, s.modEnv.increase, 0);
    } else {
      ModRamp(s, n - 1);
      ModCycle(Iterate(FdsTick, s, n - 1));
      SuccMod(n - 1, p);
      NoNegative(n - 1, p);
      RampedMore(s.modGain, s.modEnv.increase, (n - 1) / p);
    }
  }

  /** From a $4080 write that starts the volume ramp on: bit 6 says up, the low six bits
      give the speed, and while the wave stands at position zero the volume itself is
      the ramp. */
  lemma VolumeRamps(s: Fds, value: u8, n: nat)
    requires Runs(s) && value < 0x80
    ensures var t := Iterate(FdsTick, FdsWrite(s, 0x4080, value), n);
            var k := n / RampClocks(value % 0x40, s.masterSpeed, s.envFast);
            && SetGain(t) == Ramped(SetGain(s), value >= 0x40, k)
            && (WaveHeld(s) ==> t.volume == Ramped(s.volume, value >= 0x40, k))
  {
    hide FdsTick, RampClocks, Ramped, EnvPeriod;
    PeriodIs(value % 0x40, s.masterSpeed, s.envFast);
    VolumeRamp(FdsWrite(s, 0x4080, value), n);
  }

  lemma ModStarts(s: Fds, value: u8)
    requires s.masterSpeed != 0 && value < 0x80
    ensures FdsWrite(s, 0x4084, value) == s.(modEnv := EnvelopeUnit(value % 0x40, value >= 0x40, false,
                                               RampClocks(value % 0x40, s.masterSpeed, s.envFast)))
  {
    hide RampClocks, EnvPeriod;
    PeriodIs(value % 0x40, s.masterSpeed, s.envFast);
  }

  /** The same of $4084 and the modulator's gain, whatever the wave does. */
  lemma ModRamps(s: Fds, value: u8, n: nat)
    requires Runs(s) && value < 0x80
    ensures Iterate(FdsTick, FdsWrite(s, 0x4084, value), n).modGain
         == Ramped(s.modGain, value >= 0x40, n / RampClocks(value % 0x40, s.masterSpeed, s.envFast))
  {
    hide FdsTick, RampClocks, Ramped, EnvPeriod;
    ModStarts(s, value);
    hide FdsWrite;
    ModRamp(FdsWrite(s, 0x4084, value), n);
  }

  /** And ramps stand still with a unit disabled, both of them halted, or speed zero. */
  lemma {:induction false} RampsStand(s: Fds, n: nat)
    requires s.soundEnabled
    ensures var t := Iterate(FdsTick, s, n);
            && SameRegisters(s, t)
            && (s.envHalt || s.masterSpeed == 0 || s.volEnv.disabled ==> SetGain(t) == SetGain(s) && t.volEnv == s.volEnv)
            && (s.envHalt || s.masterSpeed == 0 || s.modEnv.disabled ==> t.modGain == s.modGain && t.modEnv == s.modEnv)
  {
    if n > 0 {
      RampsStand(s, n - 1);
      StandCycle(Iterate(FdsTick, s, n - 1));
      hide FdsTick;
    }
  }

  lemma StandCycle(s: Fds)
    requires s.soundEnabled
    ensures var t := FdsTick(s);
            && SameRegisters(s, t)
            && (s.envHalt || s.masterSpeed == 0 || s.volEnv.disabled ==> SetGain(t) == SetGain(s) && t.volEnv == s.volEnv)
            && (s.envHalt || s.masterSpeed == 0 || s.modEnv.disabled ==> t.modGain == s.modGain && t.modEnv == s.modEnv)
  {
    hide VolumeEnvTick, ModEnvTick, UnitTick;
    VolumeTickKeeps(s);
    ModTickKeeps(VolumeEnvTick(s));
    if s.modEnv.disabled {
      ModStands(VolumeEnvTick(s));
    }
    var e := EnvTick(s);
    if s.cycleAcc + 1 >= 16 {
      UnitKeepsRamps(e.(cycleAcc := s.cycleAcc + 1 - 16));
    }
  }

  lemma ModStands(s: Fds)
    requires s.modEnv.disabled
    ensures ModEnvTick(s) == s
  {
    hide EnvPeriod;
  }
}
