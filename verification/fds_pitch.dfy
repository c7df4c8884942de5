/** The wave and modulation units of the Famicom Disk System sound in closed form, and
    what its registers set (src/expansion.rs:2215-2332, 2462-2540). */
module FdsPitch {
  import opened Words
  import opened FamicomDisk

  // --------------------------------------------------------------- registers

  /** The pitch: twelve bits over two registers, with the halt and fast bits of the
      second. */
  lemma PitchRegisters(s: Fds, low: u8, high: u8)
    ensures var r := FdsWrite(FdsWrite(s, 0x4082, low), 0x4083, high);
            && r.freq == low + 0x100 * (high % 0x10) && r.envHalt == (high / 0x40 % 2 == 1) && r.envFast == (high >= 0x80)
            && (high >= 0x80 ==> r.wavePos == 0 && r.waveAcc == 0)
            && (high < 0x80 ==> r.wavePos == s.wavePos && r.waveAcc == s.waveAcc)
  {
    hide EnvPeriod;
    assert (s.freq / 0x100 * 0x100 + low) % 0x100 == low;
  }

  /** The modulator: counter, frequency and its disable bit. */
  lemma ModRegisters(s: Fds, counter: u8, low: u8, high: u8)
    ensures var r := FdsWrite(FdsWrite(FdsWrite(s, 0x4085, counter), 0x4086, low), 0x4087, high);
            && (r.modCounter - counter) % 0x80 == 0 && r.modFreq == low + 0x100 * (high % 0x10)
            && r.modDisabled == (high >= 0x80) && r.modAcc == (if high >= 0x80 then 0 else s.modAcc)
            && r == s.(modCounter := r.modCounter, modFreq := r.modFreq, modDisabled := r.modDisabled, modAcc := r.modAcc)
  {
    hide EnvelopeWrite;
    assert (s.modFreq / 0x100 * 0x100 + low) % 0x100 == low;
  }

  /** $4088 with each of the values in turn. */
  function TableWrites(s: Fds, values: seq<u8>): Fds {
    if values == [] then s else FdsWrite(TableWrites(s, values[..|values| - 1]), 0x4088, values[|values| - 1])
  }

  /** The `i`-th table entry from a position on. */
  function Entry(pos: u6, i: nat): (e: nat)
    ensures e < 32
  {
    (pos / 2 + i) % 32
  }

  /** While the modulator is disabled the writes fill the table in order, entry by entry
      from where its position stands and round the end; 32 of them replace it. */
  lemma {:induction false} TableFilled(s: Fds, values: seq<u8>)
    requires s.modDisabled && |values| <= 32
    ensures var r := TableWrites(s, values);
            && r == s.(modTable := r.modTable, modPos := (s.modPos + 2 * |values|) % 0x40)
            && (forall i :: 0 <= i < |values| ==> r.modTable[Entry(s.modPos, i)] == values[i] % 8)
            && (forall i :: |values| <= i < 32 ==> r.modTable[Entry(s.modPos, i)] == s.modTable[Entry(s.modPos, i)])
  {
    if values != [] {
      var front, last := values[..|values| - 1], values[|values| - 1];
      TableFilled(s, front);
      var t := TableWrites(s, front);
      TableWriteIs(t, last);
      EntryOf(s.modPos, |front|);
      hide FdsWrite, Entry;
      var r := TableWrites(s, values);
      assert r.modTable == t.modTable[Entry(s.modPos, |front|) := last % 8];
      forall i | 0 <= i < 32 && i != |front|
        ensures r.modTable[Entry(s.modPos, i)] == t.modTable[Entry(s.modPos, i)]
      {
        EntriesDiffer(s.modPos, i, |front|);
      }
    }
  }

  lemma EntryOf(pos: u6, k: nat)
    ensures (pos + 2 * k) % 0x40 / 2 == Entry(pos, k)
    ensures ((pos + 2 * k) % 0x40 + 2) % 0x40 == (pos + 2 * (k + 1)) % 0x40
  {
    var a, b := pos / 2, pos % 2;
    var q, r := (a + k) / 32, (a + k) % 32;
    assert pos + 2 * k == q * 0x40 + (2 * r + b);
    DivModUnique(pos + 2 * k, 0x40, q, 2 * r + b);
    ModAdd(pos + 2 * k, 2, 0x40);
  }

  lemma EntriesDiffer(pos: u6, i: nat, j: nat)
    requires i < 32 && j < 32 && i != j
    ensures Entry(pos, i) != Entry(pos, j)
  {
  }

  lemma TableWriteIs(t: Fds, value: u8)
    requires t.modDisabled
    ensures FdsWrite(t, 0x4088, value)
         == t.(modTable := t.modTable[t.modPos / 2 := value % 8], modPos := (t.modPos + 2) % 0x40)
  {
  }

  // -------------------------------------------------------------------- pitch

  /** The modulated pitch in numbers. A sixteenth of counter times gain, rounded up by
      two where it is inexact and the product lies in [0, $800) or below -$800, is added
      to 64 and kept in eight bits; unmodulated the factor is 64. */
  lemma PitchIs(freq: u12, counter: Signed7, gain: u6)
    ensures var product := counter * gain;
            var up := if product % 0x10 != 0 && (0 <= product < 0x800 || product < -0x800) then 2 else 0;
            WavePitch(freq, counter, gain) == freq * ((product / 0x10 + up + 0x40) % 0x100)
    ensures counter == 0 || gain == 0 ==> WavePitch(freq, counter, gain) == freq * 0x40
  {
    ProductBounds(counter, gain);
    var product := counter * gain;
    FactorIs(product);
  }

  lemma ProductBounds(counter: Signed7, gain: u6)
    ensures -0x1000 <= counter * gain < 0x1000
  {
    if counter >= 0 {
      MulLe(counter, 63, gain);
    } else {
      var down: int := -(counter as int);
      MulLe(down, 64, gain);
      assert down * gain == -(counter * gain);
    }
  }

  lemma FactorIs(product: int)
    requires -0x1000 <= product < 0x1000
    ensures var rounded := if product % 0x10 != 0 && product % 0x1000 < 0x800 then product + 0x20 else product;
            var up := if product % 0x10 != 0 && (0 <= product < 0x800 || product < -0x800) then 2 else 0;
            (rounded + 0x400) / 0x10 % 0x100 == (product / 0x10 + up + 0x40) % 0x100
  {
  }

  /** A sound that is on, its wave and modulator running, with the modulation gain fixed. */
  predicate Steady(s: Fds) {
    s.soundEnabled && !s.envFast && s.cycleAcc < 16 && (s.modEnv.disabled || s.envHalt || s.masterSpeed == 0)
  }

  predicate SameSettings(s: Fds, t: Fds) {
    && Steady(t) && t.freq == s.freq && t.modFreq == s.modFreq && t.modDisabled == s.modDisabled
    && t.modTable == s.modTable && t.modGain == s.modGain && t.modEnv.disabled == s.modEnv.disabled
    && t.envHalt == s.envHalt && t.masterSpeed == s.masterSpeed
  }

  lemma EnvKeepsUnits(s: Fds)
    requires Steady(s)
    ensures var t := EnvTick(s);
            && SameSettings(s, t) && t.cycleAcc == s.cycleAcc && t.modCounter == s.modCounter && t.modPos == s.modPos
            && t.modAcc == s.modAcc && t.wavePos == s.wavePos && t.waveAcc == s.waveAcc
  {
    hide EnvPeriod, RampGain;
  }

  /** One unit tick. */
  lemma UnitTickIs(s: Fds)
    requires Steady(s)
    ensures var t := UnitTick(s);
            && SameSettings(s, t) && t.cycleAcc == s.cycleAcc
            && UnitsTicked(s, t)
  {
    hide StepModCounter, WavePitch;
  }

  /** What a unit tick does to the two units. */
  predicate UnitsTicked(s: Fds, t: Fds) {
    && t.modCounter == ModUnit(s).modCounter && t.modPos == ModUnit(s).modPos && t.modAcc == ModUnit(s).modAcc
    && (s.freq == 0 ==> t.waveAcc == s.waveAcc && t.wavePos == s.wavePos)
    && (s.freq != 0 ==>
          && t.waveAcc == (s.waveAcc + WavePitch(s.freq, t.modCounter, s.modGain)) % 0x100_0000
          && t.wavePos == t.waveAcc / 0x4_0000)
  }

  predicate UnitsSame(s: Fds, t: Fds) {
    && t.modCounter == s.modCounter && t.modPos == s.modPos && t.modAcc == s.modAcc
    && t.wavePos == s.wavePos && t.waveAcc == s.waveAcc
  }

  lemma CycleIs(s: Fds)
    requires Steady(s)
    ensures var t := FdsTick(s);
            && SameSettings(s, t) && t.cycleAcc == (s.cycleAcc + 1) % 16
            && if s.cycleAcc < 15 then UnitsSame(s, t) else UnitsTicked(s, t)
  {
    hide EnvTick, UnitTick, ModUnit, WavePitch;
    EnvKeepsUnits(s);
    if s.cycleAcc == 15 {
      var e := EnvTick(s).(cycleAcc := 0);
      UnitTickIs(e);
      ModAgrees(s, e);
    }
  }

  lemma ModAgrees(s: Fds, e: Fds)
    requires SameSettings(s, e) && !s.envFast
    requires e.modCounter == s.modCounter && e.modPos == s.modPos && e.modAcc == s.modAcc
    ensures ModUnit(e).modCounter == ModUnit(s).modCounter && ModUnit(e).modPos == ModUnit(s).modPos
            && ModUnit(e).modAcc == ModUnit(s).modAcc
  {
    hide StepModCounter;
  }

  /** `k` times a step. */
  function Times(step: nat, k: nat): nat {
    if k == 0 then 0 else Times(step, k - 1) + step
  }

  lemma {:induction false} TimesIs(step: nat, k: nat)
    ensures Times(step, k) == step * k
  {
    if k > 0 {
      TimesIs(step, k - 1);
      assert step * k == step * (k - 1) + step;
    }
  }

  /** The wave after `k` unit ticks unmodulated: its accumulator has grown by 64 times
      the frequency on each, in 24 bits, and its top six are the wave position. */
  predicate WaveAt(s: Fds, t: Fds, k: nat) {
    && t.waveAcc == (s.waveAcc + Times(0x40 * s.freq, k)) % 0x100_0000
    && t.wavePos == if k == 0 then s.wavePos else t.waveAcc / 0x4_0000
  }

  lemma WaveStep(s: Fds, r: Fds, t: Fds, k: nat)
    requires s.freq == r.freq != 0 && r.modGain == 0 && WaveAt(s, r, k) && UnitsTicked(r, t)
    ensures WaveAt(s, t, k + 1)
  {
    PitchIs(s.freq, t.modCounter, 0);
    var step := 0x40 * s.freq;
    assert Times(step, k + 1) == Times(step, k) + step;
    hide WavePitch, ModUnit, Times;
    ModAdd(s.waveAcc + Times(step, k), step, 0x100_0000);
  }

  lemma {:induction false} WaveRuns(s: Fds, n: nat)
    requires Steady(s) && s.freq != 0 && s.modGain == 0
    ensures var t := Iterate(FdsTick, s, n);
            SameSettings(s, t) && t.cycleAcc == (s.cycleAcc + n) % 16 && WaveAt(s, t, (s.cycleAcc + n) / 16)
  {
    hide FdsTick, UnitsTicked, Steady;
    if n == 0 {
      SteadyAcc(s);
    } else {
      hide WaveAt;
      WaveRuns(s, n - 1);
      var r, t, k := Iterate(FdsTick, s, n - 1), Iterate(FdsTick, s, n), (s.cycleAcc + n - 1) / 16;
      CycleIs(r);
      if r.cycleAcc == 15 {
        WaveStep(s, r, t, k);
      } else {
        WaveSame(s, r, t, k);
      }
    }
  }

  lemma WaveSame(s: Fds, r: Fds, t: Fds, k: nat)
    requires WaveAt(s, r, k) && UnitsSame(r, t)
    ensures WaveAt(s, t, k)
  {
  }

  // --------------------------------------------------------------- modulation

  /** What a table entry does to the modulation counter. */
  const DELTAS: seq<int> := [0, 1, 2, 4, 0, -4, -2, -1]

  /** One step: entry 4 resets, and every other one adds its amount in seven bits. */
  lemma CounterStep(counter: Signed7, entry: u3)
    ensures var r := StepModCounter(counter, entry);
            if entry == 4 then r == 0 else (r - counter - DELTAS[entry]) % 0x80 == 0
  {
  }

  function CounterAfter(counter: Signed7, table: ModTable, pos: nat, k: nat): Signed7 {
    if k == 0 then counter else StepModCounter(CounterAfter(counter, table, pos, k - 1), table[(pos + k - 1) % 0x40 / 2])
  }

  /** The modulator after `k` unit ticks: its accumulator has grown by its frequency on
      each, and each overflow of twelve bits has taken one of the 64 steps through the
      table. */
  predicate ModulatorAt(s: Fds, t: Fds, k: nat) {
    var sum := s.modAcc + Times(s.modFreq, k);
    && t.modAcc == sum % 0x1000 && t.modPos == (s.modPos + sum / 0x1000) % 0x40
    && t.modCounter == CounterAfter(s.modCounter, s.modTable, s.modPos, sum / 0x1000)
  }

  lemma ModulatorStarts(s: Fds)
    ensures ModulatorAt(s, s, 0)
  {
  }

  lemma ModulatorStep(s: Fds, r: Fds, t: Fds, k: nat)
    requires Steady(r) && !r.modDisabled && r.modFreq == s.modFreq != 0 && r.modTable == s.modTable
    requires ModulatorAt(s, r, k) && UnitsTicked(r, t)
    ensures ModulatorAt(s, t, k + 1)
  {
    ModUnitIs(r);
    hide Steady, ModUnit, StepModCounter, WavePitch, CounterAfter;
    var sum := s.modAcc + Times(s.modFreq, k);
    Carries(sum, s.modFreq);
    if r.modAcc + s.modFreq >= 0x1000 {
      CounterMore(s.modCounter, s.modTable, s.modPos, sum / 0x1000);
      NextPosition(s.modPos + sum / 0x1000);
    }
  }

  lemma NextPosition(x: nat)
    ensures (x % 0x40 + 1) % 0x40 == (x + 1) % 0x40
  {
  }

  lemma CounterMore(counter: Signed7, table: ModTable, pos: nat, k: nat)
    ensures CounterAfter(counter, table, pos, k + 1) == StepModCounter(CounterAfter(counter, table, pos, k), table[(pos + k) % 0x40 / 2])
  {
    hide StepModCounter;
  }

  /** The modulator over any number of cycles. */
  lemma {:induction false} ModulatorRuns(s: Fds, n: nat)
    requires Steady(s) && !s.modDisabled && s.modFreq != 0
    ensures var t := Iterate(FdsTick, s, n);
            SameSettings(s, t) && t.cycleAcc == (s.cycleAcc + n) % 16 && ModulatorAt(s, t, (s.cycleAcc + n) / 16)
  {
    hide FdsTick, ModulatorAt, UnitsTicked, Steady;
    if n == 0 {
      ModulatorStarts(s);
      SteadyAcc(s);
    } else {
      ModulatorRuns(s, n - 1);
      var r, t, k := Iterate(FdsTick, s, n - 1), Iterate(FdsTick, s, n), (s.cycleAcc + n - 1) / 16;
      CycleIs(r);
      if r.cycleAcc == 15 {
        ModulatorStep(s, r, t, k);
      } else {
        ModulatorSame(s, r, t, k);
      }
    }
  }

  /** The modulation counter at unit tick `k`, and what the wave accumulator has grown by
      until then: on each tick the pitch that the counter has just been stepped to. */
  function CounterAt(s: Fds, k: nat): Signed7 {
    CounterAfter(s.modCounter, s.modTable, s.modPos, (s.modAcc + Times(s.modFreq, k)) / 0x1000)
  }

  function Swung(s: Fds, k: nat): nat {
    if k == 0 then 0 else Swung(s, k - 1) + WavePitch(s.freq, CounterAt(s, k), s.modGain)
  }

  predicate SwungAt(s: Fds, t: Fds, k: nat) {
    && t.waveAcc == (s.waveAcc + Swung(s, k)) % 0x100_0000
    && t.wavePos == if k == 0 then s.wavePos else t.waveAcc / 0x4_0000
  }

  lemma SwungStep(s: Fds, r: Fds, t: Fds, k: nat)
    requires s.freq == r.freq != 0 && r.modGain == s.modGain && SwungAt(s, r, k) && UnitsTicked(r, t)
    requires t.modCounter == CounterAt(s, k + 1)
    ensures SwungAt(s, t, k + 1)
  {
    hide CounterAt, WavePitch, ModUnit;
    ModAdd(s.waveAcc + Swung(s, k), WavePitch(s.freq, t.modCounter, s.modGain), 0x100_0000);
  }

  /** The modulated wave over any number of cycles. */
  lemma {:induction false} ModulatedRuns(s: Fds, n: nat)
    requires Steady(s) && s.freq != 0 && !s.modDisabled && s.modFreq != 0
    ensures SwungAt(s, Iterate(FdsTick, s, n), (s.cycleAcc + n) / 16)
  {
    hide FdsTick, UnitsTicked, Steady, SwungAt;
    if n == 0 {
      SteadyAcc(s);
      assert SwungAt(s, s, 0) by { SwungStarts(s); }
    } else {
      ModulatedRuns(s, n - 1);
      ModulatorRuns(s, n - 1);
      ModulatorRuns(s, n);
      hide ModulatorAt;
      var r, t, k := Iterate(FdsTick, s, n - 1), Iterate(FdsTick, s, n), (s.cycleAcc + n - 1) / 16;
      CycleIs(r);
      if r.cycleAcc == 15 {
        CounterIs(s, t, k + 1);
        SwungStep(s, r, t, k);
      } else {
        SwungSame(s, r, t, k);
      }
    }
  }

  lemma SwungStarts(s: Fds)
    ensures SwungAt(s, s, 0)
  {
  }

  lemma CounterIs(s: Fds, t: Fds, k: nat)
    requires ModulatorAt(s, t, k)
    ensures t.modCounter == CounterAt(s, k)
  {
  }

  lemma SwungSame(s: Fds, r: Fds, t: Fds, k: nat)
    requires SwungAt(s, r, k) && UnitsSame(r, t)
    ensures SwungAt(s, t, k)
  {
  }

  lemma SteadyAcc(s: Fds)
    requires Steady(s)
    ensures s.cycleAcc < 16 && SameSettings(s, s)
  {
  }

  lemma ModulatorSame(s: Fds, r: Fds, t: Fds, k: nat)
    requires ModulatorAt(s, r, k) && UnitsSame(r, t)
    ensures ModulatorAt(s, t, k)
  {
  }

  lemma ModUnitIs(s: Fds)
    requires Steady(s) && !s.modDisabled && s.modFreq != 0
    ensures var t, over := ModUnit(s), s.modAcc + s.modFreq >= 0x1000;
            && t.modAcc == (if over then s.modAcc + s.modFreq - 0x1000 else s.modAcc + s.modFreq)
            && t.modPos == (if over then (s.modPos + 1) % 0x40 else s.modPos)
            && t.modCounter == if over then StepModCounter(s.modCounter, s.modTable[s.modPos / 2]) else s.modCounter
  {
    hide StepModCounter;
  }

  lemma Carries(sum: nat, step: u12)
    ensures (sum + step) % 0x1000 == (if sum % 0x1000 + step >= 0x1000 then sum % 0x1000 + step - 0x1000 else sum % 0x1000 + step)
    ensures (sum + step) / 0x1000 == sum / 0x1000 + if sum % 0x1000 + step >= 0x1000 then 1 else 0
  {
  }
}
