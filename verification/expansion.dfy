/** The aggregate of the expansion chips (src/expansion.rs:2642-2700). The VRC7 is
    disabled throughout. */
module ExpansionChips {
  import opened Words
  import opened KonamiVrc6
  import opened NintendoMmc5
  import opened Namco163
  import opened Sunsoft5b
  import opened FamicomDisk

  datatype Chips = Chips(vrc6: Vrc6, mmc5: Mmc5, s5b: S5b, fds: Fds, n163: N163)

  /** One CPU cycle of every enabled chip. */
  function ChipsTick(c: Chips): Chips {
    Chips(if c.vrc6.enabled then Vrc6Tick(c.vrc6) else c.vrc6,
          if c.mmc5.enabled then Mmc5Tick(c.mmc5) else c.mmc5,
          if c.s5b.enabled then S5bTick(c.s5b) else c.s5b,
          if c.fds.enabled then FdsTick(c.fds) else c.fds,
          if c.n163.enabled then N163Tick(c.n163) else c.n163)
  }

  function ChipsObserveRead(c: Chips, addr: u16, byte: u8): Chips {
    if 0x8000 <= addr <= 0xBFFF then c.(mmc5 := ObservePrgRead(c.mmc5, byte)) else c
  }

  lemma EnabledKept(c: Chips)
    ensures Vrc6Tick(c.vrc6).enabled == c.vrc6.enabled
    ensures Mmc5Tick(c.mmc5).enabled == c.mmc5.enabled
    ensures S5bTick(c.s5b).enabled == c.s5b.enabled
    ensures N163Tick(c.n163).enabled == c.n163.enabled
  {
    hide VrcPulseTick, SawTick, MmcPulseTick, ClockEnvelope, ClockLength, ToneStep, NoiseStep, RampStep;
    hide Decode, Advance, WithPhase, Nibble;
  }

  lemma FdsEnabledKept(s: Fds)
    ensures FdsTick(s).enabled == s.enabled
  {
    hide EnvTick, UnitTick;
    EnvEnabledKept(s);
    UnitEnabledKept(EnvTick(s).(cycleAcc := 0));
    if s.soundEnabled && s.cycleAcc + 1 >= 16 {
      UnitEnabledKept(EnvTick(s).(cycleAcc := s.cycleAcc + 1 - 16));
    }
  }

  lemma EnvEnabledKept(s: Fds)
    ensures EnvTick(s).enabled == s.enabled
  {
    hide Countdown, EnvPeriod, RampGain;
  }

  lemma UnitEnabledKept(s: Fds)
    ensures UnitTick(s).enabled == s.enabled
  {
    hide StepModCounter, WavePitch;
  }

  /** Ticking chip after chip for a whole batch is ticking all of them cycle by cycle. */
  lemma {:induction false} ChipByChip(c: Chips, n: nat)
    ensures Iterate(ChipsTick, c, n)
         == Chips(if c.vrc6.enabled then Iterate(Vrc6Tick, c.vrc6, n) else c.vrc6,
                  if c.mmc5.enabled then Iterate(Mmc5Tick, c.mmc5, n) else c.mmc5,
                  if c.s5b.enabled then Iterate(S5bTick, c.s5b, n) else c.s5b,
                  if c.fds.enabled then Iterate(FdsTick, c.fds, n) else c.fds,
                  if c.n163.enabled then Iterate(N163Tick, c.n163, n) else c.n163)
    ensures var r := Iterate(ChipsTick, c, n);
            r.vrc6.enabled == c.vrc6.enabled && r.mmc5.enabled == c.mmc5.enabled && r.s5b.enabled == c.s5b.enabled
            && r.fds.enabled == c.fds.enabled && r.n163.enabled == c.n163.enabled
  {
    hide Vrc6Tick, Mmc5Tick, S5bTick, FdsTick, N163Tick;
    if n > 0 {
      ChipByChip(c, n - 1);
      EnabledKept(Iterate(ChipsTick, c, n - 1));
      FdsEnabledKept(Iterate(ChipsTick, c, n - 1).fds);
    }
  }

  /** `tick`: every enabled chip takes the whole batch in its own way. */
  function ChipsBatch(c: Chips, n: nat): Chips {
    Chips(if c.vrc6.enabled then Vrc6Batch(c.vrc6, n) else c.vrc6,
          if c.mmc5.enabled then Mmc5Batch(c.mmc5, n) else c.mmc5,
          if c.s5b.enabled then S5bBatch(c.s5b, n) else c.s5b,
          if c.fds.enabled then FdsBatch(c.fds, n) else c.fds,
          if c.n163.enabled then N163Batch(c.n163, n) else c.n163)
  }

  /** Chip by chip and batch by batch, that is every chip cycle by cycle. */
  lemma ChipsBatchExact(c: Chips, n: nat)
    ensures Vrc6Batch(c.vrc6, n) == Iterate(Vrc6Tick, c.vrc6, n)
    ensures Mmc5Batch(c.mmc5, n) == Iterate(Mmc5Tick, c.mmc5, n)
    ensures S5bBatch(c.s5b, n) == Iterate(S5bTick, c.s5b, n)
    ensures FdsBatch(c.fds, n) == Iterate(FdsTick, c.fds, n)
    ensures N163Batch(c.n163, n) == Iterate(N163Tick, c.n163, n)
    ensures ChipsBatch(c, n) == Iterate(ChipsTick, c, n)
  {
    hide Vrc6Batch, Mmc5Batch, S5bBatch, FdsBatch, N163Batch;
    KonamiVrc6.BatchIsCycles(c.vrc6, n);
    NintendoMmc5.BatchIsCycles(c.mmc5, n);
    CyclesAreIntervals(c.s5b, n);
    FamicomDisk.BatchIsCycles(c.fds, n);
    Namco163.BatchIsCycles(c.n163, n);
    ChipByChip(c, n);
    hide Vrc6Tick, Mmc5Tick, S5bTick, FdsTick, N163Tick, ChipsTick, Iterate;
  }

  /** Splitting a batch anywhere changes nothing, for the aggregate and for every chip
      in it: the remainders each chip carries make the two halves join. */
  lemma BatchSplits(c: Chips, a: nat, b: nat)
    ensures ChipsBatch(ChipsBatch(c, a), b) == ChipsBatch(c, a + b)
    ensures Vrc6Batch(Vrc6Batch(c.vrc6, a), b) == Vrc6Batch(c.vrc6, a + b)
    ensures Mmc5Batch(Mmc5Batch(c.mmc5, a), b) == Mmc5Batch(c.mmc5, a + b)
    ensures S5bBatch(S5bBatch(c.s5b, a), b) == S5bBatch(c.s5b, a + b)
    ensures FdsBatch(FdsBatch(c.fds, a), b) == FdsBatch(c.fds, a + b)
    ensures N163Batch(N163Batch(c.n163, a), b) == N163Batch(c.n163, a + b)
  {
    hide *;
    ChipsBatchExact(c, a);
    ChipsBatchExact(c, a + b);
    ChipsBatchExact(ChipsBatch(c, a), b);
    ChipsBatchExact(Chips(Vrc6Batch(c.vrc6, a), Mmc5Batch(c.mmc5, a), S5bBatch(c.s5b, a), FdsBatch(c.fds, a),
                     N163Batch(c.n163, a)), b);
    IterateAdd(ChipsTick, c, a, b);
    IterateAdd(Vrc6Tick, c.vrc6, a, b);
    IterateAdd(Mmc5Tick, c.mmc5, a, b);
    IterateAdd(S5bTick, c.s5b, a, b);
    IterateAdd(FdsTick, c.fds, a, b);
    IterateAdd(N163Tick, c.n163, a, b);
  }

  class Expansion {
    const vrc6: Vrc6Chip
    const mmc5: Mmc5Chip
    const s5b: Sunsoft5bChip
    const fds: FdsChip
    const n163: Namco163Chip

    ghost function Objects(): set<object> {
      {vrc6, mmc5, s5b, fds, n163, n163.ram, n163.hold}
    }

    ghost predicate Valid()
      reads n163
    {
      n163.Valid()
    }

    ghost function State(): Chips
      reads n163, Objects()
      requires Valid()
    {
      Chips(vrc6.State(), mmc5.State(), s5b.State(), fds.State(), n163.State())
    }

    constructor ()
      ensures Valid() && fresh(Objects())
    {
      vrc6 := new Vrc6Chip();
      mmc5 := new Mmc5Chip();
      s5b := new Sunsoft5bChip();
      fds := new FdsChip();
      n163 := new Namco163Chip();
    }

    method ObserveRead(addr: u16, byte: u8)
      requires Valid()
      modifies mmc5
      ensures Valid() && State() == ChipsObserveRead(old(State()), addr, byte)
    {
      hide ObservePrgRead;
      if 0x8000 <= addr <= 0xBFFF {
        mmc5.ObserveRead(byte);
      }
    }

    /** Any batch, of any size, is that many single cycles of the whole aggregate. */
    method Tick(cycles: nat)
      requires Valid()
      modifies Objects()
      ensures Valid() && State() == ChipsBatch(old(State()), cycles) == Iterate(ChipsTick, old(State()), cycles)
    {
      hide Vrc6Batch, Mmc5Batch, S5bBatch, FdsBatch, N163Batch, ChipsTick, Iterate;
      ChipsBatchExact(State(), cycles);
      if vrc6.enabled {
        vrc6.Tick(cycles);
      }
      if mmc5.enabled {
        mmc5.Tick(cycles);
      }
      if s5b.enabled {
        s5b.Tick(cycles);
      }
      if fds.enabled {
        fds.Tick(cycles);
      }
      if n163.enabled {
        n163.Tick(cycles);
      }
    }
  }
}
