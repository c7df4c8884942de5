/** What the frame counter does to the units it clocks: envelopes, length counters, the
    linear counter and the sweep, in closed form over any number of CPU cycles
    (src/apu.rs:91-155, 228-303, 383-410, 1330-1508). */
module FrameUnits {
  import opened Words
  import opened Dividers
  import opened Channels
  import opened DeltaModulation
  import opened FrameSequencer
  import opened FrameCounter
  import opened ExpansionChips
  import opened Apu2A03

  // ------------------------------------------------------------ closed forms

  /** A length counter after `n` half-frame clocks. */
  function LengthAfter(c: LengthCounter, n: nat): int {
    if c.halt then c.counter else Max(c.counter - n, 0)
  }

  /** An envelope after `n` quarter-frame clocks. A start flag costs the first of them. */
  predicate EnvelopeAfter(e: Envelope, f: Envelope, n: nat) {
    && f.volume == e.volume && f.constant == e.constant && f.loopFlag == e.loopFlag && f.start == (e.start && n == 0)
    && (if e.start && n > 0 then
          && f.divider == TimerAt(e.volume, e.volume, n - 1)
          && f.decay == DecayAfter(15, e.loopFlag, Expiries(e.volume, e.volume, n - 1))
        else
          && f.divider == TimerAt(e.divider, e.volume, n)
          && f.decay == DecayAfter(e.decay, e.loopFlag, Expiries(e.divider, e.volume, n)))
  }

  /** The linear counter after `n` quarter-frame clocks: reloaded by the first, and by
      every one while the control flag is set, and otherwise counting down. */
  predicate LinearAfter(t: Triangle, r: Triangle, n: nat) {
    && r.linearReloadValue == t.linearReloadValue && r.controlFlag == t.controlFlag
    && r.linearReload == (t.linearReload && (t.controlFlag || n == 0))
    && r.linearCounter == (if n == 0 then t.linearCounter
                           else if !t.linearReload then Max(t.linearCounter - n, 0)
                           else if t.controlFlag then t.linearReloadValue
                           else Max(t.linearReloadValue - (n - 1), 0))
  }

  /** A pulse after `q` quarter- and `h` half-frame clocks. */
  predicate PulseAfter(p: Pulse, r: Pulse, q: nat, h: nat) {
    && EnvelopeAfter(p.envelope, r.envelope, q)
    && r.length.halt == p.length.halt && r.length.counter == LengthAfter(p.length, h)
    && Swept(r) == Swept(Iterate(ClockSweep, p, h))
  }

  /** All that the sweep unit reads and writes. */
  function Swept(p: Pulse): (u11, bool, u3, bool, u3, bool, u3, bool) {
    (p.timerPeriod, p.sweepEnabled, p.sweepPeriod, p.sweepNegate, p.sweepShift, p.sweepReload, p.sweepDivider, p.isPulseTwo)
  }

  /** All units after `q` quarter- and `h` half-frame clocks. */
  predicate UnitsAfter(u: Units, v: Units, q: nat, h: nat) {
    && PulseAfter(u.pulse1, v.pulse1, q, h) && PulseAfter(u.pulse2, v.pulse2, q, h)
    && LinearAfter(u.triangle, v.triangle, q)
    && v.triangle.length.halt == u.triangle.length.halt
    && v.triangle.length.counter == LengthAfter(u.triangle.length, h)
    && EnvelopeAfter(u.noise.envelope, v.noise.envelope, q)
    && v.noise.length.halt == u.noise.length.halt && v.noise.length.counter == LengthAfter(u.noise.length, h)
  }

  // -------------------------------------------------------------- one clock

  /** One more quarter-frame clock, on an envelope */
  lemma EnvelopeStep(e: Envelope, f: Envelope, n: nat)
    requires EnvelopeAfter(e, f, n)
    ensures EnvelopeAfter(e, f.Clock(), n + 1)
  {
    if e.start {
      if n == 0 {
        TimerStart(e.volume, e.volume);
        DecayStep(15, e.loopFlag, 0);
        hide TimerAt, Expiries, DecayAfter;
      } else {
        TimerStep(e.volume, e.volume, n - 1);
        DecayStep(15, e.loopFlag, Expiries(e.volume, e.volume, n - 1));
        hide TimerAt, Expiries, DecayAfter;
      }
    } else {
      TimerStep(e.divider, e.volume, n);
      DecayStep(e.decay, e.loopFlag, Expiries(e.divider, e.volume, n));
      hide TimerAt, Expiries, DecayAfter;
    }
  }

  lemma EnvelopeStays(e: Envelope)
    ensures EnvelopeAfter(e, e, 0)
  {
    TimerStart(e.divider, e.volume);
    DecayStep(e.decay, e.loopFlag, 0);
  }

  /** and on the linear counter. */
  lemma LinearStep(t: Triangle, r: Triangle, n: nat)
    requires LinearAfter(t, r, n)
    ensures LinearAfter(t, TriangleQuarter(r), n + 1)
  {
  }

  /** The sweep unit looks at nothing but itself. */
  lemma SweepAlone(p: Pulse, r: Pulse)
    requires Swept(p) == Swept(r)
    ensures Swept(ClockSweep(p)) == Swept(ClockSweep(r))
  {
    hide Pow2Of;
  }

  lemma HalfStep(p: Pulse, r: Pulse, q: nat, h: nat)
    requires PulseAfter(p, r, q, h)
    ensures PulseAfter(p, PulseHalf(r), q, h + 1)
  {
    hide EnvelopeAfter, TargetPeriod, SweepMutes;
    SweepAlone(Iterate(ClockSweep, p, h), r.(length := r.length.Clock()));
    assert Iterate(ClockSweep, p, h + 1) == ClockSweep(Iterate(ClockSweep, p, h));
  }

  lemma QuarterStep(p: Pulse, r: Pulse, q: nat, h: nat)
    requires PulseAfter(p, r, q, h)
    ensures PulseAfter(p, PulseQuarter(r), q + 1, h)
  {
    EnvelopeStep(p.envelope, r.envelope, q);
    hide EnvelopeAfter;
  }

  /** A frame event clocks what it says and nothing else. */
  lemma ClockStep(u: Units, v: Units, ev: FrameEvent, q: nat, h: nat)
    requires UnitsAfter(u, v, q, h)
    ensures UnitsAfter(u, Clock(v, ev), q + (if ev.quarter then 1 else 0), h + if ev.half then 1 else 0)
  {
    hide PulseAfter, EnvelopeAfter, LinearAfter, PulseHalf, PulseQuarter;
    if ev.quarter {
      QuarterStep(u.pulse1, v.pulse1, q, h);
      QuarterStep(u.pulse2, v.pulse2, q, h);
      LinearStep(u.triangle, v.triangle, q);
      EnvelopeStep(u.noise.envelope, v.noise.envelope, q);
    }
    var w, q' := if ev.quarter then Quarter(v) else v, q + if ev.quarter then 1 else 0;
    assert UnitsAfter(u, w, q', h);
    if ev.half {
      HalfStep(u.pulse1, w.pulse1, q', h);
      HalfStep(u.pulse2, w.pulse2, q', h);
      LinearHalf(u.triangle, w.triangle, q');
    }
  }

  lemma LinearHalf(t: Triangle, r: Triangle, q: nat)
    requires LinearAfter(t, r, q)
    ensures LinearAfter(t, TriangleHalf(r), q)
  {
  }

  lemma UnitsStay(u: Units)
    ensures UnitsAfter(u, u, 0, 0)
  {
    EnvelopeStays(u.pulse1.envelope);
    EnvelopeStays(u.pulse2.envelope);
    EnvelopeStays(u.noise.envelope);
    hide EnvelopeAfter, ClockSweep;
  }

  /** The channel timers touch none of it. */
  lemma TimersKeep(p: Pulse, t: Triangle, n: Noise)
    ensures var r := PulseTick(p); r.envelope == p.envelope && r.length == p.length && Swept(r) == Swept(p)
    ensures var r := TriangleTick(t);
            r == t.(timer := r.timer, seqStep := r.seqStep)
    ensures var r := NoiseTick(n); r.envelope == n.envelope && r.length == n.length
  {
    hide NoiseShift;
  }

  lemma PulseTimers(p: Pulse, r: Pulse, q: nat, h: nat)
    requires PulseAfter(p, r, q, h)
    ensures PulseAfter(p, PulseTick(r), q, h)
  {
    TimersKeep(r, TRIANGLE_RESET, NOISE_RESET);
    hide EnvelopeAfter, LengthAfter, PulseTick, Swept, Iterate;
  }

  lemma TimersKeepUnits(a: Apu, u: Units, q: nat, h: nat)
    requires UnitsAfter(u, a.units, q, h)
    ensures UnitsAfter(u, TimersTick(a).units, q, h)
  {
    var v := a.units;
    PulseTimers(u.pulse1, v.pulse1, q, h);
    PulseTimers(u.pulse2, v.pulse2, q, h);
    TimersKeep(v.pulse1, v.triangle, v.noise);
    hide PulseAfter, EnvelopeAfter, LengthAfter, PulseTick, TriangleTick, NoiseTick, DmcTick, ChipsTick;
  }

  // -------------------------------------------------------------- long runs

  /** One cycle from a placed position clocks what the table says. */
  lemma CycleStep(a: Apu, u: Units, q: nat, h: nat)
    requires Placed(a.seqr) && a.seqr.delay.None? && UnitsAfter(u, a.units, q, h)
    ensures var evs := Due(Count(a.seqr, 1));
            UnitsAfter(u, ApuTick(a).units, q + Num(IsQuarter, evs), h + Num(IsHalf, evs))
  {
    hide UnitsAfter, TimersTick, Placed, Due, Clock, FrameSequencer.Settled;
    PlacedTick(a.seqr);
    TimersKeepUnits(a, u, q, h);
    TimersKeepSequencer(a, 1);
    assert Iterate(TimersTick, a, 0) == a;
    var t, evs := TimersTick(a), Due(Count(a.seqr, 1));
    if evs == [] {
      assert ApuTick(a).units == t.units;
    } else {
      var ev := ScheduleOf(a.seqr)[a.seqr.step];
      ClockStep(u, t.units, ev, q, h);
      OneEvent(t.units, ev);
      NumOne(IsQuarter, ev);
      NumOne(IsHalf, ev);
      hide Num;
    }
  }

  lemma OneEvent(u: Units, ev: FrameEvent)
    ensures ClockAll(u, [ev]) == Clock(u, ev)
  {
    hide Clock;
    assert [ev][1..] == [];
    assert ClockAll(Clock(u, ev), []) == Clock(u, ev);
  }

  /** Over any number of cycles the units have been clocked once for every event of
      their kind that has fired. */
  lemma {:induction false} UnitsRun(a: Apu, n: nat)
    requires Placed(a.seqr) && a.seqr.delay.None?
    ensures var evs := FiredIn(a.seqr, n);
            UnitsAfter(a.units, Iterate(ApuTick, a, n).units, Num(IsQuarter, evs), Num(IsHalf, evs))
  {
    hide UnitsAfter, ApuTick, Placed, Due, Count, SeqTick, Num;
    if n == 0 {
      UnitsStay(a.units);
      NumEmpty(IsQuarter);
      NumEmpty(IsHalf);
    } else {
      UnitsRun(a, n - 1);
      SequencerRuns(a, n - 1);
      LongRunPosition(a.seqr, n - 1);
      var r := Iterate(ApuTick, a, n - 1);
      var before, now := FiredIn(a.seqr, n - 1), Due(Count(r.seqr, 1));
      CycleStep(r, a.units, Num(IsQuarter, before), Num(IsHalf, before));
      NumAdd(IsQuarter, before, now);
      NumAdd(IsHalf, before, now);
    }
  }

  /** From a landed reset, `k` whole periods of the frame sequence clock every envelope
      and the linear counter `4 * k` times and every length counter and sweep `2 * k`
      times: the counters, in numbers. */
  lemma UnitsAfterPeriods(a: Apu, k: nat)
    requires a.seqr.acc == 0 && a.seqr.step == 0 && a.seqr.delay.None?
    ensures UnitsAfter(a.units, Iterate(ApuTick, a, k * Period(a.seqr)).units, 4 * k, 2 * k)
  {
    hide UnitsAfter, ApuTick, Placed, Num, FiredIn, Events;
    StartOfTable(a.seqr);
    WholePeriods(a.seqr, k);
    UnitsRun(a, k * Period(a.seqr));
  }

  /** A $4017 reset that lands clocks every unit once in five-step mode, and none in
      four-step mode. */
  lemma ResetClocksUnits(a: Apu)
    requires a.seqr.delay == Some(1)
    ensures var n := if a.seqr.fiveStep then 1 else 0;
            var r := ApuTick(a);
            UnitsAfter(a.units, r.units, n, n) && r.seqr.acc == 0 && r.seqr.step == 0 && r.seqr.delay.None?
  {
    hide UnitsAfter, TimersTick, Due, Clock, FrameSequencer.Settled, Quarter, Half;
    UnitsStay(a.units);
    TimersKeepUnits(a, a.units, 0, 0);
    TimersKeepSequencer(a, 1);
    assert Iterate(TimersTick, a, 0) == a;
    LandedSettled(a.seqr, 1);
    var t, both := TimersTick(a), FrameEvent(1, true, true, false);
    ClockStep(a.units, t.units, both, 0, 0);
    BothUnits(t.units, both);
  }

  lemma BothUnits(u: Units, ev: FrameEvent)
    requires ev.quarter && ev.half
    ensures Clock(u, ev) == Half(Quarter(u))
  {
    hide Quarter, Half;
  }

  // ------------------------------------------------- within one period

  function Past(n: nat, offset: nat): nat {
    if n >= offset then 1 else 0
  }

  /** Quarter-frame clocks in the first `n` cycles of a period. */
  function QuartersBy(fiveStep: bool, pal: bool, n: nat): nat {
    if pal then Past(n, 8313) + Past(n, 16627) + Past(n, 24939) + Past(n, if fiveStep then 41565 else 33253)
    else Past(n, 7457) + Past(n, 14913) + Past(n, 22371) + Past(n, if fiveStep then 37281 else 29829)
  }

  function HalvesBy(fiveStep: bool, pal: bool, n: nat): nat {
    if pal then Past(n, 16627) + Past(n, if fiveStep then 41565 else 33253)
    else Past(n, 14913) + Past(n, if fiveStep then 37281 else 29829)
  }

  /** In four-step mode the interrupt flag is raised three times around the end. */
  function IrqsBy(fiveStep: bool, pal: bool, n: nat): nat {
    if fiveStep then 0 else if pal then Past(n, 33252) + Past(n, 33253) else Past(n, 29828) + Past(n, 29829)
  }

  function One(b: bool): nat {
    if b then 1 else 0
  }

  /** How many events of a kind lie before a position. */
  function Before(kind: FrameEvent -> bool, s: seq<FrameEvent>, step: nat): nat
    requires 5 <= |s| <= 6
  {
    (if step > 0 then One(kind(s[0])) else 0) + (if step > 1 then One(kind(s[1])) else 0)
    + (if step > 2 then One(kind(s[2])) else 0) + (if step > 3 then One(kind(s[3])) else 0)
    + (if step > 4 then One(kind(s[4])) else 0)
  }

  lemma PrefixCount(kind: FrameEvent -> bool, s: seq<FrameEvent>, step: nat)
    requires 5 <= |s| <= 6 && step < |s|
    ensures Num(kind, s[..step]) == Before(kind, s, step)
  {
    hide Num;
    NumEmpty(kind);
    forall i | 0 <= i < step
      ensures Num(kind, s[..i + 1]) == Num(kind, s[..i]) + One(kind(s[i]))
    {
      NumPrefix(kind, s, i);
      NumOne(kind, s[i]);
    }
    assert s[..0] == [];
  }

  lemma StepOfPosition(r: Sequencer)
    requires Placed(r)
    ensures var s := ScheduleOf(r);
            && r.step < |s| && 5 <= |s| <= 6 && r.acc < s[r.step].offset && (r.step > 0 ==> s[r.step - 1].offset <= r.acc)
            && forall i :: 0 <= i < |s| - 1 ==> s[i].offset < s[i + 1].offset
  {
    TableShape(r.fiveStep, r.pal);
  }

  /** Every table, event by event: how many clocks of each kind have come by every
      cycle of its period. */
  lemma EventsWithin(q: Sequencer, n: nat)
    requires q.acc == 0 && q.step == 0 && q.delay.None? && n < Period(q)
    ensures var evs := FiredIn(q, n);
            && Num(IsQuarter, evs) == QuartersBy(q.fiveStep, q.pal, n)
            && Num(IsHalf, evs) == HalvesBy(q.fiveStep, q.pal, n)
            && Num(IsIrq, evs) == IrqsBy(q.fiveStep, q.pal, n)
  {
    hide FiredIn, SeqTick, Placed, Num, QuartersBy, HalvesBy, IrqsBy, Events, Before;
    var r, s := Iterate(SeqTick, q, n), ScheduleOf(q);
    StartOfTable(q);
    LongRunPosition(q, n);
    DivModUnique(n, Period(q), 0, n);
    StepOfPosition(r);
    LongRun(q, n, IsQuarter);
    LongRun(q, n, IsHalf);
    LongRun(q, n, IsIrq);
    assert s[..0] == [];
    NumEmpty(IsQuarter);
    NumEmpty(IsHalf);
    NumEmpty(IsIrq);
    PrefixCount(IsQuarter, s, r.step);
    PrefixCount(IsHalf, s, r.step);
    PrefixCount(IsIrq, s, r.step);
    CountsOfPosition(q.fiveStep, q.pal, n, r.step);
  }

  lemma CountsOfPosition(fiveStep: bool, pal: bool, n: nat, step: nat)
    requires var s := Events(fiveStep, pal);
             step < |s| && 5 <= |s| <= 6 && n < s[step].offset && (step > 0 ==> s[step - 1].offset <= n)
    ensures var s := Events(fiveStep, pal);
            && Before(IsQuarter, s, step) == QuartersBy(fiveStep, pal, n)
            && Before(IsHalf, s, step) == HalvesBy(fiveStep, pal, n)
            && Before(IsIrq, s, step) == IrqsBy(fiveStep, pal, n)
  {
  }

  lemma {:induction false} FlagIsCount(q: Sequencer, n: nat)
    requires Placed(q) && q.delay.None?
    ensures var r := Iterate(SeqTick, q, n);
            r.inhibit == q.inhibit && r.irqFlag == (q.irqFlag || (!q.inhibit && Num(IsIrq, FiredIn(q, n)) > 0))
  {
    hide SeqTick, Placed, Num, Due;
    if n == 0 {
      NumEmpty(IsIrq);
    } else {
      FlagIsCount(q, n - 1);
      LongRunPosition(q, n - 1);
      var r := Iterate(SeqTick, q, n - 1);
      NumAdd(IsIrq, FiredIn(q, n - 1), Due(Count(r, 1)));
      FlagStep(r);
    }
  }

  /** What one cycle from a placed position settles to. */
  lemma TickIsFire(r: Sequencer)
    requires Placed(r) && r.delay.None?
    ensures var c, ev := Count(r, 1), ScheduleOf(r)[r.step];
            if c.acc < ev.offset then SeqTick(r) == c && Due(c) == []
            else InTable(c) && c.acc == ev.offset && SeqTick(r) == Fire(c) && Due(c) == [ev] && c.step == r.step
  {
    PlacedTick(r);
    TableShape(r.fiveStep, r.pal);
    hide Events;
    var c := Count(r, 1);
    if c.acc == ScheduleOf(r)[r.step].offset {
      FiredOnce(c);
      QuietSettled(Fire(c));
    } else {
      QuietSettled(c);
    }
  }

  lemma FlagStep(r: Sequencer)
    requires Placed(r) && r.delay.None?
    ensures var t := SeqTick(r);
            t.inhibit == r.inhibit && t.irqFlag == (r.irqFlag || (!r.inhibit && Num(IsIrq, Due(Count(r, 1))) > 0))
  {
    hide Num, Events, Due, SeqTick, FrameSequencer.Settled, Guard;
    var ev := ScheduleOf(r)[r.step];
    TickIsFire(r);
    NumOne(IsIrq, ev);
    NumEmpty(IsIrq);
  }

  /** The frame interrupt, from a landed reset with its flag clear: raised in four-step
      mode on the cycle the table gives and from then on, and never when inhibited or in
      five-step mode. */
  lemma FrameInterrupt(q: Sequencer, n: nat)
    requires q.acc == 0 && q.step == 0 && q.delay.None? && !q.irqFlag && n < Period(q)
    ensures Iterate(SeqTick, q, n).irqFlag <==> !q.inhibit && !q.fiveStep && n >= (if q.pal then 33252 else 29828)
  {
    hide SeqTick, Num, FiredIn, Placed;
    StartOfTable(q);
    FlagIsCount(q, n);
    EventsWithin(q, n);
  }
}
