/** The sweep unit settles (src/apu.rs:191-303). */
module Sweep {
  import opened Words
  import opened Dividers
  import opened Channels

  /** No half-frame clock changes the period of such a unit any more. */
  predicate Settled(p: Pulse) {
    !p.sweepEnabled || p.sweepShift == 0 || SweepMutes(p) || TargetPeriod(p) == p.timerPeriod
  }

  /** How far the period can still move: up to $7FF, or down to 7. */
  function Distance(p: Pulse): nat {
    if SweepMutes(p) then 0
    else if p.sweepNegate then p.timerPeriod - 7 else 0x7FF - p.timerPeriod
  }

  /** Half-frame clocks until the divider next reaches zero. */
  function UntilClocked(p: Pulse): nat {
    if p.sweepReload && p.sweepDivider > 0 then p.sweepPeriod + 1 else p.sweepDivider
  }

  /** An upper bound on the period changes still to come. */
  function Rest(p: Pulse): (r: nat)
    ensures r <= 2040
  {
    if Settled(p) then 0 else Distance(p)
  }

  /** An upper bound on the clocks until the unit settles. */
  function Measure(p: Pulse): nat {
    8 * Distance(p) + UntilClocked(p)
  }

  lemma ShiftedPeriod(p: Pulse)
    ensures 0 <= p.timerPeriod / Pow2Of(p.sweepShift) <= p.timerPeriod
    ensures p.sweepShift > 0 && p.timerPeriod > 0 ==>
              p.timerPeriod / Pow2Of(p.sweepShift) < p.timerPeriod
  {
  }

  /** Muting is permanent between register writes, in every direction and mode. */
  lemma {:induction false} MutedForever(p: Pulse, clocks: nat)
    requires SweepMutes(p)
    ensures SweepMutes(Iterate(ClockSweep, p, clocks))
    ensures Iterate(ClockSweep, p, clocks).timerPeriod == p.timerPeriod
    ensures var r := Iterate(ClockSweep, p, clocks);
            r == p.(sweepDivider := r.sweepDivider, sweepReload := r.sweepReload)
  {
    if clocks > 0 {
      MutedForever(p, clocks - 1);
    }
  }

  /** One half-frame clock. A settled unit stays settled at its period; an unsettled
      one moves strictly toward its limit or stays, and its measure drops either way. */
  lemma SweepStep(p: Pulse)
    ensures var q := ClockSweep(p);
            && q.sweepNegate == p.sweepNegate
            && (if p.sweepNegate then q.timerPeriod <= p.timerPeriod else q.timerPeriod >= p.timerPeriod)
            && (Settled(p) ==> Settled(q) && q.timerPeriod == p.timerPeriod)
            && (!Settled(p) ==> 0 < Measure(p) && Measure(q) < Measure(p))
            && Rest(q) + (if q.timerPeriod != p.timerPeriod then 1 else 0) <= Rest(p)
  {
    ShiftedPeriod(p);
  }

  lemma MeasureBounds(p: Pulse)
    ensures Measure(p) <= 16328 && (!Settled(p) ==> 8 <= Measure(p))
  {
    ShiftedPeriod(p);
  }

  /** Number of clocks among the first `clocks` that changed the period. */
  function Changes(p: Pulse, clocks: nat): nat {
    if clocks == 0 then 0
    else Changes(p, clocks - 1)
         + if Iterate(ClockSweep, p, clocks).timerPeriod != Iterate(ClockSweep, p, clocks - 1).timerPeriod
           then 1 else 0
  }

  /** Between register writes the period is monotone: downward when negated and
      upward otherwise; it changes at most 2040 times over any number of clocks,
      and after 16328 clocks it has settled for good. */
  lemma {:induction false} SweepSettles(p: Pulse, clocks: nat)
    ensures var r := Iterate(ClockSweep, p, clocks);
            && (if p.sweepNegate then r.timerPeriod <= p.timerPeriod else r.timerPeriod >= p.timerPeriod)
            && r.sweepNegate == p.sweepNegate
            && Changes(p, clocks) + Rest(r) <= Rest(p) <= 2040
            && (Settled(r) || Measure(r) + clocks <= Measure(p))
            && (clocks >= 16328 ==> Settled(r))
  {
    hide ClockSweep, Settled, Measure, Rest;
    MeasureBounds(p);
    if clocks > 0 {
      SweepSettles(p, clocks - 1);
      var r := Iterate(ClockSweep, p, clocks - 1);
      SweepStep(r);
      MeasureBounds(ClockSweep(r));
    }
  }

  // ------------------------------------------------------------- in numbers

  function TwoTo(k: nat): nat {
    if k == 0 then 1 else 2 * TwoTo(k - 1)
  }

  lemma ShiftsAreTwos(k: u3)
    ensures Pow2Of(k) == TwoTo(k)
  {
    assert TwoTo(3) == 8;
    assert TwoTo(5) == 32;
  }

  /** What the sweep adds or takes: the period without its lowest `shift` bits. */
  predicate ShiftedDown(period: nat, shift: nat, change: nat) {
    change * TwoTo(shift) <= period < (change + 1) * TwoTo(shift)
  }

  /** A sweep that acts moves the period by its own value shifted down: up, or down, and
      then by one more on the first pulse, whose adder is one's complement. A unit is
      muted by a period below 8 or by a sum that would not fit in eleven bits. */
  lemma SweepTarget(p: Pulse, change: nat)
    requires ShiftedDown(p.timerPeriod, p.sweepShift, change)
    ensures SweepMutes(p) <==> p.timerPeriod < 8 || (!p.sweepNegate && p.timerPeriod + change > 0x7FF)
    ensures var r := ClockSweep(p);
            if p.sweepEnabled && p.sweepShift > 0 && !SweepMutes(p) && p.sweepDivider == 0 then
              r.timerPeriod == if !p.sweepNegate then p.timerPeriod + change
                               else if p.isPulseTwo then p.timerPeriod - change
                               else p.timerPeriod - change - 1
            else r.timerPeriod == p.timerPeriod
  {
    ShiftsAreTwos(p.sweepShift);
    var w := Pow2Of(p.sweepShift);
    hide TwoTo, Pow2Of;
    DivModUnique(p.timerPeriod, w, change, p.timerPeriod - change * w) by {
      assert (change + 1) * w == change * w + w;
    }
    if p.sweepShift > 0 {
      HalfAtMost(p.timerPeriod, w, change);
    }
  }

  lemma HalfAtMost(period: nat, w: nat, change: nat)
    requires 2 <= w && change * w <= period
    ensures 2 * change <= period
  {
    MulLe(2, w, change);
  }

  /** The divider acts once every `sweepPeriod + 1` half-frame clocks, counted from the
      clock that honours a written reload. */
  lemma {:induction false} SweepPace(p: Pulse, clocks: nat)
    ensures var r := Iterate(ClockSweep, p, clocks);
            && r.sweepPeriod == p.sweepPeriod && r.sweepReload == (p.sweepReload && clocks == 0)
            && r.sweepDivider == (if p.sweepReload && clocks > 0 then TimerAt(p.sweepPeriod, p.sweepPeriod, clocks - 1)
                                  else TimerAt(p.sweepDivider, p.sweepPeriod, clocks))
  {
    hide TimerAt, TargetPeriod, SweepMutes;
    TimerStart(p.sweepDivider, p.sweepPeriod);
    TimerStart(p.sweepPeriod, p.sweepPeriod);
    if clocks > 0 {
      SweepPace(p, clocks - 1);
      TimerStep(p.sweepDivider, p.sweepPeriod, clocks - 1);
      if clocks > 1 {
        TimerStep(p.sweepPeriod, p.sweepPeriod, clocks - 2);
      }
    }
  }
}
