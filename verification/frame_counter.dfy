/** Long-run behaviour of the frame counter (src/apu.rs:1307-1316, 1330-1508). */
module FrameCounter {
  import opened Words
  import opened FrameSequencer

  /** `step` is the position of `acc` in the table: every earlier event has fired
      and the next one is still ahead. */
  predicate Placed(q: Sequencer) {
    Quiet(q) && (q.step > 0 ==> ScheduleOf(q)[q.step - 1].offset <= q.acc)
  }

  /** Number of events of a kind in a list. */
  function Num(kind: FrameEvent -> bool, evs: seq<FrameEvent>): nat {
    if evs == [] then 0
    else Num(kind, evs[..|evs| - 1]) + if kind(evs[|evs| - 1]) then 1 else 0
  }

  /** Every event fired during the first `n` cycles, in order. */
  function FiredIn(q: Sequencer, n: nat): seq<FrameEvent> {
    if n == 0 then [] else FiredIn(q, n - 1) + Due(Count(Iterate(SeqTick, q, n - 1), 1))
  }

  /** The tables: increasing offsets, an even period, and every quarter- or
      half-frame clock on an odd offset. */
  lemma TableShape(fiveStep: bool, pal: bool)
    ensures var s := Events(fiveStep, pal);
            && 5 <= |s| <= 6 && s[|s| - 1].offset % 2 == 0 && s[|s| - 1].offset >= 29830
            && (forall i :: 0 <= i < |s| - 1 ==> s[i].offset < s[i + 1].offset)
            && (forall i :: 0 <= i < |s| && (s[i].quarter || s[i].half) ==> s[i].offset % 2 == 1)
  {
  }

  /** From a placed state one cycle fires at most one event, exactly on its offset. */
  lemma PlacedTick(q: Sequencer)
    requires Placed(q) && q.delay.None?
    ensures var s := ScheduleOf(q);
            var r := SeqTick(q);
            && Placed(r) && r.delay.None? && ScheduleOf(r) == s
            && (if q.acc + 1 < s[q.step].offset then
                  Due(Count(q, 1)) == [] && r.acc == q.acc + 1 && r.step == q.step
                else
                  && q.acc + 1 == s[q.step].offset && Due(Count(q, 1)) == [s[q.step]]
                  && (if q.step + 1 == |s| then r.acc == 0 && r.step == 0
                      else r.acc == q.acc + 1 && r.step == q.step + 1))
  {
    if q.acc + 1 == ScheduleOf(q)[q.step].offset {
      DueTick(q);
    } else {
      QuietSettled(Count(q, 1));
      hide Events;
    }
  }

  lemma DueTick(q: Sequencer)
    requires Placed(q) && q.delay.None? && q.acc + 1 == ScheduleOf(q)[q.step].offset
    ensures var s := ScheduleOf(q);
            var r := SeqTick(q);
            && Placed(r) && r.delay.None? && ScheduleOf(r) == s && Due(Count(q, 1)) == [s[q.step]]
            && (if q.step + 1 == |s| then r.acc == 0 && r.step == 0 else r.acc == q.acc + 1 && r.step == q.step + 1)
  {
    TableShape(q.fiveStep, q.pal);
    var c := Count(q, 1);
    FiredOnce(c);
    QuietSettled(Fire(c));
    hide Events;
  }

  lemma FiredOnce(c: Sequencer)
    requires InTable(c) && c.acc == ScheduleOf(c)[c.step].offset
    ensures var s := ScheduleOf(c);
            && Quiet(Fire(c)) && ScheduleOf(Fire(c)) == s && Fire(c).delay == c.delay
            && (if c.step + 1 == |s| then Fire(c).acc == 0 && Fire(c).step == 0
                else Fire(c).acc == c.acc && Fire(c).step == c.step + 1)
  {
    TableShape(c.fiveStep, c.pal);
  }

  lemma PlacedWithin(q: Sequencer)
    requires Placed(q)
    ensures q.step < |ScheduleOf(q)| && q.acc < Period(q)
    ensures ScheduleOf(q)[q.step].offset == Period(q) <==> q.step + 1 == |ScheduleOf(q)|
    ensures ScheduleOf(q)[q.step].offset <= Period(q)
  {
    TableShape(q.fiveStep, q.pal);
  }

  /** The position after `n` cycles is the elapsed time modulo the even period. */
  lemma {:induction false} LongRunPosition(q: Sequencer, n: nat)
    requires Placed(q) && q.delay.None?
    ensures var r := Iterate(SeqTick, q, n);
            && Placed(r) && r.delay.None? && ScheduleOf(r) == ScheduleOf(q)
            && r.acc == (q.acc + n) % Period(q)
  {
    hide SeqTick, Count, Quiet, Due, Placed, Events;
    if n == 0 {
      PlacedWithin(q);
      DivModUnique(q.acc, Period(q), 0, q.acc);
    } else {
      LongRunPosition(q, n - 1);
      var r := Iterate(SeqTick, q, n - 1);
      PlacedTick(r);
      PlacedWithin(r);
      PlacedWithin(SeqTick(r));
      SuccMod(q.acc + n - 1, Period(q));
    }
  }

  lemma {:induction false} NumAdd(kind: FrameEvent -> bool, a: seq<FrameEvent>, b: seq<FrameEvent>)
    ensures Num(kind, a + b) == Num(kind, a) + Num(kind, b)
  {
    if b == [] {
      assert a + b == a;
    } else {
      NumAdd(kind, a, b[..|b| - 1]);
      assert (a + b)[..|a + b| - 1] == a + b[..|b| - 1];
    }
  }

  /** The events of the table before `step`, and what one more adds. */
  lemma NumPrefix(kind: FrameEvent -> bool, s: seq<FrameEvent>, step: nat)
    requires step < |s|
    ensures Num(kind, s[..step + 1]) == Num(kind, s[..step]) + Num(kind, [s[step]])
    ensures s[..|s|] == s && s[..0] == []
  {
    assert s[..step + 1] == s[..step] + [s[step]];
    NumAdd(kind, s[..step], [s[step]]);
  }

  /** The long run, for every kind of event and every number of cycles: the events
      fired are those of the whole periods that have elapsed plus those of the
      table up to the current position. */
  lemma {:induction false} LongRun(q: Sequencer, n: nat, kind: FrameEvent -> bool)
    requires Placed(q) && q.delay.None?
    ensures Num(kind, FiredIn(q, n)) + Num(kind, ScheduleOf(q)[..q.step])
         == (q.acc + n) / Period(q) * Num(kind, ScheduleOf(q))
            + Num(kind, ScheduleOf(q)[..Iterate(SeqTick, q, n).step])
  {
    hide SeqTick, Count, Quiet, Due, Placed, Events, Num;
    var s := ScheduleOf(q);
    if n == 0 {
      PlacedWithin(q);
      DivModUnique(q.acc, Period(q), 0, q.acc);
      assert Num(kind, []) == 0 by { NumEmpty(kind); }
    } else {
      LongRun(q, n - 1, kind);
      LongRunPosition(q, n - 1);
      var r := Iterate(SeqTick, q, n - 1);
      var k := (q.acc + n - 1) / Period(q);
      PlacedTick(r);
      PlacedWithin(r);
      SuccMod(q.acc + n - 1, Period(q));
      NumAdd(kind, FiredIn(q, n - 1), Due(Count(r, 1)));
      NumEmpty(kind);
      NumPrefix(kind, s, r.step);
      assert (k + 1) * Num(kind, s) == k * Num(kind, s) + Num(kind, s);
    }
  }

  lemma NumEmpty(kind: FrameEvent -> bool)
    ensures Num(kind, []) == 0
  {
  }

  predicate IsQuarter(e: FrameEvent) {
    e.quarter
  }

  predicate IsHalf(e: FrameEvent) {
    e.half
  }

  predicate IsIrq(e: FrameEvent) {
    e.irq
  }

  lemma TableCounts(fiveStep: bool, pal: bool)
    ensures var s := Events(fiveStep, pal);
            && Num(IsQuarter, s) == 4 && Num(IsHalf, s) == 2
            && Num(IsIrq, s) == (if fiveStep then 0 else 3)
  {
    var s := Events(fiveStep, pal);
    NumUnroll(IsQuarter, s);
    NumUnroll(IsHalf, s);
    NumUnroll(IsIrq, s);
  }

  lemma NumUnroll(kind: FrameEvent -> bool, s: seq<FrameEvent>)
    requires 5 <= |s| <= 6
    ensures Num(kind, s) == (if kind(s[0]) then 1 else 0) + (if kind(s[1]) then 1 else 0)
                            + (if kind(s[2]) then 1 else 0) + (if kind(s[3]) then 1 else 0)
                            + (if kind(s[4]) then 1 else 0) + (if |s| == 6 && kind(s[5]) then 1 else 0)
  {
    assert Num(kind, []) == 0;
    hide Num;
    NumPrefix(kind, s, 0);
    NumPrefix(kind, s, 1);
    NumPrefix(kind, s, 2);
    NumPrefix(kind, s, 3);
    NumPrefix(kind, s, 4);
    if |s| == 6 {
      NumPrefix(kind, s, 5);
    }
    forall i | 0 <= i < |s|
      ensures Num(kind, [s[i]]) == if kind(s[i]) then 1 else 0
    {
      NumOne(kind, s[i]);
    }
  }

  lemma NumOne(kind: FrameEvent -> bool, e: FrameEvent)
    ensures Num(kind, [e]) == if kind(e) then 1 else 0
  {
    NumAdd(kind, [], [e]);
  }

  lemma StartOfTable(r: Sequencer)
    requires r.acc == 0
    ensures Placed(r) <==> r.step == 0
  {
    TableShape(r.fiveStep, r.pal);
  }

  /** From a landed reset, `k` whole periods clock the quarter-frame units 4k times,
      the half-frame units 2k times, and set the flag 3k times in four-step mode and
      never in five-step mode. */
  lemma WholePeriods(q: Sequencer, k: nat)
    requires q.acc == 0 && q.step == 0 && q.delay.None?
    ensures var evs := FiredIn(q, k * Period(q));
            && Num(IsQuarter, evs) == 4 * k && Num(IsHalf, evs) == 2 * k
            && Num(IsIrq, evs) == (if q.fiveStep then 0 else 3 * k)
            && Iterate(SeqTick, q, k * Period(q)).acc == 0
  {
    hide Num, FiredIn, SeqTick, Placed, Events;
    TableShape(q.fiveStep, q.pal);
    var n := k * Period(q);
    DivModUnique(n, Period(q), k, 0);
    StartOfTable(q);
    LongRunPosition(q, n);
    StartOfTable(Iterate(SeqTick, q, n));
    LongRun(q, n, IsQuarter);
    LongRun(q, n, IsHalf);
    LongRun(q, n, IsIrq);
    TableCounts(q.fiveStep, q.pal);
    assert ScheduleOf(q)[..0] == [];
  }

  // ------------------------------------------------------------- phase

  /** What every run of cycles and $4017 writes keeps, `total` being all CPU cycles
      so far: a pending reset is due within four cycles and on an even one, and with
      none pending the sequence began on an even cycle and no event is overdue. */
  predicate PhaseOk(q: Sequencer, total: nat) {
    match q.delay
    case Some(d) => 1 <= d <= 4 && (total + d) % 2 == 0
    case None => Placed(q) && (total + q.acc) % 2 == 0
  }

  lemma PhaseAtPowerUp(fiveStep: bool, pal: bool, inhibit: bool)
    ensures PhaseOk(Sequencer(fiveStep, pal, inhibit, false, 0, 0, None), 0)
  {
  }

  lemma PhaseWrite(q: Sequencer, value: u8, total: nat)
    ensures PhaseOk(WriteFrameCounter(q, value, total), total)
  {
  }

  /** A cycle keeps the phase, and a reset lands on an even total. */
  lemma PhaseTick(q: Sequencer, total: nat)
    requires PhaseOk(q, total)
    ensures PhaseOk(SeqTick(q), total + 1)
    ensures ResetLands(q, 1) ==> (total + 1) % 2 == 0 && SeqTick(q).acc == 0
  {
    hide Settled, Due, Events, Placed, Quiet;
    TableShape(q.fiveStep, q.pal);
    if q.delay.None? {
      PlacedTick(q);
      PlacedWithin(q);
    } else if ResetLands(q, 1) {
      StartOfTable(Count(q, 1));
      QuietWhenPlaced(Count(q, 1));
      QuietSettled(Count(q, 1));
    }
  }

  lemma QuietWhenPlaced(q: Sequencer)
    requires Placed(q)
    ensures Quiet(q)
  {
  }

  /** With no reset pending, every quarter- and half-frame clock of every run falls
      on an odd total cycle, the second half of its APU cycle. */
  lemma ClocksOnOddCycles(q: Sequencer, total: nat, ev: FrameEvent)
    requires PhaseOk(q, total) && q.delay.None? && ev in Due(Count(q, 1)) && (ev.quarter || ev.half)
    ensures (total + 1) % 2 == 1
  {
    hide Settled, Due, Events, Placed, Quiet;
    TableShape(q.fiveStep, q.pal);
    PlacedTick(q);
    PlacedWithin(q);
  }
}
