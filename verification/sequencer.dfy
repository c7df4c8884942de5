/** The frame counter of the 2A03 (src/apu.rs:914-1508): its event tables, the
    events that fire as its cycle count moves, and the deferred $4017 reset. */
module FrameSequencer {
  import opened Words
  import opened Channels

  datatype FrameEvent = FrameEvent(offset: nat, quarter: bool, half: bool, irq: bool)

  type Schedule = s: seq<FrameEvent> | |s| > 0 && forall i :: 0 <= i < |s| ==> s[i].offset > 0
    witness [FrameEvent(1, false, false, false)]

  const NTSC_4: Schedule := [
    FrameEvent(7457, true, false, false), FrameEvent(14913, true, true, false),
    FrameEvent(22371, true, false, false), FrameEvent(29828, false, false, true),
    FrameEvent(29829, true, true, true), FrameEvent(29830, false, false, true)]

  const PAL_4: Schedule := [
    FrameEvent(8313, true, false, false), FrameEvent(16627, true, true, false),
    FrameEvent(24939, true, false, false), FrameEvent(33252, false, false, true),
    FrameEvent(33253, true, true, true), FrameEvent(33254, false, false, true)]

  const NTSC_5: Schedule := [
    FrameEvent(7457, true, false, false), FrameEvent(14913, true, true, false),
    FrameEvent(22371, true, false, false), FrameEvent(37281, true, true, false),
    FrameEvent(37282, false, false, false)]

  const PAL_5: Schedule := [
    FrameEvent(8313, true, false, false), FrameEvent(16627, true, true, false),
    FrameEvent(24939, true, false, false), FrameEvent(41565, true, true, false),
    FrameEvent(41566, false, false, false)]

  function Events(fiveStep: bool, pal: bool): Schedule {
    if fiveStep then if pal then PAL_5 else NTSC_5 else if pal then PAL_4 else NTSC_4
  }

  /** The units a frame event clocks. */
  datatype Units = Units(pulse1: Pulse, pulse2: Pulse, triangle: Triangle, noise: Noise)

  function Quarter(u: Units): Units {
    Units(PulseQuarter(u.pulse1), PulseQuarter(u.pulse2), TriangleQuarter(u.triangle), NoiseQuarter(u.noise))
  }

  function Half(u: Units): Units {
    Units(PulseHalf(u.pulse1), PulseHalf(u.pulse2), TriangleHalf(u.triangle), NoiseHalf(u.noise))
  }

  /** `acc` counts CPU cycles of the sequence, `step` is the next unfired event and
      `delay` the cycles until a pending $4017 reset lands. */
  datatype Sequencer = Sequencer(
    fiveStep: bool, pal: bool, inhibit: bool, irqFlag: bool, acc: nat, step: nat, delay: Option<nat>)

  function ScheduleOf(q: Sequencer): Schedule {
    Events(q.fiveStep, q.pal)
  }

  function Period(q: Sequencer): nat {
    var s := ScheduleOf(q);
    s[|s| - 1].offset
  }

  predicate InTable(q: Sequencer) {
    q.step < |ScheduleOf(q)|
  }

  /** No event of the current table is overdue. */
  predicate Quiet(q: Sequencer) {
    InTable(q) && q.acc < ScheduleOf(q)[q.step].offset
  }

  function WriteFrameCounter(q: Sequencer, value: u8, totalCycles: nat): Sequencer {
    q.(fiveStep := Bit(value, 0x80), inhibit := Bit(value, 0x40),
       irqFlag := q.irqFlag && !Bit(value, 0x40), delay := Some(if totalCycles % 2 == 1 then 3 else 4))
  }

  /** A step index left outside a new table restarts the sequence. */
  function Guard(q: Sequencer): Sequencer {
    if InTable(q) then q else q.(step := 0, acc := 0)
  }

  /** The effect of the next event on the sequencer: the last one is the period. */
  function Fire(q: Sequencer): Sequencer
    requires InTable(q) && q.acc >= ScheduleOf(q)[q.step].offset
  {
    var ev := ScheduleOf(q)[q.step];
    var irq := q.irqFlag || (ev.irq && !q.inhibit);
    if q.step == |ScheduleOf(q)| - 1 then q.(irqFlag := irq, acc := q.acc - ev.offset, step := 0)
    else q.(irqFlag := irq, step := q.step + 1)
  }

  /** The events that are due, in order. */
  function Due(q: Sequencer): seq<FrameEvent>
    decreases q.acc, |ScheduleOf(q)| - q.step
  {
    var g := Guard(q);
    var ev := ScheduleOf(g)[g.step];
    if g.acc < ev.offset then [] else [ev] + Due(Fire(g))
  }

  /** The sequencer once they have fired. */
  function Settled(q: Sequencer): (r: Sequencer)
    ensures Quiet(r) && r.fiveStep == q.fiveStep && r.pal == q.pal && r.inhibit == q.inhibit && r.delay == q.delay
    decreases q.acc, |ScheduleOf(q)| - q.step
  {
    var g := Guard(q);
    if g.acc < ScheduleOf(g)[g.step].offset then g else Settled(Fire(g))
  }

  function Clock(u: Units, ev: FrameEvent): Units {
    var v := if ev.quarter then Quarter(u) else u;
    if ev.half then Half(v) else v
  }

  function ClockAll(u: Units, evs: seq<FrameEvent>): Units
    decreases |evs|
  {
    if evs == [] then u else ClockAll(Clock(u, evs[0]), evs[1..])
  }

  /** Whether a pending reset lands within the next `n` cycles. */
  predicate ResetLands(q: Sequencer, n: nat) {
    q.delay.Some? && q.delay.value <= n
  }

  /** `n` cycles of the sequence clock, up to and including a landing reset. */
  function Count(q: Sequencer, n: nat): Sequencer {
    if ResetLands(q, n) then q.(delay := None, acc := 0, step := 0)
    else if q.delay.Some? then q.(acc := q.acc + n, delay := Some(q.delay.value - n))
    else q.(acc := q.acc + n)
  }

  /** In five-step mode a landing reset clocks both units at once. */
  function ResetClocks(u: Units, q: Sequencer, n: nat): Units {
    if ResetLands(q, n) && q.fiveStep then Half(Quarter(u)) else u
  }

  /** One CPU cycle of the sequencer alone, and what it clocks. */
  function SeqTick(q: Sequencer): Sequencer {
    Settled(Count(q, 1))
  }

  /** How far a batch may run before something is due. */
  function Until(q: Sequencer): (n: nat)
    ensures n >= 1
  {
    var s := ScheduleOf(q);
    var next := Max(s[Min(q.step, |s| - 1)].offset - q.acc, 1);
    if q.delay.Some? then Min(next, Max(q.delay.value, 1)) else next
  }

  lemma QuietSettled(q: Sequencer)
    requires Quiet(q)
    ensures Settled(q) == q && Due(q) == []
  {
  }

  lemma CountAdd(q: Sequencer, a: nat, b: nat)
    requires !ResetLands(q, a)
    ensures Count(Count(q, a), b) == Count(q, a + b)
  {
  }

  /** Nothing is due before the end of a chunk that starts inside the table. */
  lemma BeforeEnd(q: Sequencer, n: nat)
    requires InTable(q) && 0 < n < Until(q)
    ensures Quiet(Count(q, n)) && !ResetLands(q, n)
  {
  }
}
