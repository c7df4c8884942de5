/** What becomes of the PLAY calls that the sample loop schedules (src/player.rs:430-478,
    src/bus.rs:433-442, src/cpu.rs:149-176): the NMI path holds a request in one bit,
    and requests that fall due back to back merge. */
module PlayDelivery {
  import opened Words
  import opened ExpansionChips
  import opened Apu2A03
  import opened ApuObject
  import opened DmaEngine
  import opened DmaCycles
  import opened CpuPatterns
  import opened CpuRuns
  import opened PlayerSchedule

  // ----------------------------------------------------------- the account

  /** Every scheduled PLAY call has been entered, was lost, or waits in the request bit,
      which only the NMI path sets. On that path the calls lost so far and those that
      the periods run out at this moment are going to lose are the periods beyond the
      first that had run out at the end of each CPU step, or all of them once a halted
      CPU no longer takes the request. */
  predicate PlaysOk(cfg: Config, p: Playback)
    requires 1 <= cfg.period
  {
    && p.plays.triggers == p.plays.delivered + p.plays.lost + (if p.nmiPending then 1 else 0)
    && (p.nmiPending ==> cfg.nmiPlay)
    && (cfg.nmiPlay && !cfg.suppress ==> p.plays.lost + Backlog(cfg.period, p.since, p.nmiPending) == p.plays.overrun)
  }

  lemma OnePeriodLess(period: u32, since: u32)
    requires 1 <= period <= since
    ensures (since - period) / period == since / period - 1 && 1 <= since / period
  {
    var q, r := (since - period) / period, (since - period) % period;
    assert since - period == q * period + r;
    assert (q + 1) * period == q * period + period;
    DivModUnique(since, period, q + 1, r);
  }

  lemma TriggerKeepsPlays(cfg: Config, p: Playback, t: Turn)
    requires 1 <= cfg.period && Due(cfg, p) && PlaysOk(cfg, p)
    ensures PlaysOk(cfg, Trigger(cfg, p, t))
  {
    OnePeriodLess(cfg.period, p.since);
  }

  lemma AdvanceKeepsPlays(cfg: Config, p: Playback, t: Turn, leftover: u32)
    requires 1 <= cfg.period && !Due(cfg, p) && PlaysOk(cfg, p)
    ensures PlaysOk(cfg, Advanced(cfg, p, t, leftover))
  {
    hide TurnCost, TurnBus;
    if !cfg.suppress {
      DivModUnique(p.since, cfg.period, 0, p.since);
    }
  }

  lemma {:induction false} LoopKeepsPlays(cfg: Config, p: Playback, target: u32, spent: u32, steps: nat, env: Environment)
    requires 1 <= cfg.period && Runs(env) && PlaysOk(cfg, p)
    ensures PlaysOk(cfg, SampleLoop(cfg, p, target, spent, steps, env).p)
    decreases target - spent, p.since
  {
    hide TurnCost, Advanced, Trigger, PlaysOk, CpuTurn;
    if spent < target {
      var t := env(p.turns);
      LoopTurn(cfg, p, target, spent, steps, env);
      if Due(cfg, p) {
        TriggerKeepsPlays(cfg, p, t);
        TriggerKeepsRest(cfg, p, t);
        LoopKeepsPlays(cfg, Trigger(cfg, p, t), target, spent, steps, env);
      } else {
        TurnCosts(cfg, p, t, target - spent);
        AdvanceKeepsPlays(cfg, p, t, target - spent);
        var q := Advanced(cfg, p, t, target - spent);
        var now := SatAdd(spent, TurnCost(cfg, p, t, target - spent));
        if Idles(cfg, p, t) {
          LoopKeepsPlays(cfg, q, target, now, steps, env);
        } else if steps + 1 <= STEP_BUDGET {
          LoopKeepsPlays(cfg, q, target, now, steps + 1, env);
        }
      }
    } else {
      LoopDone(cfg, p, target, spent, steps, env);
    }
  }

  lemma SampleKeepsPlays(cfg: Config, p: Playback, target: u32, env: Environment)
    requires 1 <= cfg.period && Runs(env)
    ensures PlaysOk(cfg, p) && PlaysOk(cfg, SampleLoop(cfg, p, target, 0, 0, env).p)
            ==> PlaysOk(cfg, StepSample(cfg, p, target, env))
  {
    hide SampleLoop, Runs, Backlog;
  }

  /** Over any number of samples and for every program: the account of the scheduled
      calls, with the lost ones counted exactly. */
  lemma {:induction false} RenderKeepsPlays(cfg: Config, p: Playback, targets: seq<u32>, env: Environment)
    requires 1 <= cfg.period && Runs(env) && PlaysOk(cfg, p)
    ensures PlaysOk(cfg, Render(cfg, p, targets, env))
    decreases |targets|
  {
    hide PlaysOk, SampleLoop, StepSample, Runs;
    if targets != [] && !p.halted && !p.finished {
      LoopKeepsPlays(cfg, p, targets[0], 0, 0, env);
      SampleKeepsPlays(cfg, p, targets[0], env);
      RenderKeepsPlays(cfg, StepSample(cfg, p, targets[0], env), targets[1..], env);
    }
  }

  // --------------------------------------------------------------- one burst

  /** Every period that has run out becomes a request at once: of `k` of them a clear
      bit keeps one and a set bit none. */
  function Burst(cfg: Config, p: Playback): Playback
    requires 1 <= cfg.period
  {
    var k := p.since / cfg.period;
    p.(since := p.since % cfg.period, nmiPending := true, turns := p.turns + k,
       plays := p.plays.(triggers := p.plays.triggers + k, lost := p.plays.lost + Backlog(cfg.period, p.since, p.nmiPending)))
  }

  lemma BurstStep(cfg: Config, p: Playback, t: Turn)
    requires 1 <= cfg.period && cfg.nmiPlay && Due(cfg, p)
    ensures var q := Trigger(cfg, p, t);
            if Due(cfg, q) then Burst(cfg, q) == Burst(cfg, p) else q == Burst(cfg, p)
  {
    OnePeriodLess(cfg.period, p.since);
    ModAdd(p.since - cfg.period, cfg.period, cfg.period);
    var q := Trigger(cfg, p, t);
    var k := p.since / cfg.period;
    assert p.since == k * cfg.period + p.since % cfg.period;
    DivModUnique(q.since, cfg.period, k - 1, p.since % cfg.period) by {
      assert (k - 1) * cfg.period == k * cfg.period - cfg.period;
    }
    if !Due(cfg, q) {
      DivModUnique(q.since, cfg.period, 0, q.since);
    }
  }

  /** When PLAY is due on the NMI path the loop takes all the periods that have run out
      before the CPU moves, and loses the requests that find the bit set. */
  lemma {:induction false} BurstMerges(cfg: Config, p: Playback, target: u32, spent: u32, steps: nat, env: Environment)
    requires 1 <= cfg.period && Runs(env) && cfg.nmiPlay && Due(cfg, p) && spent < target
    ensures SampleLoop(cfg, p, target, spent, steps, env) == SampleLoop(cfg, Burst(cfg, p), target, spent, steps, env)
    decreases p.since
  {
    hide Burst, Trigger, Advanced, TurnCost, CpuTurn;
    var t := env(p.turns);
    LoopTurn(cfg, p, target, spent, steps, env);
    BurstStep(cfg, p, t);
    TriggerKeepsRest(cfg, p, t);
    if Due(cfg, Trigger(cfg, p, t)) {
      BurstMerges(cfg, Trigger(cfg, p, t), target, spent, steps, env);
    }
  }

  /** So a call scheduled while the bit is clear is followed by a lost one if and only
      if two periods had run out; otherwise the CPU moves next and enters it. */
  lemma LostIff(cfg: Config, p: Playback, t: Turn, u: Turn, leftover: u32)
    requires 1 <= cfg.period && cfg.nmiPlay && Due(cfg, p) && !p.nmiPending
    ensures var q := Trigger(cfg, p, t);
            && q.plays.lost == p.plays.lost && q.nmiPending
            && (Due(cfg, q) <==> p.since >= 2 * cfg.period)
            && (Due(cfg, q) ==> Trigger(cfg, q, u).plays.lost == p.plays.lost + 1)
            && (!Due(cfg, q) && !q.halted ==>
                  var r := Advanced(cfg, q, u, leftover);
                  r.plays.lost == p.plays.lost && r.plays.delivered == p.plays.delivered + 1 && !r.nmiPending)
  {
    hide TurnCost, TurnBus, Backlog;
  }

  // --------------------------------------------------------- none is lost

  /** A CPU step is at most 8304 cycles, so a longer period leaves no time for two. */
  lemma AdvanceInTime(cfg: Config, p: Playback, t: Turn, leftover: u32)
    requires ConfigOk(cfg) && CpuTurn(t) && p.bus.stall == 0
    requires cfg.nmiPlay && !cfg.suppress && 8 * 1038 < cfg.period && !Due(cfg, p)
    ensures var q := Advanced(cfg, p, t, leftover);
            q.bus.stall == 0 && (!q.halted ==> Backlog(cfg.period, q.since, q.nmiPending) == 0 && q.plays.overrun == p.plays.overrun)
  {
    hide CpuTurn, StepOf, StepReturns, AfterStep, Idle;
    StepOfRuns(p, t);
    StepBound(p.bus, StepOf(p, t));
    var since := Advanced(cfg, p, t, leftover).since;
    assert since < 2 * cfg.period;
    if since >= cfg.period {
      OnePeriodLess(cfg.period, since);
      DivModUnique(since - cfg.period, cfg.period, 0, since - cfg.period);
    } else {
      DivModUnique(since, cfg.period, 0, since);
    }
  }

  lemma TriggerInTime(cfg: Config, p: Playback, t: Turn)
    requires 1 <= cfg.period && Due(cfg, p) && cfg.nmiPlay && Backlog(cfg.period, p.since, p.nmiPending) == 0
    ensures var q := Trigger(cfg, p, t);
            Backlog(cfg.period, q.since, q.nmiPending) == 0 && q.plays.overrun == p.plays.overrun && q.bus == p.bus
            && q.halted == p.halted
  {
    OnePeriodLess(cfg.period, p.since);
  }

  lemma HaltStays(cfg: Config, p: Playback, t: Turn, leftover: u32)
    requires 1 <= cfg.period
    ensures p.halted ==> Advanced(cfg, p, t, leftover).halted
  {
    hide TurnCost, TurnBus, Serving;
  }

  /** No request is waiting that the periods run out at this moment would lose. */
  predicate NothingBehind(cfg: Config, p: Playback)
    requires 1 <= cfg.period
  {
    p.bus.stall == 0 && (!p.halted ==> Backlog(cfg.period, p.since, p.nmiPending) == 0)
  }

  lemma {:induction false} LoopInTime(cfg: Config, p: Playback, target: u32, spent: u32, steps: nat, env: Environment)
    requires ConfigOk(cfg) && Runs(env) && cfg.nmiPlay && !cfg.suppress && 8 * 1038 < cfg.period
    ensures var q := SampleLoop(cfg, p, target, spent, steps, env).p;
            NothingBehind(cfg, p) ==>
            && NothingBehind(cfg, q) && (p.halted ==> q.halted)
            && (!q.halted ==> q.plays.overrun == p.plays.overrun)
    decreases target - spent, p.since
  {
    hide TurnCost, Advanced, Trigger, Backlog, CpuTurn;
    if spent < target && NothingBehind(cfg, p) {
      var t := env(p.turns);
      LoopTurn(cfg, p, target, spent, steps, env);
      if Due(cfg, p) {
        TriggerKeepsRest(cfg, p, t);
        TriggerLeavesBus(cfg, p, t);
        if !p.halted {
          TriggerInTime(cfg, p, t);
        }
        LoopInTime(cfg, Trigger(cfg, p, t), target, spent, steps, env);
      } else {
        TurnCosts(cfg, p, t, target - spent);
        AdvanceInTime(cfg, p, t, target - spent);
        HaltStays(cfg, p, t, target - spent);
        var q := Advanced(cfg, p, t, target - spent);
        var now := SatAdd(spent, TurnCost(cfg, p, t, target - spent));
        if steps + 1 <= STEP_BUDGET {
          LoopInTime(cfg, q, target, now, steps + 1, env);
        }
      }
    } else if spent >= target {
      LoopDone(cfg, p, target, spent, steps, env);
    }
  }

  lemma TriggerLeavesBus(cfg: Config, p: Playback, t: Turn)
    requires 1 <= cfg.period && Due(cfg, p) && cfg.nmiPlay
    ensures Trigger(cfg, p, t).bus == p.bus && Trigger(cfg, p, t).halted == p.halted
  {
  }

  lemma SampleInTime(cfg: Config, p: Playback, target: u32, env: Environment)
    requires 1 <= cfg.period && Runs(env)
    ensures var q, s := SampleLoop(cfg, p, target, 0, 0, env).p, StepSample(cfg, p, target, env);
            && (NothingBehind(cfg, p) && NothingBehind(cfg, q) ==> NothingBehind(cfg, s))
            && ((s.halted == q.halted && s.plays == q.plays) || (s.halted == p.halted && s.plays == p.plays))
  {
    hide SampleLoop, Runs, Backlog;
  }

  lemma {:induction false} RenderInTime(cfg: Config, p: Playback, targets: seq<u32>, env: Environment)
    requires ConfigOk(cfg) && Runs(env) && cfg.nmiPlay && !cfg.suppress && 8 * 1038 < cfg.period
    ensures var q := Render(cfg, p, targets, env);
            NothingBehind(cfg, p) ==> NothingBehind(cfg, q) && (!q.halted ==> q.plays.overrun == p.plays.overrun)
    decreases |targets|
  {
    hide NothingBehind, SampleLoop, StepSample, Runs;
    if targets != [] && !p.halted && !p.finished {
      LoopInTime(cfg, p, targets[0], 0, 0, env);
      SampleInTime(cfg, p, targets[0], env);
      RenderInTime(cfg, StepSample(cfg, p, targets[0], env), targets[1..], env);
    }
  }

  /** With a period above the 8304 cycles of the longest step, no PLAY of a song is ever
      lost while the CPU runs: every call scheduled has been entered, but for the one
      whose NMI is still pending. */
  lemma NoneLost(cfg: Config, p: Playback, targets: seq<u32>, env: Environment)
    requires ConfigOk(cfg) && Runs(env) && cfg.nmiPlay && !cfg.suppress && 8 * 1038 < cfg.period
    requires p.since == 0 && !p.nmiPending && p.plays == Plays(0, 0, 0, 0) && p.bus.stall == 0
    ensures var q := Render(cfg, p, targets, env);
            !q.halted ==> q.plays.lost == 0 && q.plays.triggers == q.plays.delivered + if q.nmiPending then 1 else 0
  {
    hide Render, Runs;
    DivModUnique(0, cfg.period, 0, 0);
    RenderKeepsPlays(cfg, p, targets, env);
    RenderInTime(cfg, p, targets, env);
  }

  // ------------------------------------------------------ a merged request

  /** A walked cycle on which an OAM DMA halts is at least a window long. */
  lemma HaltStretches(m: Machine, p: Pattern)
    requires m.oamHaltFrom.Some? && m.oamHaltFrom.value <= m.cycles
    requires !IsWriteCycle(p, 0) && p.oam != Some(0)
    ensures WalkCycle(m, p, 0).cycles >= m.cycles + 514
  {
    hide BusTick, Service, OamWindow, ApplyDeferred;
    DeferredLine(m, p.deferred, 0);
    var ready := TriggerOam(ApplyDeferred(m, p.deferred, 0), p, 0);
    ServiceAccounted(ready, true);
    var served := Service(ready, true);
    assert OamHalts(served, true);
    var halted := served.(oamHaltFrom := None);
    OamWindowLength(halted);
    ServiceAccounted(OamWindow(halted), true);
    TickLine(ServiceOam(served, true));
  }

  lemma {:induction false} RecordKeepsHalt(m: Machine, accesses: seq<Access>)
    ensures RecordAll(m, accesses).m.oamHaltFrom == m.oamHaltFrom
  {
    hide AfterStatusRead, ChipsObserveRead;
    if accesses != [] {
      RecordKeepsHalt(m, accesses[..|accesses| - 1]);
    }
  }

  lemma TriggersLater(m: Machine, s: Step)
    requires CpuStep(s)
    ensures !IsWriteCycle(StepPattern(m, s), 0) && StepPattern(m, s).oam != Some(0)
  {
    hide CpuStep, MaskOf, RecordAll;
    CyclesBound(s);
    RecordKeeps(m, Accesses(s));
    var r := RecordAll(m, Accesses(s));
    if r.oamCall.Some? {
      NthWriteIsNth(MaskOf(s), r.oamCall.value, OwnCycles(s));
    }
  }

  /** So the CPU step that starts with one takes at least 513 cycles more. */
  lemma StepStretched(m: Machine, s: Step)
    requires CpuStep(s) && m.stall == 0 && m.oamHaltFrom.Some? && m.oamHaltFrom.value <= m.cycles
    ensures StepReturns(m, s) >= 513 + OwnCycles(s)
  {
    hide CpuStep, WalkCycle, RecordAll, PatternOf, MaskOf, IsWriteCycle;
    var from, p, n := RecordAll(m, Accesses(s)).m, StepPattern(m, s), OwnCycles(s);
    CyclesBound(s);
    RecordKeeps(m, Accesses(s));
    RecordKeepsHalt(m, Accesses(s));
    TriggersLater(m, s);
    StepConserves(m, s);
    assert Walk(from, p, 0) == from;
    HaltStretches(from, p);
    assert Walk(from, p, 1) == WalkCycle(from, p, 0);
    WalkAfter(from, p, 1, n);
  }

  lemma {:induction false} WalkAfter(m: Machine, p: Pattern, a: nat, b: nat)
    requires a <= b
    ensures Walk(m, p, b).cycles >= Walk(m, p, a).cycles + b - a
  {
    hide WalkCycle;
    if a < b {
      WalkAfter(m, p, a, b - 1);
      WalkCycleAccounted(Walk(m, p, b - 1), p, b - 1);
    }
  }

  /** STA $4014, whose fetches do not matter here. */
  const STORE := Instruction(0x8D, 4, [Access.Write(0x4014, 2)])

  /** A store to $4014 leaves its OAM DMA to halt the next instruction. */
  lemma StoreArms(m: Machine)
    ensures CpuStep(STORE) && AfterStep(m, STORE).oamHaltFrom == Some(AfterStep(m, STORE).cycles)
  {
    hide Service, BusTick, Walk, OamWindow;
    var p := StepPattern(m, STORE);
    StorePattern(m);
    var before := Walk(m, p, 3);
    var ready := TriggerOam(before, p, 3);
    ServiceAccounted(ready, false);
    TickLine(Service(ready, false));
    WalkLast(m, p, 4);
    assert Walked(m, STORE) == WalkCycle(before, p, 3);
  }

  lemma WalkLast(m: Machine, p: Pattern, n: nat)
    requires n > 0
    ensures Walk(m, p, n) == WalkCycle(Walk(m, p, n - 1), p, n - 1)
  {
    hide WalkCycle;
  }

  lemma StorePattern(m: Machine)
    ensures CpuStep(STORE) && StepPattern(m, STORE) == Pattern(4, [false, false, false, true], Some(3), [])
    ensures RecordAll(m, Accesses(STORE)).m == m
  {
    var accesses := Accesses(STORE);
    assert accesses[..0] == [];
    assert RecordAll(m, []) == Recording(m, 0, None, []);
    assert WritesIn([]) == 0;
    assert WriteCycleMask(0x8D, 4) == [false, false, false, true];
    assert FindWrite([false, false, false, true], 0, 4, 0) == 3;
  }

  /** The input on which a call is lost: a PLAY period of 200 cycles, and any CPU step
      that an OAM DMA halts. Two periods run out behind it, and their requests merge. */
  lemma MergedCounterexample(cfg: Config, p: Playback, m: Machine, t: Turn, leftover: u32)
    requires cfg.period == 200 && cfg.nmiPlay && !cfg.suppress && CpuTurn(t)
    requires p.bus == AfterStep(m, STORE) && p.since < 200 && !p.halted
    ensures var q := Advanced(cfg, p, t, leftover);
            Due(cfg, q) && !q.nmiPending && q.plays.lost == p.plays.lost && Burst(cfg, q).plays.lost > p.plays.lost
  {
    hide CpuTurn, AfterStep, StepReturns, StepOf;
    StoreArms(m);
    assert p.bus.stall == 0 by { Drained(m); }
    StepOfRuns(p, t);
    StepStretched(p.bus, StepOf(p, t));
  }

  lemma Drained(m: Machine)
    ensures AfterStep(m, STORE).stall == 0
  {
    hide Walked;
  }
}
