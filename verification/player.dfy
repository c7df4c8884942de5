/** The player's sample loop (src/player.rs:195-215, 404-513, 521-541): PLAY cadence,
    termination and track end, on the cycle-exact machine and for any program. */
module PlayerSchedule {
  import opened Words
  import opened NsfHeaders
  import opened DmaEngine
  import opened DmaCycles
  import opened DmaOwnership
  import opened CpuRuns

  // ------------------------------------------------------------- PLAY period

  function CpuHz(r: Region): nat {
    match r
    case Pal => 1_662_607
    case Dendy => 1_773_448
    case _ => 1_789_773
  }

  /** `play_period_us`: Dendy prefers its own `RATE` word to the PAL word. */
  function PlayPeriodUs(h: Header): u16 {
    match h.region
    case Pal => h.speeds.pal
    case Dendy =>
      var dendy := if h.metadata.rate.Some? && h.metadata.rate.value.dendy.Some? then h.metadata.rate.value.dendy.value else 0;
      if dendy != 0 then dendy else h.speeds.pal
    case _ => h.speeds.ntsc
  }

  function EffectivePeriodUs(h: Header): nat {
    if PlayPeriodUs(h) != 0 then PlayPeriodUs(h)
    else if h.region.Pal? || h.region.Dendy? then 19_997 else 16_666
  }

  /** Cycles between PLAY calls, as the player computes them in u64 and truncates. */
  function PlayPeriodCycles(h: Header): u32 {
    EffectivePeriodUs(h) * CpuHz(h.region) / 1_000_000 % 0x1_0000_0000
  }

  const MAX_PERIOD := 117_292

  /** For every header the period is at least one cycle, and the truncation is idle. */
  lemma PeriodInRange(h: Header)
    ensures 1 <= PlayPeriodCycles(h) <= MAX_PERIOD
    ensures PlayPeriodCycles(h) == EffectivePeriodUs(h) * CpuHz(h.region) / 1_000_000
  {
    var us, hz := EffectivePeriodUs(h), CpuHz(h.region);
    assert 1 <= us <= 65_535 && 1_662_607 <= hz <= 1_789_773;
    MulLe(1, us, hz);
    MulLe(us, 65_535, hz);
    assert us * hz <= 65_535 * 1_789_773;
  }

  // ------------------------------------------------------------- environment

  /** What a program does in one turn of the loop: where its program counter is, which
      lines are asserted, the step it makes if the CPU runs, what the dispatch of an NMI
      accesses, whether the step jams, and what memory holds once a PLAY call has been
      pushed. */
  datatype Turn = Turn(atSentinel: bool, irqLine: bool, step: Step, dispatch: seq<Access>, jams: bool, pushed: Memory)

  type Environment = nat -> Turn

  /** Every step is one the CPU can make, and so is every NMI dispatch. */
  predicate CpuTurn(t: Turn) {
    CpuStep(t.step) && CpuStep(Interrupt(t.dispatch))
  }

  ghost predicate Runs(env: Environment) {
    forall i :: CpuTurn(env(i))
  }

  datatype Config = Config(period: u32, suppress: bool, nmiPlay: bool, fadeStart: Option<nat>, fadeLen: nat)

  /** As `new` makes them of any header. */
  predicate ConfigOk(cfg: Config) {
    1 <= cfg.period <= MAX_PERIOD
  }

  /** What has become of the PLAY calls scheduled so far: entered, or lost; and, as the
      other side of that account, the periods that ran out unserved behind CPU steps. */
  datatype Plays = Plays(triggers: nat, delivered: nat, lost: nat, overrun: nat)

  /** Player state and the machine it drives, with its pending NMI request, and the
      history the cadence is about: PLAY calls and turns taken. */
  datatype Playback = Playback(
    since: u32, halted: bool, rendered: nat, finished: bool, nmiPending: bool, bus: Machine,
    plays: Plays, turns: nat)

  /** A PLAY call is scheduled and, unless it has to wait for the CPU, entered or lost. */
  function Scheduling(c: Plays, entered: bool, dropped: bool): Plays {
    c.(triggers := c.triggers + 1, delivered := c.delivered + if entered then 1 else 0,
       lost := c.lost + if dropped then 1 else 0)
  }

  /** A PLAY period has run out. The classic path delivers it only to a parked CPU, by
      pushing a return address, and otherwise drops it. The NMI path sets the request
      bit, where a request that is still pending swallows the new one. */
  function Trigger(cfg: Config, p: Playback, t: Turn): Playback
    requires cfg.period <= p.since
  {
    p.(since := p.since - cfg.period, turns := p.turns + 1,
       nmiPending := p.nmiPending || cfg.nmiPlay,
       plays := Scheduling(p.plays, !cfg.nmiPlay && t.atSentinel, if cfg.nmiPlay then p.nmiPending else !t.atSentinel),
       bus := if !cfg.nmiPlay && t.atSentinel then p.bus.(mem := t.pushed) else p.bus)
  }

  predicate Due(cfg: Config, p: Playback) {
    !cfg.suppress && p.since >= cfg.period
  }

  /** Parked at the sentinel with nothing to serve, the player only lets time pass. */
  predicate Idles(cfg: Config, p: Playback, t: Turn) {
    t.atSentinel && !cfg.nmiPlay && !t.irqLine && !p.nmiPending
  }

  /** The CPU's step: a halted CPU only holds the bus, and a pending NMI is taken before
      anything else. */
  function StepOf(p: Playback, t: Turn): Step {
    if p.halted then Jammed else if p.nmiPending then Interrupt(t.dispatch) else t.step
  }

  /** Whether a CPU step takes the pending NMI: a halted CPU never looks at it. */
  predicate TakesNmi(p: Playback) {
    p.nmiPending && !p.halted
  }

  /** How many of the periods that have run out will find the request bit set already. */
  function Backlog(period: u32, since: u32, pending: bool): nat
    requires 1 <= period
  {
    Max(since / period - if pending then 0 else 1, 0)
  }

  /** A CPU step enters the call it takes; what has run out behind it is accounted. */
  function Serving(cfg: Config, p: Playback, since: u32): Plays
    requires 1 <= cfg.period
  {
    p.plays.(delivered := p.plays.delivered + if TakesNmi(p) then 1 else 0,
             overrun := p.plays.overrun + if cfg.nmiPlay then Backlog(cfg.period, since, p.nmiPending && p.halted) else 0)
  }

  function IdleChunk(cfg: Config, p: Playback, leftover: u32): u32 {
    Max(if cfg.suppress then leftover else Min(Max(cfg.period - p.since, 0), leftover), 1)
  }

  /** `n` idle cycles, all of them reads. */
  function Idle(m: Machine, n: nat): Machine {
    DmaEngine.Walk(m, Pattern(n, [], None, []), n)
  }

  /** What a turn costs: the cycles the machine reports, stolen ones included. */
  function TurnCost(cfg: Config, p: Playback, t: Turn, leftover: u32): nat {
    if Idles(cfg, p, t) then
      var chunk := IdleChunk(cfg, p, leftover);
      SatAdd(chunk, Idle(p.bus, chunk).stall)
    else StepReturns(p.bus, StepOf(p, t))
  }

  /** The machine after a turn, its stall account drained. */
  function TurnBus(cfg: Config, p: Playback, t: Turn, leftover: u32): Machine {
    if Idles(cfg, p, t) then Idle(p.bus, IdleChunk(cfg, p, leftover)).(stall := 0) else AfterStep(p.bus, StepOf(p, t))
  }

  function Advanced(cfg: Config, p: Playback, t: Turn, leftover: u32): Playback
    requires 1 <= cfg.period
  {
    var since := SatAdd(p.since, TurnCost(cfg, p, t, leftover));
    p.(since := since, bus := TurnBus(cfg, p, t, leftover), turns := p.turns + 1,
       nmiPending := p.nmiPending && p.halted,
       halted := p.halted || (t.jams && !p.nmiPending && !Idles(cfg, p, t)),
       plays := if Idles(cfg, p, t) then p.plays else Serving(cfg, p, since))
  }

  const STEP_BUDGET := 10_000

  /** Where the sample loop ends. */
  datatype SampleEnd = SampleEnd(p: Playback, spent: u32, steps: nat)

  /** A CPU step spends at least its own cycles. */
  lemma StepCosts(m: Machine, s: Step)
    requires CpuStep(s)
    ensures StepReturns(m, s) >= 1
  {
    hide CpuStep, Walked;
    CyclesBound(s);
  }

  /** Whatever it is, the CPU's step is one that it can make. */
  lemma StepOfRuns(p: Playback, t: Turn)
    requires CpuTurn(t)
    ensures CpuStep(StepOf(p, t))
  {
  }

  lemma TurnCosts(cfg: Config, p: Playback, t: Turn, leftover: u32)
    requires CpuTurn(t)
    ensures TurnCost(cfg, p, t, leftover) >= 1
  {
    hide CpuStep, CpuTurn, StepOf, Idle, StepReturns;
    StepOfRuns(p, t);
    StepCosts(p.bus, StepOf(p, t));
  }

  /** The sample loop. Each turn spends a cycle or works off a due PLAY. */
  function SampleLoop(cfg: Config, p: Playback, target: u32, spent: u32, steps: nat, env: Environment): SampleEnd
    requires 1 <= cfg.period && Runs(env)
    decreases target - spent, p.since
  {
    if spent >= target then SampleEnd(p, spent, steps)
    else
      var t := env(p.turns);
      if Due(cfg, p) then SampleLoop(cfg, Trigger(cfg, p, t), target, spent, steps, env)
      else
        TurnCosts(cfg, p, t, target - spent);
        var q := Advanced(cfg, p, t, target - spent);
        var now := SatAdd(spent, TurnCost(cfg, p, t, target - spent));
        if Idles(cfg, p, t) then SampleLoop(cfg, q, target, now, steps, env)
        else if steps + 1 > STEP_BUDGET then SampleEnd(q, now, steps + 1)
        else SampleLoop(cfg, q, target, now, steps + 1, env)
  }

  /** The fade has run out. */
  predicate TrackOver(cfg: Config, rendered: nat) {
    cfg.fadeStart.Some? && rendered >= cfg.fadeStart.value + cfg.fadeLen
  }

  function StepSample(cfg: Config, p: Playback, target: u32, env: Environment): Playback
    requires 1 <= cfg.period && Runs(env)
  {
    if p.finished || TrackOver(cfg, p.rendered) then p.(finished := true)
    else var q := SampleLoop(cfg, p, target, 0, 0, env).p; q.(rendered := q.rendered + 1)
  }

  /** `render`: samples until the CPU has halted or the track has ended. */
  function Render(cfg: Config, p: Playback, targets: seq<u32>, env: Environment): Playback
    requires 1 <= cfg.period && Runs(env)
    decreases |targets|
  {
    if targets == [] || p.halted || p.finished then p
    else Render(cfg, StepSample(cfg, p, targets[0], env), targets[1..], env)
  }

  // ----------------------------------------------------------------- cadence

  /** Scheduled PLAY calls account for every cycle of the bus clock since `origin`, DMA
      stalls included, and the stall account is drained. */
  ghost predicate OnBeat(cfg: Config, p: Playback, origin: nat) {
    && p.bus.stall == 0 && origin <= p.bus.cycles
    && if cfg.suppress then p.plays.triggers == 0 && p.since == Min(p.bus.cycles - origin, U32_MAX)
       else p.plays.triggers * cfg.period + p.since == p.bus.cycles - origin
  }

  /** The most that can have passed since a PLAY fell due: one turn of the loop. */
  predicate InTime(cfg: Config, p: Playback) {
    !cfg.suppress ==> p.since <= 1038 * cfg.period + 8 * 1038
  }

  /** A CPU step costs at most 8 cycles of its own and 1037 stolen ones for each. */
  lemma StepBound(m: Machine, s: Step)
    requires CpuStep(s) && m.stall == 0
    ensures StepReturns(m, s) == AfterStep(m, s).cycles - m.cycles <= 8 * 1038 && AfterStep(m, s).stall == 0
  {
    hide CpuStep, DmaEngine.Walk, PatternOf;
    CyclesBound(s);
    StepConserves(m, s);
    RecordKeeps(m, Accesses(s));
    WalkAccounted(RecordAll(m, Accesses(s)).m, StepPattern(m, s), OwnCycles(s));
  }

  /** So does an idle stretch, for each of its cycles. */
  lemma IdleBound(m: Machine, n: nat)
    requires m.stall == 0
    ensures var r := Idle(m, n);
            m.cycles + n <= r.cycles <= m.cycles + 1038 * n && r.stall == Min(r.cycles - m.cycles - n, U32_MAX)
  {
    hide DmaEngine.Walk;
    WalkAccounted(m, Pattern(n, [], None, []), n);
  }

  /** A turn costs what the bus clock advances by, and only an idle stretch of a player
      that never calls PLAY can be long enough to saturate. */
  lemma TurnIsClock(cfg: Config, p: Playback, t: Turn, leftover: u32)
    requires ConfigOk(cfg) && CpuTurn(t) && p.bus.stall == 0 && !Due(cfg, p)
    ensures var cost, q := TurnCost(cfg, p, t, leftover), TurnBus(cfg, p, t, leftover);
            && q.stall == 0 && p.bus.cycles <= q.cycles
            && cost == Min(q.cycles - p.bus.cycles, U32_MAX)
            && (!cfg.suppress ==> p.since + cost <= 1038 * cfg.period + 8 * 1038)
  {
    hide CpuStep, CpuTurn, StepOf, Idle, StepReturns, AfterStep;
    StepOfRuns(p, t);
    StepBound(p.bus, StepOf(p, t));
    IdleBound(p.bus, IdleChunk(cfg, p, leftover));
  }

  lemma TriggerOnBeat(cfg: Config, p: Playback, t: Turn, origin: nat)
    requires 1 <= cfg.period && Due(cfg, p)
    ensures OnBeat(cfg, p, origin) ==> OnBeat(cfg, Trigger(cfg, p, t), origin)
    ensures InTime(cfg, p) ==> InTime(cfg, Trigger(cfg, p, t))
  {
    assert (p.plays.triggers + 1) * cfg.period == p.plays.triggers * cfg.period + cfg.period;
  }

  lemma AdvanceOnBeat(cfg: Config, p: Playback, t: Turn, leftover: u32, origin: nat)
    requires ConfigOk(cfg) && CpuTurn(t) && OnBeat(cfg, p, origin) && !Due(cfg, p)
    ensures OnBeat(cfg, Advanced(cfg, p, t, leftover), origin) && InTime(cfg, Advanced(cfg, p, t, leftover))
  {
    hide CpuTurn, TurnCost, TurnBus;
    TurnIsClock(cfg, p, t, leftover);
  }

  /** What a turn leaves alone. */
  lemma AdvanceKeepsRest(cfg: Config, p: Playback, t: Turn, leftover: u32)
    requires 1 <= cfg.period
    ensures var q := Advanced(cfg, p, t, leftover);
            q.rendered == p.rendered && q.finished == p.finished && q.plays.triggers == p.plays.triggers
            && q.turns == p.turns + 1 && q.bus == TurnBus(cfg, p, t, leftover)
  {
    hide TurnCost, TurnBus, Backlog;
  }

  /** What every turn keeps: the beat, and how late PLAY can be. */
  lemma {:induction false} LoopKeepsBeat(cfg: Config, p: Playback, target: u32, spent: u32, steps: nat, env: Environment, origin: nat)
    requires ConfigOk(cfg) && Runs(env) && OnBeat(cfg, p, origin) && InTime(cfg, p)
    ensures var q := SampleLoop(cfg, p, target, spent, steps, env).p;
            OnBeat(cfg, q, origin) && InTime(cfg, q)
    decreases target - spent, p.since
  {
    hide TurnCost, Advanced, Trigger, CpuTurn, OnBeat, InTime, SampleLoop, Idles;
    if spent >= target {
      LoopDone(cfg, p, target, spent, steps, env);
    } else {
      var t := env(p.turns);
      LoopTurn(cfg, p, target, spent, steps, env);
      if Due(cfg, p) {
        TriggerOnBeat(cfg, p, t, origin);
        TriggerKeepsRest(cfg, p, t);
        LoopKeepsBeat(cfg, Trigger(cfg, p, t), target, spent, steps, env, origin);
      } else {
        TurnCosts(cfg, p, t, target - spent);
        AdvanceOnBeat(cfg, p, t, target - spent, origin);
        var q := Advanced(cfg, p, t, target - spent);
        var now := SatAdd(spent, TurnCost(cfg, p, t, target - spent));
        if Idles(cfg, p, t) {
          LoopKeepsBeat(cfg, q, target, now, steps, env, origin);
        } else if steps + 1 <= STEP_BUDGET {
          LoopKeepsBeat(cfg, q, target, now, steps + 1, env, origin);
        }
      }
    }
  }

  /** PLAY cadence without drift, over any number of rendered samples and for every
      program: triggers times the period plus the cycles since the last one is what the
      bus clock has advanced by, and PLAY is never later than one turn of the loop. */
  lemma {:induction false} CadenceWithoutDrift(cfg: Config, p: Playback, targets: seq<u32>, env: Environment, origin: nat)
    requires ConfigOk(cfg) && Runs(env) && OnBeat(cfg, p, origin) && InTime(cfg, p)
    ensures var q := Render(cfg, p, targets, env);
            OnBeat(cfg, q, origin) && InTime(cfg, q)
    decreases |targets|
  {
    hide OnBeat, InTime, SampleLoop, Runs;
    if targets != [] && !p.halted && !p.finished {
      LoopKeepsBeat(cfg, p, targets[0], 0, 0, env, origin);
      var q := StepSample(cfg, p, targets[0], env);
      SampleKeepsBeat(cfg, p, targets[0], env, origin);
      CadenceWithoutDrift(cfg, q, targets[1..], env, origin);
    }
  }

  lemma SampleKeepsBeat(cfg: Config, p: Playback, target: u32, env: Environment, origin: nat)
    requires 1 <= cfg.period && Runs(env) && OnBeat(cfg, p, origin) && InTime(cfg, p)
    ensures var q := SampleLoop(cfg, p, target, 0, 0, env).p;
            OnBeat(cfg, q, origin) && InTime(cfg, q)
            ==> OnBeat(cfg, StepSample(cfg, p, target, env), origin) && InTime(cfg, StepSample(cfg, p, target, env))
  {
    hide SampleLoop, Runs;
  }

  /** From the start of a song: what the bus clock has advanced by over the samples
      rendered is exactly what the scheduled PLAY calls and the remainder account for,
      and whenever no PLAY is due, exactly as many have been scheduled as whole periods
      have passed on the bus clock. */
  lemma TriggersCountPeriods(cfg: Config, p: Playback, targets: seq<u32>, env: Environment)
    requires ConfigOk(cfg) && Runs(env) && !cfg.suppress
    requires p.since == 0 && p.plays.triggers == 0 && p.bus.stall == 0
    ensures var q := Render(cfg, p, targets, env);
            && p.bus.cycles <= q.bus.cycles
            && q.plays.triggers * cfg.period + q.since == q.bus.cycles - p.bus.cycles
            && (!Due(cfg, q) ==> q.plays.triggers == (q.bus.cycles - p.bus.cycles) / cfg.period)
  {
    hide Render, Runs;
    CadenceWithoutDrift(cfg, p, targets, env, p.bus.cycles);
    var q := Render(cfg, p, targets, env);
    if !Due(cfg, q) {
      DivModUnique(q.bus.cycles - p.bus.cycles, cfg.period, q.plays.triggers, q.since);
    }
  }

  /** The loop takes at most one turn a cycle besides the PLAYs it schedules, ends with
      the target spent or the step budget used up, and spends what the bus clock
      advances by. */
  lemma {:induction false} LoopEnds(cfg: Config, p: Playback, target: u32, spent: u32, steps: nat, env: Environment)
    requires ConfigOk(cfg) && Runs(env) && p.bus.stall == 0 && spent <= target && steps <= STEP_BUDGET
    ensures var end := SampleLoop(cfg, p, target, spent, steps, env);
            && (end.spent >= target || end.steps == STEP_BUDGET + 1)
            && end.p.turns - p.turns <= (target - spent) + (end.p.plays.triggers - p.plays.triggers)
            && p.bus.cycles <= end.p.bus.cycles
            && end.spent == Min(spent + (end.p.bus.cycles - p.bus.cycles), U32_MAX)
    decreases target - spent, p.since
  {
    hide TurnCost, TurnBus, CpuTurn, Advanced, Trigger, SampleLoop, Idles;
    if spent >= target {
      LoopDone(cfg, p, target, spent, steps, env);
    } else {
      var t := env(p.turns);
      LoopTurn(cfg, p, target, spent, steps, env);
      if Due(cfg, p) {
        TriggerKeepsRest(cfg, p, t);
        LoopEnds(cfg, Trigger(cfg, p, t), target, spent, steps, env);
      } else {
        TurnCosts(cfg, p, t, target - spent);
        TurnIsClock(cfg, p, t, target - spent);
        AdvanceKeepsRest(cfg, p, t, target - spent);
        hide Due, Runs;
        var q := Advanced(cfg, p, t, target - spent);
        var now := SatAdd(spent, TurnCost(cfg, p, t, target - spent));
        var steps' := if Idles(cfg, p, t) then steps else steps + 1;
        if now >= target {
          LoopDone(cfg, q, target, now, steps', env);
        } else if steps' <= STEP_BUDGET {
          LoopEnds(cfg, q, target, now, steps', env);
        }
      }
    }
  }

  lemma TriggerKeepsRest(cfg: Config, p: Playback, t: Turn)
    requires 1 <= cfg.period && Due(cfg, p)
    ensures var q := Trigger(cfg, p, t);
            q.since < p.since && q.bus.cycles == p.bus.cycles && q.bus.stall == p.bus.stall
            && q.plays.triggers == p.plays.triggers + 1 && q.turns == p.turns + 1
  {
  }

  // ------------------------------------------------------- the machine below

  lemma TurnKeepsFull(cfg: Config, p: Playback, t: Turn, leftover: u32)
    requires Full(p.bus) && CpuTurn(t)
    ensures Full(TurnBus(cfg, p, t, leftover))
  {
    hide Full, CpuStep, CpuTurn, StepOf, AfterStep, DmaEngine.Walk;
    StepOfRuns(p, t);
    StepKeepsFull(p.bus, StepOf(p, t));
    var n := IdleChunk(cfg, p, leftover);
    WalkKeeps(p.bus, Pattern(n, [], None, []), n);
    StallKeepsFull(Idle(p.bus, n), 0);
  }

  lemma TriggerKeepsFull(cfg: Config, p: Playback, t: Turn)
    requires Full(p.bus) && Due(cfg, p)
    ensures Full(Trigger(cfg, p, t).bus)
  {
    hide DmaOk, ParityOk, Armed;
  }

  lemma {:induction false} LoopKeepsFull(cfg: Config, p: Playback, target: u32, spent: u32, steps: nat, env: Environment)
    requires 1 <= cfg.period && Runs(env) && Full(p.bus)
    ensures Full(SampleLoop(cfg, p, target, spent, steps, env).p.bus)
    decreases target - spent, p.since
  {
    hide TurnCost, TurnBus, CpuTurn, Full;
    if spent < target {
      var t := env(p.turns);
      if Due(cfg, p) {
        TriggerKeepsFull(cfg, p, t);
        LoopKeepsFull(cfg, Trigger(cfg, p, t), target, spent, steps, env);
      } else {
        TurnCosts(cfg, p, t, target - spent);
        TurnKeepsFull(cfg, p, t, target - spent);
        var q := Advanced(cfg, p, t, target - spent);
        var now := SatAdd(spent, TurnCost(cfg, p, t, target - spent));
        if Idles(cfg, p, t) {
          LoopKeepsFull(cfg, q, target, now, steps, env);
        } else if steps + 1 <= STEP_BUDGET {
          LoopKeepsFull(cfg, q, target, now, steps + 1, env);
        }
      }
    }
  }

  /** The CPU jams exactly in a step of its own: not while it is parked, and not in the
      step that takes an NMI. */
  lemma JamsIff(cfg: Config, p: Playback, t: Turn, leftover: u32)
    requires 1 <= cfg.period && !p.halted
    ensures var q := Advanced(cfg, p, t, leftover);
            if p.nmiPending then !q.halted && !q.nmiPending && StepOf(p, t) == Interrupt(t.dispatch)
            else !q.nmiPending && StepOf(p, t) == t.step && (q.halted <==> t.jams && !Idles(cfg, p, t))
  {
  }

  /** Once it has jammed it stays so over the rest of the loop: nothing but stalls runs,
      a pending request stays pending, and on the NMI path no call is entered. */
  lemma {:induction false} LoopStaysHalted(cfg: Config, p: Playback, target: u32, spent: u32, steps: nat, env: Environment)
    requires 1 <= cfg.period && Runs(env) && p.halted
    ensures var q := SampleLoop(cfg, p, target, spent, steps, env).p;
            && q.halted && (p.nmiPending ==> q.nmiPending)
            && (cfg.nmiPlay ==> q.plays.delivered == p.plays.delivered)
            && forall t :: StepOf(q, t) == Jammed
    decreases target - spent, p.since
  {
    hide TurnCost, TurnBus, CpuTurn;
    if spent < target {
      var t := env(p.turns);
      if Due(cfg, p) {
        LoopStaysHalted(cfg, Trigger(cfg, p, t), target, spent, steps, env);
      } else {
        TurnCosts(cfg, p, t, target - spent);
        var q := Advanced(cfg, p, t, target - spent);
        var now := SatAdd(spent, TurnCost(cfg, p, t, target - spent));
        if Idles(cfg, p, t) {
          LoopStaysHalted(cfg, q, target, now, steps, env);
        } else if steps + 1 <= STEP_BUDGET {
          LoopStaysHalted(cfg, q, target, now, steps + 1, env);
        }
      }
    }
  }

  /** Rendering any number of samples, whatever the program does, keeps everything the
      DMA engine promises: fetch ownership, sample account, DMA parity, clock phase. */
  lemma {:induction false} RenderKeepsFull(cfg: Config, p: Playback, targets: seq<u32>, env: Environment)
    requires 1 <= cfg.period && Runs(env) && Full(p.bus)
    ensures Full(Render(cfg, p, targets, env).bus)
    decreases |targets|
  {
    hide Full, SampleLoop, Runs;
    if targets != [] && !p.halted && !p.finished {
      LoopKeepsFull(cfg, p, targets[0], 0, 0, env);
      RenderKeepsFull(cfg, StepSample(cfg, p, targets[0], env), targets[1..], env);
    }
  }

  // --------------------------------------------------------------- track end

  /** A scheduled track emits exactly its time plus its fade, and then nothing: while
      the CPU does not jam, `n` requested samples give the lesser of the two counts. */
  lemma {:induction false} TrackLength(cfg: Config, p: Playback, targets: seq<u32>, env: Environment)
    requires 1 <= cfg.period && Runs(env) && cfg.fadeStart.Some?
    requires p.rendered <= cfg.fadeStart.value + cfg.fadeLen && (p.finished ==> TrackOver(cfg, p.rendered))
    ensures var q, end := Render(cfg, p, targets, env), cfg.fadeStart.value + cfg.fadeLen;
            && q.rendered <= end
            && (q.finished ==> q.rendered == end)
            && (!q.halted ==> q.rendered == Min(p.rendered + |targets|, end))
    decreases |targets|
  {
    hide SampleLoop;
    if targets != [] && !p.halted && !p.finished {
      var q := StepSample(cfg, p, targets[0], env);
      LoopLeavesTrack(cfg, p, targets[0], 0, 0, env);
      TrackLength(cfg, q, targets[1..], env);
    }
  }

  lemma {:induction false} LoopLeavesTrack(cfg: Config, p: Playback, target: u32, spent: u32, steps: nat, env: Environment)
    requires 1 <= cfg.period && Runs(env)
    ensures var q := SampleLoop(cfg, p, target, spent, steps, env).p;
            q.rendered == p.rendered && q.finished == p.finished
    decreases target - spent, p.since
  {
    hide TurnCost, Advanced, CpuTurn, TurnBus, Idles;
    if spent < target {
      var t := env(p.turns);
      if Due(cfg, p) {
        LoopLeavesTrack(cfg, Trigger(cfg, p, t), target, spent, steps, env);
      } else {
        TurnCosts(cfg, p, t, target - spent);
        AdvanceKeepsRest(cfg, p, t, target - spent);
        var q := Advanced(cfg, p, t, target - spent);
        var now := SatAdd(spent, TurnCost(cfg, p, t, target - spent));
        if Idles(cfg, p, t) {
          LoopLeavesTrack(cfg, q, target, now, steps, env);
        } else if steps + 1 <= STEP_BUDGET {
          LoopLeavesTrack(cfg, q, target, now, steps + 1, env);
        }
      }
    }
  }

  /** `fade_gain`: unity, then a linear ramp over the fade, then silence. */
  function FadeGain(cfg: Config, rendered: nat): real {
    if cfg.fadeStart.None? || rendered < cfg.fadeStart.value then 1.0
    else if TrackOver(cfg, rendered) then 0.0
    else 1.0 - (rendered - cfg.fadeStart.value) as real / cfg.fadeLen as real
  }

  /** The gain never rises, stays within [0, 1], and is zero exactly when the track is
      over: every emitted sample is audible. */
  lemma FadeIsMonotone(cfg: Config, i: nat, j: nat)
    requires i <= j
    ensures 0.0 <= FadeGain(cfg, j) <= FadeGain(cfg, i) <= 1.0
    ensures FadeGain(cfg, j) == 0.0 <==> TrackOver(cfg, j)
  {
    if cfg.fadeStart.Some? && j >= cfg.fadeStart.value && !TrackOver(cfg, j) {
      var start, len := cfg.fadeStart.value, cfg.fadeLen as real;
      RatioBelowOne((j - start) as real, len);
      if i >= start {
        RatioMonotone((i - start) as real, (j - start) as real, len);
      }
    }
    if cfg.fadeStart.Some? && i >= cfg.fadeStart.value && !TrackOver(cfg, i) {
      RatioBelowOne((i - cfg.fadeStart.value) as real, cfg.fadeLen as real);
    }
  }

  lemma RatioBelowOne(x: real, len: real)
    requires 0.0 <= x < len
    ensures 0.0 <= x / len < 1.0
  {
  }

  lemma RatioMonotone(x: real, y: real, len: real)
    requires x <= y && 0.0 < len
    ensures x / len <= y / len
  {
  }

  /** The loop, one turn at a time. */
  lemma LoopTurn(cfg: Config, p: Playback, target: u32, spent: u32, steps: nat, env: Environment)
    requires 1 <= cfg.period && Runs(env) && spent < target
    ensures var t, end := env(p.turns), SampleLoop(cfg, p, target, spent, steps, env);
            CpuTurn(t) &&
            if Due(cfg, p) then end == SampleLoop(cfg, Trigger(cfg, p, t), target, spent, steps, env)
            else
              var q := Advanced(cfg, p, t, target - spent);
              var now := SatAdd(spent, TurnCost(cfg, p, t, target - spent));
              var steps' := if Idles(cfg, p, t) then steps else steps + 1;
              end == if !Idles(cfg, p, t) && steps' > STEP_BUDGET then SampleEnd(q, now, steps')
                     else SampleLoop(cfg, q, target, now, steps', env)
  {
    hide TurnCost, Advanced, CpuTurn;
  }

  lemma LoopDone(cfg: Config, p: Playback, target: u32, spent: u32, steps: nat, env: Environment)
    requires 1 <= cfg.period && Runs(env) && spent >= target
    ensures SampleLoop(cfg, p, target, spent, steps, env) == SampleEnd(p, spent, steps)
  {
  }

  // ------------------------------------------------------- the source's loops

  class NsfPlayer {
    const cfg: Config
    var bus: Machine
    var cyclesSincePlay: u32
    var halted: bool
    var samplesRendered: nat
    var finished: bool
    var nmiPending: bool
    var turns: nat
    ghost var plays: Plays

    /** `new` and the counter part of `start_song`; `machine` is what INIT left, with no
        stall undrained, and `jammed` whether it halted the CPU. */
    constructor (h: Header, suppress: bool, nmiPlay: bool, fadeStart: Option<nat>, fadeLen: nat, machine: Machine, jammed: bool)
      requires machine.stall == 0
      ensures cfg == Config(PlayPeriodCycles(h), suppress, nmiPlay, fadeStart, fadeLen) && ConfigOk(cfg)
      ensures State() == Playback(0, jammed, 0, false, false, machine, Plays(0, 0, 0, 0), 0)
      ensures OnBeat(cfg, State(), machine.cycles) && InTime(cfg, State())
    {
      PeriodInRange(h);
      cfg := Config(PlayPeriodCycles(h), suppress, nmiPlay, fadeStart, fadeLen);
      bus := machine;
      cyclesSincePlay, halted, samplesRendered, finished, nmiPending, turns := 0, jammed, 0, false, false, 0;
      plays := Plays(0, 0, 0, 0);
    }

    ghost function State(): Playback
      reads this
    {
      Playback(cyclesSincePlay, halted, samplesRendered, finished, nmiPending, bus, plays, turns)
    }

    /** One turn of the sample loop; what it spent, 0 for a PLAY trigger. */
    method TakeTurn(t: Turn, leftover: u32) returns (cost: nat, stepped: bool)
      requires 1 <= cfg.period && CpuTurn(t)
      modifies this
      ensures old(Due(cfg, State())) ==> State() == Trigger(cfg, old(State()), t) && cost == 0 && !stepped
      ensures !old(Due(cfg, State())) ==>
        (cost == TurnCost(cfg, old(State()), t, leftover) >= 1 && stepped == !Idles(cfg, old(State()), t)
         && State() == Advanced(cfg, old(State()), t, leftover))
    {
      hide CpuTurn, TurnCost, Idles, Trigger, Advanced;
      if !cfg.suppress && cyclesSincePlay >= cfg.period {
        SchedulePlay(t);
        cost, stepped := 0, false;
      } else {
        TurnCosts(cfg, State(), t, leftover);
        cost, stepped := MoveOn(t, leftover);
      }
    }

    /** The player idles or the CPU makes a step. */
    method MoveOn(t: Turn, leftover: u32) returns (cost: nat, stepped: bool)
      requires 1 <= cfg.period
      modifies this
      ensures cost == TurnCost(cfg, old(State()), t, leftover) && stepped == !Idles(cfg, old(State()), t)
      ensures State() == Advanced(cfg, old(State()), t, leftover)
    {
      hide StepOf, Idle, StepReturns, AfterStep, Serving;
      if t.atSentinel && !cfg.nmiPlay && !t.irqLine && !nmiPending {
        stepped := false;
        var need := if cfg.suppress then leftover else Min(Max(cfg.period - cyclesSincePlay, 0), leftover);
        var chunk := Max(need, 1);
        cost := PassTime(chunk);
      } else {
        stepped := true;
        cost := StepCpu(t);
      }
      turns, cyclesSincePlay := turns + 1, SatAdd(cyclesSincePlay, cost);
      if stepped {
        plays := Serving(cfg, old(State()), cyclesSincePlay);
      }
    }

    /** `step`: a halted CPU only holds the bus, and otherwise takes a pending NMI first. */
    method StepCpu(t: Turn) returns (cost: nat)
      modifies this`bus, this`halted, this`nmiPending
      ensures cost == StepReturns(old(bus), StepOf(old(State()), t)) && bus == AfterStep(old(bus), StepOf(old(State()), t))
      ensures nmiPending == old(nmiPending && halted) && halted == old(halted || (t.jams && !nmiPending))
    {
      hide StepReturns, AfterStep;
      var step := Jammed;
      if !halted {
        step := if nmiPending then Interrupt(t.dispatch) else t.step;
        halted := t.jams && !nmiPending;
        nmiPending := false;
      }
      cost := StepReturns(bus, step);
      bus := AfterStep(bus, step);
    }

    /** A PLAY period has run out. */
    method SchedulePlay(t: Turn)
      requires Due(cfg, State())
      modifies this
      ensures State() == Trigger(cfg, old(State()), t)
    {
      turns := turns + 1;
      cyclesSincePlay := cyclesSincePlay - cfg.period;
      plays := Scheduling(plays, !cfg.nmiPlay && t.atSentinel, if cfg.nmiPlay then nmiPending else !t.atSentinel);
      if cfg.nmiPlay {
        nmiPending := true;
      } else if t.atSentinel {
        bus := bus.(mem := t.pushed);
      }
    }

    /** Idle cycles, and the drained stall on top of them. */
    method PassTime(chunk: u32) returns (cost: u32)
      modifies this`bus
      ensures bus == Idle(old(bus), chunk).(stall := 0) && cost == SatAdd(chunk, Idle(old(bus), chunk).stall)
    {
      hide Idle;
      bus := Idle(bus, chunk);
      cost := SatAdd(chunk, bus.stall);
      bus := bus.(stall := 0);
    }

    /** `step_one_sample` without the mixer; `target` is the cycle count of the sample. */
    method StepOneSample(target: u32, env: Environment)
      requires 1 <= cfg.period && Runs(env)
      modifies this
      ensures State() == StepSample(cfg, old(State()), target, env)
    {
      if cfg.fadeStart.Some? && samplesRendered >= cfg.fadeStart.value
         && samplesRendered - cfg.fadeStart.value >= cfg.fadeLen {
        finished := true;
      }
      if finished {
        return;
      }
      hide SampleLoop, Runs;
      SpendSample(target, env);
      samplesRendered := samplesRendered + 1;
    }

    /** The sample loop, terminating on what is left of the target and then on the
        cycles since PLAY. */
    method SpendSample(target: u32, env: Environment)
      requires 1 <= cfg.period && Runs(env)
      modifies this
      ensures State() == SampleLoop(cfg, old(State()), target, 0, 0, env).p
    {
      hide TurnCost, Idles, Due, Advanced, SampleLoop, CpuTurn;
      var spent: u32 := 0;
      var steps := 0;
      ghost var end := SampleLoop(cfg, State(), target, 0, 0, env);
      var running := true;
      while spent < target && running
        invariant if running then SampleLoop(cfg, State(), target, spent, steps, env) == end
                  else SampleEnd(State(), spent, steps) == end
        decreases running, if spent < target then target - spent else 0, cyclesSincePlay
      {
        var t := env(turns);
        LoopTurn(cfg, State(), target, spent, steps, env);
        var cost, stepped := TakeTurn(t, target - spent);
        spent := SatAdd(spent, cost);
        if stepped {
          steps := steps + 1;
          running := steps <= STEP_BUDGET;
        }
      }
      if running {
        LoopDone(cfg, State(), target, spent, steps, env);
      }
    }

    /** `render`, returning how many samples were written. */
    method RenderInto(targets: seq<u32>, env: Environment) returns (n: nat)
      requires 1 <= cfg.period && Runs(env)
      modifies this
      ensures State() == Render(cfg, old(State()), targets, env)
      ensures n <= |targets| && n == samplesRendered - old(samplesRendered)
    {
      hide SampleLoop, Runs;
      n := 0;
      while n < |targets|
        invariant n <= |targets| && n == samplesRendered - old(samplesRendered)
        invariant Render(cfg, State(), targets[n..], env) == Render(cfg, old(State()), targets, env)
      {
        if halted || finished {
          return;
        }
        assert targets[n..][1..] == targets[n + 1..];
        LoopLeavesTrack(cfg, State(), targets[n], 0, 0, env);
        StepOneSample(targets[n], env);
        if finished {
          return;
        }
        n := n + 1;
      }
    }
  }

  /** An idle stretch is the longest that passes neither the target nor the moment PLAY
      falls due. */
  lemma IdleIsLongest(cfg: Config, p: Playback, leftover: u32, longer: u32)
    requires leftover >= 1 && !Due(cfg, p)
    ensures var c := IdleChunk(cfg, p, leftover);
            && 1 <= c <= leftover && (!cfg.suppress ==> p.since + c <= cfg.period)
            && (longer > c ==> longer > leftover || (!cfg.suppress && p.since + longer > cfg.period))
  {
  }

  /** The fade is a straight line: the gain falls by the same amount every sample. */
  lemma FadeIsLinear(cfg: Config, i: nat)
    requires cfg.fadeStart.Some? && i < cfg.fadeLen
    ensures FadeGain(cfg, cfg.fadeStart.value + i) * cfg.fadeLen as real == (cfg.fadeLen - i) as real
  {
    var len, into := cfg.fadeLen as real, i as real;
    RatioTimes(into, len);
  }

  lemma RatioTimes(x: real, len: real)
    requires 0.0 < len
    ensures (1.0 - x / len) * len == len - x
  {
  }
}
