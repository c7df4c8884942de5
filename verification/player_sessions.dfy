/** Whole sessions of the player (src/player.rs:195-253, 304-386, 521-541): power-up,
    songs started one after the other in mid-run, and their rendering. */
module PlayerSessions {
  import opened Words
  import opened IrqTimer
  import opened DeltaModulation
  import opened FrameSequencer
  import opened ExpansionChips
  import opened NsfHeaders
  import opened DmaEngine
  import opened DmaOwnership
  import opened CpuRuns
  import opened Apu2A03
  import opened SongReset
  import opened PlayerSchedule
  import opened PlayDelivery

  /** What starting a song brings: the memory view with the program reloaded and the
      return address pushed, the CPU steps of the INIT call that `run_until_stop` makes,
      whether they end in a jam, and the view with the second INIT phase pushed. */
  datatype Song = Song(loaded: Memory, init: seq<Step>, jammed: bool, pushed: Memory)

  /** A song and how it is listened to. */
  datatype Listening = Listening(song: Song, cfg: Config, targets: seq<u32>, env: Environment)

  ghost predicate Playable(l: Listening) {
    && ConfigOk(l.cfg) && Runs(l.env)
    && forall i :: 0 <= i < |l.song.init| ==> CpuStep(l.song.init[i])
  }

  /** The machine when INIT has returned or its time is up. */
  function AfterInit(m: Machine, s: Song): Machine {
    Run(ResetForTune(m, s.loaded), s.init).(mem := s.pushed)
  }

  /** `start_song`: counters, schedule and pending NMI cleared. */
  function StartSong(m: Machine, s: Song): Playback {
    Playback(0, s.jammed, 0, false, false, AfterInit(m, s), Plays(0, 0, 0, 0), 0)
  }

  /** The bus after a session: each song starts on the machine the one before left. */
  ghost function Session(m: Machine, songs: seq<Listening>): Machine
    requires forall i :: 0 <= i < |songs| ==> Playable(songs[i])
  {
    if songs == [] then m else Heard(Session(m, songs[..|songs| - 1]), songs[|songs| - 1]).bus
  }

  ghost function Heard(m: Machine, l: Listening): Playback
    requires Playable(l)
  {
    Render(l.cfg, StartSong(m, l.song), l.targets, l.env)
  }

  lemma MemoryKeepsFull(m: Machine, mem: Memory)
    requires Full(m)
    ensures Full(m.(mem := mem))
  {
    hide Full;
    FullElsewhere(m, mem, m.timer, m.apu.chips);
  }

  /** A song starts in a state that every law of the player asks for: the whole
      invariant of the machine, a drained stall account, and clean counters. */
  lemma SongStarts(m: Machine, s: Song, cfg: Config)
    requires Full(m) && m.stall == 0 && ConfigOk(cfg)
    requires forall i :: 0 <= i < |s.init| ==> CpuStep(s.init[i])
    ensures var p := StartSong(m, s);
            && Full(p.bus) && p.bus.stall == 0 && p.bus.cycles >= m.cycles
            && OnBeat(cfg, p, p.bus.cycles) && InTime(cfg, p) && PlaysOk(cfg, p)
  {
    hide Full, CpuStep, Run, ResetForTune;
    var r := ResetForTune(m, s.loaded);
    ResetKeepsFull(m, s.loaded);
    RunKeepsFull(r, s.init);
    RunConserves(r, s.init);
    MemoryKeepsFull(Run(r, s.init), s.pushed);
    DivModUnique(0, cfg.period, 0, 0);
  }

  /** One song, from any machine in the run: its whole rendering keeps the invariant of
      the machine, the cadence without drift and the account of its PLAY calls. */
  lemma SongKeeps(m: Machine, l: Listening)
    requires Full(m) && m.stall == 0 && Playable(l)
    ensures var p, q := StartSong(m, l.song), Heard(m, l);
            && Full(q.bus) && q.bus.stall == 0 && m.cycles <= p.bus.cycles <= q.bus.cycles
            && OnBeat(l.cfg, q, p.bus.cycles) && InTime(l.cfg, q) && PlaysOk(l.cfg, q)
  {
    hide Full, CpuStep, StartSong, Render, Runs, InTime, PlaysOk;
    SongStarts(m, l.song, l.cfg);
    var p := StartSong(m, l.song);
    CadenceWithoutDrift(l.cfg, p, l.targets, l.env, p.bus.cycles);
    RenderKeepsPlays(l.cfg, p, l.targets, l.env);
    RenderKeepsFull(l.cfg, p, l.targets, l.env);
  }

  /** And so does every session of songs, of any number and length. */
  lemma {:induction false} SessionKeeps(m: Machine, songs: seq<Listening>)
    requires Full(m) && m.stall == 0 && forall i :: 0 <= i < |songs| ==> Playable(songs[i])
    ensures var r := Session(m, songs); Full(r) && r.stall == 0 && r.cycles >= m.cycles
  {
    hide Full, Playable, Heard;
    if songs != [] {
      var front := songs[..|songs| - 1];
      SessionKeeps(m, front);
      SongKeeps(Session(m, front), songs[|songs| - 1]);
    }
  }

  /** The bus as `new` leaves it for a header's region: the power-up state with any
      program, chip selection and timer enable. */
  function PoweredUp(m: Machine, region: Region, mem: Memory, timer: Timer, chips: Chips): Machine {
    var tuned := SetPal(m, CpuHz(region) < 1_700_000);
    tuned.(mem := mem, timer := timer, apu := tuned.apu.(chips := chips))
  }

  /** From power-up in any region, through any session: at the end of its last song the
      machine's invariant holds, and the PLAY calls scheduled since that song's INIT
      times the period, plus the cycles since the last, are what the bus clock has
      advanced by. */
  lemma FromPowerUp(m: Machine, region: Region, mem: Memory, timer: Timer, chips: Chips, songs: seq<Listening>, last: Listening)
    requires m.apu.dmc == DMC_RESET && m.apu.totalCycles == 0 && m.cycles == 0 && m.stall == 0
    requires m.apu.seqr == Sequencer(false, false, false, false, 0, 0, None)
    requires m.dma == None && m.loadHaltFrom == None
    requires Playable(last) && forall i :: 0 <= i < |songs| ==> Playable(songs[i])
    ensures var before := Session(PoweredUp(m, region, mem, timer, chips), songs);
            var q := Heard(before, last);
            && Full(q.bus) && q.bus.stall == 0 && PlaysOk(last.cfg, q)
            && (!last.cfg.suppress ==>
                  q.plays.triggers * last.cfg.period + q.since == q.bus.cycles - StartSong(before, last.song).bus.cycles)
  {
    hide Full, Playable, PlaysOk, Session, Heard, StartSong, SetPal, InTime;
    PowerUp(m, CpuHz(region) < 1_700_000);
    var tuned := SetPal(m, CpuHz(region) < 1_700_000);
    FullElsewhere(tuned, mem, timer, chips);
    assert tuned.stall == 0 by { PalKeepsStall(m, CpuHz(region) < 1_700_000); }
    var on := PoweredUp(m, region, mem, timer, chips);
    SessionKeeps(on, songs);
    SongKeeps(Session(on, songs), last);
  }

  lemma PalKeepsStall(m: Machine, pal: bool)
    ensures SetPal(m, pal).stall == m.stall
  {
  }
}
