# oxideav-nsf: a verified model

This project models the parts of the NSF player whose correctness is hardest to
see from the code, and proves what they promise for all inputs, states and runs.

* **The cycle-timed machine.** The bus's sub-instruction DMA engine and the DMC
  channel it serves (`bus*.dfy`, `dmc.dfy`), the 2A03 APU with its frame counter
  (`channels.dfy`, `sweep.dfy`, `sequencer.dfy`, `frame_counter.dfy`, `apu.dfy`,
  `apu_device.dfy`), the NSF2 interrupt timer (`irq_timer.dfy`), five expansion
  chips (`vrc6.dfy`, `mmc5.dfy`, `s5b.dfy`, `n163.dfy`, `fds.dfy`, `expansion.dfy`)
  and the bus patterns of the CPU (`cpu_patterns.dfy`, `cpu_runs.dfy`). Every clocked
  unit has a one-cycle step function; every batched method of the source is an
  object whose fields change in place, proved to compute that many single steps.
* **The same machine in numbers.** What those steps amount to, stated without them:
  the stop and enable rules in cycle numbers (`bus_stop.dfy`), the write cycles of every
  opcode (`cpu_writes.dfy`), and counters, timers, envelopes, ramps and registers in
  closed form (`dividers.dfy`, `frame_units.dfy`, `channel_timers.dfy`, `registers.dfy`,
  `chip_generators.dfy`, `fds_envelope.dfy`, `fds_pitch.dfy`).
* **The containers.** The NSFe metadata chunks, the NSF and NSFe headers, their
  parsers and writers (`text.dfy`, `chunks.dfy`, `nsfe.dfy`, `nsfe_writer.dfy`,
  `header.dfy`, `nsf_writer.dfy`), and the laws that relate them
  (`container.dfy`, `nsf_laws.dfy`); which files are accepted and what every byte of
  them says (`file_layout.dfy`, `nsfe_accept.dfy`). Bytes are sequences of `u8`; strings
  are their UTF-8 bytes, with their code points and the byte-to-char fallback spelled
  out (`code_points.dfy`).
* **The player.** The NMI wrapper with the slice of the CPU it uses (`nmi.dfy`,
  `cpu_device.dfy`); the PLAY cadence, sample loop and track end (`player.dfy`); what
  becomes of each PLAY call (`play_delivery.dfy`); the register scrub between songs
  (`song_reset.dfy`); and whole sessions from power-up (`player_sessions.dfy`).

The CPU side of the DMA engine is an arbitrary stream of instructions: an opcode
with a cycle count that `dispatch` returns for it, at most as many bus writes as that
opcode makes, any reads, and any change of bank selection or chip registers. Memory
is arbitrary. The player drives that same machine, for every such program. Machine
integers carry their width as a subset type, with wrap-around and saturation written
out where the source relies on them.

## Where the code and its documentation differ

* The round-trip contract in `fuzz/fuzz_targets/roundtrip.rs` lets a parsed header
  fail `write_nsf` only for its version or a long string, and `write_nsfe` never. A
  program over 16 MiB with metadata fails the first (`LongProgramCounterexample`) and
  one of 4 GiB the second (`HugeProgramCounterexample`). `NsfWriteFailure` and
  `NsfeWriteFailure` give the exact conditions.
* The writer's claim that parsing what it wrote preserves every semantic field
  (`src/writer.rs:15-18`) fails for `write_nsf` in four ways: an empty program leaves
  the metadata undelimited and it is read as program (`EmptyProgramCounterexample`);
  the starting song of index 255 saturates to 254 (`LastSongCounterexample`); a `regn`
  chunk that prefers Dendy without listing it gets the mask bit
  (`UnlistedDendyCounterexample`); and an optional chunk the parser does not know is
  kept only in the raw copy of the run, which is not written
  (`UnknownChunkCounterexample`). `NsfKeepsIff` is the exact condition.
* So does its claim that converting a parsed fixed-header file to NSFe loses nothing
  (`src/writer.rs:380-384`): an appended `auth` chunk replaces the header's names
  (`RetitledCounterexample`), the version is recomputed from the feature byte, so
  version 2 without features and every version above 2 are renumbered, and unknown
  optional chunks are dropped. `NsfeKeepsIff` is the exact condition. Byte-idempotence
  holds regardless in both containers. Of the raw copy both conditions compare the
  unknown chunks; that the copy itself is not carried (order and repetition of known
  chunks, bytes behind `NEND`) is stated beside them.
* Starting a song is documented to reach the same machine state every time
  (`src/player.rs:319-324`). `ScrubbedState` says what of the 2A03 is the same and what
  runs on; the expansion chips and the NSF2 timer are not touched
  (`ResetKeepsFull`, `LeakCounterexample`).
* The NMI path holds a PLAY request in one bit. Requests that fall due back to back
  merge, so a short period can lose calls (`MergedCounterexample`); `BurstMerges` and
  `RenderKeepsPlays` say exactly which, and `NoneLost` when there are none.
* The FDS volume latch is documented to commit a staged gain once the wave position is
  zero (`src/expansion.rs:2153-2156`). The `$4023` and `$4083` writes put the wave
  there without committing; `WaitsAfterWriteIff` and `UnitTickEndsWait` say exactly
  when a gain waits and when the wait ends.
* The shapes 10 and 14 of the Sunsoft 5B envelope are commented to flip their direction
  at each edge (`src/expansion.rs:1028-1031`, `src/expansion.rs:1050-1053`). The second
  flip lasts one step: from then on they bounce between the last two levels.
  `AlternatesIff` says exactly on which steps they are on the triangle that flipping
  would give (`AlternatesCounterexample`).
* Batches of the APU are not invariant in the few cycles between a `$4017` write that
  selects the shorter table and its reset. `OutsideExactIff` says exactly when they are.

## Model

| member | source | states |
|---|---|---|
| `CpuRuns.RunConserves` | `src/cpu.rs:149-188` | For every sequence of instructions, interrupt dispatches and jammed steps that starts with no undrained stall, the bus clock advances by exactly the sum of the counts `step` returned, and the stall is drained again |
| `CpuRuns.StepConserves` | `src/cpu.rs:149-188` | One step advances the clock by exactly its return value, DMA-stolen cycles included |
| `CpuRuns.RunKeepsFull` | `src/bus.rs:1087-1127` | Fetch ownership, sample conservation, DMA parity and frame-counter phase hold after every step of every run |
| `CpuRuns.RunWaits` | `src/bus.rs:937-972` | Over every run, a DMA that still has to read its sample has been refused at most twice at an instruction boundary |
| `CpuRuns.StepWaits` | `src/bus.rs:937-972` | At every cycle inside a step such a DMA has been refused at most three times: it halts within three cycles of its first attempt, which is its schedule point, or the cycle after it for a load that armed on that very cycle |
| `CpuRuns.StepWritesLand` | `src/bus.rs:825-841` | Every deferred register write of a CPU step is replayed on a write cycle of its instruction |
| `CpuRuns.TrailingBound` | `src/cpu.rs:41-93` | No pattern the CPU hands over has more than three consecutive write cycles, counting those of the instruction before |
| `CpuPatterns.EveryOpcodeShaped` | `src/cpu.rs:59-93` | For all 256 opcodes the write mask starts with a read, ends inside the instruction and never has four writes in a row, and the opcode makes no more bus writes than it has write cycles; which cycles those are is `WritesByOpcode` |
| `CpuWrites.WritesByOpcode` | `src/cpu.rs:76-90` | Opcode by opcode, from lists of literal opcodes: stores and pushes write on their final cycle and no other, read-modify-writes on exactly their final two, JSR on its fourth and fifth, BRK on its third to fifth, and nothing else writes; with the cycles each is listed with |
| `CpuWrites.WriteCycleRefuses` | `src/bus.rs:937-972` | A write cycle refuses every DMA that has still to read, and steals nothing |
| `CpuWrites.ModifyRefuses` | `src/cpu.rs:76-90` | In every run, a DMA that has still to read two cycles before the end of a read-modify-write is still scheduled when the instruction ends, whenever it is due, and those two cycles cost two |
| `CpuPatterns.NthWriteIsNth` | `src/bus.rs:267-278` | The n-th recorded write call maps to the cycle that is a write and has exactly n writes before it |
| `DmaCycles.WalkAccounted` | `src/bus.rs:845-887` | Walking any pattern from any state advances the clock by the pattern length and by exactly the stall that it adds (saturating) |
| `DmaCycles.WalkCycleAccounted` | `src/bus.rs:845-887` | One walked cycle costs one cycle plus what DMA steals around it, at most 1037 |
| `DmaCycles.ServiceAccounted` | `src/bus.rs:937-972` | A serviced DMA steals 3 or 4 cycles by the parity of its halt, an aborted one 1 or 0, and accounts for all of them |
| `DmaCycles.OamLoopLength` | `src/bus.rs:1017-1043` | The get/put loop keeps `cycles + remaining` even, ends after `remaining` cycles and the cost of the fetches it serves, and serves them at odd counts |
| `DmaCycles.OamWindowLength` | `src/bus.rs:1001-1049` | For an arbitrary arrival of fetches the window takes 513 cycles from a put halt and 514 from a get halt, plus 2 per fetch, 1 on the second-to-last put and 3 on the last |
| `BusObject.NesBus.constructor` | `src/bus.rs:368-393` | A new bus starts in a state that satisfies the whole invariant, with its frame sequence not yet started |
| `BusObject.NesBus.SetCpuHz` | `src/apu.rs:1066-1073` | Setting the region before the first cycle, in place, keeps it in every region |
| `SongReset.PowerUp` | `src/player.rs:195-202` | The power-up state of every region satisfies the whole invariant |
| `BusObject.NesBus.ResetForTune` | `src/bus.rs:521-554` | The register scrub before every INIT, a loop of direct writes in mid-run, computes the specification and keeps the invariant |
| `SongReset.ResetKeepsFull` | `src/bus.rs:521-554` | Whatever DMA is scheduled or in flight, the scrub keeps the whole invariant and takes no time, and it leaves a pending stall or OAM halt, the expansion chips and the NSF2 timer as they were |
| `SongReset.ScrubbedState` | `src/bus.rs:500-531` | What every song starts from: the exact state of the four channels and the frame counter and the registers of the DMC, all that registers hold being the same whatever was playing, and every channel silent; the counters that run on are named |
| `SongReset.LeakCounterexample` | `src/player.rs:319-324` | A $4080 write of one song whose gain the next song starts with |
| `BusObject.NesBus.WriteDirect` | `src/bus.rs:709-737` | A write outside any instruction takes effect at once, and one of $4014 runs its window from the next cycle |
| `BusObject.DirectWriteKeeps` | `src/bus.rs:709-737` | Every such write keeps the invariant, a direct OAM window included |
| `DmaOwnership.TickKeeps` | `src/bus.rs:1087-1127` | One machine cycle from any moment re-establishes the whole invariant: nothing merely pending, a fetch in flight backed by a scheduled DMA, the buffer empty while one is scheduled |
| `DmaOwnership.InFlightExactly` | `src/bus.rs:1087-1127` | A fetch is in flight if and only if the bus holds a scheduled load, a reload or a DMA that a program aborted, and the buffer is empty while any DMA is scheduled |
| `DmaOwnership.DmcHandshake` | `src/apu.rs:772-825` | Channel and bus together: a fetch arms exactly when needed, is taken at once, loads land on even and all other DMAs on odd cycles |
| `DmaOwnership.ServiceKeeps` | `src/bus.rs:937-972` | Serving a due DMA keeps the invariant on read and on write cycles |
| `DmaOwnership.ServiceDelivers` | `src/bus.rs:937-972` | Outside a window, a load or reload delivers the memory byte at the next address of the running sample, an unexpected DMA re-reads the last fetched address, an aborted one delivers nothing |
| `DmaDelivery.RunDelivers` | `src/apu.rs:845-865` | Over every run, every byte delivered, in or out of an OAM window, is the byte memory holds during that step at the address the account logs for it |
| `DmaDelivery.DeliveredIsNext` | `src/apu.rs:845-865` | That address is the one of byte `supplied` of the running sample, and the logged interrupt is raised exactly by the last byte of a sample that does not loop and has its interrupt enabled |
| `DmaDelivery.RunInterrupts` | `src/apu.rs:845-865` | Over every run, the interrupt flag is newly set only if such a last byte was delivered in between |
| `DmaDelivery.OamServeCarries` | `src/bus.rs:1017-1043` | A fetch served inside an OAM window delivers the byte at the next address of the sample |
| `DmaDelivery.WalkCarries` | `src/bus.rs:845-887` | So does everything that happens in the walk of an instruction |
| `DmaOwnership.DeliverKeeps` | `src/apu.rs:845-865` | A delivered byte ends the fetch and fills the buffer; an unexpected one leaves the sample position alone |
| `DmaOwnership.OamWindowKeeps` | `src/bus.rs:1001-1049` | A whole OAM window keeps the invariant whatever fetches arrive in it |
| `DmaOwnership.ApplyWriteKeeps` | `src/bus.rs:726-737` | Every time-sensitive register write keeps it, the stop and enable rules of $4015 included |
| `DmaOwnership.EnableKeeps` | `src/bus.rs:892-930` | `apply_dmc_enable` keeps the invariant, whatever DMA is scheduled; which stop aborts and which cancels is `StopOutcome` |
| `DmaStop.StopOutcome` | `src/bus.rs:902-924` | A $4015 stop at cycle c: a load is cancelled; a reload that would halt at c + 3 or before becomes an aborted DMA at its own cycle, and one that would halt later is cancelled; nothing cancelled stays in flight, and a DMA that reads nothing for a sample is left alone |
| `DmaStop.RunNear` | `src/bus.rs:1108-1127` | At every cycle of every step of every run, a scheduled reload halts on the next cycle at the latest |
| `DmaStop.StopAborts` | `src/bus.rs:902-924` | So in a run a stop always leaves an aborted DMA in the place of a reload |
| `DmaStop.StopCycle` | `src/bus.rs:845-887` | The write cycle of the stop costs nothing more, and leaves the abort to be tried exactly if the reload would have halted on the next cycle |
| `DmaStop.AbortCycle` | `src/bus.rs:937-972` | On that next cycle the abort steals exactly one cycle if it is a read and none if it is a write, and nothing is left of it |
| `DmaStop.StopThenStep` | `src/bus.rs:892-972` | Through the walk: after a store that stops a sample on cycle c with a reload scheduled, the next step without bus writes returns one cycle more if and only if the reload would have halted on c + 1, and nothing is fetched |
| `DmaStop.TickSchedules` | `src/bus.rs:1087-1127` | What one tick schedules, and for which byte: a fetch of the next byte exactly if the buffer is or becomes empty while bytes remain and none is in flight, a load exactly if one was asked for; an unexpected DMA of the address last fetched, or an aborted one, exactly if an enabled channel plays out its last byte on an NTSC machine with no DMA scheduled; and otherwise nothing |
| `DmaStop.ScheduledWhen` | `src/bus.rs:1087-1127` | When each kind of DMA is scheduled to halt, in cycle numbers: reloads on the first put, loads on a get three or four cycles after, the unexpected one at once on a put and the implicitly aborted one a cycle later |
| `DmaStop.EnableLoads` | `src/bus.rs:892-900` | Enabling an idle channel at cycle c schedules the load of the first byte of the sample on the get among c + 3 and c + 4 |
| `DmaStop.EnableKind` | `src/apu.rs:733-760` | The next fetch is a load exactly if the write enables and either the channel had finished with no byte left or a load was already asked for |
| `DmaOwnership.WalkKeeps` | `src/bus.rs:845-887` | So does the walk of every instruction whose writes land on its write cycles |
| `DmaFastPath.TickMachineExact` | `src/bus.rs:1063-1080` | From every calm state and for every n the mixed path of 8-cycle chunks and single cycles equals n exact cycles with their observations |
| `DmaFastPath.IdleStretch` | `src/apu.rs:1168-1172` | While no activity is possible, no cycle of the stretch arms a fetch or ends a sample |
| `DmaFastPath.BaseIsCalm` | `src/bus.rs:1063-1080` | Every state of an instruction-driven run is calm, so the fast path is exact in all of them |
| `DmaWait.WalkWaits` | `src/bus.rs:937-972` | At every cycle of a walk a waiting DMA has been refused at most once per write cycle just before |
| `DmaWait.SampleReadOnGet` | `src/bus.rs:937-972` | The sample is always read on the last stolen cycle and on a get cycle; each odd delay swaps the 3- and 4-cycle stalls |
| `BusObject.NesBus.TickMachine` | `src/bus.rs:1063-1080` | The loop over chunks and single cycles leaves the bus, in place, in the state of n exact cycles |
| `BusObject.NesBus.ObserveDmcEvents` | `src/bus.rs:1087-1127` | Takes new fetches and implicit stops and schedules their DMA |
| `BusObject.NesBus.ServiceDmcDma` | `src/bus.rs:937-972` | Serves a due DMA in place and keeps the invariant |
| `BusObject.NesBus.GetsAndPuts` | `src/bus.rs:1017-1043` | The window loop, terminating on `remaining`, computes the loop of the specification |
| `BusObject.NesBus.RunOamWindow` | `src/bus.rs:1001-1049` | The window adds its own length to the pending stall |
| `BusObject.NesBus.ApplyDmcEnable` | `src/bus.rs:892-930` | Computes, in place, the enable and stop rules that `StopOutcome`, `EnableLoads` and `EnableKind` state in cycle numbers |
| `BusObject.NesBus.WalkPattern` | `src/bus.rs:845-887` | The walk over the cycles of an instruction computes the specification and keeps the invariant |
| `BusObject.NesBus.BeginInstruction` | `src/bus.rs:811-816` | Opens an empty recording |
| `BusObject.NesBus.RunInstruction` | `src/bus.rs:825-841` | Recorded writes are mapped to their true cycles and the instruction is walked |
| `BusObject.NesBus.Write` | `src/bus.rs:682-720` | A CPU write is recorded for its true cycle when it is time-sensitive or $4014 |
| `BusObject.Mirrors` | `src/bus.rs:682-700` | A write to RAM shows at its four mirrors, one to cartridge RAM at its own address, and no other byte changes |
| `BusObject.NesBus.Read` | `src/bus.rs:632-680` | A CPU read returns the byte of the view and has the side effects of $4015, of the timer and of PCM reads |
| `BusObject.NesBus.TickCycles` | `src/bus.rs:803-805` | Idle CPU time is a walk without writes |
| `BusObject.NesBus.TakeDmaStall` | `src/bus.rs:1134-1138` | Drains the stall account exactly once |
| `DeltaModulation.AddrAtClosedForm` | `src/apu.rs:845-865` | Byte k of a sample is read at `0x8000 + (seed - 0x8000 + k) mod 0x8000` |
| `DeltaModulation.SupplyConserves` | `src/apu.rs:845-865` | A delivery keeps supplied plus remaining bytes equal to the latched length and sets the interrupt flag exactly for the last byte of a non-looping sample with interrupts enabled |
| `DeltaModulation.EnableConserves` | `src/apu.rs:728-762` | Disabling and re-enabling keep the account: only a finished sample restarts, from its seeds; a running one goes on; the interrupt flag is not touched |
| `DeltaModulation.TickKeepsReader` | `src/apu.rs:772-825` | The output unit never touches the reader, and a fetch arms exactly when the buffer is empty and bytes remain |
| `DeltaModulation.DmcChannel.Tick` | `src/apu.rs:772-791` | n in-place ticks are n single cycles |
| `DeltaModulation.DmcChannel.SupplyByte` | `src/apu.rs:845-865` | The in-place delivery of a fetched byte |
| `IrqTimer.TimerClosedForm` | `src/bus.rs:122-139` | n cycles of a running timer in closed form: period `reload + 1`, flag latched exactly from the first underflow on |
| `IrqTimer.UnderflowCount` | `src/bus.rs:122-139` | The closed form counts exactly the cycles that underflow |
| `IrqTimer.Nsf2IrqTimer.Tick` | `src/bus.rs:122-139` | The batched in-place tick equals n single cycles |
| `IrqTimer.Nsf2IrqTimer.Read` | `src/bus.rs:104-117` | Reading $401D returns the flag and clears it |
| `Apu2A03.BatchExact` | `src/apu.rs:1330-1446` | From every state whose step index is inside the schedule, a batch of any size equals single cycles in the full state |
| `Apu2A03.BatchSplits` | `src/apu.rs:1330-1364` | Two batches equal one batch of their sum |
| `Apu2A03.OutsideExactIff` | `src/apu.rs:1411-1420` | With the step index outside a newly selected table, a batch agrees with single cycles if and only if it is at most one cycle, stops after one, or reaches the pending reset |
| `Apu2A03.OutsideCounterexample` | `src/apu.rs:1411-1420` | A state that power-up and 29829 cycles lead to, a $4017 write that selects the five-step mode there, and a batch of two cycles that differs from two single ones |
| `ApuObject.Apu2A03Device.TickCpuCycles` | `src/apu.rs:1330-1364` | The batching loop, in place, computes the batch and hence the single cycles |
| `ApuObject.Apu2A03Device.AdvanceChannelTimers` | `src/apu.rs:1366-1390` | Channel timers advance by n cycles with the /2 prescaler carry |
| `ApuObject.Apu2A03Device.ProcessDueFrameEvents` | `src/apu.rs:1411-1446` | The event loop fires every due event in table order, in place, and terminates; what an event clocks is `UnitsRun` |
| `ApuObject.Apu2A03Device.WriteFrameCounter` | `src/apu.rs:1307-1316` | A $4017 write arms a reset 3 or 4 cycles away by phase |
| `FrameCounter.LongRun` | `src/apu.rs:1411-1508` | For every kind of event and every n, the events fired are those of the whole periods elapsed plus those of the table up to the current position |
| `FrameCounter.LongRunPosition` | `src/apu.rs:1411-1446` | The position after n cycles is the elapsed time modulo the period |
| `FrameCounter.WholePeriods` | `src/apu.rs:1456-1508` | k periods fire 4k quarter-frame, 2k half-frame and 3k interrupt events, or no interrupt event in five-step mode; what they do to the units is `UnitsAfterPeriods` |
| `FrameUnits.UnitsRun` | `src/apu.rs:1411-1446` | Over any number of cycles, every envelope and the linear counter have been clocked once for each quarter-frame event and every length counter and sweep once for each half-frame event: the counters in numbers |
| `FrameUnits.UnitsAfterPeriods` | `src/apu.rs:1456-1508` | From a landed reset, k periods leave each unhalted length counter at max(c - 2k, 0), and the linear counter, every envelope divider and every decay level in the closed form of 4k clocks |
| `FrameUnits.ResetClocksUnits` | `src/apu.rs:1330-1364` | A $4017 reset that lands clocks every unit once in five-step mode and none in four-step mode |
| `FrameUnits.EventsWithin` | `src/apu.rs:1456-1508` | How many quarter-frame, half-frame and interrupt events have fired by every single cycle of a period, in each mode and region, from the literal cycle numbers |
| `FrameUnits.FrameInterrupt` | `src/apu.rs:1411-1446` | From a reset with its flag clear, the interrupt is raised in four-step mode on cycle 29828, or 33252 on PAL, and stays; never when inhibited or in five-step mode |
| `FrameUnits.FlagIsCount` | `src/apu.rs:1411-1446` | Over any stretch the flag is what it was, or set if an interrupt event fired without inhibition |
| `Dividers.TimerStep` | `src/apu.rs:212-222` | The closed form of a countdown is its step: back at its period one clock after zero, and counting its expiries |
| `Dividers.DecayStep` | `src/apu.rs:97-112` | So is that of a decay level: down to zero, and round from 15 when it loops |
| `FrameCounter.PhaseTick` | `src/apu.rs:1330-1364` | Every cycle keeps the phase; a reset lands on an even total cycle |
| `FrameCounter.PhaseAtPowerUp` | `src/apu.rs:1010-1036` | The power-up state is in phase |
| `FrameCounter.PhaseWrite` | `src/apu.rs:1307-1316` | Every $4017 write keeps it |
| `FrameCounter.ClocksOnOddCycles` | `src/apu.rs:1456-1508` | With no reset pending, every quarter- and half-frame clock falls on an odd total cycle |
| `FrameCounter.TableShape` | `src/apu.rs:1456-1508` | All four tables have increasing offsets, an even period and odd clock offsets |
| `Sweep.SweepSettles` | `src/apu.rs:244-303` | Between register writes the period moves one way only, changes at most 2040 times and settles within 16328 clocks |
| `Sweep.SweepStep` | `src/apu.rs:288-303` | One clock moves strictly toward the limit or leaves the period; a settled unit stays settled |
| `Sweep.SweepTarget` | `src/apu.rs:244-303` | With the shifted period a division by two to the shift: when the unit mutes, and what a clock that acts makes of the period, one less for the first pulse when it negates |
| `Sweep.SweepPace` | `src/apu.rs:288-303` | The divider acts once every sweep period + 1 clocks, counted from the clock that honours a reload |
| `Sweep.MutedForever` | `src/apu.rs:274-303` | A muted unit stays muted at its period until a register write |
| `Channels.PulseChannel.TickTimer` | `src/apu.rs:212-222` | The batched pulse timer is that many single ticks |
| `Channels.PulseChannel.ClockLengthAndSweep` | `src/apu.rs:228-303` | A half-frame clock in place: length counter, then the sweep, with the period kept in 0..0x7FF |
| `Channels.TriangleChannel.TickTimer` | `src/apu.rs:368-380` | The batched triangle timer, gated by both counters |
| `Channels.NoiseChannel.TickTimer` | `src/apu.rs:489-507` | The batched noise timer and shift register |
| `Channels.NoiseNeverStuck` | `src/apu.rs:489-507` | The shift register never reaches zero |
| `ChannelTimers.PulseRuns` | `src/apu.rs:212-222` | A pulse over n ticks: one duty step every period + 1 of them |
| `ChannelTimers.TriangleRuns` | `src/apu.rs:368-380` | The triangle over n cycles: one of 32 steps every period + 1, while both counters run and the period is not ultrasonic |
| `ChannelTimers.NoiseRuns` | `src/apu.rs:489-507` | The noise generator over n cycles: one shift every period |
| `ChannelTimers.ShiftBits` | `src/apu.rs:489-507` | One shift bit by bit: bit 0 exclusive-or bit 1, or bit 6 in short mode, enters at the top |
| `ChannelTimers.OutputPace` | `src/apu.rs:772-825` | Each cycle brings the end of the DMC output cycle one nearer; exactly there the buffer moves to the shift register or the unit falls silent, and nowhere else is it touched |
| `ChannelTimers.DrainedEvenly` | `src/apu.rs:772-825` | However bytes are delivered, a running sample empties its buffer once every 8 * period cycles and on no other |
| `ChannelTimers.LevelRuns` | `src/apu.rs:793-825` | Over a sounding output cycle the level moves by two for each bit of the byte, lowest first, one bit every period |
| `ChannelTimers.LevelCounts` | `src/apu.rs:793-825` | Away from the ends of its range it follows the number of ones |
| `ChannelTimers.SilentLevel` | `src/apu.rs:793-825` | A silent unit keeps its level |
| `RegisterMap.PulseRegisters` | `src/apu.rs:184-211` | $4000 to $4003 set the first pulse and $4004 to $4007 the second, field by field from the bits of the four bytes, and nothing else |
| `RegisterMap.TriangleRegisters` | `src/apu.rs:350-367` | $4008, $400A and $400B set the triangle |
| `RegisterMap.NoiseRegisters` | `src/apu.rs:471-488` | $400C, $400E and $400F set the noise channel |
| `RegisterMap.DmcRegisters` | `src/apu.rs:706-727` | $4010 to $4013 set the DMC |
| `RegisterMap.LengthTable` | `src/apu.rs:47-51` | The length table is the note lengths on its even entries and a count of half frames on the odd ones |
| `RegisterMap.StatusWrite` | `src/apu.rs:1219-1251` | A $4015 write: one enable bit per channel, a cleared one emptying its length counter, and the DMC interrupt acknowledged |
| `RegisterMap.StatusRead` | `src/apu.rs:1253-1289` | What $4015 reads, bit by bit, and that the read acknowledges the frame interrupt alone |
| `RegisterMap.FrameWrite` | `src/apu.rs:1307-1328` | $4017: mode and inhibit bit, and a reset that falls on an even cycle three or four cycles later |
| `RegisterMap.TimerRegisters` | `src/bus.rs:84-120` | The NSF2 timer registers: two bytes of reload, start and stop, and what they read back as |
| `RegisterMap.RegionSet` | `src/apu.rs:1066-1073` | The region selects the frame tables and the noise and DMC period tables |
| `RegisterMap.ReadObserves` | `src/bus.rs:632-680` | What a read does besides giving its byte: in MMC5 read mode a byte from $8000 to $BFFF is its next level, a zero its interrupt, and nothing else is touched |
| `RegisterMap.LevelFollows` | `src/expansion.rs:590-617` | Over any number of such reads the level is the last byte that was not zero, and the interrupt stands exactly if the last of all was zero |
| `ExpansionChips.BatchSplits` | `src/expansion.rs:2681-2700` | Two batches equal one batch of their sum in the full state, for the aggregate and for each of its five chips, each batched as its own `tick` does it |
| `ExpansionChips.ChipsBatchExact` | `src/expansion.rs:2681-2700` | A batch of the aggregate, chip after chip, is that many single cycles of all of them |
| `Namco163.BatchIsCycles` | `src/expansion.rs:1385-1394` | Draining the accumulator by fifteens is one-cycle ticking, from every state and for every batch |
| `NintendoMmc5.BatchIsCycles` | `src/expansion.rs:623-660` | Chunks that end at the 240 Hz boundaries are one-cycle ticking |
| `KonamiVrc6.BatchIsCycles` | `src/expansion.rs:195-249` | The oscillator loop with its divisor read once is one-cycle ticking |
| `FamicomDisk.BatchIsCycles` | `src/expansion.rs:2595-2623` | The enabled loop is one-cycle ticking |
| `ExpansionChips.ChipByChip` | `src/expansion.rs:2681-2700` | Ticking chip after chip for a batch is ticking all of them cycle by cycle |
| `ExpansionChips.Expansion.Tick` | `src/expansion.rs:2681-2700` | The aggregate batch, in place, is that many single cycles of all enabled chips |
| `Namco163.ClosedForm` | `src/expansion.rs:1335-1394` | From every slot and remainder and for every cycle count, with sound on and no register access: each active channel has been updated once for every update that fell on its slot, its phase bytes hold `(phase + k * freq) mod (length * 65536)`, and no other byte of the shared RAM has changed |
| `Namco163.UpdatesClosedForm` | `src/expansion.rs:1335-1376` | How often each channel is updated among any number of updates from any slot, in closed form |
| `Namco163.WholeRoundsForm` | `src/expansion.rs:1385-1394` | After 15 cycles times the active channels times k, every active channel has been updated exactly k times and every inactive one never, from any slot and remainder |
| `Namco163.WriteKeepsSlotOk` | `src/expansion.rs:1216-1256` | Every register write and every cycle keeps the slot inside the active set, so the closed form applies to every reachable state |
| `Namco163.CyclesAreUpdates` | `src/expansion.rs:1385-1394` | One channel update per fifteen cycles, with the remainder kept |
| `Namco163.WithPhaseDecodes` | `src/expansion.rs:1293-1376` | Writing back one channel's phase changes nothing else that any channel decodes |
| `Namco163.SetUpDecodes` | `src/expansion.rs:1293-1319` | The eight registers of a channel, laid out from its fields, decode to them |
| `Namco163.UpdateHolds` | `src/expansion.rs:1335-1383` | An update puts out the sample at the whole part of the new phase from the wave address on, less 8, times the volume |
| `Namco163.DataPort` | `src/expansion.rs:1216-1256` | Writes through the data port with auto-increment fill the RAM in order, stop at its last byte, and take the channel count from there |
| `Namco163.Namco163Chip.Tick` | `src/expansion.rs:1385-1394` | The batched tick on the RAM array is that many single cycles |
| `Namco163.Namco163Chip.TickOneChannel` | `src/expansion.rs:1335-1376` | One channel update in the array |
| `KonamiVrc6.Vrc6Chip.Tick` | `src/expansion.rs:195-249` | The batched tick is that many single cycles |
| `NintendoMmc5.Mmc5Chip.Tick` | `src/expansion.rs:623-660` | The batch, split at 240 Hz boundaries, is that many single cycles |
| `NintendoMmc5.PrescalerExact` | `src/expansion.rs:663-677` | n cycles of the halved timers are `(n + carry) / 2` pulse timer ticks with the odd cycle carried |
| `Sunsoft5b.Sunsoft5bChip.Tick` | `src/expansion.rs:913-979` | The batched tick is that many single cycles |
| `Sunsoft5b.CyclesAreIntervals` | `src/expansion.rs:913-979` | Whole 16-clock intervals with the remainder carried over are one-cycle ticking, for every batch |
| `Sunsoft5b.RampStays` | `src/expansion.rs:983-1061` | The envelope step never leaves 0..31 and a holding shape holds for good |
| `ChipGenerators.VrcRuns` | `src/expansion.rs:195-249` | The VRC6 over a batch of any size: both pulses and the sawtooth in closed form, with the period divided by 1, 16 or 256 |
| `ChipGenerators.MmcRuns` | `src/expansion.rs:623-677` | The MMC5 over any number of cycles: pulse timers at half the CPU clock, and envelope and length counter once every 7457 cycles |
| `ChipGenerators.ToneRuns` | `src/expansion.rs:913-981` | A tone of the Sunsoft 5B flips its level every period intervals |
| `ChipGenerators.NoiseRuns5b` | `src/expansion.rs:913-981` | Its noise register shifts every 2 * period intervals, bits 0 and 3 feeding the top |
| `ChipGenerators.RampRuns` | `src/expansion.rs:983-1061` | Its envelope from a shape write on: one step every period intervals, each of the sixteen shapes at its own level, held where the shape holds |
| `ChipGenerators.UnitRuns5b` | `src/expansion.rs:913-981` | Over a batch of any size every generator makes one step for each sixteen cycles, the remainder carried |
| `ChipGenerators.AlternatesIff` | `src/expansion.rs:1023-1055` | The two shapes that alternate without holding follow the triangle they are commented to be exactly for the first 63 steps and where it comes within one step of the end they bounce at |
| `ChipGenerators.AlternatesCounterexample` | `src/expansion.rs:1023-1055` | Shape 10 with period 1: levels 31, 30, 31 on steps 62 to 64, where the triangle goes on to 29 |
| `FamicomDisk.FdsChip.Tick` | `src/expansion.rs:2595-2623` | The batched tick, in place, is that many single cycles; which way and how often its envelopes ramp is `VolumeRamp` and `ModRamp` |
| `FamicomDisk.LatchStep` | `src/expansion.rs:2425-2442` | In every cycle from every state the audible gain changes only while the wave position is zero, and no cycle leaves a gain waiting there that did not wait before |
| `FamicomDisk.WaitsAfterWriteIff` | `src/expansion.rs:2215-2332` | A register write leaves a staged gain waiting at position zero if and only if it halts the wave, by $4023 or by $4083 |
| `FamicomDisk.WaitsCounterexample` | `src/expansion.rs:2261-2282` | A concrete pair of writes that does |
| `FamicomDisk.UnitTickEndsWait` | `src/expansion.rs:2490-2529` | With sound enabled the next unit tick, at most 16 cycles away, ends the wait: the gain staged just before it is committed exactly if the wave is still at position zero after it, as it is while $4083 holds it there, and is staged again otherwise; with the volume envelope disabled that gain is the one that waited |
| `FamicomDisk.StagedAgainCounterexample` | `src/expansion.rs:2490-2529` | A concrete high pitch at which it is staged again |
| `FamicomDisk.WaitEnds` | `src/expansion.rs:2595-2623` | From that tick on no number of cycles leaves a gain waiting |
| `FamicomDisk.WaitsWhileDisabled` | `src/expansion.rs:2595-2623` | With sound disabled a waiting gain waits for ever |
| `FamicomDisk.FdsChip.Write` | `src/expansion.rs:2215-2332` | Every register write, in place |
| `FdsRamps.VolumeRamp` | `src/expansion.rs:2531-2583` | With the envelopes running, over any number of cycles: one step at the end of every 8 * (e + 1) * (m + 1) cycles, a quarter of that in fast mode, and none on any other; the gain is max(g, min(32, g + k)) rising and max(0, g - k) falling |
| `FdsRamps.ModRamp` | `src/expansion.rs:2585-2593` | The same of the modulator gain |
| `FdsRamps.VolumeRamps` | `src/expansion.rs:2236-2257` | From a $4080 write on: bit 6 says up, the low six bits give the speed, and while the wave is held at position zero the volume itself is that ramp |
| `FdsRamps.ModRamps` | `src/expansion.rs:2283-2294` | The same of $4084, whatever the wave does |
| `FdsRamps.RampsStand` | `src/expansion.rs:2531-2593` | A ramp stands still exactly as long as its unit is disabled, both are halted or the master speed is zero |
| `FdsPitch.PitchRegisters` | `src/expansion.rs:2258-2282` | $4082 and $4083: twelve bits of pitch and the halt and fast bits |
| `FdsPitch.ModRegisters` | `src/expansion.rs:2295-2310` | $4085 to $4087: the modulator counter, its frequency and its disable bit |
| `FdsPitch.TableFilled` | `src/expansion.rs:2311-2318` | While the modulator is disabled, writes of $4088 fill its table in order from its position and round the end |
| `FdsPitch.PitchIs` | `src/expansion.rs:2472-2488` | The modulated pitch in numbers |
| `FdsPitch.CounterStep` | `src/expansion.rs:2457-2470` | What each of the eight table entries does to the modulation counter |
| `FdsPitch.WaveRuns` | `src/expansion.rs:2490-2529` | Unmodulated, the wave after k unit ticks: an accumulator of 24 bits grown by 64 times the frequency on each, its top six bits the wave position, one tick every 16 cycles |
| `FdsPitch.ModulatorRuns` | `src/expansion.rs:2490-2529` | The modulator after k unit ticks: twelve bits grown by its frequency, and one of 64 steps through the table for every overflow |
| `FdsPitch.ModulatedRuns` | `src/expansion.rs:2490-2529` | The modulated wave over any number of cycles: on each unit tick its accumulator grows by the pitch of the counter that this tick has just stepped to |
| `ContainerText.StringsRoundTrip` | `src/nsfe.rs:278-291` | A list of strings, empty ones included, reads back from its NUL-terminated form |
| `ContainerText.ReadStringIsText` | `src/nsfe.rs:392-402` | Whatever bytes a field holds, the string read from it is valid UTF-8, NUL-free, unpadded and reads back as itself |
| `CodePointText.ReadStringMeans` | `src/nsfe.rs:392-402` | Of a field only spaces and tabs at its end are dropped, and all of them; what is left is the string if it is valid UTF-8, and otherwise the code points of the string are exactly its bytes, one for one |
| `CodePointText.Latin1Means` | `src/nsfe.rs:392-402` | The fallback: valid UTF-8 whose code points are the bytes |
| `CodePointText.ValidIsEncoded` | `src/nsfe.rs:385-402` | Every valid string is the UTF-8 encoding of its code points, which are scalar values |
| `CodePointText.EncodedIsValid` | `src/nsfe.rs:385-402` | And every encoding is valid and gives its scalar values back |
| `ContainerText.TextReadsBack` | `src/nsfe.rs:392-402` | Such a string is read unchanged |
| `NsfeMetadataParser.ParseMetadataChunks` | `src/nsfe.rs:209-261` | The cursor loop computes the meaning of the chunk run, every error included |
| `NsfeMetadataParser.SplitNullStrings` | `src/nsfe.rs:278-291` | The iterator loop drops exactly a trailing empty piece |
| `ContainerText.EveryBody` | `src/nsfe.rs:278-291` | Every chunk body is a list of terminated strings and what follows the last of them |
| `ContainerText.PartsAreStrings` | `src/nsfe.rs:278-291` | And it is read as those strings, and as what follows them too unless that is empty |
| `NsfeMetadataParser.ReadStringField` | `src/nsfe.rs:392-402` | The trimming loop computes, in place, the trimmed field or its fallback, whose meaning is `ReadStringMeans` |
| `NsfeMetadataParser.ParseI32Array` | `src/nsfe.rs:293-299` | Little-endian signed words; a dangling tail is ignored |
| `NsfeMetadataParser.ParseMixer` | `src/nsfe.rs:301-317` | Three-byte entries, or a payload error |
| `NsfeMetadataParser.ParsedIsWellFormed` | `src/nsfe.rs:209-261` | Whatever bytes are parsed, strings, `RATE` and `VRC7` are in the form the writer needs |
| `NsfeMetadataParser.CollectPieces` | `src/nsfe.rs:209-261` | The parse of written chunks followed by anything is the parse of what follows, from the applied chunks |
| `NsfeMetadataWriter.MetadataRoundTrip` | `src/writer.rs:119-218` | Every well-formed metadata value and label list reads back from its written chunk run |
| `NsfeMetadataWriter.RoundTripIffWellFormed` | `src/writer.rs:119-218` | A value that can be written reads back if and only if it is well formed |
| `NsfeMetadataWriter.EmitIsEncode` | `src/writer.rs:90-96` | A write succeeds exactly when every section does, and is then the chunks of the present sections in order |
| `NsfeMetadataWriter.WellFormedWrites` | `src/writer.rs:119-218` | A well-formed value can only be refused for a chunk body of 2^32 bytes or more |
| `NsfeMetadataWriter.PartReadsBack` | `src/writer.rs:119-218` | Each of the twelve sections restores exactly its own field |
| `NsfeMetadataWriter.WriteMetadataChunks` | `src/writer.rs:119-218` | The sequence of buffer appends computes the sections in order and stops at the first refusal |
| `NsfeMetadataWriter.PutSection` | `src/writer.rs:90-96` | `put_chunk`: length, fourcc and body, or the length error |
| `NsfeMetadataWriter.PutNames` | `src/writer.rs:99-107` | `put_cstr` over a list, refused at the first interior NUL |
| `NsfHeaders.ScanNsfe` | `src/header.rs:644-733` | The chunk walk of an NSFe file: the cursor grows by at least 8 per chunk and stops at `NEND` |
| `NsfWriters.WriteNsfeFile` | `src/writer.rs:387-418` | The buffer appends of `write_nsfe` compute the specified file or error |
| `NsfWriters.WriteNsfFile` | `src/writer.rs:316-371` | The 128-byte buffer filled slot by slot, with the errors in the source's order, is the specified file |
| `NsfWriters.PutFixedString` | `src/writer.rs:286-301` | A string slot: refused, or the string and its zero padding |
| `ContainerLaws.ParsedHeaderOk` | `src/header.rs:500-801` | Every accepted header satisfies the invariant that the writers rely on |
| `ContainerLaws.NsfeReadsBack` | `src/writer.rs:387-418` | A written NSFe file, whatever is appended to it, parses to the NSFe form of its header: names from its `auth` chunk, version from its feature byte, synthesized chunks included |
| `ContainerLaws.NsfeFormWritesTheSame` | `src/writer.rs:244-280` | That form writes to the same bytes: synthesized `RATE`, `auth` and `regn` chunks are a fixed point |
| `ContainerLaws.CanonicalNsfe` | `src/writer.rs:387-418` | For every accepted input the NSFe write re-parses and a second write is byte-identical |
| `ContainerLaws.NsfeIsLossless` | `src/writer.rs:380-384` | For a header from either container, the NSFe form keeps every field and all metadata if and only if an `auth` chunk agrees with the names, the version is the one the feature byte implies, a Dendy mask bit is set, and the raw metadata run holds no unknown chunk |
| `ContainerLaws.NsfeKeepsIff` | `src/writer.rs:380-384` | The same of the written file, read back; the raw run itself is kept exactly if there is none |
| `ContainerLaws.WrittenChunksKnown` | `src/writer.rs:119-218` | A written run holds no unknown chunk, whatever follows it |
| `FixedHeaderLaws.RetitledCounterexample` | `src/writer.rs:380-384` | An accepted fixed-header file titled "X" that conversion to NSFe titles "Y" |
| `ContainerLaws.NsfeWriteFailure` | `src/writer.rs:387-418` | The exact condition under which a parsed header has an NSFe form |
| `ContainerLaws.RegionSurvives` | `src/writer.rs:226-258` | Region byte and `regn` chunk together carry every region |
| `ContainerLaws.SelfDelimiting` | `src/header.rs:644-733` | Every accepted NSFe file ends at its `NEND`: every strict prefix up to there is rejected, and any continuation parses alike |
| `ContainerLaws.WrittenFilesArePrefixFree` | `src/writer.rs:387-418` | No strict prefix of a written NSFe file is accepted, nor is it a written file |
| `FixedHeaderLaws.FixedReadsBack` | `src/header.rs:507-557` | Every field of the fixed header is read from where it was written |
| `FileLayout.FixedAccepts` | `src/header.rs:507-570` | Exactly which files behind a fixed header are accepted |
| `FileLayout.FixedLayout` | `src/header.rs:507-642` | Byte by byte, what an accepted fixed header says, and where its program ends and its metadata begins |
| `NsfeAcceptance.NsfeAcceptsIff` | `src/header.rs:644-801` | Exactly which NSFe files are accepted: every `INFO` is long enough and counts a song, `DATA` stands behind an `INFO`, no unknown chunk begins with a capital, there is `DATA`, and no metadata chunk is malformed; otherwise the first chunk that breaks a rule gives its own error |
| `NsfeAcceptance.NsfeContents` | `src/header.rs:735-801` | What an accepted NSFe file says: the last chunk of each name counts, and the metadata is that of the other chunks applied in order |
| `NsfeAcceptance.EveryNsfe` | `src/header.rs:644-733` | Every accepted NSFe file is the magic, chunks, `NEND` and anything |
| `NsfeAcceptance.RunMeans` | `src/nsfe.rs:209-231` | A metadata run without `NEND` means its chunks applied in order, refusals included |
| `FileLayout.InfoLayout` | `src/header.rs:813-838` | The `INFO` chunk, byte by byte |
| `FileLayout.RateLayout` | `src/nsfe.rs:319-358` | `RATE` and `regn`, byte by byte |
| `FileLayout.AuthLayout` | `src/nsfe.rs:263-271` | `auth`: title, artist, copyright and ripper in this order |
| `FileLayout.NumbersLayout` | `src/nsfe.rs:293-299` | `time` and `fade`: entry i is the signed little-endian number at byte 4i |
| `FileLayout.MixerLayout` | `src/nsfe.rs:301-317` | `mixe`: entry i is a device and a signed level at byte 3i |
| `FileLayout.TextLayout` | `src/nsfe.rs:238-241` | Which field the text chunks set |
| `FileLayout.ListsLayout` | `src/nsfe.rs:242-245` | Which field the number lists set |
| `FileLayout.DevicesLayout` | `src/nsfe.rs:246-249` | Which field the device chunks set |
| `FileLayout.ChunkAccepts` | `src/nsfe.rs:209-261` | Exactly which chunks a metadata run may hold |
| `FileLayout.TagsSpell` | `src/header.rs:840-862` | The name that each chunk tag spells |
| `FileLayout.CapitalsAreMandatory` | `src/nsfe.rs:250-255` | A chunk is mandatory exactly if its name begins with a capital |
| `FileLayout.PreferredNumbers` | `src/header.rs:601-609` | Preferred regions are numbered NTSC, PAL, Dendy |
| `FileLayout.MetadataFills` | `src/header.rs:582-618` | A name from the metadata stands only where the header has none, a period always |
| `FileLayout.StartingSong` | `src/header.rs:319-337` | The starting song counts from 0 in NSFe and from 1 in a fixed header |
| `FixedHeaderLaws.NsfReadsBack` | `src/writer.rs:316-371` | A written NSF file parses to the fixed-header form of its header, in which metadata behind an empty program is program |
| `FixedHeaderLaws.NsfFormKeeps` | `src/writer.rs:316-371` | With a program or without metadata that form is the header with its starting song renumbered from 1, saturating at 255, its raw metadata bytes, and a synthesized Dendy `regn` |
| `FixedHeaderLaws.CanonicalNsf` | `src/writer.rs:316-371` | For every accepted input that can be written, the NSF write re-parses and a second write is byte-identical |
| `FixedHeaderLaws.NsfKeepsIff` | `src/writer.rs:316-371` | The write keeps every field and all metadata if and only if there is a program or no metadata, the starting song is not index 255, a Dendy mask bit is set, and the raw metadata run holds no unknown chunk; the raw run comes back as the one written |
| `FixedHeaderLaws.NsfKeepsMetadataIff` | `src/header.rs:553-570` | The program and the written metadata are told apart again if and only if the program is not empty or there is no metadata |
| `FixedHeaderLaws.EmptyProgramCounterexample` | `src/header.rs:557-558` | An accepted file with an empty program whose metadata comes back as program |
| `FixedHeaderLaws.LastSongCounterexample` | `src/header.rs:319-325` | An accepted file whose starting song moves from index 255 to 254 |
| `FixedHeaderLaws.UnlistedDendyCounterexample` | `src/writer.rs:247-255` | An accepted file whose `regn` chunk comes back with another mask, from either container |
| `FixedHeaderLaws.UnknownChunkCounterexample` | `src/header.rs:253-257` | An accepted fixed-header file whose optional chunk "cstm" is gone from either container, with everything else kept |
| `FixedHeaderLaws.NsfWriteFailure` | `src/writer.rs:316-371` | Exactly which parsed headers fit the fixed shape, and with which error the others fail |
| `FixedHeaderLaws.LongProgramCounterexample` | `fuzz/fuzz_targets/roundtrip.rs:13-16` | An accepted file whose fixed-header write fails for the length of its program, which the stated contract excludes |
| `FixedHeaderLaws.HugeProgramCounterexample` | `fuzz/fuzz_targets/roundtrip.rs:7-12` | An accepted file of more than four gigabytes whose NSFe write fails, which the stated contract excludes |
| `NmiWrapper.PlayIsTransparent` | `src/player.rs:265-301` | For every register state, stack pointer wrap-around included, NMI dispatch, wrapper, RTS and RTI give back A, X, Y, SP and PC, and P up to B cleared and U set, when PLAY keeps its stack discipline and the wrapper is intact |
| `NmiWrapper.EntryReachesPlay` | `src/cpu.rs:194-234` | Dispatch and the first half of the wrapper reach PLAY under any IRQ line, with the context on the stack and no other byte of RAM changed |
| `NmiWrapper.ExitRestores` | `src/cpu.rs:1277-1288` | From PLAY's RTS on, the second half restores the context |
| `CpuObject.Cpu6502.StepOnce` | `src/cpu.rs:149-188` | One in-place step: a pending NMI, an allowed IRQ, or an instruction |
| `CpuObject.Cpu6502.ServiceInterrupt` | `src/cpu.rs:194-205` | Pushes return address and flags, sets I and loads the vector |
| `CpuObject.Cpu6502.Dispatch` | `src/cpu.rs:604-651` | The wrapper's opcodes, in place |
| `CpuObject.Cpu6502.InstallNmiWrapper` | `src/player.rs:274-301` | Copies the wrapper to $0200, arms the overlay with it, and touches no other RAM |
| `PlayerSchedule.PeriodInRange` | `src/player.rs:206-215` | For every header the PLAY period is at least one cycle and the u32 truncation changes nothing |
| `FileLayout.PeriodWords` | `src/header.rs:284-309` | Which speed word the PLAY period comes from, by region, and what it is in cycles of that region |
| `FileLayout.DefaultPeriods` | `src/player.rs:206-215` | 33247, 35463 or 29828 cycles for a header that names none |
| `FileLayout.FilePeriod` | `src/player.rs:206-215` | From the bytes of a file without metadata: the word at $78 for a PAL region byte and the one at $6E otherwise |
| `PlayerSchedule.CadenceWithoutDrift` | `src/player.rs:408-485` | Over any number of samples and for every program, scheduled PLAY calls times the period plus the cycles since the last equal what the bus clock has advanced by, stalls included; PLAY is never later than one turn of the loop |
| `PlayDelivery.RenderKeepsPlays` | `src/player.rs:430-478` | Over any number of samples and for every program, every scheduled PLAY call has been entered, was lost, or waits in the NMI request bit; on the NMI path the calls lost, with those the backlog is going to lose, are counted exactly by the periods run out at the ends of CPU steps |
| `PlayDelivery.BurstMerges` | `src/player.rs:430-441` | When PLAY is due on the NMI path, all k periods run out become requests before the CPU moves: a clear bit keeps one of them and a set bit none |
| `PlayDelivery.LostIff` | `src/bus.rs:433-442` | A call scheduled while the bit is clear is followed by a lost one if and only if two periods had run out; otherwise a running CPU enters it next |
| `PlayDelivery.NoneLost` | `src/player.rs:430-478` | With a period above the 8304 cycles of the longest step, no call of a song is lost while the CPU runs, and all but a pending one have been entered |
| `PlayDelivery.StepStretched` | `src/cpu.rs:149-188` | A CPU step on which an OAM DMA halts returns at least 513 cycles more than its own |
| `PlayDelivery.StoreArms` | `src/bus.rs:845-887` | A store to $4014 leaves its OAM DMA to halt the next instruction |
| `PlayDelivery.MergedCounterexample` | `src/player.rs:430-441` | With a period of 200 cycles, any step after such a store loses a call |
| `PlayerSessions.SongStarts` | `src/player.rs:304-386` | After the scrub and any INIT run, from any machine in mid-run, a song starts with the whole invariant, a drained stall account and clean counters |
| `PlayerSessions.SongKeeps` | `src/player.rs:521-541` | Rendering it keeps the invariant, the cadence and the account of PLAY calls |
| `PlayerSessions.SessionKeeps` | `src/player.rs:304-386` | So does every session of songs, started one after the other on the machine the last one left |
| `PlayerSessions.FromPowerUp` | `src/player.rs:195-253` | From power-up in any region and through any session: the invariant holds, and PLAY calls times the period account for the bus clock since the INIT of the last song |
| `PlayerSchedule.TurnIsClock` | `src/player.rs:456-478` | What a turn of the loop adds to its counters is what the bus clock advances by |
| `PlayerSchedule.StepBound` | `src/cpu.rs:149-188` | A CPU step returns what the bus clock advances by, at most 8304 cycles |
| `PlayerSchedule.TurnCosts` | `src/player.rs:428-485` | Every turn that is not a PLAY trigger spends at least one cycle |
| `PlayerSchedule.IdleIsLongest` | `src/player.rs:456-470` | An idle stretch is the longest that passes neither the target nor the moment PLAY falls due |
| `PlayerSchedule.RenderKeepsFull` | `src/player.rs:525-541` | Rendering any number of samples keeps fetch ownership, sample account, DMA parity and clock phase |
| `PlayerSchedule.TriggersCountPeriods` | `src/player.rs:431-441` | From the start of a song, whenever no PLAY is due, exactly as many have been scheduled as whole periods have passed on the bus clock |
| `PlayerSchedule.LoopEnds` | `src/player.rs:428-485` | The sample loop ends with its target spent or its step budget used up, after at most one turn per cycle besides the PLAYs it schedules, and spends what the bus clock advances by |
| `PlayerSchedule.TrackLength` | `src/player.rs:499-541` | A scheduled track emits exactly its time plus its fade and then nothing |
| `PlayerSchedule.FadeIsMonotone` | `src/player.rs:499-513` | The fade gain never rises and is zero exactly when the track is over |
| `PlayerSchedule.FadeIsLinear` | `src/player.rs:499-513` | It falls by the same amount every sample |
| `PlayerSchedule.NsfPlayer.StepOneSample` | `src/player.rs:408-497` | One sample: nothing once the track is over, otherwise the loop |
| `PlayerSchedule.NsfPlayer.SpendSample` | `src/player.rs:426-485` | The sample loop, terminating on what is left of the target and then on the cycles since PLAY |
| `PlayerSchedule.NsfPlayer.TakeTurn` | `src/player.rs:430-478` | One turn: a PLAY trigger, an idle stretch or a CPU step |
| `PlayerSchedule.NsfPlayer.StepCpu` | `src/cpu.rs:149-176` | A halted CPU only holds the bus and keeps the NMI request; otherwise a pending NMI is taken first |
| `PlayerSchedule.JamsIff` | `src/cpu.rs:149-176` | The CPU jams exactly in a step of its own, not while parked and not in the step that takes an NMI |
| `PlayerSchedule.LoopStaysHalted` | `src/cpu.rs:149-161` | Once jammed it stays so over the rest of the loop, a pending request stays pending, and on the NMI path no call is entered |
| `PlayerSchedule.NsfPlayer.RenderInto` | `src/player.rs:525-541` | Renders until the CPU has halted or the track has ended, and reports how many samples it wrote |

## Left out

- VRC7 and its synthesis: the chip counts as disabled in every timing theorem; its NSFe chunk is modelled as bytes.
- Floating point: mixers, filters, DAC curves and `mixe` gains. The fade gain is a real number, and the cycle target of a sample is an input.
- Counters: `u64` cycle counts are unbounded, and so are tick counts near 2^32 cycles in one batch.
- Envelope and length counters, the DMC's output unit, reader and handshake, and other small records are values inside the objects that own them, so aliasing between them is not in question.
- N163 output holds: kept as integers, 128 times the source's value.
- Expansion-chip register decoding and bank selection: an instruction may change chips and memory view arbitrarily; the N163 and FDS registers, MMC5 PCM reads and the APU, timer and DMC registers are decoded.
- Direct writes by the host in the middle of a player run, other than those of starting a song.
- BusObject.NesBus.RunInstruction: requires that the recorded writes have write cycles in the mask, which `EveryOpcodeShaped` proves of every opcode.
- BusObject.NesBus.Write: records $4014 and the time-sensitive registers and updates RAM and cartridge RAM; bank selects, FDS RAM and chip registers reach the model as arbitrary changes of memory view and chips (writes outside an instruction are `WriteDirect`).
- BusObject.NesBus.WriteDirect: leaves out the same bank selects, FDS RAM and chip registers.
- BusObject.NesBus.Read: chip register reads and their side effects are not modelled; MMC5 PCM observation, $4015 and the timer are.
- At most one unexpected DMA per sample: not claimed, as the unexpected byte leaving the buffer latches another stop.
- Opcode semantics beyond cycle counts, write masks and the nine opcodes of the NMI wrapper; write masks are sequences of bits.
- NmiWrapper.PlayIsTransparent: PLAY itself is any code that reaches its RTS with the stack pointer it was entered with, the eight saved bytes and the rest of the wrapper untouched, and without a nested NMI; an interrupt in the second half is excluded by the flags or the line.
- The player holds its machine by value, as the function that the bus object is proved to follow; where the program counter is and which interrupt lines are asserted in a turn is left open, so every answer is covered.
- Sample-clock conservation: what a sample overshoots its target by is not carried by the source, and nothing is claimed about it.
- PlayerSessions.SongStarts: the INIT call is any list of CPU steps; where `run_until_stop` ends it, and the song number and region in A, X and Y, are left open.
- FDS register reads, and the output level that its divider scales.
- The codec registry and its glue to other crates.
