/** The pulse, triangle and noise channels of the 2A03 (src/apu.rs:84-562).
    The datatypes are the abstract states; the classes update the source's fields
    in place and are proved to follow them. `Envelope` and `LengthCounter` are
    structs held inline by their channel, so they are values here. */
module Channels {
  import opened Words

  const LENGTH_TABLE: seq<u8> := [
    10, 254, 20, 2, 40, 4, 80, 6, 160, 8, 60, 10, 14, 12, 26, 14, 12, 16, 24, 18, 48, 20, 96, 22,
    192, 24, 72, 26, 16, 28, 32, 30]

  const NOISE_PERIOD_NTSC: seq<u16> := [
    4, 8, 16, 32, 64, 96, 128, 160, 202, 254, 380, 508, 762, 1016, 2034, 4068]

  const NOISE_PERIOD_PAL: seq<u16> := [
    4, 8, 14, 30, 60, 88, 118, 148, 188, 236, 354, 472, 708, 944, 1890, 3778]

  datatype Envelope = Envelope(start: bool, loopFlag: bool, constant: bool, volume: u8, decay: u8, divider: u8) {

    function Write(value: u8): Envelope {
      this.(loopFlag := Bit(value, 0x20), constant := Bit(value, 0x10), volume := value % 0x10)
    }

    function Clock(): Envelope {
      if start then this.(start := false, decay := 15, divider := volume)
      else if divider == 0 then
        this.(divider := volume, decay := if decay > 0 then decay - 1 else if loopFlag then 15 else decay)
      else this.(divider := divider - 1)
    }
  }

  datatype LengthCounter = LengthCounter(halt: bool, counter: u8) {

    function Load(value: u8): LengthCounter {
      this.(counter := LENGTH_TABLE[value / 8])
    }

    function Clock(): LengthCounter {
      if !halt && counter > 0 then this.(counter := counter - 1) else this
    }

    function SilenceIfDisabled(enabled: bool): LengthCounter {
      if enabled then this else this.(counter := 0)
    }
  }

  const ENVELOPE_RESET := Envelope(false, false, false, 0, 0, 0)
  const LENGTH_RESET := LengthCounter(false, 0)

  // ------------------------------------------------------------------ pulse

  datatype Pulse = Pulse(
    enabled: bool, duty: u8, dutyStep: u8, timerPeriod: u11, timer: u11,
    envelope: Envelope, length: LengthCounter,
    sweepEnabled: bool, sweepPeriod: u3, sweepNegate: bool, sweepShift: u3,
    sweepReload: bool, sweepDivider: u3, isPulseTwo: bool)

  function PulseReset(isPulseTwo: bool): Pulse {
    Pulse(false, 0, 0, 0, 0, ENVELOPE_RESET, LENGTH_RESET, false, 0, false, 0, false, 0, isPulseTwo)
  }

  function PulseTick(p: Pulse): Pulse {
    if p.timer == 0 then p.(timer := p.timerPeriod, dutyStep := (p.dutyStep + 1) % 8)
    else p.(timer := p.timer - 1)
  }

  function PulseWriteMain(p: Pulse, value: u8): Pulse {
    p.(duty := value / 0x40, length := p.length.(halt := Bit(value, 0x20)), envelope := p.envelope.Write(value))
  }

  function PulseWriteSweep(p: Pulse, value: u8): Pulse {
    p.(sweepEnabled := Bit(value, 0x80), sweepPeriod := value / 0x10 % 8, sweepNegate := Bit(value, 8),
       sweepShift := value % 8, sweepReload := true)
  }

  function PulseWritePeriodLo(p: Pulse, value: u8): Pulse {
    p.(timerPeriod := p.timerPeriod / 0x100 * 0x100 + value)
  }

  function PulseWritePeriodHi(p: Pulse, value: u8): Pulse {
    p.(timerPeriod := p.timerPeriod % 0x100 + value % 8 * 0x100,
       length := if p.enabled then p.length.Load(value) else p.length,
       dutyStep := 0, envelope := p.envelope.(start := true))
  }

  function Pow2Of(shift: nat): (w: nat)
    ensures w >= 1 && (shift > 0 ==> w >= 2)
  {
    if shift == 0 then 1 else if shift == 1 then 2 else if shift == 2 then 4 else if shift == 3 then 8
    else if shift == 4 then 16 else if shift == 5 then 32 else if shift == 6 then 64 else 128
  }

  /** The sweep unit's target; the difference of a negated sweep is clamped to zero. */
  function TargetPeriod(p: Pulse): (t: nat)
    ensures t <= 0xFFE
  {
    var change := p.timerPeriod / Pow2Of(p.sweepShift);
    if p.sweepNegate then Max(p.timerPeriod - change - (if p.isPulseTwo then 0 else 1), 0)
    else p.timerPeriod + change
  }

  predicate SweepMutes(p: Pulse) {
    p.timerPeriod < 8 || TargetPeriod(p) > 0x7FF
  }

  function ClockSweep(p: Pulse): Pulse {
    var period := if p.sweepDivider == 0 && p.sweepEnabled && p.sweepShift > 0 && !SweepMutes(p)
                  then TargetPeriod(p) else p.timerPeriod;
    if p.sweepDivider == 0 || p.sweepReload
    then p.(timerPeriod := period, sweepDivider := p.sweepPeriod, sweepReload := false)
    else p.(timerPeriod := period, sweepDivider := p.sweepDivider - 1)
  }

  function PulseQuarter(p: Pulse): Pulse {
    p.(envelope := p.envelope.Clock())
  }

  function PulseHalf(p: Pulse): Pulse {
    ClockSweep(p.(length := p.length.Clock()))
  }

  function PulseEnable(p: Pulse, on: bool): Pulse {
    p.(enabled := on, length := p.length.SilenceIfDisabled(on))
  }

  class PulseChannel {
    var enabled: bool
    var duty: u8
    var dutyStep: u8
    var timerPeriod: u11
    var timer: u11
    var envelope: Envelope
    var length: LengthCounter
    var sweepEnabled: bool
    var sweepPeriod: u3
    var sweepNegate: bool
    var sweepShift: u3
    var sweepReload: bool
    var sweepDivider: u3
    const isPulseTwo: bool

    ghost function State(): Pulse
      reads this
    {
      Pulse(enabled, duty, dutyStep, timerPeriod, timer, envelope, length, sweepEnabled, sweepPeriod,
            sweepNegate, sweepShift, sweepReload, sweepDivider, isPulseTwo)
    }

    constructor (two: bool)
      ensures State() == PulseReset(two)
    {
      enabled, duty, dutyStep, timerPeriod, timer := false, 0, 0, 0, 0;
      envelope, length := ENVELOPE_RESET, LENGTH_RESET;
      sweepEnabled, sweepPeriod, sweepNegate, sweepShift := false, 0, false, 0;
      sweepReload, sweepDivider, isPulseTwo := false, 0, two;
    }

    method WriteMain(value: u8)
      modifies this
      ensures State() == PulseWriteMain(old(State()), value)
    {
      duty := value / 0x40;
      length := length.(halt := Bit(value, 0x20));
      envelope := envelope.Write(value);
    }

    method WriteSweep(value: u8)
      modifies this
      ensures State() == PulseWriteSweep(old(State()), value)
    {
      sweepEnabled := Bit(value, 0x80);
      sweepPeriod := value / 0x10 % 8;
      sweepNegate := Bit(value, 8);
      sweepShift := value % 8;
      sweepReload := true;
    }

    method WritePeriodLo(value: u8)
      modifies this
      ensures State() == PulseWritePeriodLo(old(State()), value)
    {
      timerPeriod := timerPeriod / 0x100 * 0x100 + value;
    }

    method WritePeriodHi(value: u8)
      modifies this
      ensures State() == PulseWritePeriodHi(old(State()), value)
    {
      timerPeriod := timerPeriod % 0x100 + value % 8 * 0x100;
      if enabled {
        length := length.Load(value);
      }
      dutyStep := 0;
      envelope := envelope.(start := true);
    }

    method SetEnabled(on: bool)
      modifies this
      ensures State() == PulseEnable(old(State()), on)
    {
      enabled := on;
      length := length.SilenceIfDisabled(on);
    }

    method TickTimer(cycles: nat)
      modifies this
      ensures State() == Iterate(PulseTick, old(State()), cycles)
    {
      for i := 0 to cycles
        invariant State() == Iterate(PulseTick, old(State()), i)
      {
        if timer == 0 {
          timer := timerPeriod;
          dutyStep := (dutyStep + 1) % 8;
        } else {
          timer := timer - 1;
        }
      }
    }

    method ClockEnvelope()
      modifies this
      ensures State() == PulseQuarter(old(State()))
    {
      envelope := envelope.Clock();
    }

    /** Length counter, then sweep, as `tick_half_frame` clocks them. */
    method ClockLengthAndSweep()
      modifies this
      ensures State() == PulseHalf(old(State()))
    {
      length := length.Clock();
      var change := timerPeriod / Pow2Of(sweepShift);
      var target := if sweepNegate then Max(timerPeriod - change - (if isPulseTwo then 0 else 1), 0)
                    else timerPeriod + change;
      if sweepDivider == 0 && sweepEnabled && sweepShift > 0 && !(timerPeriod < 8 || target > 0x7FF) {
        timerPeriod := target;
      }
      if sweepDivider == 0 || sweepReload {
        sweepDivider := sweepPeriod;
        sweepReload := false;
      } else {
        sweepDivider := sweepDivider - 1;
      }
    }
  }

  // --------------------------------------------------------------- triangle

  datatype Triangle = Triangle(
    enabled: bool, timerPeriod: u16, timer: u16, seqStep: u8, length: LengthCounter,
    linearCounter: u8, linearReloadValue: u8, linearReload: bool, controlFlag: bool)

  const TRIANGLE_RESET := Triangle(false, 0, 0, 15, LENGTH_RESET, 0, 0, false, false)

  function TriangleTick(t: Triangle): Triangle {
    if t.timer == 0 then
      t.(timer := t.timerPeriod,
         seqStep := if t.length.counter > 0 && t.linearCounter > 0 && t.timerPeriod >= 2
                    then (t.seqStep + 1) % 32 else t.seqStep)
    else t.(timer := t.timer - 1)
  }

  function TriangleWriteLinear(t: Triangle, value: u8): Triangle {
    t.(controlFlag := Bit(value, 0x80), length := t.length.(halt := Bit(value, 0x80)),
       linearReloadValue := value % 0x80)
  }

  function TriangleWritePeriodLo(t: Triangle, value: u8): Triangle {
    t.(timerPeriod := t.timerPeriod / 0x100 * 0x100 + value)
  }

  function TriangleWritePeriodHi(t: Triangle, value: u8): Triangle {
    t.(timerPeriod := t.timerPeriod % 0x100 + value % 8 * 0x100,
       length := if t.enabled then t.length.Load(value) else t.length, linearReload := true)
  }

  function TriangleQuarter(t: Triangle): Triangle {
    t.(linearCounter := if t.linearReload then t.linearReloadValue
                        else if t.linearCounter > 0 then t.linearCounter - 1 else 0,
       linearReload := t.linearReload && t.controlFlag)
  }

  function TriangleHalf(t: Triangle): Triangle {
    t.(length := t.length.Clock())
  }

  function TriangleEnable(t: Triangle, on: bool): Triangle {
    t.(enabled := on, length := t.length.SilenceIfDisabled(on))
  }

  class TriangleChannel {
    var enabled: bool
    var timerPeriod: u16
    var timer: u16
    var seqStep: u8
    var length: LengthCounter
    var linearCounter: u8
    var linearReloadValue: u8
    var linearReload: bool
    var controlFlag: bool

    ghost function State(): Triangle
      reads this
    {
      Triangle(enabled, timerPeriod, timer, seqStep, length, linearCounter, linearReloadValue,
               linearReload, controlFlag)
    }

    constructor ()
      ensures State() == TRIANGLE_RESET
    {
      enabled, timerPeriod, timer, seqStep, length := false, 0, 0, 15, LENGTH_RESET;
      linearCounter, linearReloadValue, linearReload, controlFlag := 0, 0, false, false;
    }

    method WriteLinear(value: u8)
      modifies this
      ensures State() == TriangleWriteLinear(old(State()), value)
    {
      controlFlag := Bit(value, 0x80);
      length := length.(halt := controlFlag);
      linearReloadValue := value % 0x80;
    }

    method WritePeriodLo(value: u8)
      modifies this
      ensures State() == TriangleWritePeriodLo(old(State()), value)
    {
      timerPeriod := timerPeriod / 0x100 * 0x100 + value;
    }

    method WritePeriodHi(value: u8)
      modifies this
      ensures State() == TriangleWritePeriodHi(old(State()), value)
    {
      timerPeriod := timerPeriod % 0x100 + value % 8 * 0x100;
      if enabled {
        length := length.Load(value);
      }
      linearReload := true;
    }

    method SetEnabled(on: bool)
      modifies this
      ensures State() == TriangleEnable(old(State()), on)
    {
      enabled := on;
      length := length.SilenceIfDisabled(on);
    }

    method TickTimer(cycles: nat)
      modifies this
      ensures State() == Iterate(TriangleTick, old(State()), cycles)
    {
      for i := 0 to cycles
        invariant State() == Iterate(TriangleTick, old(State()), i)
      {
        if timer == 0 {
          timer := timerPeriod;
          if length.counter > 0 && linearCounter > 0 && timerPeriod >= 2 {
            seqStep := (seqStep + 1) % 32;
          }
        } else {
          timer := timer - 1;
        }
      }
    }

    method ClockLinear()
      modifies this
      ensures State() == TriangleQuarter(old(State()))
    {
      if linearReload {
        linearCounter := linearReloadValue;
      } else if linearCounter > 0 {
        linearCounter := linearCounter - 1;
      }
      if !controlFlag {
        linearReload := false;
      }
    }

    method ClockLength()
      modifies this
      ensures State() == TriangleHalf(old(State()))
    {
      length := length.Clock();
    }
  }

  // ------------------------------------------------------------------ noise

  datatype Noise = Noise(
    enabled: bool, mode: bool, periodIndex: u8, timerPeriod: u16, timer: u16, shift: u15,
    envelope: Envelope, length: LengthCounter, pal: bool)

  const NOISE_RESET := Noise(false, false, 0, 0, 0, 1, ENVELOPE_RESET, LENGTH_RESET, false)

  function NoisePeriod(index: u8, pal: bool): u16 {
    if pal then NOISE_PERIOD_PAL[index % 16] else NOISE_PERIOD_NTSC[index % 16]
  }

  /** One shift of the register: the tap is bit 6 in short mode and bit 1 otherwise. */
  function NoiseShift(shift: u15, mode: bool): u15
  {
    var feedback := (shift % 2 + shift / (if mode then 64 else 2) % 2) % 2;
    shift / 2 + feedback * 0x4000
  }

  function NoiseTick(n: Noise): Noise {
    if n.timer == 0 then
      n.(timer := Max(n.timerPeriod - 1, 0), shift := NoiseShift(n.shift, n.mode))
    else n.(timer := n.timer - 1)
  }

  function NoiseWriteMain(n: Noise, value: u8): Noise {
    n.(length := n.length.(halt := Bit(value, 0x20)), envelope := n.envelope.Write(value))
  }

  function NoiseWritePeriod(n: Noise, value: u8): Noise {
    n.(mode := Bit(value, 0x80), periodIndex := value % 16, timerPeriod := NoisePeriod(value % 16, n.pal))
  }

  function NoiseSetPal(n: Noise, pal: bool): Noise {
    n.(pal := pal, timerPeriod := NoisePeriod(n.periodIndex, pal))
  }

  function NoiseWriteLength(n: Noise, value: u8): Noise {
    n.(length := if n.enabled then n.length.Load(value) else n.length, envelope := n.envelope.(start := true))
  }

  function NoiseQuarter(n: Noise): Noise {
    n.(envelope := n.envelope.Clock())
  }

  function NoiseHalf(n: Noise): Noise {
    n.(length := n.length.Clock())
  }

  function NoiseEnable(n: Noise, on: bool): Noise {
    n.(enabled := on, length := n.length.SilenceIfDisabled(on))
  }

  class NoiseChannel {
    var enabled: bool
    var mode: bool
    var periodIndex: u8
    var timerPeriod: u16
    var timer: u16
    var shift: u15
    var envelope: Envelope
    var length: LengthCounter
    var pal: bool

    ghost function State(): Noise
      reads this
    {
      Noise(enabled, mode, periodIndex, timerPeriod, timer, shift, envelope, length, pal)
    }

    constructor ()
      ensures State() == NOISE_RESET
    {
      enabled, mode, periodIndex, timerPeriod, timer, shift := false, false, 0, 0, 0, 1;
      envelope, length, pal := ENVELOPE_RESET, LENGTH_RESET, false;
    }

    method SetPal(isPal: bool)
      modifies this
      ensures State() == NoiseSetPal(old(State()), isPal)
    {
      pal := isPal;
      timerPeriod := NoisePeriod(periodIndex, isPal);
    }

    method WriteMain(value: u8)
      modifies this
      ensures State() == NoiseWriteMain(old(State()), value)
    {
      length := length.(halt := Bit(value, 0x20));
      envelope := envelope.Write(value);
    }

    method WritePeriod(value: u8)
      modifies this
      ensures State() == NoiseWritePeriod(old(State()), value)
    {
      mode := Bit(value, 0x80);
      periodIndex := value % 16;
      timerPeriod := NoisePeriod(periodIndex, pal);
    }

    method WriteLength(value: u8)
      modifies this
      ensures State() == NoiseWriteLength(old(State()), value)
    {
      if enabled {
        length := length.Load(value);
      }
      envelope := envelope.(start := true);
    }

    method SetEnabled(on: bool)
      modifies this
      ensures State() == NoiseEnable(old(State()), on)
    {
      enabled := on;
      length := length.SilenceIfDisabled(on);
    }

    method TickTimer(cycles: nat)
      modifies this
      ensures State() == Iterate(NoiseTick, old(State()), cycles)
    {
      for i := 0 to cycles
        invariant State() == Iterate(NoiseTick, old(State()), i)
      {
        if timer == 0 {
          timer := Max(timerPeriod - 1, 0);
          var tap := shift / (if mode then 64 else 2) % 2;
          var feedback := (shift % 2 + tap) % 2;
          shift := shift / 2 + feedback * 0x4000;
        } else {
          timer := timer - 1;
        }
      }
    }

    method ClockEnvelope()
      modifies this
      ensures State() == NoiseQuarter(old(State()))
    {
      envelope := envelope.Clock();
    }

    method ClockLength()
      modifies this
      ensures State() == NoiseHalf(old(State()))
    {
      length := length.Clock();
    }
  }

  /** The shift register never reaches the all-zero state it could not leave. */
  lemma {:induction false} NoiseNeverStuck(n: Noise, cycles: nat)
    requires n.shift != 0
    ensures Iterate(NoiseTick, n, cycles).shift != 0
  {
    if cycles > 0 {
      NoiseNeverStuck(n, cycles - 1);
    }
  }
}
