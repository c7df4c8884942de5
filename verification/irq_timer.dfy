/** The NSF2 IRQ timer device at $401B-$401D (src/bus.rs:66-144). */
module IrqTimer {
  import opened Words

  datatype Timer = Timer(enabled: bool, reload: u16, counter: int, active: bool, irqFlag: bool)

  /** One CPU cycle of the device. */
  function TimerTick(t: Timer): Timer {
    if !t.enabled then t
    else if !t.active then t.(counter := t.reload)
    else if t.counter - 1 < 0 then t.(irqFlag := true, counter := t.reload)
    else t.(counter := t.counter - 1)
  }

  function TimerWrite(t: Timer, addr: u16, value: u8): Timer {
    if !t.enabled then t
    else if addr == 0x401B then t.(reload := t.reload / 0x100 * 0x100 + value)
    else if addr == 0x401C then t.(reload := t.reload % 0x100 + value * 0x100)
    else if addr == 0x401D then
      if Bit(value, 1) then t.(active := true) else t.(active := false, counter := t.reload)
    else t
  }

  predicate Running(t: Timer) {
    t.enabled && t.active && 0 <= t.counter
  }

  /** Underflows during `n` cycles of a running timer: the first after
      `counter + 1` cycles and then one every `reload + 1`. */
  function Underflows(t: Timer, n: nat): nat
    requires Running(t)
  {
    if n <= t.counter then 0 else (n - t.counter - 1) / (t.reload + 1) + 1
  }

  /** Counter value of a running timer after `n` cycles. */
  function CounterAt(t: Timer, n: nat): (c: int)
    requires Running(t)
    ensures 0 <= c <= Max(t.counter, t.reload)
  {
    if n <= t.counter then t.counter - n
    else t.reload - (n - t.counter - 1) % (t.reload + 1)
  }

  lemma CounterAtStep(t: Timer, n: nat)
    requires Running(t)
    ensures CounterAt(t, n + 1) == if CounterAt(t, n) == 0 then t.reload else CounterAt(t, n) - 1
  {
    if n > t.counter {
      SuccMod(n - t.counter - 1, t.reload + 1);
    } else {
      DivModUnique(0, t.reload + 1, 0, 0);
    }
  }

  /** Closed form of `n` cycles: the period is `reload + 1`, the flag is latched
      exactly from the first underflow on, and the counter is never negative. */
  lemma {:induction false} TimerClosedForm(t: Timer, n: nat)
    requires Running(t)
    ensures Iterate(TimerTick, t, n)
         == t.(counter := CounterAt(t, n), irqFlag := t.irqFlag || n > t.counter)
  {
    hide CounterAt;
    if n == 0 {
      assert CounterAt(t, 0) == t.counter by { CounterAtStart(t); }
    } else {
      TimerClosedForm(t, n - 1);
      CounterAtStep(t, n - 1);
      CounterAtFirstZero(t, n - 1);
    }
  }

  lemma CounterAtStart(t: Timer)
    requires Running(t)
    ensures CounterAt(t, 0) == t.counter
  {
  }

  lemma CounterAtFirstZero(t: Timer, n: nat)
    requires Running(t)
    ensures n <= t.counter ==> (CounterAt(t, n) == 0 <==> n == t.counter)
  {
  }

  /** Cycle `n` underflows exactly when the counter stood at zero before it, and
      `Underflows` counts those cycles. */
  lemma {:induction false} UnderflowCount(t: Timer, n: nat)
    requires Running(t)
    ensures Underflows(t, n + 1) == Underflows(t, n)
                                    + if Iterate(TimerTick, t, n).counter == 0 then 1 else 0
    ensures n > t.counter <==> Underflows(t, n) > 0
  {
    TimerClosedForm(t, n);
    if n > t.counter {
      SuccMod(n - t.counter - 1, t.reload + 1);
    } else {
      DivModUnique(0, t.reload + 1, 0, 0);
    }
  }

  class Nsf2IrqTimer {
    var enabled: bool
    var reload: u16
    var counter: int
    var active: bool
    var irqFlag: bool

    ghost function State(): Timer
      reads this
    {
      Timer(enabled, reload, counter, active, irqFlag)
    }

    constructor ()
      ensures State() == Timer(false, 0, 0, false, false)
    {
      enabled, reload, counter, active, irqFlag := false, 0, 0, false, false;
    }

    method Write(addr: u16, value: u8)
      modifies this
      ensures State() == TimerWrite(old(State()), addr, value)
    {
      if !enabled {
        return;
      }
      if addr == 0x401B {
        reload := reload / 0x100 * 0x100 + value;
      } else if addr == 0x401C {
        reload := reload % 0x100 + value * 0x100;
      } else if addr == 0x401D {
        active := Bit(value, 1);
        if !active {
          counter := reload;
        }
      }
    }

    /** $401D returns the flag before clearing it. */
    method Read(addr: u16) returns (r: Option<u8>)
      modifies this`irqFlag
      ensures r == if !enabled then None
                   else if addr == 0x401B then Some(reload % 0x100)
                   else if addr == 0x401C then Some(reload / 0x100)
                   else if addr == 0x401D then
                     Some((if old(irqFlag) then 0x80 else 0) + (if active then 1 else 0))
                   else None
      ensures irqFlag == (old(irqFlag) && !(enabled && addr == 0x401D))
    {
      if !enabled {
        return None;
      }
      if addr == 0x401B {
        r := Some(reload % 0x100);
      } else if addr == 0x401C {
        r := Some(reload / 0x100);
      } else if addr == 0x401D {
        r := Some((if irqFlag then 0x80 else 0) + (if active then 1 else 0));
        irqFlag := false;
      } else {
        r := None;
      }
    }

    /** The batched tick is `cycles` one-cycle ticks; `tick(0)` of an inactive
        timer still snaps the counter to the reload value, as the source does. */
    method Tick(cycles: nat)
      modifies this
      ensures State() == if cycles == 0 && old(enabled && !active) then old(State()).(counter := old(reload))
                         else Iterate(TimerTick, old(State()), cycles)
    {
      ghost var was := State();
      if !enabled || !active {
        if enabled {
          counter := reload;
        }
        HeldWhileInactive(was, cycles);
        return;
      }
      for i := 0 to cycles
        invariant State() == Iterate(TimerTick, was, i)
        invariant enabled && active
      {
        counter := counter - 1;
        if counter < 0 {
          irqFlag := true;
          counter := reload;
        }
      }
    }
  }

  lemma {:induction false} HeldWhileInactive(t: Timer, n: nat)
    requires !t.enabled || !t.active
    ensures Iterate(TimerTick, t, n) == if n == 0 then t else TimerTick(t)
  {
    if n > 0 {
      HeldWhileInactive(t, n - 1);
    }
  }
}
