/** The driver of bt-gpio-rfkill.c in its own imperative form: the private
    record is an object whose fields the C functions assign, the board and the
    kernel services are an object whose state the calls change, and each C
    function is a method proved to do what the matching function of module
    Driver says. */
module BtGpioRfkill {
  import opened Kernel
  import Driver

  /** The lines, as the board drives them, and the kernel services, as far as
      the driver can observe them: an ordered record of what was asked. */
  class Board {
    var levels: Levels
    var pins: seq<PinEvent>
    var calls: seq<KernelCall>

    constructor (initial: Levels)
      ensures View() == Driver.Board(initial, [], [])
    {
      levels := initial;
      pins := [];
      calls := [];
    }

    function View(): Driver.Board
      reads this
    {
      Driver.Board(levels, pins, calls)
    }

    /** gpiod_set_value: ignored for a NULL or error descriptor. */
    method GpiodSetValue(g: Gpio, p: Pin, v: Level)
      modifies this
      ensures View() == Driver.GpiodSetValue(old(View()), g, p, v)
    {
      if g.Acquired? {
        levels := levels.With(p, v);
        pins := pins + [Write(p, v)];
      }
    }

    /** mdelay. */
    method MDelay(ms: nat)
      modifies this
      ensures View() == Driver.MDelay(old(View()), ms)
    {
      pins := pins + [Delay(ms)];
    }

    /** devm_gpiod_get(dev, name of `p`, GPIOD_OUT_HIGH), whose outcome is `l`. */
    method DevmGpiodGet(p: Pin, l: Lookup) returns (g: Gpio)
      modifies this
      ensures g == Descriptor(l)
      ensures View() == Driver.Request(old(View()), p, l)
    {
      g := Descriptor(l);
      if l.Found? {
        levels := levels.With(p, High);
        pins := pins + [Requested(p)];
      }
    }

    /** gpiod_put of descriptor `g`, taken from the record's field for `p`. */
    method GpiodPut(p: Pin, g: Gpio)
      modifies this
      ensures View() == old(View()).(calls := old(calls) + [KernelCall.GpiodPut(p, g)])
    {
      calls := calls + [KernelCall.GpiodPut(p, g)];
    }

    /** rfkill_alloc, which hands back `outcome` (NULL when it fails). */
    method RfkillAlloc(outcome: Rfkill) returns (h: Rfkill)
      modifies this
      ensures h == outcome
      ensures View() == old(View()).(calls := old(calls) + [KernelCall.RfkillAlloc])
    {
      calls := calls + [KernelCall.RfkillAlloc];
      h := outcome;
    }

    /** rfkill_register, which returns `outcome`. */
    method RfkillRegister(h: Rfkill, outcome: int) returns (ret: int)
      modifies this
      ensures ret == outcome
      ensures View() == old(View()).(calls := old(calls) + [KernelCall.RfkillRegister(h)])
    {
      calls := calls + [KernelCall.RfkillRegister(h)];
      ret := outcome;
    }

    /** rfkill_destroy. */
    method RfkillDestroy(h: Rfkill)
      modifies this
      ensures View() == old(View()).(calls := old(calls) + [KernelCall.RfkillDestroy(h)])
    {
      calls := calls + [KernelCall.RfkillDestroy(h)];
    }
  }

  /** struct myy_driver_private_data. */
  class PrivateData {
    var power: Gpio
    var reset: Gpio
    var wakeup: Gpio
    var rfkillSystem: Rfkill

    /** devm_kzalloc: every pointer starts NULL. */
    constructor ()
      ensures View() == Driver.ZeroRecord
    {
      power, reset, wakeup := NullGpio, NullGpio, NullGpio;
      rfkillSystem := NullRfkill;
    }

    function View(): Driver.Record
      reads this
    {
      Driver.Record(power, reset, wakeup, rfkillSystem)
    }
  }

  function Snapshot(d: PrivateData, b: Board): Driver.State
    reads d, b
  {
    Driver.State(d.View(), b.View())
  }

  /** myy_rfkill_bt_on. */
  method BtOn(d: PrivateData, b: Board)
    modifies b
    ensures Snapshot(d, b) == Driver.PowerOn(old(Snapshot(d, b)))
  {
    b.GpiodSetValue(d.reset, Reset, Low);
    b.GpiodSetValue(d.power, Power, High);
    b.GpiodSetValue(d.reset, Reset, High);
    b.MDelay(20);
    b.GpiodSetValue(d.reset, Reset, Low);
  }

  /** myy_rfkill_bt_off. */
  method BtOff(d: PrivateData, b: Board)
    modifies b
    ensures Snapshot(d, b) == Driver.PowerOff(old(Snapshot(d, b)))
  {
    b.GpiodSetValue(d.reset, Reset, High);
    b.MDelay(10);
    b.GpiodSetValue(d.power, Power, Low);
    b.GpiodSetValue(d.reset, Reset, Low);
  }

  /** myy_rfkill_bt_set_block. */
  method SetBlock(d: PrivateData, b: Board, blocked: bool) returns (ret: int)
    modifies b
    ensures Driver.Returned(ret, Snapshot(d, b)) == Driver.SetBlock(old(Snapshot(d, b)), blocked)
  {
    if !blocked {
      BtOn(d, b);
    } else {
      BtOff(d, b);
    }
    ret := 0;
  }

  /** find_the_bluetooth_gpios. */
  method FindGpios(d: PrivateData, b: Board, power: Lookup, reset: Lookup, wakeup: Lookup) returns (ret: int)
    modifies d, b
    ensures Driver.Returned(ret, Snapshot(d, b)) == Driver.FindGpios(old(Snapshot(d, b)), power, reset, wakeup)
  {
    ret := 0;
    var powerGpio := b.DevmGpiodGet(Power, power);
    var resetGpio := b.DevmGpiodGet(Reset, reset);
    var wakeupGpio := b.DevmGpiodGet(Wakeup, wakeup);

    d.power := powerGpio;
    d.reset := resetGpio;
    d.wakeup := wakeupGpio;

    if IsErr(powerGpio) || IsErr(resetGpio) || IsErr(wakeupGpio) {
      ret := -ENOSYS;
    }
  }

  /** setup_the_rfkill_system, as written, goto labels included. */
  method SetupRfkill(d: PrivateData, b: Board, alloc: Rfkill, registerRet: int) returns (ret: int)
    modifies d, b
    ensures Driver.Returned(ret, Snapshot(d, b)) == Driver.SetupRfkill(old(Snapshot(d, b)), alloc, registerRet)
  {
    ret := 0;
    var rfkillSystem := b.RfkillAlloc(alloc);
    if rfkillSystem == NullRfkill {
      ret := -ENOMEM;
      // err_rfk_alloc:
      b.RfkillDestroy(rfkillSystem);
      // err_rfkill:
      BtOff(d, b);
      return;
    }

    ret := b.RfkillRegister(rfkillSystem, registerRet);
    if ret != 0 {
      // err_rfkill:
      BtOff(d, b);
      return;
    }

    d.rfkillSystem := rfkillSystem;
  }

  /** myy_bluetooth_probe: returns the new record as platform_set_drvdata
      would store it. */
  method Probe(b: Board, power: Lookup, reset: Lookup, wakeup: Lookup, alloc: Rfkill, registerRet: int)
    returns (ret: int, d: PrivateData)
    modifies b
    ensures fresh(d)
    ensures Driver.Returned(ret, Snapshot(d, b)) == Driver.Probe(old(b.View()), power, reset, wakeup, alloc, registerRet)
  {
    d := new PrivateData();
    ret := FindGpios(d, b, power, reset, wakeup);
    if ret != 0 {
      return;
    }
    ret := SetupRfkill(d, b, alloc, registerRet);
  }

  /** myy_bluetooth_remove, as written. */
  method Remove(d: PrivateData, b: Board) returns (ret: int)
    modifies b
    ensures Driver.Returned(ret, Snapshot(d, b)) == Driver.Remove(old(Snapshot(d, b)))
  {
    ghost var before := Snapshot(d, b);
    if !IsErr(d.power) {
      b.GpiodPut(Power, d.power);
    }
    if !IsErr(d.reset) {
      b.GpiodPut(Power, d.power);
    }
    if !IsErr(d.wakeup) {
      b.GpiodPut(Wakeup, d.wakeup);
    }
    assert b.calls == before.board.calls + Driver.RemovePuts(d.View());
    assert Snapshot(d, b) == before.(board := before.board.(calls := before.board.calls + Driver.RemovePuts(d.View())));
    if d.rfkillSystem != NullRfkill {
      b.RfkillDestroy(d.rfkillSystem);
      BtOff(d, b);
    }
    ret := 0;
  }
}
