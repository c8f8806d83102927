/** The kernel objects the driver handles, reduced to what it observes of them:
    GPIO descriptors, rfkill handles, the levels of the three Bluetooth lines,
    and the events the board and the kernel record while the driver runs. */
module Kernel {

  /** The three lines, in the order of the source's index enumeration. */
  datatype Pin = Power | Reset | Wakeup

  /** The logical value written with gpiod_set_value (0 or 1). */
  datatype Level = Low | High

  /** What a `struct gpio_desc *` field can hold: NULL (the zeroed record),
      a descriptor for the line it was requested for, or an ERR_PTR. */
  datatype Gpio = NullGpio | Acquired | ErrGpio(errno: int)

  /** The kernel's IS_ERR: true only for an error pointer, false for NULL. */
  predicate IsErr(g: Gpio)
  {
    g.ErrGpio?
  }

  /** What a `struct rfkill *` can hold: NULL or an allocated handle. */
  datatype Rfkill = NullRfkill | RfkillAt(id: nat)

  /** The outcome of devm_gpiod_get for one line name. */
  datatype Lookup = Found | NotFound(errno: int)

  /** The descriptor devm_gpiod_get hands back for a lookup outcome. */
  function Descriptor(l: Lookup): (g: Gpio)
    ensures IsErr(g) <==> l.NotFound?
    ensures g != NullGpio
  {
    match l
    case Found => Acquired
    case NotFound(e) => ErrGpio(e)
  }

  /** What happens on the wires, in order: a line requested as an output
      driven high, a logical write, or a busy wait of `ms` milliseconds. */
  datatype PinEvent = Requested(pin: Pin) | Write(pin: Pin, level: Level) | Delay(ms: nat)

  /** The kernel services the driver calls and whose effect it cannot see. */
  datatype KernelCall =
    | RfkillAlloc
    | RfkillRegister(handle: Rfkill)
    | RfkillUnregister(handle: Rfkill)
    | RfkillDestroy(handle: Rfkill)
    | GpiodPut(line: Pin, desc: Gpio)

  const ENOMEM: int := 12
  const ENOSYS: int := 38

  /** The current logical level of each line. */
  datatype Levels = Levels(power: Level, reset: Level, wakeup: Level)
  {
    function At(p: Pin): Level
    {
      match p
      case Power => power
      case Reset => reset
      case Wakeup => wakeup
    }

    /** The same levels with line `p` driven to `v`. */
    function With(p: Pin, v: Level): (r: Levels)
      ensures r.At(p) == v
      ensures forall q :: q != p ==> r.At(q) == At(q)
    {
      match p
      case Power => this.(power := v)
      case Reset => this.(reset := v)
      case Wakeup => this.(wakeup := v)
    }
  }
}
