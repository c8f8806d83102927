/** The driver of bt-gpio-rfkill.c as functions on values: every C function of
    the driver becomes a function from the state before the call to the state
    after it (and the code it returns). The imperative methods in module
    BtGpioRfkill are proved equal to these functions. */
module Driver {
  import opened Kernel

  /** struct myy_driver_private_data: the three line descriptors and the
      rfkill handle. */
  datatype Record = Record(power: Gpio, reset: Gpio, wakeup: Gpio, rfkillSystem: Rfkill)
  {
    function Line(p: Pin): Gpio
    {
      match p
      case Power => power
      case Reset => reset
      case Wakeup => wakeup
    }
  }

  /** The record as devm_kzalloc hands it out: every pointer NULL. */
  const ZeroRecord: Record := Record(NullGpio, NullGpio, NullGpio, NullRfkill)

  /** What the outside world sees: line levels, the ordered pin events, and
      the ordered calls into the kernel's rfkill and GPIO services. */
  datatype Board = Board(levels: Levels, pins: seq<PinEvent>, calls: seq<KernelCall>)

  datatype State = State(rec: Record, board: Board)
  {
    /** The two lines the power sequences write are both held. */
    predicate Ready()
    {
      rec.power.Acquired? && rec.reset.Acquired?
    }
  }

  /** A C function's return code together with the state it leaves. */
  datatype Returned = Returned(ret: int, state: State)

  /** `after` extends `before` with delays and writes to the power and reset
      lines only: nothing requested, nothing written to the wakeup line. */
  ghost predicate SequencerOnly(before: seq<PinEvent>, after: seq<PinEvent>)
  {
    before <= after &&
    forall i | |before| <= i < |after| :: after[i].Delay? || (after[i].Write? && after[i].pin != Wakeup)
  }

  // ---- The two pin sequences

  /** gpiod_set_value through descriptor `g` of line `p`. The kernel ignores a
      NULL or error descriptor, so only a held line changes and is recorded. */
  function GpiodSetValue(b: Board, g: Gpio, p: Pin, v: Level): (r: Board)
    ensures r.calls == b.calls
    ensures r.levels.At(p) == (if g.Acquired? then v else b.levels.At(p))
    ensures forall q :: q != p ==> r.levels.At(q) == b.levels.At(q)
    ensures r.pins == b.pins + (if g.Acquired? then [Write(p, v)] else [])
  {
    if g.Acquired? then b.(levels := b.levels.With(p, v), pins := b.pins + [Write(p, v)]) else b
  }

  /** mdelay: a marker in the pin trace, nothing else. */
  function MDelay(b: Board, ms: nat): (r: Board)
    ensures r.levels == b.levels && r.calls == b.calls
    ensures r.pins == b.pins + [Delay(ms)]
  {
    b.(pins := b.pins + [Delay(ms)])
  }

  /** Write `v` to the line the record holds for `p`. */
  function SetValue(s: State, p: Pin, v: Level): (r: State)
    ensures r.rec == s.rec
    ensures r.board == GpiodSetValue(s.board, s.rec.Line(p), p, v)
  {
    s.(board := GpiodSetValue(s.board, s.rec.Line(p), p, v))
  }

  function Wait(s: State, ms: nat): (r: State)
    ensures r.rec == s.rec && r.board == MDelay(s.board, ms)
  {
    s.(board := MDelay(s.board, ms))
  }

  /** The power-on sequence, event by event. */
  const PowerOnWrites: seq<PinEvent> :=
    [Write(Reset, Low), Write(Power, High), Write(Reset, High), Delay(20), Write(Reset, Low)]

  /** The power-off sequence, event by event. */
  const PowerOffWrites: seq<PinEvent> :=
    [Write(Reset, High), Delay(10), Write(Power, Low), Write(Reset, Low)]

  /** myy_rfkill_bt_on. */
  function PowerOn(s: State): (r: State)
    ensures r.rec == s.rec && r.board.calls == s.board.calls
    ensures r.board.levels.wakeup == s.board.levels.wakeup
    ensures SequencerOnly(s.board.pins, r.board.pins)
    ensures s.Ready() ==> r.board.pins == s.board.pins + PowerOnWrites
    ensures s.Ready() ==> r.board.levels.power == High && r.board.levels.reset == Low
  {
    var s1 := SetValue(s, Reset, Low);
    var s2 := SetValue(s1, Power, High);
    var s3 := SetValue(s2, Reset, High);
    var s4 := Wait(s3, 20);
    SetValue(s4, Reset, Low)
  }

  /** myy_rfkill_bt_off. */
  function PowerOff(s: State): (r: State)
    ensures r.rec == s.rec && r.board.calls == s.board.calls
    ensures r.board.levels.wakeup == s.board.levels.wakeup
    ensures SequencerOnly(s.board.pins, r.board.pins)
    ensures s.Ready() ==> r.board.pins == s.board.pins + PowerOffWrites
    ensures s.Ready() ==> r.board.levels.power == Low && r.board.levels.reset == Low
  {
    var s1 := SetValue(s, Reset, High);
    var s2 := Wait(s1, 10);
    var s3 := SetValue(s2, Power, Low);
    SetValue(s3, Reset, Low)
  }

  // ---- The rfkill set_block callback

  /** The events one set_block call produces on a ready device. */
  function BlockWrites(blocked: bool): seq<PinEvent>
  {
    if blocked then PowerOffWrites else PowerOnWrites
  }

  /** The levels one set_block call leaves on a ready device. */
  function BlockLevels(blocked: bool, wakeup: Level): Levels
  {
    Levels(if blocked then Low else High, Low, wakeup)
  }

  /** myy_rfkill_bt_set_block: always 0, power-off when blocked, power-on
      when not. */
  function SetBlock(s: State, blocked: bool): (r: Returned)
    ensures r.ret == 0
    ensures r.state.rec == s.rec && r.state.board.calls == s.board.calls
    ensures r.state.board.levels.wakeup == s.board.levels.wakeup
    ensures SequencerOnly(s.board.pins, r.state.board.pins)
    ensures s.Ready() ==> r.state.board.pins == s.board.pins + BlockWrites(blocked)
    ensures s.Ready() ==> r.state.board.levels == BlockLevels(blocked, s.board.levels.wakeup)
  {
    if !blocked then Returned(0, PowerOn(s)) else Returned(0, PowerOff(s))
  }

  // ---- Attach

  /** devm_gpiod_get(..., GPIOD_OUT_HIGH) for line `p`: a found line is
      requested as an output and starts driven high. */
  function Request(b: Board, p: Pin, l: Lookup): (r: Board)
    ensures r.calls == b.calls
    ensures r.levels.At(p) == (if l.Found? then High else b.levels.At(p))
    ensures forall q :: q != p ==> r.levels.At(q) == b.levels.At(q)
    ensures r.pins == b.pins + (if l.Found? then [Requested(p)] else [])
  {
    if l.Found? then b.(levels := b.levels.With(p, High), pins := b.pins + [Requested(p)]) else b
  }

  /** find_the_bluetooth_gpios: request all three lines, store all three
      descriptors, fail with -ENOSYS if any is an error pointer. */
  function FindGpios(s: State, power: Lookup, reset: Lookup, wakeup: Lookup): (r: Returned)
    ensures r.ret == 0 <==> power.Found? && reset.Found? && wakeup.Found?
    ensures r.ret != 0 ==> r.ret == -ENOSYS
    ensures r.state.rec == s.rec.(power := Descriptor(power), reset := Descriptor(reset), wakeup := Descriptor(wakeup))
    ensures r.state.board.calls == s.board.calls
    ensures r.state.board.levels.power == if power.Found? then High else s.board.levels.power
    ensures r.state.board.levels.reset == if reset.Found? then High else s.board.levels.reset
    ensures r.state.board.levels.wakeup == if wakeup.Found? then High else s.board.levels.wakeup
    ensures r.state.board.pins == s.board.pins +
      (if power.Found? then [Requested(Power)] else []) +
      (if reset.Found? then [Requested(Reset)] else []) +
      (if wakeup.Found? then [Requested(Wakeup)] else [])
  {
    var b := Request(Request(Request(s.board, Power, power), Reset, reset), Wakeup, wakeup);
    var rec := s.rec.(power := Descriptor(power), reset := Descriptor(reset), wakeup := Descriptor(wakeup));
    var failed := IsErr(rec.power) || IsErr(rec.reset) || IsErr(rec.wakeup);
    Returned(if failed then -ENOSYS else 0, State(rec, b))
  }

  /** setup_the_rfkill_system, as written: `alloc` is what rfkill_alloc
      returns and `registerRet` what rfkill_register returns. */
  function SetupRfkill(s: State, alloc: Rfkill, registerRet: int): (r: Returned)
    ensures r.ret == 0 <==> alloc != NullRfkill && registerRet == 0
    ensures alloc == NullRfkill ==> r.ret == -ENOMEM
    ensures alloc != NullRfkill && registerRet != 0 ==> r.ret == registerRet
    ensures r.state.rec == if r.ret == 0 then s.rec.(rfkillSystem := alloc) else s.rec
    ensures r.state.board.calls == s.board.calls +
      (if alloc == NullRfkill then [RfkillAlloc, RfkillDestroy(NullRfkill)] else [RfkillAlloc, RfkillRegister(alloc)])
    ensures r.state.board.levels.wakeup == s.board.levels.wakeup
    ensures SequencerOnly(s.board.pins, r.state.board.pins)
    ensures r.ret == 0 ==> r.state.board.levels == s.board.levels && r.state.board.pins == s.board.pins
    ensures r.ret != 0 && s.Ready() ==> r.state.board.pins == s.board.pins + PowerOffWrites
    ensures r.ret != 0 && s.Ready() ==> r.state.board.levels.power == Low && r.state.board.levels.reset == Low
  {
    var afterAlloc := s.(board := s.board.(calls := s.board.calls + [RfkillAlloc]));
    if alloc == NullRfkill then
      // err_rfk_alloc: rfkill_destroy(NULL), then falls into err_rfkill
      var destroyed := afterAlloc.(board := afterAlloc.board.(calls := afterAlloc.board.calls + [RfkillDestroy(alloc)]));
      Returned(-ENOMEM, PowerOff(destroyed))
    else
      var registered := afterAlloc.(board := afterAlloc.board.(calls := afterAlloc.board.calls + [RfkillRegister(alloc)]));
      if registerRet != 0 then
        // err_rfkill: the afterAlloc handle is neither recorded nor destroyed
        Returned(registerRet, PowerOff(registered))
      else
        Returned(0, registered.(rec := registered.rec.(rfkillSystem := alloc)))
  }

  /** myy_bluetooth_probe: a zeroed record, then the lines, then rfkill only
      if all three lines were found; the first nonzero code is returned. */
  function Probe(board: Board, power: Lookup, reset: Lookup, wakeup: Lookup, alloc: Rfkill, registerRet: int): (r: Returned)
    ensures r.ret == 0 <==> power.Found? && reset.Found? && wakeup.Found? && alloc != NullRfkill && registerRet == 0
    ensures !(power.Found? && reset.Found? && wakeup.Found?) ==>
      r.ret == -ENOSYS && r.state.board.calls == board.calls && r.state.rec.rfkillSystem == NullRfkill
    ensures power.Found? && reset.Found? && wakeup.Found? && alloc == NullRfkill ==> r.ret == -ENOMEM
    ensures power.Found? && reset.Found? && wakeup.Found? && alloc != NullRfkill && registerRet != 0 ==> r.ret == registerRet
    ensures r.state.rec.rfkillSystem != NullRfkill ==>
      r.ret == 0 && r.state.rec.power.Acquired? && r.state.rec.reset.Acquired? && r.state.rec.wakeup.Acquired?
    ensures r.ret == 0 ==> r.state.rec.rfkillSystem == alloc && r.state.board.levels == Levels(High, High, High)
  {
    var found := FindGpios(State(ZeroRecord, board), power, reset, wakeup);
    if found.ret != 0 then found else SetupRfkill(found.state, alloc, registerRet)
  }

  // ---- Detach

  /** The gpiod_put calls of myy_bluetooth_remove as written: the reset
      guard releases the power descriptor. */
  function RemovePuts(rec: Record): seq<KernelCall>
  {
    (if !IsErr(rec.power) then [GpiodPut(Power, rec.power)] else []) +
    (if !IsErr(rec.reset) then [GpiodPut(Power, rec.power)] else []) +
    (if !IsErr(rec.wakeup) then [GpiodPut(Wakeup, rec.wakeup)] else [])
  }

  /** myy_bluetooth_remove, as written. */
  function Remove(s: State): (r: Returned)
    ensures r.ret == 0 && r.state.rec == s.rec
    ensures s.board.calls <= r.state.board.calls
    ensures RfkillDestroy(s.rec.rfkillSystem) in r.state.board.calls[|s.board.calls|..] <==> s.rec.rfkillSystem != NullRfkill
    ensures s.rec.rfkillSystem == NullRfkill ==> r.state.board.levels == s.board.levels && r.state.board.pins == s.board.pins
    ensures s.rec.rfkillSystem != NullRfkill && s.Ready() ==> r.state.board.pins == s.board.pins + PowerOffWrites
    ensures s.rec.rfkillSystem != NullRfkill && s.Ready() ==>
      r.state.board.levels.power == Low && r.state.board.levels.reset == Low
  {
    var put := s.(board := s.board.(calls := s.board.calls + RemovePuts(s.rec)));
    if s.rec.rfkillSystem != NullRfkill then
      var destroyed := put.(board := put.board.(calls := put.board.calls + [RfkillDestroy(s.rec.rfkillSystem)]));
      assert destroyed.board.calls[|s.board.calls|..] == RemovePuts(s.rec) + [RfkillDestroy(s.rec.rfkillSystem)];
      Returned(0, PowerOff(destroyed))
    else
      Returned(0, put)
  }
}
