/** Three defects of bt-gpio-rfkill.c, each shown on the code as written and
    paired with a corrected definition whose intended property is proved:
    myy_bluetooth_remove releases the power descriptor under the reset guard,
    it destroys the rfkill handle without unregistering it first, and
    setup_the_rfkill_system never destroys a handle whose registration
    failed. */
module Findings {
  import opened Kernel
  import opened Driver

  // ---- Releasing the lines on detach

  /** How many gpiod_put calls in `cs` release the descriptor of line `p`. */
  function Puts(cs: seq<KernelCall>, p: Pin): nat
    decreases |cs|
  {
    if cs == [] then 0
    else (if cs[0].GpiodPut? && cs[0].line == p then 1 else 0) + Puts(cs[1..], p)
  }

  lemma {:induction false} PutsAppend(a: seq<KernelCall>, b: seq<KernelCall>, p: Pin)
    ensures Puts(a + b, p) == Puts(a, p) + Puts(b, p)
    decreases |a|
  {
    if a == [] {
      assert a + b == b;
    } else {
      PutsAppend(a[1..], b, p);
      assert (a + b)[0] == a[0];
      assert (a + b)[1..] == a[1..] + b;
    }
  }

  /** The calls made between state `s` and state `r`. */
  function Added(s: State, r: State): seq<KernelCall>
    requires s.board.calls <= r.board.calls
  {
    r.board.calls[|s.board.calls|..]
  }

  /** What remove's guards promise: every line whose descriptor is not an
      error pointer is released exactly once, no other line is released, and
      no error pointer is handed to gpiod_put. A release is counted for the
      record field its descriptor is read from. */
  ghost predicate ReleasesEachValidLineOnce(s: State, r: State)
  {
    s.board.calls <= r.board.calls &&
    (forall p :: Puts(Added(s, r), p) == if IsErr(s.rec.Line(p)) then 0 else 1) &&
    (forall c | c in Added(s, r) && c.GpiodPut? :: c.desc == s.rec.Line(c.line) && !IsErr(c.desc))
  }

  /** As written: with all three lines held (the state every successful probe
      leaves), the power descriptor is released twice, the reset one never and
      the wakeup one once. */
  lemma RemoveReleasesPowerTwice(s: State)
    requires s.rec.power.Acquired? && s.rec.reset.Acquired? && s.rec.wakeup.Acquired?
    ensures var r := Remove(s).state;
      Puts(Added(s, r), Power) == 2 && Puts(Added(s, r), Reset) == 0 && Puts(Added(s, r), Wakeup) == 1 &&
      !ReleasesEachValidLineOnce(s, r)
  {
    var r := Remove(s).state;
    var puts := [GpiodPut(Power, s.rec.power), GpiodPut(Power, s.rec.power), GpiodPut(Wakeup, s.rec.wakeup)];
    assert RemovePuts(s.rec) == puts;
    assert puts[1..][1..][1..] == [];
    assert Puts(puts[1..][1..], Power) == 0 && Puts(puts[1..][1..], Reset) == 0 && Puts(puts[1..][1..], Wakeup) == 1;
    assert Puts(puts[1..], Power) == 1 && Puts(puts[1..], Reset) == 0 && Puts(puts[1..], Wakeup) == 1;
    assert Puts(puts, Power) == 2 && Puts(puts, Reset) == 0 && Puts(puts, Wakeup) == 1;
    if s.rec.rfkillSystem != NullRfkill {
      assert Added(s, r) == puts + [RfkillDestroy(s.rec.rfkillSystem)];
      PutsAppend(puts, [RfkillDestroy(s.rec.rfkillSystem)], Power);
      PutsAppend(puts, [RfkillDestroy(s.rec.rfkillSystem)], Reset);
      PutsAppend(puts, [RfkillDestroy(s.rec.rfkillSystem)], Wakeup);
    } else {
      assert Added(s, r) == puts;
    }
  }

  /** As written: when only the power lookup failed, remove hands the power
      line's error pointer to gpiod_put. Such a record exists only after a
      failed probe, after which the platform bus does not call remove. */
  lemma RemovePutsErrorPointer(s: State)
    requires IsErr(s.rec.power) && !IsErr(s.rec.reset)
    ensures GpiodPut(Power, s.rec.power) in Added(s, Remove(s).state)
    ensures !ReleasesEachValidLineOnce(s, Remove(s).state)
  {
    var r := Remove(s).state;
    assert Added(s, r)[0] == GpiodPut(Power, s.rec.power);
  }

  /** remove's gpiod_put calls as evidently intended: each guard releases the
      descriptor it checks. */
  function RemovePutsFixed(rec: Record): seq<KernelCall>
  {
    (if !IsErr(rec.power) then [GpiodPut(Power, rec.power)] else []) +
    (if !IsErr(rec.reset) then [GpiodPut(Reset, rec.reset)] else []) +
    (if !IsErr(rec.wakeup) then [GpiodPut(Wakeup, rec.wakeup)] else [])
  }

  /** myy_bluetooth_remove with line 313 corrected and the recorded handle
      unregistered before it is destroyed; everything else as written. */
  function RemoveFixed(s: State): (r: Returned)
    ensures r.ret == 0 && r.state.rec == s.rec
    ensures r.state.board.levels == Remove(s).state.board.levels
    ensures r.state.board.pins == Remove(s).state.board.pins
    ensures s.board.calls <= r.state.board.calls
  {
    var put := s.(board := s.board.(calls := s.board.calls + RemovePutsFixed(s.rec)));
    var h := s.rec.rfkillSystem;
    if h != NullRfkill then
      Returned(0, PowerOff(put.(board := put.board.(calls := put.board.calls + [RfkillUnregister(h), RfkillDestroy(h)]))))
    else
      Returned(0, put)
  }

  lemma PutsFixed(rec: Record, p: Pin)
    ensures Puts(RemovePutsFixed(rec), p) == if IsErr(rec.Line(p)) then 0 else 1
  {
    var a := if !IsErr(rec.power) then [GpiodPut(Power, rec.power)] else [];
    var b := if !IsErr(rec.reset) then [GpiodPut(Reset, rec.reset)] else [];
    var c := if !IsErr(rec.wakeup) then [GpiodPut(Wakeup, rec.wakeup)] else [];
    PutsAppend(a + b, c, p);
    PutsAppend(a, b, p);
  }

  /** The calls the corrected remove adds: its releases, then the teardown. */
  lemma RemoveFixedAdds(s: State)
    ensures Added(s, RemoveFixed(s).state) == RemovePutsFixed(s.rec) + TeardownCalls(s.rec.rfkillSystem)
  {
  }

  /** rfkill_unregister then rfkill_destroy of a recorded handle. */
  function TeardownCalls(h: Rfkill): seq<KernelCall>
  {
    if h != NullRfkill then [RfkillUnregister(h), RfkillDestroy(h)] else []
  }

  lemma TeardownReleasesNothing(h: Rfkill, p: Pin)
    ensures Puts(TeardownCalls(h), p) == 0
  {
    if h != NullRfkill {
      var tail := TeardownCalls(h);
      assert tail[1..][1..] == [];
      assert Puts(tail[1..], p) == 0;
    }
  }

  /** The corrected releases are gpiod_put calls and nothing else. */
  lemma PutsFixedOnlyPuts(rec: Record, c: KernelCall)
    requires c in RemovePutsFixed(rec)
    ensures c.GpiodPut?
  {
  }

  lemma PutsFixedDescriptors(rec: Record, c: KernelCall)
    requires c in RemovePutsFixed(rec) && c.GpiodPut?
    ensures c.desc == rec.Line(c.line) && !IsErr(c.desc)
  {
  }

  /** Corrected: every valid line released exactly once, no invalid one. */
  lemma RemoveFixedReleasesEachValidLineOnce(s: State)
    ensures ReleasesEachValidLineOnce(s, RemoveFixed(s).state)
  {
    var r := RemoveFixed(s).state;
    var tail := TeardownCalls(s.rec.rfkillSystem);
    RemoveFixedAdds(s);
    forall p
      ensures Puts(Added(s, r), p) == if IsErr(s.rec.Line(p)) then 0 else 1
    {
      PutsAppend(RemovePutsFixed(s.rec), tail, p);
      PutsFixed(s.rec, p);
      TeardownReleasesNothing(s.rec.rfkillSystem, p);
    }
    forall c | c in Added(s, r) && c.GpiodPut?
      ensures c.desc == s.rec.Line(c.line) && !IsErr(c.desc)
    {
      assert c !in tail;
      PutsFixedDescriptors(s.rec, c);
    }
  }

  /** What the rfkill core asks of a driver that tears down a registered
      handle: rfkill_unregister is called on it before rfkill_destroy. */
  ghost predicate UnregistersBeforeDestroy(calls: seq<KernelCall>, h: Rfkill)
  {
    exists i, j | 0 <= i < j < |calls| :: calls[i] == RfkillUnregister(h) && calls[j] == RfkillDestroy(h)
  }

  /** As written: after a successful probe, remove destroys the registered
      handle but never unregisters it. */
  lemma RemoveNeverUnregisters(board: Board, alloc: Rfkill)
    requires alloc != NullRfkill
    ensures var attached := Probe(board, Found, Found, Found, alloc, 0).state;
      var added := Added(attached, Remove(attached).state);
      attached.rec.rfkillSystem == alloc &&
      RfkillDestroy(alloc) in added &&
      RfkillUnregister(alloc) !in added &&
      !UnregistersBeforeDestroy(added, alloc)
  {
    var attached := Probe(board, Found, Found, Found, alloc, 0).state;
    var added := Added(attached, Remove(attached).state);
    assert added == RemovePuts(attached.rec) + [RfkillDestroy(alloc)];
  }

  /** Corrected: remove unregisters the recorded handle and only then destroys
      it, and with no handle recorded it does neither. */
  lemma RemoveFixedUnregistersBeforeDestroy(s: State)
    ensures var added := Added(s, RemoveFixed(s).state);
      (s.rec.rfkillSystem != NullRfkill <==> UnregistersBeforeDestroy(added, s.rec.rfkillSystem)) &&
      forall c | c in added :: (c.RfkillUnregister? || c.RfkillDestroy?) ==> c.handle == s.rec.rfkillSystem
  {
    var added := Added(s, RemoveFixed(s).state);
    var puts := RemovePutsFixed(s.rec);
    var h := s.rec.rfkillSystem;
    RemoveFixedAdds(s);
    forall c | c in added
      ensures (c.RfkillUnregister? || c.RfkillDestroy?) ==> c.handle == h
    {
      if c in puts {
        PutsFixedOnlyPuts(s.rec, c);
      }
    }
    if h != NullRfkill {
      assert added[|puts|] == RfkillUnregister(h);
      assert added[|puts| + 1] == RfkillDestroy(h);
    } else {
      assert added == puts;
      forall i | 0 <= i < |added|
        ensures added[i] != RfkillUnregister(h)
      {
        PutsFixedOnlyPuts(s.rec, added[i]);
      }
    }
  }

  // ---- Setting up rfkill on attach

  /** What the setup owes the handle rfkill_alloc gave it: it ends up either
      recorded or destroyed, exactly one of the two, and rfkill_destroy is
      never asked to destroy NULL. */
  ghost predicate NoHandleLeak(s: State, alloc: Rfkill, r: State)
  {
    s.board.calls <= r.board.calls &&
    (alloc != NullRfkill ==> ((r.rec.rfkillSystem == alloc) <==> RfkillDestroy(alloc) !in Added(s, r))) &&
    RfkillDestroy(NullRfkill) !in Added(s, r)
  }

  /** As written: when rfkill_register fails, the allocated handle is neither
      recorded nor destroyed. */
  lemma SetupLeaksOnRegisterFailure(s: State, id: nat, registerRet: int)
    requires s.rec.rfkillSystem == NullRfkill && registerRet != 0
    ensures var r := SetupRfkill(s, RfkillAt(id), registerRet).state;
      r.rec.rfkillSystem == NullRfkill &&
      RfkillDestroy(RfkillAt(id)) !in Added(s, r) &&
      !NoHandleLeak(s, RfkillAt(id), r)
  {
    var r := SetupRfkill(s, RfkillAt(id), registerRet).state;
    assert Added(s, r) == [RfkillAlloc, RfkillRegister(RfkillAt(id))];
  }

  /** As written: when rfkill_alloc fails, rfkill_destroy is called on NULL. */
  lemma SetupDestroysNullOnAllocFailure(s: State, registerRet: int)
    ensures RfkillDestroy(NullRfkill) in Added(s, SetupRfkill(s, NullRfkill, registerRet).state)
  {
    assert Added(s, SetupRfkill(s, NullRfkill, registerRet).state)[1] == RfkillDestroy(NullRfkill);
  }

  /** setup_the_rfkill_system with its two error labels in the evident order:
      a failed registration destroys its handle, a failed allocation has
      nothing to destroy; both still power the chip off. */
  function SetupRfkillFixed(s: State, alloc: Rfkill, registerRet: int): (r: Returned)
    ensures r.ret == SetupRfkill(s, alloc, registerRet).ret
    ensures r.state.rec == SetupRfkill(s, alloc, registerRet).state.rec
    ensures r.state.board.levels == SetupRfkill(s, alloc, registerRet).state.board.levels
    ensures r.state.board.pins == SetupRfkill(s, alloc, registerRet).state.board.pins
  {
    var afterAlloc := s.(board := s.board.(calls := s.board.calls + [RfkillAlloc]));
    if alloc == NullRfkill then
      Returned(-ENOMEM, PowerOff(afterAlloc))
    else
      var registered := afterAlloc.(board := afterAlloc.board.(calls := afterAlloc.board.calls + [RfkillRegister(alloc)]));
      if registerRet != 0 then
        var destroyed := registered.(board := registered.board.(calls := registered.board.calls + [RfkillDestroy(alloc)]));
        Returned(registerRet, PowerOff(destroyed))
      else
        Returned(0, registered.(rec := registered.rec.(rfkillSystem := alloc)))
  }

  /** Corrected: starting from the zeroed record field, no handle leaks. */
  lemma SetupRfkillFixedNoLeak(s: State, alloc: Rfkill, registerRet: int)
    requires s.rec.rfkillSystem == NullRfkill
    ensures NoHandleLeak(s, alloc, SetupRfkillFixed(s, alloc, registerRet).state)
  {
    var r := SetupRfkillFixed(s, alloc, registerRet).state;
    if alloc == NullRfkill {
      assert Added(s, r) == [RfkillAlloc];
    } else if registerRet != 0 {
      assert Added(s, r) == [RfkillAlloc, RfkillRegister(alloc), RfkillDestroy(alloc)];
    } else {
      assert Added(s, r) == [RfkillAlloc, RfkillRegister(alloc)];
    }
  }

  // ---- Attach then detach, corrected

  /** myy_bluetooth_probe using the corrected setup. */
  function ProbeFixed(board: Board, power: Lookup, reset: Lookup, wakeup: Lookup, alloc: Rfkill, registerRet: int): (r: Returned)
    ensures r.ret == Probe(board, power, reset, wakeup, alloc, registerRet).ret
    ensures r.state.rec == Probe(board, power, reset, wakeup, alloc, registerRet).state.rec
  {
    var found := FindGpios(State(ZeroRecord, board), power, reset, wakeup);
    if found.ret != 0 then found else SetupRfkillFixed(found.state, alloc, registerRet)
  }

  /** With all corrections, a successful attach followed by detach releases
      each of the three lines exactly once, unregisters and then destroys the
      rfkill handle, and leaves the chip powered off. */
  lemma AttachDetachFixed(board: Board, alloc: Rfkill)
    requires alloc != NullRfkill
    ensures var attached := ProbeFixed(board, Found, Found, Found, alloc, 0).state;
      var detached := RemoveFixed(attached).state;
      attached.board.calls <= detached.board.calls &&
      (forall p :: Puts(Added(attached, detached), p) == 1) &&
      UnregistersBeforeDestroy(Added(attached, detached), alloc) &&
      detached.board.levels == Levels(Low, Low, High)
  {
    var attached := ProbeFixed(board, Found, Found, Found, alloc, 0).state;
    var detached := RemoveFixed(attached).state;
    RemoveFixedReleasesEachValidLineOnce(attached);
    assert Added(attached, detached)[3] == RfkillUnregister(alloc);
    assert Added(attached, detached)[4] == RfkillDestroy(alloc);
  }
}
