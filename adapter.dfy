/** The block-state adapter over time: the rfkill core calls set_block one
    call after another (it serialises them per device), and each call runs one
    of the two pin sequences. */
module Adapter {
  import opened Kernel
  import opened Driver

  /** The state after the rfkill core has called set_block once for each
      entry of `blocked`, in order. */
  function ApplyBlocks(s: State, blocked: seq<bool>): (r: State)
    ensures r.rec == s.rec && r.board.calls == s.board.calls
    ensures SequencerOnly(s.board.pins, r.board.pins)
    decreases |blocked|
  {
    if blocked == [] then s else ApplyBlocks(SetBlock(s, blocked[0]).state, blocked[1..])
  }

  /** The pin events a ready device should show for those calls: each call's
      own sequence, in call order, none skipped. */
  function BlockTrace(blocked: seq<bool>): seq<PinEvent>
    decreases |blocked|
  {
    if blocked == [] then [] else BlockWrites(blocked[0]) + BlockTrace(blocked[1..])
  }

  /** Every set_block call runs exactly its own sequence, in call order. */
  lemma {:induction false} BlockSequenceTrace(s: State, blocked: seq<bool>)
    requires s.Ready()
    ensures ApplyBlocks(s, blocked).board.pins == s.board.pins + BlockTrace(blocked)
    decreases |blocked|
  {
    if blocked != [] {
      var next := SetBlock(s, blocked[0]).state;
      BlockSequenceTrace(next, blocked[1..]);
      assert ApplyBlocks(s, blocked) == ApplyBlocks(next, blocked[1..]);
      assert next.board.pins == s.board.pins + BlockWrites(blocked[0]);
      assert BlockTrace(blocked) == BlockWrites(blocked[0]) + BlockTrace(blocked[1..]);
    }
  }

  /** Whatever the history of calls, the last one alone decides the levels:
      power follows the last `blocked` flag, reset ends low, wakeup is never
      touched. */
  lemma {:induction false} LastBlockDecides(s: State, blocked: seq<bool>)
    requires s.Ready() && |blocked| > 0
    ensures ApplyBlocks(s, blocked).board.levels == BlockLevels(blocked[|blocked| - 1], s.board.levels.wakeup)
    decreases |blocked|
  {
    var next := SetBlock(s, blocked[0]).state;
    if |blocked| > 1 {
      LastBlockDecides(next, blocked[1..]);
      assert blocked[1..][|blocked[1..]| - 1] == blocked[|blocked| - 1];
    }
  }

  /** Blocking, unblocking and blocking again runs power-off, power-on and
      power-off, in that order, with nothing skipped or added. */
  lemma OffOnOff(s: State)
    requires s.Ready()
    ensures ApplyBlocks(s, [true, false, true]).board.pins ==
      s.board.pins + PowerOffWrites + PowerOnWrites + PowerOffWrites
  {
    BlockSequenceTrace(s, [true, false, true]);
    assert [true, false, true][1..] == [false, true];
    assert [false, true][1..] == [true];
  }

  /** After a successful attach every line is still driven high, which is the
      end state of neither sequence: the first set_block call is what puts the
      chip into a defined state. */
  lemma AttachLeavesChipUndefined(board: Board, alloc: Rfkill, blocked: bool)
    requires alloc != NullRfkill
    ensures var attached := Probe(board, Found, Found, Found, alloc, 0);
      attached.ret == 0 &&
      attached.state.board.levels == Levels(High, High, High) &&
      attached.state.board.levels != BlockLevels(false, High) &&
      attached.state.board.levels != BlockLevels(true, High) &&
      SetBlock(attached.state, blocked).state.board.levels == BlockLevels(blocked, High)
  {
  }
}
