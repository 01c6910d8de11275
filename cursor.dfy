/** The cursor of a buffer: a column and a line on the screen, both `u16`. */
module Cursors {
  import opened Common

  /** A cursor position as a value: what `Cursor::position` hands to the terminal. */
  datatype Pos = Pos(col: u16, line: u16)

  const Origin := Pos(0, 0)

  /** `move_up`: the line decreases by `count`, unless it is already 0. A larger
      `count` than the line would underflow the `u16`, hence the precondition. */
  function Up(p: Pos, count: u16): (r: Pos)
    requires p.line != 0 ==> count <= p.line
    ensures r.col == p.col && r.line <= p.line
    ensures p.line == 0 ==> r == p
    ensures p.line != 0 ==> p.line - r.line == count
  {
    if p.line != 0 then p.(line := p.line - count) else p
  }

  /** `move_down`: the line increases by exactly `count`; past 65535 it overflows. */
  function Down(p: Pos, count: u16): (r: Pos)
    requires p.line as int + count as int <= U16_MAX as int
    ensures r.col == p.col && r.line >= p.line
    ensures r.line - p.line == count
  {
    p.(line := p.line + count)
  }

  /** `move_left`: the column decreases by `count`, unless it is already 0. */
  function Left(p: Pos, count: u16): (r: Pos)
    requires p.col != 0 ==> count <= p.col
    ensures r.line == p.line && r.col <= p.col
    ensures p.col == 0 ==> r == p
    ensures p.col != 0 ==> p.col - r.col == count
  {
    if p.col != 0 then p.(col := p.col - count) else p
  }

  /** `move_right`: the column increases by exactly `count`; past 65535 it overflows. */
  function Right(p: Pos, count: u16): (r: Pos)
    requires p.col as int + count as int <= U16_MAX as int
    ensures r.line == p.line && r.col >= p.col
    ensures r.col - p.col == count
  {
    p.(col := p.col + count)
  }

  /** Moving down and then up by the same count restores the position. */
  lemma DownThenUp(p: Pos, count: u16)
    requires p.line as int + count as int <= U16_MAX as int
    ensures Up(Down(p, count), count) == p
  {
  }

  /** From a line other than 0, moving up and then down by the same count restores the position. */
  lemma UpThenDown(p: Pos, count: u16)
    requires p.line != 0 && count <= p.line
    ensures Down(Up(p, count), count) == p
  {
  }

  /** Moving right and then left by the same count restores the position. */
  lemma RightThenLeft(p: Pos, count: u16)
    requires p.col as int + count as int <= U16_MAX as int
    ensures Left(Right(p, count), count) == p
  {
  }

  /** From a column other than 0, moving left and then right by the same count restores the position. */
  lemma LeftThenRight(p: Pos, count: u16)
    requires p.col != 0 && count <= p.col
    ensures Right(Left(p, count), count) == p
  {
  }

  /** A one-unit move towards the origin, as the key bindings issue them. */
  datatype Retreat = StepUp | StepLeft

  /** The position after the one-unit moves of `steps`, in order. */
  function RetreatAll(p: Pos, steps: seq<Retreat>): Pos
    decreases |steps|
  {
    if steps == [] then p
    else
      var q := if steps[0] == StepUp then Up(p, 1) else Left(p, 1);
      RetreatAll(q, steps[1..])
  }

  /** Subtraction that stops at 0: what a coordinate becomes after `k` one-unit moves towards 0. */
  function Clamped(x: u16, k: nat): u16
  {
    if k <= x as int then (x as int - k) as u16 else 0
  }

  /** No sequence of up and left moves takes a coordinate below 0: each coordinate
      goes down by the number of moves in its direction and stops at 0. */
  lemma {:induction false} RetreatClamps(p: Pos, steps: seq<Retreat>)
    ensures RetreatAll(p, steps).line == Clamped(p.line, multiset(steps)[StepUp])
    ensures RetreatAll(p, steps).col == Clamped(p.col, multiset(steps)[StepLeft])
    decreases |steps|
  {
    if steps != [] {
      assert steps == [steps[0]] + steps[1..];
      var q := if steps[0] == StepUp then Up(p, 1) else Left(p, 1);
      RetreatClamps(q, steps[1..]);
    }
  }

  /** From the origin, up and left moves are all no-ops. */
  lemma RetreatFromOrigin(steps: seq<Retreat>)
    ensures RetreatAll(Origin, steps) == Origin
  {
  }

  /** `Cursor`, updated in place through `&mut self`. */
  class Cursor {
    var col: u16
    var line: u16

    /** `Cursor::new`: the derived `Default` puts both coordinates at 0. */
    constructor ()
      ensures Position() == Origin
    {
      col, line := 0, 0;
    }

    /** `position`: the column and the line, in that order. */
    function Position(): (p: Pos)
      reads this
      ensures p.col == col && p.line == line
    {
      Pos(col, line)
    }

    method SetCol(c: u16)
      modifies this
      ensures col == c && line == old(line)
    {
      col := c;
    }

    method SetLine(l: u16)
      modifies this
      ensures line == l && col == old(col)
    {
      line := l;
    }

    method MoveUp(count: u16)
      requires line != 0 ==> count <= line
      modifies this
      ensures Position() == Up(old(Position()), count)
    {
      if line != 0 {
        line := line - count;
      }
    }

    method MoveDown(count: u16)
      requires line as int + count as int <= U16_MAX as int
      modifies this
      ensures Position() == Down(old(Position()), count)
    {
      line := line + count;
    }

    method MoveLeft(count: u16)
      requires col != 0 ==> count <= col
      modifies this
      ensures Position() == Left(old(Position()), count)
    {
      if col != 0 {
        col := col - count;
      }
    }

    method MoveRight(count: u16)
      requires col as int + count as int <= U16_MAX as int
      modifies this
      ensures Position() == Right(old(Position()), count)
    {
      col := col + count;
    }
  }
}
