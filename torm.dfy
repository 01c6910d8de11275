/** The application loop: it receives events in order and turns each into a change of
    the exit flag or of the buffer's cursor, until the exit flag is set. */
module TormApp {
  import opened Common
  import Cursors
  import opened Buffers
  import opened Events

  /** The terminal's answers to the calls the loop makes on it, one per kind of call:
      `restore`, `ui::draw`, `show_cursor`, `set_cursor_position`. */
  datatype Terminal = Terminal(restoreOk: bool, drawOk: bool, showCursorOk: bool, setCursorOk: bool)

  /** The part of the state that events change: the exit flag and the buffer's cursor. */
  datatype AppView = AppView(exit: bool, cursor: Cursors.Pos)

  /** What a key does: the fixed binding table of `keypress`. */
  datatype Action = Quit | MoveUp | MoveDown | MoveLeft | MoveRight | Ignore

  /** `keypress` looks at the key code only: Esc quits; the arrows and h, j, k, l move. */
  function KeyAction(code: KeyCode): (a: Action)
    ensures a == Quit <==> code == Esc
    ensures a == MoveUp <==> code == KeyCode.Up || code == Char('k')
    ensures a == MoveDown <==> code == KeyCode.Down || code == Char('j')
    ensures a == MoveLeft <==> code == KeyCode.Left || code == Char('h')
    ensures a == MoveRight <==> code == KeyCode.Right || code == Char('l')
  {
    match code
    case Esc => Quit
    case Up => MoveUp
    case Char('k') => MoveUp
    case Down => MoveDown
    case Char('j') => MoveDown
    case Left => MoveLeft
    case Char('h') => MoveLeft
    case Right => MoveRight
    case Char('l') => MoveRight
    case _ => Ignore
  }

  /** The state after one event, and the error that ends the loop, if any. */
  datatype Dispatched = Dispatched(next: AppView, error: Option<TormError>)

  /** `set_cursor_position` after a move. Whether it fails does not depend on the position. */
  function SetCursorPosition(t: Terminal): Option<TormError>
  {
    if t.setCursorOk then None else Some(SetCursorFailed)
  }

  /** `tick`: draw a frame, then show the cursor; the state is only read. */
  function TickOutcome(t: Terminal): (err: Option<TormError>)
    ensures err == None <==> t.drawOk && t.showCursorOk
    ensures !t.drawOk ==> err == Some(DrawFailed)
    ensures t.drawOk && !t.showCursorOk ==> err == Some(ShowCursorFailed)
  {
    if !t.drawOk then Some(DrawFailed)
    else if !t.showCursorOk then Some(ShowCursorFailed)
    else None
  }

  /** `exit`: the flag is set only once `restore` has succeeded; otherwise its error is returned. */
  function ExitOutcome(s: AppView, t: Terminal): (d: Dispatched)
    ensures d.next.cursor == s.cursor
    ensures d.error == None <==> t.restoreOk
    ensures t.restoreOk ==> d.next.exit
    ensures !t.restoreOk ==> d.next == s && d.error == Some(RestoreFailed)
  {
    if t.restoreOk then Dispatched(s.(exit := true), None) else Dispatched(s, Some(RestoreFailed))
  }

  /** A cursor move, then `set_cursor_position`: the move stays even when that call fails. */
  function Moved(s: AppView, p: Cursors.Pos, t: Terminal): Dispatched
  {
    Dispatched(s.(cursor := p), SetCursorPosition(t))
  }

  /** `keypress`, with every move one unit. A move past 65535 overflows the `u16`. */
  function KeypressOutcome(s: AppView, key: KeyEvent, t: Terminal): (d: Dispatched)
    ensures KeyAction(key.code) == Quit ==> d == ExitOutcome(s, t)
    ensures KeyAction(key.code) != Quit ==> d.next.exit == s.exit
    ensures KeyAction(key.code) == Ignore ==> d == Dispatched(s, None)
    ensures d.error == Some(ArithmeticOverflow) <==>
      (KeyAction(key.code) == MoveDown && s.cursor.line == U16_MAX) ||
      (KeyAction(key.code) == MoveRight && s.cursor.col == U16_MAX)
    ensures d.error == Some(ArithmeticOverflow) ==> d.next == s
    ensures KeyAction(key.code) in {MoveUp, MoveDown, MoveLeft, MoveRight} && d.error != Some(ArithmeticOverflow) ==>
      (d.error == None <==> t.setCursorOk)
  {
    var p := s.cursor;
    match KeyAction(key.code)
    case Quit => ExitOutcome(s, t)
    case MoveUp => Moved(s, Cursors.Up(p, 1), t)
    case MoveDown =>
      if p.line == U16_MAX then Dispatched(s, Some(ArithmeticOverflow)) else Moved(s, Cursors.Down(p, 1), t)
    case MoveLeft => Moved(s, Cursors.Left(p, 1), t)
    case MoveRight =>
      if p.col == U16_MAX then Dispatched(s, Some(ArithmeticOverflow)) else Moved(s, Cursors.Right(p, 1), t)
    case Ignore => Dispatched(s, None)
  }

  /** One iteration of the loop in `start`, for an event it received. */
  function Dispatch(s: AppView, e: TormEvent, t: Terminal): (d: Dispatched)
    ensures e.Tick? ==> d == Dispatched(s, TickOutcome(t))
    ensures e.MouseClick? ==> d == Dispatched(s, None)
    ensures e.KeyPress? ==> d == KeypressOutcome(s, e.key, t)
  {
    match e
    case Tick => Dispatched(s, TickOutcome(t))
    case KeyPress(key) => KeypressOutcome(s, key, t)
    case MouseClick(_, _) => Dispatched(s, None)
  }

  /** How `start` ends: the exit flag was set, an error was returned, or it is still
      awaiting the next event. */
  datatype Stop = Exited | Failed(error: TormError) | Waiting

  datatype RunResult = RunResult(final: AppView, rest: Channel, stop: Stop)

  /** The loop of `start`: while the exit flag is clear, receive and dispatch. */
  function Run(s: AppView, ch: Channel, t: Terminal): (r: RunResult)
    ensures r.rest.closed == ch.closed && |r.rest.queue| <= |ch.queue|
    ensures s.exit ==> r == RunResult(s, ch, Exited)
    ensures r.stop == Waiting ==> r.rest.queue == [] && !ch.closed
    decreases |ch.queue|
  {
    if s.exit then RunResult(s, ch, Exited)
    else
      var (poll, rest) := Recv(ch);
      match poll
      case Pending => RunResult(s, rest, Waiting)
      case Ready(Err(e)) => RunResult(s, rest, Failed(e))
      case Ready(Ok(e)) =>
        var d := Dispatch(s, e, t);
        if d.error.Some? then RunResult(d.next, rest, Failed(d.error.value)) else Run(d.next, rest, t)
  }

  // ---- One event ----

  /** The exit flag never goes back to false, and only a successful Esc sets it; an
      event that fails leaves the flag as it was. */
  lemma ExitOnlyByEsc(s: AppView, e: TormEvent, t: Terminal)
    ensures s.exit ==> Dispatch(s, e, t).next.exit
    ensures !s.exit && Dispatch(s, e, t).next.exit <==> !s.exit && e.KeyPress? && e.key.code == Esc && t.restoreOk
    ensures Dispatch(s, e, t).error.Some? ==> Dispatch(s, e, t).next.exit == s.exit
  {
  }

  /** Key events with the same code do the same thing, whatever their modifiers. */
  lemma ModifiersIgnored(s: AppView, k1: KeyEvent, k2: KeyEvent, t: Terminal)
    requires k1.code == k2.code
    ensures Dispatch(s, KeyPress(k1), t) == Dispatch(s, KeyPress(k2), t)
  {
  }

  /** Ticks, mouse clicks and unbound keys leave the state alone; only the tick can fail. */
  lemma OtherEventsKeepState(s: AppView, e: TormEvent, t: Terminal)
    requires !e.KeyPress? || KeyAction(e.key.code) == Ignore
    ensures Dispatch(s, e, t).next == s
    ensures !e.Tick? ==> Dispatch(s, e, t).error == None
  {
  }

  /** Each navigation key moves the cursor by one unit in its direction. */
  lemma NavigationMovesOneUnit(s: AppView, key: KeyEvent, t: Terminal)
    requires KeyAction(key.code) in {MoveUp, MoveDown, MoveLeft, MoveRight}
    ensures var d := Dispatch(s, KeyPress(key), t);
      d.next.exit == s.exit &&
      (d.error != Some(ArithmeticOverflow) ==>
        match KeyAction(key.code)
        case MoveUp => d.next.cursor == Cursors.Up(s.cursor, 1)
        case MoveDown => d.next.cursor == Cursors.Down(s.cursor, 1)
        case MoveLeft => d.next.cursor == Cursors.Left(s.cursor, 1)
        case MoveRight => d.next.cursor == Cursors.Right(s.cursor, 1)
        case _ => false)
  {
  }

  // ---- The whole loop ----

  /** The loop consumes a prefix of the queue and leaves the rest; it has exited exactly
      when the flag is set; it waits only on an empty open channel and fails to receive
      only on an empty closed one; from an exited state it does nothing at all. */
  lemma {:induction false} RunShape(s: AppView, ch: Channel, t: Terminal)
    ensures var r := Run(s, ch, t);
      r.rest.closed == ch.closed &&
      |r.rest.queue| <= |ch.queue| && r.rest.queue == ch.queue[|ch.queue| - |r.rest.queue|..] &&
      (r.stop == Exited <==> r.final.exit) &&
      (r.stop == Waiting ==> r.rest.queue == [] && !ch.closed) &&
      (r.stop == Failed(RecvFailed) ==> r.rest.queue == [] && ch.closed) &&
      (s.exit ==> r == RunResult(s, ch, Exited))
    decreases |ch.queue|
  {
    if !s.exit && ch.queue != [] {
      var d := Dispatch(s, ch.queue[0], t);
      ExitOnlyByEsc(s, ch.queue[0], t);
      if d.error.None? {
        RunShape(d.next, Channel(ch.queue[1..], ch.closed), t);
      }
    }
  }

  /** Events are handled one after the other: once the loop has handled `q1` and waits,
      events sent after `q1` are handled from the state it reached. */
  lemma {:induction false} RunAppend(s: AppView, q1: seq<TormEvent>, q2: seq<TormEvent>, closed: bool, t: Terminal)
    requires Run(s, Channel(q1, false), t).stop == Waiting
    ensures Run(s, Channel(q1 + q2, closed), t) == Run(Run(s, Channel(q1, false), t).final, Channel(q2, closed), t)
    decreases |q1|
  {
    if q1 == [] {
      assert q1 + q2 == q2;
    } else {
      var d := Dispatch(s, q1[0], t);
      assert (q1 + q2)[0] == q1[0];
      assert (q1 + q2)[1..] == q1[1..] + q2;
      RunAppend(d.next, q1[1..], q2, closed, t);
    }
  }

  /** After an Esc press whose restore succeeds, the loop stops with the flag set and
      every later event left in the channel, not dispatched. */
  lemma EscStopsTheLoop(s: AppView, before: seq<TormEvent>, esc: KeyEvent, after: seq<TormEvent>, closed: bool, t: Terminal)
    requires esc.code == Esc && t.restoreOk
    requires Run(s, Channel(before, false), t).stop == Waiting
    ensures var r := Run(s, Channel(before + [KeyPress(esc)] + after, closed), t);
      r.stop == Exited && r.rest == Channel(after, closed) &&
      r.final == Run(s, Channel(before, false), t).final.(exit := true)
  {
    assert before + [KeyPress(esc)] + after == before + ([KeyPress(esc)] + after);
    RunAppend(s, before, [KeyPress(esc)] + after, closed, t);
    RunShape(s, Channel(before, false), t);
    assert ([KeyPress(esc)] + after)[1..] == after;
  }

  /** When `restore` fails, Esc ends the loop with that error and the flag stays clear. */
  lemma EscWithFailedRestore(s: AppView, esc: KeyEvent, after: seq<TormEvent>, closed: bool, t: Terminal)
    requires !s.exit && esc.code == Esc && !t.restoreOk
    ensures Run(s, Channel([KeyPress(esc)] + after, closed), t) == RunResult(s, Channel(after, closed), Failed(RestoreFailed))
  {
    assert ([KeyPress(esc)] + after)[1..] == after;
  }

  /** An empty closed channel ends a running loop with the receive error. */
  lemma ClosedChannelFails(s: AppView, t: Terminal)
    requires !s.exit
    ensures Run(s, Channel([], true), t) == RunResult(s, Channel([], true), Failed(RecvFailed))
  {
  }

  /** Two queues whose events agree up to the modifiers of their keys. */
  predicate SameUpToModifiers(q1: seq<TormEvent>, q2: seq<TormEvent>)
  {
    |q1| == |q2| &&
    forall i :: 0 <= i < |q1| ==>
      q1[i] == q2[i] || (q1[i].KeyPress? && q2[i].KeyPress? && q1[i].key.code == q2[i].key.code)
  }

  /** Modifiers never change what the loop does, over any number of events. */
  lemma {:induction false} RunIgnoresModifiers(s: AppView, q1: seq<TormEvent>, q2: seq<TormEvent>, closed: bool, t: Terminal)
    requires SameUpToModifiers(q1, q2)
    ensures var r1, r2 := Run(s, Channel(q1, closed), t), Run(s, Channel(q2, closed), t);
      r1.final == r2.final && r1.stop == r2.stop && |r1.rest.queue| == |r2.rest.queue|
    decreases |q1|
  {
    if !s.exit && q1 != [] {
      if q1[0] != q2[0] {
        ModifiersIgnored(s, q1[0].key, q2[0].key, t);
      }
      var d := Dispatch(s, q1[0], t);
      assert SameUpToModifiers(q1[1..], q2[1..]) by {
        forall i | 0 <= i < |q1| - 1
          ensures q1[1..][i] == q2[1..][i] ||
            (q1[1..][i].KeyPress? && q2[1..][i].KeyPress? && q1[1..][i].key.code == q2[1..][i].key.code)
        {
          assert q1[1..][i] == q1[i + 1] && q2[1..][i] == q2[i + 1];
        }
      }
      RunIgnoresModifiers(d.next, q1[1..], q2[1..], closed, t);
    }
  }

  /** From the origin, three Down presses put the cursor on line 3, column 0. */
  lemma ThreeDownsFromOrigin(down: KeyEvent, t: Terminal)
    requires down.code == KeyCode.Down && t.setCursorOk
    ensures var q := [KeyPress(down), KeyPress(down), KeyPress(down)];
      Run(AppView(false, Cursors.Origin), Channel(q, false), t) ==
      RunResult(AppView(false, Cursors.Pos(0, 3)), Channel([], false), Waiting)
  {
    var q := [KeyPress(down), KeyPress(down), KeyPress(down)];
    assert q[1..] == [KeyPress(down), KeyPress(down)];
    assert q[1..][1..] == [KeyPress(down)];
    assert Run(AppView(false, Cursors.Pos(0, 2)), Channel([KeyPress(down)], false), t)
      == RunResult(AppView(false, Cursors.Pos(0, 3)), Channel([], false), Waiting);
  }

  /** From line 0, an Up press leaves the cursor where it is. */
  lemma UpAtTopStays(s: AppView, up: KeyEvent, t: Terminal)
    requires !s.exit && s.cursor.line == 0 && up.code == KeyCode.Up && t.setCursorOk
    ensures Run(s, Channel([KeyPress(up)], false), t) == RunResult(s, Channel([], false), Waiting)
  {
  }

  // ---- The objects ----

  /** `State` as the loop uses it: the exit flag and the buffer being edited. */
  class State {
    var exit: bool
    const testBuffer: Buffer

    constructor (buffer: Buffer)
      ensures !exit && testBuffer == buffer
    {
      exit := false;
      testBuffer := buffer;
    }
  }

  /** `Torm`: the event handler and the state. */
  class Torm {
    const eventHandler: EventHandler
    const state: State

    /** `Torm::new`, with the buffer its state holds: a handler at 140 frames per
        second (a 7 ms tick) with an empty open channel, and the exit flag clear. */
    constructor (buffer: Buffer)
      ensures fresh(eventHandler) && fresh(state)
      ensures eventHandler.tickRate == 7 && eventHandler.queue == [] && !eventHandler.closed
      ensures state.testBuffer == buffer && !state.exit
    {
      TickRateOfEditor();
      eventHandler := new EventHandler(140);
      state := new State(buffer);
    }

    function View(): AppView
      reads state, state.testBuffer.cursor
    {
      AppView(state.exit, state.testBuffer.cursor.Position())
    }

    /** `tick`: renders, which only reads the state. */
    method OnTick(t: Terminal) returns (err: Option<TormError>)
      ensures err == Dispatch(View(), Tick, t).error
    {
      if !t.drawOk {
        return Some(DrawFailed);
      }
      if !t.showCursorOk {
        return Some(ShowCursorFailed);
      }
      return None;
    }

    /** `exit`. */
    method Exit(t: Terminal) returns (err: Option<TormError>)
      modifies state
      ensures Dispatched(View(), err) == ExitOutcome(old(View()), t)
    {
      if !t.restoreOk {
        return Some(RestoreFailed);
      }
      state.exit := true;
      return None;
    }

    /** `keypress`: moves the buffer's cursor through the reference the buffer hands
        out; the content and the line count stay as they are. */
    method OnKeypress(key: KeyEvent, t: Terminal) returns (err: Option<TormError>)
      modifies state, state.testBuffer.cursor
      ensures Dispatched(View(), err) == Dispatch(old(View()), KeyPress(key), t)
      ensures unchanged(state.testBuffer)
    {
      var cursor := state.testBuffer.cursor;
      match key.code
      case Esc =>
        err := Exit(t);
      case Up | Char('k') =>
        cursor.MoveUp(1);
        err := SetCursorPosition(t);
      case Down | Char('j') =>
        if cursor.line == U16_MAX {
          return Some(ArithmeticOverflow);
        }
        cursor.MoveDown(1);
        err := SetCursorPosition(t);
      case Left | Char('h') =>
        cursor.MoveLeft(1);
        err := SetCursorPosition(t);
      case Right | Char('l') =>
        if cursor.col == U16_MAX {
          return Some(ArithmeticOverflow);
        }
        cursor.MoveRight(1);
        err := SetCursorPosition(t);
      case _ =>
        err := None;
    }

    /** `mouse_click`: reserved, does nothing. */
    method OnMouseClick(mouse: MouseEvent, button: MouseButton) returns (err: Option<TormError>)
      ensures err == None
    {
      err := None;
    }

    /** `start`: starts the producing task, which sends what `ws` resolves to, then
        receives and dispatches while the exit flag is clear. It ends as `Run` says. */
    method Start(t: Terminal, ws: seq<Wake>) returns (stop: Stop)
      requires eventHandler.tickRate > 0
      modifies state, state.testBuffer.cursor, eventHandler
      ensures RunResult(View(), eventHandler.Chan(), stop) ==
        Run(old(View()), Channel(old(eventHandler.queue) + Produced(ws), old(eventHandler.closed)), t)
      ensures unchanged(state.testBuffer)
    {
      eventHandler.Handle(ws);
      ghost var total := Run(View(), eventHandler.Chan(), t);
      while !state.exit
        invariant Run(View(), eventHandler.Chan(), t) == total
        invariant unchanged(state.testBuffer)
        decreases |eventHandler.queue|
      {
        ghost var before := View();
        var poll := eventHandler.Next();
        if poll.Pending? {
          return Waiting;
        }
        if poll.value.Err? {
          return Failed(poll.value.error);
        }
        var err: Option<TormError>;
        match poll.value.value {
          case Tick =>
            err := OnTick(t);
          case KeyPress(key) =>
            err := OnKeypress(key, t);
          case MouseClick(mouse, button) =>
            err := OnMouseClick(mouse, button);
        }
        assert Dispatched(View(), err) == Dispatch(before, poll.value.value, t);
        if err.Some? {
          return Failed(err.value);
        }
      }
      return Exited;
    }
  }
}
