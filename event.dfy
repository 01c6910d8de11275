/** Terminal events: what the terminal delivers, what the editor forwards, and the
    channel between the producing task and the application loop. */
module Events {
  import opened Common

  // ---- The terminal's own events (crossterm), reduced to what the editor looks at ----

  datatype KeyCode = Esc | Up | Down | Left | Right | Char(c: char) | Other

  datatype KeyEventKind = Press | Release | Repeat

  datatype KeyModifiers = KeyModifiers(shift: bool, control: bool, alt: bool)

  datatype KeyEvent = KeyEvent(code: KeyCode, modifiers: KeyModifiers, kind: KeyEventKind)

  datatype MouseButton = LeftButton | RightButton | MiddleButton

  datatype MouseEventKind = Down(button: MouseButton) | Up(button: MouseButton) | Drag(button: MouseButton) | Moved | Scroll

  datatype MouseEvent = MouseEvent(kind: MouseEventKind, column: u16, row: u16, modifiers: KeyModifiers)

  datatype RawEvent = Key(key: KeyEvent) | Mouse(mouse: MouseEvent) | Resize(columns: u16, rows: u16) | FocusGained | FocusLost | Paste(text: string)

  /** One item of the terminal's event stream: an event, a read error, or the end of the stream. */
  datatype StreamItem = Item(event: RawEvent) | ReadFailed | Ended

  /** `TormEvent`: what the application loop receives. */
  datatype TormEvent = Tick | KeyPress(key: KeyEvent) | MouseClick(mouse: MouseEvent, button: MouseButton)

  // ---- The producing task ----

  /** `EventHandler::new` turns frames per second into a tick period of `1000 / fps`
      whole milliseconds, rounded down. */
  function TickRate(fps: nat): (ms: nat)
    requires fps > 0
    ensures ms * fps <= 1000 < (ms + 1) * fps
  {
    1000 / fps
  }

  /** The editor asks for 140 frames per second, a 7 ms period. */
  lemma TickRateOfEditor()
    ensures TickRate(140) == 7
  {
  }

  /** The filter inside `handle`: a key event in its press phase and a mouse event in
      its button-down phase go through unchanged, everything else (other phases,
      resizes, focus changes, pastes, stream errors, the end of the stream) is dropped. */
  function Forward(item: StreamItem): (r: Option<TormEvent>)
    ensures r != Some(Tick)
    ensures !item.Item? ==> r == None
    ensures (r.Some? && r.value.KeyPress?) <==> (item.Item? && item.event.Key? && item.event.key.kind == Press)
    ensures r.Some? && r.value.KeyPress? ==> r.value.key == item.event.key
    ensures (r.Some? && r.value.MouseClick?) <==> (item.Item? && item.event.Mouse? && item.event.mouse.kind.Down?)
    ensures r.Some? && r.value.MouseClick? ==> r.value.mouse == item.event.mouse && r.value.button == item.event.mouse.kind.button
  {
    match item
    case Item(Key(key)) => if key.kind == Press then Some(KeyPress(key)) else None
    case Item(Mouse(mouse)) =>
      (match mouse.kind
       case Down(button) => Some(MouseClick(mouse, button))
       case _ => None)
    case _ => None
  }

  /** Which branch of the `select!` in `handle` resolved: the tick timer, or the terminal stream. */
  datatype Wake = TimerFired | InputReady(item: StreamItem)

  /** What one resolved branch sends into the channel: a `Tick` for the timer, the
      forwarded event or nothing for the terminal stream. */
  function Emit(w: Wake): (sent: seq<TormEvent>)
    ensures |sent| <= 1
    ensures sent == [Tick] <==> w.TimerFired?
    ensures w.InputReady? ==> (sent == [] <==> Forward(w.item) == None)
    ensures w.InputReady? && sent != [] ==> Some(sent[0]) == Forward(w.item)
  {
    match w
    case TimerFired => [Tick]
    case InputReady(item) => (match Forward(item) case Some(e) => [e] case None => [])
  }

  /** Everything the producing task sends for the resolved branches `ws`, in order:
      at most one event per branch. */
  function Produced(ws: seq<Wake>): (events: seq<TormEvent>)
    ensures |events| <= |ws|
    decreases |ws|
  {
    if ws == [] then []
    else
      var init := ws[..|ws| - 1];
      Produced(init) + Emit(ws[|ws| - 1])
  }

  /** The producing task sends one `Tick` per timer firing, and no other branch sends a `Tick`. */
  lemma {:induction false} ProducedTicks(ws: seq<Wake>)
    ensures multiset(Produced(ws))[Tick] == multiset(ws)[TimerFired]
    decreases |ws|
  {
    if ws != [] {
      var init, last := ws[..|ws| - 1], ws[|ws| - 1];
      assert ws == init + [last];
      ProducedTicks(init);
    }
  }

  /** Producing for two runs of branches one after the other sends the two outputs in that order. */
  lemma {:induction false} ProducedAppend(ws: seq<Wake>, vs: seq<Wake>)
    ensures Produced(ws + vs) == Produced(ws) + Produced(vs)
    decreases |vs|
  {
    if vs != [] {
      var init, last := vs[..|vs| - 1], vs[|vs| - 1];
      assert (ws + vs)[..|ws + vs| - 1] == ws + init;
      assert (ws + vs)[|ws + vs| - 1] == last;
      ProducedAppend(ws, init);
      assert Produced(vs) == Produced(init) + Emit(last);
    } else {
      assert ws + vs == ws;
    }
  }

  /** Producing for one more branch appends what that branch emits. */
  lemma ProducedPrefix(ws: seq<Wake>, i: nat)
    requires i < |ws|
    ensures Produced(ws[..i + 1]) == Produced(ws[..i]) + Emit(ws[i])
  {
    assert ws[..i + 1][..i] == ws[..i];
  }

  // ---- The channel ----

  /** The unbounded channel as a value: the events sent and not yet received, and
      whether the producing side has finished sending, so that no more events will come. */
  datatype Channel = Channel(queue: seq<TormEvent>, closed: bool)

  /** `next`: the oldest event if there is one; the receive error once the channel is
      empty and closed; otherwise the call is still waiting. */
  function Recv(ch: Channel): (r: (Poll<Result<TormEvent, TormError>>, Channel))
    ensures ch.queue != [] ==> r.0 == Ready(Ok(ch.queue[0])) && r.1.queue == ch.queue[1..]
    ensures ch.queue == [] ==> r.1 == ch && r.0 in {Pending, Ready(Err(RecvFailed))}
    ensures r.1.closed == ch.closed
  {
    if ch.queue != [] then (Ready(Ok(ch.queue[0])), ch.(queue := ch.queue[1..]))
    else if ch.closed then (Ready(Err(RecvFailed)), ch)
    else (Pending, ch)
  }

  /** A receive yields an error exactly when the channel is empty and closed, and stays
      pending exactly when it is empty and open. */
  lemma RecvOutcomes(ch: Channel)
    ensures Recv(ch).0.Ready? && Recv(ch).0.value.Err? <==> ch.queue == [] && ch.closed
    ensures Recv(ch).0 == Pending <==> ch.queue == [] && !ch.closed
    ensures Recv(ch).0.Ready? && Recv(ch).0.value.Err? ==> Recv(ch).0.value.error == RecvFailed
  {
  }

  /** The events of successive receives, up to the first one that is not an event. */
  function Drain(ch: Channel): seq<TormEvent>
    decreases |ch.queue|
  {
    var (poll, rest) := Recv(ch);
    if poll.Ready? && poll.value.Ok? then [poll.value.value] + Drain(rest) else []
  }

  /** Receiving delivers the events in exactly the order they were sent. */
  lemma {:induction false} DrainIsFifo(ch: Channel)
    ensures Drain(ch) == ch.queue
    decreases |ch.queue|
  {
    if ch.queue != [] {
      DrainIsFifo(ch.(queue := ch.queue[1..]));
    }
  }

  /** `EventHandler`: the tick period and the receiving end of the channel. */
  class EventHandler {
    const tickRate: nat
    var queue: seq<TormEvent>
    var closed: bool

    /** `EventHandler::new`: an empty open channel and a period of `1000 / fps` ms;
        `fps` must not be 0. */
    constructor (fps: nat)
      requires fps > 0
      ensures tickRate == TickRate(fps)
      ensures queue == [] && !closed
    {
      tickRate := TickRate(fps);
      queue := [];
      closed := false;
    }

    function Chan(): Channel
      reads this
    {
      Channel(queue, closed)
    }

    /** `send` on the unbounded channel: never blocks, appends at the back. */
    method Send(e: TormEvent)
      modifies this
      ensures queue == old(queue) + [e] && closed == old(closed)
    {
      queue := queue + [e];
    }

    /** The loop of the task `handle` spawns, over the branches of its `select!` in the
        order they resolved. A zero period would make tokio's interval panic. */
    method Handle(ws: seq<Wake>)
      requires tickRate > 0
      modifies this
      ensures queue == old(queue) + Produced(ws) && closed == old(closed)
    {
      for i := 0 to |ws|
        invariant queue == old(queue) + Produced(ws[..i])
        invariant closed == old(closed)
      {
        ProducedPrefix(ws, i);
        ghost var before := queue;
        if ws[i].TimerFired? {
          Send(Tick);
        } else {
          var forwarded := Forward(ws[i].item);
          if forwarded.Some? {
            Send(forwarded.value);
          }
        }
        assert queue == before + Emit(ws[i]);
      }
      assert ws[..|ws|] == ws;
    }

    /** `next`: receive as `Recv` says. */
    method Next() returns (r: Poll<Result<TormEvent, TormError>>)
      modifies this
      ensures (r, Chan()) == Recv(old(Chan()))
    {
      if queue != [] {
        r := Ready(Ok(queue[0]));
        queue := queue[1..];
      } else if closed {
        r := Ready(Err(RecvFailed));
      } else {
        r := Pending;
      }
    }

    /** The producing side has finished sending: every sender is gone, and the events
        already queued can still be received. */
    method Close()
      modifies this
      ensures closed && queue == old(queue)
    {
      closed := true;
    }
  }
}
