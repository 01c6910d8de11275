# torm: a model of the editor's event loop

torm is a terminal text editor. This project models its sequential core in Dafny:

- **Cursor** (`cursor.dfy`, module `Cursors`): two `u16` screen coordinates with
  setters and one-directional moves. `Pos` is the cursor as a value (what `position()`
  returns); `Up`/`Down`/`Left`/`Right` are the moves on values; the class `Cursor`
  updates its `col`/`line` fields in place and each method is proved against those
  functions.
- **Buffer** (`buffer.dfy`, module `Buffers`): content, a line count fixed at load time
  and an owned cursor. `Split` is Rust's `str::split` on one character, and
  `LineCount` is `split('\n').count() - 1`, proved equal to the number of line breaks.
  The file read is an input of type `Result<string, IoError>`.
- **Events** (`event.dfy`, module `Events`): small datatypes for crossterm's key, mouse
  and terminal events, the filter the producing task applies (`Forward`), what that
  task sends for a run of resolved `select!` branches (`Produced`), the channel as a
  value (`Channel`, `Recv`, `Drain`), and the class `EventHandler` whose `Handle` loop
  and `Next` are proved against those functions.
- **Application loop** (`torm.dfy`, module `TormApp`): the key binding table
  (`KeyAction`), one iteration of `start` as a function (`Dispatch`), the whole loop as
  a function (`Run`), lemmas about both, and the classes `State` and `Torm`, whose
  `Start` method runs a `while !state.exit` loop proved to end exactly as `Run` says.
- `common.dfy` (module `Common`) holds `u16`, `Option`, `Result`, `Poll` and the errors.

The terminal is a parameter: a `Terminal` value says whether each kind of terminal call
(`restore`, `ui::draw`, `show_cursor`, `set_cursor_position`) succeeds during a run.
An `await` that has nothing to receive yet is `Pending`, and `start` then stops in the
state `Waiting`.

Notes on what the code does:
- A move up or left is not saturating in general. It is skipped at 0, and otherwise
  subtracts `count`, which would underflow for `count` larger than the coordinate. Every
  caller passes 1, so the one-unit moves the loop makes do stop at 0.
- `restore` is not best effort. When it fails, `exit` returns that error before setting
  the flag, and the loop ends with the error.
- The channel can report end-of-stream only once every sender is gone. `EventHandler`
  keeps a sender of its own, so in the source `next` cannot fail while the handler
  lives. The model keeps a `closed` flag and `EventHandler.Close` so that this path of
  `next` and of `start` can still be stated.
- The state holds the exit flag and a buffer, as `src/torm.rs` uses it. The `State` in
  `src/state.rs` has only the flag.
- A `u16` addition that overflows panics in a debug build. The loop model reports this
  as `ArithmeticOverflow` for a Down at line 65535 and a Right at column 65535.

## Model

| member | source | states |
|---|---|---|
| Cursors.Up | src/cursor.rs:52-58 | at line 0 nothing changes; otherwise the line drops by exactly `count`; the column never changes; needs `count <= line` to avoid underflow |
| Cursors.Down | src/cursor.rs:60-63 | the line grows by exactly `count` and the column is kept, provided the sum stays within `u16` |
| Cursors.Left | src/cursor.rs:65-71 | at column 0 nothing changes; otherwise the column drops by exactly `count`; the line never changes |
| Cursors.Right | src/cursor.rs:73-76 | the column grows by exactly `count` and the line is kept, provided the sum stays within `u16` |
| Cursors.DownThenUp | src/cursor.rs:54-63 | a move down followed by a move up of the same count restores the position |
| Cursors.UpThenDown | src/cursor.rs:54-63 | from a line other than 0, up then down by the same count restores the position |
| Cursors.RightThenLeft | src/cursor.rs:67-76 | a move right followed by a move left of the same count restores the position |
| Cursors.LeftThenRight | src/cursor.rs:67-76 | from a column other than 0, left then right by the same count restores the position |
| Cursors.RetreatClamps | src/cursor.rs:52-71 | after any sequence of one-unit up and left moves, each coordinate is its start minus the moves in its direction, stopping at 0 |
| Cursors.RetreatFromOrigin | src/cursor.rs:52-71 | from (0,0), one-unit up and left moves never change the cursor |
| Cursors.Cursor.constructor | src/cursor.rs:6-22 | a new cursor is at column 0, line 0 |
| Cursors.Cursor.Position | src/cursor.rs:45-50 | the position is exactly (column, line) |
| Cursors.Cursor.SetCol | src/cursor.rs:25-27 | the column becomes the given value and the line is kept |
| Cursors.Cursor.SetLine | src/cursor.rs:35-37 | the line becomes the given value and the column is kept |
| Cursors.Cursor.MoveUp | src/cursor.rs:54-58 | the new position is `Up` of the old one |
| Cursors.Cursor.MoveDown | src/cursor.rs:61-63 | the new position is `Down` of the old one |
| Cursors.Cursor.MoveLeft | src/cursor.rs:67-71 | the new position is `Left` of the old one |
| Cursors.Cursor.MoveRight | src/cursor.rs:74-76 | the new position is `Right` of the old one |
| Buffers.Occurrences | src/buffer.rs:37-42 | the count of a character is its multiplicity in the string, at most the string's length |
| Buffers.Split | src/buffer.rs:37 | splitting gives at least one piece, no piece holds the separator, and joining the pieces with it gives the string back |
| Buffers.SplitCount | src/buffer.rs:37-42 | splitting gives exactly one piece more than there are separators |
| Buffers.LineCount | src/buffer.rs:37-42 | `split('\n').count() - 1` does not underflow and equals the number of line breaks |
| Buffers.LineCountExamples | src/buffer.rs:36-43 | `""` has 0 lines, `"a\n"` has 1, and a text with nine line breaks has 9 |
| Buffers.Buffer.constructor | src/buffer.rs:19-32 | a new buffer has empty content, line count 0 and a fresh cursor at (0,0) |
| Buffers.Buffer.Loaded | src/buffer.rs:39-43 | a loaded buffer holds the text verbatim, its line-break count and a fresh cursor at (0,0) |
| Buffers.Buffer.FromFile | src/buffer.rs:35-44 | a failed read gives its error and no buffer; a successful one gives a fresh buffer with the text, its line-break count and the cursor at (0,0) |
| Buffers.Buffer.SetContent | src/buffer.rs:62-64 | writing the content does not recompute the line count |
| Buffers.Buffer.SetLineCount | src/buffer.rs:72-74 | writing the line count leaves the content alone |
| Events.TickRate | src/event.rs:40 | the tick period is `1000 / fps` ms rounded down: the largest whole number of ms whose `fps` multiples fit in a second |
| Events.TickRateOfEditor | src/torm.rs:40 | at 140 frames per second the period is 7 ms |
| Events.Forward | src/event.rs:69-90 | a key event is forwarded unchanged iff it is a press; a mouse event is forwarded with its button iff it is a button-down; everything else, stream errors and end of stream included, is dropped; the filter never makes a tick |
| Events.Emit | src/event.rs:61-92 | one resolved `select!` branch sends at most one event: a `Tick` exactly for the timer, and for the terminal stream the event `Forward` lets through, or nothing |
| Events.Produced | src/event.rs:58-93 | the producing task sends at most one event per resolved branch |
| Events.ProducedTicks | src/event.rs:66 | the number of ticks sent equals the number of timer firings |
| Events.ProducedAppend | src/event.rs:58-93 | what is sent for two runs of branches is the two outputs in order |
| Events.Recv | src/event.rs:98-106 | `next` on a channel value: a non-empty queue gives its oldest event and loses it; an empty one is left as it is and gives either the wait or the receive error; the closed flag never changes |
| Events.RecvOutcomes | src/event.rs:98-106 | receiving fails with the receive error exactly when the channel is empty and closed, and waits exactly when it is empty and open |
| Events.DrainIsFifo | src/event.rs:98-106 | successive receives deliver the queued events in exactly the order they were sent |
| Events.EventHandler.constructor | src/event.rs:35-47 | a new handler has an empty open channel and a period of `1000 / fps` ms |
| Events.EventHandler.Send | src/event.rs:66 | sending appends the event at the back of the queue |
| Events.EventHandler.Handle | src/event.rs:50-95 | the task appends exactly `Produced` of the resolved branches to the queue |
| Events.EventHandler.Next | src/event.rs:98-106 | receiving pops the front event, or fails on an empty closed channel, or waits on an empty open one, as `Recv` says |
| Events.EventHandler.Close | src/event.rs:98-106 | the producing side finishing, with every sender gone, closes the channel and keeps the queued events |
| TormApp.KeyAction | src/torm.rs:80-111 | Esc quits; Up or k, Down or j, Left or h, Right or l move; each action has exactly these keys, and every other key does nothing |
| TormApp.TickOutcome | src/torm.rs:68-76 | a tick succeeds iff drawing and showing the cursor both succeed; a draw failure is reported first |
| TormApp.ExitOutcome | src/torm.rs:138-144 | the flag is set iff `restore` succeeds; a failed restore returns its error with the state untouched; the cursor never changes |
| TormApp.KeypressOutcome | src/torm.rs:79-115 | Esc gives the exit outcome; the arrows and h/j/k/l make a one-unit move, kept even when `set_cursor_position` fails, which is the only error then; Down at line 65535 and Right at column 65535 end with `ArithmeticOverflow` and no change; every other key does nothing |
| TormApp.Dispatch | src/torm.rs:57-61 | a tick gives the tick outcome with the state kept, a mouse click changes nothing and never fails, and a key press gives the keypress outcome |
| TormApp.Run | src/torm.rs:56-62 | the `while !state.exit` loop: it never consumes more than the queue, keeps the channel's closed flag, does nothing from an exited state, and waits only on an empty open channel |
| TormApp.ExitOnlyByEsc | src/torm.rs:138-143 | the exit flag is never cleared, is set only by Esc with a successful restore, and an event that fails leaves it as it was |
| TormApp.ModifiersIgnored | src/torm.rs:80 | two key events with the same code have the same effect whatever their modifiers |
| TormApp.OtherEventsKeepState | src/torm.rs:58-60 | ticks, mouse clicks and unbound keys leave the exit flag and the cursor alone; only a tick can fail |
| TormApp.NavigationMovesOneUnit | src/torm.rs:83-109 | each navigation key moves the cursor one unit in its direction and keeps the exit flag |
| TormApp.RunShape | src/torm.rs:56-62 | the loop consumes a prefix of the queue; it has exited exactly when the flag is set; it waits only on an empty open channel; from an exited state it dispatches nothing |
| TormApp.RunAppend | src/torm.rs:56-62 | events are handled in order: after handling a first batch, later events are handled from the state reached |
| TormApp.EscStopsTheLoop | src/torm.rs:56-62 | after Esc with a successful restore the loop stops with the flag set and every later event still queued |
| TormApp.EscWithFailedRestore | src/torm.rs:138-143 | when restore fails, Esc ends the loop with that error and the flag stays clear |
| TormApp.ClosedChannelFails | src/torm.rs:57 | a running loop on an empty closed channel ends with the receive error |
| TormApp.RunIgnoresModifiers | src/torm.rs:80 | over any event sequence, changing key modifiers changes neither the final state nor how the loop ends |
| TormApp.ThreeDownsFromOrigin | src/torm.rs:90-95 | from (0,0), three Down presses give line 3, column 0 |
| TormApp.UpAtTopStays | src/torm.rs:83-88 | at line 0 an Up press leaves the cursor unchanged |
| TormApp.State.constructor | src/state.rs:6-17 | a new state has the exit flag clear and holds the given buffer |
| TormApp.Torm.constructor | src/torm.rs:26-48 | a new editor has a 7 ms tick, an empty open channel and the exit flag clear |
| TormApp.Torm.OnTick | src/torm.rs:68-76 | a tick fails exactly when drawing or showing the cursor fails, and changes nothing |
| TormApp.Torm.Exit | src/torm.rs:138-144 | the flag is set iff restore succeeds; otherwise the restore error is returned |
| TormApp.Torm.OnKeypress | src/torm.rs:79-115 | the new exit flag and cursor and the error are those of `Dispatch`; content and line count are untouched |
| TormApp.Torm.OnMouseClick | src/torm.rs:118-124 | a mouse click never fails and changes nothing |
| TormApp.Torm.Start | src/torm.rs:51-65 | the final state, the events left and the way the loop ends are those of `Run` on everything the producer sent; the buffer's content is untouched |

## Left out

- `TormApp.Torm.constructor`: the setup in `Torm::new` is left out. Enabling mouse capture can fail (src/torm.rs:37), and `ratatui::init` (src/torm.rs:39) and the panic hook (src/torm.rs:29-34) are OS terminal side effects and a global hook. The constructor here always succeeds.
- Terminal calls in the loop (the body of `restore`, `ui::draw`, `show_cursor`, `set_cursor_position`): OS side effects. Only whether each call succeeds is modelled, through `Terminal`. `restoreOk` covers all of `restore`, including its `DisableMouseCapture`.
- `Terminal`: one outcome per kind of terminal call for a whole run, not a separate outcome for every call.
- The spawned tokio task, the `select!` race and the `sender.closed()` branch: concurrency. The order in which the branches resolved is an input (`Wake`), and `Torm.Start` lets the task send everything before the loop receives. The loop sees the same order either way, since the channel is FIFO and the loop waits on an empty channel.
- The `unwrap` on each `send`: it panics only once the receiver is dropped, and the handler owns the receiver.
- Rendering (`src/ui.rs`): a foreign library with no state of its own; only whether `ui::draw` succeeds is modelled.
- `src/main.rs`: the async entry point; the `window` module it declares is not part of this model.
- Durations and wall-clock time: the tick period is a whole number of milliseconds.
- `Events.TickRate`: requires a non-zero `fps` in place of the division-by-zero panic of `1000 / fps` (src/event.rs:40); the only caller passes 140. The same requires is on `Events.EventHandler.constructor`.
- `Events.EventHandler.Handle`: requires a non-zero period, because tokio's interval panics on a zero one; `1000 / fps` is 0 for `fps` above 1000.
- `Cursors.Cursor.MoveUp`: requires `count <= line` when the line is not 0, instead of modelling the `u16` underflow.
- `Cursors.Cursor.MoveLeft`: requires `count <= col` when the column is not 0, instead of modelling the `u16` underflow.
- `Cursors.Cursor.MoveDown`: requires the sum to fit in `u16`, instead of modelling the overflow panic or the release-build wrap-around.
- `Cursors.Cursor.MoveRight`: requires the sum to fit in `u16`, instead of modelling the overflow panic or the release-build wrap-around.
- `Buffers.Buffer.FromFile`: takes the outcome of `fs::read_to_string` instead of a path. `usize` is modelled as `nat`, since a count of characters in memory cannot overflow it.
- `Buffers.Buffer.SetContent`: a write through `content_mut` is modelled as replacing the whole string.
