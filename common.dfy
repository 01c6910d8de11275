/** Types shared by every part of the editor model. */
module Common {

  /** Rust's `u16`: the type of the cursor's screen coordinates. */
  newtype u16 = x: int | 0 <= x < 0x1_0000

  const U16_MAX: u16 := 0xFFFF

  datatype Option<+T> = None | Some(value: T)

  datatype Result<+T, +E> = Ok(value: T) | Err(error: E)

  /** The state of an awaited future: `Pending` while the value is not available yet. */
  datatype Poll<+T> = Ready(value: T) | Pending

  /** Why `fs::read_to_string` can fail. */
  datatype IoError = NotFound | PermissionDenied | InvalidUtf8 | OtherIo

  /** The errors that can end the application loop. */
  datatype TormError =
    | RecvFailed          // `EventHandler::next` found the channel closed and empty
    | RestoreFailed       // `Torm::restore` could not give the terminal back
    | DrawFailed          // `ui::draw` could not paint a frame
    | ShowCursorFailed    // `Terminal::show_cursor` failed after a frame
    | SetCursorFailed     // `Terminal::set_cursor_position` failed after a move
    | ArithmeticOverflow  // a `u16` addition overflowed (a panic in a debug build)
}
