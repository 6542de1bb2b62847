/** The terminal events the core reacts to (crossterm's Event, KeyEvent and MouseEventKind),
    reduced to what the handlers look at. */
module Input {

  datatype KeyCode = Char(c: char) | Esc | Backspace | Enter | Tab | Up | Down | Left | Right | OtherKey

  /** A key press; `shift` is whether the SHIFT modifier is held */
  datatype KeyEvent = KeyEvent(code: KeyCode, shift: bool)

  /** MouseEventKind; only Down (a button press) is acted on. The button itself is not looked at. */
  datatype MouseKind = MouseDown | MouseUp | MouseDrag | MouseMoved | ScrollDown | ScrollUp

  datatype Event =
    | Key(key: KeyEvent)
    | Mouse(kind: MouseKind, column: int, row: int)
    | Resize(width: int, height: int)
    | OtherEvent
}
