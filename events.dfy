/** The terminal input events the application receives, as the crossterm
    library delivers them. Only the parts the application inspects are kept:
    the key code and the kind of a key event. Modifier and lock state are
    carried by crossterm but never read by the application. */
module Events {

  /** The key that was pressed. `Char`, `Up` and `Down` are the codes the
      application reacts to; the remaining crossterm codes are represented by
      a few named ones and an opaque `OtherKey`. */
  datatype KeyCode =
    | Char(c: char)
    | Up
    | Down
    | Left
    | Right
    | Enter
    | Esc
    | Backspace
    | Tab
    | Function(n: nat)
    | OtherKey(id: nat)

  /** Whether a key went down, auto-repeated or went up. */
  datatype KeyEventKind = Press | Repeat | Release

  datatype KeyEvent = KeyEvent(code: KeyCode, kind: KeyEventKind)

  /** Every event crossterm can report. */
  datatype Event =
    | Key(key: KeyEvent)
    | FocusGained
    | FocusLost
    | Mouse(column: nat, row: nat)
    | Paste(text: string)
    | Resize(columns: nat, rows: nat)

  /** One call of the blocking event reader: either an event or an I/O error. */
  datatype Input = Received(event: Event) | ReadFailed

  /** A key press with the given code. */
  function PressOf(code: KeyCode): Input
  {
    Received(Key(KeyEvent(code, Press)))
  }

  predicate IsPress(i: Input)
  {
    i.Received? && i.event.Key? && i.event.key.kind == Press
  }

  /** The input that asks the application to quit: a press of 'q'. */
  predicate IsQuitPress(i: Input)
  {
    i == PressOf(Char('q'))
  }
}
