# uika_countdown: the counter application, verified

This project models the application state machine of `uika_countdown`, a
terminal program built on ratatui and crossterm. In this version of the
repository the application is a counter, not a countdown list. The `App`
value holds a `u8` counter and an exit flag, and key presses drive it:

- `q` sets the exit flag;
- Up increments the counter, and reports an error once the counter passes 2;
- Down decrements the counter;
- every other key, and every event that is not a key press, is ignored.

The run loop handles one input at a time until the exit flag is set. It
returns the first error that event handling produces.

Despite the project's name, this version of the code is a counter: there is
no countdown list, record file, colour or time parsing, or creation wizard.

Files:

- `events.dfy` (module `Events`): the crossterm input events, cut down to
  what the application reads (key code and key kind). It also has
  `ReadFailed`, which stands for an I/O error from the blocking event reader.
- `app_logic.dfy` (module `AppLogic`): the state as a value (`AppState`) and
  each operation as a function returning the next state and the outcome.
- `app.dfy` (module `CounterApp`): the class `App`, whose fields the methods
  update in place. Each method is proved equal to its function in `AppLogic`.
  `Run` is a `while !exit` loop over a finite sequence of inputs.
- `app_properties.dfy` (module `AppProperties`): lemmas about whole runs and
  about pairs of operations.

Integer semantics: the counter is a `u8` (`U8`, 0..255). Arithmetic is
modelled as in a build with overflow checks, which is Rust's default debug
profile. `counter += 1` at 255 panics, and so does `counter -= 1` at 0. In both
cases nothing is stored. The model writes these panics as the outcomes
`Err(AddWithOverflow)` and `Err(SubtractWithOverflow)`. A panic unwinds out of
`run` and an `Err` is returned from it, so either one ends the loop, and
`Run` reports both as `Failed(kind)`.

Running out of input: `event::read` blocks until an event arrives. When the
finite input sequence is used up while the exit flag is still clear, the
model's `Run` stops with status `AwaitingInput`.

## Model

| member | source | states |
|---|---|---|
| `AppLogic.Increment` | src/app.rs:54-60 | the exit flag is unchanged; the outcome is Ok exactly when the counter was below 2; below 255 the counter becomes c + 1 even when the limit error is returned; at 255 the u8 addition overflows and the state is unchanged |
| `AppLogic.Decrement` | src/app.rs:62-65 | the exit flag is unchanged; the outcome is Ok exactly when the counter was positive, and then the counter is c - 1; at 0 the u8 subtraction underflows and the state is unchanged |
| `AppLogic.HandleKeyEvent` | src/app.rs:44-52 | afterwards the exit flag is set exactly when it was set before or the key is 'q'; 'q' sets exit, keeps the counter and returns Ok; Up and Down behave as increment and decrement; any other key changes nothing and returns Ok; only Up and Down can fail; a successful dispatch from a counter of at most 2 leaves it at most 2 |
| `AppLogic.HandleEvents` | src/app.rs:35-42 | a read failure is an error and changes nothing; an event that is not a key press changes nothing and returns Ok; a key press is dispatched to the key handler; a failure never changes the exit flag; the flag becomes set only through a successful 'q' press |
| `AppLogic.Run` | src/app.rs:27-33 | the loop reads at most the given inputs; it reads nothing when exit is already set; it ends with the flag set exactly when it exited (not on an error or on running out of input); running out of input means every input was read; if the flag was clear and the loop stopped, at least one input was read |
| `CounterApp.App.constructor` | src/app.rs:20-24 | `App::default()` starts with counter 0 and the exit flag clear |
| `CounterApp.App.Run` | src/app.rs:27-33 | the `while !exit` loop leaves the object in the final state of `AppLogic.Run`, and returns how many inputs it read and how it ended |
| `CounterApp.App.HandleEvents` | src/app.rs:35-42 | the new fields and the result are those of `AppLogic.HandleEvents` on the old fields |
| `CounterApp.App.HandleKeyEvent` | src/app.rs:44-52 | the new fields and the result are those of `AppLogic.HandleKeyEvent` on the old fields |
| `CounterApp.App.Increment` | src/app.rs:54-60 | the in-place `counter += 1` and the limit check agree with `AppLogic.Increment`; the exit flag is untouched |
| `CounterApp.App.Decrement` | src/app.rs:62-65 | the in-place `counter -= 1` agrees with `AppLogic.Decrement`; the exit flag is untouched |
| `AppProperties.IncrementThenDecrement` | src/app.rs:54-65 | below 255, Up then Down restores the state and the Down succeeds, even if the Up reported the limit error |
| `AppProperties.DecrementThenIncrement` | src/app.rs:54-65 | from a positive counter, Down then Up restores the state |
| `AppProperties.HandleEventsBounded` | src/app.rs:35-65 | from a counter of at most 2, one handled input leaves it at most 3, never overflows the u8 addition, and leaves it at most 2 unless the limit error is reported |
| `AppProperties.RunKeepsCounterInRange` | src/app.rs:27-65 | a run that starts with the counter at most 2 ends with it at most 3; the counter stays at most 2 unless the run ends in the limit error; the u8 addition overflow never occurs |
| `AppProperties.DefaultRunKeepsCounterInRange` | src/app.rs:20-65 | from `App::default()`, every run that does not end in the limit error keeps the counter in [0, 2], and no run overflows the u8 addition |
| `AppProperties.RunStopsAtFirstQuitOrError` | src/app.rs:27-52 | the loop never reads past the first 'q' press; if it exited, the last input read was a 'q' press, and conversely a run whose last input read was a 'q' press exited; a run still waiting for input read no 'q' press; if it failed, the last input read was a read failure or an Up or Down press |
| `AppProperties.RunAppend` | src/app.rs:27-33 | inputs are handled in order, and inputs after the stopping point are never read: appending input to a run that stopped changes nothing; a run that was waiting for input resumes on the appended input from the state it had reached |
| `AppProperties.DownAtStartUnderflows` | src/app.rs:62-65 | pressing Down right after start-up ends the run with the u8 subtraction underflow and the counter at 0, and no later input is read |
| `AppProperties.ThirdUpFails` | src/app.rs:54-60 | the third Up press after start-up ends the run with the limit error and the counter at 3, and no later input is read |

## Left out

- Rendering (`impl Widget for &App`, src/app.rs:68-101) and `terminal.draw`: ratatui layout and styling. A failure of `draw` inside the loop is not modelled.
- Terminal input: `event::read()` is replaced by a finite input sequence given as a parameter. Its I/O error is the single input `ReadFailed`.
- Error texts and the `wrap_err` context: each failure is a single tag (`ErrorKind`).
- Key modifiers and the key state flags of crossterm key events: the application does not read them. For example, Ctrl+q counts as 'q'.
- Release-profile arithmetic: without overflow checks, `u8` addition and subtraction wrap around instead of panicking. Only the checked behaviour is modelled.
- Panic versus error: the model does not tell them apart beyond their `ErrorKind`. In the program a panic unwinds through `run` and `main`, while an `Err` is returned from `run` and then from `main`.
- src/tui.rs (raw mode and alternate screen setup and teardown) and src/main.rs (process wiring): pure terminal I/O. The `errors` module with its panic hooks is not part of this model.
