/** The application's state and what each of its operations does to it, as
    functions on values. The class `CounterApp.App` performs the same steps in
    place; each of its methods is proved to agree with the function here. */
module AppLogic {
  import opened Events

  const U8_MAX: int := 255

  /** The counter is a Rust `u8`. */
  type U8 = x: int | 0 <= x <= U8_MAX

  /** The limit past which `increment` reports an error. */
  const COUNTER_LIMIT: int := 2

  datatype AppState = AppState(counter: U8, exit: bool)

  /** `App::default()`: both fields take their zero value. */
  const DefaultState := AppState(0, false)

  /** The ways an operation can fail. `CounterOverflow` is the error
      `increment` returns on purpose; the other two are the panics of u8
      arithmetic in a build with overflow checks; `ReadError` is an I/O
      failure of the event reader. */
  datatype ErrorKind = CounterOverflow | AddWithOverflow | SubtractWithOverflow | ReadError

  datatype Outcome = Ok | Err(error: ErrorKind)

  /** The state after an operation, together with what the operation returned. */
  datatype Transition = Transition(next: AppState, outcome: Outcome)

  /** `increment`: add one, then fail if the new value passes the limit. The
      addition is kept even when the call fails. At 255 the addition itself
      overflows and nothing is stored. */
  function Increment(s: AppState): (t: Transition)
    ensures t.next.exit == s.exit
    ensures t.outcome == Ok <==> s.counter < COUNTER_LIMIT
    ensures s.counter < U8_MAX ==> t.next.counter == s.counter + 1
    ensures COUNTER_LIMIT <= s.counter < U8_MAX ==> t.outcome == Err(CounterOverflow)
    ensures s.counter == U8_MAX ==> t == Transition(s, Err(AddWithOverflow))
  {
    if s.counter == U8_MAX then Transition(s, Err(AddWithOverflow))
    else
      var bumped := s.(counter := s.counter + 1);
      if bumped.counter > COUNTER_LIMIT then Transition(bumped, Err(CounterOverflow))
      else Transition(bumped, Ok)
  }

  /** `decrement`: subtract one. At 0 the subtraction underflows and nothing
      is stored. */
  function Decrement(s: AppState): (t: Transition)
    ensures t.next.exit == s.exit
    ensures t.outcome == Ok <==> 0 < s.counter
    ensures 0 < s.counter ==> t.next.counter == s.counter - 1
    ensures s.counter == 0 ==> t == Transition(s, Err(SubtractWithOverflow))
  {
    if s.counter == 0 then Transition(s, Err(SubtractWithOverflow))
    else Transition(s.(counter := s.counter - 1), Ok)
  }

  /** `handle_key_event`: 'q' asks to quit, Up and Down move the counter, and
      every other key is ignored. */
  function HandleKeyEvent(s: AppState, code: KeyCode): (t: Transition)
    ensures t.next.exit == (s.exit || code == Char('q'))
    ensures code == Char('q') ==> t == Transition(s.(exit := true), Ok)
    ensures code == Up ==> t == Increment(s)
    ensures code == Down ==> t == Decrement(s)
    ensures code != Char('q') && code != Up && code != Down ==> t == Transition(s, Ok)
    ensures t.outcome.Err? ==> code == Up || code == Down
    ensures s.counter <= COUNTER_LIMIT && t.outcome == Ok ==> t.next.counter <= COUNTER_LIMIT
  {
    match code
    case Char(c) =>
      if c == 'q' then Transition(s.(exit := true), Ok) else Transition(s, Ok)
    case Up => Increment(s)
    case Down => Decrement(s)
    case _ => Transition(s, Ok)
  }

  /** `handle_events`: read one input; a key press goes to the key handler,
      any other event is ignored, and a read failure is an error. */
  function HandleEvents(s: AppState, i: Input): (t: Transition)
    ensures i.ReadFailed? ==> t == Transition(s, Err(ReadError))
    ensures i.Received? && !IsPress(i) ==> t == Transition(s, Ok)
    ensures IsPress(i) ==> t == HandleKeyEvent(s, i.event.key.code)
    ensures t.outcome.Err? ==> t.next.exit == s.exit
    ensures !s.exit && t.next.exit ==> IsQuitPress(i) && t.outcome == Ok
  {
    match i
    case ReadFailed => Transition(s, Err(ReadError))
    case Received(e) =>
      if e.Key? && e.key.kind == Press then HandleKeyEvent(s, e.key.code)
      else Transition(s, Ok)
  }

  /** How the run loop ended: the exit flag was set, an error (or panic)
      escaped from event handling, or the input ran out while the loop was
      still waiting for an event. */
  datatype RunStatus = Exited | Failed(error: ErrorKind) | AwaitingInput

  /** The final state, the number of inputs the loop read, and how it ended. */
  datatype RunResult = RunResult(final: AppState, consumed: nat, status: RunStatus)

  /** `r` with `k` more inputs counted as consumed before it. */
  function After(k: nat, r: RunResult): RunResult
  {
    r.(consumed := k + r.consumed)
  }

  /** `run`: while the exit flag is clear, handle the next input, and stop at
      the first error. */
  function Run(s: AppState, input: seq<Input>): (r: RunResult)
    ensures r.consumed <= |input|
    ensures s.exit ==> r == RunResult(s, 0, Exited)
    ensures r.final.exit <==> r.status == Exited
    ensures r.status == AwaitingInput ==> r.consumed == |input|
    ensures !s.exit && r.status != AwaitingInput ==> 0 < r.consumed
    decreases |input|
  {
    if s.exit then RunResult(s, 0, Exited)
    else if input == [] then RunResult(s, 0, AwaitingInput)
    else
      var t := HandleEvents(s, input[0]);
      if t.outcome.Err? then RunResult(t.next, 1, Failed(t.outcome.error))
      else After(1, Run(t.next, input[1..]))
  }
}
