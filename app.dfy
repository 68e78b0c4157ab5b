/** The application object: a counter and an exit flag that its methods
    update in place, driven by a loop over terminal input. */
module CounterApp {
  import opened Events
  import opened AppLogic

  class App {
    var counter: U8
    var exit: bool

    /** The object's fields as a value. */
    function State(): AppState
      reads this
    {
      AppState(counter, exit)
    }

    /** `App::default()`. */
    constructor ()
      ensures State() == DefaultState
      ensures counter == 0 && !exit
    {
      counter := 0;
      exit := false;
    }

    /** Keeps handling inputs until the exit flag is set, returning the first
        error. Returns how many inputs were read and how the loop ended. */
    method Run(input: seq<Input>) returns (consumed: nat, status: RunStatus)
      modifies this
      ensures AppLogic.Run(old(State()), input) == RunResult(State(), consumed, status)
      ensures status == Exited ==> exit
    {
      consumed := 0;
      while !exit
        invariant consumed <= |input|
        invariant AppLogic.Run(old(State()), input) == After(consumed, AppLogic.Run(State(), input[consumed..]))
        decreases |input| - consumed
      {
        if consumed == |input| {
          return consumed, AwaitingInput;
        }
        ghost var rest := input[consumed..];
        assert rest[0] == input[consumed] && rest[1..] == input[consumed + 1..];
        var r := HandleEvents(input[consumed]);
        consumed := consumed + 1;
        if r.Err? {
          return consumed, Failed(r.error);
        }
      }
      status := Exited;
    }

    /** Reads one input and dispatches it if it is a key press. */
    method HandleEvents(i: Input) returns (r: Outcome)
      modifies this
      ensures AppLogic.HandleEvents(old(State()), i) == Transition(State(), r)
    {
      match i
      case ReadFailed =>
        r := Err(ReadError);
      case Received(e) =>
        if e.Key? && e.key.kind == Press {
          r := HandleKeyEvent(e.key);
        } else {
          r := Ok;
        }
    }

    method HandleKeyEvent(key: KeyEvent) returns (r: Outcome)
      modifies this
      ensures AppLogic.HandleKeyEvent(old(State()), key.code) == Transition(State(), r)
    {
      match key.code
      case Char(c) =>
        if c == 'q' {
          exit := true;
        }
        r := Ok;
      case Up =>
        r := Increment();
      case Down =>
        r := Decrement();
      case _ =>
        r := Ok;
    }

    method Increment() returns (r: Outcome)
      modifies this
      ensures AppLogic.Increment(old(State())) == Transition(State(), r)
      ensures exit == old(exit)
    {
      if counter == U8_MAX {
        return Err(AddWithOverflow);
      }
      counter := counter + 1;
      if counter > COUNTER_LIMIT {
        return Err(CounterOverflow);
      }
      return Ok;
    }

    method Decrement() returns (r: Outcome)
      modifies this
      ensures AppLogic.Decrement(old(State())) == Transition(State(), r)
      ensures exit == old(exit)
    {
      if counter == 0 {
        return Err(SubtractWithOverflow);
      }
      counter := counter - 1;
      return Ok;
    }
  }
}
