/** Properties of the application's state machine that relate several
    operations or a whole run of the event loop. */
module AppProperties {
  import opened Events
  import opened AppLogic

  /** Up then Down returns to the starting state, also when Up reported the
      limit error, since the addition is kept in that case. */
  lemma IncrementThenDecrement(s: AppState)
    requires s.counter < U8_MAX
    ensures Decrement(Increment(s).next) == Transition(s, Ok)
  {
  }

  /** Down then Up returns to the starting counter. */
  lemma DecrementThenIncrement(s: AppState)
    requires 0 < s.counter
    ensures Increment(Decrement(s).next).next == s
  {
  }

  /** One handled input never moves the counter more than one step past the
      limit, never reaches the u8 addition overflow, and stays within the
      limit unless it reports the limit error. */
  lemma HandleEventsBounded(s: AppState, i: Input)
    requires s.counter <= COUNTER_LIMIT
    ensures HandleEvents(s, i).next.counter <= COUNTER_LIMIT + 1
    ensures HandleEvents(s, i).outcome != Err(AddWithOverflow)
    ensures HandleEvents(s, i).outcome != Err(CounterOverflow) ==> HandleEvents(s, i).next.counter <= COUNTER_LIMIT
  {
  }

  /** A run that starts within the limit keeps the counter within it, except
      that the run which ends in the limit error leaves it one above; the u8
      addition overflow can never happen. */
  lemma {:induction false} RunKeepsCounterInRange(s: AppState, input: seq<Input>)
    requires s.counter <= COUNTER_LIMIT
    ensures Run(s, input).final.counter <= COUNTER_LIMIT + 1
    ensures Run(s, input).status != Failed(CounterOverflow) ==> Run(s, input).final.counter <= COUNTER_LIMIT
    ensures Run(s, input).status != Failed(AddWithOverflow)
    decreases |input|
  {
    if !s.exit && input != [] {
      HandleEventsBounded(s, input[0]);
      var t := HandleEvents(s, input[0]);
      if t.outcome.Ok? {
        RunKeepsCounterInRange(t.next, input[1..]);
      }
    }
  }

  /** From `App::default()`, a run that does not end in the limit error keeps
      the counter in [0, 2], and never overflows the u8. */
  lemma DefaultRunKeepsCounterInRange(input: seq<Input>)
    ensures Run(DefaultState, input).status != Failed(AddWithOverflow)
    ensures Run(DefaultState, input).status != Failed(CounterOverflow) ==> Run(DefaultState, input).final.counter <= COUNTER_LIMIT
  {
    RunKeepsCounterInRange(DefaultState, input);
  }

  /** The loop never reads past the first 'q' press; it exits exactly when the
      last input it read is that press; a loop still waiting for input has
      read no 'q' press; when it fails, the last input it read is a read
      failure or a press of Up or Down. */
  lemma {:induction false} RunStopsAtFirstQuitOrError(s: AppState, input: seq<Input>)
    requires !s.exit
    ensures forall j :: 0 <= j < |input| && IsQuitPress(input[j]) ==> Run(s, input).consumed <= j + 1
    ensures Run(s, input).status == Exited ==> IsQuitPress(input[Run(s, input).consumed - 1])
    ensures Run(s, input).status.Failed? ==>
              var last := input[Run(s, input).consumed - 1];
              last == ReadFailed || last == PressOf(Up) || last == PressOf(Down)
    ensures 0 < Run(s, input).consumed && IsQuitPress(input[Run(s, input).consumed - 1]) ==> Run(s, input).status == Exited
    ensures Run(s, input).status == AwaitingInput ==> forall j :: 0 <= j < |input| ==> !IsQuitPress(input[j])
    decreases |input|
  {
    if input != [] {
      var t := HandleEvents(s, input[0]);
      if t.outcome.Ok? && !t.next.exit {
        RunStopsAtFirstQuitOrError(t.next, input[1..]);
        var r := Run(t.next, input[1..]);
        assert !IsQuitPress(input[0]);
        forall j | 0 <= j < |input| && IsQuitPress(input[j])
          ensures Run(s, input).consumed <= j + 1
        {
          assert input[1..][j - 1] == input[j];
        }
        if r.status != AwaitingInput {
          assert input[1..][r.consumed - 1] == input[r.consumed];
        }
      }
    }
  }

  /** Inputs after the point where the loop stopped are never read: appending
      more input changes nothing. If the loop was still waiting, it resumes on
      the appended input from the state it had reached. */
  lemma {:induction false} RunAppend(s: AppState, input: seq<Input>, later: seq<Input>)
    ensures Run(s, input).status != AwaitingInput ==> Run(s, input + later) == Run(s, input)
    ensures Run(s, input).status == AwaitingInput ==>
              Run(s, input + later) == After(|input|, Run(Run(s, input).final, later))
    decreases |input|
  {
    if !s.exit && input != [] {
      assert (input + later)[0] == input[0];
      assert (input + later)[1..] == input[1..] + later;
      var t := HandleEvents(s, input[0]);
      if t.outcome.Ok? {
        RunAppend(t.next, input[1..], later);
      }
    } else if !s.exit {
      assert input + later == later;
    }
  }

  /** Pressing Down first thing after start-up hits the u8 subtraction
      underflow, and the input after it is not read. */
  lemma DownAtStartUnderflows(rest: seq<Input>)
    ensures Run(DefaultState, [PressOf(Down)] + rest) == RunResult(DefaultState, 1, Failed(SubtractWithOverflow))
  {
    assert Run(DefaultState, [PressOf(Down)]) == RunResult(DefaultState, 1, Failed(SubtractWithOverflow));
    RunAppend(DefaultState, [PressOf(Down)], rest);
  }

  /** Three presses of Up after start-up: the third reports the limit error
      with the counter already at 3, and the input after it is not read. */
  lemma ThirdUpFails(rest: seq<Input>)
    ensures Run(DefaultState, [PressOf(Up), PressOf(Up), PressOf(Up)] + rest)
              == RunResult(AppState(3, false), 3, Failed(CounterOverflow))
  {
    var up := PressOf(Up);
    var three := [up, up, up];
    assert three[1..] == [up, up] && [up, up][1..] == [up];
    assert HandleEvents(AppState(2, false), up) == Transition(AppState(3, false), Err(CounterOverflow));
    assert Run(AppState(2, false), [up]) == RunResult(AppState(3, false), 1, Failed(CounterOverflow));
    assert HandleEvents(AppState(1, false), up) == Transition(AppState(2, false), Ok);
    assert Run(AppState(1, false), [up, up]) == RunResult(AppState(3, false), 2, Failed(CounterOverflow));
    assert HandleEvents(DefaultState, up) == Transition(AppState(1, false), Ok);
    assert Run(DefaultState, three) == RunResult(AppState(3, false), 3, Failed(CounterOverflow));
    RunAppend(DefaultState, three, rest);
  }
}
