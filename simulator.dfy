/** The Level 1 -> Level 2 event simulation, as pure functions: which events one observation of
    the transport fires, the success rule, and what a whole request's observations fire. */
module Simulator {
  import opened Strings

  // Client states of the "States" section of the W3C XMLHttpRequest specification.
  const UNSENT := 0
  const OPENED := 1
  const HEADERS_RECEIVED := 2
  const LOADING := 3
  const DONE := 4

  /** The event types the proxy's listener registry is declared with. */
  datatype EventType = LoadStart | Load | LoadEnd | Progress | ReadyStateChange | Error | Timeout

  /** Whether a finished request succeeded: a 2xx status, or also status 0 for a local file. */
  predicate IsSuccess(status: int, isFilePath: bool)
    ensures 200 <= status < 300 ==> IsSuccess(status, isFilePath)
    ensures IsSuccess(status, isFilePath) ==> 200 <= status < 300 || (status == 0 && isFilePath)
  {
    var ok := 200 <= status < 300;
    if isFilePath then status == 0 || ok else ok
  }

  /** The `/^file\:/` test on the URL last passed to `open`. */
  predicate IsFileURL(url: string)
    ensures IsFileURL(url) <==> OccursAt(url, "file:", 0)
    ensures IsFileURL(url) ==> Contains(url, "file:")
  {
    StartsWith(url, "file:")
  }

  /** The events the `switch` on the observed ready state fires. */
  function Dispatch(state: int, status: int, isFilePath: bool): (es: seq<EventType>)
    ensures ReadyStateChange !in es && |es| <= 2
    ensures LoadEnd in es <==> state == DONE
    ensures Load in es ==> state == DONE && es == [Load, LoadEnd]
  {
    if state == OPENED then [LoadStart]
    else if state == HEADERS_RECEIVED || state == LOADING then [Progress]
    else if state == DONE then (if IsSuccess(status, isFilePath) then [Load] else []) + [LoadEnd]
    else []
  }

  /** The events one observation fires, given the ready state seen by the previous observation. */
  function SimulatedEvents(last: int, state: int, status: int, isFilePath: bool): (es: seq<EventType>)
    ensures ReadyStateChange in es <==> last != state
    ensures last != state ==> es[0] == ReadyStateChange
  {
    (if last != state then [ReadyStateChange] else []) + Dispatch(state, status, isFilePath)
  }

  /** Number of occurrences of `e` in `es`. */
  function Count(e: EventType, es: seq<EventType>): nat
  {
    if es == [] then 0 else (if es[0] == e then 1 else 0) + Count(e, es[1..])
  }

  lemma {:induction false} CountAppend(e: EventType, a: seq<EventType>, b: seq<EventType>)
    ensures Count(e, a + b) == Count(e, a) + Count(e, b)
  {
    if a != [] {
      assert (a + b)[1..] == a[1..] + b;
      CountAppend(e, a[1..], b);
    } else {
      assert a + b == b;
    }
  }

  lemma {:induction false} CountZeroIffAbsent(e: EventType, es: seq<EventType>)
    ensures Count(e, es) == 0 <==> e !in es
  {
    if es != [] {
      CountZeroIffAbsent(e, es[1..]);
      assert es == [es[0]] + es[1..];
    }
  }

  // ----- the success rule -----

  lemma NetworkSuccess(status: int)
    ensures IsSuccess(status, false) <==> 200 <= status < 300
  {
  }

  lemma FileSuccess(status: int)
    ensures IsSuccess(status, true) <==> status == 0 || 200 <= status < 300
  {
  }

  /** The file-scheme rule accepts everything the network rule does, and status 0 besides. */
  lemma FileRuleExtendsNetworkRule(status: int)
    ensures IsSuccess(status, false) ==> IsSuccess(status, true)
    ensures IsSuccess(status, true) && !IsSuccess(status, false) <==> status == 0
  {
  }

  // ----- one observation -----

  /** `readystatechange` fires, at most once and first, exactly when the state changed. */
  lemma ReadyStateChangeIffChanged(last: int, state: int, status: int, isFilePath: bool)
    ensures var es := SimulatedEvents(last, state, status, isFilePath);
      Count(ReadyStateChange, es) == (if last != state then 1 else 0) &&
      (last != state ==> es[0] == ReadyStateChange)
  {
    var head := if last != state then [ReadyStateChange] else [];
    var tail := Dispatch(state, status, isFilePath);
    CountAppend(ReadyStateChange, head, tail);
    CountZeroIffAbsent(ReadyStateChange, tail);
    CountZeroIffAbsent(ReadyStateChange, head);
  }

  /** A repeated observation of an unchanged state does not fire `readystatechange` again. */
  lemma RepeatedStateSuppressed(state: int, status: int, isFilePath: bool)
    ensures ReadyStateChange !in SimulatedEvents(state, state, status, isFilePath)
  {
  }

  /** What follows the optional `readystatechange`, state by state. */
  lemma DispatchByState(last: int, state: int, status: int, isFilePath: bool)
    ensures var es := SimulatedEvents(last, state, status, isFilePath);
      var rest := es[if last != state then 1 else 0..];
      (state == UNSENT ==> rest == []) &&
      (state == OPENED ==> rest == [LoadStart]) &&
      (state == HEADERS_RECEIVED || state == LOADING ==> rest == [Progress]) &&
      (state == DONE && IsSuccess(status, isFilePath) ==> rest == [Load, LoadEnd]) &&
      (state == DONE && !IsSuccess(status, isFilePath) ==> rest == [LoadEnd])
  {
    var es := SimulatedEvents(last, state, status, isFilePath);
    var head := if last != state then [ReadyStateChange] else [];
    assert es == head + Dispatch(state, status, isFilePath);
    assert es[|head|..] == Dispatch(state, status, isFilePath);
  }

  /** `load` fires exactly for a successful DONE. */
  lemma LoadIffSuccessfulDone(last: int, state: int, status: int, isFilePath: bool)
    ensures Load in SimulatedEvents(last, state, status, isFilePath) <==>
      state == DONE && IsSuccess(status, isFilePath)
  {
  }

  /** `loadend` fires exactly on DONE, once, as the last event and after any `load`. */
  lemma LoadEndClosesDone(last: int, state: int, status: int, isFilePath: bool)
    ensures var es := SimulatedEvents(last, state, status, isFilePath);
      (LoadEnd in es <==> state == DONE) &&
      (state == DONE ==> es[|es| - 1] == LoadEnd && Count(LoadEnd, es) == 1 && Count(Load, es) <= 1)
  {
    var head := if last != state then [ReadyStateChange] else [];
    var tail := Dispatch(state, status, isFilePath);
    if state == DONE {
      var loads := if IsSuccess(status, isFilePath) then [Load] else [];
      assert tail == loads + [LoadEnd];
      CountAppend(LoadEnd, head, tail);
      CountAppend(LoadEnd, loads, [LoadEnd]);
      CountAppend(Load, head, tail);
      CountAppend(Load, loads, [LoadEnd]);
      CountZeroIffAbsent(LoadEnd, head);
      CountZeroIffAbsent(LoadEnd, loads);
      CountZeroIffAbsent(Load, head);
      CountZeroIffAbsent(Load, [LoadEnd]);
    }
  }

  /** The simulation never synthesises `error` or `timeout`. */
  lemma NoSyntheticErrorOrTimeout(last: int, state: int, status: int, isFilePath: bool)
    ensures Error !in SimulatedEvents(last, state, status, isFilePath)
    ensures Timeout !in SimulatedEvents(last, state, status, isFilePath)
  {
  }

  // ----- a whole request -----

  /** The events fired by successive observations of `states`, the first compared with `last`.
      The status only matters when DONE is observed, so one final status stands for all. */
  function Trace(last: int, states: seq<int>, status: int, isFilePath: bool): seq<EventType>
    decreases |states|
  {
    if states == [] then []
    else SimulatedEvents(last, states[0], status, isFilePath) + Trace(states[0], states[1..], status, isFilePath)
  }

  /** How many observations in `states` see a state different from the one before. */
  function Changes(last: int, states: seq<int>): nat
    decreases |states|
  {
    if states == [] then 0
    else (if last != states[0] then 1 else 0) + Changes(states[0], states[1..])
  }

  /** Over a whole request, `readystatechange` fires once per change of the observed state. */
  lemma {:induction false} TraceReadyStateChanges(last: int, states: seq<int>, status: int, isFilePath: bool)
    ensures Count(ReadyStateChange, Trace(last, states, status, isFilePath)) == Changes(last, states)
    decreases |states|
  {
    if states != [] {
      var first := SimulatedEvents(last, states[0], status, isFilePath);
      ReadyStateChangeIffChanged(last, states[0], status, isFilePath);
      TraceReadyStateChanges(states[0], states[1..], status, isFilePath);
      CountAppend(ReadyStateChange, first, Trace(states[0], states[1..], status, isFilePath));
    }
  }

  /** An observation before DONE fires neither `load` nor `loadend`. */
  lemma NotDoneFiresNoCompletion(last: int, state: int, status: int, isFilePath: bool)
    requires state != DONE
    ensures var es := SimulatedEvents(last, state, status, isFilePath);
      Count(Load, es) == 0 && Count(LoadEnd, es) == 0
  {
    var es := SimulatedEvents(last, state, status, isFilePath);
    LoadIffSuccessfulDone(last, state, status, isFilePath);
    LoadEndClosesDone(last, state, status, isFilePath);
    CountZeroIffAbsent(Load, es);
    CountZeroIffAbsent(LoadEnd, es);
  }

  /** A request observed until its one DONE fires `load` once exactly when it succeeded,
      and `loadend` once, as its very last event. */
  lemma {:induction false} CompletedRequestTrace(last: int, states: seq<int>, status: int, isFilePath: bool)
    requires states != [] && states[|states| - 1] == DONE
    requires DONE !in states[..|states| - 1]
    ensures var t := Trace(last, states, status, isFilePath);
      Count(Load, t) == (if IsSuccess(status, isFilePath) then 1 else 0) &&
      Count(LoadEnd, t) == 1 &&
      t[|t| - 1] == LoadEnd
    decreases |states|
  {
    var first := SimulatedEvents(last, states[0], status, isFilePath);
    var rest := Trace(states[0], states[1..], status, isFilePath);
    assert Trace(last, states, status, isFilePath) == first + rest;
    CountAppend(Load, first, rest);
    CountAppend(LoadEnd, first, rest);
    if |states| == 1 {
      LoadEndClosesDone(last, DONE, status, isFilePath);
      LoadIffSuccessfulDone(last, DONE, status, isFilePath);
      CountZeroIffAbsent(Load, first);
      assert rest == [];
    } else {
      assert states[0] in states[..|states| - 1];
      assert states[1..][..|states[1..]| - 1] == states[1..|states| - 1];
      NotDoneFiresNoCompletion(last, states[0], status, isFilePath);
      CompletedRequestTrace(states[0], states[1..], status, isFilePath);
    }
  }
}
