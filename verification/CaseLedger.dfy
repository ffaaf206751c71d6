/** The append-only case events and the outcomes projected onto them. */
module CaseLedger {
  import opened Options

  datatype State =
    | Scheduled | Observed | Forecasted | Argued | Certified | Refused | Submitted | Managing | Closed | Halted

  /** An event is named after the state it leads to; nothing leads back to Scheduled. */
  type Event = s: State | s != Scheduled witness Halted

  /** The transition table: where each event may happen. */
  predicate Legal(current: State, event: Event) {
    match event
    case Observed => current == Scheduled
    case Forecasted => current == Observed
    case Argued => current == Forecasted
    case Certified => current == Argued
    case Refused => current == Argued
    case Submitted => current == Certified
    case Managing => current == Submitted
    case Closed => current == Managing
    case Halted => current != Closed && current != Halted
  }

  /** The next state, or None where the program raises. */
  function Transition(current: State, event: Event): Option<State> {
    if Legal(current, event) then Some(event) else None
  }

  datatype EventRow = EventRow(event: Event, from: State, to: State)

  /** One case: its row's state and its event rows. */
  datatype Case = Case(state: State, events: seq<EventRow>)

  const NEW_CASE := Case(Scheduled, [])

  /** The state of an execution record. */
  datatype Execution = WasSubmitted | WasReplaced | WasFilled | WasCanceled | WasRejected | WasUnclear

  /** The state of a close result; CloseWorking covers every state that advances nothing. */
  datatype CloseResult = DidClose | IsManaging | CloseRejected | CloseUnclear | CloseWorking

  /** A legal event appended to a case. */
  function Advance(c: Case, event: Event): Case
    requires Transition(c.state, event).Some?
  {
    var to := Transition(c.state, event).value;
    Case(to, c.events + [EventRow(event, c.state, to)])
  }

  /** The case after an execution outcome: every Advance here is legal, so recording never raises. */
  function AfterExecution(c: Case, outcome: Execution): Case {
    match outcome
    case WasSubmitted | WasReplaced =>
      if c.state == Certified then Advance(c, Submitted) else c
    case WasFilled =>
      var submitted := if c.state == Certified then Advance(c, Submitted) else c;
      if submitted.state == Submitted then Advance(submitted, Managing) else submitted
    case WasCanceled | WasRejected | WasUnclear =>
      if c.state in {Closed, Halted, Refused} then c else Advance(c, Halted)
  }

  function AfterClose(c: Case, result: CloseResult): Case {
    match result
    case DidClose =>
      var managing := if c.state == Submitted then Advance(c, Managing) else c;
      if managing.state == Managing then Advance(managing, Closed) else managing
    case IsManaging => if c.state == Submitted then Advance(c, Managing) else c
    case CloseRejected | CloseUnclear => if c.state in {Closed, Halted, Refused} then c else Advance(c, Halted)
    case CloseWorking => c
  }

  /** The row and its events in the form the program has them. */
  class CaseRow {
    var state: State
    var events: seq<EventRow>

    constructor ()
      ensures Value() == NEW_CASE
    {
      state := Scheduled;
      events := [];
    }

    function Value(): Case
      reads this
    {
      Case(state, events)
    }

    /** Appends a legal event; an illegal one changes nothing. */
    method AppendEvent(event: Event) returns (r: Result<State>)
      modifies this
      ensures r.Ok? <==> Transition(old(state), event).Some?
      ensures Value() == if r.Ok? then Advance(old(Value()), event) else old(Value())
      ensures r.Ok? ==> r.value == state
    {
      var next := Transition(state, event);
      if next.None? {
        return Err("invalid transition");
      }
      events := events + [EventRow(event, state, next.value)];
      state := next.value;
      return Ok(state);
    }

    method RecordExecution(outcome: Execution) returns (r: Result<State>)
      modifies this
      ensures r == Ok(state) && Value() == AfterExecution(old(Value()), outcome)
    {
      if outcome in {WasSubmitted, WasReplaced} {
        if state == Certified {
          r := AppendEvent(Submitted);
          return;
        }
        return Ok(state);
      }
      if outcome == WasFilled {
        if state == Certified {
          r := AppendEvent(Submitted);
        }
        if state == Submitted {
          r := AppendEvent(Managing);
          return;
        }
        return Ok(state);
      }
      if state !in {Closed, Halted, Refused} {
        r := AppendEvent(Halted);
        return;
      }
      return Ok(state);
    }

    method RecordCloseResult(result: CloseResult) returns (r: Result<State>)
      modifies this
      ensures r == Ok(state) && Value() == AfterClose(old(Value()), result)
    {
      r := Ok(state);
      if result == DidClose {
        if state == Submitted {
          r := AppendEvent(Managing);
        }
        if state == Managing {
          r := AppendEvent(Closed);
        }
      } else if result == IsManaging && state == Submitted {
        r := AppendEvent(Managing);
      } else if result in {CloseUnclear, CloseRejected} && state !in {Closed, Halted, Refused} {
        r := AppendEvent(Halted);
      }
    }
  }

  // ----------------------------------------------------------------- runs

  /** What may happen to a case: any event asked for, an execution outcome, a close result. */
  datatype Action = Ask(event: Event) | Executed(outcome: Execution) | CloseReported(result: CloseResult)

  function Step(c: Case, a: Action): Case {
    match a
    case Ask(event) => if Transition(c.state, event).Some? then Advance(c, event) else c
    case Executed(outcome) => AfterExecution(c, outcome)
    case CloseReported(result) => AfterClose(c, result)
  }

  function RunFrom(c: Case, actions: seq<Action>): Case {
    if actions == [] then c else Step(RunFrom(c, actions[..|actions| - 1]), actions[|actions| - 1])
  }

  /** The events a state stands for when the case was never halted. */
  function PathTo(s: State): seq<Event>
    requires s != Halted
  {
    match s
    case Scheduled => []
    case Observed => [Observed]
    case Forecasted => [Observed, Forecasted]
    case Argued => [Observed, Forecasted, Argued]
    case Refused => [Observed, Forecasted, Argued, Refused]
    case Certified => [Observed, Forecasted, Argued, Certified]
    case Submitted => [Observed, Forecasted, Argued, Certified, Submitted]
    case Managing => [Observed, Forecasted, Argued, Certified, Submitted, Managing]
    case Closed => [Observed, Forecasted, Argued, Certified, Submitted, Managing, Closed]
  }

  function EventsOf(c: Case): seq<Event> {
    seq(|c.events|, i requires 0 <= i < |c.events| => c.events[i].event)
  }

  /** The state in which the i-th event found the case. */
  function Before(events: seq<EventRow>, i: nat): State
    requires i <= |events|
  {
    if i == 0 then Scheduled else events[i - 1].to
  }

  predicate Linked(events: seq<EventRow>, i: nat)
    requires i < |events|
  {
    events[i].from == Before(events, i) && Transition(events[i].from, events[i].event) == Some(events[i].to)
  }

  /** Each event starts where the one before ended, is legal there, and the row holds the last state. */
  predicate Chained(c: Case) {
    (forall i :: 0 <= i < |c.events| ==> Linked(c.events, i)) && c.state == Before(c.events, |c.events|)
  }

  /** The state tells the whole history: the path to it, or the path to the state the case was halted in. */
  predicate HistoryKnown(c: Case) {
    if c.state != Halted then EventsOf(c) == PathTo(c.state)
    else
      && c.events != [] && c.events[|c.events| - 1].event == Halted
      && c.events[|c.events| - 1].from !in {Closed, Halted}
      && EventsOf(c) == PathTo(c.events[|c.events| - 1].from) + [Halted]
  }

  predicate Inv(c: Case) {
    Chained(c) && HistoryKnown(c)
  }

  lemma {:induction false} AdvanceKeepsChain(c: Case, event: Event)
    requires Chained(c) && Transition(c.state, event).Some?
    ensures Chained(Advance(c, event))
  {
    var d := Advance(c, event);
    forall i | 0 <= i < |d.events| ensures Linked(d.events, i) {
      if i < |c.events| {
        StaysLinked(c.events, d.events[|c.events|], i);
      }
    }
  }

  lemma {:induction false} StaysLinked(events: seq<EventRow>, row: EventRow, i: nat)
    requires i < |events| && Linked(events, i)
    ensures Linked(events + [row], i)
  {
  }

  lemma {:induction false} AdvanceKeepsHistory(c: Case, event: Event)
    requires HistoryKnown(c) && Transition(c.state, event).Some?
    ensures HistoryKnown(Advance(c, event))
  {
  }

  lemma {:induction false} AdvanceKeepsInv(c: Case, event: Event)
    requires Inv(c) && Transition(c.state, event).Some?
    ensures Inv(Advance(c, event))
  {
    AdvanceKeepsChain(c, event);
    AdvanceKeepsHistory(c, event);
  }

  lemma {:induction false} HaltKeepsInv(c: Case)
    requires Inv(c)
    ensures c.state !in {Closed, Halted, Refused} ==> Inv(Advance(c, Halted))
  {
    if c.state !in {Closed, Halted, Refused} {
      AdvanceKeepsInv(c, Halted);
    }
  }

  lemma {:induction false} ExecutionKeepsInv(c: Case, outcome: Execution)
    requires Inv(c)
    ensures Inv(AfterExecution(c, outcome))
  {
    HaltKeepsInv(c);
    var submitted := if c.state == Certified then Advance(c, Submitted) else c;
    if c.state == Certified {
      AdvanceKeepsInv(c, Submitted);
    }
    if submitted.state == Submitted {
      AdvanceKeepsInv(submitted, Managing);
    }
  }

  lemma {:induction false} CloseKeepsInv(c: Case, result: CloseResult)
    requires Inv(c)
    ensures Inv(AfterClose(c, result))
  {
    HaltKeepsInv(c);
    var managing := if c.state == Submitted then Advance(c, Managing) else c;
    if c.state == Submitted {
      AdvanceKeepsInv(c, Managing);
    }
    if managing.state == Managing {
      AdvanceKeepsInv(managing, Closed);
    }
  }

  lemma {:induction false} StepKeepsInv(c: Case, a: Action)
    requires Inv(c)
    ensures Inv(Step(c, a))
  {
    match a
    case Ask(event) =>
      if Transition(c.state, event).Some? {
        AdvanceKeepsInv(c, event);
      }
    case Executed(outcome) => ExecutionKeepsInv(c, outcome);
    case CloseReported(result) => CloseKeepsInv(c, result);
  }

  lemma {:induction false} RunKeepsInv(actions: seq<Action>)
    ensures Inv(RunFrom(NEW_CASE, actions))
  {
    if actions != [] {
      RunKeepsInv(actions[..|actions| - 1]);
      StepKeepsInv(RunFrom(NEW_CASE, actions[..|actions| - 1]), actions[|actions| - 1]);
    }
  }

  // ------------------------------------------------------------- theorems

  /** Over every run the events form one legal chain ending in the row's state, which tells the whole history. */
  lemma {:induction false} LedgerReplays(actions: seq<Action>)
    ensures Chained(RunFrom(NEW_CASE, actions)) && HistoryKnown(RunFrom(NEW_CASE, actions))
  {
    RunKeepsInv(actions);
  }

  lemma {:induction false} PathsAreShort(s: State)
    requires s != Halted
    ensures |PathTo(s)| <= 6 || (s == Closed && |PathTo(s)| == 7)
    ensures s in {Submitted, Managing, Closed} ==> |PathTo(s)| > 3 && PathTo(s)[3] == Certified
  {
  }

  /** No case ever holds more than seven events. */
  lemma {:induction false} AtMostSevenEvents(actions: seq<Action>)
    ensures |RunFrom(NEW_CASE, actions).events| <= 7
  {
    RunKeepsInv(actions);
    HistoryIsShort(RunFrom(NEW_CASE, actions));
  }

  lemma {:induction false} HistoryIsShort(c: Case)
    requires HistoryKnown(c)
    ensures |c.events| <= 7
    ensures c.state in {Submitted, Managing, Closed} ==> |c.events| > 3 && c.events[3].event == Certified
  {
    assert |EventsOf(c)| == |c.events|;
    if c.state != Halted {
      PathsAreShort(c.state);
      assert c.state in {Submitted, Managing, Closed} ==> EventsOf(c)[3] == Certified;
    } else {
      PathsAreShort(c.events[|c.events| - 1].from);
    }
  }

  /** Recording the same outcome again adds no event. */
  lemma {:induction false} RepeatAddsNothing(c: Case, outcome: Execution, result: CloseResult)
    ensures AfterExecution(AfterExecution(c, outcome), outcome) == AfterExecution(c, outcome)
    ensures AfterClose(AfterClose(c, result), result) == AfterClose(c, result)
  {
  }

  /** A closed or halted case is final, whatever is asked or reported. */
  lemma {:induction false} FinalStatesStay(c: Case, actions: seq<Action>)
    requires c.state in {Closed, Halted}
    ensures RunFrom(c, actions) == c
  {
    if actions != [] {
      FinalStatesStay(c, actions[..|actions| - 1]);
    }
  }

  /** Every case that was ever submitted was certified first. */
  lemma {:induction false} SubmittedOnlyAfterCertified(actions: seq<Action>)
    ensures
      var c := RunFrom(NEW_CASE, actions);
      c.state in {Submitted, Managing, Closed} ==> |c.events| > 3 && c.events[3].event == Certified
  {
    RunKeepsInv(actions);
    HistoryIsShort(RunFrom(NEW_CASE, actions));
  }
}
