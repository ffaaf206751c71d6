/**
 Outcomes of one case recorded by several workers. A close result is read and
 appended in separate transactions, so another worker may come between; an
 execution outcome is recorded in one.
 */
module CaseRaces {
  import opened CaseLedger
  import opened Options
  import Runs

  /** What a worker believes the case's state to be: nothing before its read, then what it read or last appended. */
  datatype Worker = Worker(result: CloseResult, seen: Option<State>)

  /** The case, the close workers, and whether one of them has attempted an illegal transition. */
  datatype System = System(row: Case, workers: seq<Worker>, raised: bool)

  datatype Action = Read(w: nat) | Append(w: nat) | Execute(outcome: Execution)

  /** The execution outcomes that may be recorded meanwhile, each any number of times. */
  type Outcomes = set<Execution>

  const ANY: Outcomes := {WasSubmitted, WasReplaced, WasFilled, WasCanceled, WasRejected, WasUnclear}

  /** The event a worker appends next, given what it believes. */
  function Planned(result: CloseResult, seen: State): Option<Event> {
    match result
    case DidClose =>
      if seen == Submitted then Some(Managing) else if seen == Managing then Some(Closed) else None
    case IsManaging => if seen == Submitted then Some(Managing) else None
    case CloseRejected | CloseUnclear => if seen in {Closed, Halted, Refused} then None else Some(Halted)
    case CloseWorking => None
  }

  /** The worker has an event to append. */
  predicate Plans(worker: Worker) {
    worker.seen.Some? && Planned(worker.result, worker.seen.value).Some?
  }

  function Believe(s: System, w: nat, seen: State): seq<Worker>
    requires w < |s.workers|
  {
    s.workers[w := s.workers[w].(seen := Some(seen))]
  }

  function Do(outcomes: Outcomes, s: System, a: Action): System {
    match a
    case Read(w) =>
      if w < |s.workers| && s.workers[w].seen.None? then s.(workers := Believe(s, w, s.row.state)) else s
    case Append(w) =>
      if w < |s.workers| && Plans(s.workers[w]) then
        var event := Planned(s.workers[w].result, s.workers[w].seen.value).value;
        if Transition(s.row.state, event).Some? then
          System(Advance(s.row, event), Believe(s, w, event), s.raised)
        else s.(raised := true)
      else s
    case Execute(outcome) => if outcome in outcomes then s.(row := AfterExecution(s.row, outcome)) else s
  }

  function Step(outcomes: Outcomes): (System, Action) -> System {
    (s: System, a: Action) => Do(outcomes, s, a)
  }

  function Started(c: Case, results: seq<CloseResult>): System {
    System(c, seq(|results|, i requires 0 <= i < |results| => Worker(results[i], None)), false)
  }

  /** Taking every planned event in turn is what recording the result in one go makes of the case. */
  lemma {:induction false} PlannedIsAfterClose(c: Case, result: CloseResult)
    ensures
      AfterClose(c, result)
      == match Planned(result, c.state)
         case None => c
         case Some(first) =>
           match Planned(result, first)
           case None => Advance(c, first)
           case Some(second) => Advance(Advance(c, first), second)
  {
  }

  // ------------------------------------------------------ where it is safe

  /** The state an execution outcome takes a case to. */
  function Lands(from: State, outcome: Execution): State {
    AfterExecution(Case(from, []), outcome).state
  }

  lemma {:induction false} LandsThere(c: Case, outcome: Execution)
    ensures AfterExecution(c, outcome).state == Lands(c.state, outcome)
  {
  }

  /** The states execution outcomes alone bring a case to. */
  predicate Visits(from: State, outcomes: Outcomes, s: State) {
    s == from || exists o :: o in outcomes && s == Lands(from, o)
  }

  /** One outcome is enough for every state several lead to. */
  lemma {:induction false} VisitsAgain(from: State, outcomes: Outcomes, s: State, t: State)
    requires Visits(from, outcomes, s) && Visits(s, outcomes, t)
    ensures Visits(from, outcomes, t)
  {
    if s != from && t != s {
      var o :| o in outcomes && s == Lands(from, o);
      var p :| p in outcomes && t == Lands(s, p);
      LandsAtOnce(from, o, p);
    }
  }

  lemma {:induction false} LandsAtOnce(from: State, first: Execution, second: Execution)
    ensures Lands(Lands(from, first), second) in {Lands(from, first), Lands(from, second)}
  {
  }

  /** At most one of the results makes its worker append to a case in this state. */
  predicate OnePlans(results: seq<CloseResult>, s: State) {
    forall i, j :: 0 <= i < j < |results| ==> Planned(results[i], s).None? || Planned(results[j], s).None?
  }

  /** An outcome recorded after a worker read this state makes its planned event illegal. */
  predicate Overtaken(result: CloseResult, s: State, outcomes: Outcomes) {
    && Planned(result, s).Some?
    && exists o :: o in outcomes && Transition(Lands(s, o), Planned(result, s).value).None?
  }

  predicate SafeAt(results: seq<CloseResult>, s: State, outcomes: Outcomes) {
    OnePlans(results, s) && forall i :: 0 <= i < |results| ==> !Overtaken(results[i], s, outcomes)
  }

  /** In every state execution outcomes lead to, one worker at most appends and none can be overtaken. */
  ghost predicate Safe(results: seq<CloseResult>, from: State, outcomes: Outcomes) {
    forall s :: Visits(from, outcomes, s) ==> SafeAt(results, s, outcomes)
  }

  lemma {:induction false} SafeAfterExecution(
    results: seq<CloseResult>, from: State, outcomes: Outcomes, outcome: Execution)
    requires Safe(results, from, outcomes) && outcome in outcomes
    ensures Safe(results, Lands(from, outcome), outcomes)
  {
    forall s | Visits(Lands(from, outcome), outcomes, s) ensures SafeAt(results, s, outcomes) {
      VisitsAgain(from, outcomes, Lands(from, outcome), s);
    }
  }

  /** Whoever plans in a state that follows a planned event planned already before it. */
  lemma {:induction false} PlannedBefore(result: CloseResult, other: CloseResult, from: State, s: State)
    requires Planned(result, from).Some? && Planned(other, s).Some?
    requires s == Planned(result, from).value
    ensures Planned(other, from).Some? && s == Managing
  {
  }

  lemma {:induction false} SafeAfterAppend(results: seq<CloseResult>, from: State, outcomes: Outcomes, i: nat)
    requires Safe(results, from, outcomes) && i < |results| && Planned(results[i], from).Some?
    ensures Safe(results, Planned(results[i], from).value, outcomes)
  {
    var to := Planned(results[i], from).value;
    assert SafeAt(results, from, outcomes);
    assert !Overtaken(results[i], from, outcomes);
    forall s | Visits(to, outcomes, s) ensures SafeAt(results, s, outcomes) {
      assert s == to || s == Halted;
      forall j | 0 <= j < |results| && Planned(results[j], s).Some?
        ensures j == i && s == Managing
      {
        PlannedBefore(results[i], results[j], from, s);
        assert i < j || j < i || i == j;
      }
    }
  }

  // ------------------------------------------------------ safety of runs

  /** Nothing was attempted in vain, and every worker's plan is what it would still plan now. */
  ghost predicate Calm(results: seq<CloseResult>, outcomes: Outcomes, s: System) {
    && !s.raised && Safe(results, s.row.state, outcomes)
    && |s.workers| == |results|
    && (forall i :: 0 <= i < |results| ==> s.workers[i].result == results[i])
    && forall i :: 0 <= i < |results| && Plans(s.workers[i]) ==>
         Planned(results[i], s.row.state) == Planned(results[i], s.workers[i].seen.value)
  }

  lemma {:induction false} StepKeepsCalm(results: seq<CloseResult>, outcomes: Outcomes, s: System, a: Action)
    requires Calm(results, outcomes, s)
    ensures Calm(results, outcomes, Do(outcomes, s, a))
  {
    assert SafeAt(results, s.row.state, outcomes);
    match a
    case Read(w) =>
    case Append(w) =>
      if w < |s.workers| && Plans(s.workers[w]) {
        SafeAfterAppend(results, s.row.state, outcomes, w);
        forall j | 0 <= j < |results| && j != w ensures !Plans(s.workers[j]) {
          assert w < j || j < w;
        }
      }
    case Execute(outcome) =>
      if outcome in outcomes {
        LandsThere(s.row, outcome);
        SafeAfterExecution(results, s.row.state, outcomes, outcome);
        forall i | 0 <= i < |results| && Plans(s.workers[i])
          ensures Planned(results[i], Lands(s.row.state, outcome)) == Planned(results[i], s.row.state)
        {
          assert !Overtaken(results[i], s.row.state, outcomes);
          StillPlanned(results[i], s.row.state, outcome);
        }
      }
  }

  /** An event that stays legal through an execution outcome stays the plan. */
  lemma {:induction false} StillPlanned(result: CloseResult, s: State, outcome: Execution)
    requires Planned(result, s).Some? && Transition(Lands(s, outcome), Planned(result, s).value).Some?
    ensures Planned(result, Lands(s, outcome)) == Planned(result, s)
  {
  }

  /** No interleaving of the workers with recorded outcomes attempts an illegal transition. */
  ghost predicate NeverRaises(c: Case, results: seq<CloseResult>, outcomes: Outcomes) {
    forall script :: !Runs.From(Step(outcomes), Started(c, results), script).raised
  }

  lemma {:induction false} SafeNeverRaises(
    c: Case, results: seq<CloseResult>, outcomes: Outcomes, script: seq<Action>)
    requires Safe(results, c.state, outcomes)
    ensures !Runs.From(Step(outcomes), Started(c, results), script).raised
  {
    var inv := s => Calm(results, outcomes, s);
    forall s, a | inv(s) ensures inv(Step(outcomes)(s, a)) {
      StepKeepsCalm(results, outcomes, s, a);
    }
    Runs.Keeps(Step(outcomes), inv, Started(c, results), script);
  }

  // ------------------------------------------------------- unsafe runs

  predicate Halts(result: CloseResult) {
    result in {CloseRejected, CloseUnclear}
  }

  /** Two workers read one state and both append; the one that halts goes first. */
  lemma {:induction false} RaceRaises(outcomes: Outcomes, s: System, first: nat, second: nat)
    requires first < |s.workers| && second < |s.workers| && first != second
    requires s.workers[first].seen.None? && s.workers[second].seen.None?
    requires Planned(s.workers[first].result, s.row.state).Some?
    requires Planned(s.workers[second].result, s.row.state).Some?
    requires Halts(s.workers[second].result) ==> Halts(s.workers[first].result)
    ensures Runs.From(Step(outcomes), s, [Read(first), Read(second), Append(first), Append(second)]).raised
  {
    var script := [Read(first), Read(second), Append(first), Append(second)];
    assert script[..0] == [] && script[..4] == script;
    Runs.Extends(Step(outcomes), s, script, 0);
    Runs.Extends(Step(outcomes), s, script, 1);
    Runs.Extends(Step(outcomes), s, script, 2);
    Runs.Extends(Step(outcomes), s, script, 3);
  }

  /** A worker reads, an outcome is recorded, and the worker appends. */
  lemma {:induction false} OvertakenRaises(outcomes: Outcomes, s: System, w: nat, outcome: Execution)
    requires w < |s.workers| && s.workers[w].seen.None? && outcome in outcomes
    requires Planned(s.workers[w].result, s.row.state).Some?
    requires Transition(Lands(s.row.state, outcome), Planned(s.workers[w].result, s.row.state).value).None?
    ensures Runs.From(Step(outcomes), s, [Read(w), Execute(outcome), Append(w)]).raised
  {
    var script := [Read(w), Execute(outcome), Append(w)];
    assert script[..0] == [] && script[..3] == script;
    LandsThere(s.row, outcome);
    Runs.Extends(Step(outcomes), s, script, 0);
    Runs.Extends(Step(outcomes), s, script, 1);
    Runs.Extends(Step(outcomes), s, script, 2);
  }

  /** A visited state is reached by at most one recorded outcome, before anyone has read. */
  lemma {:induction false} VisitsByScript(c: Case, results: seq<CloseResult>, outcomes: Outcomes, s: State)
    returns (script: seq<Action>, there: Case)
    requires Visits(c.state, outcomes, s)
    ensures there.state == s
    ensures Runs.From(Step(outcomes), Started(c, results), script) == Started(there, results)
  {
    if s == c.state {
      script, there := [], c;
    } else {
      var o :| o in outcomes && s == Lands(c.state, o);
      LandsThere(c, o);
      script, there := [Execute(o)], AfterExecution(c, o);
      Runs.One(Step(outcomes), Started(c, results), Execute(o));
    }
  }

  lemma {:induction false} UnsafeRaises(c: Case, results: seq<CloseResult>, outcomes: Outcomes)
    returns (script: seq<Action>)
    requires !Safe(results, c.state, outcomes)
    ensures Runs.From(Step(outcomes), Started(c, results), script).raised
  {
    var s :| Visits(c.state, outcomes, s) && !SafeAt(results, s, outcomes);
    var before, there := VisitsByScript(c, results, outcomes, s);
    var rest: seq<Action>;
    if !OnePlans(results, s) {
      var i, j :| 0 <= i < j < |results| && Planned(results[i], s).Some? && Planned(results[j], s).Some?;
      var (first, second) := if Halts(results[j]) then (j, i) else (i, j);
      rest := [Read(first), Read(second), Append(first), Append(second)];
      RaceRaises(outcomes, Started(there, results), first, second);
    } else {
      var i :| 0 <= i < |results| && Overtaken(results[i], s, outcomes);
      var o :| o in outcomes && Transition(Lands(s, o), Planned(results[i], s).value).None?;
      rest := [Read(i), Execute(o), Append(i)];
      OvertakenRaises(outcomes, Started(there, results), i, o);
    }
    script := before + rest;
    Runs.Splits(Step(outcomes), Started(c, results), before, rest);
  }

  // ------------------------------------------------------------- theorems

  /**
   On a given case, workers that record close results while execution outcomes
   are recorded never attempt an illegal transition, in any interleaving, if
   and only if in every state the outcomes lead to at most one worker appends
   and no outcome can make what it appends illegal.
   */
  lemma {:induction false} RecordersAreSafeIff(c: Case, results: seq<CloseResult>, outcomes: Outcomes)
    ensures NeverRaises(c, results, outcomes) <==> Safe(results, c.state, outcomes)
  {
    if Safe(results, c.state, outcomes) {
      forall script ensures !Runs.From(Step(outcomes), Started(c, results), script).raised {
        SafeNeverRaises(c, results, outcomes, script);
      }
    } else {
      var script := UnsafeRaises(c, results, outcomes);
    }
  }

  /** While no execution is recorded: if and only if at most one result makes its worker append to the case as it is. */
  lemma {:induction false} CloseRecordersAreSafeIff(c: Case, results: seq<CloseResult>)
    ensures NeverRaises(c, results, {}) <==> OnePlans(results, c.state)
  {
    RecordersAreSafeIff(c, results, {});
    assert Visits(c.state, {}, c.state);
  }

  /** A result that makes a worker append to some case. */
  predicate Active(result: CloseResult) {
    result != CloseWorking
  }

  predicate OneActive(results: seq<CloseResult>) {
    forall i, j :: 0 <= i < j < |results| ==> !Active(results[i]) || !Active(results[j])
  }

  predicate Fails(outcome: Execution) {
    outcome in {WasCanceled, WasRejected, WasUnclear}
  }

  /** No outcome overtakes the result: a failure overtakes every one that appends, a fill those that do not halt. */
  predicate Unaffected(result: CloseResult, outcomes: Outcomes) {
    Active(result) ==> forall o :: o in outcomes ==> !Fails(o) && (o == WasFilled ==> Halts(result))
  }

  lemma {:induction false} UnaffectedIff(result: CloseResult, outcomes: Outcomes)
    ensures Unaffected(result, outcomes) ==> forall s :: !Overtaken(result, s, outcomes)
    ensures !Unaffected(result, outcomes) ==> Overtaken(result, Submitted, outcomes)
  {
    if !Unaffected(result, outcomes) {
      var o :| o in outcomes && (Fails(o) || (o == WasFilled && !Halts(result)));
      assert Transition(Lands(Submitted, o), Planned(result, Submitted).value).None?;
    }
  }

  /** A case brought to its submission by the events of the normal path. */
  lemma {:induction false} SubmittedIsReached() returns (c: Case)
    ensures Inv(c) && c.state == Submitted
  {
    c := NEW_CASE;
    AdvanceKeepsInv(c, Observed);
    c := Advance(c, Observed);
    AdvanceKeepsInv(c, Forecasted);
    c := Advance(c, Forecasted);
    AdvanceKeepsInv(c, Argued);
    c := Advance(c, Argued);
    AdvanceKeepsInv(c, Certified);
    c := Advance(c, Certified);
    AdvanceKeepsInv(c, Submitted);
    c := Advance(c, Submitted);
  }

  /**
   On every case the ledger can hold: if and only if at most one result makes
   its worker append, and neither a failed execution nor, unless that result
   halts the case, a fill may be recorded meanwhile.
   */
  lemma {:induction false} RecordersAreAlwaysSafeIff(results: seq<CloseResult>, outcomes: Outcomes)
    ensures (forall c :: Inv(c) ==> NeverRaises(c, results, outcomes))
       <==> OneActive(results) && forall i :: 0 <= i < |results| ==> Unaffected(results[i], outcomes)
  {
    forall c: Case ensures NeverRaises(c, results, outcomes) <==> Safe(results, c.state, outcomes) {
      RecordersAreSafeIff(c, results, outcomes);
    }
    forall i | 0 <= i < |results|
      ensures Unaffected(results[i], outcomes) ==> forall s :: !Overtaken(results[i], s, outcomes)
      ensures !Unaffected(results[i], outcomes) ==> Overtaken(results[i], Submitted, outcomes)
    {
      UnaffectedIff(results[i], outcomes);
    }
    var c := SubmittedIsReached();
    assert Visits(c.state, outcomes, c.state);
    assert OnePlans(results, Submitted) <==> OneActive(results);
  }

  /** Beside arbitrary executions a close result that appends anything is never safe on every case. */
  lemma {:induction false} AnyExecutionIsSafeIff(results: seq<CloseResult>)
    ensures (forall c :: Inv(c) ==> NeverRaises(c, results, ANY))
       <==> forall i :: 0 <= i < |results| ==> !Active(results[i])
  {
    RecordersAreAlwaysSafeIff(results, ANY);
    assert WasUnclear in ANY;
  }

  /** A concrete run: two workers saw the close and both read the submitted case; the second one raises. */
  lemma {:induction false} TwoClosersRaise(c: Case)
    requires c.state == Submitted
    ensures Runs.From(Step({}), Started(c, [DidClose, DidClose]), [Read(0), Read(1), Append(0), Append(1)]).raised
  {
    RaceRaises({}, Started(c, [DidClose, DidClose]), 0, 1);
  }

  /** A concrete run: one worker alone, and the entry's fill is recorded between its read and its append. */
  lemma {:induction false} FillOvertakesCloseResult(c: Case)
    requires c.state == Submitted
    ensures
      Runs.From(Step({WasFilled}), Started(c, [IsManaging]), [Read(0), Execute(WasFilled), Append(0)]).raised
  {
    OvertakenRaises({WasFilled}, Started(c, [IsManaging]), 0, WasFilled);
  }

  /** Whatever the interleaving, the events stay one legal chain: an illegal append changes nothing. */
  lemma {:induction false} RacesKeepTheChain(
    c: Case, results: seq<CloseResult>, outcomes: Outcomes, script: seq<Action>)
    requires Inv(c)
    ensures Inv(Runs.From(Step(outcomes), Started(c, results), script).row)
  {
    forall s: System, a | Inv(s.row) ensures Inv(Step(outcomes)(s, a).row) {
      if a.Execute? {
        ExecutionKeepsInv(s.row, a.outcome);
      } else if Do(outcomes, s, a).row != s.row {
        AdvanceKeepsInv(s.row, Planned(s.workers[a.w].result, s.workers[a.w].seen.value).value);
      }
    }
    Runs.Keeps(Step(outcomes), (s: System) => Inv(s.row), Started(c, results), script);
  }
}
