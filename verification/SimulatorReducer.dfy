/** The simulator's reducer: one action at a time, on a run and on the envelope. */
module SimulatorReducer {
  import opened Options
  import Runs
  import opened SimulatorModel

  const MAX_AUDIT_EVENTS: nat := 200
  const MAX_RUN_HISTORY: nat := 20

  datatype RunTransition = RunTransition(run: DemoRun, accepted: bool, event: AuditEvent)

  /** Appends one event, moves the run to the event's resulting state and keeps the newest events only. */
  function AppendEvent(
    run: DemoRun, fixture: Fixture, action: DemoAction, prior: Lifecycle, resulting: Lifecycle, accepted: bool
  ): (DemoRun, AuditEvent) {
    var sequence := run.lastUpdatedSequence + 1;
    var event := AuditEvent(
      sequence, DeterministicTimestamp(fixture.evaluationTime, sequence), action.kind, prior, resulting,
      if action.actor.Some? then action.actor.value else PublicDemoUser, accepted);
    (run.(lifecycle := resulting,
          auditEvents := LastN(run.auditEvents + [event], MAX_AUDIT_EVENTS),
          lastUpdatedSequence := sequence),
     event)
  }

  function RejectRun(run: DemoRun, fixture: Fixture, action: DemoAction): RunTransition {
    var (r, event) := AppendEvent(run, fixture, action, run.lifecycle, run.lifecycle, false);
    RunTransition(r, false, event)
  }

  /** A proposal that deterministic policy lets through. */
  predicate ProposalPasses(run: DemoRun) {
    run.argument == Some(Base) && run.candidate.Some? && run.riskGate.Some? && run.riskGate.value.passed
  }

  /** When a run takes an action. */
  predicate Takes(run: DemoRun, fixture: Fixture, kind: ActionType) {
    match kind
    case AdvanceEvidence => !run.emergencyStop && run.lifecycle == Observing && run.evidenceCursor < fixture.evidence
    case CompleteForecast => !run.emergencyStop && run.lifecycle == Observing && run.evidenceCursor == fixture.evidence
    case CompleteArgument => !run.emergencyStop && run.lifecycle == Forecasted
    case RequestSupervision => !run.emergencyStop && run.lifecycle == Argued && ProposalPasses(run)
    case ApproveProposal => !run.emergencyStop && run.lifecycle == AwaitingSupervision && ProposalPasses(run)
    case VetoProposal => run.lifecycle == AwaitingSupervision
    case SimulateSubmit =>
      !run.emergencyStop && run.lifecycle == Certified && run.certificate.Some? && fixture.order.Some?
    case SimulateWorking => run.lifecycle == SimulatedSubmitted
    case SimulateFill => run.lifecycle == SimulatedWorking && fixture.fill.Some?
    case PauseScheduler => run.schedulerRunning
    case ResumeScheduler => !run.schedulerRunning
    case TriggerReconciliation => run.lifecycle == SimulatedFilled && fixture.reconciliation.Some?
    case ResolveReconciliation =>
      run.lifecycle == ReconciliationRequired && run.reconciliation.Some? && fixture.reconciliation.Some?
    case FailReconciliation => run.lifecycle == ReconciliationRequired
    case ClosePosition =>
      run.fill.Some?
      && (run.lifecycle == Reconciled
          || ((run.lifecycle == SimulatedFilled || run.lifecycle == BrokerUnknown) && run.emergencyStop))
    case CompleteClose => run.lifecycle == Closing && fixture.close.Some?
    case EmergencyStop => run.lifecycle != Closed && !run.emergencyStop
    case ResetScenario => false
  }

  /** What a taken action makes of the run, before its event is appended. */
  function Effect(run: DemoRun, fixture: Fixture, kind: ActionType): DemoRun {
    match kind
    case AdvanceEvidence => run.(evidenceCursor := run.evidenceCursor + 1)
    case CompleteForecast => run.(lifecycle := Forecasted, forecast := Some(fixture.forecast))
    case CompleteArgument =>
      var argued := run.(argument := Some(fixture.argument), riskGate := Some(fixture.riskGate));
      if fixture.argument == Base then argued.(lifecycle := Argued, candidate := fixture.candidate)
      else argued.(lifecycle := Vetoed, candidate := None, certificate := None, order := None, fill := None,
                   reconciliation := None, close := None)
    case RequestSupervision => run.(lifecycle := AwaitingSupervision)
    case ApproveProposal =>
      run.(lifecycle := Certified,
           certificate := if fixture.certificate.Some?
                          then Some(fixture.certificate.value.(issuedAtSequence := run.lastUpdatedSequence + 1))
                          else None)
    case VetoProposal =>
      run.(lifecycle := Vetoed, certificate := None, order := None, fill := None, reconciliation := None, close := None)
    case SimulateSubmit => run.(lifecycle := SimulatedSubmitted, order := fixture.order)
    case SimulateWorking => run.(lifecycle := SimulatedWorking)
    case SimulateFill => run.(lifecycle := SimulatedFilled, fill := fixture.fill)
    case PauseScheduler => run.(schedulerRunning := false)
    case ResumeScheduler => run.(schedulerRunning := true)
    case TriggerReconciliation => run.(lifecycle := ReconciliationRequired, reconciliation := fixture.reconciliation)
    case ResolveReconciliation => run.(lifecycle := Reconciled, reconciliation := fixture.reconciliation)
    case FailReconciliation => run.(lifecycle := BrokerUnknown)
    case ClosePosition => run.(lifecycle := Closing)
    case CompleteClose => run.(lifecycle := Closed, close := fixture.close)
    case EmergencyStop => run.(emergencyStop := true)
    case ResetScenario => run
  }

  /** One action on a run: a refused one is only recorded, and a passed argument asks for supervision by itself. */
  function Reduced(run: DemoRun, fixture: Fixture, action: DemoAction): RunTransition {
    if !Takes(run, fixture, action.kind) then RejectRun(run, fixture, action)
    else
      var next := Effect(run, fixture, action.kind);
      var (r, event) := AppendEvent(next, fixture, action, run.lifecycle, next.lifecycle, true);
      if action.kind == CompleteArgument && fixture.argument == Base then
        var (supervised, _) := AppendEvent(
          r.(lifecycle := AwaitingSupervision), fixture, DemoAction(RequestSupervision, Some(Simulator)),
          Argued, AwaitingSupervision, true);
        RunTransition(supervised, true, event)
      else RunTransition(r, true, event)
  }

  /** How far along its way a lifecycle is. */
  function Rank(l: Lifecycle): nat {
    match l
    case Observing => 0
    case Forecasted => 1
    case Argued => 2
    case AwaitingSupervision => 3
    case Certified => 4
    case SimulatedSubmitted => 5
    case SimulatedWorking => 6
    case SimulatedFilled => 7
    case ReconciliationRequired => 8
    case Reconciled | BrokerUnknown => 9
    case Closing => 10
    case Vetoed | Closed => 11
  }

  /** Nothing has been submitted yet. */
  predicate Unsubmitted(run: DemoRun) {
    Rank(run.lifecycle) < Rank(SimulatedSubmitted) && run.order.None? && run.fill.None?
  }

  /**
   What taking an action may do: the lifecycle moves forward, and stays only
   for the actions that are not about it; only an emergency stop sets the stop
   and nothing lifts it; and it holds what has not been submitted, except that
   a proposal may still be vetoed.
   */
  predicate Forward(run: DemoRun, kind: ActionType, after: DemoRun) {
    && (if kind in {AdvanceEvidence, PauseScheduler, ResumeScheduler, EmergencyStop}
        then after.lifecycle == run.lifecycle else Rank(after.lifecycle) > Rank(run.lifecycle))
    && (after.emergencyStop <==> run.emergencyStop || kind == EmergencyStop)
    && (run.emergencyStop && Unsubmitted(run) ==>
          && after.order.None? && after.fill.None?
          && (after.lifecycle == run.lifecycle
              || (kind == VetoProposal && run.lifecycle == AwaitingSupervision && after.lifecycle == Vetoed)))
  }

  lemma {:induction false} EffectIsForward(run: DemoRun, fixture: Fixture, kind: ActionType)
    requires Takes(run, fixture, kind)
    ensures Forward(run, kind, Effect(run, fixture, kind))
  {
  }

  /** The reducer's switch in the program's form: a clone whose fields are assigned action by action. */
  method Switch(run: DemoRun, fixture: Fixture, kind: ActionType)
    returns (taken: bool, next: DemoRun, resulting: Lifecycle)
    ensures taken == Takes(run, fixture, kind)
    ensures taken ==> next.(lifecycle := resulting) == Effect(run, fixture, kind)
    ensures taken ==> Forward(run, kind, next.(lifecycle := resulting))
  {
    next := run;
    resulting := run.lifecycle;
    match kind {
      case AdvanceEvidence =>
        if run.emergencyStop || run.lifecycle != Observing || run.evidenceCursor >= fixture.evidence {
          return false, run, run.lifecycle;
        }
        next := next.(evidenceCursor := next.evidenceCursor + 1);
      case CompleteForecast =>
        if run.emergencyStop || run.lifecycle != Observing || run.evidenceCursor != fixture.evidence {
          return false, run, run.lifecycle;
        }
        next := next.(forecast := Some(fixture.forecast));
        resulting := Forecasted;
      case CompleteArgument =>
        if run.emergencyStop || run.lifecycle != Forecasted {
          return false, run, run.lifecycle;
        }
        next := next.(argument := Some(fixture.argument));
        next := next.(riskGate := Some(fixture.riskGate));
        if fixture.argument == Veto {
          next := next.(candidate := None, certificate := None, order := None);
          next := next.(fill := None, reconciliation := None, close := None);
          resulting := Vetoed;
        } else {
          next := next.(candidate := fixture.candidate);
          resulting := Argued;
        }
      case RequestSupervision =>
        if run.emergencyStop || run.lifecycle != Argued || !ProposalPasses(run) {
          return false, run, run.lifecycle;
        }
        resulting := AwaitingSupervision;
      case ApproveProposal =>
        if run.emergencyStop || run.lifecycle != AwaitingSupervision || !ProposalPasses(run) {
          return false, run, run.lifecycle;
        }
        if fixture.certificate.Some? {
          var issued := fixture.certificate.value.(issuedAtSequence := run.lastUpdatedSequence + 1);
          next := next.(certificate := Some(issued));
        } else {
          next := next.(certificate := None);
        }
        resulting := Certified;
      case VetoProposal =>
        if run.lifecycle != AwaitingSupervision {
          return false, run, run.lifecycle;
        }
        next := next.(certificate := None, order := None, fill := None);
        next := next.(reconciliation := None, close := None);
        resulting := Vetoed;
      case SimulateSubmit =>
        if run.emergencyStop || run.lifecycle != Certified || run.certificate.None? || fixture.order.None? {
          return false, run, run.lifecycle;
        }
        next := next.(order := fixture.order);
        resulting := SimulatedSubmitted;
      case SimulateWorking =>
        if run.lifecycle != SimulatedSubmitted {
          return false, run, run.lifecycle;
        }
        resulting := SimulatedWorking;
      case SimulateFill =>
        if run.lifecycle != SimulatedWorking || fixture.fill.None? {
          return false, run, run.lifecycle;
        }
        next := next.(fill := fixture.fill);
        resulting := SimulatedFilled;
      case PauseScheduler =>
        if !run.schedulerRunning {
          return false, run, run.lifecycle;
        }
        next := next.(schedulerRunning := false);
      case ResumeScheduler =>
        if run.schedulerRunning {
          return false, run, run.lifecycle;
        }
        next := next.(schedulerRunning := true);
      case TriggerReconciliation =>
        if run.lifecycle != SimulatedFilled || fixture.reconciliation.None? {
          return false, run, run.lifecycle;
        }
        next := next.(reconciliation := fixture.reconciliation);
        resulting := ReconciliationRequired;
      case ResolveReconciliation =>
        if run.lifecycle != ReconciliationRequired || run.reconciliation.None? || fixture.reconciliation.None? {
          return false, run, run.lifecycle;
        }
        next := next.(reconciliation := fixture.reconciliation);
        resulting := Reconciled;
      case FailReconciliation =>
        if run.lifecycle != ReconciliationRequired {
          return false, run, run.lifecycle;
        }
        resulting := BrokerUnknown;
      case ClosePosition =>
        if run.fill.None? {
          return false, run, run.lifecycle;
        }
        if run.lifecycle == Reconciled {
          resulting := Closing;
        } else if run.lifecycle in {SimulatedFilled, BrokerUnknown} && run.emergencyStop {
          resulting := Closing;
        } else {
          return false, run, run.lifecycle;
        }
      case CompleteClose =>
        if run.lifecycle != Closing || fixture.close.None? {
          return false, run, run.lifecycle;
        }
        next := next.(close := fixture.close);
        resulting := Closed;
      case EmergencyStop =>
        if run.lifecycle == Closed || run.emergencyStop {
          return false, run, run.lifecycle;
        }
        next := next.(emergencyStop := true);
      case ResetScenario =>
        return false, run, run.lifecycle;
    }
    taken := true;
    EffectIsForward(run, fixture, kind);
  }

  /** A passed argument is followed by the simulator's own request for supervision. */
  predicate AsksForSupervision(fixture: Fixture, action: DemoAction, accepted: bool) {
    accepted && action.kind == CompleteArgument && fixture.argument == Base
  }

  /**
   What every transition guarantees: the run stays the same run, its sequence
   counts the events appended, a refusal changes nothing but the audit stream,
   the reported event is the first appended and starts where the run was, and
   the newest event in the stream ends where the run now is.
   */
  predicate LawfulTransition(run: DemoRun, fixture: Fixture, action: DemoAction, t: RunTransition) {
    && t.run.runId == run.runId && t.run.scenarioId == run.scenarioId && t.run.seed == run.seed
    && t.run.lastUpdatedSequence
       == run.lastUpdatedSequence + (if AsksForSupervision(fixture, action, t.accepted) then 2 else 1)
    && (!t.accepted ==>
          t.run == run.(auditEvents := t.run.auditEvents, lastUpdatedSequence := t.run.lastUpdatedSequence))
    && t.event.sequence == run.lastUpdatedSequence + 1
    && t.event.action == action.kind && t.event.priorState == run.lifecycle && t.event.accepted == t.accepted
    && (t.event.resultingState == t.run.lifecycle || AsksForSupervision(fixture, action, t.accepted))
    && t.event in t.run.auditEvents
    && |t.run.auditEvents| <= MAX_AUDIT_EVENTS
    && t.run.auditEvents[|t.run.auditEvents| - 1].resultingState == t.run.lifecycle
    && t.run.auditEvents[|t.run.auditEvents| - 1].sequence == t.run.lastUpdatedSequence
  }

  lemma {:induction false} AppendKeepsNewest(
    run: DemoRun, fixture: Fixture, action: DemoAction, prior: Lifecycle, resulting: Lifecycle, accepted: bool)
    ensures
      var (r, event) := AppendEvent(run, fixture, action, prior, resulting, accepted);
      && r.auditEvents != [] && r.auditEvents[|r.auditEvents| - 1] == event
      && forall x :: x in run.auditEvents && x == run.auditEvents[|run.auditEvents| - 1] ==> x in r.auditEvents
  {
    var all := run.auditEvents + [AppendEvent(run, fixture, action, prior, resulting, accepted).1];
    var r := LastN(all, MAX_AUDIT_EVENTS);
    assert r[|r| - 1] == all[|all| - 1];
    if run.auditEvents != [] {
      assert r[|r| - 2] == all[|all| - 2] == run.auditEvents[|run.auditEvents| - 1];
    }
  }

  /** No action's effect touches the identity of the run or its audit stream. */
  predicate SameFrame(run: DemoRun, next: DemoRun) {
    && next.runId == run.runId && next.scenarioId == run.scenarioId && next.seed == run.seed
    && next.auditEvents == run.auditEvents && next.lastUpdatedSequence == run.lastUpdatedSequence
  }

  lemma {:induction false} EffectKeepsFrame(run: DemoRun, fixture: Fixture, kind: ActionType)
    ensures SameFrame(run, Effect(run, fixture, kind))
  {
  }

  lemma {:induction false} OneEventIsLawful(
    run: DemoRun, next: DemoRun, fixture: Fixture, action: DemoAction, accepted: bool)
    requires SameFrame(run, next) && !AsksForSupervision(fixture, action, accepted) && (!accepted ==> next == run)
    ensures
      var (r, event) := AppendEvent(next, fixture, action, run.lifecycle, next.lifecycle, accepted);
      LawfulTransition(run, fixture, action, RunTransition(r, accepted, event))
  {
    AppendKeepsNewest(next, fixture, action, run.lifecycle, next.lifecycle, accepted);
  }

  lemma {:induction false} TwoEventsAreLawful(run: DemoRun, next: DemoRun, fixture: Fixture, action: DemoAction)
    requires SameFrame(run, next) && AsksForSupervision(fixture, action, true)
    ensures
      var (r, event) := AppendEvent(next, fixture, action, run.lifecycle, next.lifecycle, true);
      var (supervised, _) := AppendEvent(
        r.(lifecycle := AwaitingSupervision), fixture, DemoAction(RequestSupervision, Some(Simulator)),
        Argued, AwaitingSupervision, true);
      LawfulTransition(run, fixture, action, RunTransition(supervised, true, event))
  {
    var r := AppendEvent(next, fixture, action, run.lifecycle, next.lifecycle, true).0;
    AppendKeepsNewest(next, fixture, action, run.lifecycle, next.lifecycle, true);
    AppendKeepsNewest(
      r.(lifecycle := AwaitingSupervision), fixture, DemoAction(RequestSupervision, Some(Simulator)),
      Argued, AwaitingSupervision, true);
  }

  lemma {:induction false} ReducedIsLawful(run: DemoRun, fixture: Fixture, action: DemoAction)
    ensures LawfulTransition(run, fixture, action, Reduced(run, fixture, action))
  {
    var next := Effect(run, fixture, action.kind);
    EffectKeepsFrame(run, fixture, action.kind);
    if !Takes(run, fixture, action.kind) {
      OneEventIsLawful(run, run, fixture, action, false);
    } else if AsksForSupervision(fixture, action, true) {
      TwoEventsAreLawful(run, next, fixture, action);
    } else {
      OneEventIsLawful(run, next, fixture, action, true);
    }
  }

  method ReduceRun(run: DemoRun, fixture: Fixture, action: DemoAction) returns (t: RunTransition)
    ensures LawfulTransition(run, fixture, action, t)
    ensures t == Reduced(run, fixture, action)
  {
    t := Transition(run, fixture, action);
    ReducedIsLawful(run, fixture, action);
  }

  method Transition(run: DemoRun, fixture: Fixture, action: DemoAction) returns (t: RunTransition)
    ensures t == Reduced(run, fixture, action)
  {
    var taken, next, resulting := Switch(run, fixture, action.kind);
    if !taken {
      return RejectRun(run, fixture, action);
    }
    var (appended, event) := AppendEvent(next, fixture, action, run.lifecycle, resulting, true);
    if action.kind == CompleteArgument && fixture.argument == Base {
      var (supervised, _) := AppendEvent(
        appended.(lifecycle := AwaitingSupervision), fixture, DemoAction(RequestSupervision, Some(Simulator)),
        Argued, AwaitingSupervision, true);
      return RunTransition(supervised, true, event);
    }
    return RunTransition(appended, true, event);
  }

  // ------------------------------------------------- whole runs of actions

  function Actions(fixture: Fixture): (DemoRun, DemoAction) -> DemoRun {
    (run: DemoRun, action: DemoAction) => Reduced(run, fixture, action).run
  }

  /** No sequence of actions takes a run's lifecycle back, or lifts its emergency stop. */
  lemma {:induction false} RunsNeverGoBack(run: DemoRun, fixture: Fixture, actions: seq<DemoAction>)
    ensures
      var after := Runs.From(Actions(fixture), run, actions);
      Rank(after.lifecycle) >= Rank(run.lifecycle) && (run.emergencyStop ==> after.emergencyStop)
    decreases |actions|
  {
    if actions != [] {
      if Takes(run, fixture, actions[0].kind) {
        EffectIsForward(run, fixture, actions[0].kind);
      }
      RunsNeverGoBack(Actions(fixture)(run, actions[0]), fixture, actions[1..]);
    }
  }

  /** Held where it stood, or vetoed while it awaited supervision. */
  predicate HeldFrom(start: Lifecycle, run: DemoRun) {
    && run.emergencyStop && run.order.None? && run.fill.None?
    && (run.lifecycle == start || (start == AwaitingSupervision && run.lifecycle == Vetoed))
  }

  lemma {:induction false} ActionKeepsHeld(
    start: Lifecycle, run: DemoRun, fixture: Fixture, action: DemoAction)
    requires Rank(start) < Rank(SimulatedSubmitted) && HeldFrom(start, run)
    ensures HeldFrom(start, Reduced(run, fixture, action).run)
  {
    if Takes(run, fixture, action.kind) {
      EffectIsForward(run, fixture, action.kind);
    }
  }

  /**
   An emergency stop before submission is final: no sequence of actions then
   submits or fills an order, and the run stays where it stood unless a
   proposal awaiting supervision is vetoed.
   */
  lemma {:induction false} StoppedRunNeverSubmits(run: DemoRun, fixture: Fixture, actions: seq<DemoAction>)
    requires run.emergencyStop && Unsubmitted(run)
    ensures HeldFrom(run.lifecycle, Runs.From(Actions(fixture), run, actions))
  {
    var inv := r => HeldFrom(run.lifecycle, r);
    forall r, a | inv(r) ensures inv(Actions(fixture)(r, a)) {
      ActionKeepsHeld(run.lifecycle, r, fixture, a);
    }
    Runs.Keeps(Actions(fixture), inv, run, actions);
  }

  predicate TerminalLifecycle(l: Lifecycle) {
    l == Vetoed || l == Closed
  }

  /** One action on the envelope: a finished run moves to the bounded history. */
  function ApplyDemoAction(state: Envelope, action: DemoAction): Envelope {
    if action.kind == ResetScenario then AUTHORED_SEED
    else if state.activeRun.None? then state
    else
      var t := Reduced(state.activeRun.value, GetFixture(state.activeRun.value.scenarioId), action);
      if t.accepted && TerminalLifecycle(t.run.lifecycle) then
        state.(activeRun := None, runHistory := LastN(state.runHistory + [t.run], MAX_RUN_HISTORY))
      else state.(activeRun := Some(t.run))
  }

  /** Nothing authored or recorded has touched the run yet. */
  predicate PristineRun(run: DemoRun) {
    && run.lifecycle == Observing && run.evidenceCursor == 0
    && run.forecast.None? && run.argument.None? && run.riskGate.None? && run.candidate.None?
    && run.certificate.None? && run.order.None? && run.fill.None? && run.reconciliation.None? && run.close.None?
    && run.schedulerRunning && !run.emergencyStop
  }

  predicate PristineSeedRun(run: DemoRun) {
    run.runId == "run-0001" && PristineRun(run) && run.auditEvents == [] && run.lastUpdatedSequence == 0
  }

  /** Selecting a scenario: an unfinished run blocks it, unless that run is the untouched seed. */
  function ActivateScenario(state: Envelope, id: ScenarioId): Envelope {
    var active := state.activeRun;
    if active.Some? && active.value.scenarioId == id && !TerminalLifecycle(active.value.lifecycle) then state
    else if active.Some? && !PristineSeedRun(active.value) && !TerminalLifecycle(active.value.lifecycle) then state
    else
      var replaceSeed := active.Some? && PristineSeedRun(active.value);
      var archived := if active.None? || replaceSeed then state.runHistory
                      else LastN(state.runHistory + [active.value], MAX_RUN_HISTORY);
      var number := if replaceSeed then 1 else state.nextRunNumber;
      Envelope(number + 1, Some(CreateRun(GetFixture(id), number)), archived)
  }

  /** What a user can do to the envelope. */
  datatype Command = Dispatch(action: DemoAction) | Activate(scenario: ScenarioId)

  function Step(state: Envelope, command: Command): Envelope {
    match command
    case Dispatch(action) => ApplyDemoAction(state, action)
    case Activate(scenario) => ActivateScenario(state, scenario)
  }

  function StepsFrom(state: Envelope, commands: seq<Command>): Envelope
    decreases |commands|
  {
    if commands == [] then state else StepsFrom(Step(state, commands[0]), commands[1..])
  }

  /** The envelope a sequence of commands makes of the authored seed. */
  function Reached(commands: seq<Command>): Envelope {
    StepsFrom(AUTHORED_SEED, commands)
  }
}
