/**
 The storage validator, written separately from the reducer, and what it says
 about every envelope the reducer can produce.
 */
module SimulatorPersistence {
  import opened Options
  import opened SimulatorModel
  import opened SimulatorReducer

  // ----------------------------------------------------------- validator

  predicate PostArgument(l: Lifecycle) {
    l != Observing && l != Forecasted
  }

  predicate HasCertificate(l: Lifecycle) {
    l == Certified || HasOrder(l)
  }

  predicate HasOrder(l: Lifecycle) {
    l == SimulatedSubmitted || l == SimulatedWorking || HasFill(l)
  }

  predicate HasFill(l: Lifecycle) {
    l == SimulatedFilled || l == Closing || l == Closed || RequiresReconciliation(l)
  }

  predicate RequiresReconciliation(l: Lifecycle) {
    l == ReconciliationRequired || l == Reconciled || l == BrokerUnknown
  }

  /** An artifact is present exactly when it should be, and then it is the authored one. */
  predicate PresentAs(required: bool, actual: Option<string>, authored: Option<string>) {
    required == actual.Some? && (required ==> actual == authored)
  }

  predicate IssuanceEvent(event: AuditEvent) {
    event.action == ApproveProposal && event.accepted && event.resultingState == Certified
  }

  predicate CertificateConsistent(run: DemoRun, fixture: Fixture) {
    && HasCertificate(run.lifecycle) == run.certificate.Some?
    && (run.certificate.Some? ==>
          var issued := run.certificate.value.issuedAtSequence;
          && fixture.certificate.Some?
          && run.certificate.value.content == fixture.certificate.value.content
          && 1 <= issued <= run.lastUpdatedSequence
          && forall i :: 0 <= i < |run.auditEvents| && run.auditEvents[i].sequence == issued
                && (forall j :: 0 <= j < i ==> run.auditEvents[j].sequence != issued)
                ==> IssuanceEvent(run.auditEvents[i]))
  }

  predicate DecisionConsistent(run: DemoRun, fixture: Fixture) {
    var l := run.lifecycle;
    && PresentAs(l != Observing, run.forecast, Some(fixture.forecast))
    && (l != Observing ==> run.evidenceCursor == fixture.evidence)
    && PostArgument(l) == run.argument.Some?
    && (PostArgument(l) ==> run.argument.value == fixture.argument)
    && PostArgument(l) == run.riskGate.Some?
    && (PostArgument(l) ==> run.riskGate.value == fixture.riskGate)
    && PresentAs(PostArgument(l) && run.argument == Some(Base), run.candidate, fixture.candidate)
  }

  predicate TradeConsistent(run: DemoRun, fixture: Fixture) {
    var l := run.lifecycle;
    && PresentAs(HasOrder(l), run.order, fixture.order)
    && PresentAs(HasFill(l), run.fill, fixture.fill)
    && PresentAs(l == Closed, run.close, fixture.close)
  }

  predicate ReconciliationConsistent(run: DemoRun, fixture: Fixture) {
    var l := run.lifecycle;
    && RequiresReconciliation(l) == run.reconciliation.Some?
    && (!RequiresReconciliation(l) && l != Closing && l != Closed ==> run.reconciliation.None?)
    && ((l == Closing || l == Closed) && run.reconciliation.None? ==> run.emergencyStop)
    && (run.reconciliation.Some? ==> run.reconciliation == fixture.reconciliation)
  }

  predicate RunStateConsistent(run: DemoRun, fixture: Fixture) {
    && DecisionConsistent(run, fixture)
    && CertificateConsistent(run, fixture)
    && TradeConsistent(run, fixture)
    && ReconciliationConsistent(run, fixture)
  }

  predicate EventFollows(previous: AuditEvent, event: AuditEvent) {
    event.sequence == previous.sequence + 1 && event.priorState == previous.resultingState
  }

  predicate EventOk(event: AuditEvent, fixture: Fixture) {
    event.timestamp == DeterministicTimestamp(fixture.evaluationTime, event.sequence)
  }

  predicate AuditStreamConsistent(run: DemoRun, fixture: Fixture) {
    var events := run.auditEvents;
    if events == [] then run.lastUpdatedSequence == 0 && PristineRun(run)
    else
      var last := events[|events| - 1];
      && (|events| < 200 ==> events[0].sequence == 1)
      && (|events| == 200 ==> events[0].sequence == last.sequence - 199)
      && (forall i :: 0 < i < |events| ==> EventFollows(events[i - 1], events[i]))
      && (forall i :: 0 <= i < |events| ==> EventOk(events[i], fixture))
      && run.lastUpdatedSequence == last.sequence
      && last.resultingState == run.lifecycle
  }

  /** The index loop of the audit check. */
  method IsAuditStreamConsistent(run: DemoRun, fixture: Fixture) returns (ok: bool)
    ensures ok == AuditStreamConsistent(run, fixture)
  {
    var events := run.auditEvents;
    if |events| == 0 {
      return run.lastUpdatedSequence == 0 && PristineRun(run);
    }
    var first: int := events[0].sequence;
    var last: int := events[|events| - 1].sequence;
    if |events| < 200 && first != 1 {
      return false;
    }
    if |events| == 200 && first != last - 199 {
      return false;
    }
    var index := 0;
    while index < |events|
      invariant 0 <= index <= |events|
      invariant forall i :: 0 < i < index ==> EventFollows(events[i - 1], events[i])
      invariant forall i :: 0 <= i < index ==> EventOk(events[i], fixture)
    {
      var event := events[index];
      if index > 0 {
        var previous := events[index - 1];
        if event.sequence != previous.sequence + 1 || event.priorState != previous.resultingState {
          return false;
        }
      }
      if event.timestamp != DeterministicTimestamp(fixture.evaluationTime, event.sequence) {
        return false;
      }
      index := index + 1;
    }
    return run.lastUpdatedSequence == last && events[|events| - 1].resultingState == run.lifecycle;
  }

  function RunNumbers(history: seq<DemoRun>): (r: seq<Option<nat>>)
    ensures |r| == |history|
    ensures forall i :: 0 <= i < |history| ==> r[i] == GetRunNumber(history[i].runId)
  {
    seq(|history|, i requires 0 <= i < |history| => GetRunNumber(history[i].runId))
  }

  /** The number after those of the history: 1 when there is none. */
  function NumberAfter(numbers: seq<Option<nat>>): nat {
    if numbers == [] || numbers[|numbers| - 1].None? then 1 else numbers[|numbers| - 1].value + 1
  }

  predicate NumbersInSequence(numbers: seq<Option<nat>>) {
    && (forall i :: 0 <= i < |numbers| ==> numbers[i].Some?)
    && (forall i :: 0 < i < |numbers| ==> numbers[i].value == numbers[i - 1].value + 1)
  }

  /** History numbers run without a gap up to the active run's number, and the next number follows them. */
  predicate NumberingConsistent(active: Option<Option<nat>>, numbers: seq<Option<nat>>, next: nat) {
    && NumbersInSequence(numbers)
    && if active.Some? then active.value == Some(NumberAfter(numbers)) && next == NumberAfter(numbers) + 1
       else numbers != [] && next == NumberAfter(numbers)
  }

  predicate RunNumberingConsistent(active: Option<DemoRun>, history: seq<DemoRun>, next: nat) {
    NumberingConsistent(
      if active.Some? then Some(GetRunNumber(active.value.runId)) else None, RunNumbers(history), next)
  }

  /** The index loop of the numbering check. */
  method IsRunNumberingConsistent(active: Option<DemoRun>, history: seq<DemoRun>, next: nat) returns (ok: bool)
    ensures ok == RunNumberingConsistent(active, history, next)
  {
    var number := if active.Some? then Some(GetRunNumber(active.value.runId)) else None;
    ok := AreNumbersConsistent(number, RunNumbers(history), next);
  }

  method AreNumbersConsistent(active: Option<Option<nat>>, numbers: seq<Option<nat>>, next: nat) returns (ok: bool)
    ensures ok == NumberingConsistent(active, numbers, next)
  {
    if active.None? && |numbers| == 0 {
      return false;
    }
    if exists i :: 0 <= i < |numbers| && numbers[i].None? {
      return false;
    }
    var index := 1;
    while index < |numbers|
      invariant 1 <= index
      invariant forall i :: 0 < i < index && i < |numbers| ==> numbers[i].value == numbers[i - 1].value + 1
    {
      if numbers[index].value != numbers[index - 1].value + 1 {
        return false;
      }
      index := index + 1;
    }
    var activeNumber := if active.None? then None else active.value;
    if active.Some? && activeNumber.None? {
      return false;
    }
    if active.Some? {
      var expected := if |numbers| == 0 then 1 else numbers[|numbers| - 1].value + 1;
      if activeNumber.value != expected {
        return false;
      }
    }
    var expectedNext := if activeNumber.Some? then activeNumber.value + 1 else numbers[|numbers| - 1].value + 1;
    return next == expectedNext;
  }

  predicate IsAuditEvent(event: AuditEvent) {
    event.sequence >= 1 && event.action != ResetScenario
  }

  predicate IsDemoRun(run: DemoRun) {
    var fixture := GetFixture(run.scenarioId);
    && run.runId != "" && run.seed == fixture.seed
    && run.evidenceCursor <= fixture.evidence
    && (run.certificate.Some? ==> run.certificate.value.issuedAtSequence >= 1)
    && |run.auditEvents| <= 200
    && (forall i :: 0 <= i < |run.auditEvents| ==> IsAuditEvent(run.auditEvents[i]))
    && RunStateConsistent(run, fixture)
    && AuditStreamConsistent(run, fixture)
  }

  predicate RunsAccepted(e: Envelope) {
    && (e.activeRun.Some? ==> IsDemoRun(e.activeRun.value))
    && (forall i :: 0 <= i < |e.runHistory| ==> IsDemoRun(e.runHistory[i]))
  }

  predicate IsDemoEnvelope(e: Envelope) {
    && e.nextRunNumber >= 1
    && |e.runHistory| <= 20
    && RunsAccepted(e)
    && (e.activeRun.Some? ==> !TerminalLifecycle(e.activeRun.value.lifecycle))
    && (forall i :: 0 <= i < |e.runHistory| ==> TerminalLifecycle(e.runHistory[i].lifecycle))
    && RunNumberingConsistent(e.activeRun, e.runHistory, e.nextRunNumber)
  }

  // ------------------------------------------------- invariant of one run

  /** The run closed, or is closing, with its reconciliation still on it. */
  predicate ClosedReconciled(run: DemoRun) {
    (run.lifecycle == Closing || run.lifecycle == Closed) && run.reconciliation.Some?
  }

  /** A fixture that argues for the proposal has authored the proposal and its certificate. */
  predicate Authored(fixture: Fixture) {
    fixture.argument == Base ==> fixture.candidate.Some? && fixture.certificate.Some?
  }

  /** Every event in the window at the certificate's sequence is its issuance. */
  ghost predicate CertificateOk(run: DemoRun, fixture: Fixture) {
    && HasCertificate(run.lifecycle) == run.certificate.Some?
    && (run.certificate.Some? ==>
          && fixture.certificate.Some?
          && run.certificate.value.content == fixture.certificate.value.content
          && 1 <= run.certificate.value.issuedAtSequence <= run.lastUpdatedSequence
          && IssuedAt(run.auditEvents, run.certificate.value.issuedAtSequence))
  }

  /** Reconciliations are authored ones; a run without one that is closing was stopped. */
  ghost predicate ReconciliationOk(run: DemoRun, fixture: Fixture) {
    && (ClosedReconciled(run) || ReconciliationConsistent(run, fixture))
    && (run.reconciliation.Some? ==> run.reconciliation == fixture.reconciliation)
  }

  /** The state part of the invariant: everything but the audit stream itself. */
  ghost predicate StateOk(run: DemoRun, fixture: Fixture) {
    ArtifactsOk(run, fixture) && CertificateOk(run, fixture)
  }

  /** What holds of every run the reducer makes: all the validator asks, but for one kind of reconciliation. */
  ghost predicate RunOk(run: DemoRun, fixture: Fixture) {
    && StateOk(run, fixture)
    && |run.auditEvents| <= 200
    && (forall i :: 0 <= i < |run.auditEvents| ==> IsAuditEvent(run.auditEvents[i]))
    && AuditStreamConsistent(run, fixture)
  }

  lemma {:induction false} NewRunOk(fixture: Fixture, number: nat)
    ensures RunOk(CreateRun(fixture, number), fixture)
  {
  }

  /** Event sequences count up from the first one in the window. */
  lemma {:induction false} SequencesCount(events: seq<AuditEvent>, k: nat)
    requires k < |events| && forall i :: 0 < i < |events| ==> EventFollows(events[i - 1], events[i])
    ensures events[k].sequence == events[0].sequence + k
  {
    if k > 0 {
      SequencesCount(events, k - 1);
    }
  }

  ghost predicate Chained(events: seq<AuditEvent>, fixture: Fixture) {
    && (forall i :: 0 < i < |events| ==> EventFollows(events[i - 1], events[i]))
    && (forall i :: 0 <= i < |events| ==> EventOk(events[i], fixture) && IsAuditEvent(events[i]))
  }

  /** A stream that is not full starts at 1; a full one covers the last 200 sequences. */
  ghost predicate Windowed(events: seq<AuditEvent>) {
    && |events| <= 200
    && (0 < |events| < 200 ==> events[0].sequence == 1)
    && (|events| == 200 ==> events[0].sequence == events[199].sequence - 199)
  }

  lemma {:induction false} AppendKeepsChain(events: seq<AuditEvent>, event: AuditEvent, fixture: Fixture)
    requires Chained(events, fixture) && EventOk(event, fixture) && IsAuditEvent(event)
    requires events != [] ==> EventFollows(events[|events| - 1], event)
    ensures Chained(events + [event], fixture)
  {
  }

  lemma {:induction false} SuffixKeepsChain(events: seq<AuditEvent>, k: nat, fixture: Fixture)
    requires Chained(events, fixture) && k <= |events|
    ensures Chained(events[k..], fixture)
  {
  }

  /**
   Appending an event that continues the stream keeps it chained and windowed, also when the oldest
   event falls out.
   */
  lemma {:induction false} AppendKeepsWindow(events: seq<AuditEvent>, event: AuditEvent, fixture: Fixture)
    requires Chained(events, fixture) && Windowed(events)
    requires EventOk(event, fixture) && IsAuditEvent(event)
    requires if events == [] then event.sequence == 1 else EventFollows(events[|events| - 1], event)
    ensures
      var r := LastN(events + [event], 200);
      Chained(r, fixture) && Windowed(r) && r[|r| - 1] == event
  {
    var all := events + [event];
    AppendKeepsChain(events, event, fixture);
    if |all| > 200 {
      SuffixKeepsChain(all, |all| - 200, fixture);
    }
    var r := LastN(all, 200);
    SequencesCount(r, |r| - 1);
  }

  lemma {:induction false} AppendKeepsStream(
    run: DemoRun, next: DemoRun, fixture: Fixture, action: DemoAction, resulting: Lifecycle, accepted: bool)
    requires AuditStreamConsistent(run, fixture) && |run.auditEvents| <= 200
    requires forall i :: 0 <= i < |run.auditEvents| ==> IsAuditEvent(run.auditEvents[i])
    requires action.kind != ResetScenario
    requires next.auditEvents == run.auditEvents && next.lastUpdatedSequence == run.lastUpdatedSequence
    ensures
      var (r, event) := AppendEvent(next, fixture, action, run.lifecycle, resulting, accepted);
      && AuditStreamConsistent(r, fixture) && |r.auditEvents| <= 200
      && (forall i :: 0 <= i < |r.auditEvents| ==> IsAuditEvent(r.auditEvents[i]))
  {
    var (r, event) := AppendEvent(next, fixture, action, run.lifecycle, resulting, accepted);
    AppendKeepsWindow(run.auditEvents, event, fixture);
  }

  /** No event in the window is newer than the run's last sequence. */
  lemma {:induction false} SequencesBounded(run: DemoRun, fixture: Fixture)
    requires AuditStreamConsistent(run, fixture)
    ensures forall i :: 0 <= i < |run.auditEvents| ==> run.auditEvents[i].sequence <= run.lastUpdatedSequence
  {
    var events := run.auditEvents;
    forall k: nat | k < |events| ensures events[k].sequence <= run.lastUpdatedSequence {
      SequencesCount(events, k);
      SequencesCount(events, |events| - 1);
    }
  }

  /** Every event at the sequence, if any is in the window, is an issuance. */
  ghost predicate IssuedAt(events: seq<AuditEvent>, sequence: nat) {
    forall i :: 0 <= i < |events| && events[i].sequence == sequence ==> IssuanceEvent(events[i])
  }

  lemma {:induction false} AppendKeepsIssuance(events: seq<AuditEvent>, event: AuditEvent, sequence: nat)
    requires IssuedAt(events, sequence) && (event.sequence == sequence ==> IssuanceEvent(event))
    ensures IssuedAt(LastN(events + [event], MAX_AUDIT_EVENTS), sequence)
  {
  }

  /** The certificate is the run's own, or was issued by the very event being appended. */
  ghost predicate CertificateStep(run: DemoRun, next: DemoRun, fixture: Fixture, kind: ActionType, accepted: bool) {
    && HasCertificate(next.lifecycle) == next.certificate.Some?
    && (next.certificate.Some? ==>
          || next.certificate == run.certificate
          || (&& accepted && kind == ApproveProposal && next.lifecycle == Certified && fixture.certificate.Some?
              && next.certificate.value
                 == Certificate(fixture.certificate.value.content, run.lastUpdatedSequence + 1)))
  }

  lemma {:induction false} AppendKeepsCertificate(
    run: DemoRun, next: DemoRun, fixture: Fixture, action: DemoAction, accepted: bool)
    requires CertificateOk(run, fixture) && AuditStreamConsistent(run, fixture)
    requires next.auditEvents == run.auditEvents && next.lastUpdatedSequence == run.lastUpdatedSequence
    requires CertificateStep(run, next, fixture, action.kind, accepted)
    ensures CertificateOk(AppendEvent(next, fixture, action, run.lifecycle, next.lifecycle, accepted).0, fixture)
  {
    SequencesBounded(run, fixture);
    if next.certificate.Some? {
      var event := AppendEvent(next, fixture, action, run.lifecycle, next.lifecycle, accepted).1;
      AppendKeepsIssuance(run.auditEvents, event, next.certificate.value.issuedAtSequence);
    }
  }

  ghost predicate ArtifactsOk(run: DemoRun, fixture: Fixture) {
    && run.seed == fixture.seed && run.evidenceCursor <= fixture.evidence
    && DecisionConsistent(run, fixture)
    && TradeConsistent(run, fixture)
    && ReconciliationOk(run, fixture)
    && (PostArgument(run.lifecycle) && run.lifecycle != Vetoed ==> fixture.argument == Base)
  }

  /** Whatever an action writes, appending its event keeps the invariant if the artifacts fit the new lifecycle. */
  lemma {:induction false} AppendKeepsRunOk(
    run: DemoRun, next: DemoRun, fixture: Fixture, action: DemoAction, accepted: bool)
    requires RunOk(run, fixture) && action.kind != ResetScenario
    requires next.auditEvents == run.auditEvents && next.lastUpdatedSequence == run.lastUpdatedSequence
    requires ArtifactsOk(next, fixture) && CertificateStep(run, next, fixture, action.kind, accepted)
    ensures RunOk(AppendEvent(next, fixture, action, run.lifecycle, next.lifecycle, accepted).0, fixture)
  {
    AppendKeepsCertificate(run, next, fixture, action, accepted);
    AppendKeepsStream(run, next, fixture, action, next.lifecycle, accepted);
    WindowKeepsArtifacts(next, AppendEvent(next, fixture, action, run.lifecycle, next.lifecycle, accepted).0, fixture);
  }

  lemma {:induction false} WindowKeepsArtifacts(next: DemoRun, r: DemoRun, fixture: Fixture)
    requires r == next.(auditEvents := r.auditEvents, lastUpdatedSequence := r.lastUpdatedSequence)
    requires ArtifactsOk(next, fixture)
    ensures ArtifactsOk(r, fixture)
  {
  }

  lemma {:induction false} EffectKeepsArtifacts(run: DemoRun, fixture: Fixture, kind: ActionType)
    requires StateOk(run, fixture) && Authored(fixture) && Takes(run, fixture, kind)
    ensures ArtifactsOk(Effect(run, fixture, kind), fixture)
  {
    EffectKeepsEvidence(run, fixture, kind);
    EffectKeepsArgument(run, fixture, kind);
    EffectKeepsOrder(run, fixture, kind);
    EffectKeepsFillAndClose(run, fixture, kind);
    EffectKeepsReconciliation(run, fixture, kind);
  }

  lemma {:induction false} EffectKeepsEvidence(run: DemoRun, fixture: Fixture, kind: ActionType)
    requires StateOk(run, fixture) && Takes(run, fixture, kind)
    ensures
      var next := Effect(run, fixture, kind);
      && next.seed == fixture.seed && next.evidenceCursor <= fixture.evidence
      && (next.lifecycle != Observing ==> next.evidenceCursor == fixture.evidence)
      && PresentAs(next.lifecycle != Observing, next.forecast, Some(fixture.forecast))
  {
  }

  lemma {:induction false} EffectKeepsArgument(run: DemoRun, fixture: Fixture, kind: ActionType)
    requires StateOk(run, fixture) && Authored(fixture) && Takes(run, fixture, kind)
    ensures
      var next := Effect(run, fixture, kind);
      var argued := PostArgument(next.lifecycle);
      && next.argument == (if argued then Some(fixture.argument) else None)
      && next.riskGate == (if argued then Some(fixture.riskGate) else None)
      && PresentAs(argued && fixture.argument == Base, next.candidate, fixture.candidate)
      && (argued && next.lifecycle != Vetoed ==> fixture.argument == Base)
  {
  }

  lemma {:induction false} EffectKeepsOrder(run: DemoRun, fixture: Fixture, kind: ActionType)
    requires StateOk(run, fixture) && Takes(run, fixture, kind)
    ensures
      var next := Effect(run, fixture, kind);
      PresentAs(HasOrder(next.lifecycle), next.order, fixture.order)
  {
  }

  lemma {:induction false} EffectKeepsFillAndClose(run: DemoRun, fixture: Fixture, kind: ActionType)
    requires StateOk(run, fixture) && Takes(run, fixture, kind)
    ensures
      var next := Effect(run, fixture, kind);
      && PresentAs(HasFill(next.lifecycle), next.fill, fixture.fill)
      && PresentAs(next.lifecycle == Closed, next.close, fixture.close)
  {
  }

  lemma {:induction false} EffectKeepsReconciliation(run: DemoRun, fixture: Fixture, kind: ActionType)
    requires StateOk(run, fixture) && Takes(run, fixture, kind)
    ensures ReconciliationOk(Effect(run, fixture, kind), fixture)
  {
  }

  lemma {:induction false} EffectStepsCertificate(run: DemoRun, fixture: Fixture, kind: ActionType)
    requires StateOk(run, fixture) && Authored(fixture) && Takes(run, fixture, kind)
    ensures
      var next := Effect(run, fixture, kind);
      && next.auditEvents == run.auditEvents && next.lastUpdatedSequence == run.lastUpdatedSequence
      && CertificateStep(run, next, fixture, kind, true)
  {
  }

  /** An accepted base argument is followed by the simulator's own request for supervision. */
  lemma {:induction false} SupervisionKeepsRunOk(argued: DemoRun, fixture: Fixture)
    requires RunOk(argued, fixture) && argued.lifecycle == Argued
    ensures
      RunOk(AppendEvent(argued.(lifecycle := AwaitingSupervision), fixture,
        DemoAction(RequestSupervision, Some(Simulator)), Argued, AwaitingSupervision, true).0, fixture)
  {
    SupervisionKeepsArtifacts(argued, fixture);
    AppendKeepsRunOk(
      argued, argued.(lifecycle := AwaitingSupervision), fixture,
      DemoAction(RequestSupervision, Some(Simulator)), true);
  }

  lemma {:induction false} TakenKeepsRunOk(run: DemoRun, fixture: Fixture, action: DemoAction)
    requires RunOk(run, fixture) && Authored(fixture)
    requires action.kind != ResetScenario && Takes(run, fixture, action.kind)
    ensures
      var next := Effect(run, fixture, action.kind);
      RunOk(AppendEvent(next, fixture, action, run.lifecycle, next.lifecycle, true).0, fixture)
  {
    EffectKeepsArtifacts(run, fixture, action.kind);
    EffectStepsCertificate(run, fixture, action.kind);
    AppendKeepsRunOk(run, Effect(run, fixture, action.kind), fixture, action, true);
  }

  /** One action keeps the invariant of a run. */
  lemma {:induction false} ReducedKeepsRunOk(run: DemoRun, fixture: Fixture, action: DemoAction)
    requires RunOk(run, fixture) && Authored(fixture) && action.kind != ResetScenario
    ensures RunOk(Reduced(run, fixture, action).run, fixture)
  {
    if !Takes(run, fixture, action.kind) {
      AppendKeepsRunOk(run, run, fixture, action, false);
    } else {
      var next := Effect(run, fixture, action.kind);
      TakenKeepsRunOk(run, fixture, action);
      if action.kind == CompleteArgument && fixture.argument == Base {
        SupervisionKeepsRunOk(AppendEvent(next, fixture, action, run.lifecycle, next.lifecycle, true).0, fixture);
      }
    }
  }

  lemma {:induction false} SupervisionKeepsArtifacts(run: DemoRun, fixture: Fixture)
    requires RunOk(run, fixture) && run.lifecycle == Argued
    ensures ArtifactsOk(run.(lifecycle := AwaitingSupervision), fixture)
    ensures run.certificate.None?
  {
  }

  // ------------------------------------------- invariant of the envelope

  ghost predicate EnvelopeOk(e: Envelope) {
    && (e.activeRun.Some? ==> AuthoredRunOk(e.activeRun.value) && !TerminalLifecycle(e.activeRun.value.lifecycle))
    && HistoryOk(e.runHistory)
    && RunNumberingConsistent(e.activeRun, e.runHistory, e.nextRunNumber)
  }

  ghost predicate AuthoredRunOk(run: DemoRun) {
    RunOk(run, GetFixture(run.scenarioId))
  }

  ghost predicate HistoryOk(history: seq<DemoRun>) {
    && |history| <= 20
    && forall i :: 0 <= i < |history| ==> AuthoredRunOk(history[i]) && TerminalLifecycle(history[i].lifecycle)
  }

  lemma {:induction false} FixturesAreAuthored(id: ScenarioId)
    ensures Authored(GetFixture(id)) && GetFixture(id).scenarioId == id
  {
  }

  /** Archiving the next number keeps the numbers in sequence, also when the oldest falls out. */
  lemma {:induction false} ArchiveKeepsNumbers(numbers: seq<Option<nat>>)
    requires NumbersInSequence(numbers)
    ensures
      var r := LastN(numbers + [Some(NumberAfter(numbers))], MAX_RUN_HISTORY);
      NumbersInSequence(r) && NumberAfter(r) == NumberAfter(numbers) + 1
  {
    var all := numbers + [Some(NumberAfter(numbers))];
    assert NumbersInSequence(all);
  }

  lemma {:induction false} ArchiveKeepsHistory(history: seq<DemoRun>, run: DemoRun)
    requires HistoryOk(history) && AuthoredRunOk(run) && TerminalLifecycle(run.lifecycle)
    ensures HistoryOk(LastN(history + [run], MAX_RUN_HISTORY))
  {
    var all := history + [run];
    assert forall i :: 0 <= i < |all| ==> AuthoredRunOk(all[i]) && TerminalLifecycle(all[i].lifecycle);
  }

  lemma {:induction false} ArchiveNumbers(history: seq<DemoRun>, run: DemoRun)
    ensures RunNumbers(LastN(history + [run], MAX_RUN_HISTORY))
         == LastN(RunNumbers(history) + [GetRunNumber(run.runId)], MAX_RUN_HISTORY)
  {
  }

  lemma {:induction false} ReducedKeepsIdentity(run: DemoRun, fixture: Fixture, action: DemoAction)
    ensures Reduced(run, fixture, action).run.runId == run.runId
    ensures Reduced(run, fixture, action).run.scenarioId == run.scenarioId
    ensures !Reduced(run, fixture, action).accepted ==> Reduced(run, fixture, action).run.lifecycle == run.lifecycle
  {
  }

  lemma {:induction false} SeedOk()
    ensures EnvelopeOk(AUTHORED_SEED)
  {
    NewRunOk(CERTIFIABLE, 1);
    RunIdRoundTrip(1);
  }

  lemma {:induction false} ActionKeepsEnvelope(e: Envelope, action: DemoAction)
    requires EnvelopeOk(e)
    ensures EnvelopeOk(ApplyDemoAction(e, action))
  {
    if action.kind == ResetScenario {
      SeedOk();
    } else if e.activeRun.Some? {
      var run := e.activeRun.value;
      var fixture := GetFixture(run.scenarioId);
      var t := Reduced(run, fixture, action);
      FixturesAreAuthored(run.scenarioId);
      ReducedKeepsRunOk(run, fixture, action);
      ReducedKeepsIdentity(run, fixture, action);
      if t.accepted && TerminalLifecycle(t.run.lifecycle) {
        ArchiveKeepsHistory(e.runHistory, t.run);
        ArchiveNumbers(e.runHistory, t.run);
        ArchiveKeepsNumbers(RunNumbers(e.runHistory));
      }
    }
  }

  lemma {:induction false} SeedRunNumber()
    ensures GetRunNumber("run-0001") == Some(1)
  {
    RunIdRoundTrip(1);
    assert Decimal(1) == "1" && Zeros(3) == "000";
    assert RunIdFor(1) == "run-0001";
  }

  /** Run numbers start at 1, so only an empty history is followed by run 1. */
  lemma {:induction false} NumberAfterIsPositive(history: seq<DemoRun>)
    requires NumbersInSequence(RunNumbers(history))
    ensures NumberAfter(RunNumbers(history)) >= 1
    ensures NumberAfter(RunNumbers(history)) == 1 ==> history == []
  {
  }

  /** A fresh run numbered after the history makes a sound envelope. */
  lemma {:induction false} FreshRunKeepsEnvelope(history: seq<DemoRun>, id: ScenarioId, number: nat)
    requires HistoryOk(history) && NumbersInSequence(RunNumbers(history)) && number == NumberAfter(RunNumbers(history))
    ensures EnvelopeOk(Envelope(number + 1, Some(CreateRun(GetFixture(id), number)), history))
  {
    NumberAfterIsPositive(history);
    FixturesAreAuthored(id);
    NewRunOk(GetFixture(id), number);
    RunIdRoundTrip(number);
  }

  lemma {:induction false} ActivationKeepsEnvelope(e: Envelope, id: ScenarioId)
    requires EnvelopeOk(e)
    ensures EnvelopeOk(ActivateScenario(e, id))
  {
    if e.activeRun.None? {
      FreshRunKeepsEnvelope(e.runHistory, id, e.nextRunNumber);
    } else if e.activeRun.value.scenarioId != id && PristineSeedRun(e.activeRun.value) {
      SeedRunNumber();
      NumberAfterIsPositive(e.runHistory);
      FreshRunKeepsEnvelope(e.runHistory, id, 1);
    }
  }

  lemma {:induction false} StepsKeepEnvelope(e: Envelope, commands: seq<Command>)
    requires EnvelopeOk(e)
    ensures EnvelopeOk(StepsFrom(e, commands))
    decreases |commands|
  {
    if commands != [] {
      match commands[0]
      case Dispatch(action) =>
        ActionKeepsEnvelope(e, action);
        StepsKeepEnvelope(Step(e, commands[0]), commands[1..]);
      case Activate(scenario) =>
        ActivationKeepsEnvelope(e, scenario);
        StepsKeepEnvelope(Step(e, commands[0]), commands[1..]);
    }
  }

  // ------------------------------------------------------------- theorems

  ghost predicate RunOf(e: Envelope, run: DemoRun) {
    e.activeRun == Some(run) || run in e.runHistory
  }

  /** Every envelope the seed leads to is numbered without gaps, and every run in it has a sound audit stream. */
  lemma {:induction false} ReachedEnvelopesAreConsistent(commands: seq<Command>)
    ensures
      var e := Reached(commands);
      && RunNumberingConsistent(e.activeRun, e.runHistory, e.nextRunNumber) && |e.runHistory| <= 20
      && forall run :: RunOf(e, run) ==>
           && AuditStreamConsistent(run, GetFixture(run.scenarioId)) && |run.auditEvents| <= 200
           && forall i :: 0 <= i < |run.auditEvents| ==> run.auditEvents[i].action != ResetScenario
  {
    SeedOk();
    StepsKeepEnvelope(AUTHORED_SEED, commands);
  }

  /** The invariant makes the validator's state check equivalent to having no reconciliation when closing. */
  lemma {:induction false} StateCheckOfOkRun(run: DemoRun, fixture: Fixture)
    requires RunOk(run, fixture)
    ensures RunStateConsistent(run, fixture) <==> !ClosedReconciled(run)
    ensures run.lifecycle in {Closing, Closed} && run.reconciliation.None? ==> run.emergencyStop
  {
  }

  /**
   Every run reached outside closing and closed passes the state check; a
   closing or closed one passes exactly when its reconciliation is absent,
   which takes an emergency stop.
   */
  lemma {:induction false} ValidatorAcceptsReachedRuns(commands: seq<Command>, run: DemoRun)
    requires RunOf(Reached(commands), run)
    ensures
      var fixture := GetFixture(run.scenarioId);
      && (run.lifecycle !in {Closing, Closed} ==> RunStateConsistent(run, fixture))
      && (run.lifecycle in {Closing, Closed} ==>
            && (RunStateConsistent(run, fixture) <==> run.reconciliation.None?)
            && (run.reconciliation.None? ==> run.emergencyStop))
  {
    SeedOk();
    StepsKeepEnvelope(AUTHORED_SEED, commands);
    StateCheckOfOkRun(run, GetFixture(run.scenarioId));
  }

  /** Exactly the reached envelopes without a reconciled close can be stored. */
  lemma {:induction false} ReachedEnvelopeStorableIff(commands: seq<Command>)
    ensures
      var e := Reached(commands);
      IsDemoEnvelope(e) <==> forall run :: RunOf(e, run) ==> !ClosedReconciled(run)
  {
    SeedOk();
    StepsKeepEnvelope(AUTHORED_SEED, commands);
    EnvelopeStorableIff(Reached(commands));
  }

  lemma {:induction false} EnvelopeStorableIff(e: Envelope)
    requires EnvelopeOk(e)
    ensures IsDemoEnvelope(e) <==> forall run :: RunOf(e, run) ==> !ClosedReconciled(run)
  {
    forall run | RunOf(e, run) ensures IsDemoRun(run) <==> !ClosedReconciled(run) {
      RunOfNumbered(e, run);
      RunStorableIff(run);
    }
    RunsAcceptedIff(e);
    NumberAfterIsPositive(e.runHistory);
  }

  lemma {:induction false} RunsAcceptedIff(e: Envelope)
    requires forall run :: RunOf(e, run) ==> (IsDemoRun(run) <==> !ClosedReconciled(run))
    ensures RunsAccepted(e) <==> forall run :: RunOf(e, run) ==> !ClosedReconciled(run)
  {
  }

  lemma {:induction false} RunStorableIff(run: DemoRun)
    requires AuthoredRunOk(run) && run.runId != ""
    ensures IsDemoRun(run) <==> !ClosedReconciled(run)
  {
  }

  lemma {:induction false} RunOfNumbered(e: Envelope, run: DemoRun)
    requires EnvelopeOk(e) && RunOf(e, run)
    ensures run.runId != "" && AuthoredRunOk(run)
  {
    var numbers := RunNumbers(e.runHistory);
    if e.activeRun != Some(run) {
      var i :| 0 <= i < |e.runHistory| && e.runHistory[i] == run;
      assert numbers[i].Some?;
    }
  }

  // --------------------------------------------- a close that is not kept

  function Commands(kinds: seq<ActionType>): seq<Command> {
    seq(|kinds|, i requires 0 <= i < |kinds| => Dispatch(DemoAction(kinds[i], None)))
  }

  /** After these actions on the seed its own run is active, alone and unstopped. */
  ghost predicate After(seed: Envelope, kinds: seq<ActionType>, run: DemoRun) {
    && StepsFrom(seed, Commands(kinds)) == Envelope(2, Some(run), [])
    && run.scenarioId == GuidedCertifiable && !run.emergencyStop && !TerminalLifecycle(run.lifecycle)
  }

  /** One more action, if it is taken and neither stops nor finishes the run, leaves it with that action's artifacts. */
  lemma {:induction false} OneMore(
    seed: Envelope, kinds: seq<ActionType>, run: DemoRun, kind: ActionType) returns (r: DemoRun)
    requires After(seed, kinds, run) && Takes(run, CERTIFIABLE, kind)
    requires kind !in {VetoProposal, CompleteClose, EmergencyStop}
    ensures After(seed, kinds + [kind], r)
    ensures
      var next := Effect(run, CERTIFIABLE, kind);
      r == next.(lifecycle := if kind == CompleteArgument then AwaitingSupervision else next.lifecycle,
                 auditEvents := r.auditEvents, lastUpdatedSequence := r.lastUpdatedSequence)
  {
    StepsOneMore(seed, kinds, kind);
    r := Reduced(run, CERTIFIABLE, DemoAction(kind, None)).run;
    TakenStaysActive(run, CERTIFIABLE, DemoAction(kind, None));
    ActiveRunSteps(Envelope(2, Some(run), []), run, CERTIFIABLE, DemoAction(kind, None));
    ReducedTaken(run, CERTIFIABLE, DemoAction(kind, None));
    EffectStaysActive(run, CERTIFIABLE, kind);
  }

  lemma {:induction false} TakenStaysActive(run: DemoRun, fixture: Fixture, action: DemoAction)
    requires Takes(run, fixture, action.kind) && fixture.argument == Base
    requires action.kind !in {VetoProposal, CompleteClose, EmergencyStop}
    requires !run.emergencyStop && !TerminalLifecycle(run.lifecycle)
    ensures !TerminalLifecycle(Reduced(run, fixture, action).run.lifecycle)
  {
  }

  lemma {:induction false} ActiveRunSteps(e: Envelope, run: DemoRun, fixture: Fixture, action: DemoAction)
    requires action.kind != ResetScenario && e.activeRun == Some(run) && fixture == GetFixture(run.scenarioId)
    requires !TerminalLifecycle(Reduced(run, fixture, action).run.lifecycle)
    ensures ApplyDemoAction(e, action) == e.(activeRun := Some(Reduced(run, fixture, action).run))
  {
  }

  lemma {:induction false} EffectStaysActive(run: DemoRun, fixture: Fixture, kind: ActionType)
    requires Takes(run, fixture, kind) && fixture.argument == Base
    requires kind !in {VetoProposal, CompleteClose, EmergencyStop} && !run.emergencyStop
    ensures
      var next := Effect(run, fixture, kind);
      && next.scenarioId == run.scenarioId && !next.emergencyStop
      && (!TerminalLifecycle(run.lifecycle) ==> !TerminalLifecycle(next.lifecycle))
  {
  }

  lemma {:induction false} ReducedTaken(run: DemoRun, fixture: Fixture, action: DemoAction)
    requires Takes(run, fixture, action.kind) && fixture.argument == Base
    ensures
      var t := Reduced(run, fixture, action);
      var next := Effect(run, fixture, action.kind);
      && t.accepted
      && t.run == next.(lifecycle := if action.kind == CompleteArgument then AwaitingSupervision else next.lifecycle,
                        auditEvents := t.run.auditEvents, lastUpdatedSequence := t.run.lastUpdatedSequence)
  {
  }

  lemma {:induction false} StepsOneMore(seed: Envelope, kinds: seq<ActionType>, kind: ActionType)
    ensures StepsFrom(seed, Commands(kinds + [kind]))
         == ApplyDemoAction(StepsFrom(seed, Commands(kinds)), DemoAction(kind, None))
  {
    var command := Dispatch(DemoAction(kind, None));
    assert Commands(kinds + [kind]) == Commands(kinds) + [command];
    StepsSplit(seed, Commands(kinds), [command]);
    assert [command][1..] == [];
  }

  lemma {:induction false} StepsSplit(e: Envelope, p: seq<Command>, q: seq<Command>)
    ensures StepsFrom(e, p + q) == StepsFrom(StepsFrom(e, p), q)
    decreases |p|
  {
    if p == [] {
      assert p + q == q;
    } else {
      assert (p + q)[0] == p[0] && (p + q)[1..] == p[1..] + q;
      StepsSplit(Step(e, p[0]), p[1..], q);
    }
  }

  function Evidence(k: nat): seq<ActionType> {
    if k == 0 then [] else Evidence(k - 1) + [AdvanceEvidence]
  }

  lemma {:induction false} StartsObserving(seed: Envelope) returns (run: DemoRun)
    requires seed == AUTHORED_SEED
    ensures After(seed, [], run) && run.lifecycle == Observing && run.evidenceCursor == 0
  {
    run := CreateRun(CERTIFIABLE, 1);
    assert Commands([]) == [];
  }

  lemma {:induction false} OneMoreEvidence(seed: Envelope, kinds: seq<ActionType>, run: DemoRun) returns (r: DemoRun)
    requires After(seed, kinds, run) && run.lifecycle == Observing && run.evidenceCursor < CERTIFIABLE.evidence
    ensures After(seed, kinds + [AdvanceEvidence], r)
    ensures r.lifecycle == Observing && r.evidenceCursor == run.evidenceCursor + 1
  {
    r := OneMore(seed, kinds, run, AdvanceEvidence);
  }

  /** All five evidence items can be accepted, one after another. */
  lemma {:induction false} EvidenceCollected(seed: Envelope, start: DemoRun, k: nat) returns (run: DemoRun)
    requires After(seed, [], start) && start.lifecycle == Observing && start.evidenceCursor == 0
    requires k <= CERTIFIABLE.evidence
    ensures After(seed, Evidence(k), run) && run.lifecycle == Observing && run.evidenceCursor == k
  {
    if k == 0 {
      run := start;
    } else {
      run := EvidenceCollected(seed, start, k - 1);
      run := OneMoreEvidence(seed, Evidence(k - 1), run);
    }
  }

  function Approval(kinds: seq<ActionType>): seq<ActionType> {
    kinds + [CompleteForecast] + [CompleteArgument] + [ApproveProposal]
  }

  lemma {:induction false} GuidedApproval(seed: Envelope, kinds: seq<ActionType>, run: DemoRun) returns (r: DemoRun)
    requires After(seed, kinds, run) && run.lifecycle == Observing && run.evidenceCursor == CERTIFIABLE.evidence
    ensures After(seed, Approval(kinds), r) && r.lifecycle == Certified && r.certificate.Some?
  {
    r := OneMore(seed, kinds, run, CompleteForecast);
    r := OneMore(seed, kinds + [CompleteForecast], r, CompleteArgument);
    r := OneMore(seed, kinds + [CompleteForecast] + [CompleteArgument], r, ApproveProposal);
  }

  function Fill(kinds: seq<ActionType>): seq<ActionType> {
    kinds + [SimulateSubmit] + [SimulateWorking] + [SimulateFill]
  }

  lemma {:induction false} GuidedFill(seed: Envelope, kinds: seq<ActionType>, run: DemoRun) returns (r: DemoRun)
    requires After(seed, kinds, run) && run.lifecycle == Certified && run.certificate.Some?
    ensures After(seed, Fill(kinds), r) && r.lifecycle == SimulatedFilled && r.fill.Some?
  {
    r := OneMore(seed, kinds, run, SimulateSubmit);
    r := OneMore(seed, kinds + [SimulateSubmit], r, SimulateWorking);
    r := OneMore(seed, kinds + [SimulateSubmit] + [SimulateWorking], r, SimulateFill);
  }

  function ReconciledClose(kinds: seq<ActionType>): seq<ActionType> {
    kinds + [TriggerReconciliation] + [ResolveReconciliation] + [ClosePosition]
  }

  lemma {:induction false} GuidedReconciledClose(
    seed: Envelope, kinds: seq<ActionType>, run: DemoRun) returns (r: DemoRun)
    requires After(seed, kinds, run) && run.lifecycle == SimulatedFilled && run.fill.Some?
    ensures After(seed, ReconciledClose(kinds), r) && ClosedReconciled(r)
  {
    r := OneMore(seed, kinds, run, TriggerReconciliation);
    r := OneMore(seed, kinds + [TriggerReconciliation], r, ResolveReconciliation);
    r := OneMore(seed, kinds + [TriggerReconciliation] + [ResolveReconciliation], r, ClosePosition);
  }

  /** The guided path up to and including the request to close a reconciled position. */
  function GuidedPath(): seq<ActionType> {
    ReconciledClose(Fill(Approval(Evidence(5))))
  }

  /** The guided path to a normal close reaches an envelope the validator refuses to store. */
  lemma {:induction false} GuidedCloseIsNotStorable()
    ensures !IsDemoEnvelope(Reached(Commands(GuidedPath())))
  {
    var run := GuidedRun(AUTHORED_SEED);
    ReachedEnvelopeStorableIff(Commands(GuidedPath()));
    assert RunOf(Reached(Commands(GuidedPath())), run);
  }

  lemma {:induction false} GuidedRun(seed: Envelope) returns (run: DemoRun)
    requires seed == AUTHORED_SEED
    ensures After(seed, GuidedPath(), run) && ClosedReconciled(run)
  {
    run := StartsObserving(seed);
    run := EvidenceCollected(seed, run, 5);
    run := GuidedApproval(seed, Evidence(5), run);
    run := GuidedFill(seed, Approval(Evidence(5)), run);
    run := GuidedReconciledClose(seed, Fill(Approval(Evidence(5))), run);
  }

  // ----------------------------------------------------- save and restore

  /** A stored text: empty, not an envelope the validator accepts, or the text of an envelope. */
  datatype Raw = Blank | Malformed | Text(envelope: Envelope)

  function Serialize(e: Envelope): Result<Raw> {
    if IsDemoEnvelope(e) then Ok(Text(e)) else Err("Cannot serialize an invalid simulator envelope")
  }

  datatype Restored = Restored(state: Envelope, reset: bool)

  /** A blank text restores the authored seed; a bad one does too, with a notice. */
  function Deserialize(raw: Raw): Restored {
    if raw.Blank? then Restored(AUTHORED_SEED, false)
    else if raw.Text? && IsDemoEnvelope(raw.envelope) then Restored(raw.envelope, false)
    else Restored(AUTHORED_SEED, true)
  }

  /** A reached envelope survives a save and a load if and only if no run in it is a reconciled close. */
  lemma {:induction false} ReachedEnvelopeSurvivesIff(commands: seq<Command>)
    ensures
      var e := Reached(commands);
      (Serialize(e).Ok? && Deserialize(Serialize(e).value) == Restored(e, false))
      <==> forall run :: RunOf(e, run) ==> !ClosedReconciled(run)
  {
    ReachedEnvelopeStorableIff(commands);
  }

  datatype Notice = Unavailable | ResetToSeed

  /** The persistence object: browser storage while it works, memory once it has failed. */
  class Persistence {
    var storage: Option<Raw>
    var memory: Raw
    var persistent: bool
    var notice: Option<Notice>

    constructor (detected: Option<Raw>)
      ensures storage == detected && memory == Blank && persistent == detected.Some? && notice.None?
    {
      storage := detected;
      memory := Blank;
      persistent := detected.Some?;
      notice := None;
    }

    /** What the next load restores if storage answers. */
    function Kept(): Raw
      reads this
    {
      if storage.Some? then storage.value else memory
    }

    /** An invalid envelope is refused and what is kept stays; a valid one is kept, in memory if storage fails. */
    method Save(state: Envelope, storageFails: bool)
      modifies this
      ensures Serialize(state).Err? ==> Kept() == old(Kept()) && storage == old(storage) && notice == Some(ResetToSeed)
      ensures Serialize(state).Ok? ==> Kept() == Text(state)
      ensures Serialize(state).Ok? ==> storage.Some? == (old(storage).Some? && !storageFails)
      ensures Serialize(state).Ok? ==> notice == if storage.Some? then None else Some(Unavailable)
      ensures storage.None? && old(storage).Some? ==> !persistent
    {
      var serialized := Serialize(state);
      if serialized.Err? {
        notice := Some(ResetToSeed);
        return;
      }
      if storage.None? {
        memory := serialized.value;
        notice := Some(Unavailable);
        return;
      }
      if !storageFails {
        storage := Some(serialized.value);
        notice := None;
      } else {
        storage := None;
        persistent := false;
        memory := serialized.value;
        notice := Some(Unavailable);
      }
    }

    /** Loading restores what is kept; a storage that fails to answer is given up for the authored seed. */
    method Load(storageFails: bool) returns (state: Envelope)
      modifies this
      ensures old(storage).Some? && storageFails ==> state == AUTHORED_SEED && storage.None? && !persistent
      ensures !(old(storage).Some? && storageFails) ==>
        state == Deserialize(old(Kept())).state && storage == old(storage) && memory == old(memory)
    {
      if storage.None? {
        notice := Some(Unavailable);
        return Deserialize(memory).state;
      }
      if storageFails {
        storage := None;
        persistent := false;
        notice := Some(Unavailable);
        return AUTHORED_SEED;
      }
      var restored := Deserialize(storage.value);
      notice := if restored.reset then Some(ResetToSeed) else None;
      return restored.state;
    }
  }
}
