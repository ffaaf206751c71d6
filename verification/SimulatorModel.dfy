/**
 The browser simulator's values: authored fixtures, runs with their audit
 stream, and the envelope that holds the active run and the run history.
 Authored artifacts are only ever copied and compared, so each is a name.
 */
module SimulatorModel {
  import opened Options

  datatype ScenarioId = GuidedCertifiable | GuidedCatalystVeto

  datatype Lifecycle =
    | Observing | Forecasted | Argued | AwaitingSupervision | Vetoed | Certified
    | SimulatedSubmitted | SimulatedWorking | SimulatedFilled
    | ReconciliationRequired | Reconciled | Closing | Closed | BrokerUnknown

  datatype ActionType =
    | AdvanceEvidence | CompleteForecast | CompleteArgument | RequestSupervision
    | ApproveProposal | VetoProposal | SimulateSubmit | SimulateWorking | SimulateFill
    | PauseScheduler | ResumeScheduler | TriggerReconciliation | ResolveReconciliation
    | FailReconciliation | ClosePosition | CompleteClose | EmergencyStop | ResetScenario

  datatype Actor = PublicDemoUser | Simulator

  datatype DemoAction = DemoAction(kind: ActionType, actor: Option<Actor>)

  datatype Argument = Base | Veto

  datatype RiskGate = RiskGate(content: string, passed: bool)

  datatype Certificate = Certificate(content: string, issuedAtSequence: nat)

  datatype Fixture = Fixture(
    scenarioId: ScenarioId,
    seed: string,
    evaluationTime: int,                          // milliseconds
    evidence: nat,                                // number of authored items
    forecast: string,
    argument: Argument,
    riskGate: RiskGate,
    candidate: Option<string>,
    certificate: Option<Certificate>,
    order: Option<string>,
    fill: Option<string>,
    reconciliation: Option<string>,
    close: Option<string>)

  datatype AuditEvent = AuditEvent(
    sequence: nat,
    timestamp: int,
    action: ActionType,
    priorState: Lifecycle,
    resultingState: Lifecycle,
    actor: Actor,
    accepted: bool)

  datatype DemoRun = DemoRun(
    runId: string,
    scenarioId: ScenarioId,
    seed: string,
    lifecycle: Lifecycle,
    evidenceCursor: nat,
    forecast: Option<string>,
    argument: Option<Argument>,
    riskGate: Option<RiskGate>,
    candidate: Option<string>,
    certificate: Option<Certificate>,
    order: Option<string>,
    fill: Option<string>,
    reconciliation: Option<string>,
    close: Option<string>,
    schedulerRunning: bool,
    emergencyStop: bool,
    auditEvents: seq<AuditEvent>,
    lastUpdatedSequence: nat)

  datatype Envelope = Envelope(nextRunNumber: nat, activeRun: Option<DemoRun>, runHistory: seq<DemoRun>)

  const EVALUATION_TIME: int := 1_788_184_800_000

  const CERTIFIABLE := Fixture(
    GuidedCertifiable, "vc-guided-certifiable-v1-seed", EVALUATION_TIME, 5,
    "certifiable forecast", Base, RiskGate("certifiable risk gate", true), Some("certifiable candidate"),
    Some(Certificate("certifiable certificate", 9)), Some("certifiable order"), Some("certifiable fill"),
    Some("certifiable reconciliation"), Some("certifiable close"))

  const CATALYST_VETO := Fixture(
    GuidedCatalystVeto, "vc-guided-catalyst-veto-v1-seed", EVALUATION_TIME, 5,
    "veto forecast", Veto, RiskGate("certifiable risk gate", false), None, None, None, None, None, None)

  function GetFixture(id: ScenarioId): Fixture {
    match id
    case GuidedCertifiable => CERTIFIABLE
    case GuidedCatalystVeto => CATALYST_VETO
  }

  // ------------------------------------------------------------- run ids

  function Digit(n: nat): char
    requires n < 10
  {
    "0123456789"[n]
  }

  function DigitValue(c: char): nat {
    if '0' <= c <= '9' then (c - '0') as nat else 0
  }

  function Decimal(n: nat): string {
    if n < 10 then [Digit(n)] else Decimal(n / 10) + [Digit(n % 10)]
  }

  function Zeros(n: nat): string {
    seq(n, _ => '0')
  }

  function PadStart(s: string, width: nat): string {
    if |s| < width then Zeros(width - |s|) + s else s
  }

  function RunIdFor(n: nat): string {
    "run-" + PadStart(Decimal(n), 4)
  }

  function ParseDecimal(s: string): nat {
    if s == [] then 0 else 10 * ParseDecimal(s[..|s| - 1]) + DigitValue(s[|s| - 1])
  }

  predicate AllDigits(s: string) {
    forall i :: 0 <= i < |s| ==> '0' <= s[i] <= '9'
  }

  /** The number of a run id in canonical form. */
  function GetRunNumber(runId: string): Option<nat> {
    if |runId| > 4 && runId[..4] == "run-" && AllDigits(runId[4..]) then
      var n := ParseDecimal(runId[4..]);
      if n >= 1 && RunIdFor(n) == runId then Some(n) else None
    else None
  }

  lemma {:induction false} DecimalParses(n: nat)
    ensures AllDigits(Decimal(n)) && |Decimal(n)| > 0 && ParseDecimal(Decimal(n)) == n
  {
    assert DigitValue(Digit(n % 10)) == n % 10;
    if n >= 10 {
      DecimalParses(n / 10);
      assert Decimal(n)[..|Decimal(n)| - 1] == Decimal(n / 10);
    }
  }

  lemma {:induction false} LeadingZerosParse(k: nat, s: string)
    ensures ParseDecimal(Zeros(k) + s) == ParseDecimal(s)
    decreases k + |s|
  {
    if s == [] {
      assert Zeros(k) + s == Zeros(k);
      if k > 0 {
        assert Zeros(k)[..k - 1] == Zeros(k - 1);
        LeadingZerosParse(k - 1, s);
        assert Zeros(k - 1) + s == Zeros(k - 1);
      }
    } else {
      assert (Zeros(k) + s)[..k + |s| - 1] == Zeros(k) + s[..|s| - 1];
      LeadingZerosParse(k, s[..|s| - 1]);
    }
  }

  /** Run ids and run numbers determine each other. */
  lemma {:induction false} RunIdRoundTrip(n: nat)
    ensures GetRunNumber(RunIdFor(n)) == if n >= 1 then Some(n) else None
  {
    DecimalParses(n);
    var d := Decimal(n);
    if |d| < 4 {
      LeadingZerosParse(4 - |d|, d);
    }
    assert RunIdFor(n)[4..] == PadStart(d, 4);
  }

  // ------------------------------------------------------ authored starts

  function CreateRun(fixture: Fixture, runNumber: nat): DemoRun {
    DemoRun(
      RunIdFor(runNumber), fixture.scenarioId, fixture.seed, Observing, 0,
      None, None, None, None, None, None, None, None, None, true, false, [], 0)
  }

  const AUTHORED_SEED := Envelope(2, Some(CreateRun(CERTIFIABLE, 1)), [])

  function DeterministicTimestamp(evaluationTime: int, sequence: nat): int {
    evaluationTime + sequence * 1000
  }

  /** The last n elements: slice(-n). */
  function LastN<T>(s: seq<T>, n: nat): (r: seq<T>)
    ensures |r| == if |s| <= n then |s| else n
    ensures r == s[|s| - |r|..]
  {
    if |s| <= n then s else s[|s| - n..]
  }
}
