/** The risk constitution: independent gates, every violated one reported. */
module Policy {
  import opened Options
  import opened Payoff
  import opened Scheduler

  datatype Reason =
    | MaxTradeLoss | DailyLossLimit | CompetitionDrawdown
    | OpenStructureExists | WorkingOrderExists | OpenPositionExists
    | DailyEntryLimit | SameSymbolReentry | EntryWindowClosed
    | StaleEvidence | DteOutOfRange
    | AccountNotActive | OptionsLevelInsufficient | OpraUnavailable | NonPaperEndpoint
    | CertificateExpired | InvalidDebitSign | InvalidCreditSign

  datatype RiskPolicy = RiskPolicy(
    maxTradeLoss: real, maxDailyLoss: real, maxCompetitionDrawdown: real, maxEntriesPerDay: nat)

  datatype AccountStatus = Active | Inactive | Unknown

  /** Times are those of the scheduler: microseconds of New York local time from midnight of day 0. */
  datatype RiskContext = RiskContext(
    now: nat,
    decisionWindow: Window,
    evidenceObservedAt: int,
    evidenceMaxAgeSeconds: nat,
    dailyPnl: real,
    competitionDrawdown: real,
    entriesToday: nat,
    tradedSymbolsToday: seq<string>,
    openStructureCount: nat,
    openOrderCount: nat,
    openPositionCount: nat,
    accountStatus: AccountStatus,
    optionsLevel: nat,
    opraAvailable: bool,
    baseUrl: string,
    certificateExpiresAt: Option<int>,
    entryAttempt: bool)

  const PAPER_ENDPOINT := "https://paper-api.alpaca.markets"
  const SECOND: nat := 1_000_000

  /** The text without its trailing slashes. */
  function WithoutTrailingSlashes(url: string): string {
    if url != [] && url[|url| - 1] == '/' then WithoutTrailingSlashes(url[..|url| - 1]) else url
  }

  /** What each gate forbids. */
  predicate Violates(policy: RiskPolicy, proposal: Candidate, x: RiskContext, reason: Reason)
    requires proposal.legs != []
  {
    match reason
    case MaxTradeLoss => Max(proposal.maxLoss, ExactMaxLoss(proposal)) > policy.maxTradeLoss
    case DailyLossLimit => Min(x.dailyPnl, x.dailyPnl - ExactMaxLoss(proposal)) <= -policy.maxDailyLoss
    case CompetitionDrawdown => x.competitionDrawdown >= policy.maxCompetitionDrawdown
    case OpenStructureExists => x.openStructureCount != 0
    case WorkingOrderExists => x.openOrderCount != 0
    case OpenPositionExists => x.openPositionCount != 0
    case DailyEntryLimit => x.entriesToday >= policy.maxEntriesPerDay
    case SameSymbolReentry => proposal.underlying in x.tradedSymbolsToday
    case EntryWindowClosed => x.entryAttempt && MinuteOf(x.now) < ExecutionMinute(x.decisionWindow)
    case StaleEvidence => !(0 <= x.now - x.evidenceObservedAt <= x.evidenceMaxAgeSeconds * SECOND)
    case DteOutOfRange => proposal.expiration - DateOf(x.now) !in {1, 2, 3}
    case AccountNotActive => x.accountStatus != Active
    case OptionsLevelInsufficient => x.optionsLevel < 3
    case OpraUnavailable => !x.opraAvailable
    case NonPaperEndpoint => WithoutTrailingSlashes(x.baseUrl) != PAPER_ENDPOINT
    case CertificateExpired => x.certificateExpiresAt.Some? && x.certificateExpiresAt.value <= x.now
    case InvalidDebitSign => proposal.strategy == LongVol && proposal.entryLimit <= 0.0
    case InvalidCreditSign => proposal.strategy == ShortVol && proposal.entryLimit >= 0.0
  }

  /** The violated ones among some gates. */
  function Violated(policy: RiskPolicy, proposal: Candidate, x: RiskContext, gates: set<Reason>): set<Reason>
    requires proposal.legs != []
  {
    set reason | reason in gates && Violates(policy, proposal, x, reason)
  }

  const LOSS_GATES := {MaxTradeLoss, DailyLossLimit, CompetitionDrawdown}
  const BOOK_GATES :=
    {OpenStructureExists, WorkingOrderExists, OpenPositionExists, DailyEntryLimit, SameSymbolReentry}
  const TIME_GATES := {EntryWindowClosed, StaleEvidence, DteOutOfRange}
  const VENUE_GATES :=
    {AccountNotActive, OptionsLevelInsufficient, OpraUnavailable, NonPaperEndpoint}
  const OFFER_GATES := {CertificateExpired, InvalidDebitSign, InvalidCreditSign}

  /** Every violated gate, and no other. */
  function Refusals(policy: RiskPolicy, proposal: Candidate, x: RiskContext): set<Reason>
    requires proposal.legs != []
  {
    set reason: Reason | Violates(policy, proposal, x, reason)
  }

  lemma {:induction false} EveryGate(reason: Reason)
    ensures reason in LOSS_GATES + BOOK_GATES + TIME_GATES + VENUE_GATES + OFFER_GATES
  {
  }

  lemma {:induction false} RefusalsAreViolations(policy: RiskPolicy, proposal: Candidate, x: RiskContext)
    requires proposal.legs != []
    ensures Refusals(policy, proposal, x) == {} <==> forall reason :: !Violates(policy, proposal, x, reason)
  {
    if Refusals(policy, proposal, x) == {} {
      forall reason ensures !Violates(policy, proposal, x, reason) {
        assert reason !in Refusals(policy, proposal, x);
      }
    }
  }

  datatype Decision = Decision(allowed: bool, reasons: set<Reason>, computedMaxLoss: real, dte: int)

  /** The earliest execution time of a window is on the minute, so comparing minutes compares times. */
  lemma {:induction false} BeforeMinute(now: nat, minute: nat)
    ensures now % DAY < minute * MINUTE <==> MinuteOf(now) < minute
  {
  }

  /** Walks the gates in order, adding to the reasons. */
  method Evaluate(policy: RiskPolicy, proposal: Candidate, x: RiskContext) returns (d: Decision)
    requires proposal.legs != []
    ensures d.reasons == Refusals(policy, proposal, x)
    ensures d.allowed <==> forall reason :: !Violates(policy, proposal, x, reason)
    ensures d.computedMaxLoss == ExactMaxLoss(proposal) && d.dte == proposal.expiration - DateOf(x.now)
  {
    var computedLoss := ExactMaxLoss(proposal);
    var loss := LossReasons(policy, proposal, computedLoss, x);
    var book := BookReasons(policy, proposal, x);
    var time, dte := TimeReasons(policy, proposal, x);
    var venue := VenueReasons(policy, proposal, x);
    var offer := OfferReasons(policy, proposal, x);
    var reasons := loss + book + time + venue + offer;
    forall reason ensures reason in reasons <==> Violates(policy, proposal, x, reason) {
      EveryGate(reason);
    }
    assert reasons == Refusals(policy, proposal, x);
    RefusalsAreViolations(policy, proposal, x);
    return Decision(reasons == {}, reasons, computedLoss, dte);
  }

  method LossReasons(policy: RiskPolicy, proposal: Candidate, computedLoss: real, x: RiskContext)
    returns (reasons: set<Reason>)
    requires proposal.legs != [] && computedLoss == ExactMaxLoss(proposal)
    ensures reasons == Violated(policy, proposal, x, LOSS_GATES)
  {
    reasons := {};
    if proposal.maxLoss > policy.maxTradeLoss || computedLoss > policy.maxTradeLoss {
      reasons := reasons + {MaxTradeLoss};
    }
    if x.dailyPnl <= -policy.maxDailyLoss || x.dailyPnl - computedLoss <= -policy.maxDailyLoss {
      reasons := reasons + {DailyLossLimit};
    }
    if x.competitionDrawdown >= policy.maxCompetitionDrawdown {
      reasons := reasons + {CompetitionDrawdown};
    }
  }

  method BookReasons(policy: RiskPolicy, proposal: Candidate, x: RiskContext) returns (reasons: set<Reason>)
    requires proposal.legs != []
    ensures reasons == Violated(policy, proposal, x, BOOK_GATES)
  {
    reasons := {};
    if x.openStructureCount > 0 {
      reasons := reasons + {OpenStructureExists};
    }
    if x.openOrderCount > 0 {
      reasons := reasons + {WorkingOrderExists};
    }
    if x.openPositionCount > 0 {
      reasons := reasons + {OpenPositionExists};
    }
    if x.entriesToday >= policy.maxEntriesPerDay {
      reasons := reasons + {DailyEntryLimit};
    }
    if proposal.underlying in x.tradedSymbolsToday {
      reasons := reasons + {SameSymbolReentry};
    }
  }

  method TimeReasons(policy: RiskPolicy, proposal: Candidate, x: RiskContext) returns (reasons: set<Reason>, dte: int)
    requires proposal.legs != []
    ensures reasons == Violated(policy, proposal, x, TIME_GATES)
    ensures dte == proposal.expiration - DateOf(x.now)
  {
    reasons := {};
    BeforeMinute(x.now, ExecutionMinute(x.decisionWindow));
    if x.entryAttempt && x.now % DAY < ExecutionMinute(x.decisionWindow) * MINUTE {
      reasons := reasons + {EntryWindowClosed};
    }
    var age := x.now - x.evidenceObservedAt;
    if age < 0 || age > x.evidenceMaxAgeSeconds * SECOND {
      reasons := reasons + {StaleEvidence};
    }
    dte := proposal.expiration - DateOf(x.now);
    if dte < 1 || dte > 3 {
      reasons := reasons + {DteOutOfRange};
    }
  }

  method VenueReasons(policy: RiskPolicy, proposal: Candidate, x: RiskContext) returns (reasons: set<Reason>)
    requires proposal.legs != []
    ensures reasons == Violated(policy, proposal, x, VENUE_GATES)
  {
    reasons := {};
    if x.accountStatus != Active {
      reasons := reasons + {AccountNotActive};
    }
    if x.optionsLevel < 3 {
      reasons := reasons + {OptionsLevelInsufficient};
    }
    if !x.opraAvailable {
      reasons := reasons + {OpraUnavailable};
    }
    if WithoutTrailingSlashes(x.baseUrl) != PAPER_ENDPOINT {
      reasons := reasons + {NonPaperEndpoint};
    }
  }

  method OfferReasons(policy: RiskPolicy, proposal: Candidate, x: RiskContext) returns (reasons: set<Reason>)
    requires proposal.legs != []
    ensures reasons == Violated(policy, proposal, x, OFFER_GATES)
  {
    reasons := {};
    if x.certificateExpiresAt.Some? && x.certificateExpiresAt.value <= x.now {
      reasons := reasons + {CertificateExpired};
    }
    if proposal.strategy == LongVol && proposal.entryLimit <= 0.0 {
      reasons := reasons + {InvalidDebitSign};
    }
    if proposal.strategy == ShortVol && proposal.entryLimit >= 0.0 {
      reasons := reasons + {InvalidCreditSign};
    }
  }

  // ------------------------------------------------------------- theorems

  /** Some terminal price loses more than an amount exactly when the computed loss is more. */
  lemma {:induction false} LossBoundExactIff(c: Candidate, bound: real)
    requires WellFormed(c)
    ensures bound >= 0.0 ==>
      (ExactMaxLoss(c) <= bound <==> forall p :: p >= 0.0 ==> StructurePnl(c, p) >= -bound)
    ensures bound > 0.0 ==>
      (ExactMaxLoss(c) < bound <==> forall p :: p >= 0.0 ==> StructurePnl(c, p) > -bound)
  {
    CondorLossIsExact(c);
  }

  /**
   The loss gates are exact for every recomputed condor: they pass if and only
   if no terminal price can lose more than the trade limit or bring the day to
   its loss limit.
   */
  lemma {:induction false} LossGatesExactIff(policy: RiskPolicy, c: Candidate, x: RiskContext)
    requires WellFormed(c) && c.maxLoss == ExactMaxLoss(c)
    requires policy.maxTradeLoss >= 0.0
    ensures !Violates(policy, c, x, MaxTradeLoss)
       <==> forall p :: p >= 0.0 ==> StructurePnl(c, p) >= -policy.maxTradeLoss
    ensures !Violates(policy, c, x, DailyLossLimit)
       <==> x.dailyPnl > -policy.maxDailyLoss
            && forall p :: p >= 0.0 ==> x.dailyPnl + StructurePnl(c, p) > -policy.maxDailyLoss
  {
    LossBoundExactIff(c, policy.maxTradeLoss);
    CondorLossIsExact(c);
    if x.dailyPnl > -policy.maxDailyLoss {
      LossBoundExactIff(c, x.dailyPnl + policy.maxDailyLoss);
    }
  }
}
