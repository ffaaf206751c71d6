/** The limit prices of a certified entry, and what the certificate then promises for every terminal price. */
module Certificates {
  import opened Candidates
  import opened Forecast
  import opened Judge
  import opened Options
  import opened Payoff
  import opened Policy
  import opened Multiples

  /** The cash paid by trading the first n legs at the middle of their quotes. */
  function MidpointLimit(legs: seq<OptionLeg>, quotes: seq<OptionQuote>, n: nat): real
    requires n <= |legs| == |quotes| && AllPresent(quotes)
  {
    if n == 0 then 0.0
    else
      var mid := (quotes[n - 1].bid.value + quotes[n - 1].ask.value) / 2.0;
      MidpointLimit(legs, quotes, n - 1) + if legs[n - 1].side == Buy then mid else -mid
  }

  datatype Limits = Limits(initial: real, replacement: real)

  /** A debit limit must be positive and a credit limit negative. */
  predicate HasSign(strategy: Strategy, limit: real) {
    if strategy == LongVol then limit > 0.0 else limit < 0.0
  }

  /**
   The limits of the first order and of its replacement: midpoint and executable price, capped at the
   certified limit.
   */
  predicate AreLimits(c: Candidate, quotes: seq<OptionQuote>, l: Limits)
    requires |quotes| == |c.legs| && AllPresent(quotes)
  {
    && l.initial == Min(MidpointLimit(c.legs, quotes, |quotes|), c.entryLimit)
    && l.replacement == Min(ExecutableLimit(c.legs, quotes, |quotes|), c.entryLimit)
  }

  method EntryLimits(c: Candidate, quotes: seq<OptionQuote>) returns (r: Result<Limits>)
    requires |quotes| == |c.legs| && AllPresent(quotes)
    ensures r.Ok? ==>
      AreLimits(c, quotes, r.value) && HasSign(c.strategy, r.value.initial) && HasSign(c.strategy, r.value.replacement)
    ensures r.Err? ==>
      forall l :: AreLimits(c, quotes, l) ==> !HasSign(c.strategy, l.initial) || !HasSign(c.strategy, l.replacement)
  {
    var midpoint, executable := 0.0, 0.0;
    for i := 0 to |quotes|
      invariant midpoint == MidpointLimit(c.legs, quotes, i)
      invariant executable == ExecutableLimit(c.legs, quotes, i)
    {
      var quote := quotes[i];
      var mid := (quote.bid.value + quote.ask.value) / 2.0;
      if c.legs[i].side == Buy {
        midpoint := midpoint + mid;
        executable := executable + quote.ask.value;
      } else {
        midpoint := midpoint - mid;
        executable := executable - quote.bid.value;
      }
    }
    var bound := c.entryLimit;
    var initial := Min(midpoint, bound);
    var replacement := Min(executable, bound);
    if c.strategy == LongVol && (initial <= 0.0 || replacement <= 0.0) {
      return Err("current debit limits are invalid");
    }
    if c.strategy == ShortVol && (initial >= 0.0 || replacement >= 0.0) {
      return Err("current credit limits are invalid");
    }
    return Ok(Limits(initial, replacement));
  }

  /** Trading at the middle never costs more than crossing the spread, on quotes that are not crossed. */
  lemma {:induction false} MidpointIsCheaper(legs: seq<OptionLeg>, quotes: seq<OptionQuote>, n: nat)
    requires n <= |legs| == |quotes| && AllPresent(quotes) && AllExecutable(quotes)
    ensures MidpointLimit(legs, quotes, n) <= ExecutableLimit(legs, quotes, n)
  {
    if n > 0 {
      MidpointIsCheaper(legs, quotes, n - 1);
      assert Executable(quotes[n - 1]);
    }
  }

  /** The replacement concedes from the first order's limit towards the certified one and never past it. */
  lemma {:induction false} LimitsConcedeUpToTheBound(c: Candidate, quotes: seq<OptionQuote>, l: Limits)
    requires |quotes| == |c.legs| && AllPresent(quotes) && AllExecutable(quotes) && AreLimits(c, quotes, l)
    ensures l.initial <= l.replacement <= c.entryLimit
  {
    MidpointIsCheaper(c.legs, quotes, |quotes|);
  }

  lemma {:induction false} SpreadIsHalfTheWidths(legs: seq<OptionLeg>, quotes: seq<OptionQuote>, n: nat)
    requires n <= |legs| == |quotes| && AllPresent(quotes)
    ensures ExecutableLimit(legs, quotes, n) - MidpointLimit(legs, quotes, n) == TotalWidth(quotes, n) / 2.0
  {
    if n > 0 {
      SpreadIsHalfTheWidths(legs, quotes, n - 1);
    }
  }

  function TotalWidth(quotes: seq<OptionQuote>, n: nat): real
    requires n <= |quotes| && AllPresent(quotes)
  {
    if n == 0 then 0.0 else TotalWidth(quotes, n - 1) + Width(quotes[n - 1])
  }

  /**
   The modeled friction is the configured multiple of what crossing the spread
   costs: at the default fraction of one half it is exactly the distance
   between the executable limit and the midpoint.
   */
  lemma {:induction false} FrictionPricesTheSpread(s: Settings, quotes: seq<OptionQuote>, strategy: Strategy)
    requires |quotes| == 4 && AllPresent(quotes)
    ensures
      var legs := LegsOf(quotes, strategy);
      Friction(s, quotes)
      == s.frictionFraction * 2.0 * (ExecutableLimit(legs, quotes, 4) - MidpointLimit(legs, quotes, 4))
  {
    SpreadIsHalfTheWidths(LegsOf(quotes, strategy), quotes, 4);
    FourTerms(Width(quotes[0]), Width(quotes[1]), Width(quotes[2]), Width(quotes[3]), s.frictionFraction);
    assert TotalWidth(quotes, 1) == Width(quotes[0]);
    assert TotalWidth(quotes, 2) == Width(quotes[0]) + Width(quotes[1]);
    assert TotalWidth(quotes, 4) == Width(quotes[0]) + Width(quotes[1]) + Width(quotes[2]) + Width(quotes[3]);
  }

  lemma {:induction false} FourTerms(a: real, b: real, c: real, d: real, k: real)
    ensures a * k + b * k + c * k + d * k == k * 2.0 * ((a + b + c + d) / 2.0)
  {
  }

  /** Paying less for the same legs never makes any outcome worse. */
  lemma {:induction false} CheaperIsNoWorse(c: Candidate, limit: real, p: real)
    requires c.quantity > 0 && limit <= c.entryLimit
    ensures StructurePnl(c.(entryLimit := limit), p) >= StructurePnl(c, p)
  {
    var v := TerminalValue(c.legs, p);
    TimesGrows(c.quantity, v - LotCost(c), v - LotCost(c.(entryLimit := limit)));
  }

  /**
   From quote to loss: whatever the market's uncrossed quotes are when a
   certificate is executed, at either limit and at every terminal price the
   trade loses no more than the trade limit and leaves the certified day
   strictly above its loss limit.
   */
  lemma {:induction false} CertifiedLimitsBoundLoss(
    policy: RiskPolicy, ttl: nat, candidates: seq<Candidate>, x: RiskContext, veto: bool, v: Verdict,
    quotes: seq<OptionQuote>, l: Limits, limit: real, p: real)
    requires AllHaveLegs(candidates) && (forall c :: c in candidates ==> WellFormed(c))
    requires IsVerdict(policy, ttl, candidates, x, veto, v) && v.Issued?
    requires |quotes| == |v.candidate.legs| && AllPresent(quotes) && AllExecutable(quotes)
    requires AreLimits(v.candidate, quotes, l) && limit in {l.initial, l.replacement} && p >= 0.0
    ensures
      var pnl := StructurePnl(v.candidate.(entryLimit := limit), p);
      pnl >= -policy.maxTradeLoss && v.dailyPnl + pnl > -policy.maxDailyLoss
  {
    CertificateBoundsLoss(policy, ttl, candidates, x, veto, v);
    LimitsConcedeUpToTheBound(v.candidate, quotes, l);
    CheaperIsNoWorse(v.candidate, limit, p);
  }

  /** A candidate the service builds from some four quotes. */
  ghost predicate FromQuotes(s: Settings, nodes: seq<Node>, price: real, c: Candidate)
    requires ValidSettings(s) && Valid(nodes)
  {
    exists quotes, strategy :: Condor(quotes) && Built(s, quotes, strategy, nodes, price, c)
  }

  /** The expected profit is positive under each of the five admissible distributions, all of which exist. */
  predicate PaysInExpectation(nodes: seq<Node>, price: real, c: Candidate)
    requires Valid(nodes)
  {
    forall i :: 0 <= i < 5 ==> ApplyScenario(nodes, ADMISSIBLE[i]).Ok? && AdmissiblePnl(c, nodes, price, i) > 0.0
  }

  lemma {:induction false} BuiltFacts(s: Settings, nodes: seq<Node>, price: real, c: Candidate)
    requires ValidSettings(s) && Valid(nodes) && FromQuotes(s, nodes, price, c)
    ensures WellFormed(c) && c.maxLoss == ExactMaxLoss(c) <= s.riskBudget
    ensures c.robustEv > 0.0 ==> PaysInExpectation(nodes, price, c)
  {
    var quotes, strategy :| Condor(quotes) && Built(s, quotes, strategy, nodes, price, c);
    SizingIsExact(s, quotes, strategy, nodes, price, c);
    RobustEvIsGreatestLowerBound(s, quotes, strategy, nodes, price, c);
  }

  lemma {:induction false} IssuedIsRecomputed(
    policy: RiskPolicy, ttl: nat, candidates: seq<Candidate>, x: RiskContext, veto: bool, v: Verdict)
    returns (c: Candidate)
    requires AllHaveLegs(candidates) && IsVerdict(policy, ttl, candidates, x, veto, v) && v.Issued?
    ensures c in candidates && c.legs != [] && c.robustEv > 0.0 && v.candidate == Recomputed(c)
  {
    c :|
      && Best(policy, JudgedContext(x, ttl), candidates, c)
      && v == Issued(Recomputed(c), x.now, x.now + ttl, x.dailyPnl);
  }

  lemma {:induction false} CheaperPaysNoLess(c: Candidate, limit: real, nodes: seq<Node>, price: real)
    requires c.quantity > 0 && limit <= c.entryLimit
    requires forall i :: 0 <= i < |nodes| ==> nodes[i].prob >= 0.0
    ensures ExpectedPnl(c.(entryLimit := limit), nodes, price) >= ExpectedPnl(c, nodes, price)
  {
    if nodes != [] {
      var (p, node) := (TerminalPrice(price, nodes[0].ret), nodes[0]);
      CheaperIsNoWorse(c, limit, p);
      WeighedNoLess(StructurePnl(c, p), StructurePnl(c.(entryLimit := limit), p), node.prob);
      CheaperPaysNoLess(c, limit, nodes[1..], price);
    }
  }

  lemma {:induction false} WeighedNoLess(a: real, b: real, weight: real)
    requires a <= b && weight >= 0.0
    ensures a * weight <= b * weight
  {
  }

  lemma {:induction false} CheaperStillPays(c: Candidate, limit: real, nodes: seq<Node>, price: real)
    requires Valid(nodes) && PaysInExpectation(nodes, price, c)
    requires c.quantity > 0 && limit <= c.entryLimit
    ensures PaysInExpectation(nodes, price, c.(entryLimit := limit))
  {
    forall i | 0 <= i < 5 ensures AdmissiblePnl(c.(entryLimit := limit), nodes, price, i) > 0.0 {
      assert ApplyScenario(nodes, ADMISSIBLE[i]).Ok? && AdmissiblePnl(c, nodes, price, i) > 0.0;
      ScenarioKeepsProbability(nodes, ADMISSIBLE[i]);
      CheaperPaysNoLess(c, limit, ApplyScenario(nodes, ADMISSIBLE[i]).value, price);
    }
  }

  /**
   From quotes to certificate: a certificate over candidates the service built
   is for one of them unchanged, within the risk budget, and pays in
   expectation whichever of the admissible distributions is true.
   */
  lemma {:induction false} CertifiedTradePaysInExpectation(
    policy: RiskPolicy, ttl: nat, candidates: seq<Candidate>, x: RiskContext, veto: bool, v: Verdict,
    s: Settings, nodes: seq<Node>, price: real)
    requires ValidSettings(s) && Valid(nodes)
    requires AllHaveLegs(candidates) && (forall c :: c in candidates ==> FromQuotes(s, nodes, price, c))
    requires IsVerdict(policy, ttl, candidates, x, veto, v) && v.Issued?
    ensures v.candidate in candidates
    ensures v.candidate.maxLoss <= s.riskBudget
    ensures PaysInExpectation(nodes, price, v.candidate)
  {
    var c := IssuedIsRecomputed(policy, ttl, candidates, x, veto, v);
    BuiltFacts(s, nodes, price, c);
    assert v.candidate == c;
  }

  /**
   From quotes to order: the certificate pays in expectation, and so does the
   order at either limit the market's uncrossed quotes lead to, whichever of
   the admissible distributions is true.
   */
  lemma {:induction false} SubmittedLimitsPayInExpectation(
    policy: RiskPolicy, ttl: nat, candidates: seq<Candidate>, x: RiskContext, veto: bool, v: Verdict,
    s: Settings, nodes: seq<Node>, price: real, quotes: seq<OptionQuote>, l: Limits, limit: real)
    requires ValidSettings(s) && Valid(nodes)
    requires AllHaveLegs(candidates) && (forall c :: c in candidates ==> FromQuotes(s, nodes, price, c))
    requires IsVerdict(policy, ttl, candidates, x, veto, v) && v.Issued?
    requires |quotes| == |v.candidate.legs| && AllPresent(quotes) && AllExecutable(quotes)
    requires AreLimits(v.candidate, quotes, l) && limit in {l.initial, l.replacement}
    ensures PaysInExpectation(nodes, price, v.candidate.(entryLimit := limit))
  {
    CertifiedTradePaysInExpectation(policy, ttl, candidates, x, veto, v, s, nodes, price);
    BuiltFacts(s, nodes, price, v.candidate);
    LimitsConcedeUpToTheBound(v.candidate, quotes, l);
    CheaperStillPays(v.candidate, limit, nodes, price);
  }
}
