/** Quote-driven candidates: entry limit, size and robust expected value. */
module Candidates {
  import opened Forecast
  import opened Options
  import opened Payoff
  import opened Multiples

  datatype OptionQuote = OptionQuote(
    symbol: string, underlying: string, expiration: int, strike: real, right: Right,
    bid: Option<real>, ask: Option<real>)

  /** The settings the service is constructed with. */
  datatype Settings = Settings(
    portfolioCapacity: nat, riskBudget: real, frictionFraction: real, feePerLeg: real)

  predicate ValidSettings(s: Settings) {
    s.riskBudget > 0.0 && s.frictionFraction >= 0.0 && s.feePerLeg >= 0.0
  }

  predicate Present(q: OptionQuote) {
    q.bid.Some? && q.ask.Some?
  }

  /** Both sides present and not crossed. */
  predicate Executable(q: OptionQuote) {
    Present(q) && q.bid.value <= q.ask.value
  }

  predicate AllPresent(quotes: seq<OptionQuote>) {
    forall i :: 0 <= i < |quotes| ==> Present(quotes[i])
  }

  predicate AllExecutable(quotes: seq<OptionQuote>) {
    forall i :: 0 <= i < |quotes| ==> Executable(quotes[i])
  }

  /** Four eligible quotes of one expiration in condor order: outer put, inner put, inner call, outer call. */
  predicate Condor(quotes: seq<OptionQuote>) {
    && |quotes| == 4 && AllExecutable(quotes)
    && quotes[0].right == quotes[1].right == Put && quotes[2].right == quotes[3].right == Call
    && 0.0 < quotes[0].strike < quotes[1].strike < quotes[2].strike < quotes[3].strike
    && forall i :: 0 <= i < 4 ==>
         quotes[i].underlying == quotes[0].underlying && quotes[i].expiration == quotes[0].expiration
  }

  function LegOf(q: OptionQuote, side: Side): OptionLeg {
    OptionLeg(q.symbol, q.underlying, q.expiration, q.strike, q.right, side, 1)
  }

  function LegsOf(quotes: seq<OptionQuote>, strategy: Strategy): seq<OptionLeg>
    requires |quotes| == 4
  {
    seq(4, i requires 0 <= i < 4 => LegOf(quotes[i], ExpectedSides(strategy)[i]))
  }

  // ---------------------------------------------------------- entry limit

  /** The cash paid by trading the first n legs at once: bought at the ask, sold at the bid. */
  function ExecutableLimit(legs: seq<OptionLeg>, quotes: seq<OptionQuote>, n: nat): real
    requires n <= |legs| == |quotes| && AllPresent(quotes)
  {
    if n == 0 then 0.0
    else ExecutableLimit(legs, quotes, n - 1)
         + if legs[n - 1].side == Buy then quotes[n - 1].ask.value else -quotes[n - 1].bid.value
  }

  /** What the four quotes of a structure cost to trade at once. */
  function QuotedLimit(quotes: seq<OptionQuote>, strategy: Strategy): real
    requires |quotes| == 4 && AllPresent(quotes)
  {
    ExecutableLimit(LegsOf(quotes, strategy), quotes, 4)
  }

  method EntryLimit(quotes: seq<OptionQuote>, strategy: Strategy) returns (cashflow: real)
    requires |quotes| == 4 && AllPresent(quotes)
    ensures cashflow == QuotedLimit(quotes, strategy)
  {
    var legs := LegsOf(quotes, strategy);
    cashflow := 0.0;
    for i := 0 to 4
      invariant cashflow == ExecutableLimit(legs, quotes, i)
    {
      cashflow := cashflow + if legs[i].side == Buy then quotes[i].ask.value else -quotes[i].bid.value;
    }
  }

  // ------------------------------------------------------------- building

  function Width(q: OptionQuote): real
    requires Present(q)
  {
    q.ask.value - q.bid.value
  }

  function Friction(s: Settings, quotes: seq<OptionQuote>): real
    requires |quotes| == 4 && AllPresent(quotes)
  {
    Width(quotes[0]) * s.frictionFraction + Width(quotes[1]) * s.frictionFraction
    + Width(quotes[2]) * s.frictionFraction + Width(quotes[3]) * s.frictionFraction
  }

  /** The structure at quantity one, before its loss and robust value are known. */
  function OneLot(s: Settings, quotes: seq<OptionQuote>, strategy: Strategy): Candidate
    requires |quotes| == 4 && AllPresent(quotes)
  {
    Candidate(
      strategy, quotes[0].underlying, quotes[0].expiration, LegsOf(quotes, strategy), 1,
      QuotedLimit(quotes, strategy), 0.0, Friction(s, quotes), s.feePerLeg * 4.0, 0.0)
  }

  predicate WrongSign(c: Candidate) {
    if c.strategy == LongVol then c.entryLimit <= 0.0 else c.entryLimit >= 0.0
  }

  /** As many lots as the capacity and the budget allow. */
  function Lots(s: Settings, loss: real): int
    requires loss > 0.0
  {
    var affordable := (s.riskBudget / loss).Floor;
    var positive := if affordable > 0 then affordable else 0;
    if s.portfolioCapacity <= positive then s.portfolioCapacity else positive
  }

  function TerminalPrice(price: real, ret: real): real {
    Max(0.0, price * (1.0 + ret))
  }

  function ExpectedPnl(c: Candidate, nodes: seq<Node>, price: real): real {
    if nodes == [] then 0.0
    else StructurePnl(c, TerminalPrice(price, nodes[0].ret)) * nodes[0].prob + ExpectedPnl(c, nodes[1..], price)
  }

  const ADMISSIBLE: seq<Scenario> := [BaseCase, VolUp, VolDown, LeftTail, RightTail]

  /** Whether all five admissible distributions exist. */
  predicate AdmissibleExist(nodes: seq<Node>)
    requires Valid(nodes)
  {
    ApplyScenario(nodes, LeftTail).Ok? && ApplyScenario(nodes, RightTail).Ok?
  }

  /** The expected value under the i-th admissible distribution. */
  function AdmissiblePnl(c: Candidate, nodes: seq<Node>, price: real, i: nat): real
    requires Valid(nodes) && i < 5 && ApplyScenario(nodes, ADMISSIBLE[i]).Ok?
  {
    ExpectedPnl(c, ApplyScenario(nodes, ADMISSIBLE[i]).value, price)
  }

  /** The least expected value over the first n admissible distributions. */
  function RobustEv(c: Candidate, nodes: seq<Node>, price: real, n: nat): real
    requires Valid(nodes) && 1 <= n <= 5
    requires forall i :: 0 <= i < 5 ==> ApplyScenario(nodes, ADMISSIBLE[i]).Ok?
  {
    var last := AdmissiblePnl(c, nodes, price, n - 1);
    if n == 1 then last else Min(RobustEv(c, nodes, price, n - 1), last)
  }

  lemma {:induction false} AdmissibleAreDefined(nodes: seq<Node>)
    requires Valid(nodes)
    ensures AdmissibleExist(nodes) <==> forall i :: 0 <= i < 5 ==> ApplyScenario(nodes, ADMISSIBLE[i]).Ok?
  {
    assert ADMISSIBLE[3] == LeftTail && ADMISSIBLE[4] == RightTail;
  }

  /** None when the structure is not worth proposing; Err when an admissible distribution cannot be formed. */
  function BuildCandidate(
    s: Settings, quotes: seq<OptionQuote>, strategy: Strategy, nodes: seq<Node>, price: real): Result<Option<Candidate>>
    requires |quotes| == 4 && AllPresent(quotes) && Valid(nodes)
  {
    var one := OneLot(s, quotes, strategy);
    var loss := ExactMaxLoss(one);
    if WrongSign(one) then Ok(None)
    else if loss <= 0.0 then Ok(None)
    else if Lots(s, loss) <= 0 then Ok(None)
    else if !AdmissibleExist(nodes) then Err("probability above one")
    else
      AdmissibleAreDefined(nodes);
      var sized := one.(quantity := Lots(s, loss), maxLoss := loss * Lots(s, loss) as real);
      Ok(Some(sized.(robustEv := RobustEv(sized, nodes, price, 5))))
  }

  // --------------------------------------------------------------- sizing

  lemma {:induction false} ShareTimes(budget: real, loss: real)
    requires loss > 0.0
    ensures budget / loss * loss == budget
  {
  }

  lemma {:induction false} AtMost(n: real, x: real, k: real, y: real)
    requires n <= x && k > 0.0 && x * k == y
    ensures n * k <= y
  {
  }

  lemma {:induction false} BelowNext(n: real, x: real, k: real, y: real)
    requires x < n + 1.0 && k > 0.0 && x * k == y
    ensures y < n * k + k
  {
    var m := n + 1.0;
    ScaleStrictly(x, m, k);
    Distribute(n, 1.0, k);
    assert 1.0 * k == k;
    assert m * k == n * k + k;
    assert x * k < m * k;
  }

  lemma {:induction false} FloorBounds(budget: real, loss: real)
    requires loss > 0.0
    ensures var n := (budget / loss).Floor as real; n * loss <= budget < n * loss + loss
  {
    var (x, n) := (budget / loss, (budget / loss).Floor as real);
    ShareTimes(budget, loss);
    AtMost(n, x, loss, budget);
    BelowNext(n, x, loss, budget);
  }

  lemma {:induction false} ScaleStrictly(x: real, y: real, k: real)
    requires x < y && k > 0.0
    ensures x * k < y * k
  {
  }

  lemma {:induction false} OneLotIsWellFormed(s: Settings, quotes: seq<OptionQuote>, strategy: Strategy)
    requires ValidSettings(s) && Condor(quotes)
    ensures WellFormed(OneLot(s, quotes, strategy))
  {
    forall i | 0 <= i < 4 ensures Width(quotes[i]) * s.frictionFraction >= 0.0 {
      assert Executable(quotes[i]);
    }
  }

  lemma {:induction false} LotsFit(s: Settings, loss: real)
    requires ValidSettings(s) && loss > 0.0
    ensures
      var q := Lots(s, loss);
      && 0 <= q <= s.portfolioCapacity
      && (q > 0 ==> q as real * loss <= s.riskBudget)
      && (q == s.portfolioCapacity || q as real * loss + loss > s.riskBudget)
      && (q == 0 <==> s.portfolioCapacity == 0 || loss > s.riskBudget)
  {
    var n := (s.riskBudget / loss).Floor;
    var (q, m) := (Lots(s, loss), n as real);
    FloorBounds(s.riskBudget, loss);
    if n >= 1 {
      Scale(1.0, m, loss);
      Scale(q as real, m, loss);
      assert 1.0 * loss == loss <= m * loss;
    } else {
      Scale(m, 0.0, loss);
      assert 0.0 * loss == 0.0;
    }
  }

  /** A quote quadruple is not proposed exactly when its price has the wrong sign or no lot fits. */
  lemma {:induction false} NotProposedIff(
    s: Settings, quotes: seq<OptionQuote>, strategy: Strategy, nodes: seq<Node>, price: real)
    requires ValidSettings(s) && Condor(quotes) && Valid(nodes)
    ensures
      var one := OneLot(s, quotes, strategy);
      BuildCandidate(s, quotes, strategy, nodes, price) == Ok(None)
      <==> WrongSign(one) || ExactMaxLoss(one) == 0.0 || ExactMaxLoss(one) > s.riskBudget || s.portfolioCapacity == 0
  {
    var loss := ExactMaxLoss(OneLot(s, quotes, strategy));
    if loss > 0.0 {
      LotsFit(s, loss);
    }
  }

  /** The candidate built from these quotes. */
  predicate Built(
    s: Settings, quotes: seq<OptionQuote>, strategy: Strategy, nodes: seq<Node>, price: real, c: Candidate)
    requires ValidSettings(s) && Condor(quotes) && Valid(nodes)
  {
    BuildCandidate(s, quotes, strategy, nodes, price) == Ok(Some(c))
  }

  lemma {:induction false} LossOfLots(one: Candidate, c: Candidate, q: int)
    requires one.quantity == 1 && SameTrade(one, c.(quantity := 1)) && c.legs != [] && q > 0
    ensures ExactMaxLoss(c.(quantity := q)) == ExactMaxLoss(one) * q as real
  {
    SameTradeSameLoss(one, c.(quantity := 1));
    LossScales(c, q);
  }

  lemma {:induction false} BuiltFromOneLot(
    s: Settings, quotes: seq<OptionQuote>, strategy: Strategy, nodes: seq<Node>, price: real, c: Candidate)
    requires ValidSettings(s) && Condor(quotes) && Valid(nodes) && Built(s, quotes, strategy, nodes, price, c)
    ensures
      var one := OneLot(s, quotes, strategy);
      && WellFormed(one) && SameTrade(one, c.(quantity := 1)) && !WrongSign(one) && ExactMaxLoss(one) > 0.0
      && c.quantity == Lots(s, ExactMaxLoss(one)) > 0
      && c.maxLoss == ExactMaxLoss(one) * c.quantity as real
  {
    OneLotIsWellFormed(s, quotes, strategy);
  }

  lemma {:induction false} OneMoreLot(s: Settings, one: Candidate, c: Candidate)
    requires one.quantity == 1 && SameTrade(one, c.(quantity := 1)) && c.legs != []
    requires c.quantity > 0 && c.maxLoss == ExactMaxLoss(one) * c.quantity as real
    requires ExactMaxLoss(one) > 0.0
    ensures c.maxLoss == ExactMaxLoss(c) == c.quantity as real * ExactMaxLoss(one) > 0.0
    ensures ExactMaxLoss(c.(quantity := c.quantity + 1)) == c.maxLoss + ExactMaxLoss(one)
  {
    var (loss, q) := (ExactMaxLoss(one), c.quantity);
    LossOfLots(one, c, q);
    LossOfLots(one, c, q + 1);
    assert c.(quantity := q) == c;
    Distribute(q as real, 1.0, loss);
    Scale(1.0, q as real, loss);
  }

  lemma {:induction false} SizedIsWellFormed(one: Candidate, c: Candidate)
    requires WellFormed(one) && SameTrade(one, c.(quantity := 1)) && c.quantity > 0 && c.maxLoss >= 0.0
    ensures WellFormed(c)
  {
  }

  lemma {:induction false} SizeOfLots(s: Settings, one: Candidate, c: Candidate)
    requires ValidSettings(s) && WellFormed(one) && one.quantity == 1 && SameTrade(one, c.(quantity := 1))
    requires ExactMaxLoss(one) > 0.0 && c.quantity == Lots(s, ExactMaxLoss(one)) > 0
    requires c.maxLoss == ExactMaxLoss(one) * c.quantity as real
    ensures WellFormed(c)
    ensures 0.0 < c.maxLoss == ExactMaxLoss(c) <= s.riskBudget
    ensures c.quantity == s.portfolioCapacity || ExactMaxLoss(c.(quantity := c.quantity + 1)) > s.riskBudget
    ensures c.quantity <= s.portfolioCapacity
  {
    LotsFit(s, ExactMaxLoss(one));
    OneMoreLot(s, one, c);
    SizedIsWellFormed(one, c);
  }

  /**
   The size is exact and maximal: the recorded loss is the exact worst loss of
   the whole quantity, it is within the budget, and one more lot would exceed
   the budget or the capacity.
   */
  lemma {:induction false} SizingIsExact(
    s: Settings, quotes: seq<OptionQuote>, strategy: Strategy, nodes: seq<Node>, price: real, c: Candidate)
    requires ValidSettings(s) && Condor(quotes) && Valid(nodes) && Built(s, quotes, strategy, nodes, price, c)
    ensures WellFormed(c) && !WrongSign(c)
    ensures c.maxLoss == ExactMaxLoss(c)
    ensures 0.0 < c.maxLoss <= s.riskBudget
    ensures 1 <= c.quantity <= s.portfolioCapacity
    ensures c.quantity == s.portfolioCapacity || ExactMaxLoss(c.(quantity := c.quantity + 1)) > s.riskBudget
  {
    BuiltFromOneLot(s, quotes, strategy, nodes, price, c);
    SizeOfLots(s, OneLot(s, quotes, strategy), c);
  }

  // --------------------------------------------------- robust expected value

  lemma {:induction false} ExpectedStep(pnl: real, prob: real, rest: real, mass: real, loss: real)
    requires pnl >= -loss && prob >= 0.0 && rest >= -loss * mass
    ensures pnl * prob + rest >= -loss * (prob + mass)
  {
  }

  lemma {:induction false} ExpectedAtLeast(c: Candidate, nodes: seq<Node>, price: real, loss: real)
    requires NonNegative(nodes) && forall p :: p >= 0.0 ==> StructurePnl(c, p) >= -loss
    ensures ExpectedPnl(c, nodes, price) >= -loss * Mass(nodes)
  {
    if nodes != [] {
      ExpectedAtLeast(c, nodes[1..], price, loss);
      var pnl := StructurePnl(c, TerminalPrice(price, nodes[0].ret));
      ExpectedStep(pnl, nodes[0].prob, ExpectedPnl(c, nodes[1..], price), Mass(nodes[1..]), loss);
    }
  }

  lemma {:induction false} ExpectedOfSameTrade(c: Candidate, d: Candidate, nodes: seq<Node>, price: real)
    requires SameTrade(c, d)
    ensures ExpectedPnl(c, nodes, price) == ExpectedPnl(d, nodes, price)
  {
    if nodes != [] {
      ExpectedOfSameTrade(c, d, nodes[1..], price);
    }
  }

  lemma {:induction false} RobustEvIsLeast(c: Candidate, nodes: seq<Node>, price: real, n: nat) returns (k: nat)
    requires Valid(nodes) && 1 <= n <= 5
    requires forall i :: 0 <= i < 5 ==> ApplyScenario(nodes, ADMISSIBLE[i]).Ok?
    ensures forall i :: 0 <= i < n ==> RobustEv(c, nodes, price, n) <= AdmissiblePnl(c, nodes, price, i)
    ensures k < n && RobustEv(c, nodes, price, n) == AdmissiblePnl(c, nodes, price, k)
  {
    k := n - 1;
    if n > 1 {
      var least := RobustEvIsLeast(c, nodes, price, n - 1);
      if AdmissiblePnl(c, nodes, price, least) <= AdmissiblePnl(c, nodes, price, k) {
        k := least;
      }
    }
  }

  lemma {:induction false} AdmissiblePnlBounds(c: Candidate, d: Candidate, nodes: seq<Node>, price: real, i: nat)
    requires Valid(nodes) && i < 5 && ApplyScenario(nodes, ADMISSIBLE[i]).Ok?
    requires SameTrade(c, d) && forall p :: p >= 0.0 ==> StructurePnl(c, p) >= -c.maxLoss
    ensures AdmissiblePnl(d, nodes, price, i) == AdmissiblePnl(c, nodes, price, i) >= -c.maxLoss
  {
    var admissible := ApplyScenario(nodes, ADMISSIBLE[i]).value;
    ExpectedOfSameTrade(c, d, admissible, price);
    ScenarioKeepsProbability(nodes, ADMISSIBLE[i]);
    ExpectedAtLeast(c, admissible, price, c.maxLoss);
  }

  /**
   The robust value is the least expected profit over the five admissible
   distributions, all of which exist, and is no less than minus the loss.
   */
  lemma {:induction false} RobustEvIsGreatestLowerBound(
    s: Settings, quotes: seq<OptionQuote>, strategy: Strategy, nodes: seq<Node>, price: real, c: Candidate)
    requires ValidSettings(s) && Condor(quotes) && Valid(nodes) && Built(s, quotes, strategy, nodes, price, c)
    ensures forall i :: 0 <= i < 5 ==>
      ApplyScenario(nodes, ADMISSIBLE[i]).Ok? && c.robustEv <= AdmissiblePnl(c, nodes, price, i)
    ensures exists i :: 0 <= i < 5 && c.robustEv == AdmissiblePnl(c, nodes, price, i)
    ensures c.robustEv >= -c.maxLoss
  {
    AdmissibleAreDefined(nodes);
    var sized := c.(robustEv := 0.0);
    var k := RobustEvIsLeast(sized, nodes, price, 5);
    SizingIsExact(s, quotes, strategy, nodes, price, c);
    CondorLossIsExact(c);
    forall i | 0 <= i < 5
      ensures AdmissiblePnl(sized, nodes, price, i) == AdmissiblePnl(c, nodes, price, i) >= -c.maxLoss
    {
      AdmissiblePnlBounds(c, sized, nodes, price, i);
    }
  }
}
