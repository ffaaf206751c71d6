/** Signed option payoffs, and why a finite set of terminal prices gives the exact worst loss. */
module Payoff {
  import opened Options
  import opened Multiples

  datatype Right = Put | Call
  datatype Side = Buy | Sell
  datatype Strategy = LongVol | ShortVol

  datatype OptionLeg = OptionLeg(
    symbol: string, underlying: string, expiration: int, strike: real, right: Right, side: Side, ratio: int)

  datatype Candidate = Candidate(
    strategy: Strategy,
    underlying: string,
    expiration: int,
    legs: seq<OptionLeg>,
    quantity: int,
    entryLimit: real,
    maxLoss: real,
    modeledFriction: real,
    modeledFees: real,
    robustEv: real)

  const CONTRACT_MULTIPLIER: real := 100.0

  function Max(a: real, b: real): real { if a >= b then a else b }

  function Min(a: real, b: real): real { if a <= b then a else b }

  function Abs(a: real): real { if a >= 0.0 then a else -a }

  /** The ratio, signed by side. */
  function SignedRatio(leg: OptionLeg): int {
    if leg.side == Buy then leg.ratio else -leg.ratio
  }

  function Intrinsic(leg: OptionLeg, price: real): real {
    if leg.right == Call then Max(price - leg.strike, 0.0) else Max(leg.strike - price, 0.0)
  }

  /** The signed terminal value of one leg in dollars. */
  function LegPayoff(leg: OptionLeg, price: real): real {
    Times(SignedRatio(leg), Intrinsic(leg, price) * CONTRACT_MULTIPLIER)
  }

  /** Repeated addition is the product the formula is written with. */
  lemma {:induction false} LegPayoffIsProduct(leg: OptionLeg, price: real)
    ensures LegPayoff(leg, price)
         == Intrinsic(leg, price) * CONTRACT_MULTIPLIER * (if leg.side == Buy then 1.0 else -1.0) * leg.ratio as real
  {
    TimesIsProduct(SignedRatio(leg), Intrinsic(leg, price) * CONTRACT_MULTIPLIER);
  }

  function TerminalValue(legs: seq<OptionLeg>, price: real): real {
    if legs == [] then 0.0 else LegPayoff(legs[0], price) + TerminalValue(legs[1..], price)
  }

  /** What one lot costs besides its terminal value: the limit paid, friction and fees. */
  function LotCost(c: Candidate): real {
    c.entryLimit * CONTRACT_MULTIPLIER + (c.modeledFriction + c.modeledFees)
  }

  /** Terminal profit and loss of the whole quantity. */
  function StructurePnl(c: Candidate, price: real): real {
    Times(c.quantity, TerminalValue(c.legs, price) - LotCost(c))
  }

  lemma {:induction false} StructurePnlIsProduct(c: Candidate, price: real)
    ensures StructurePnl(c, price)
         == TerminalValue(c.legs, price) * c.quantity as real
            - c.entryLimit * CONTRACT_MULTIPLIER * c.quantity as real
            - (c.modeledFriction + c.modeledFees) * c.quantity as real
  {
    TimesIsProduct(c.quantity, TerminalValue(c.legs, price) - LotCost(c));
    var (v, l) := (TerminalValue(c.legs, price), c.entryLimit * CONTRACT_MULTIPLIER);
    var (k, q) := (c.modeledFriction + c.modeledFees, c.quantity as real);
    assert q * (v - (l + k)) == v * q - l * q - k * q;
  }

  function MaxStrike(legs: seq<OptionLeg>): real
    requires legs != []
  {
    if |legs| == 1 then legs[0].strike else Max(legs[0].strike, MaxStrike(legs[1..]))
  }

  function MinStrike(legs: seq<OptionLeg>): real
    requires legs != []
  {
    if |legs| == 1 then legs[0].strike else Min(legs[0].strike, MinStrike(legs[1..]))
  }

  function Strikes(legs: seq<OptionLeg>): seq<real> {
    seq(|legs|, i requires 0 <= i < |legs| => legs[i].strike)
  }

  /** Zero, every strike, and one price beyond the highest strike. */
  function Breakpoints(legs: seq<OptionLeg>): seq<real>
    requires legs != []
  {
    [0.0] + Strikes(legs) + [MaxStrike(legs) + Max(MaxStrike(legs) - MinStrike(legs), 1.0)]
  }

  function MinPnl(c: Candidate, prices: seq<real>): real
    requires prices != []
  {
    if |prices| == 1 then StructurePnl(c, prices[0])
    else Min(StructurePnl(c, prices[0]), MinPnl(c, prices[1..]))
  }

  /** The worst loss found at the breakpoints. */
  function ExactMaxLoss(c: Candidate): real
    requires c.legs != []
  {
    Max(0.0, -MinPnl(c, Breakpoints(c.legs)))
  }

  // --------------------------------------------------- well-formedness

  predicate PositiveStrikes(legs: seq<OptionLeg>) {
    forall i :: 0 <= i < |legs| ==> legs[i].strike > 0.0
  }

  function ExpectedSides(strategy: Strategy): seq<Side> {
    if strategy == LongVol then [Sell, Buy, Buy, Sell] else [Buy, Sell, Sell, Buy]
  }

  /** The validated candidate: an ordered covered condor with one-to-one legs. */
  predicate WellFormed(c: Candidate) {
    && |c.legs| == 4
    && PositiveStrikes(c.legs)
    && (forall i :: 0 <= i < 4 ==>
          c.legs[i].ratio == 1 && c.legs[i].expiration == c.expiration && c.legs[i].underlying == c.underlying)
    && c.legs[0].right == c.legs[1].right == Put && c.legs[2].right == c.legs[3].right == Call
    && c.legs[0].strike < c.legs[1].strike < c.legs[2].strike < c.legs[3].strike
    && (forall i :: 0 <= i < 4 ==> c.legs[i].side == ExpectedSides(c.strategy)[i])
    && c.quantity > 0 && c.maxLoss >= 0.0 && c.modeledFriction >= 0.0 && c.modeledFees >= 0.0
  }

  /** Long calls minus short calls, weighted by ratio. */
  function NetCallRatio(legs: seq<OptionLeg>): int {
    if legs == [] then 0
    else (if legs[0].right == Call then SignedRatio(legs[0]) else 0) + NetCallRatio(legs[1..])
  }

  lemma {:induction false} CondorIsCovered(c: Candidate)
    requires WellFormed(c)
    ensures NetCallRatio(c.legs) == 0
  {
    var l := c.legs;
    assert l[1..][1..] == l[2..] && l[2..][1..] == l[3..] && l[3..][1..] == [];
    assert forall i :: 0 <= i < 4 ==> l[i].side == ExpectedSides(c.strategy)[i];
    assert l[3].side != l[2].side;
    assert NetCallRatio(l[3..]) == if l[3].side == Buy then 1 else -1;
    assert NetCallRatio(l[2..]) == 0;
    assert NetCallRatio(l[1..]) == 0;
  }

  // ------------------------------------------------- piecewise linearity

  /** Contracts gained per point just above a price: the slope of the terminal value in whole numbers. */
  function Slope(legs: seq<OptionLeg>, price: real): int {
    if legs == [] then 0 else LegSlope(legs[0], price) + Slope(legs[1..], price)
  }

  function LegSlope(leg: OptionLeg, price: real): int {
    if leg.right == Call then (if leg.strike <= price then SignedRatio(leg) else 0)
    else (if leg.strike <= price then 0 else -SignedRatio(leg))
  }

  /** No strike lies strictly between two prices. */
  predicate NoStrikeBetween(legs: seq<OptionLeg>, a: real, b: real) {
    forall i :: 0 <= i < |legs| ==> legs[i].strike <= a || b <= legs[i].strike
  }

  lemma {:induction false} LegIsLinear(leg: OptionLeg, a: real, p: real)
    requires a <= p && (leg.strike <= a || p <= leg.strike)
    ensures LegPayoff(leg, p) == LegPayoff(leg, a) + Times(LegSlope(leg, a), (p - a) * CONTRACT_MULTIPLIER)
  {
    var n := SignedRatio(leg);
    var step := (p - a) * CONTRACT_MULTIPLIER;
    var at := Intrinsic(leg, a) * CONTRACT_MULTIPLIER;
    TimesNegates(n, step);
    TimesAddsAmounts(n, at, step);
  }

  lemma {:induction false} ValueIsLinear(legs: seq<OptionLeg>, a: real, p: real)
    requires a <= p && NoStrikeBetween(legs, a, p)
    ensures TerminalValue(legs, p) == TerminalValue(legs, a) + Times(Slope(legs, a), (p - a) * CONTRACT_MULTIPLIER)
  {
    if legs != [] {
      LegIsLinear(legs[0], a, p);
      ValueIsLinear(legs[1..], a, p);
      TimesAddsCounts(LegSlope(legs[0], a), Slope(legs[1..], a), (p - a) * CONTRACT_MULTIPLIER);
    }
  }

  lemma {:induction false} SlopeAboveStrikes(legs: seq<OptionLeg>, price: real)
    requires forall i :: 0 <= i < |legs| ==> legs[i].strike <= price
    ensures Slope(legs, price) == NetCallRatio(legs)
  {
    if legs != [] {
      SlopeAboveStrikes(legs[1..], price);
    }
  }

  /** The highest of zero and the strikes that a price reaches. */
  function FloorPoint(legs: seq<OptionLeg>, p: real): (a: real)
    requires p >= 0.0
    ensures 0.0 <= a <= p && (a == 0.0 || a in Strikes(legs))
    ensures forall i :: 0 <= i < |legs| && legs[i].strike <= p ==> legs[i].strike <= a
  {
    if legs == [] then 0.0
    else
      var rest := FloorPoint(legs[1..], p);
      assert forall x :: x in Strikes(legs[1..]) ==> x in Strikes(legs) by {
        assert forall i :: 0 <= i < |legs| - 1 ==> Strikes(legs[1..])[i] == Strikes(legs)[i + 1];
      }
      assert legs[0].strike == Strikes(legs)[0];
      if rest < legs[0].strike <= p then legs[0].strike else rest
  }

  /** The lowest strike above a price, if there is one. */
  function CeilingPoint(legs: seq<OptionLeg>, p: real): (b: Option<real>)
    ensures b.Some? ==> p < b.value && b.value in Strikes(legs)
    ensures forall i :: 0 <= i < |legs| && p < legs[i].strike ==> b.Some? && b.value <= legs[i].strike
  {
    if legs == [] then None
    else
      var rest := CeilingPoint(legs[1..], p);
      assert forall x :: x in Strikes(legs[1..]) ==> x in Strikes(legs) by {
        assert forall i :: 0 <= i < |legs| - 1 ==> Strikes(legs[1..])[i] == Strikes(legs)[i + 1];
      }
      assert legs[0].strike == Strikes(legs)[0];
      if p < legs[0].strike && (rest.None? || legs[0].strike < rest.value) then Some(legs[0].strike) else rest
  }

  /** Where the value does not fall, the lower end is no better. */
  lemma {:induction false} LowerEndIsWorse(legs: seq<OptionLeg>, a: real, p: real)
    requires a <= p && NoStrikeBetween(legs, a, p) && Slope(legs, a) >= 0
    ensures TerminalValue(legs, a) <= TerminalValue(legs, p)
  {
    ValueIsLinear(legs, a, p);
    TimesZero(Slope(legs, a));
    TimesGrows(Slope(legs, a), 0.0, (p - a) * CONTRACT_MULTIPLIER);
  }

  /** Where the value does not rise, the upper end is no better. */
  lemma {:induction false} UpperEndIsWorse(legs: seq<OptionLeg>, a: real, p: real, b: real)
    requires a <= p <= b && NoStrikeBetween(legs, a, b) && Slope(legs, a) <= 0
    ensures TerminalValue(legs, b) <= TerminalValue(legs, p)
  {
    ValueIsLinear(legs, a, p);
    ValueIsLinear(legs, a, b);
    TimesGrows(Slope(legs, a), (p - a) * CONTRACT_MULTIPLIER, (b - a) * CONTRACT_MULTIPLIER);
  }

  /** With covered calls, some breakpoint is at least as bad as any terminal price. */
  lemma {:induction false} BreakpointIsWorst(legs: seq<OptionLeg>, p: real) returns (q: real)
    requires legs != [] && NetCallRatio(legs) >= 0 && p >= 0.0
    ensures q in Breakpoints(legs) && TerminalValue(legs, q) <= TerminalValue(legs, p)
  {
    var a := FloorPoint(legs, p);
    var b := CeilingPoint(legs, p);
    StrikesAreBreakpoints(legs);
    if b.Some? && Slope(legs, a) < 0 {
      q := b.value;
      UpperEndIsWorse(legs, a, p, q);
    } else {
      if b.None? {
        SlopeAboveStrikes(legs, a);
      }
      q := a;
      LowerEndIsWorse(legs, a, p);
    }
  }

  lemma {:induction false} StrikesAreBreakpoints(legs: seq<OptionLeg>)
    requires legs != []
    ensures 0.0 in Breakpoints(legs)
    ensures forall x :: x in Strikes(legs) ==> x in Breakpoints(legs)
  {
  }

  lemma {:induction false} MaxStrikeBounds(legs: seq<OptionLeg>)
    requires legs != []
    ensures forall i :: 0 <= i < |legs| ==> MinStrike(legs) <= legs[i].strike <= MaxStrike(legs)
    ensures MaxStrike(legs) in Strikes(legs)
  {
    if |legs| == 1 {
      assert Strikes(legs)[0] == legs[0].strike;
    } else {
      MaxStrikeBounds(legs[1..]);
      assert forall i :: 0 <= i < |legs| - 1 ==> Strikes(legs[1..])[i] == Strikes(legs)[i + 1];
      assert Strikes(legs)[0] == legs[0].strike;
    }
  }

  lemma {:induction false} MinPnlIsLeast(c: Candidate, prices: seq<real>) returns (worst: real)
    requires prices != []
    ensures forall x :: x in prices ==> MinPnl(c, prices) <= StructurePnl(c, x)
    ensures worst in prices && MinPnl(c, prices) == StructurePnl(c, worst)
  {
    worst := prices[0];
    if |prices| > 1 {
      var rest := MinPnlIsLeast(c, prices[1..]);
      if StructurePnl(c, rest) < StructurePnl(c, worst) {
        worst := rest;
      }
    }
  }

  lemma {:induction false} BreakpointsNonNegative(legs: seq<OptionLeg>)
    requires legs != [] && PositiveStrikes(legs)
    ensures forall x :: x in Breakpoints(legs) ==> x >= 0.0
  {
  }

  // ------------------------------------------------------------- theorems

  lemma {:induction false} PnlFollowsValue(c: Candidate, q: real, p: real)
    requires c.quantity > 0 && TerminalValue(c.legs, q) <= TerminalValue(c.legs, p)
    ensures StructurePnl(c, q) <= StructurePnl(c, p)
  {
    TimesGrows(c.quantity, TerminalValue(c.legs, q) - LotCost(c), TerminalValue(c.legs, p) - LotCost(c));
  }

  /** Covered calls: no terminal price loses more than the breakpoint check says. */
  lemma {:induction false} LossNeverExceeds(c: Candidate, p: real)
    requires c.legs != [] && c.quantity > 0 && NetCallRatio(c.legs) >= 0 && p >= 0.0
    ensures StructurePnl(c, p) >= -ExactMaxLoss(c)
  {
    var q := BreakpointIsWorst(c.legs, p);
    PnlFollowsValue(c, q, p);
    var worst := MinPnlIsLeast(c, Breakpoints(c.legs));
  }

  /** A positive worst loss is reached at some terminal price. */
  lemma {:induction false} LossIsAttained(c: Candidate) returns (p: real)
    requires c.legs != [] && PositiveStrikes(c.legs)
    ensures p >= 0.0
    ensures ExactMaxLoss(c) > 0.0 ==> StructurePnl(c, p) == -ExactMaxLoss(c)
  {
    p := MinPnlIsLeast(c, Breakpoints(c.legs));
    BreakpointsNonNegative(c.legs);
  }

  /** Uncovered calls: the loss grows without bound, so some price loses more than the check says. */
  lemma {:induction false} UncoveredCallsLoseMore(c: Candidate) returns (p: real)
    requires c.legs != [] && PositiveStrikes(c.legs) && c.quantity > 0 && NetCallRatio(c.legs) < 0
    ensures p >= 0.0 && StructurePnl(c, p) < -ExactMaxLoss(c)
  {
    MaxStrikeBounds(c.legs);
    var k := MaxStrike(c.legs);
    var t := Max(0.0, StructurePnl(c, k) + ExactMaxLoss(c)) + 1.0;
    p := k + t;
    ValueFallsBeyond(c.legs, k, t);
    var (high, low) := (TerminalValue(c.legs, k) - LotCost(c), TerminalValue(c.legs, p) - LotCost(c));
    TimesGrows(c.quantity, low, high - t);
    TimesAddsAmounts(c.quantity, high, t);
    TimesAtLeastOnce(c.quantity, t);
  }

  lemma {:induction false} TimesAtLeastOnce(n: int, x: real)
    requires n >= 1 && x >= 0.0
    ensures Times(n, x) >= x
  {
    TimesZero(n - 1);
    TimesGrows(n - 1, 0.0, x);
  }

  lemma {:induction false} ValueFallsBeyond(legs: seq<OptionLeg>, k: real, t: real)
    requires NetCallRatio(legs) < 0 && t >= 0.0 && forall i :: 0 <= i < |legs| ==> legs[i].strike <= k
    ensures TerminalValue(legs, k + t) <= TerminalValue(legs, k) - t
  {
    ValueIsLinear(legs, k, k + t);
    SlopeAboveStrikes(legs, k);
    var n := -Slope(legs, k);
    TimesNegates(n, t * CONTRACT_MULTIPLIER);
    TimesAtLeastOnce(n, t * CONTRACT_MULTIPLIER);
  }

  /** The finite breakpoint check bounds every terminal price if and only if the calls are covered. */
  lemma {:induction false} BreakpointCheckExactIff(c: Candidate)
    requires c.legs != [] && PositiveStrikes(c.legs) && c.quantity > 0
    ensures (forall p :: p >= 0.0 ==> StructurePnl(c, p) >= -ExactMaxLoss(c)) <==> NetCallRatio(c.legs) >= 0
  {
    if NetCallRatio(c.legs) >= 0 {
      forall p | p >= 0.0 ensures StructurePnl(c, p) >= -ExactMaxLoss(c) {
        LossNeverExceeds(c, p);
      }
    } else {
      var p := UncoveredCallsLoseMore(c);
    }
  }

  const NAKED_CALL := Candidate(
    LongVol, "SPY", 0, [OptionLeg("SPY", "SPY", 0, 100.0, Call, Sell, 1)], 1, 0.0, 0.0, 0.0, 0.0, 0.0)

  /** A concrete list of legs, one call sold, whose loss the check understates. */
  lemma {:induction false} NakedCallEscapes()
    ensures exists p :: p >= 0.0 && StructurePnl(NAKED_CALL, p) < -ExactMaxLoss(NAKED_CALL)
  {
    assert NAKED_CALL.legs[1..] == [];
    assert NetCallRatio(NAKED_CALL.legs) == -1;
    var p := UncoveredCallsLoseMore(NAKED_CALL);
  }

  /** For every condor the computed loss is exactly the worst over all terminal prices. */
  lemma {:induction false} CondorLossIsExact(c: Candidate)
    requires WellFormed(c)
    ensures forall p :: p >= 0.0 ==> StructurePnl(c, p) >= -ExactMaxLoss(c)
    ensures ExactMaxLoss(c) > 0.0 ==> exists p :: p >= 0.0 && StructurePnl(c, p) == -ExactMaxLoss(c)
    ensures ExactMaxLoss(c) >= 0.0
  {
    CondorIsCovered(c);
    BreakpointCheckExactIff(c);
    var p := LossIsAttained(c);
  }

  /** Whether two candidates are one trade, whatever loss and robust value they carry. */
  predicate SameTrade(c: Candidate, d: Candidate) {
    d == c.(maxLoss := d.maxLoss, robustEv := d.robustEv)
  }

  /** The recorded loss and robust value play no part in the payoff. */
  lemma {:induction false} SameTradeSameLoss(c: Candidate, d: Candidate)
    requires SameTrade(c, d) && c.legs != []
    ensures ExactMaxLoss(c) == ExactMaxLoss(d)
    ensures forall p :: StructurePnl(c, p) == StructurePnl(d, p)
  {
    SameTradeSameMin(c, d, Breakpoints(c.legs));
  }

  lemma {:induction false} SameTradeSameMin(c: Candidate, d: Candidate, prices: seq<real>)
    requires SameTrade(c, d) && prices != []
    ensures MinPnl(c, prices) == MinPnl(d, prices)
  {
    if |prices| > 1 {
      SameTradeSameMin(c, d, prices[1..]);
    }
  }

  // ----------------------------------------------------- scaling by lots

  lemma {:induction false} PnlScales(c: Candidate, q: int, p: real)
    ensures StructurePnl(c.(quantity := q), p) == Times(q, StructurePnl(c.(quantity := 1), p))
  {
  }

  lemma {:induction false} MinPnlScales(c: Candidate, q: int, prices: seq<real>)
    requires q > 0 && prices != []
    ensures MinPnl(c.(quantity := q), prices) == Times(q, MinPnl(c.(quantity := 1), prices))
  {
    PnlScales(c, q, prices[0]);
    if |prices| > 1 {
      MinPnlScales(c, q, prices[1..]);
      var x := StructurePnl(c.(quantity := 1), prices[0]);
      var y := MinPnl(c.(quantity := 1), prices[1..]);
      if x <= y {
        TimesGrows(q, x, y);
      } else {
        TimesGrows(q, y, x);
      }
    }
  }

  /** The worst loss of q lots is q times that of one. */
  lemma {:induction false} LossScales(c: Candidate, q: int)
    requires q > 0 && c.legs != []
    ensures ExactMaxLoss(c.(quantity := q)) == ExactMaxLoss(c.(quantity := 1)) * q as real
  {
    var m := MinPnl(c.(quantity := 1), Breakpoints(c.legs));
    MinPnlScales(c, q, Breakpoints(c.legs));
    TimesZero(q);
    if m <= 0.0 {
      TimesGrows(q, m, 0.0);
    } else {
      TimesGrows(q, 0.0, m);
    }
    TimesNegates(q, m);
    TimesIsProduct(q, ExactMaxLoss(c.(quantity := 1)));
  }
}
