/** The atomic close order: one parent quantity, coprime leg ratios, one net price. */
module CloseOrder {
  import opened BrokerOrders
  import opened Candidates
  import opened Options
  import opened Payoff
  import opened Multiples

  // ------------------------------------------- greatest common divisors

  function Gcd(a: nat, b: nat): nat
    decreases b
  {
    if b == 0 then a else Gcd(b, a % b)
  }

  function GcdAll(numbers: seq<nat>): nat {
    if numbers == [] then 0 else Gcd(GcdAll(numbers[..|numbers| - 1]), numbers[|numbers| - 1])
  }

  ghost predicate Divides(d: int, n: int) {
    exists k :: n == d * k
  }

  lemma {:induction false} DividesSum(d: int, m: int, n: int, q: int)
    requires Divides(d, m) && Divides(d, n)
    ensures Divides(d, q * m + n)
  {
    var i :| m == d * i;
    var j :| n == d * j;
    assert q * (d * i) == d * (q * i);
    assert q * m + n == d * (q * i + j);
  }

  lemma {:induction false} DivMod(a: nat, b: nat)
    requires b > 0
    ensures a == a / b * b + a % b
  {
  }

  /** A common divisor of a and b divides the remainder too, and the other way round. */
  lemma {:induction false} DividesRemainder(d: int, a: nat, b: nat)
    requires b > 0 && Divides(d, b)
    ensures Divides(d, a % b) <==> Divides(d, a)
  {
    var q := a / b;
    DivMod(a, b);
    if Divides(d, a % b) {
      DividesSum(d, b, a % b, q);
    }
    if Divides(d, a) {
      DividesSum(d, b, a, -q);
      assert -q * b + a == a % b;
    }
  }

  lemma {:induction false} GcdDivides(a: nat, b: nat)
    ensures Divides(Gcd(a, b), a) && Divides(Gcd(a, b), b)
    ensures a > 0 || b > 0 ==> Gcd(a, b) > 0
    decreases b
  {
    if b == 0 {
      assert a == a * 1 && 0 == a * 0;
    } else {
      GcdDivides(b, a % b);
      DividesRemainder(Gcd(a, b), a, b);
    }
  }

  lemma {:induction false} CommonDivisorDividesGcd(d: int, a: nat, b: nat)
    requires Divides(d, a) && Divides(d, b)
    ensures Divides(d, Gcd(a, b))
    decreases b
  {
    if b != 0 {
      DividesRemainder(d, a, b);
      CommonDivisorDividesGcd(d, b, a % b);
    }
  }

  lemma {:induction false} DividesChain(d: int, m: int, n: int)
    requires Divides(d, m) && Divides(m, n)
    ensures Divides(d, n)
  {
    var i :| m == d * i;
    var j :| n == m * j;
    assert n == d * (i * j);
  }

  lemma {:induction false} GcdAllDivides(numbers: seq<nat>)
    ensures forall n :: n in numbers ==> Divides(GcdAll(numbers), n)
    ensures (exists n :: n in numbers && n > 0) ==> GcdAll(numbers) > 0
  {
    if numbers != [] {
      var (front, last) := (numbers[..|numbers| - 1], numbers[|numbers| - 1]);
      GcdAllDivides(front);
      GcdDivides(GcdAll(front), last);
      forall n | n in numbers ensures Divides(GcdAll(numbers), n) {
        if n in front {
          DividesChain(GcdAll(numbers), GcdAll(front), n);
        }
      }
    }
  }

  lemma {:induction false} CommonDivisorDividesGcdAll(d: int, numbers: seq<nat>)
    requires forall n :: n in numbers ==> Divides(d, n)
    ensures Divides(d, GcdAll(numbers))
  {
    if numbers == [] {
      assert 0 == d * 0;
    } else {
      CommonDivisorDividesGcdAll(d, numbers[..|numbers| - 1]);
      CommonDivisorDividesGcd(d, GcdAll(numbers[..|numbers| - 1]), numbers[|numbers| - 1]);
    }
  }

  // ------------------------------------------------------- the close legs

  datatype CloseLeg = CloseLeg(symbol: string, ratio: int, sell: bool)

  /** The nonzero position sizes. */
  function Sizes(positions: seq<BrokerPosition>): seq<nat> {
    if positions == [] then []
    else
      var q := positions[|positions| - 1].quantity;
      Sizes(positions[..|positions| - 1]) + if q != 0 then [AbsInt(q)] else []
  }

  /** The quantity of the parent order. */
  function CloseQuantity(positions: seq<BrokerPosition>): Result<nat> {
    if Sizes(positions) == [] then Err("cannot close zero-quantity positions") else Ok(GcdAll(Sizes(positions)))
  }

  predicate AllNonZero(positions: seq<BrokerPosition>) {
    forall i :: 0 <= i < |positions| ==> positions[i].quantity != 0
  }

  /** The leg that closes one position. */
  function LegFor(p: BrokerPosition, parent: nat): CloseLeg
    requires parent > 0
  {
    CloseLeg(p.symbol, AbsInt(p.quantity) / parent, p.side == Long)
  }

  function CloseLegsOf(positions: seq<BrokerPosition>, parent: nat): seq<CloseLeg>
    requires parent > 0
  {
    seq(|positions|, i requires 0 <= i < |positions| => LegFor(positions[i], parent))
  }

  method BuildCloseLegs(positions: seq<BrokerPosition>) returns (r: Result<seq<CloseLeg>>)
    ensures r.Ok? <==> positions != [] && AllNonZero(positions) && AllSided(positions)
    ensures r.Ok? ==> CloseQuantity(positions).Ok? && CloseQuantity(positions).value > 0
    ensures r.Ok? ==> r.value == CloseLegsOf(positions, CloseQuantity(positions).value)
  {
    if positions == [] {
      return Err("cannot close an empty position set");
    }
    SizesHold(positions);
    var quantity := CloseQuantity(positions);
    if quantity.Err? {
      assert positions[0].quantity == 0;
      return Err(quantity.reason);
    }
    ParentIsPositive(positions);
    r := CollectLegs(positions, quantity.value);
  }

  method CollectLegs(positions: seq<BrokerPosition>, parent: nat) returns (r: Result<seq<CloseLeg>>)
    requires parent > 0
    ensures r.Ok? <==> AllNonZero(positions) && AllSided(positions)
    ensures r.Ok? ==> r.value == CloseLegsOf(positions, parent)
  {
    var legs: seq<CloseLeg> := [];
    for i := 0 to |positions|
      invariant |legs| == i && forall j :: 0 <= j < i ==> legs[j] == LegFor(positions[j], parent)
      invariant forall j :: 0 <= j < i ==> positions[j].quantity != 0 && positions[j].side != OtherSide
    {
      var position := positions[i];
      if position.quantity == 0 {
        return Err("cannot close a zero-quantity position");
      }
      if position.side == OtherSide {
        return Err("unsupported broker position side");
      }
      legs := legs + [LegFor(position, parent)];
    }
    return Ok(legs);
  }

  /** The legs times the parent quantity are exactly the positions, on the opposite side. */
  predicate Flattens(legs: seq<CloseLeg>, parent: nat, positions: seq<BrokerPosition>) {
    && |legs| == |positions|
    && forall i :: 0 <= i < |legs| ==>
         && legs[i].symbol == positions[i].symbol
         && legs[i].ratio > 0 && legs[i].ratio * parent == AbsInt(positions[i].quantity)
         && positions[i].side == (if legs[i].sell then Long else Short)
  }

  lemma {:induction false} ParentIsPositive(positions: seq<BrokerPosition>)
    requires CloseQuantity(positions).Ok?
    ensures CloseQuantity(positions).value > 0
  {
    SizesHold(positions);
    GcdAllDivides(Sizes(positions));
    assert Sizes(positions)[0] in Sizes(positions);
  }

  lemma {:induction false} RatioTimesParent(positions: seq<BrokerPosition>, i: nat)
    requires CloseQuantity(positions).Ok? && CloseQuantity(positions).value > 0 && i < |positions|
    ensures
      var parent := CloseQuantity(positions).value;
      var ratio := AbsInt(positions[i].quantity) / parent;
      ratio * parent == AbsInt(positions[i].quantity) && (positions[i].quantity != 0 ==> ratio > 0)
  {
    SizesHold(positions);
    GcdAllDivides(Sizes(positions));
    if positions[i].quantity != 0 {
      ExactRatio(AbsInt(positions[i].quantity), CloseQuantity(positions).value);
    }
  }

  /** The legs the broker is sent, times the parent quantity, flatten exactly the positions they were built from. */
  lemma {:induction false} CloseFlattensExactly(positions: seq<BrokerPosition>)
    requires positions != [] && AllNonZero(positions) && AllSided(positions)
    ensures CloseQuantity(positions).Ok? && CloseQuantity(positions).value > 0
    ensures
      var parent := CloseQuantity(positions).value;
      Flattens(CloseLegsOf(positions, parent), parent, positions)
  {
    SizesHold(positions);
    assert positions[0].quantity != 0;
    ParentIsPositive(positions);
    var parent := CloseQuantity(positions).value;
    forall i | 0 <= i < |positions|
      ensures
        var leg := CloseLegsOf(positions, parent)[i];
        leg.ratio > 0 && leg.ratio * parent == AbsInt(positions[i].quantity)
    {
      RatioTimesParent(positions, i);
    }
  }

  /** Positions of one size, as a filled condor leaves them, close at that quantity. */
  lemma {:induction false} EqualSizesCloseTogether(positions: seq<BrokerPosition>, q: nat)
    requires positions != [] && q > 0 && forall i :: 0 <= i < |positions| ==> AbsInt(positions[i].quantity) == q
    ensures CloseQuantity(positions) == Ok(q)
  {
    assert AbsInt(positions[0].quantity) == q;
    SizesHold(positions);
    var sizes := Sizes(positions);
    assert q in sizes && q == q * 1;
    GcdAllDivides(sizes);
    CommonDivisorDividesGcdAll(q, sizes);
    EachDividesOther(q, GcdAll(sizes));
  }

  lemma {:induction false} EachDividesOther(m: nat, n: nat)
    requires m > 0 && n > 0 && Divides(m, n) && Divides(n, m)
    ensures m == n
  {
  }

  lemma {:induction false} SizesHold(positions: seq<BrokerPosition>)
    ensures forall i :: 0 <= i < |positions| && positions[i].quantity != 0 ==>
      AbsInt(positions[i].quantity) in Sizes(positions)
    ensures forall n :: n in Sizes(positions) ==> n > 0
    ensures forall n :: n in Sizes(positions) ==> exists i :: 0 <= i < |positions| && AbsInt(positions[i].quantity) == n
  {
    if positions != [] {
      SizesHold(positions[..|positions| - 1]);
    }
  }

  lemma {:induction false} MultipleBound(p: int, d: int)
    requires p > 0
    ensures d >= 1 ==> p * d >= p
    ensures d <= 0 ==> p * d <= 0
    ensures d <= -1 ==> p * d <= -p
  {
  }

  lemma {:induction false} ExactRatio(size: nat, parent: nat)
    requires Divides(parent, size) && parent > 0
    ensures size / parent * parent == size
    ensures size > 0 ==> size / parent > 0
  {
    var k :| size == parent * k;
    DivMod(size, parent);
    assert size % parent == parent * (k - size / parent);
    MultipleBound(parent, k - size / parent);
  }

  /** No number above one divides every ratio of a flattening close at the greatest parent quantity. */
  lemma {:induction false} RatiosAreCoprime(legs: seq<CloseLeg>, positions: seq<BrokerPosition>, d: int)
    requires positions != [] && CloseQuantity(positions).Ok?
    requires Flattens(legs, CloseQuantity(positions).value, positions)
    requires d > 0 && forall i :: 0 <= i < |legs| ==> Divides(d, legs[i].ratio)
    ensures d == 1
  {
    var parent := CloseQuantity(positions).value;
    SizesHold(positions);
    ParentIsPositive(positions);
    forall n | n in Sizes(positions) ensures Divides(d * parent, n) {
      var i :| 0 <= i < |positions| && AbsInt(positions[i].quantity) == n;
      ProductDivides(d, legs[i].ratio, parent);
    }
    CommonDivisorDividesGcdAll(d * parent, Sizes(positions));
    OnlyOneScales(d, parent);
  }

  lemma {:induction false} ProductDivides(d: int, m: int, p: int)
    requires Divides(d, m)
    ensures Divides(d * p, m * p)
  {
    var k :| m == d * k;
    assert m * p == d * p * k;
  }

  lemma {:induction false} OnlyOneScales(d: int, p: int)
    requires d > 0 && p > 0 && Divides(d * p, p)
    ensures d == 1
  {
    var k :| p == d * p * k;
    assert p * (d * k - 1) == 0;
    assert d * k == 1;
    MultipleBound(d, k);
  }

  // ------------------------------------------------------ the close price

  datatype LiveQuote = LiveQuote(quote: OptionQuote, feed: string, observedAt: int)

  /** Thirty seconds, in microseconds: quotes are older when a candidate is built than they may be when it is closed. */
  const MAX_QUOTE_AGE: int := 30_000_000

  predicate Usable(q: LiveQuote, feed: string, now: int) {
    q.feed == feed && Executable(q.quote) && q.observedAt <= now <= q.observedAt + MAX_QUOTE_AGE
  }

  /** What closing one contract costs: a long position is sold at the bid, a short one bought at the ask. */
  function UnitPrice(p: BrokerPosition, quotes: map<string, LiveQuote>): real {
    if p.symbol !in quotes || !Present(quotes[p.symbol].quote) then 0.0
    else if p.side == Long then -quotes[p.symbol].quote.bid.value
    else quotes[p.symbol].quote.ask.value
  }

  /** The cash flow of the first n positions at the given number of contracts each. */
  function CashFlow(
    positions: seq<BrokerPosition>, quotes: map<string, LiveQuote>, contracts: seq<int>, n: nat): real
    requires n <= |positions| == |contracts|
  {
    if n == 0 then 0.0
    else
      CashFlow(positions, quotes, contracts, n - 1) + UnitPrice(positions[n - 1], quotes) * contracts[n - 1] as real
  }

  function FullSizes(positions: seq<BrokerPosition>): seq<int> {
    seq(|positions|, i requires 0 <= i < |positions| => AbsInt(positions[i].quantity))
  }

  function Ratios(positions: seq<BrokerPosition>, parent: nat): seq<int>
    requires parent > 0
  {
    seq(|positions|, i requires 0 <= i < |positions| => AbsInt(positions[i].quantity) / parent)
  }

  /** The inverse of one covered condor: two puts, two calls, outer and inner on opposite sides. */
  predicate CondorShape(positions: seq<BrokerPosition>, q: seq<OptionQuote>)
    requires |positions| == |q| == 4
  {
    && (forall i :: 0 <= i < 4 ==> q[i].underlying == q[0].underlying && q[i].expiration == q[0].expiration)
    && exists a, b, c, d :: 0 <= a < 4 && 0 <= b < 4 && 0 <= c < 4 && 0 <= d < 4
         && q[a].right == q[b].right == Put && q[c].right == q[d].right == Call
         && q[a].strike < q[b].strike && q[c].strike < q[d].strike
         && positions[a].side == positions[d].side && positions[b].side == positions[c].side
         && {positions[a].side, positions[b].side} == {Long, Short}
  }

  predicate DistinctSymbols(positions: seq<BrokerPosition>) {
    forall i, j :: 0 <= i < j < |positions| ==> positions[i].symbol != positions[j].symbol
  }

  predicate AllQuoted(positions: seq<BrokerPosition>, quotes: map<string, LiveQuote>) {
    forall i :: 0 <= i < |positions| ==> positions[i].symbol in quotes
  }

  function QuotesFor(positions: seq<BrokerPosition>, quotes: map<string, LiveQuote>): seq<OptionQuote>
    requires AllQuoted(positions, quotes)
  {
    seq(|positions|, i requires 0 <= i < |positions| => quotes[positions[i].symbol].quote)
  }

  /** Every condition a close price depends on, except that the price itself may not be zero. */
  predicate Priceable(positions: seq<BrokerPosition>, quotes: map<string, LiveQuote>, feed: string, now: int) {
    && |positions| == 4 && DistinctSymbols(positions) && AllQuoted(positions, quotes)
    && CloseQuantity(positions).Ok?
    && AllUsable(positions, quotes, feed, now) && AllSided(positions)
    && CondorShape(positions, QuotesFor(positions, quotes))
  }

  /** The price of one parent contract. */
  function ParentPrice(positions: seq<BrokerPosition>, quotes: map<string, LiveQuote>): real
    requires CloseQuantity(positions).Ok?
  {
    ParentIsPositive(positions);
    CashFlow(positions, quotes, Ratios(positions, CloseQuantity(positions).value), |positions|)
  }

  method CloseLimitPrice(positions: seq<BrokerPosition>, quotes: map<string, LiveQuote>, feed: string, now: int)
    returns (r: Result<real>)
    ensures r.Ok? <==> Priceable(positions, quotes, feed, now) && ParentPrice(positions, quotes) != 0.0
    ensures r.Ok? ==> r.value == ParentPrice(positions, quotes)
  {
    if |positions| != 4 || !DistinctSymbols(positions) {
      return Err("atomic close requires four distinct option positions");
    }
    if !AllQuoted(positions, quotes) {
      return Err("close quote is missing");
    }
    var quantity := CloseQuantity(positions);
    if quantity.Err? {
      return Err("close requires non-zero position quantities");
    }
    ParentIsPositive(positions);
    var cashflow := AddUp(positions, quotes, Ratios(positions, quantity.value), feed, now);
    if cashflow.Err? {
      return cashflow;
    }
    var shape := CondorShape(positions, QuotesFor(positions, quotes));
    if !shape {
      return Err("close requires one covered-condor inverse");
    }
    if cashflow.value == 0.0 {
      return Err("close price cannot be zero");
    }
    return cashflow;
  }

  predicate AllUsable(positions: seq<BrokerPosition>, quotes: map<string, LiveQuote>, feed: string, now: int)
    requires AllQuoted(positions, quotes)
  {
    forall i :: 0 <= i < |positions| ==> Usable(quotes[positions[i].symbol], feed, now)
  }

  method AddUp(
    positions: seq<BrokerPosition>, quotes: map<string, LiveQuote>, ratios: seq<int>, feed: string, now: int)
    returns (r: Result<real>)
    requires AllQuoted(positions, quotes) && |ratios| == |positions|
    ensures r.Ok? <==> AllUsable(positions, quotes, feed, now) && AllSided(positions)
    ensures r.Ok? ==> r.value == CashFlow(positions, quotes, ratios, |positions|)
  {
    var cashflow := 0.0;
    for i := 0 to |positions|
      invariant forall j :: 0 <= j < i ==>
                  Usable(quotes[positions[j].symbol], feed, now) && positions[j].side != OtherSide
      invariant cashflow == CashFlow(positions, quotes, ratios, i)
    {
      var position := positions[i];
      var live := quotes[position.symbol];
      if !Usable(live, feed, now) {
        return Err("close requires an executable configured-feed bid and ask");
      }
      if position.side == OtherSide {
        return Err("unsupported broker position side");
      }
      var unit := if position.side != Long then live.quote.ask.value else -live.quote.bid.value;
      cashflow := cashflow + unit * ratios[i] as real;
    }
    return Ok(cashflow);
  }

  // ------------------------------------------------------------- theorems

  lemma {:induction false} CashFlowScales(
    positions: seq<BrokerPosition>, quotes: map<string, LiveQuote>, ratios: seq<int>, sizes: seq<int>,
    parent: nat, n: nat)
    requires n <= |positions| == |ratios| == |sizes|
    requires forall i :: 0 <= i < |ratios| ==> ratios[i] * parent == sizes[i]
    ensures CashFlow(positions, quotes, ratios, n) * parent as real == CashFlow(positions, quotes, sizes, n)
  {
    if n > 0 {
      CashFlowScales(positions, quotes, ratios, sizes, parent, n - 1);
      var before := CashFlow(positions, quotes, ratios, n - 1);
      TermScales(before, UnitPrice(positions[n - 1], quotes), ratios[n - 1], parent, sizes[n - 1]);
    }
  }

  lemma {:induction false} TermScales(before: real, price: real, ratio: int, parent: int, size: int)
    requires ratio * parent == size
    ensures (before + price * ratio as real) * parent as real == before * parent as real + price * size as real
  {
  }

  /** The quoted price of one parent contract times the parent quantity is the cash flow of the full sizes. */
  lemma {:induction false} PriceIsExactAtFullSize(positions: seq<BrokerPosition>, quotes: map<string, LiveQuote>)
    requires CloseQuantity(positions).Ok?
    ensures ParentPrice(positions, quotes) * CloseQuantity(positions).value as real
         == CashFlow(positions, quotes, FullSizes(positions), |positions|)
  {
    var parent := CloseQuantity(positions).value;
    ParentIsPositive(positions);
    var (ratios, sizes) := (Ratios(positions, parent), FullSizes(positions));
    forall i | 0 <= i < |positions| ensures ratios[i] * parent == sizes[i] {
      RatioTimesParent(positions, i);
    }
    CashFlowScales(positions, quotes, ratios, sizes, parent, |positions|);
  }
}
