/** The read-only comparison of broker truth with what the ledger expects. */
module Reconciliation {
  import opened BrokerOrders
  import opened Options
  import OrderLedger

  datatype Reason =
    | UnknownBrokerOrderStatus | UnknownBrokerOrder | MissingBrokerOrder
    | UnknownBrokerPosition | MissingBrokerPosition | UnknownBrokerPositionSide
    | PositionQuantityMismatch | PositionSideMismatch

  /** An order and a position as the broker's answers spell them. */
  datatype OrderAnswer = OrderAnswer(orderId: string, status: string)

  datatype PositionAnswer = PositionAnswer(symbol: string, quantity: int, side: string)

  function ReadOrders(answers: seq<OrderAnswer>): seq<BrokerOrder> {
    seq(|answers|, i requires 0 <= i < |answers| => BrokerOrder(answers[i].orderId, StatusOf(answers[i].status)))
  }

  function ReadSides(answers: seq<PositionAnswer>): seq<BrokerPosition> {
    seq(|answers|, i requires 0 <= i < |answers| =>
      BrokerPosition(answers[i].symbol, answers[i].quantity, SideOf(answers[i].side)))
  }

  /** What the ledger expects: working orders, position symbols, and signed quantities if it keeps them. */
  datatype Expected = Expected(orders: set<string>, positions: set<string>, quantities: Option<map<string, int>>)

  /** What the scheduler's provider yields: the symbols are those of the signed map. */
  function ExpectedOf(orders: set<string>, quantities: map<string, int>): Expected {
    Expected(orders, quantities.Keys, Some(quantities))
  }

  function ActiveIds(orders: seq<BrokerOrder>): set<string> {
    set i | 0 <= i < |orders| && Active(orders[i]) :: orders[i].orderId
  }

  function HeldSymbols(positions: seq<BrokerPosition>): set<string> {
    set i | 0 <= i < |positions| && positions[i].quantity != 0 :: positions[i].symbol
  }

  /** A position with contracts and a side the broker's vocabulary knows. */
  predicate Sided(p: BrokerPosition) {
    p.quantity != 0 && p.side != OtherSide
  }

  /** The observed signed quantities; of two positions in one symbol the later stands. */
  function ObservedState(positions: seq<BrokerPosition>): map<string, int> {
    if positions == [] then map[]
    else
      var p := positions[|positions| - 1];
      var before := ObservedState(positions[..|positions| - 1]);
      if Sided(p) then before[p.symbol := Signed(p)] else before
  }

  /** Whether the signed quantities are compared at all: only when the symbols agree. */
  predicate Compared(positions: seq<BrokerPosition>, e: Expected) {
    e.quantities.Some? && ObservedState(positions).Keys == e.quantities.value.Keys
  }

  predicate SizesDiffer(observed: map<string, int>, expected: map<string, int>) {
    exists s :: s in observed && s in expected && AbsInt(observed[s]) != AbsInt(expected[s])
  }

  predicate SignsDiffer(observed: map<string, int>, expected: map<string, int>) {
    exists s :: s in observed && s in expected && (observed[s] < 0) != (expected[s] < 0)
  }

  predicate UnknownStatus(orders: seq<BrokerOrder>) {
    exists i :: 0 <= i < |orders| && orders[i].status == Unrecognized
  }

  predicate UnknownSide(positions: seq<BrokerPosition>) {
    exists i :: 0 <= i < |positions| && positions[i].quantity != 0 && positions[i].side == OtherSide
  }

  /** What each reason stands for. */
  predicate Differs(orders: seq<BrokerOrder>, positions: seq<BrokerPosition>, e: Expected, reason: Reason) {
    match reason
    case UnknownBrokerOrderStatus => UnknownStatus(orders)
    case UnknownBrokerOrder => !(ActiveIds(orders) <= e.orders)
    case MissingBrokerOrder => !(e.orders <= ActiveIds(orders))
    case UnknownBrokerPosition => !(HeldSymbols(positions) <= e.positions)
    case MissingBrokerPosition => !(e.positions <= HeldSymbols(positions))
    case UnknownBrokerPositionSide => e.quantities.Some? && UnknownSide(positions)
    case PositionQuantityMismatch =>
      Compared(positions, e) && SizesDiffer(ObservedState(positions), e.quantities.value)
    case PositionSideMismatch =>
      Compared(positions, e) && SignsDiffer(ObservedState(positions), e.quantities.value)
  }

  /** The reasons among some that stand. */
  function Standing(
    orders: seq<BrokerOrder>, positions: seq<BrokerPosition>, e: Expected, among: set<Reason>): set<Reason> {
    set reason | reason in among && Differs(orders, positions, e, reason)
  }

  const ORDER_REASONS := {UnknownBrokerOrderStatus, UnknownBrokerOrder, MissingBrokerOrder}
  const SYMBOL_REASONS := {UnknownBrokerPosition, MissingBrokerPosition}
  const QUANTITY_REASONS := {UnknownBrokerPositionSide, PositionQuantityMismatch, PositionSideMismatch}

  method Compare(orderAnswers: seq<OrderAnswer>, positionAnswers: seq<PositionAnswer>, e: Expected)
    returns (consistent: bool, reasons: set<Reason>)
    ensures forall reason :: reason in reasons <==>
      Differs(ReadOrders(orderAnswers), ReadSides(positionAnswers), e, reason)
    ensures consistent <==> reasons == {}
  {
    var orders, positions := ReadOrders(orderAnswers), ReadSides(positionAnswers);
    reasons := OrderReasons(orders, positions, e);
    var more := SymbolReasons(orders, positions, e);
    reasons := reasons + more;
    if e.quantities.Some? {
      more := QuantityReasons(orders, positions, e);
      reasons := reasons + more;
    }
    forall reason ensures reason in ORDER_REASONS + SYMBOL_REASONS + QUANTITY_REASONS {
      EveryReason(reason);
    }
    return reasons == {}, reasons;
  }

  lemma {:induction false} EveryReason(reason: Reason)
    ensures reason in ORDER_REASONS + SYMBOL_REASONS + QUANTITY_REASONS
  {
  }

  method OrderReasons(
    orders: seq<BrokerOrder>, positions: seq<BrokerPosition>, e: Expected) returns (reasons: set<Reason>)
    ensures reasons == Standing(orders, positions, e, ORDER_REASONS)
  {
    reasons := {};
    if exists i :: 0 <= i < |orders| && orders[i].status == Unrecognized {
      reasons := reasons + {UnknownBrokerOrderStatus};
    }
    var unknown, missing := CompareSets(ActiveIds(orders), e.orders);
    if unknown {
      reasons := reasons + {UnknownBrokerOrder};
    }
    if missing {
      reasons := reasons + {MissingBrokerOrder};
    }
  }

  method SymbolReasons(
    orders: seq<BrokerOrder>, positions: seq<BrokerPosition>, e: Expected) returns (reasons: set<Reason>)
    ensures reasons == Standing(orders, positions, e, SYMBOL_REASONS)
  {
    reasons := {};
    var unknown, missing := CompareSets(HeldSymbols(positions), e.positions);
    if unknown {
      reasons := reasons + {UnknownBrokerPosition};
    }
    if missing {
      reasons := reasons + {MissingBrokerPosition};
    }
  }

  method QuantityReasons(orders: seq<BrokerOrder>, positions: seq<BrokerPosition>, e: Expected)
    returns (reasons: set<Reason>)
    requires e.quantities.Some?
    ensures reasons == Standing(orders, positions, e, QUANTITY_REASONS)
  {
    reasons := {};
    var sides, observed := ReadPositions(positions);
    if sides {
      reasons := reasons + {UnknownBrokerPositionSide};
    }
    if observed.Keys == e.quantities.value.Keys {
      var sizes, signs := CompareQuantities(observed, e.quantities.value);
      if sizes {
        reasons := reasons + {PositionQuantityMismatch};
      }
      if signs {
        reasons := reasons + {PositionSideMismatch};
      }
    }
  }

  method CompareSets(observed: set<string>, expected: set<string>) returns (unknown: bool, missing: bool)
    ensures unknown <==> !(observed <= expected)
    ensures missing <==> !(expected <= observed)
  {
    EmptyDifference(observed, expected);
    EmptyDifference(expected, observed);
    return observed - expected != {}, expected - observed != {};
  }

  lemma {:induction false} EmptyDifference<T>(a: set<T>, b: set<T>)
    ensures a - b == {} <==> a <= b
  {
    forall x | x in a && a - b == {} ensures x in b {
      assert x !in a - b;
    }
  }

  method CompareQuantities(observed: map<string, int>, expected: map<string, int>) returns (sizes: bool, signs: bool)
    requires observed.Keys == expected.Keys
    ensures sizes <==> SizesDiffer(observed, expected)
    ensures signs <==> SignsDiffer(observed, expected)
  {
    sizes, signs := false, false;
    var left := expected.Keys;
    while left != {}
      invariant left <= expected.Keys
      invariant sizes <==> exists s :: s in observed && s !in left && AbsInt(observed[s]) != AbsInt(expected[s])
      invariant signs <==> exists s :: s in observed && s !in left && (observed[s] < 0) != (expected[s] < 0)
      decreases |left|
    {
      var symbol :| symbol in left;
      var actual, wanted := observed[symbol], expected[symbol];
      if AbsInt(actual) != AbsInt(wanted) {
        sizes := true;
      }
      if (actual < 0) != (wanted < 0) {
        signs := true;
      }
      left := left - {symbol};
    }
  }

  method ReadPositions(positions: seq<BrokerPosition>) returns (unknown: bool, observed: map<string, int>)
    ensures unknown <==> UnknownSide(positions)
    ensures observed == ObservedState(positions)
  {
    unknown := false;
    observed := map[];
    for i := 0 to |positions|
      invariant unknown <==> UnknownSide(positions[..i])
      invariant observed == ObservedState(positions[..i])
    {
      var position := positions[i];
      assert positions[..i + 1][..i] == positions[..i] && positions[..i + 1][i] == position;
      UnknownSideOfOneMore(positions[..i], position);
      assert positions[..i + 1] == positions[..i] + [position];
      if position.quantity == 0 {
        continue;
      }
      if position.side == OtherSide {
        unknown := true;
        continue;
      }
      observed := observed[position.symbol := AbsInt(position.quantity) * if position.side == Long then 1 else -1];
    }
    assert positions[..|positions|] == positions;
  }

  lemma {:induction false} UnknownSideOfOneMore(positions: seq<BrokerPosition>, p: BrokerPosition)
    ensures UnknownSide(positions + [p]) <==> UnknownSide(positions) || (p.quantity != 0 && p.side == OtherSide)
  {
    var all := positions + [p];
    assert all[|positions|] == p;
    if UnknownSide(positions) {
      var i :| 0 <= i < |positions| && positions[i].quantity != 0 && positions[i].side == OtherSide;
      assert all[i] == positions[i];
    }
  }

  // ------------------------------------------------------------- theorems

  lemma {:induction false} ObservedSymbols(positions: seq<BrokerPosition>)
    ensures forall s :: s in ObservedState(positions)
                  <==> exists i :: 0 <= i < |positions| && Sided(positions[i]) && positions[i].symbol == s
    ensures forall s :: s in ObservedState(positions) ==> ObservedState(positions)[s] != 0
  {
    if positions != [] {
      var front := positions[..|positions| - 1];
      ObservedSymbols(front);
      assert positions == front + [positions[|positions| - 1]];
    }
  }

  /** With one position per symbol the observed state holds exactly the signed size of every position. */
  lemma {:induction false} ObservedOfDistinct(positions: seq<BrokerPosition>)
    requires forall i, j :: 0 <= i < j < |positions| ==> positions[i].symbol != positions[j].symbol
    ensures forall i :: 0 <= i < |positions| && Sided(positions[i]) ==>
      positions[i].symbol in ObservedState(positions)
      && ObservedState(positions)[positions[i].symbol] == Signed(positions[i])
  {
    if positions != [] {
      ObservedOfDistinct(positions[..|positions| - 1]);
    }
  }

  /** Broker and ledger agree: every status known, the same working orders, every side known, the same signed map. */
  predicate Agreement(
    orders: seq<BrokerOrder>, positions: seq<BrokerPosition>, expectedOrders: set<string>, expected: map<string, int>)
  {
    && (forall i :: 0 <= i < |orders| ==> orders[i].status != Unrecognized)
    && ActiveIds(orders) == expectedOrders
    && !UnknownSide(positions)
    && ObservedState(positions) == expected
  }

  /** Against a signed expected map no reason is given if and only if broker and ledger agree. */
  lemma {:induction false} ConsistentIffAgreement(
    orders: seq<BrokerOrder>, positions: seq<BrokerPosition>, expectedOrders: set<string>, expected: map<string, int>)
    ensures (forall reason :: !Differs(orders, positions, ExpectedOf(expectedOrders, expected), reason))
       <==> Agreement(orders, positions, expectedOrders, expected)
  {
    var e := ExpectedOf(expectedOrders, expected);
    var observed := ObservedState(positions);
    if !UnknownSide(positions) {
      HeldAreObserved(positions);
    }
    if forall reason :: !Differs(orders, positions, e, reason) {
      assert !Differs(orders, positions, e, UnknownBrokerOrderStatus);
      assert !Differs(orders, positions, e, UnknownBrokerOrder) && !Differs(orders, positions, e, MissingBrokerOrder);
      assert !Differs(orders, positions, e, UnknownBrokerPositionSide);
      assert !Differs(orders, positions, e, UnknownBrokerPosition);
      assert !Differs(orders, positions, e, MissingBrokerPosition);
      assert !Differs(orders, positions, e, PositionQuantityMismatch);
      assert !Differs(orders, positions, e, PositionSideMismatch);
      forall s | s in expected ensures observed[s] == expected[s] {
        SameSizeSameSign(observed[s], expected[s]);
      }
    }
  }

  lemma {:induction false} SameSizeSameSign(a: int, b: int)
    ensures a == b <==> AbsInt(a) == AbsInt(b) && (a < 0) == (b < 0)
  {
  }

  lemma {:induction false} HeldAreObserved(positions: seq<BrokerPosition>)
    requires !UnknownSide(positions)
    ensures HeldSymbols(positions) == ObservedState(positions).Keys
  {
    ObservedSymbols(positions);
    forall s ensures s in HeldSymbols(positions) <==> s in ObservedState(positions) {
      if s in HeldSymbols(positions) {
        var i :| 0 <= i < |positions| && positions[i].quantity != 0 && positions[i].symbol == s;
        assert Sided(positions[i]);
      }
    }
  }

  lemma {:induction false} ObservedIsHeld(positions: seq<BrokerPosition>, symbol: string)
    requires AllSided(positions) && forall i :: 0 <= i < |positions| ==> positions[i].quantity != 0
    ensures OrderLedger.Get(ObservedState(positions), symbol) == OrderLedger.Held(positions, symbol)
  {
    if positions != [] {
      ObservedIsHeld(positions[..|positions| - 1], symbol);
    }
  }

  /** The observed map is the ledger's expected map if and only if the broker holds what the observations add up to. */
  lemma {:induction false} ObservedMeetsLedgerIff(
    events: seq<OrderLedger.Observation>, certificates: OrderLedger.Certificates, expected: map<string, int>,
    positions: seq<BrokerPosition>)
    requires OrderLedger.IsExpected(events, certificates, expected)
    requires AllSided(positions) && forall i :: 0 <= i < |positions| ==> positions[i].quantity != 0
    ensures ObservedState(positions) == expected <==> OrderLedger.Agrees(events, certificates, positions)
  {
    var observed := ObservedState(positions);
    ObservedSymbols(positions);
    forall symbol
      ensures OrderLedger.Get(observed, symbol) == OrderLedger.Held(positions, symbol)
      ensures OrderLedger.Get(expected, symbol) == OrderLedger.NewestSum(events, certificates, symbol)
    {
      ObservedIsHeld(positions, symbol);
    }
    if OrderLedger.Agrees(events, certificates, positions) {
      forall symbol
        ensures symbol in observed <==> symbol in expected
        ensures symbol in observed ==> observed[symbol] == expected[symbol]
      {
        assert OrderLedger.Get(observed, symbol) == OrderLedger.Get(expected, symbol);
      }
    }
  }
}
