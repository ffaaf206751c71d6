/** A close that fills in part: what the broker still holds, and when the ledger agrees. */
module PartialClose {
  import opened BrokerOrders
  import opened CloseOrder
  import opened Options
  import opened OrderLedger

  /** What is left of a position once the parent order has filled f times. */
  function Left(p: BrokerPosition, parent: nat, f: nat): BrokerPosition
    requires parent > 0
  {
    p.(quantity := AbsInt(p.quantity) - LegFor(p, parent).ratio * f)
  }

  /** The broker's positions after f fills of the parent order of their close. */
  function Remaining(positions: seq<BrokerPosition>, parent: nat, f: nat): (r: seq<BrokerPosition>)
    requires parent > 0
    ensures |r| == |positions| && (AllSided(positions) ==> AllSided(r))
  {
    seq(|positions|, i requires 0 <= i < |positions| => Left(positions[i], parent, f))
  }

  lemma {:induction false} LeftIsZeroIff(ratio: int, parent: nat, f: nat)
    requires ratio > 0 && f <= parent
    ensures ratio * parent - ratio * f >= 0
    ensures ratio * parent - ratio * f == 0 <==> f == parent
  {
    MultipleBound(ratio, parent - f);
    assert ratio * (parent - f) == ratio * parent - ratio * f;
  }

  /** Some leg is left exactly as long as the parent order has not filled completely. */
  lemma {:induction false} RemainingHeld(positions: seq<BrokerPosition>, parent: nat, f: nat, symbol: string)
    requires AllSided(positions) && f <= parent && parent > 0
    requires forall i :: 0 <= i < |positions| ==>
      LegFor(positions[i], parent).ratio > 0 &&
      LegFor(positions[i], parent).ratio * parent == AbsInt(positions[i].quantity)
    ensures f == parent ==> Held(Remaining(positions, parent, f), symbol) == 0
    ensures f < parent && (exists i :: 0 <= i < |positions| && positions[i].symbol == symbol) ==>
      Held(Remaining(positions, parent, f), symbol) != 0
    ensures f == 0 ==> Held(Remaining(positions, parent, f), symbol) == Held(positions, symbol)
  {
    if positions != [] {
      var front, last := positions[..|positions| - 1], positions[|positions| - 1];
      RemainingHeld(front, parent, f, symbol);
      assert Remaining(positions, parent, f)[..|positions| - 1] == Remaining(front, parent, f);
      LeftIsZeroIff(LegFor(last, parent).ratio, parent, f);
      assert forall i :: 0 <= i < |positions| && positions[i].symbol == symbol && last.symbol != symbol ==>
        i < |front| && front[i].symbol == symbol;
    }
  }

  /**
   After any history that agrees with the broker, an observation of the close
   of the broker's positions with f of the parent filled agrees with what the
   broker then holds if and only if it does not count or f is everything: in
   between, the ledger takes the whole close for done.
   */
  lemma {:induction false} PartialCloseAgreesIff(
    events: seq<Observation>, certificates: Certificates, positions: seq<BrokerPosition>, o: Observation)
    requires positions != [] && AllNonZero(positions) && AllSided(positions)
    requires Agrees(events, certificates, positions) && NothingYet(events, certificates, o.orderId)
    requires CloseQuantity(positions).Ok? && CloseQuantity(positions).value > 0
    requires o.role == Close && o.signed == CloseQuantities(positions)
    requires 0 <= o.filled <= CloseQuantity(positions).value
    ensures Agrees(events + [o], certificates, Remaining(positions, CloseQuantity(positions).value, o.filled))
       <==> !CountsAsFilled(o) || o.filled == CloseQuantity(positions).value
  {
    var (parent, counts) := (CloseQuantity(positions).value, CountsAsFilled(o));
    var left := Remaining(positions, parent, o.filled);
    CloseFlattensExactly(positions);
    forall i | 0 <= i < |positions|
      ensures LegFor(positions[i], parent).ratio > 0
      ensures LegFor(positions[i], parent).ratio * parent == AbsInt(positions[i].quantity)
    {
      assert CloseLegsOf(positions, parent)[i] == LegFor(positions[i], parent);
    }
    forall symbol
      ensures NewestSum(events + [o], certificates, symbol) == if counts then 0 else Held(positions, symbol)
      ensures o.filled == parent ==> Held(left, symbol) == 0
      ensures o.filled == 0 ==> Held(left, symbol) == Held(positions, symbol)
    {
      AfterClose(events, certificates, positions, o, counts, symbol);
      RemainingHeld(positions, parent, o.filled, symbol);
    }
    RemainingHeld(positions, parent, o.filled, positions[0].symbol);
  }

  const HOLDING := [BrokerPosition("A", 2, Long), BrokerPosition("B", 2, Short)]
  const ENTERED_TWO := Observation(1, "entry", Filled, 2, Entry, map["A" := 2, "B" := -2])
  const HALF_CLOSE := Observation(1, "close", PartlyFilled, 1, Close, map["A" := -2, "B" := 2])

  lemma {:induction false} HoldingFacts(symbol: string)
    ensures AllSided(HOLDING) && CloseQuantity(HOLDING) == Ok(2)
    ensures Held(HOLDING, symbol) == (if symbol == "B" then -2 else if symbol == "A" then 2 else 0)
    ensures CloseQuantities(HOLDING) == map["A" := -2, "B" := 2]
  {
    EqualSizesCloseTogether(HOLDING, 2);
    var first := HOLDING[..1];
    assert first == [BrokerPosition("A", 2, Long)] && first[..0] == [];
    assert HOLDING[|HOLDING| - 1] == BrokerPosition("B", 2, Short) && HOLDING[..|HOLDING| - 1] == first;
    assert Held(HOLDING, symbol) == if "B" == symbol then -2 else Held(first, symbol);
    assert Held(first, symbol) == if "A" == symbol then 2 else 0;
    assert CloseQuantities(first) == map["A" := -2];
    assert CloseQuantities(HOLDING) == CloseQuantities(first)["B" := 2];
  }

  lemma {:induction false} HoldingIsEntered()
    ensures Agrees([ENTERED_TWO], map[], HOLDING)
  {
    forall symbol ensures NewestSum([ENTERED_TWO], map[], symbol) == Held(HOLDING, symbol) {
      HoldingFacts(symbol);
      AppendReplacesContribution([], map[], ENTERED_TWO, symbol);
      assert [] + [ENTERED_TWO] == [ENTERED_TWO];
    }
  }

  lemma {:induction false} HalfIsLeft()
    ensures Held(Remaining(HOLDING, 2, 1), "A") == 1
  {
    HoldingFacts("A");
    var left := Remaining(HOLDING, 2, 1);
    assert left[..1][0] == left[0] == BrokerPosition("A", 1, Long);
    assert left[1] == BrokerPosition("B", 1, Short);
  }

  /** A concrete run: two lots entered, one closed; the broker holds one of each leg and the ledger expects none. */
  lemma {:induction false} HalfCloseDisagrees()
    ensures AllSided(HOLDING) && CloseQuantity(HOLDING) == Ok(2)
    ensures Agrees([ENTERED_TWO], map[], HOLDING)
    ensures NewestSum([ENTERED_TWO] + [HALF_CLOSE], map[], "A") == 0
    ensures Held(Remaining(HOLDING, 2, 1), "A") == 1
    ensures !Agrees([ENTERED_TWO] + [HALF_CLOSE], map[], Remaining(HOLDING, 2, 1))
  {
    HoldingFacts("A");
    HoldingIsEntered();
    NewestAfterAppend([], ENTERED_TWO, "close");
    assert [] + [ENTERED_TWO] == [ENTERED_TWO];
    AfterClose([ENTERED_TWO], map[], HOLDING, HALF_CLOSE, true, "A");
    HalfIsLeft();
  }
}
