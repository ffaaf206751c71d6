/** Whole runs of many orders: what the ledger makes of its polls, set against what the broker then holds. */
module LedgerRuns {
  import opened BrokerOrders
  import opened CloseOrder
  import opened OrderLedger
  import opened Options
  import Runs

  /**
   An order at the broker: what one fill of it changes in each symbol, how
   many fills it is for, and how many it has had.
   */
  datatype Order = Order(
    orderId: string, caseId: nat, role: Role, unit: map<string, int>, parent: nat, filled: nat)

  /** The broker's orders and the ledger's rows. */
  datatype System = System(orders: seq<Order>, events: seq<Observation>)

  /**
   Submits of entries and closes, fills at the broker, answered polls recorded
   with whatever status, and close polls recorded without an answer.
   */
  datatype Action =
    | SubmitEntry(orderId: string, caseId: nat, quantity: nat)
    | SubmitClose(orderId: string, caseId: nat, unit: map<string, int>, parent: nat)
    | Fill(k: nat, more: nat)
    | Record(k: nat, status: Status)
    | RecordUnanswered(k: nat)

  predicate Known(orders: seq<Order>, orderId: string) {
    exists k :: 0 <= k < |orders| && orders[k].orderId == orderId
  }

  /** A filled status comes with fills; any status may. */
  predicate Truthful(status: Status, filled: nat) {
    status in {Filled, PartlyFilled} ==> filled > 0
  }

  function Scaled(unit: map<string, int>, n: int): map<string, int> {
    map symbol | symbol in unit :: unit[symbol] * n
  }

  /** The row recorded for an order; a close always brings the quantities of its full size. */
  function RowFor(certificates: Certificates, o: Order, answer: Option<Status>): Observation {
    match o.role
    case Entry =>
      Stored(certificates, OrderLedger.RowOf(
        o.caseId, Poll(o.orderId, if answer.Some? then answer.value else Unrecognized, o.filled, Entry, map[])))
    case Close =>
      CloseRowOf(CloseReport(
        o.caseId, o.orderId, "RECONCILE_REQUIRED",
        if answer.Some? then Some((answer.value, o.filled)) else None, Scaled(o.unit, o.parent)))
  }

  function Do(certificates: Certificates, s: System, a: Action): System {
    match a
    case SubmitEntry(orderId, caseId, quantity) =>
      if Known(s.orders, orderId) || caseId !in certificates then s
      else
        var unit := EntryQuantities(certificates, caseId, 1);
        s.(orders := s.orders + [Order(orderId, caseId, Entry, unit, quantity, 0)])
    case SubmitClose(orderId, caseId, unit, parent) =>
      if Known(s.orders, orderId) then s
      else s.(orders := s.orders + [Order(orderId, caseId, Close, unit, parent, 0)])
    case Fill(k, more) =>
      if k < |s.orders| && s.orders[k].filled + more <= s.orders[k].parent then
        s.(orders := s.orders[k := s.orders[k].(filled := s.orders[k].filled + more)])
      else s
    case Record(k, status) =>
      if k < |s.orders| && Truthful(status, s.orders[k].filled) then
        s.(events := s.events + [RowFor(certificates, s.orders[k], Some(status))])
      else s
    case RecordUnanswered(k) =>
      if k < |s.orders| && s.orders[k].role == Close then
        s.(events := s.events + [RowFor(certificates, s.orders[k], None)])
      else s
  }

  function Step(certificates: Certificates): (System, Action) -> System {
    (s: System, a: Action) => Do(certificates, s, a)
  }

  const EMPTY := System([], [])

  function Reached(certificates: Certificates, script: seq<Action>): System {
    Runs.From(Step(certificates), EMPTY, script)
  }

  // --------------------------------------------------------- broker truth

  /** What the broker holds in a symbol: every fill of every order. */
  function BrokerHolds(orders: seq<Order>, symbol: string): int {
    if orders == [] then 0
    else
      var o := orders[|orders| - 1];
      BrokerHolds(orders[..|orders| - 1], symbol) + Get(o.unit, symbol) * o.filled
  }

  predicate PartlyClosed(o: Order) {
    o.role == Close && 0 < o.filled < o.parent
  }

  /** What the partly filled closes have still to change. */
  function Outstanding(orders: seq<Order>, symbol: string): int {
    if orders == [] then 0
    else
      var o := orders[|orders| - 1];
      Outstanding(orders[..|orders| - 1], symbol)
      + if PartlyClosed(o) then Get(o.unit, symbol) * (o.parent - o.filled) else 0
  }

  /** What the partly filled closes have still to change cancels out in every symbol. */
  ghost predicate Balanced(orders: seq<Order>) {
    forall symbol :: Outstanding(orders, symbol) == 0
  }

  /** How far the ledger has seen an order fill. */
  function Seen(events: seq<Observation>, orderId: string): int {
    match Newest(events, orderId)
    case None => 0
    case Some(e) => e.filled
  }

  /** The newest row of every order is as far as the broker. */
  predicate Current(s: System) {
    forall k :: 0 <= k < |s.orders| ==> Seen(s.events, s.orders[k].orderId) == s.orders[k].filled
  }

  /** The ledger expects what the broker holds. */
  ghost predicate Agreed(certificates: Certificates, s: System) {
    forall symbol :: NewestSum(s.events, certificates, symbol) == BrokerHolds(s.orders, symbol)
  }

  /** How far the ledger is off in a symbol. */
  function Gap(certificates: Certificates, s: System, symbol: string): int {
    NewestSum(s.events, certificates, symbol) - BrokerHolds(s.orders, symbol)
  }

  /** What an order counts for once f of its fills are seen: an entry for those, a close for its full size. */
  function Worth(o: Order, f: int, symbol: string): int {
    if o.role == Entry then Get(o.unit, symbol) * f
    else if f > 0 then Get(o.unit, symbol) * o.parent
    else 0
  }

  // ------------------------------------------------------------ invariant

  predicate DistinctIds(orders: seq<Order>) {
    forall i, j :: 0 <= i < j < |orders| ==> orders[i].orderId != orders[j].orderId
  }

  ghost predicate RowsAreKnown(s: System) {
    forall orderId :: Newest(s.events, orderId).Some? ==> Known(s.orders, orderId)
  }

  /** The newest row of an order counts for what it says of the fills. */
  ghost predicate Counted(certificates: Certificates, o: Order, events: seq<Observation>) {
    forall symbol :: OrderCount(events, certificates, o.orderId, symbol) == Worth(o, Seen(events, o.orderId), symbol)
  }

  ghost predicate Inv(certificates: Certificates, s: System) {
    && DistinctIds(s.orders) && RowsAreKnown(s)
    && forall k :: 0 <= k < |s.orders| ==>
         && Counted(certificates, s.orders[k], s.events) && s.orders[k].filled <= s.orders[k].parent
         && (s.orders[k].role == Entry ==>
               s.orders[k].unit == EntryQuantities(certificates, s.orders[k].caseId, 1))
  }

  lemma {:induction false} LegQuantitiesScale(legs: seq<Leg>, filled: int, symbol: string)
    ensures Get(LegQuantities(legs, filled), symbol) == Get(LegQuantities(legs, 1), symbol) * filled
    ensures LegQuantities(legs, filled).Keys == LegQuantities(legs, 1).Keys
  {
    if legs != [] {
      LegQuantitiesScale(legs[..|legs| - 1], filled, symbol);
    }
  }

  /** A recorded row counts for the fills it was told of, and is the order's newest from then on. */
  lemma {:induction false} RowIsWorth(
    certificates: Certificates, o: Order, answer: Option<Status>, symbol: string)
    requires o.role == Entry ==> o.unit == EntryQuantities(certificates, o.caseId, 1) && answer.Some?
    requires answer.Some? ==> Truthful(answer.value, o.filled)
    ensures
      var row := RowFor(certificates, o, answer);
      row.orderId == o.orderId && Contribution(certificates, row, symbol) == Worth(o, row.filled, symbol)
  {
    if o.role == Entry {
      if o.caseId in certificates {
        LegQuantitiesScale(certificates[o.caseId], o.filled, symbol);
      }
    } else if answer.None? {
      assert |Upper("RECONCILE_REQUIRED")| == 18;
    }
  }

  lemma {:induction false} CountedAfterRow(
    certificates: Certificates, o: Order, events: seq<Observation>, row: Observation)
    requires Counted(certificates, o, events)
    requires row.orderId == o.orderId ==>
      forall symbol :: Contribution(certificates, row, symbol) == Worth(o, row.filled, symbol)
    ensures Counted(certificates, o, events + [row])
  {
    NewestAfterAppend(events, row, o.orderId);
    forall symbol
      ensures OrderCount(events + [row], certificates, o.orderId, symbol)
           == Worth(o, Seen(events + [row], o.orderId), symbol)
    {
      if row.orderId != o.orderId {
        assert OrderCount(events, certificates, o.orderId, symbol) == Worth(o, Seen(events, o.orderId), symbol);
      }
    }
  }

  lemma {:induction false} RecordKeepsInv(certificates: Certificates, s: System, k: nat, answer: Option<Status>)
    requires Inv(certificates, s) && k < |s.orders|
    requires s.orders[k].role == Entry ==> answer.Some?
    requires answer.Some? ==> Truthful(answer.value, s.orders[k].filled)
    ensures Inv(certificates, s.(events := s.events + [RowFor(certificates, s.orders[k], answer)]))
  {
    var row := RowFor(certificates, s.orders[k], answer);
    RowIsWorth(certificates, s.orders[k], answer, "");
    forall orderId | Newest(s.events + [row], orderId).Some? ensures Known(s.orders, orderId) {
      NewestAfterAppend(s.events, row, orderId);
    }
    forall j | 0 <= j < |s.orders| ensures Counted(certificates, s.orders[j], s.events + [row]) {
      assert j < k || k < j || j == k;
      forall symbol ensures Contribution(certificates, row, symbol) == Worth(s.orders[k], row.filled, symbol) {
        RowIsWorth(certificates, s.orders[k], answer, symbol);
      }
      CountedAfterRow(certificates, s.orders[j], s.events, row);
    }
  }

  lemma {:induction false} SubmitKeepsInv(certificates: Certificates, s: System, o: Order)
    requires Inv(certificates, s) && !Known(s.orders, o.orderId) && o.filled == 0
    requires o.role == Entry ==> o.unit == EntryQuantities(certificates, o.caseId, 1)
    ensures Inv(certificates, s.(orders := s.orders + [o]))
  {
    forall orderId | Newest(s.events, orderId).Some? ensures Known(s.orders + [o], orderId) {
      var k :| 0 <= k < |s.orders| && s.orders[k].orderId == orderId;
      assert (s.orders + [o])[k].orderId == orderId;
    }
  }

  lemma {:induction false} FillKeepsInv(certificates: Certificates, s: System, k: nat, filled: nat)
    requires Inv(certificates, s) && k < |s.orders| && filled <= s.orders[k].parent
    ensures Inv(certificates, s.(orders := s.orders[k := s.orders[k].(filled := filled)]))
  {
    var orders := s.orders[k := s.orders[k].(filled := filled)];
    forall orderId | Newest(s.events, orderId).Some? ensures Known(orders, orderId) {
      var j :| 0 <= j < |s.orders| && s.orders[j].orderId == orderId;
      assert orders[j].orderId == orderId;
    }
    forall j | 0 <= j < |orders| ensures Counted(certificates, orders[j], s.events) {
      assert Counted(certificates, s.orders[j], s.events);
    }
  }

  lemma {:induction false} StepKeepsInv(certificates: Certificates, s: System, a: Action)
    requires Inv(certificates, s)
    ensures Inv(certificates, Do(certificates, s, a))
  {
    match a
    case SubmitEntry(orderId, caseId, quantity) =>
      if !Known(s.orders, orderId) && caseId in certificates {
        var unit := EntryQuantities(certificates, caseId, 1);
        SubmitKeepsInv(certificates, s, Order(orderId, caseId, Entry, unit, quantity, 0));
      }
    case SubmitClose(orderId, caseId, unit, parent) =>
      if !Known(s.orders, orderId) {
        SubmitKeepsInv(certificates, s, Order(orderId, caseId, Close, unit, parent, 0));
      }
    case Fill(k, more) =>
      if k < |s.orders| && s.orders[k].filled + more <= s.orders[k].parent {
        FillKeepsInv(certificates, s, k, s.orders[k].filled + more);
      }
    case Record(k, status) =>
      if k < |s.orders| && Truthful(status, s.orders[k].filled) {
        RecordKeepsInv(certificates, s, k, Some(status));
      }
    case RecordUnanswered(k) =>
      if k < |s.orders| && s.orders[k].role == Close {
        RecordKeepsInv(certificates, s, k, None);
      }
  }

  lemma {:induction false} RunKeepsInv(certificates: Certificates, script: seq<Action>)
    ensures Inv(certificates, Reached(certificates, script))
  {
    var inv := s => Inv(certificates, s);
    forall s, a | inv(s) ensures inv(Step(certificates)(s, a)) {
      StepKeepsInv(certificates, s, a);
    }
    Runs.Keeps(Step(certificates), inv, EMPTY, script);
  }

  // --------------------------------------------------- sums over the orders

  function CountSum(
    orders: seq<Order>, events: seq<Observation>, certificates: Certificates, symbol: string): int
  {
    if orders == [] then 0
    else
      CountSum(orders[..|orders| - 1], events, certificates, symbol)
      + OrderCount(events, certificates, orders[|orders| - 1].orderId, symbol)
  }

  lemma {:induction false} CountSumAppends(
    orders: seq<Order>, events: seq<Observation>, certificates: Certificates, e: Observation, symbol: string)
    requires DistinctIds(orders)
    ensures CountSum(orders, events + [e], certificates, symbol)
         == CountSum(orders, events, certificates, symbol)
            + if Known(orders, e.orderId) then
                Contribution(certificates, e, symbol) - OrderCount(events, certificates, e.orderId, symbol)
              else 0
  {
    if orders != [] {
      var (front, last) := (orders[..|orders| - 1], orders[|orders| - 1]);
      CountSumAppends(front, events, certificates, e, symbol);
      NewestAfterAppend(events, e, last.orderId);
      assert Known(orders, e.orderId) <==> Known(front, e.orderId) || last.orderId == e.orderId by {
        if k :| 0 <= k < |front| && front[k].orderId == e.orderId {
          assert orders[k].orderId == e.orderId;
        }
      }
    }
  }

  /** The ledger's sum over its rows is the sum over the broker's orders of what their newest rows count for. */
  lemma {:induction false} NewestSumByOrder(
    orders: seq<Order>, events: seq<Observation>, certificates: Certificates, symbol: string)
    requires DistinctIds(orders) && forall e :: e in events ==> Known(orders, e.orderId)
    ensures NewestSum(events, certificates, symbol) == CountSum(orders, events, certificates, symbol)
  {
    if events == [] {
      NothingCounted(orders, certificates, symbol);
    } else {
      var (front, e) := (events[..|events| - 1], events[|events| - 1]);
      assert events == front + [e];
      NewestSumByOrder(orders, front, certificates, symbol);
      AppendReplacesContribution(front, certificates, e, symbol);
      CountSumAppends(orders, front, certificates, e, symbol);
    }
  }

  lemma {:induction false} NothingCounted(orders: seq<Order>, certificates: Certificates, symbol: string)
    ensures CountSum(orders, [], certificates, symbol) == 0
  {
    if orders != [] {
      NothingCounted(orders[..|orders| - 1], certificates, symbol);
    }
  }

  lemma {:induction false} EventsAreKnown(s: System, e: Observation)
    requires RowsAreKnown(s) && e in s.events
    ensures Known(s.orders, e.orderId)
  {
    var i :| 0 <= i < |s.events| && s.events[i] == e;
    assert Observes(s.events, e.orderId);
    NewestIsObserved(s.events, e.orderId);
  }

  /** What the ledger counts for in all: the broker's fills as far as they were seen, closes rounded up to full size. */
  function SeenWorth(orders: seq<Order>, events: seq<Observation>, symbol: string): int {
    if orders == [] then 0
    else
      var o := orders[|orders| - 1];
      SeenWorth(orders[..|orders| - 1], events, symbol) + Worth(o, Seen(events, o.orderId), symbol)
  }

  lemma {:induction false} CountSumIsSeenWorth(
    orders: seq<Order>, events: seq<Observation>, certificates: Certificates, symbol: string)
    requires forall k :: 0 <= k < |orders| ==> Counted(certificates, orders[k], events)
    ensures CountSum(orders, events, certificates, symbol) == SeenWorth(orders, events, symbol)
  {
    if orders != [] {
      CountSumIsSeenWorth(orders[..|orders| - 1], events, certificates, symbol);
      assert Counted(certificates, orders[|orders| - 1], events);
    }
  }

  lemma {:induction false} Distributes(a: int, b: int, c: int)
    requires b <= c
    ensures a * c == a * b + a * (c - b)
  {
  }

  lemma {:induction false} CurrentWorth(orders: seq<Order>, events: seq<Observation>, symbol: string)
    requires forall k :: 0 <= k < |orders| ==>
      Seen(events, orders[k].orderId) == orders[k].filled && orders[k].filled <= orders[k].parent
    ensures SeenWorth(orders, events, symbol) == BrokerHolds(orders, symbol) + Outstanding(orders, symbol)
  {
    if orders != [] {
      var o := orders[|orders| - 1];
      CurrentWorth(orders[..|orders| - 1], events, symbol);
      Distributes(Get(o.unit, symbol), o.filled, o.parent);
    }
  }

  lemma {:induction false} OutstandingOfAll(orders: seq<Order>, symbol: string)
    requires forall k :: 0 <= k < |orders| ==> !PartlyClosed(orders[k])
    ensures Outstanding(orders, symbol) == 0
  {
    if orders != [] {
      OutstandingOfAll(orders[..|orders| - 1], symbol);
    }
  }

  lemma {:induction false} OutstandingOfOne(orders: seq<Order>, k: nat, symbol: string)
    requires k < |orders| && PartlyClosed(orders[k])
    requires forall j :: 0 <= j < |orders| && j != k ==> !PartlyClosed(orders[j])
    ensures Outstanding(orders, symbol) == Get(orders[k].unit, symbol) * (orders[k].parent - orders[k].filled)
  {
    var last := |orders| - 1;
    if k == last {
      OutstandingOfAll(orders[..last], symbol);
    } else {
      OutstandingOfOne(orders[..last], k, symbol);
    }
  }

  lemma {:induction false} AgreedIffBalanced(certificates: Certificates, s: System)
    requires forall symbol :: Gap(certificates, s, symbol) == Outstanding(s.orders, symbol)
    ensures Agreed(certificates, s) <==> Balanced(s.orders)
  {
    if Agreed(certificates, s) {
      forall symbol ensures Outstanding(s.orders, symbol) == 0 {
        assert Gap(certificates, s, symbol) == 0;
      }
    } else {
      var symbol :| NewestSum(s.events, certificates, symbol) != BrokerHolds(s.orders, symbol);
      assert Gap(certificates, s, symbol) != 0;
    }
  }

  lemma {:induction false} ProductIsNotZero(a: int, b: int)
    requires a != 0 && b > 0
    ensures a * b != 0
  {
  }

  // ------------------------------------------------------------- theorems

  /**
   Over every run, whatever was polled and whatever went unanswered, the ledger
   expects of each symbol what the fills it has seen are worth.
   */
  lemma {:induction false} LedgerCountsSeenFills(certificates: Certificates, script: seq<Action>, symbol: string)
    ensures
      var s := Reached(certificates, script);
      NewestSum(s.events, certificates, symbol) == SeenWorth(s.orders, s.events, symbol)
  {
    var s := Reached(certificates, script);
    RunKeepsInv(certificates, script);
    forall e | e in s.events ensures Known(s.orders, e.orderId) {
      EventsAreKnown(s, e);
    }
    NewestSumByOrder(s.orders, s.events, certificates, symbol);
    CountSumIsSeenWorth(s.orders, s.events, certificates, symbol);
  }

  /**
   Over every run of any orders whose newest rows are as far as the broker, the
   ledger agrees with the broker if and only if what partly filled closes have
   still to change cancels out in every symbol.
   */
  lemma {:induction false} CurrentLedgerAgreesIff(certificates: Certificates, script: seq<Action>)
    requires Current(Reached(certificates, script))
    ensures
      var s := Reached(certificates, script);
      Agreed(certificates, s) <==> Balanced(s.orders)
  {
    var s := Reached(certificates, script);
    RunKeepsInv(certificates, script);
    forall symbol ensures Gap(certificates, s, symbol) == Outstanding(s.orders, symbol) {
      LedgerCountsSeenFills(certificates, script, symbol);
      CurrentWorth(s.orders, s.events, symbol);
    }
    AgreedIffBalanced(certificates, s);
  }

  /** At most one close is partly filled, and every close changes something. */
  predicate OnePartlyClosed(orders: seq<Order>) {
    && (forall i, j :: 0 <= i < j < |orders| ==> !PartlyClosed(orders[i]) || !PartlyClosed(orders[j]))
    && forall k :: 0 <= k < |orders| && PartlyClosed(orders[k]) ==>
         exists symbol :: symbol in orders[k].unit && orders[k].unit[symbol] != 0
  }

  /** With closes one after another: the ledger agrees with the broker if and only if no close is partly filled. */
  lemma {:induction false} CurrentLedgerAgreesUnlessClosing(certificates: Certificates, script: seq<Action>)
    requires Current(Reached(certificates, script)) && OnePartlyClosed(Reached(certificates, script).orders)
    ensures
      var s := Reached(certificates, script);
      Agreed(certificates, s) <==> forall k :: 0 <= k < |s.orders| ==> !PartlyClosed(s.orders[k])
  {
    var orders := Reached(certificates, script).orders;
    CurrentLedgerAgreesIff(certificates, script);
    if k :| 0 <= k < |orders| && PartlyClosed(orders[k]) {
      var symbol :| symbol in orders[k].unit && orders[k].unit[symbol] != 0;
      forall j | 0 <= j < |orders| && j != k ensures !PartlyClosed(orders[j]) {
        assert j < k || k < j;
      }
      OutstandingOfOne(orders, k, symbol);
      ProductIsNotZero(orders[k].unit[symbol], orders[k].parent - orders[k].filled);
    } else {
      forall symbol ensures Outstanding(orders, symbol) == 0 {
        OutstandingOfAll(orders, symbol);
      }
    }
  }

  /** What one fill of the close of these positions changes. */
  function CloseUnit(positions: seq<BrokerPosition>, parent: nat): map<string, int>
    requires AllSided(positions) && parent > 0
  {
    if positions == [] then map[]
    else
      var p := positions[|positions| - 1];
      CloseUnit(positions[..|positions| - 1], parent)
        [p.symbol := if p.side == Long then -LegFor(p, parent).ratio else LegFor(p, parent).ratio]
  }

  lemma {:induction false} CloseUnitScales(positions: seq<BrokerPosition>, parent: nat)
    requires AllSided(positions) && parent > 0
    requires forall i :: 0 <= i < |positions| ==>
      LegFor(positions[i], parent).ratio * parent == AbsInt(positions[i].quantity)
    ensures Scaled(CloseUnit(positions, parent), parent) == CloseQuantities(positions)
  {
    if positions != [] {
      var (front, p) := (positions[..|positions| - 1], positions[|positions| - 1]);
      CloseUnitScales(front, parent);
      var ratio := LegFor(p, parent).ratio;
      assert (-ratio) * parent == -(ratio * parent);
    }
  }

  /**
   The close the program builds is such an order: at the parent quantity its
   leg ratios add up to exactly the quantities that its rows bring.
   */
  lemma {:induction false} BuiltCloseIsSuchAnOrder(positions: seq<BrokerPosition>)
    requires positions != [] && AllNonZero(positions) && AllSided(positions)
    requires CloseQuantity(positions).Ok? && CloseQuantity(positions).value > 0
    ensures
      var parent := CloseQuantity(positions).value;
      Scaled(CloseUnit(positions, parent), parent) == CloseQuantities(positions)
  {
    var parent := CloseQuantity(positions).value;
    CloseFlattensExactly(positions);
    forall i | 0 <= i < |positions|
      ensures LegFor(positions[i], parent).ratio * parent == AbsInt(positions[i].quantity)
    {
      assert CloseLegsOf(positions, parent)[i] == LegFor(positions[i], parent);
    }
    CloseUnitScales(positions, parent);
  }
}
