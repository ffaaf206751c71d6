/** The append-only order observations and the expected position map they fold into. */
module OrderLedger {
  import opened BrokerOrders
  import CaseLedger
  import opened Options

  datatype Role = Entry | Close

  /** A certified leg as the projection reads it. */
  datatype Leg = Leg(symbol: string, buy: bool)

  /** One row of the ledger, its status string already read as StatusOf reads it. */
  datatype Observation = Observation(
    caseId: nat, orderId: string, status: Status, filled: int, role: Role, signed: map<string, int>)

  /** The newest certificate's legs by case. */
  type Certificates = map<nat, seq<Leg>>

  function LegQuantities(legs: seq<Leg>, filled: int): map<string, int> {
    if legs == [] then map[]
    else
      var leg := legs[|legs| - 1];
      LegQuantities(legs[..|legs| - 1], filled)[leg.symbol := if leg.buy then filled else -filled]
  }

  /**
   With one leg per symbol, every leg counts the filled quantity with the sign of its side, and
   nothing else counts.
   */
  lemma {:induction false} LegQuantitiesBySide(legs: seq<Leg>, filled: int)
    requires forall i, j :: 0 <= i < j < |legs| ==> legs[i].symbol != legs[j].symbol
    ensures forall i :: 0 <= i < |legs| ==>
      legs[i].symbol in LegQuantities(legs, filled)
      && LegQuantities(legs, filled)[legs[i].symbol] == if legs[i].buy then filled else -filled
    ensures forall s :: s in LegQuantities(legs, filled) ==> exists i :: 0 <= i < |legs| && legs[i].symbol == s
  {
    if legs != [] {
      LegQuantitiesBySide(legs[..|legs| - 1], filled);
    }
  }

  function EntryQuantities(certificates: Certificates, caseId: nat, filled: int): map<string, int> {
    if caseId in certificates then LegQuantities(certificates[caseId], filled) else map[]
  }

  predicate CountsAsFilled(o: Observation) {
    o.status in {Filled, PartlyFilled} || o.filled != 0
  }

  /** The position changes one observation stands for. */
  function Quantities(certificates: Certificates, o: Observation): map<string, int> {
    if !CountsAsFilled(o) then map[]
    else if o.signed != map[] then o.signed
    else if o.role == Entry then EntryQuantities(certificates, o.caseId, o.filled)
    else map[]
  }

  function Get(m: map<string, int>, symbol: string): int {
    if symbol in m then m[symbol] else 0
  }

  function Contribution(certificates: Certificates, o: Observation, symbol: string): int {
    Get(Quantities(certificates, o), symbol)
  }

  predicate Observes(events: seq<Observation>, orderId: string) {
    exists i :: 0 <= i < |events| && events[i].orderId == orderId
  }

  /** The newest observation of an order. */
  function Newest(events: seq<Observation>, orderId: string): Option<Observation> {
    if events == [] then None
    else if events[|events| - 1].orderId == orderId then Some(events[|events| - 1])
    else Newest(events[..|events| - 1], orderId)
  }

  /**
   The sum over order ids of the newest observation's contribution: an observation counts if none
   follows for its order.
   */
  function NewestSum(events: seq<Observation>, certificates: Certificates, symbol: string): int {
    if events == [] then 0
    else
      (if Observes(events[1..], events[0].orderId) then 0 else Contribution(certificates, events[0], symbol))
      + NewestSum(events[1..], certificates, symbol)
  }

  /** The expected position map: the nonzero sums. */
  ghost predicate IsExpected(events: seq<Observation>, certificates: Certificates, state: map<string, int>) {
    forall symbol ::
      && (symbol in state <==> NewestSum(events, certificates, symbol) != 0)
      && (symbol in state ==> state[symbol] == NewestSum(events, certificates, symbol))
  }

  // ---------------------------------------------- sums over a dictionary

  predicate Distinct(keys: seq<string>) {
    forall i, j :: 0 <= i < j < |keys| ==> keys[i] != keys[j]
  }

  /** The dictionary's contributions in insertion order. */
  function DictSum(
    keys: seq<string>, latest: map<string, Observation>, certificates: Certificates, symbol: string): int
    requires forall k :: k in keys ==> k in latest
  {
    if keys == [] then 0
    else
      DictSum(keys[..|keys| - 1], latest, certificates, symbol)
      + Contribution(certificates, latest[keys[|keys| - 1]], symbol)
  }

  /** Replacing one entry replaces one contribution. */
  lemma {:induction false} DictSumReplaces(
    keys: seq<string>, latest: map<string, Observation>, certificates: Certificates, o: Observation, symbol: string)
    requires (forall k :: k in keys ==> k in latest) && Distinct(keys)
    ensures DictSum(keys, latest[o.orderId := o], certificates, symbol)
         == DictSum(keys, latest, certificates, symbol)
            + if o.orderId in keys then
                Contribution(certificates, o, symbol) - Contribution(certificates, latest[o.orderId], symbol)
              else 0
  {
    if keys != [] {
      var last := |keys| - 1;
      DictSumReplaces(keys[..last], latest, certificates, o, symbol);
      assert keys == keys[..last] + [keys[last]];
      assert o.orderId in keys <==> o.orderId in keys[..last] || o.orderId == keys[last];
      assert keys[last] !in keys[..last];
    }
  }

  lemma {:induction false} NewestIsObserved(events: seq<Observation>, orderId: string)
    ensures Newest(events, orderId).Some? <==> Observes(events, orderId)
    ensures Newest(events, orderId).Some? ==> Newest(events, orderId).value.orderId == orderId
  {
    if events != [] {
      var front := events[..|events| - 1];
      NewestIsObserved(front, orderId);
      if Observes(front, orderId) {
        var i :| 0 <= i < |front| && front[i].orderId == orderId;
        assert events[i].orderId == orderId;
      }
      if Observes(events, orderId) {
        var i :| 0 <= i < |events| && events[i].orderId == orderId;
        assert i < |front| ==> front[i].orderId == orderId;
      }
    }
  }

  lemma {:induction false} NewestOfTail(events: seq<Observation>, orderId: string)
    requires events != []
    ensures Newest(events, orderId)
         == if Observes(events[1..], orderId) then Newest(events[1..], orderId)
            else if events[0].orderId == orderId then Some(events[0]) else None
    decreases |events|
  {
    NewestIsObserved(events[1..], orderId);
    if |events| > 1 {
      var front := events[..|events| - 1];
      assert front[1..] == events[1..][..|events| - 2];
      assert events[1..][|events| - 2] == events[|events| - 1];
      NewestOfTail(front, orderId);
      NewestIsObserved(front[1..], orderId);
    }
  }

  /** Appending an observation replaces its order's contribution and leaves every other order's alone. */
  lemma {:induction false} AppendReplacesContribution(
    events: seq<Observation>, certificates: Certificates, o: Observation, symbol: string)
    ensures NewestSum(events + [o], certificates, symbol)
         == NewestSum(events, certificates, symbol) + Contribution(certificates, o, symbol)
            - match Newest(events, o.orderId)
              case None => 0
              case Some(previous) => Contribution(certificates, previous, symbol)
  {
    if events == [] {
      assert events + [o] == [o];
    } else {
      var tail := events[1..];
      assert (events + [o])[1..] == tail + [o];
      AppendReplacesContribution(tail, certificates, o, symbol);
      NewestOfTail(events, o.orderId);
      NewestIsObserved(tail, o.orderId);
      ObservesAfterAppend(tail, o, events[0].orderId);
    }
  }

  lemma {:induction false} ObservesAfterAppend(events: seq<Observation>, o: Observation, orderId: string)
    ensures Observes(events + [o], orderId) <==> Observes(events, orderId) || o.orderId == orderId
  {
    if Observes(events, orderId) {
      var i :| 0 <= i < |events| && events[i].orderId == orderId;
      assert (events + [o])[i].orderId == orderId;
    }
    assert (events + [o])[|events|] == o;
  }

  // ------------------------------------------------------------ the ledger

  /** An entry observation is stored with the quantities its certificate implies when it brings none. */
  function Stored(certificates: Certificates, o: Observation): Observation {
    if o.role == Entry && o.signed == map[] then
      o.(signed := EntryQuantities(certificates, o.caseId, o.filled))
    else o
  }

  /** One polled order of an execution record. */
  datatype Poll = Poll(orderId: string, status: Status, filled: int, role: Role, signed: map<string, int>)

  /** An execution record: its own summary of the whole chain, and the polls it carries, if any. */
  datatype Record = Record(
    caseId: nat, orderIds: seq<string>, outcome: CaseLedger.Execution, filled: int, role: Role,
    signed: map<string, int>, polls: seq<Poll>)

  function RowOf(caseId: nat, p: Poll): Observation {
    Observation(caseId, p.orderId, p.status, p.filled, p.role, p.signed)
  }

  /** Whether the summary of a record cannot say which order of its chain it is about. */
  predicate Ambiguous(record: Record) {
    |record.orderIds| > 1 && record.outcome != CaseLedger.WasSubmitted
  }

  function SummaryStatus(outcome: CaseLedger.Execution): Status {
    match outcome
    case WasSubmitted => Working
    case WasReplaced => Replaced
    case WasFilled => Filled
    case WasCanceled => Canceled
    case WasRejected => Rejected
    case WasUnclear => Unrecognized
  }

  /** The row of one order id of a record without polls. */
  function SummaryRow(record: Record, orderId: string): Observation {
    Observation(
      record.caseId, orderId,
      if Ambiguous(record) then Unrecognized else SummaryStatus(record.outcome),
      if Ambiguous(record) then 0 else record.filled,
      record.role, record.signed)
  }

  /** The rows a record stands for: one a poll, or without polls one an order id with the record's own summary. */
  function Normalized(record: Record): (rows: seq<Observation>)
    ensures forall i :: 0 <= i < |rows| ==> rows[i].caseId == record.caseId
    ensures record.polls == [] ==>
      |rows| == |record.orderIds| && forall i :: 0 <= i < |rows| ==> rows[i] == SummaryRow(record, record.orderIds[i])
  {
    if record.polls != [] then
      seq(|record.polls|, i requires 0 <= i < |record.polls| => RowOf(record.caseId, record.polls[i]))
    else
      seq(|record.orderIds|, i requires 0 <= i < |record.orderIds| => SummaryRow(record, record.orderIds[i]))
  }

  function AllStored(certificates: Certificates, rows: seq<Observation>): seq<Observation> {
    seq(|rows|, i requires 0 <= i < |rows| => Stored(certificates, rows[i]))
  }

  /** A close result with an order id: what the poll saw, or the result's own state and nothing filled. */
  datatype CloseReport = CloseReport(
    caseId: nat, orderId: string, state: string, polled: Option<(Status, int)>, signed: map<string, int>)

  function CloseRowOf(report: CloseReport): Observation {
    Observation(
      report.caseId, report.orderId,
      if report.polled.Some? then report.polled.value.0 else StatusOf(report.state),
      if report.polled.Some? then report.polled.value.1 else 0,
      Close, report.signed)
  }

  class Ledger {
    var cases: set<nat>
    var certificates: Certificates
    var events: seq<Observation>

    constructor (cases: set<nat>, certificates: Certificates)
      ensures this.cases == cases && this.certificates == certificates && events == []
    {
      this.cases := cases;
      this.certificates := certificates;
      events := [];
    }

    /** Appends every row an execution record stands for, or none when there are rows and the case is unknown. */
    method SaveOrderEvents(record: Record) returns (r: Result<()>)
      modifies this`events
      ensures r.Ok? <==> Normalized(record) == [] || record.caseId in cases
      ensures events == if r.Ok? then old(events) + AllStored(certificates, Normalized(record)) else old(events)
    {
      var rows := Normalized(record);
      if rows == [] {
        assert AllStored(certificates, rows) == [];
        return Ok(());
      }
      if record.caseId !in cases {
        return Err("unknown case");
      }
      for i := 0 to |rows|
        invariant events == old(events) + AllStored(certificates, rows)[..i]
      {
        var o := rows[i];
        var signed := o.signed;
        if o.role == Entry && signed == map[] {
          signed := EntryQuantities(certificates, record.caseId, o.filled);
        }
        assert o.(signed := signed) == AllStored(certificates, rows)[i];
        events := events + [o.(signed := signed)];
      }
      return Ok(());
    }

    /** Appends the row of a close result that names an order. */
    method SaveCloseEvent(report: CloseReport)
      modifies this`events
      ensures events == if report.orderId == "" then old(events) else old(events) + [CloseRowOf(report)]
    {
      if report.orderId != "" {
        events := events + [CloseRowOf(report)];
      }
    }

    /** Keeps the newest row per order, then adds up what the filled ones stand for. */
    method ExpectedPositionState() returns (state: map<string, int>)
      ensures IsExpected(events, certificates, state)
    {
      var keys: seq<string> := [];
      var latest: map<string, Observation> := map[];
      for i := 0 to |events|
        invariant forall k :: k in keys <==> k in latest
        invariant Distinct(keys)
        invariant forall k :: Newest(events[..i], k) == if k in latest then Some(latest[k]) else None
        invariant forall symbol ::
          DictSum(keys, latest, certificates, symbol) == NewestSum(events[..i], certificates, symbol)
      {
        LatestTakesRow(keys, latest, certificates, events[..i], events[i]);
        assert events[..i + 1] == events[..i] + [events[i]];
        var row := events[i];
        if row.orderId !in latest {
          keys := keys + [row.orderId];
        }
        latest := latest[row.orderId := row];
      }
      assert events[..|events|] == events;
      state := map[];
      for i := 0 to |keys|
        invariant forall symbol :: Get(state, symbol) == DictSum(keys[..i], latest, certificates, symbol)
      {
        assert keys[..i + 1][..i] == keys[..i];
        state := AddQuantities(state, Quantities(certificates, latest[keys[i]]));
      }
      assert keys[..|keys|] == keys;
      state := map symbol | symbol in state && state[symbol] != 0 :: state[symbol];
    }

    method AddQuantities(before: map<string, int>, quantities: map<string, int>) returns (state: map<string, int>)
      ensures forall symbol :: Get(state, symbol) == Get(before, symbol) + Get(quantities, symbol)
    {
      state := before;
      var left := quantities.Keys;
      while left != {}
        invariant left <= quantities.Keys
        invariant forall symbol ::
          Get(state, symbol) == Get(before, symbol) + if symbol in left then 0 else Get(quantities, symbol)
        decreases |left|
      {
        var symbol :| symbol in left;
        state := state[symbol := Get(state, symbol) + quantities[symbol]];
        left := left - {symbol};
      }
    }
  }

  /** Taking one more row into the dictionary keeps it the newest row per order and keeps the sums. */
  lemma {:induction false} LatestTakesRow(
    keys: seq<string>, latest: map<string, Observation>, certificates: Certificates,
    events: seq<Observation>, row: Observation)
    requires (forall k :: k in keys <==> k in latest) && Distinct(keys)
    requires forall k :: Newest(events, k) == if k in latest then Some(latest[k]) else None
    requires forall symbol ::
      DictSum(keys, latest, certificates, symbol) == NewestSum(events, certificates, symbol)
    ensures
      var keys' := if row.orderId in latest then keys else keys + [row.orderId];
      var latest' := latest[row.orderId := row];
      && (forall k :: k in keys' <==> k in latest') && Distinct(keys')
      && (forall k :: Newest(events + [row], k) == if k in latest' then Some(latest'[k]) else None)
      && (forall symbol ::
            DictSum(keys', latest', certificates, symbol) == NewestSum(events + [row], certificates, symbol))
  {
    assert (events + [row])[..|events|] == events;
    forall symbol { SumTakesRow(keys, latest, certificates, events, row, symbol); }
  }

  lemma {:induction false} SumTakesRow(
    keys: seq<string>, latest: map<string, Observation>, certificates: Certificates,
    events: seq<Observation>, row: Observation, symbol: string)
    requires (forall k :: k in keys <==> k in latest) && Distinct(keys)
    requires Newest(events, row.orderId) == if row.orderId in latest then Some(latest[row.orderId]) else None
    requires DictSum(keys, latest, certificates, symbol) == NewestSum(events, certificates, symbol)
    ensures
      var keys' := if row.orderId in latest then keys else keys + [row.orderId];
      var latest' := latest[row.orderId := row];
      && (forall k :: k in keys' ==> k in latest')
      && DictSum(keys', latest', certificates, symbol) == NewestSum(events + [row], certificates, symbol)
  {
    DictTakesRow(keys, latest, certificates, row, symbol);
    AppendReplacesContribution(events, certificates, row, symbol);
  }

  lemma {:induction false} DictTakesRow(
    keys: seq<string>, latest: map<string, Observation>, certificates: Certificates, row: Observation, symbol: string)
    requires (forall k :: k in keys <==> k in latest) && Distinct(keys)
    ensures
      var keys' := if row.orderId in latest then keys else keys + [row.orderId];
      var latest' := latest[row.orderId := row];
      && (forall k :: k in keys' ==> k in latest')
      && DictSum(keys', latest', certificates, symbol)
         == DictSum(keys, latest, certificates, symbol) + Contribution(certificates, row, symbol)
            - if row.orderId in latest then Contribution(certificates, latest[row.orderId], symbol) else 0
  {
    DictSumReplaces(keys, latest, certificates, row, symbol);
    if row.orderId !in latest {
      assert (keys + [row.orderId])[..|keys|] == keys;
    }
  }

  // ------------------------------------------------------------- theorems

  /**
   The summary of a record without polls counts as filled exactly when it is
   about a single order that filled, or a chain just submitted with a filled
   quantity: a replacement chain is never projected as entirely filled.
   */
  lemma {:induction false} SummaryCountsIff(record: Record, i: nat)
    requires record.polls == [] && i < |record.orderIds|
    ensures CountsAsFilled(Normalized(record)[i])
       <==> if |record.orderIds| == 1 then record.outcome == CaseLedger.WasFilled || record.filled != 0
            else record.outcome == CaseLedger.WasSubmitted && record.filled != 0
  {
  }

  /** Recording an order's newest observation once more leaves every expected quantity as it was. */
  lemma {:induction false} ReRecordingChangesNothing(
    events: seq<Observation>, certificates: Certificates, o: Observation)
    requires Newest(events, o.orderId) == Some(o)
    ensures forall symbol ::
      NewestSum(events + [o], certificates, symbol) == NewestSum(events, certificates, symbol)
    ensures forall state :: IsExpected(events, certificates, state) ==> IsExpected(events + [o], certificates, state)
  {
    forall symbol
      ensures NewestSum(events + [o], certificates, symbol) == NewestSum(events, certificates, symbol)
    {
      AppendReplacesContribution(events, certificates, o, symbol);
    }
  }

  /** No observation so far counts towards the order's position. */
  predicate NothingYet(events: seq<Observation>, certificates: Certificates, orderId: string) {
    var newest := Newest(events, orderId);
    newest.Some? ==> Quantities(certificates, newest.value) == map[]
  }

  /** The signed position the broker reports for a symbol, over distinct symbols. */
  function Held(positions: seq<BrokerPosition>, symbol: string): int
    requires AllSided(positions)
  {
    if positions == [] then 0
    else if positions[|positions| - 1].symbol == symbol then Signed(positions[|positions| - 1])
    else Held(positions[..|positions| - 1], symbol)
  }

  /** What a close of these positions records: every position with the opposite sign. */
  function CloseQuantities(positions: seq<BrokerPosition>): map<string, int>
    requires AllSided(positions)
  {
    if positions == [] then map[]
    else
      var p := positions[|positions| - 1];
      CloseQuantities(positions[..|positions| - 1])
        [p.symbol := if p.side == Long then -AbsInt(p.quantity) else AbsInt(p.quantity)]
  }

  lemma {:induction false} CloseNegatesHeld(positions: seq<BrokerPosition>, symbol: string)
    requires AllSided(positions)
    ensures Get(CloseQuantities(positions), symbol) == -Held(positions, symbol)
  {
    if positions != [] {
      CloseNegatesHeld(positions[..|positions| - 1], symbol);
    }
  }

  /** The broker's positions are the ones the ledger expects. */
  ghost predicate Agrees(events: seq<Observation>, certificates: Certificates, positions: seq<BrokerPosition>)
    requires AllSided(positions)
  {
    forall symbol :: NewestSum(events, certificates, symbol) == Held(positions, symbol)
  }

  /** The ledger expects no position at all. */
  ghost predicate Flat(events: seq<Observation>, certificates: Certificates) {
    forall symbol :: NewestSum(events, certificates, symbol) == 0
  }

  /**
   After any history that agrees with the broker, an observation of the close
   order of exactly the broker's positions makes the ledger flat if and only if
   it counts as filled, unless nothing was held.
   */
  lemma {:induction false} CloseFlattensIff(
    events: seq<Observation>, certificates: Certificates, positions: seq<BrokerPosition>, o: Observation)
    requires AllSided(positions)
    requires Agrees(events, certificates, positions) && NothingYet(events, certificates, o.orderId)
    requires o.role == Close && o.signed == CloseQuantities(positions)
    ensures Flat(events + [o], certificates) <==> CountsAsFilled(o) || Flat(events, certificates)
  {
    var counts := CountsAsFilled(o);
    if counts {
      forall symbol ensures NewestSum(events + [o], certificates, symbol) == 0 {
        AfterClose(events, certificates, positions, o, counts, symbol);
      }
    } else {
      forall symbol
        ensures NewestSum(events + [o], certificates, symbol) == NewestSum(events, certificates, symbol)
      {
        AfterClose(events, certificates, positions, o, counts, symbol);
      }
    }
  }

  lemma {:induction false} AfterClose(
    events: seq<Observation>, certificates: Certificates, positions: seq<BrokerPosition>, o: Observation,
    counts: bool, symbol: string)
    requires AllSided(positions)
    requires Agrees(events, certificates, positions) && NothingYet(events, certificates, o.orderId)
    requires o.role == Close && o.signed == CloseQuantities(positions) && counts == CountsAsFilled(o)
    ensures NewestSum(events + [o], certificates, symbol)
         == if counts then 0 else NewestSum(events, certificates, symbol)
  {
    AppendReplacesContribution(events, certificates, o, symbol);
    CloseContribution(certificates, positions, o, symbol);
    assert NewestSum(events, certificates, symbol) == Held(positions, symbol);
  }

  lemma {:induction false} CloseContribution(
    certificates: Certificates, positions: seq<BrokerPosition>, o: Observation, symbol: string)
    requires AllSided(positions)
    requires o.role == Close && o.signed == CloseQuantities(positions)
    ensures Contribution(certificates, o, symbol) == if CountsAsFilled(o) then -Held(positions, symbol) else 0
  {
    CloseNegatesHeld(positions, symbol);
  }

  /** An entry fill on a flat ledger leaves exactly the certified legs, signed by side and times the filled quantity. */
  lemma {:induction false} EntryFillIsExpected(events: seq<Observation>, certificates: Certificates, o: Observation)
    requires Flat(events, certificates) && NothingYet(events, certificates, o.orderId)
    requires o.role == Entry && o.signed == map[] && CountsAsFilled(o)
    ensures forall symbol ::
      NewestSum(events + [Stored(certificates, o)], certificates, symbol)
      == Get(EntryQuantities(certificates, o.caseId, o.filled), symbol)
  {
    forall symbol
      ensures NewestSum(events + [Stored(certificates, o)], certificates, symbol)
           == Get(EntryQuantities(certificates, o.caseId, o.filled), symbol)
    {
      AppendReplacesContribution(events, certificates, Stored(certificates, o), symbol);
      assert NewestSum(events, certificates, symbol) == 0;
    }
  }

  /** The broker holds the certified legs at the filled quantity. */
  ghost predicate HoldsLegs(positions: seq<BrokerPosition>, certificates: Certificates, caseId: nat, filled: int)
    requires AllSided(positions)
  {
    forall symbol :: Held(positions, symbol) == Get(EntryQuantities(certificates, caseId, filled), symbol)
  }

  /**
   A whole round: a fill of the certified legs, then a fill of the close of what the broker holds,
   leaves nothing expected.
   */
  lemma {:induction false} EntryThenCloseIsFlat(
    events: seq<Observation>, certificates: Certificates, entry: Observation,
    positions: seq<BrokerPosition>, close: Observation)
    requires Flat(events, certificates) && entry.orderId != close.orderId
    requires NothingYet(events, certificates, entry.orderId) && NothingYet(events, certificates, close.orderId)
    requires entry.role == Entry && entry.signed == map[] && CountsAsFilled(entry)
    requires AllSided(positions)
    requires HoldsLegs(positions, certificates, entry.caseId, entry.filled)
    requires close.role == Close && close.signed == CloseQuantities(positions) && CountsAsFilled(close)
    ensures Agrees(events + [Stored(certificates, entry)], certificates, positions)
    ensures Flat(events + [Stored(certificates, entry)] + [close], certificates)
  {
    var after := events + [Stored(certificates, entry)];
    EntryFillIsExpected(events, certificates, entry);
    assert after[..|events|] == events;
    assert Newest(after, close.orderId) == Newest(events, close.orderId);
    CloseFlattensIff(after, certificates, positions, close);
  }

  // ------------------------------------------- what a failed poll forgets

  /** What an order counts for now: the contribution of its newest observation. */
  function OrderCount(events: seq<Observation>, certificates: Certificates, orderId: string, symbol: string): int {
    match Newest(events, orderId)
    case None => 0
    case Some(o) => Contribution(certificates, o, symbol)
  }

  lemma {:induction false} NewestAfterAppend(events: seq<Observation>, o: Observation, orderId: string)
    ensures Newest(events + [o], orderId) == if o.orderId == orderId then Some(o) else Newest(events, orderId)
  {
    assert (events + [o])[..|events|] == events;
  }

  /** Every observation of the order repeats the quantities of its close. */
  predicate Repeats(later: seq<Observation>, close: Observation) {
    forall i :: 0 <= i < |later| && later[i].orderId == close.orderId ==>
      later[i].role == Close && later[i].signed == close.signed
  }

  lemma {:induction false} CountAfter(
    events: seq<Observation>, later: seq<Observation>, certificates: Certificates, close: Observation,
    symbol: string, j: nat)
    requires Newest(events, close.orderId) == Some(close) && close.role == Close && CountsAsFilled(close)
    requires Repeats(later, close) && j <= |later|
    requires forall i :: 0 <= i < j && later[i].orderId == close.orderId ==> CountsAsFilled(later[i])
    ensures OrderCount(events + later[..j], certificates, close.orderId, symbol) == Get(close.signed, symbol)
  {
    if j == 0 {
      assert events + later[..0] == events;
    } else {
      CountAfter(events, later, certificates, close, symbol, j - 1);
      assert events + later[..j] == (events + later[..j - 1]) + [later[j - 1]];
      NewestAfterAppend(events + later[..j - 1], later[j - 1], close.orderId);
    }
  }

  /**
   A filled close goes on counting through any later observations if and only
   if none of those of its own order fails to count: one poll that the broker
   does not answer is recorded as nothing filled, and that is then the newest.
   */
  lemma {:induction false} FillRememberedIff(
    events: seq<Observation>, later: seq<Observation>, certificates: Certificates, close: Observation, symbol: string)
    requires Newest(events, close.orderId) == Some(close) && close.role == Close && CountsAsFilled(close)
    requires Repeats(later, close) && Get(close.signed, symbol) != 0
    ensures (forall j :: 0 <= j <= |later| ==>
              OrderCount(events + later[..j], certificates, close.orderId, symbol) == Get(close.signed, symbol))
       <==> (forall i :: 0 <= i < |later| && later[i].orderId == close.orderId ==> CountsAsFilled(later[i]))
  {
    if i :| 0 <= i < |later| && later[i].orderId == close.orderId && !CountsAsFilled(later[i]) {
      assert events + later[..i + 1] == (events + later[..i]) + [later[i]];
      NewestAfterAppend(events + later[..i], later[i], close.orderId);
      assert OrderCount(events + later[..i + 1], certificates, close.orderId, symbol) == 0;
    } else {
      forall j | 0 <= j <= |later|
        ensures OrderCount(events + later[..j], certificates, close.orderId, symbol) == Get(close.signed, symbol)
      {
        CountAfter(events, later, certificates, close, symbol, j);
      }
    }
  }

  const ENTERED := Observation(1, "entry", Filled, 2, Entry, map["A" := 2])
  const CLOSING := CloseReport(1, "close", "RECONCILE_REQUIRED", Some((Filled, 2)), map["A" := -2])
  const UNANSWERED := CLOSING.(polled := None)

  lemma {:induction false} UnansweredIsUnrecognized()
    ensures StatusOf(UNANSWERED.state) == Unrecognized
  {
    assert |Upper(UNANSWERED.state)| == 18;
  }

  /** A concrete run: entered, closed and filled; one poll without an answer, and the position is expected again. */
  lemma {:induction false} UnansweredPollForgetsFill()
    ensures NewestSum([ENTERED] + [CloseRowOf(CLOSING)], map[], "A") == 0
    ensures NewestSum([ENTERED] + [CloseRowOf(CLOSING)] + [CloseRowOf(UNANSWERED)], map[], "A") == 2
  {
    UnansweredIsUnrecognized();
    AppendReplacesContribution([], map[], ENTERED, "A");
    assert [] + [ENTERED] == [ENTERED];
    AppendReplacesContribution([ENTERED], map[], CloseRowOf(CLOSING), "A");
    NewestAfterAppend([], ENTERED, "close");
    AppendReplacesContribution([ENTERED] + [CloseRowOf(CLOSING)], map[], CloseRowOf(UNANSWERED), "A");
    NewestAfterAppend([ENTERED], CloseRowOf(CLOSING), "close");
  }
}
