/**
 Closing a position with several workers, any of which may stop between two
 calls.  One intent key is followed; a run is a script of atomic actions, each
 one transaction on the intent row, one broker call, a crash, or a change of
 the world.  An action whose guard fails changes nothing, so every script is a
 run and every run is a script.
 */
module CloseProtocol {
  import opened Options
  import Runs
  import opened CloseIntents

  /**
   What the world allows: how long a claim lasts, how long after its start a
   call's submit may still reach the broker, whether a client-id lookup may
   miss an order the broker holds (its errors are read as "not found"), and
   whether the broker refuses a second order with a client id it has seen: all
   closes of one intent carry the same one.
   */
  datatype World = World(ttl: nat, landBy: nat, lookupMisses: bool, uniqueIds: bool)

  /** What the broker reports for an order; Other covers replaced and unrecognised statuses. */
  datatype OrderStatus = Working | Partial | Filled | RejectedAtBroker | CanceledAtBroker | Other

  /** Where one call of close or reconcile_close_intents stands. */
  datatype Phase =
    | Claiming                                    // close: before the claim transaction
    | Polling                                     // reconcile: before the row is read
    | LookingUp(mayClose: bool)                   // no order id known: all-status client-id lookup next
    | Recovered(found: OrderId)                   // lookup hit: compare-and-swap next
    | CheckingOrders                              // lookup missed: list open orders next
    | Pricing                                     // quote the close next
    | Sending                                     // submit next
    | Sent(landed: Option<OrderId>)               // submit issued; landed once the broker holds it
    | Accepted(order: OrderId)                    // submit acknowledged: compare-and-swap next
    | ObservingOwn(order: OrderId)                // first observation after the own submit
    | Observing(order: OrderId)                   // observation of a known order
    | Persisting(state: CloseState, seen: Option<OrderId>)

  datatype Call = Call(alive: bool, owner: Owner, now: int, token: Option<Token>, phase: Phase)

  /** The calls are numbered in the order they start; a call's number is its fresh claim token. */
  datatype System = System(clock: int, row: Option<CloseRow>, calls: seq<Call>, orders: seq<OrderStatus>)

  datatype Action =
    | Advance(ticks: nat)
    | BeginClose(owner: Owner)
    | BeginReconcile(owner: Owner)
    | Crash(c: nat)
    | ClaimRow(c: nat)
    | PollRow(c: nat)
    | Lookup(c: nat, missed: bool)
    | RecordRecovered(c: nat)
    | ListOrders(c: nat, failed: bool, foreignWorking: bool)
    | Quote(c: nat, ok: bool)
    | Submit(c: nat)
    | Land(c: nat)
    | Acknowledge(c: nat)
    | RecordAccepted(c: nat)
    | Observe(c: nat, failed: bool, flat: bool)
    | Persist(c: nat)
    | BrokerReports(order: OrderId, status: OrderStatus)

  /** Submits land inside their sender's lease, and lookups never miss. */
  predicate Sound(w: World) {
    w.landBy <= w.ttl && !w.lookupMisses
  }

  const INITIAL := System(0, None, [], [])

  // ---------------------------------------------------------------- steps

  predicate Running(s: System, c: nat) {
    c < |s.calls| && s.calls[c].alive
  }

  function Go(s: System, c: nat, phase: Phase): System
    requires c < |s.calls|
  {
    s.(calls := s.calls[c := s.calls[c].(phase := phase)])
  }

  function Stop(s: System, c: nat): System
    requires c < |s.calls|
  {
    s.(calls := s.calls[c := s.calls[c].(alive := false)])
  }

  /** Compare-and-swap by call c, then on to the next phase; a refused swap ends the call. */
  function Swap(s: System, c: nat, state: CloseState, order: Option<OrderId>, next: Option<Phase>): System
    requires c < |s.calls|
  {
    if s.row.Some? && SwapAllowed(s.row.value, s.calls[c].token) then
      var s' := s.(row := Some(Updated(s.row.value, state, order)));
      if next.Some? then Go(s', c, next.value) else Stop(s', c)
    else
      Stop(s, c)
  }

  function DoClaim(w: World, s: System, c: nat): System
    requires c < |s.calls|
  {
    var call := s.calls[c];
    var claim := Claim(s.row, call.owner, call.now, w.ttl, c);
    var s' := s.(row := Some(claim.row));
    if !claim.claimed then Stop(s', c)
    else if claim.row.state == Closed then Stop(s', c)
    else if claim.row.orderId.Some? then Go(s', c, Observing(claim.row.orderId.value))
    else Go(s', c, LookingUp(true))
  }

  function DoPoll(s: System, c: nat): System
    requires c < |s.calls|
  {
    if s.row.None? || Terminal(s.row.value.state) then Stop(s, c)
    else
      var s' := s.(calls := s.calls[c := s.calls[c].(token := s.row.value.claimToken)]);
      if s.row.value.orderId.Some? then Go(s', c, Observing(s.row.value.orderId.value))
      else Go(s', c, LookingUp(false))
  }

  function DoLookup(w: World, s: System, c: nat, mayClose: bool, missed: bool): System
    requires c < |s.calls|
  {
    if missed && w.lookupMisses then if mayClose then Go(s, c, CheckingOrders) else Stop(s, c)
    else if |s.orders| == 1 then Go(s, c, Recovered(0))
    else if |s.orders| == 0 && mayClose then Go(s, c, CheckingOrders)
    else Stop(s, c)
  }

  function DoListOrders(s: System, c: nat, failed: bool, foreignWorking: bool): System
    requires c < |s.calls|
  {
    if failed then Stop(s, c)
    else if foreignWorking || Working in s.orders || Partial in s.orders then
      Go(s, c, Persisting(ReconcileRequired, None))
    else Go(s, c, Pricing)
  }

  /** The row state an observation of a known order leads to. */
  function Judged(status: OrderStatus, flat: bool): CloseState {
    match status
    case Filled => if flat then Closed else ReconcileRequired
    case RejectedAtBroker => Rejected
    case CanceledAtBroker => Rejected
    case Partial => ReconcileRequired
    case Working => Managing
    case Other => ReconcileRequired
  }

  function DoObserve(s: System, c: nat, order: OrderId, own: bool, failed: bool, flat: bool): System
    requires c < |s.calls|
  {
    if failed || order >= |s.orders| then Stop(s, c)
    else if own && (s.orders[order] == Working || s.orders[order] == Other) then Stop(s, c)
    else Go(s, c, Persisting(Judged(s.orders[order], flat), Some(order)))
  }

  function Do(w: World, s: System, a: Action): System {
    match a
    case Advance(ticks) => s.(clock := s.clock + ticks)
    case BeginClose(owner) =>
      s.(calls := s.calls + [Call(true, owner, s.clock, Some(|s.calls|), Claiming)])
    case BeginReconcile(owner) =>
      s.(calls := s.calls + [Call(true, owner, s.clock, None, Polling)])
    case Crash(c) => if Running(s, c) then Stop(s, c) else s
    case ClaimRow(c) =>
      if Running(s, c) && s.calls[c].phase.Claiming? then DoClaim(w, s, c) else s
    case PollRow(c) =>
      if Running(s, c) && s.calls[c].phase.Polling? then DoPoll(s, c) else s
    case Lookup(c, missed) =>
      if Running(s, c) && s.calls[c].phase.LookingUp? then DoLookup(w, s, c, s.calls[c].phase.mayClose, missed) else s
    case RecordRecovered(c) =>
      if Running(s, c) && s.calls[c].phase.Recovered? then
        var found := s.calls[c].phase.found;
        Swap(s, c, Managing, Some(found), Some(Observing(found)))
      else s
    case ListOrders(c, failed, foreignWorking) =>
      if Running(s, c) && s.calls[c].phase.CheckingOrders? then DoListOrders(s, c, failed, foreignWorking) else s
    case Quote(c, ok) =>
      if Running(s, c) && s.calls[c].phase.Pricing? then
        Go(s, c, if ok then Sending else Persisting(Intent, None))
      else s
    case Submit(c) =>
      if Running(s, c) && s.calls[c].phase.Sending? then Go(s, c, Sent(None)) else s
    case Land(c) =>
      // The request was issued, so it may arrive although its sender has stopped.
      if c < |s.calls| && s.calls[c].phase == Sent(None) && s.clock < s.calls[c].now + w.landBy
         && !(w.uniqueIds && s.orders != []) then
        Go(s, c, Sent(Some(|s.orders|))).(orders := s.orders + [Working])
      else s
    case Acknowledge(c) =>
      if Running(s, c) && s.calls[c].phase.Sent? && s.calls[c].phase.landed.Some? then
        Go(s, c, Accepted(s.calls[c].phase.landed.value))
      else s
    case RecordAccepted(c) =>
      if Running(s, c) && s.calls[c].phase.Accepted? then
        var order := s.calls[c].phase.order;
        Swap(s, c, Managing, Some(order), Some(ObservingOwn(order)))
      else s
    case Observe(c, failed, flat) =>
      if Running(s, c) && (s.calls[c].phase.Observing? || s.calls[c].phase.ObservingOwn?) then
        DoObserve(s, c, s.calls[c].phase.order, s.calls[c].phase.ObservingOwn?, failed, flat)
      else s
    case Persist(c) =>
      if Running(s, c) && s.calls[c].phase.Persisting? then
        Swap(s, c, s.calls[c].phase.state, s.calls[c].phase.seen, None)
      else s
    case BrokerReports(order, status) =>
      if order < |s.orders| && s.orders[order] != Filled then s.(orders := s.orders[order := status]) else s
  }

  function Step(w: World): (System, Action) -> System {
    (s, a) => Do(w, s, a)
  }

  function RunFrom(w: World, s: System, script: seq<Action>): System {
    Runs.From(Step(w), s, script)
  }

  /** The state a script reaches from an empty ledger and an empty broker. */
  function Run(w: World, script: seq<Action>): System {
    RunFrom(w, INITIAL, script)
  }

  // ------------------------------------------------------------ invariant

  /** The lookup missed and the submit has not reached the broker: this call may still create an order. */
  predicate MayStillLand(p: Phase) {
    p.CheckingOrders? || p.Pricing? || p.Sending? || p == Sent(None)
  }

  /** The order a phase refers to, when it refers to one. */
  function Mentioned(p: Phase): Option<OrderId> {
    match p
    case Recovered(o) => Some(o)
    case Sent(l) => l
    case Accepted(o) => Some(o)
    case ObservingOwn(o) => Some(o)
    case Observing(o) => Some(o)
    case Persisting(_, o) => o
    case _ => None
  }

  ghost predicate CallOk(w: World, s: System, c: nat)
    requires c < |s.calls|
  {
    var call := s.calls[c];
    && call.now <= s.clock
    && (Mentioned(call.phase).Some? ==> Mentioned(call.phase).value < |s.orders|)
    && (MayStillLand(call.phase) ==> call.token == Some(c))
    && (call.phase.LookingUp? && call.phase.mayClose ==> call.token == Some(c))
    && (call.phase.Claiming? ==> call.token == Some(c))
    && (call.phase.Persisting? && call.phase.seen.None? ==> call.token == Some(c) && call.phase.state != Closed)
    && (call.phase.Persisting? && call.phase.state == Closed ==>
          call.phase.seen.Some? && call.phase.seen.value < |s.orders| && s.orders[call.phase.seen.value] == Filled)
    // Inside its lease, a call between claim and landing holds the row while the broker has no order,
    // and once its lookup has missed the broker indeed has none.
    && ((MayStillLand(call.phase) || call.phase == LookingUp(true)) && s.clock < call.now + w.ttl ==>
          && (MayStillLand(call.phase) ==> s.orders == [])
          && (s.orders == [] ==> Holds(w, s, c)))
  }

  ghost predicate Holds(w: World, s: System, c: nat)
    requires c < |s.calls|
  {
    && s.row.Some?
    && s.row.value.claimToken == Some(c)
    && s.row.value.leaseUntil == Some(s.calls[c].now + w.ttl)
  }

  ghost predicate RowOk(s: System) {
    s.row.Some? ==>
      && (s.row.value.orderId.Some? ==> s.row.value.orderId.value < |s.orders|)
      && (s.row.value.state == Closed ==>
            s.row.value.orderId.Some? && s.row.value.orderId.value < |s.orders|
            && s.orders[s.row.value.orderId.value] == Filled)
  }

  ghost predicate Inv(w: World, s: System) {
    && |s.orders| <= 1
    && RowOk(s)
    && forall c: nat :: c < |s.calls| ==> CallOk(w, s, c)
  }

  lemma {:induction false} ClaimKeepsCall(w: World, s: System, c: nat, d: nat)
    requires Inv(w, s) && c < |s.calls| && s.calls[c].phase == Claiming && d < |s.calls|
    ensures CallOk(w, DoClaim(w, s, c), d)
  {
    assert CallOk(w, s, c) && CallOk(w, s, d);
  }

  lemma {:induction false} ClaimKeepsInv(w: World, s: System, c: nat)
    requires Inv(w, s) && c < |s.calls| && s.calls[c].phase == Claiming
    ensures Inv(w, DoClaim(w, s, c))
  {
    forall d: nat | d < |s.calls| ensures CallOk(w, DoClaim(w, s, c), d) {
      ClaimKeepsCall(w, s, c, d);
    }
  }

  /** A write with no order id comes from the token's owner; one with an order id knows the broker has it. */
  lemma {:induction false} WriteKeepsRow(w: World, s: System, c: nat, state: CloseState, order: Option<OrderId>)
    requires Inv(w, s) && c < |s.calls| && s.row.Some? && SwapAllowed(s.row.value, s.calls[c].token)
    requires order.Some? ==> order.value < |s.orders|
    requires order.None? ==> s.calls[c].phase.Persisting? && s.calls[c].phase.seen.None? && state != Closed
    requires state == Closed ==> order.Some? && s.orders[order.value] == Filled
    ensures Inv(w, s.(row := Some(Updated(s.row.value, state, order))))
  {
    var s' := s.(row := Some(Updated(s.row.value, state, order)));
    assert CallOk(w, s, c);
    forall d: nat | d < |s.calls| ensures CallOk(w, s', d) {
      assert CallOk(w, s, d);
    }
  }

  lemma {:induction false} SwapKeepsInv(
    w: World, s: System, c: nat, state: CloseState, order: Option<OrderId>, next: Option<Phase>)
    requires Inv(w, s) && c < |s.calls|
    requires order.Some? ==> order.value < |s.orders|
    requires order.None? ==> s.calls[c].phase.Persisting? && s.calls[c].phase.seen.None? && state != Closed
    requires state == Closed ==> order.Some? && s.orders[order.value] == Filled
    requires next.Some? ==> order.Some? && next.value in {Observing(order.value), ObservingOwn(order.value)}
    ensures Inv(w, Swap(s, c, state, order, next))
  {
    var s' := Swap(s, c, state, order, next);
    var mid := s.(row := s'.row);
    if s.row.Some? && SwapAllowed(s.row.value, s.calls[c].token) {
      WriteKeepsRow(w, s, c, state, order);
    }
    assert CallOk(w, mid, c);
    MoveKeepsInv(w, mid, s', c);
  }

  lemma {:induction false} LandKeepsInv(w: World, s: System, c: nat)
    requires Sound(w) && Inv(w, s)
    ensures Inv(w, Do(w, s, Land(c)))
  {
    assert c < |s.calls| ==> CallOk(w, s, c);
    forall d: nat | d < |s.calls| ensures CallOk(w, Do(w, s, Land(c)), d) {
      assert CallOk(w, s, d);
    }
  }

  /** Moves that touch neither the row nor the broker's orders. */
  lemma {:induction false} MoveKeepsInv(w: World, s: System, s': System, c: nat)
    requires Inv(w, s) && c < |s.calls| == |s'.calls|
    requires s' == s.(calls := s'.calls) && s'.calls == s.calls[c := s'.calls[c]]
    requires CallOk(w, s', c)
    ensures Inv(w, s')
  {
    forall d: nat | d < |s'.calls| ensures CallOk(w, s', d) {
      assert CallOk(w, s, d);
    }
  }

  lemma {:induction false} WorldKeepsInv(w: World, s: System, a: Action)
    requires Inv(w, s)
    requires a.Advance? || a.BeginClose? || a.BeginReconcile? || a.BrokerReports?
    ensures Inv(w, Do(w, s, a))
  {
    var s' := Do(w, s, a);
    forall c: nat | c < |s'.calls| ensures CallOk(w, s', c) {
      if c < |s.calls| {
        assert CallOk(w, s, c);
      }
    }
  }

  predicate OwnMove(a: Action) {
    || a.Crash? || a.PollRow? || a.Lookup? || a.ListOrders? || a.Quote?
    || a.Submit? || a.Acknowledge? || a.Observe?
  }

  lemma {:induction false} OwnMoveKeepsCall(w: World, s: System, a: Action)
    requires Sound(w) && Inv(w, s) && OwnMove(a) && a.c < |s.calls|
    ensures CallOk(w, Do(w, s, a), a.c)
  {
    assert CallOk(w, s, a.c);
  }

  lemma {:induction false} OwnMoveKeepsInv(w: World, s: System, a: Action)
    requires Sound(w) && Inv(w, s) && OwnMove(a)
    ensures Inv(w, Do(w, s, a))
  {
    if Do(w, s, a) != s {
      OwnMoveKeepsCall(w, s, a);
      MoveKeepsInv(w, s, Do(w, s, a), a.c);
    }
  }

  lemma {:induction false} WriteKeepsInv(w: World, s: System, a: Action)
    requires Inv(w, s) && (a.RecordRecovered? || a.RecordAccepted? || a.Persist?)
    ensures Inv(w, Do(w, s, a))
  {
    if Do(w, s, a) != s {
      var c := a.c;
      var phase := s.calls[c].phase;
      assert CallOk(w, s, c);
      match a
      case RecordRecovered(_) => SwapKeepsInv(w, s, c, Managing, Some(phase.found), Some(Observing(phase.found)));
      case RecordAccepted(_) => SwapKeepsInv(w, s, c, Managing, Some(phase.order), Some(ObservingOwn(phase.order)));
      case Persist(_) => SwapKeepsInv(w, s, c, phase.state, phase.seen, None);
    }
  }

  lemma {:induction false} StepKeepsInv(w: World, s: System, a: Action)
    requires Sound(w) && Inv(w, s)
    ensures Inv(w, Do(w, s, a))
  {
    if a.Advance? || a.BeginClose? || a.BeginReconcile? || a.BrokerReports? {
      WorldKeepsInv(w, s, a);
    } else if a.ClaimRow? {
      if Running(s, a.c) && s.calls[a.c].phase.Claiming? { ClaimKeepsInv(w, s, a.c); }
    } else if a.Land? {
      LandKeepsInv(w, s, a.c);
    } else if OwnMove(a) {
      OwnMoveKeepsInv(w, s, a);
    } else {
      WriteKeepsInv(w, s, a);
    }
  }

  lemma {:induction false} RunKeepsInv(w: World, s: System, script: seq<Action>)
    requires Sound(w) && Inv(w, s)
    ensures Inv(w, RunFrom(w, s, script))
  {
    forall t, a | Inv(w, t) ensures Inv(w, Step(w)(t, a)) {
      StepKeepsInv(w, t, a);
    }
    Runs.Keeps(Step(w), t => Inv(w, t), s, script);
  }

  // ------------------------------------------------------------- theorems

  /** In a sound world no script makes the broker hold two close orders. */
  lemma {:induction false} AtMostOneCloseOrder(w: World, script: seq<Action>)
    requires Sound(w)
    ensures |Run(w, script).orders| <= 1
  {
    RunKeepsInv(w, INITIAL, script);
  }

  /** A call that does everything up to issuing its submit. */
  function StallScript(owner: Owner, c: nat, missed: bool): seq<Action> {
    [BeginClose(owner), ClaimRow(c), Lookup(c, missed), ListOrders(c, false, false), Quote(c, true), Submit(c)]
  }

  /** The row is free for a call that starts now, and no open order is in its way. */
  ghost predicate Claimable(s: System) {
    && (s.row.Some? ==>
          !Terminal(s.row.value.state) && s.row.value.orderId.None? && LeaseExpired(s.row.value, s.clock))
    && Working !in s.orders && Partial !in s.orders
  }

  lemma {:induction false} StallReaches(w: World, s: System, owner: Owner, missed: bool)
    requires Claimable(s) && (s.orders == [] || (missed && w.lookupMisses))
    ensures
      var c := |s.calls|;
      var s' := RunFrom(w, s, StallScript(owner, c, missed));
      && s'.clock == s.clock && s'.orders == s.orders
      && s'.calls == s.calls + [Call(true, owner, s.clock, Some(c), Sent(None))]
      && s'.row.Some? && !Terminal(s'.row.value.state) && s'.row.value.orderId.None?
      && s'.row.value.leaseUntil == Some(s.clock + w.ttl)
  {
    var c := |s.calls|;
    var script := StallScript(owner, c, missed);
    StallClaims(w, s, owner);
    StallSubmits(w, RunFrom(w, s, [BeginClose(owner), ClaimRow(c)]), c, missed);
    Runs.Splits(Step(w), s, script[..2], script[2..]);
    assert script[..2] == [BeginClose(owner), ClaimRow(c)] && script[..2] + script[2..] == script;
    assert script[2..] == [Lookup(c, missed), ListOrders(c, false, false), Quote(c, true), Submit(c)];
  }

  lemma {:induction false} StallClaims(w: World, s: System, owner: Owner)
    requires Claimable(s)
    ensures
      var c := |s.calls|;
      var s' := RunFrom(w, s, [BeginClose(owner), ClaimRow(c)]);
      && s'.clock == s.clock && s'.orders == s.orders
      && s'.calls == s.calls + [Call(true, owner, s.clock, Some(c), LookingUp(true))]
      && s'.row.Some? && !Terminal(s'.row.value.state) && s'.row.value.orderId.None?
      && s'.row.value.leaseUntil == Some(s.clock + w.ttl)
  {
    var c := |s.calls|;
    Runs.Splits(Step(w), s, [BeginClose(owner)], [ClaimRow(c)]);
    assert [BeginClose(owner)] + [ClaimRow(c)] == [BeginClose(owner), ClaimRow(c)];
  }

  lemma {:induction false} StallSubmits(w: World, s: System, c: nat, missed: bool)
    requires Running(s, c) && s.calls[c].phase == LookingUp(true)
    requires s.orders == [] || (missed && w.lookupMisses)
    requires Working !in s.orders && Partial !in s.orders
    ensures
      RunFrom(w, s, [Lookup(c, missed), ListOrders(c, false, false), Quote(c, true), Submit(c)])
      == Go(s, c, Sent(None))
  {
    var script := [Lookup(c, missed), ListOrders(c, false, false), Quote(c, true), Submit(c)];
    assert script[..0] == [] && script[..4] == script;
    Runs.Extends(Step(w), s, script, 0);
    assert RunFrom(w, s, script[..1]) == Go(s, c, CheckingOrders);
    Runs.Extends(Step(w), s, script, 1);
    assert RunFrom(w, s, script[..2]) == Go(s, c, Pricing);
    Runs.Extends(Step(w), s, script, 2);
    assert RunFrom(w, s, script[..3]) == Go(s, c, Sending);
    Runs.Extends(Step(w), s, script, 3);
  }

  /** The first call stalls with its submit issued; a second one claims at lease expiry; then both requests land. */
  function LateScript(w: World): seq<Action> {
    StallScript(1, 0, false) + ([Advance(w.ttl)] + (StallScript(2, 1, false) + [Land(0), Land(1)]))
  }

  lemma {:induction false} LateLandingDuplicates(w: World)
    requires w.ttl < w.landBy && !w.uniqueIds
    ensures |Run(w, LateScript(w)).orders| == 2
  {
    var s1 := RunFrom(w, INITIAL, StallScript(1, 0, false));
    StallReaches(w, INITIAL, 1, false);
    var s2 := RunFrom(w, s1, [Advance(w.ttl)]);
    Runs.One(Step(w), s1, Advance(w.ttl));
    StallReaches(w, s2, 2, false);
    LandBoth(w, RunFrom(w, s2, StallScript(2, 1, false)));
    Runs.SplitsInFour(Step(w), INITIAL,
      StallScript(1, 0, false), [Advance(w.ttl)], StallScript(2, 1, false), [Land(0), Land(1)]);
  }

  lemma {:induction false} LandBoth(w: World, s: System)
    requires s.orders == [] && |s.calls| == 2 && !w.uniqueIds
    requires forall c :: 0 <= c < 2 ==> s.calls[c].phase == Sent(None) && s.clock < s.calls[c].now + w.landBy
    ensures |RunFrom(w, s, [Land(0), Land(1)]).orders| == 2
  {
  }

  /** The first order lands and fills, its sender stops; a second call's lookup misses it. */
  function MissScript(w: World): seq<Action> {
    StallScript(1, 0, false)
    + ([Land(0), BrokerReports(0, Filled), Advance(w.ttl)] + (StallScript(2, 1, true) + [Land(1)]))
  }

  lemma {:induction false} MissedLookupDuplicates(w: World)
    requires w.lookupMisses && 0 < w.landBy && !w.uniqueIds
    ensures |Run(w, MissScript(w)).orders| == 2
  {
    var s1 := RunFrom(w, INITIAL, StallScript(1, 0, false));
    StallReaches(w, INITIAL, 1, false);
    var middle := [Land(0), BrokerReports(0, Filled), Advance(w.ttl)];
    var s2 := RunFrom(w, s1, middle);
    LandAndFill(w, s1);
    StallReaches(w, s2, 2, true);
    LandOne(w, RunFrom(w, s2, StallScript(2, 1, true)), 1);
    Runs.SplitsInFour(Step(w), INITIAL, StallScript(1, 0, false), middle, StallScript(2, 1, true), [Land(1)]);
  }

  lemma {:induction false} LandOne(w: World, s: System, c: nat)
    requires c < |s.calls| && s.calls[c].phase == Sent(None) && s.clock < s.calls[c].now + w.landBy
    requires !w.uniqueIds
    ensures |RunFrom(w, s, [Land(c)]).orders| == |s.orders| + 1
  {
    Runs.One(Step(w), s, Land(c));
  }

  lemma {:induction false} LandAndFill(w: World, s: System)
    requires s.orders == [] && |s.calls| == 1 && s.calls[0].phase == Sent(None)
    requires s.clock == s.calls[0].now && 0 < w.landBy
    ensures
      var s' := RunFrom(w, s, [Land(0), BrokerReports(0, Filled), Advance(w.ttl)]);
      s'.orders == [Filled] && |s'.calls| == 1 && s'.row == s.row && s'.clock == s.clock + w.ttl
  {
    var script := [Land(0), BrokerReports(0, Filled), Advance(w.ttl)];
    assert script[..0] == [] && script[..3] == script;
    Runs.Extends(Step(w), s, script, 0);
    Runs.Extends(Step(w), s, script, 1);
    Runs.Extends(Step(w), s, script, 2);
  }

  predicate OneOrder(s: System) {
    |s.orders| <= 1
  }

  /** A broker that refuses a repeated client id never holds two close orders, whatever else goes wrong. */
  lemma {:induction false} UniqueIdsSuffice(w: World, script: seq<Action>)
    requires w.uniqueIds
    ensures |Run(w, script).orders| <= 1
  {
    forall s, a | OneOrder(s) ensures OneOrder(Step(w)(s, a)) {
    }
    Runs.Keeps(Step(w), OneOrder, INITIAL, script);
  }

  /**
   The exact condition: at most one close order in every run, if and only if
   the world is sound or the broker refuses a repeated client id.
   */
  lemma {:induction false} AtMostOneCloseOrderIff(w: World)
    requires 0 < w.landBy
    ensures (forall script :: |Run(w, script).orders| <= 1) <==> Sound(w) || w.uniqueIds
  {
    if Sound(w) || w.uniqueIds {
      forall script ensures |Run(w, script).orders| <= 1 {
        if w.uniqueIds {
          UniqueIdsSuffice(w, script);
        } else {
          AtMostOneCloseOrder(w, script);
        }
      }
    } else if w.lookupMisses {
      MissedLookupDuplicates(w);
      assert |Run(w, MissScript(w)).orders| == 2;
    } else {
      LateLandingDuplicates(w);
      assert |Run(w, LateScript(w)).orders| == 2;
    }
  }

  /**
   Once an order id is in the row no later script clears or changes it, and the broker gets no
   further close order.
   */
  lemma {:induction false} RecordedOrderIsFinal(w: World, script: seq<Action>, more: seq<Action>)
    requires Sound(w)
    ensures
      var s := Run(w, script);
      var s' := Run(w, script + more);
      s.row.Some? && s.row.value.orderId.Some? ==>
        && s'.row.Some? && s'.row.value.orderId == s.row.value.orderId
        && |s'.orders| == |s.orders| == 1
  {
    RunKeepsInv(w, INITIAL, script);
    Runs.Splits(Step(w), INITIAL, script, more);
    var s := Run(w, script);
    if s.row.Some? && s.row.value.orderId.Some? {
      FinalFrom(w, s, more);
    }
  }

  lemma {:induction false} FinalStep(w: World, s: System, a: Action)
    requires Sound(w) && Inv(w, s) && s.row.Some? && s.row.value.orderId.Some?
    ensures
      var s' := Do(w, s, a);
      s'.row.Some? && s'.row.value.orderId == s.row.value.orderId && |s'.orders| == |s.orders| == 1
  {
    assert Actor(a).Some? && Actor(a).value < |s.calls| ==> CallOk(w, s, Actor(a).value);
  }

  lemma {:induction false} FinalFrom(w: World, s: System, script: seq<Action>)
    requires Sound(w) && Inv(w, s) && s.row.Some? && s.row.value.orderId.Some?
    ensures
      var s' := RunFrom(w, s, script);
      && s'.row.Some? && s'.row.value.orderId == s.row.value.orderId
      && |s'.orders| == |s.orders| == 1
    decreases |script|
  {
    if script != [] {
      StepKeepsInv(w, s, script[0]);
      FinalStep(w, s, script[0]);
      FinalFrom(w, Do(w, s, script[0]), script[1..]);
    }
  }

  /** The call whose own step an action is, if it is one. */
  function Actor(a: Action): Option<nat> {
    if a.Advance? || a.BeginClose? || a.BeginReconcile? || a.BrokerReports? then None else Some(a.c)
  }

  /** Phases that lead to a submit, or are past one. */
  predicate Submits(p: Phase) {
    MayStillLand(p) || p.Sent? || p.Accepted? || p.ObservingOwn?
  }

  /** A call that starts once an order id is recorded never submits. */
  lemma {:induction false} LaterCallsOnlyObserve(w: World, script: seq<Action>, more: seq<Action>, c: nat)
    requires Sound(w)
    requires Run(w, script).row.Some? && Run(w, script).row.value.orderId.Some?
    requires |Run(w, script).calls| <= c < |Run(w, script + more).calls|
    ensures !Submits(Run(w, script + more).calls[c].phase)
  {
    RunKeepsInv(w, INITIAL, script);
    Runs.Splits(Step(w), INITIAL, script, more);
    ObserversFrom(w, Run(w, script), more, c);
  }

  lemma {:induction false} ObserverStep(w: World, s: System, a: Action, c: nat)
    requires s.row.Some? && s.row.value.orderId.Some?
    requires c < |s.calls| ==> !Submits(s.calls[c].phase) && s.calls[c].phase != LookingUp(true)
    ensures
      var s' := Do(w, s, a);
      c < |s'.calls| ==> !Submits(s'.calls[c].phase) && s'.calls[c].phase != LookingUp(true)
  {
  }

  lemma {:induction false} ObserversFrom(w: World, s: System, script: seq<Action>, c: nat)
    requires Sound(w) && Inv(w, s) && s.row.Some? && s.row.value.orderId.Some?
    requires c < |s.calls| ==>
      !Submits(s.calls[c].phase) && s.calls[c].phase != LookingUp(true)
    requires c < |RunFrom(w, s, script).calls|
    ensures !Submits(RunFrom(w, s, script).calls[c].phase)
    decreases |script|
  {
    if script != [] {
      StepKeepsInv(w, s, script[0]);
      FinalStep(w, s, script[0]);
      ObserverStep(w, s, script[0], c);
      ObserversFrom(w, Do(w, s, script[0]), script[1..], c);
    }
  }

  /** A row that says CLOSED names an order the broker has filled. */
  lemma {:induction false} ClosedMeansFilled(w: World, script: seq<Action>)
    requires Sound(w)
    ensures
      var s := Run(w, script);
      s.row.Some? && s.row.value.state == Closed ==>
        && s.row.value.orderId.Some?
        && s.row.value.orderId.value < |s.orders|
        && s.orders[s.row.value.orderId.value] == Filled
  {
    RunKeepsInv(w, INITIAL, script);
  }
}
