/**
 Entering a position with several workers, any of which may stop between two
 calls.  One certificate is followed; as in CloseProtocol, a run is a script
 of atomic actions and an action whose guard fails changes nothing.

 The entry path has no client-id lookup: what keeps a second order from being
 live beside the first is the preflight, which reads the account's positions
 and then its open orders in two separate broker calls, together with the
 lease.
 */
module EntryProtocol {
  import opened Options
  import Runs
  import opened EntryIntents

  /**
   What the world allows: the lease length, how long after its start a call's
   submit may still reach the broker, whether an order may fill while some
   preflight stands between its two reads, whether an outcome that names no
   order may be recorded at any time (which releases the lease without a
   token) or only when nothing is pending, and whether the broker refuses a
   second order with a client id it has seen: all entries of one certificate
   carry the same one.
   */
  datatype World = World(ttl: nat, landBy: nat, tornReads: bool, blindRecords: bool, uniqueIds: bool)

  /**
   One submitted entry with its replacements: may it still fill, does it hold a
   position, and when did the sender's lease end.
   */
  datatype Chain = Chain(open: bool, held: bool, until: int)

  datatype Phase =
    | Starting
    | PositionsRead(sawPosition: bool)
    | Ready                                       // both reads were empty and every gate passed
    | Sending                                     // claimed with no order id on record
    | Sent(landed: Option<OrderId>)
    | Accepted(order: OrderId)
    | Watching                                    // adopted or recorded chain: observe, never submit

  datatype Call = Call(alive: bool, owner: Owner, now: int, phase: Phase)

  /** Calls are numbered in the order they start; a call's number is its fresh claim token. */
  datatype System = System(clock: int, row: Option<EntryRow>, calls: seq<Call>, chains: seq<Chain>)

  datatype Action =
    | Advance(ticks: nat)
    | Begin(owner: Owner)
    | Crash(c: nat)
    | ReadPositions(c: nat, foreign: bool)
    | ReadOrders(c: nat, foreign: bool)
    | ClaimRow(c: nat)
    | Submit(c: nat)
    | Land(c: nat)
    | Acknowledge(c: nat)
    | RecordAccepted(c: nat)
    | RecordExecution(outcome: EntryState, ids: seq<OrderId>)
    | Fill(k: OrderId, complete: bool)
    | Kill(k: OrderId)                            // canceled, rejected or expired
    | Flatten(k: OrderId)                         // its position was closed

  const INITIAL := System(0, None, [], [])

  predicate Live(chain: Chain) {
    chain.open || chain.held
  }

  /** Two submitted entries are never live together. */
  ghost predicate Exclusive(s: System) {
    forall i, j :: 0 <= i < |s.chains| && 0 <= j < |s.chains| && Live(s.chains[i]) && Live(s.chains[j]) ==> i == j
  }

  /** Submits land inside the lease, no fill tears a preflight, and blind records wait until nothing is pending. */
  predicate Sound(w: World) {
    w.landBy <= w.ttl && !w.tornReads && !w.blindRecords
  }

  // ---------------------------------------------------------------- steps

  predicate Running(s: System, c: nat) {
    c < |s.calls| && s.calls[c].alive
  }

  function Go(s: System, c: nat, phase: Phase): System
    requires c < |s.calls|
  {
    s.(calls := s.calls[c := s.calls[c].(phase := phase)])
  }

  function Stop(s: System, c: nat): System
    requires c < |s.calls|
  {
    s.(calls := s.calls[c := s.calls[c].(alive := false)])
  }

  function DoClaim(w: World, s: System, c: nat): System
    requires c < |s.calls|
  {
    var call := s.calls[c];
    var claim := Claim(s.row, call.owner, call.now, w.ttl, c);
    var s' := s.(row := Some(claim.row));
    if !claim.claimed then Stop(s', c)
    else if claim.row.orderIds != [] then Go(s', c, Watching)
    else Go(s', c, Sending)
  }

  function DoRecordAccepted(s: System, c: nat, order: OrderId): System
    requires c < |s.calls|
  {
    if s.row.Some? && SwapAllowed(s.row.value, Some(c)) then
      Go(s.(row := Some(Released(s.row.value, Submitted, [order]))), c, Watching)
    else Stop(s, c)
  }

  /** An outcome is blind if it leaves an active intent with no order id. */
  predicate Blind(row: EntryRow, outcome: EntryState, ids: seq<OrderId>) {
    row.orderIds == [] && ids == [] && !Terminal(outcome)
  }

  predicate MayStillLand(p: Phase) {
    p.Sending? || p == Sent(None)
  }

  /** This call may still put an order at the broker before its lease ends. */
  predicate InTime(w: World, s: System, c: nat)
    requires c < |s.calls|
  {
    MayStillLand(s.calls[c].phase) && s.clock < s.calls[c].now + w.ttl
  }

  /** A call past its preflight that does not know of a live order: it appeared after the reads. */
  predicate Outdated(s: System, c: nat)
    requires c < |s.calls|
  {
    s.calls[c].phase == Ready && exists k :: 0 <= k < |s.chains| && Live(s.chains[k])
  }

  /** What a released lease would let slip: a submit still in time, or a preflight that an order has outdated. */
  predicate Pending(w: World, s: System) {
    exists c :: 0 <= c < |s.calls| && (InTime(w, s, c) || Outdated(s, c))
  }

  predicate BetweenReads(call: Call) {
    call.alive && call.phase.PositionsRead?
  }

  function Do(w: World, s: System, a: Action): System {
    match a
    case Advance(ticks) => s.(clock := s.clock + ticks)
    case Begin(owner) => s.(calls := s.calls + [Call(true, owner, s.clock, Starting)])
    case Crash(c) => if Running(s, c) then Stop(s, c) else s
    case ReadPositions(c, foreign) =>
      if Running(s, c) && s.calls[c].phase.Starting? then
        Go(s, c, PositionsRead(foreign || exists k :: 0 <= k < |s.chains| && s.chains[k].held))
      else s
    case ReadOrders(c, foreign) =>
      if Running(s, c) && s.calls[c].phase.PositionsRead? then
        if s.calls[c].phase.sawPosition || foreign || exists k :: 0 <= k < |s.chains| && s.chains[k].open then
          Stop(s, c)
        else Go(s, c, Ready)
      else s
    case ClaimRow(c) => if Running(s, c) && s.calls[c].phase.Ready? then DoClaim(w, s, c) else s
    case Submit(c) => if Running(s, c) && s.calls[c].phase.Sending? then Go(s, c, Sent(None)) else s
    case Land(c) =>
      // The request was issued, so it may arrive although its sender has stopped.
      if c < |s.calls| && s.calls[c].phase == Sent(None) && s.clock < s.calls[c].now + w.landBy
         && !(w.uniqueIds && s.chains != []) then
        Go(s, c, Sent(Some(|s.chains|))).(chains := s.chains + [Chain(true, false, s.calls[c].now + w.ttl)])
      else s
    case Acknowledge(c) =>
      if Running(s, c) && s.calls[c].phase.Sent? && s.calls[c].phase.landed.Some? then
        Go(s, c, Accepted(s.calls[c].phase.landed.value))
      else s
    case RecordAccepted(c) =>
      if Running(s, c) && s.calls[c].phase.Accepted? then DoRecordAccepted(s, c, s.calls[c].phase.order) else s
    case RecordExecution(outcome, ids) =>
      if s.row.Some? && outcome != Intent && (forall k :: k in ids ==> k < |s.chains|)
         && (Blind(s.row.value, outcome, ids) ==> w.blindRecords || !Pending(w, s)) then
        s.(row := Some(Released(s.row.value, outcome, ids)))
      else s
    case Fill(k, complete) =>
      if k < |s.chains| && s.chains[k].open
         && (w.tornReads || forall c :: 0 <= c < |s.calls| ==> !BetweenReads(s.calls[c])) then
        s.(chains := s.chains[k := s.chains[k].(open := !complete, held := true)])
      else s
    case Kill(k) => if k < |s.chains| then s.(chains := s.chains[k := s.chains[k].(open := false)]) else s
    case Flatten(k) => if k < |s.chains| then s.(chains := s.chains[k := s.chains[k].(held := false)]) else s
  }

  function Step(w: World): (System, Action) -> System {
    (s, a) => Do(w, s, a)
  }

  function RunFrom(w: World, s: System, script: seq<Action>): System {
    Runs.From(Step(w), s, script)
  }

  /** The state a script reaches from an empty ledger and an empty broker. */
  function Run(w: World, script: seq<Action>): System {
    RunFrom(w, INITIAL, script)
  }

  // ------------------------------------------------------------ invariant

  /** No later claim can start a submit: an order id is on record, or the intent is over. */
  predicate Sealed(row: EntryRow) {
    row.orderIds != [] || Terminal(row.state)
  }

  ghost predicate AllDead(s: System) {
    forall k :: 0 <= k < |s.chains| ==> !Live(s.chains[k])
  }

  predicate Unclaimed(p: Phase) {
    p.Starting? || p.PositionsRead? || p.Ready?
  }

  ghost predicate CallOk(w: World, s: System, c: nat)
    requires c < |s.calls|
  {
    var call := s.calls[c];
    && call.now <= s.clock
    && (Unclaimed(call.phase) && s.row.Some? ==> s.row.value.claimToken != Some(c))
    && (BetweenReads(call) && !call.phase.sawPosition ==> forall k :: 0 <= k < |s.chains| ==> !s.chains[k].held)
    // An order that was not yet seen dead came from a lease that outlasts this call's start.
    && (call.phase.Ready? ==> forall k :: 0 <= k < |s.chains| ==> !Live(s.chains[k]) || call.now < s.chains[k].until)
    && (call.phase.Accepted? ==> call.phase.order < |s.chains|)
    && (call.phase.Sent? && call.phase.landed.Some? ==> call.phase.landed.value < |s.chains|)
    && (InTime(w, s, c) ==>
          && AllDead(s)
          && s.row.Some?
          && (Sealed(s.row.value)
              || (s.row.value.claimToken == Some(c) && s.row.value.leaseUntil == Some(call.now + w.ttl))))
  }

  /**
   Every order at the broker is on record, or its sender's lease still stands
   in the row, or no call is past a preflight that missed it.
   */
  ghost predicate ChainOk(s: System, k: nat)
    requires k < |s.chains|
  {
    && s.row.Some?
    && (|| Sealed(s.row.value)
        || (s.row.value.leaseUntil.Some? && s.chains[k].until <= s.row.value.leaseUntil.value)
        || KnownToReady(s, k))
  }

  ghost predicate KnownToReady(s: System, k: nat)
    requires k < |s.chains|
  {
    forall c: nat :: c < |s.calls| && s.calls[c].phase == Ready ==> !Live(s.chains[k])
  }

  ghost predicate Inv(w: World, s: System) {
    && Exclusive(s)
    && (s.row.Some? && s.row.value.claimToken.Some? ==> s.row.value.claimToken.value < |s.calls|)
    && (forall c: nat :: c < |s.calls| ==> CallOk(w, s, c))
    && (forall k: nat :: k < |s.chains| ==> ChainOk(s, k))
    && (forall c: nat, d: nat :: c < |s.calls| && d < |s.calls| && InTime(w, s, c) && InTime(w, s, d) ==> c == d)
  }

  /** Winning a claim with no order on record proves every earlier order dead and every other call out of time. */
  lemma {:induction false} ClaimForSubmitIsAlone(w: World, s: System, c: nat)
    requires Inv(w, s) && c < |s.calls| && s.calls[c].phase == Ready
    requires DoClaim(w, s, c).calls[c].phase == Sending
    ensures AllDead(s)
    ensures forall d: nat :: d < |s.calls| ==> !InTime(w, s, d)
  {
    assert CallOk(w, s, c);
    forall k: nat | k < |s.chains| ensures !Live(s.chains[k]) {
      assert ChainOk(s, k);
    }
    forall d: nat | d < |s.calls| ensures !InTime(w, s, d) {
      assert CallOk(w, s, d);
    }
  }

  lemma {:induction false} ClaimKeepsInv(w: World, s: System, c: nat)
    requires Inv(w, s) && c < |s.calls| && s.calls[c].phase == Ready
    ensures Inv(w, DoClaim(w, s, c))
  {
    var s' := DoClaim(w, s, c);
    assert CallOk(w, s, c);
    if s'.calls[c].phase == Sending {
      ClaimForSubmitIsAlone(w, s, c);
    }
    ClaimKeepsChains(w, s, c);
    ClaimKeepsCalls(w, s, c);
    forall d: nat, e: nat | d < |s.calls| && e < |s.calls| && InTime(w, s', d) && InTime(w, s', e) ensures d == e {
      assert (d != c ==> InTime(w, s, d)) && (e != c ==> InTime(w, s, e));
    }
  }

  lemma {:induction false} ClaimKeepsCalls(w: World, s: System, c: nat)
    requires Inv(w, s) && c < |s.calls| && s.calls[c].phase == Ready
    ensures forall d: nat :: d < |s.calls| ==> CallOk(w, DoClaim(w, s, c), d)
  {
    var s' := DoClaim(w, s, c);
    assert CallOk(w, s, c);
    if s'.calls[c].phase == Sending {
      ClaimForSubmitIsAlone(w, s, c);
    }
    forall d: nat | d < |s.calls| ensures CallOk(w, s', d) {
      assert CallOk(w, s, d);
      assert d != c && InTime(w, s', d) ==> InTime(w, s, d);
    }
  }

  lemma {:induction false} ClaimKeepsChains(w: World, s: System, c: nat)
    requires Inv(w, s) && c < |s.calls| && s.calls[c].phase == Ready
    ensures forall k: nat :: k < |s.chains| ==> ChainOk(DoClaim(w, s, c), k)
  {
    assert CallOk(w, s, c);
    forall k: nat | k < |s.chains| ensures ChainOk(DoClaim(w, s, c), k) {
      assert ChainOk(s, k);
    }
  }

  lemma {:induction false} LandKeepsInv(w: World, s: System, c: nat)
    requires Sound(w) && Inv(w, s)
    ensures Inv(w, Do(w, s, Land(c)))
  {
    var s' := Do(w, s, Land(c));
    if s' != s {
      assert CallOk(w, s, c) && InTime(w, s, c);
      forall d: nat | d < |s.calls| ensures CallOk(w, s', d) {
        assert CallOk(w, s, d);
        assert InTime(w, s', d) ==> InTime(w, s, d) && d != c;
      }
      forall d: nat | d < |s.calls| ensures !InTime(w, s', d) {
        assert InTime(w, s', d) ==> InTime(w, s, d) && d != c;
      }
      forall k: nat | k < |s'.chains| ensures ChainOk(s', k) {
        assert k < |s.chains| ==> ChainOk(s, k);
      }
    }
  }

  /** Writes that release the lease leave the row sealed. */
  lemma {:induction false} ReleaseKeepsInv(w: World, s: System, s': System, state: EntryState, ids: seq<OrderId>)
    requires Inv(w, s) && s.row.Some?
    requires s' == s.(row := Some(Released(s.row.value, state, ids)))
    requires Sealed(s'.row.value)
    ensures Inv(w, s')
  {
    forall d: nat | d < |s.calls| ensures CallOk(w, s', d) {
      assert CallOk(w, s, d);
    }
    forall k: nat | k < |s.chains| ensures ChainOk(s', k) {
      assert ChainOk(s, k);
    }
    forall c: nat, d: nat | c < |s.calls| && d < |s.calls| && InTime(w, s', c) && InTime(w, s', d) ensures c == d {
      assert InTime(w, s, c) && InTime(w, s, d);
    }
  }

  /** A blind record, made when nothing is pending, leaves no call that does not know of every live order. */
  lemma {:induction false} BlindKeepsInv(w: World, s: System, s': System, state: EntryState)
    requires Inv(w, s) && s.row.Some? && !Pending(w, s)
    requires s' == s.(row := Some(Released(s.row.value, state, [])))
    ensures Inv(w, s')
  {
    forall d: nat | d < |s.calls| ensures CallOk(w, s', d) && !InTime(w, s', d) {
      assert CallOk(w, s, d);
      assert !InTime(w, s, d);
    }
    forall k: nat | k < |s.chains| ensures ChainOk(s', k) {
      forall c: nat | c < |s.calls| && s.calls[c].phase == Ready ensures !Live(s.chains[k]) {
        assert !Outdated(s, c);
      }
    }
  }

  /** Moves of one call that touch neither the row nor the broker. */
  lemma {:induction false} MoveKeepsInv(w: World, s: System, s': System, c: nat)
    requires Inv(w, s) && c < |s.calls| == |s'.calls|
    requires s' == s.(calls := s'.calls) && s'.calls == s.calls[c := s'.calls[c]]
    requires CallOk(w, s', c)
    requires InTime(w, s', c) ==> InTime(w, s, c)
    requires s'.calls[c].phase == Ready && s.calls[c].phase != Ready ==> AllDead(s)
    ensures Inv(w, s')
  {
    forall d: nat | d < |s'.calls| ensures CallOk(w, s', d) {
      assert CallOk(w, s, d);
    }
    forall k: nat | k < |s.chains| ensures ChainOk(s', k) {
      assert ChainOk(s, k);
    }
    forall d: nat, e: nat | d < |s.calls| && e < |s.calls| && InTime(w, s', d) && InTime(w, s', e) ensures d == e {
      assert InTime(w, s, d) && InTime(w, s, e);
    }
  }

  lemma {:induction false} WorldKeepsCalls(w: World, s: System, a: Action)
    requires Sound(w) && Inv(w, s)
    requires a.Advance? || a.Begin? || a.Fill? || a.Kill? || a.Flatten?
    ensures forall c: nat :: c < |Do(w, s, a).calls| ==> CallOk(w, Do(w, s, a), c)
  {
    forall c: nat | c < |Do(w, s, a).calls| ensures CallOk(w, Do(w, s, a), c) {
      assert c < |s.calls| ==> CallOk(w, s, c);
    }
  }

  lemma {:induction false} WorldKeepsInv(w: World, s: System, a: Action)
    requires Sound(w) && Inv(w, s)
    requires a.Advance? || a.Begin? || a.Fill? || a.Kill? || a.Flatten?
    ensures Inv(w, Do(w, s, a))
  {
    WorldKeepsCalls(w, s, a);
    var s' := Do(w, s, a);
    forall k: nat | k < |s'.chains| ensures ChainOk(s', k) {
      assert ChainOk(s, k);
    }
    forall d: nat, e: nat | d < |s'.calls| && e < |s'.calls| && InTime(w, s', d) && InTime(w, s', e) ensures d == e {
      assert InTime(w, s, d) && InTime(w, s, e);
    }
  }

  lemma {:induction false} OwnMoveKeepsInv(w: World, s: System, a: Action)
    requires Inv(w, s)
    requires a.Crash? || a.ReadPositions? || a.ReadOrders? || a.Submit? || a.Acknowledge?
    ensures Inv(w, Do(w, s, a))
  {
    if Do(w, s, a) != s {
      assert CallOk(w, s, a.c);
      MoveKeepsInv(w, s, Do(w, s, a), a.c);
    }
  }

  lemma {:induction false} RecordAcceptedKeepsInv(w: World, s: System, c: nat)
    requires Inv(w, s) && c < |s.calls| && s.calls[c].phase.Accepted?
    ensures Inv(w, DoRecordAccepted(s, c, s.calls[c].phase.order))
  {
    var order := s.calls[c].phase.order;
    var s' := DoRecordAccepted(s, c, order);
    assert CallOk(w, s, c);
    var mid := s.(row := s'.row);
    if s'.calls[c].phase.Watching? {
      assert order in Distinct([order]);
      ReleaseKeepsInv(w, s, mid, Submitted, [order]);
      assert CallOk(w, mid, c);
    }
    MoveKeepsInv(w, mid, s', c);
  }

  lemma {:induction false} StepKeepsInv(w: World, s: System, a: Action)
    requires Sound(w) && Inv(w, s)
    ensures Inv(w, Do(w, s, a))
  {
    if a.Advance? || a.Begin? || a.Fill? || a.Kill? || a.Flatten? {
      WorldKeepsInv(w, s, a);
    } else if a.Land? {
      LandKeepsInv(w, s, a.c);
    } else if a.ClaimRow? {
      if Running(s, a.c) && s.calls[a.c].phase.Ready? { ClaimKeepsInv(w, s, a.c); }
    } else if a.RecordAccepted? {
      if Running(s, a.c) && s.calls[a.c].phase.Accepted? { RecordAcceptedKeepsInv(w, s, a.c); }
    } else if a.RecordExecution? {
      if Do(w, s, a) != s {
        assert a.ids != [] ==> a.ids[0] in Distinct(a.ids);
        if Blind(s.row.value, a.outcome, a.ids) {
          BlindKeepsInv(w, s, Do(w, s, a), a.outcome);
        } else {
          ReleaseKeepsInv(w, s, Do(w, s, a), a.outcome, a.ids);
        }
      }
    } else {
      OwnMoveKeepsInv(w, s, a);
    }
  }

  lemma {:induction false} RunKeepsInv(w: World, s: System, script: seq<Action>)
    requires Sound(w) && Inv(w, s)
    ensures Inv(w, RunFrom(w, s, script))
  {
    forall t, a | Inv(w, t) ensures Inv(w, Step(w)(t, a)) {
      StepKeepsInv(w, t, a);
    }
    Runs.Keeps(Step(w), t => Inv(w, t), s, script);
  }

  // ------------------------------------------------------------- theorems

  /** In a sound world two submitted entries are never live together. */
  lemma {:induction false} EntriesExclusive(w: World, script: seq<Action>)
    requires Sound(w)
    ensures Exclusive(Run(w, script))
  {
    RunKeepsInv(w, INITIAL, script);
  }

  /** A further submit reaches the broker only when every earlier order is neither open nor holding a position. */
  lemma {:induction false} SecondSubmitOnlyAfterDeath(w: World, script: seq<Action>, c: nat)
    requires Sound(w)
    ensures
      var s := Run(w, script);
      var s' := Do(w, s, Land(c));
      |s'.chains| > |s.chains| ==> AllDead(s)
  {
    RunKeepsInv(w, INITIAL, script);
    var s := Run(w, script);
    if |Do(w, s, Land(c)).chains| > |s.chains| {
      assert CallOk(w, s, c) && InTime(w, s, c);
    }
  }

  /** Once an order id is on record it stays, and a call that had not claimed by then never submits; in any world. */
  lemma {:induction false} RecordedEntryStopsSubmits(w: World, script: seq<Action>, more: seq<Action>, c: nat)
    requires Run(w, script).row.Some? && Run(w, script).row.value.orderIds != []
    requires c < |Run(w, script).calls| ==> Unclaimed(Run(w, script).calls[c].phase)
    ensures
      var s' := Run(w, script + more);
      && s'.row.Some? && s'.row.value.orderIds != []
      && (c < |s'.calls| ==> Unclaimed(s'.calls[c].phase) || s'.calls[c].phase.Watching?)
  {
    Runs.Splits(Step(w), INITIAL, script, more);
    WatchersFrom(w, Run(w, script), more, c);
  }

  ghost predicate Watches(s: System, c: nat) {
    && s.row.Some? && s.row.value.orderIds != []
    && (c < |s.calls| ==> Unclaimed(s.calls[c].phase) || s.calls[c].phase.Watching?)
  }

  lemma {:induction false} WatcherStep(w: World, s: System, a: Action, c: nat)
    requires Watches(s, c)
    ensures Watches(Do(w, s, a), c)
  {
  }

  lemma {:induction false} WatchersFrom(w: World, s: System, script: seq<Action>, c: nat)
    requires Watches(s, c)
    ensures Watches(RunFrom(w, s, script), c)
    decreases |script|
  {
    if script != [] {
      WatcherStep(w, s, script[0], c);
      WatchersFrom(w, Do(w, s, script[0]), script[1..], c);
    }
  }

  /** Another call's token is in the row, and this call is past its claim. */
  ghost predicate Superseded(s: System, c: nat) {
    && c < |s.calls| && !Unclaimed(s.calls[c].phase)
    && s.row.Some? && s.row.value.claimToken.Some? && s.row.value.claimToken != Some(c)
  }

  lemma {:induction false} SupersededStep(w: World, s: System, a: Action, c: nat)
    requires Superseded(s, c)
    ensures Superseded(Do(w, s, a), c)
    ensures Do(w, s, RecordAccepted(c)).row == s.row
  {
  }

  lemma {:induction false} SupersededFrom(w: World, s: System, script: seq<Action>, c: nat)
    requires Superseded(s, c)
    ensures Superseded(RunFrom(w, s, script), c)
    decreases |script|
  {
    if script != [] {
      SupersededStep(w, s, script[0], c);
      SupersededFrom(w, Do(w, s, script[0]), script[1..], c);
    }
  }

  /** Once another call's token is in the row, a call's own update changes no row, then and ever after; in any world. */
  lemma {:induction false} SupersededUpdateIsInert(w: World, script: seq<Action>, more: seq<Action>, c: nat)
    requires Superseded(Run(w, script), c)
    ensures
      var s := Run(w, script + more);
      Do(w, s, RecordAccepted(c)).row == s.row
  {
    Runs.Splits(Step(w), INITIAL, script, more);
    SupersededFrom(w, Run(w, script), more, c);
    SupersededStep(w, Run(w, script + more), RecordAccepted(c), c);
  }

  // ------------------------------------------- when the world is not sound

  /** A call that starts, passes both reads, claims and issues its submit. */
  function CalmScript(owner: Owner, c: nat): seq<Action> {
    [Begin(owner), ReadPositions(c, false), ReadOrders(c, false), ClaimRow(c), Submit(c)]
  }

  /** The row is free for a call that starts now. */
  ghost predicate Claimable(s: System) {
    && (s.row.Some? ==>
          && !Terminal(s.row.value.state) && s.row.value.orderIds == [] && LeaseExpired(s.row.value, s.clock))
  }

  /** Only the clock, the row and one more call, with its submit issued, tell s' from s. */
  ghost predicate Stalled(w: World, s: System, s': System, owner: Owner) {
    && s'.clock == s.clock
    && s'.calls == s.calls + [Call(true, owner, s.clock, Sent(None))]
    && s'.row.Some? && !Terminal(s'.row.value.state) && s'.row.value.orderIds == []
    && s'.row.value.leaseUntil == Some(s.clock + w.ttl)
  }

  lemma {:induction false} ClaimAndSubmit(w: World, s: System, c: nat)
    requires Claimable(s) && Running(s, c) && s.calls[c].phase == Ready && s.calls[c].now == s.clock
    ensures
      var s' := RunFrom(w, s, [ClaimRow(c), Submit(c)]);
      && s'.clock == s.clock && s'.chains == s.chains
      && s'.calls == s.calls[c := s.calls[c].(phase := Sent(None))]
      && s'.row.Some? && !Terminal(s'.row.value.state) && s'.row.value.orderIds == []
      && s'.row.value.leaseUntil == Some(s.clock + w.ttl)
  {
    Runs.Splits(Step(w), s, [ClaimRow(c)], [Submit(c)]);
    assert [ClaimRow(c)] + [Submit(c)] == [ClaimRow(c), Submit(c)];
  }

  lemma {:induction false} CalmReads(w: World, s: System, owner: Owner)
    requires s.chains == []
    ensures
      var c := |s.calls|;
      RunFrom(w, s, [Begin(owner), ReadPositions(c, false), ReadOrders(c, false)])
      == s.(calls := s.calls + [Call(true, owner, s.clock, Ready)])
  {
    var c := |s.calls|;
    var script := [Begin(owner), ReadPositions(c, false), ReadOrders(c, false)];
    assert script[..0] == [] && script[..3] == script;
    Runs.Extends(Step(w), s, script, 0);
    assert RunFrom(w, s, script[..1]) == s.(calls := s.calls + [Call(true, owner, s.clock, Starting)]);
    Runs.Extends(Step(w), s, script, 1);
    assert RunFrom(w, s, script[..2]) == s.(calls := s.calls + [Call(true, owner, s.clock, PositionsRead(false))]);
    Runs.Extends(Step(w), s, script, 2);
  }

  lemma {:induction false} CalmReaches(w: World, s: System, owner: Owner)
    requires Claimable(s) && s.chains == []
    ensures Stalled(w, s, RunFrom(w, s, CalmScript(owner, |s.calls|)), owner)
    ensures RunFrom(w, s, CalmScript(owner, |s.calls|)).chains == []
  {
    var c := |s.calls|;
    var script := CalmScript(owner, c);
    CalmReads(w, s, owner);
    ClaimAndSubmit(w, s.(calls := s.calls + [Call(true, owner, s.clock, Ready)]), c);
    Runs.Splits(Step(w), s, script[..3], script[3..]);
    assert script[..3] == [Begin(owner), ReadPositions(c, false), ReadOrders(c, false)];
    assert script[3..] == [ClaimRow(c), Submit(c)] && script[..3] + script[3..] == script;
  }

  /** The preflight of a second call around a fill of order 0: it sees no position, then no open order. */
  function TornScript(owner: Owner): seq<Action> {
    [Begin(owner), ReadPositions(1, false), Fill(0, true), ReadOrders(1, false), ClaimRow(1), Submit(1)]
  }

  lemma {:induction false} TornReads(w: World, s: System, owner: Owner)
    requires w.tornReads && |s.calls| == 1 && |s.chains| == 1 && s.chains[0].open && !s.chains[0].held
    ensures
      RunFrom(w, s, [Begin(owner), ReadPositions(1, false), Fill(0, true), ReadOrders(1, false)])
      == s.(calls := s.calls + [Call(true, owner, s.clock, Ready)],
            chains := [s.chains[0].(open := false, held := true)])
  {
    var script := [Begin(owner), ReadPositions(1, false), Fill(0, true), ReadOrders(1, false)];
    assert script[..0] == [] && script[..4] == script;
    Runs.Extends(Step(w), s, script, 0);
    assert RunFrom(w, s, script[..1]) == s.(calls := s.calls + [Call(true, owner, s.clock, Starting)]);
    Runs.Extends(Step(w), s, script, 1);
    assert RunFrom(w, s, script[..2]) == s.(calls := s.calls + [Call(true, owner, s.clock, PositionsRead(false))]);
    Runs.Extends(Step(w), s, script, 2);
    Runs.Extends(Step(w), s, script, 3);
  }

  lemma {:induction false} TornReaches(w: World, s: System, owner: Owner)
    requires w.tornReads && Claimable(s) && |s.calls| == 1
    requires |s.chains| == 1 && s.chains[0].open && !s.chains[0].held
    ensures Stalled(w, s, RunFrom(w, s, TornScript(owner)), owner)
    ensures var s' := RunFrom(w, s, TornScript(owner)); |s'.chains| == 1 && s'.chains[0].held
  {
    var script := TornScript(owner);
    assert script[..4] == [Begin(owner), ReadPositions(1, false), Fill(0, true), ReadOrders(1, false)];
    TornReads(w, s, owner);
    ClaimAndSubmit(w, RunFrom(w, s, script[..4]), 1);
    Runs.Splits(Step(w), s, script[..4], script[4..]);
    assert script[4..] == [ClaimRow(1), Submit(1)] && script[..4] + script[4..] == script;
  }

  lemma {:induction false} LandReaches(w: World, s: System, c: nat)
    requires c < |s.calls| && s.calls[c].phase == Sent(None) && s.clock < s.calls[c].now + w.landBy
    requires !w.uniqueIds
    ensures
      var s' := RunFrom(w, s, [Land(c)]);
      && s'.chains == s.chains + [Chain(true, false, s.calls[c].now + w.ttl)]
      && s'.clock == s.clock && s'.row == s.row
      && s'.calls == s.calls[c := s.calls[c].(phase := Sent(Some(|s.chains|)))]
  {
    Runs.One(Step(w), s, Land(c));
  }

  /** A second call claims when the first one's lease ends, and both requests land. */
  function LateScript(w: World): seq<Action> {
    CalmScript(1, 0) + ([Advance(w.ttl)] + (CalmScript(2, 1) + ([Land(0)] + [Land(1)])))
  }

  lemma {:induction false} LateLandingBreaksExclusion(w: World)
    requires w.ttl < w.landBy && !w.uniqueIds
    ensures !Exclusive(Run(w, LateScript(w)))
  {
    CalmReaches(w, INITIAL, 1);
    var s1 := RunFrom(w, INITIAL, CalmScript(1, 0));
    var s2 := RunFrom(w, s1, [Advance(w.ttl)]);
    Runs.One(Step(w), s1, Advance(w.ttl));
    CalmReaches(w, s2, 2);
    LandTwo(w, RunFrom(w, s2, CalmScript(2, 1)));
    Runs.SplitsInFour(Step(w), INITIAL, CalmScript(1, 0), [Advance(w.ttl)], CalmScript(2, 1), [Land(0)] + [Land(1)]);
  }

  lemma {:induction false} LandTwo(w: World, s: System)
    requires |s.calls| == 2 && s.chains == [] && !w.uniqueIds
    requires forall c :: 0 <= c < 2 ==> s.calls[c].phase == Sent(None) && s.clock < s.calls[c].now + w.landBy
    ensures !Exclusive(RunFrom(w, s, [Land(0)] + [Land(1)]))
  {
    LandReaches(w, s, 0);
    var s1 := RunFrom(w, s, [Land(0)]);
    LandReaches(w, s1, 1);
    Runs.Splits(Step(w), s, [Land(0)], [Land(1)]);
    var s2 := RunFrom(w, s1, [Land(1)]);
    assert Live(s2.chains[0]) && Live(s2.chains[1]);
  }

  /** The first order lands, its sender stops before recording it, and it fills inside the next preflight. */
  function TearScript(w: World): seq<Action> {
    CalmScript(1, 0) + (([Land(0)] + [Advance(w.ttl)]) + (TornScript(2) + [Land(1)]))
  }

  lemma {:induction false} TornReadsBreakExclusion(w: World)
    requires w.tornReads && 0 < w.landBy && !w.uniqueIds
    ensures !Exclusive(Run(w, TearScript(w)))
  {
    CalmReaches(w, INITIAL, 1);
    var s1 := RunFrom(w, INITIAL, CalmScript(1, 0));
    LandReaches(w, s1, 0);
    Runs.Splits(Step(w), s1, [Land(0)], [Advance(w.ttl)]);
    var s2 := RunFrom(w, s1, [Land(0)] + [Advance(w.ttl)]);
    Runs.One(Step(w), RunFrom(w, s1, [Land(0)]), Advance(w.ttl));
    TornReaches(w, s2, 2);
    var s3 := RunFrom(w, s2, TornScript(2));
    LandReaches(w, s3, 1);
    Runs.SplitsInFour(Step(w), INITIAL, CalmScript(1, 0), [Land(0)] + [Advance(w.ttl)], TornScript(2), [Land(1)]);
    var s4 := RunFrom(w, s3, [Land(1)]);
    assert Live(s4.chains[0]) && Live(s4.chains[1]);
  }

  /** A blind record between one call's claim and its landing frees the row for another call. */
  function BlindScript(): seq<Action> {
    CalmScript(1, 0) + ([RecordExecution(Submitted, [])] + (CalmScript(2, 1) + ([Land(0)] + [Land(1)])))
  }

  lemma {:induction false} BlindRecordsBreakExclusion(w: World)
    requires w.blindRecords && 0 < w.landBy && !w.uniqueIds
    ensures !Exclusive(Run(w, BlindScript()))
  {
    CalmReaches(w, INITIAL, 1);
    var s1 := RunFrom(w, INITIAL, CalmScript(1, 0));
    var s2 := RunFrom(w, s1, [RecordExecution(Submitted, [])]);
    BlindRecordReleases(w, s1);
    CalmReaches(w, s2, 2);
    LandTwo(w, RunFrom(w, s2, CalmScript(2, 1)));
    Runs.SplitsInFour(Step(w), INITIAL,
      CalmScript(1, 0), [RecordExecution(Submitted, [])], CalmScript(2, 1), [Land(0)] + [Land(1)]);
  }

  lemma {:induction false} BlindRecordReleases(w: World, s: System)
    requires w.blindRecords && s.row.Some? && s.row.value.orderIds == []
    ensures
      var s' := RunFrom(w, s, [RecordExecution(Submitted, [])]);
      Claimable(s') && s' == s.(row := s'.row)
  {
  }

  predicate OneChain(s: System) {
    |s.chains| <= 1
  }

  /** A broker that refuses a repeated client id never holds two entries of one certificate. */
  lemma {:induction false} UniqueIdsSuffice(w: World, script: seq<Action>)
    requires w.uniqueIds
    ensures |Run(w, script).chains| <= 1
  {
    forall s, a | OneChain(s) ensures OneChain(Step(w)(s, a)) {
    }
    Runs.Keeps(Step(w), OneChain, INITIAL, script);
  }

  /**
   The exact condition: entries are exclusive in every run if and only if the
   world is sound or the broker refuses a repeated client id.
   */
  lemma {:induction false} EntriesExclusiveIff(w: World)
    requires 0 < w.landBy
    ensures (forall script :: Exclusive(Run(w, script))) <==> Sound(w) || w.uniqueIds
  {
    if Sound(w) || w.uniqueIds {
      forall script ensures Exclusive(Run(w, script)) {
        if w.uniqueIds {
          UniqueIdsSuffice(w, script);
        } else {
          EntriesExclusive(w, script);
        }
      }
    } else if w.blindRecords {
      BlindRecordsBreakExclusion(w);
    } else if w.tornReads {
      TornReadsBreakExclusion(w);
    } else {
      LateLandingBreaksExclusion(w);
    }
  }
}
