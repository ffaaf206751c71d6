/**
 The durable close intent: one row for one set of broker positions to be
 closed, carrying a lease and a claim token.  Every transaction is atomic.
 */
module CloseIntents {
  import opened Options

  type Owner = nat
  type Token = nat
  type OrderId = nat
  type IntentKey = string

  datatype CloseState = Intent | Managing | ReconcileRequired | Closed | Rejected | Canceled

  datatype CloseRow = CloseRow(
    orderId: Option<OrderId>,
    state: CloseState,
    leaseOwner: Option<Owner>,
    leaseUntil: Option<int>,
    claimToken: Option<Token>)

  datatype CloseClaim = CloseClaim(row: CloseRow, claimed: bool, created: bool)

  /** A terminal intent is never claimed again. */
  predicate Terminal(state: CloseState) {
    state == Closed || state == Rejected || state == Canceled
  }

  predicate LeaseExpired(row: CloseRow, now: int) {
    row.leaseUntil.None? || row.leaseUntil.value <= now
  }

  /** What one claim transaction leaves in the row, and whether it won it. */
  function Claim(row: Option<CloseRow>, owner: Owner, now: int, ttl: nat, token: Token): (c: CloseClaim)
    ensures c.claimed ==> c.row.claimToken == Some(token) && c.row.leaseUntil == Some(now + ttl)
    ensures row.Some? ==> c.row.orderId == row.value.orderId && c.row.state == row.value.state
    ensures row.Some? && !c.claimed ==> c.row == row.value
  {
    match row
    case None =>
      CloseClaim(CloseRow(None, Intent, Some(owner), Some(now + ttl), Some(token)), true, true)
    case Some(r) =>
      var owns := r.leaseOwner == Some(owner) && r.claimToken == Some(token);
      if !Terminal(r.state) && (owns || LeaseExpired(r, now)) then
        CloseClaim(r.(leaseOwner := Some(owner), leaseUntil := Some(now + ttl), claimToken := Some(token)), true, false)
      else
        CloseClaim(r, false, false)
  }

  /** The compare-and-swap guard: a row with a token yields only to that token. */
  predicate SwapAllowed(row: CloseRow, token: Option<Token>) {
    row.claimToken.None? || row.claimToken == token
  }

  /** The row after an accepted update: an order id may be set, never cleared, and the lease is released. */
  function Updated(row: CloseRow, state: CloseState, orderId: Option<OrderId>): CloseRow {
    row.(state := state,
         orderId := if orderId.Some? then orderId else row.orderId,
         leaseOwner := None, leaseUntil := None)
  }

  /** The table of close intents, changed only by whole transactions. */
  class CloseIntentTable {
    var rows: map<IntentKey, CloseRow>

    constructor ()
      ensures rows == map[]
    {
      rows := map[];
    }

    function Row(key: IntentKey): Option<CloseRow>
      reads this
    {
      if key in rows then Some(rows[key]) else None
    }

    method CreateOrClaim(key: IntentKey, owner: Owner, now: int, ttl: nat, token: Token)
      returns (r: Result<CloseClaim>)
      modifies this
      ensures r.Ok? <==> key != ""
      ensures r.Ok? ==> r.value == Claim(old(Row(key)), owner, now, ttl, token) && rows == old(rows)[key := r.value.row]
      ensures r.Err? ==> rows == old(rows)
    {
      if key == "" {
        return Err("close intent key and owner are required");
      }
      if key !in rows {
        var created := CloseRow(None, Intent, Some(owner), Some(now + ttl), Some(token));
        rows := rows[key := created];
        return Ok(CloseClaim(created, true, true));
      }
      var row := rows[key];
      var active := row.state !in {Closed, Rejected, Canceled};
      var expired := row.leaseUntil.None? || row.leaseUntil.value <= now;
      var owns := row.leaseOwner == Some(owner) && row.claimToken == Some(token);
      if active && (owns || expired) {
        row := row.(leaseOwner := Some(owner));
        row := row.(leaseUntil := Some(now + ttl));
        row := row.(claimToken := Some(token));
        rows := rows[key := row];
        return Ok(CloseClaim(row, true, false));
      }
      assert rows == rows[key := row];
      return Ok(CloseClaim(row, false, false));
    }

    /** An unknown key and a superseded token are both refused, and a refusal changes nothing. */
    method Update(key: IntentKey, state: CloseState, orderId: Option<OrderId>, token: Option<Token>)
      returns (r: Result<CloseRow>)
      modifies this
      ensures r.Ok? <==> old(Row(key)).Some? && SwapAllowed(old(Row(key)).value, token)
      ensures r.Ok? ==> r.value == Updated(old(Row(key)).value, state, orderId) && rows == old(rows)[key := r.value]
      ensures r.Err? ==> rows == old(rows)
    {
      if key !in rows {
        return Err("unknown close intent");
      }
      var row := rows[key];
      if row.claimToken.Some? && row.claimToken != token {
        return Err("close intent compare-and-swap failed");
      }
      row := row.(state := state);
      if orderId.Some? {
        row := row.(orderId := orderId);
      }
      row := row.(leaseOwner := None);
      row := row.(leaseUntil := None);
      rows := rows[key := row];
      return Ok(row);
    }
  }
}
