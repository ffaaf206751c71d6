/**
 The durable entry intent: one row for one trade certificate, claimed before
 the entry order is sent.  Every transaction is atomic.
 */
module EntryIntents {
  import opened Options

  type Owner = nat
  type Token = nat
  type OrderId = nat
  type IntentKey = string

  datatype EntryState = Intent | Submitted | Filled | Canceled | Rejected

  datatype EntryRow = EntryRow(
    orderIds: seq<OrderId>,
    state: EntryState,
    leaseOwner: Option<Owner>,
    leaseUntil: Option<int>,
    claimToken: Option<Token>)

  datatype EntryClaim = EntryClaim(row: EntryRow, claimed: bool, created: bool)

  predicate Terminal(state: EntryState) {
    state == Filled || state == Canceled || state == Rejected
  }

  predicate LeaseExpired(row: EntryRow, now: int) {
    row.leaseUntil.None? || row.leaseUntil.value <= now
  }

  /** First occurrences, in order. */
  function Distinct(ids: seq<OrderId>): (r: seq<OrderId>)
    ensures forall x :: x in r <==> x in ids
    ensures forall i, j :: 0 <= i < j < |r| ==> r[i] != r[j]
  {
    if ids == [] then []
    else
      var front := Distinct(ids[..|ids| - 1]);
      var last := ids[|ids| - 1];
      assert ids == ids[..|ids| - 1] + [last];
      if last in front then front else front + [last]
  }

  /** What one claim transaction leaves in the row, and whether it won it. */
  function Claim(row: Option<EntryRow>, owner: Owner, now: int, ttl: nat, token: Token): (c: EntryClaim)
    ensures c.claimed ==> c.row.claimToken == Some(token) && c.row.leaseUntil == Some(now + ttl)
    ensures row.Some? ==> c.row.orderIds == row.value.orderIds && c.row.state == row.value.state
    ensures row.Some? && !c.claimed ==> c.row == row.value
  {
    match row
    case None =>
      EntryClaim(EntryRow([], Intent, Some(owner), Some(now + ttl), Some(token)), true, true)
    case Some(r) =>
      var owns := r.leaseOwner == Some(owner) && r.claimToken == Some(token);
      if !Terminal(r.state) && (owns || LeaseExpired(r, now)) then
        EntryClaim(r.(leaseOwner := Some(owner), leaseUntil := Some(now + ttl), claimToken := Some(token)), true, false)
      else
        EntryClaim(r, false, false)
  }

  predicate SwapAllowed(row: EntryRow, token: Option<Token>) {
    row.claimToken.None? || row.claimToken == token
  }

  /** A write that releases the lease: order ids may be replaced by a nonempty list, never emptied. */
  function Released(row: EntryRow, state: EntryState, orderIds: seq<OrderId>): EntryRow {
    row.(state := state,
         orderIds := if orderIds != [] then Distinct(orderIds) else row.orderIds,
         leaseOwner := None, leaseUntil := None)
  }

  /** The table of entry intents, changed only by whole transactions. */
  class EntryIntentTable {
    var rows: map<IntentKey, EntryRow>

    constructor ()
      ensures rows == map[]
    {
      rows := map[];
    }

    function Row(key: IntentKey): Option<EntryRow>
      reads this
    {
      if key in rows then Some(rows[key]) else None
    }

    method CreateOrClaim(key: IntentKey, owner: Owner, now: int, ttl: nat, token: Token)
      returns (r: Result<EntryClaim>)
      modifies this
      ensures r.Ok? <==> key != ""
      ensures r.Ok? ==> r.value == Claim(old(Row(key)), owner, now, ttl, token) && rows == old(rows)[key := r.value.row]
      ensures r.Err? ==> rows == old(rows)
    {
      if key == "" {
        return Err("entry intent key and owner are required");
      }
      if key !in rows {
        var created := EntryRow([], Intent, Some(owner), Some(now + ttl), Some(token));
        rows := rows[key := created];
        return Ok(EntryClaim(created, true, true));
      }
      var row := rows[key];
      var active := row.state !in {Filled, Canceled, Rejected};
      var expired := row.leaseUntil.None? || row.leaseUntil.value <= now;
      var owns := row.leaseOwner == Some(owner) && row.claimToken == Some(token);
      if active && (owns || expired) {
        row := row.(leaseOwner := Some(owner));
        row := row.(leaseUntil := Some(now + ttl));
        row := row.(claimToken := Some(token));
        rows := rows[key := row];
        return Ok(EntryClaim(row, true, false));
      }
      assert rows == rows[key := row];
      return Ok(EntryClaim(row, false, false));
    }

    /** An update with a superseded token, like one for an unknown key, is refused and leaves every row unchanged. */
    method Update(key: IntentKey, state: EntryState, orderIds: seq<OrderId>, token: Option<Token>)
      returns (r: Result<EntryRow>)
      modifies this
      ensures r.Ok? <==> old(Row(key)).Some? && SwapAllowed(old(Row(key)).value, token)
      ensures r.Ok? ==> r.value == Released(old(Row(key)).value, state, orderIds) && rows == old(rows)[key := r.value]
      ensures r.Err? ==> rows == old(rows)
    {
      if key !in rows {
        return Err("unknown entry intent");
      }
      var row := rows[key];
      if row.claimToken.Some? && row.claimToken != token {
        return Err("entry intent compare-and-swap failed");
      }
      row := row.(state := state);
      if orderIds != [] {
        row := row.(orderIds := Distinct(orderIds));
      }
      row := row.(leaseOwner := None);
      row := row.(leaseUntil := None);
      rows := rows[key := row];
      return Ok(row);
    }

    /** The intent part of recording an execution outcome: no token is asked for. */
    method RecordExecution(key: IntentKey, outcome: EntryState, orderIds: seq<OrderId>)
      modifies this
      ensures old(Row(key)).None? ==> rows == old(rows)
      ensures old(Row(key)).Some? ==> rows == old(rows)[key := Released(old(Row(key)).value, outcome, orderIds)]
    {
      if key in rows {
        var row := rows[key];
        var ids := Distinct(orderIds);
        row := row.(orderIds := if ids != [] then ids else row.orderIds);
        row := row.(state := outcome);
        row := row.(leaseOwner := None);
        row := row.(leaseUntil := None);
        rows := rows[key := row];
        assert orderIds != [] ==> orderIds[0] in ids;
      }
    }
  }
}
