/** The broker's vocabulary: order statuses, positions and their direction. */
module BrokerOrders {

  /** The lifecycle classes of the order statuses. */
  datatype Status = Working | PartlyFilled | Replaced | Filled | Canceled | Rejected | Unrecognized

  datatype PositionSide = Long | Short | OtherSide

  /** An order as received, its status read by StatusOf. */
  datatype BrokerOrder = BrokerOrder(orderId: string, status: Status)

  /** A position as received, its side read by SideOf. */
  datatype BrokerPosition = BrokerPosition(symbol: string, quantity: int, side: PositionSide)

  function UpperChar(c: char): char {
    if 'a' <= c <= 'z' then (c as int - 32) as char else c
  }

  function LowerChar(c: char): char {
    if 'A' <= c <= 'Z' then (c as int + 32) as char else c
  }

  function Upper(s: string): string {
    seq(|s|, i requires 0 <= i < |s| => UpperChar(s[i]))
  }

  function Lower(s: string): string {
    seq(|s|, i requires 0 <= i < |s| => LowerChar(s[i]))
  }

  function Strip(s: string): string
    decreases |s|
  {
    if s != [] && s[0] in " \t\n\r" then Strip(s[1..])
    else if s != [] && s[|s| - 1] in " \t\n\r" then Strip(s[..|s| - 1])
    else s
  }

  function StatusOf(text: string): Status {
    var s := Upper(text);
    if s in ["NEW", "ACCEPTED", "PENDING_NEW", "PENDING_REPLACE", "PENDING_CANCEL", "SUSPENDED", "CALCULATED",
             "STOPPED", "ACCEPTED_FOR_BIDDING"] then Working
    else if s in ["PARTIALLY_FILLED", "PARTIAL_FILLED"] then PartlyFilled
    else if s == "REPLACED" then Replaced
    else if s in ["FILLED", "DONE"] then Filled
    else if s in ["CANCELED", "CANCELLED", "DONE_FOR_DAY"] then Canceled
    else if s in ["REJECTED", "EXPIRED"] then Rejected
    else Unrecognized
  }

  function SideOf(text: string): PositionSide {
    var s := Lower(Strip(text));
    if s == "long" then Long else if s == "short" then Short else OtherSide
  }

  /** Neither final nor replaced: the order may still fill. */
  predicate Active(o: BrokerOrder) {
    o.status in {Working, PartlyFilled}
  }

  function AbsInt(n: int): int {
    if n >= 0 then n else -n
  }

  predicate AllSided(positions: seq<BrokerPosition>) {
    forall i :: 0 <= i < |positions| ==> positions[i].side != OtherSide
  }

  /** The size with the sign of the side, whatever sign the broker gave the quantity. */
  function Signed(p: BrokerPosition): int
    requires p.side != OtherSide
  {
    if p.side == Long then AbsInt(p.quantity) else -AbsInt(p.quantity)
  }
}
