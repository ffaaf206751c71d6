/** The historical structure search: only bars up to the signal count, and the least ordered structure wins. */
module StructureSearch {
  import opened Options
  import opened Payoff
  import opened Ranking

  datatype Contract = Contract(
    symbol: string, underlying: string, expiration: int, right: Right, strike: real,
    multiplier: int, deliverableShares: int)

  datatype Bar = Bar(symbol: string, timestamp: int, zone: string, metadataResolved: bool, continuous: bool)

  /** The instant of the signal, its time zone and its New York date. */
  datatype Moment = Moment(at: int, zone: string, date: int)

  type History = map<string, seq<Bar>>

  function UpTo(bars: seq<Bar>, at: int): seq<Bar> {
    if bars == [] then []
    else UpTo(bars[..|bars| - 1], at) + if bars[|bars| - 1].timestamp <= at then [bars[|bars| - 1]] else []
  }

  function ObservedBars(history: History, symbol: string, at: int): seq<Bar> {
    if symbol in history then UpTo(history[symbol], at) else []
  }

  predicate InOrderAndDistinct(bars: seq<Bar>) {
    forall i, j :: 0 <= i < j < |bars| ==> bars[i].timestamp < bars[j].timestamp
  }

  /** A standard contract of one to three days with a clean bar history that ends at the signal. */
  predicate Eligible(c: Contract, history: History, now: Moment) {
    var observed := ObservedBars(history, c.symbol, now.at);
    && 1 <= c.expiration - now.date <= 3 && c.multiplier == 100 && c.deliverableShares == 100
    && observed != [] && observed[|observed| - 1].timestamp == now.at
    && InOrderAndDistinct(observed)
    && forall i :: 0 <= i < |observed| ==>
         && observed[i].zone == now.zone && observed[i].symbol == c.symbol
         && observed[i].metadataResolved && observed[i].continuous
  }

  /** Outer put, inner put, inner call, outer call. */
  datatype Quad = Quad(lowPut: Contract, highPut: Contract, lowCall: Contract, highCall: Contract)

  predicate Ordered(q: Quad) {
    && q.lowPut.right == q.highPut.right == Put && q.lowCall.right == q.highCall.right == Call
    && q.lowPut.strike < q.highPut.strike < q.lowCall.strike < q.highCall.strike
    && q.lowPut.underlying == q.highPut.underlying == q.lowCall.underlying == q.highCall.underlying
    && q.lowPut.expiration == q.highPut.expiration == q.lowCall.expiration == q.highCall.expiration
  }

  predicate Among(q: Quad, contracts: seq<Contract>) {
    q.lowPut in contracts && q.highPut in contracts && q.lowCall in contracts && q.highCall in contracts
  }

  // ---------------------------------------------------------------- keys

  datatype Part = Number(n: real) | Text(s: string)

  function KeyOfQuad(q: Quad): seq<Part> {
    [ Number(q.lowPut.expiration as real), Text(q.lowPut.underlying),
      Number(q.lowPut.strike), Number(q.highPut.strike), Number(q.lowCall.strike), Number(q.highCall.strike),
      Text(q.lowPut.symbol), Text(q.highPut.symbol), Text(q.lowCall.symbol), Text(q.highCall.symbol) ]
  }

  predicate PartLess(a: Part, b: Part) {
    match (a, b)
    case (Number(m), Number(n)) => m < n
    case (Text(s), Text(t)) => StringLess(s, t)
    case (Number(_), Text(_)) => true
    case (Text(_), Number(_)) => false
  }

  /** Lexicographic order of keys of one length. */
  predicate PartsLess(a: seq<Part>, b: seq<Part>)
    requires |a| == |b|
  {
    a != [] && (PartLess(a[0], b[0]) || (a[0] == b[0] && PartsLess(a[1..], b[1..])))
  }

  lemma {:induction false} PartLessIsTotal(a: Part, b: Part, c: Part)
    ensures !PartLess(a, a)
    ensures PartLess(a, b) || a == b || PartLess(b, a)
    ensures PartLess(a, b) && PartLess(b, c) ==> PartLess(a, c)
  {
    if a.Text? && b.Text? {
      StringLessIsTotal(a.s, b.s, if c.Text? then c.s else a.s);
    } else if a.Text? {
      StringLessIsTotal(a.s, a.s, a.s);
    }
  }

  lemma {:induction false} PartsLessIsTotal(a: seq<Part>, b: seq<Part>, c: seq<Part>)
    requires |a| == |b| == |c|
    ensures !PartsLess(a, a)
    ensures PartsLess(a, b) || a == b || PartsLess(b, a)
    ensures PartsLess(a, b) && PartsLess(b, c) ==> PartsLess(a, c)
  {
    if a != [] {
      PartLessIsTotal(a[0], b[0], c[0]);
      PartLessIsTotal(b[0], c[0], a[0]);
      PartsLessIsTotal(a[1..], b[1..], c[1..]);
      assert a == [a[0]] + a[1..] && b == [b[0]] + b[1..];
    }
  }

  predicate QuadLess(q: Quad, r: Quad) {
    PartsLess(KeyOfQuad(q), KeyOfQuad(r))
  }

  lemma {:induction false} QuadLessIsTotal(q: Quad, r: Quad, s: Quad)
    ensures !QuadLess(q, q)
    ensures QuadLess(q, r) || KeyOfQuad(q) == KeyOfQuad(r) || QuadLess(r, q)
    ensures QuadLess(q, r) && QuadLess(r, s) ==> QuadLess(q, s)
  {
    PartsLessIsTotal(KeyOfQuad(q), KeyOfQuad(r), KeyOfQuad(s));
  }

  // -------------------------------------------------------------- search

  /** An ordered structure of eligible contracts. */
  predicate Selectable(q: Quad, contracts: seq<Contract>, history: History, now: Moment) {
    && Among(q, contracts) && Ordered(q)
    && Eligible(q.lowPut, history, now) && Eligible(q.highPut, history, now)
    && Eligible(q.lowCall, history, now) && Eligible(q.highCall, history, now)
  }

  /** The least selectable structure, or none when nothing is selectable. */
  ghost predicate IsSelection(contracts: seq<Contract>, history: History, now: Moment, r: Option<Quad>) {
    match r
    case None => forall q :: !Selectable(q, contracts, history, now)
    case Some(best) =>
      && Selectable(best, contracts, history, now)
      && forall q :: Selectable(q, contracts, history, now) ==> !QuadLess(q, best)
  }

  /** Four different contracts, as a signal demands; ordering alone only gives four different strikes. */
  predicate FourSymbols(q: Quad) {
    && q.lowPut.symbol != q.highPut.symbol && q.lowCall.symbol != q.highCall.symbol
    && q.lowPut.symbol !in {q.lowCall.symbol, q.highCall.symbol}
    && q.highPut.symbol !in {q.lowCall.symbol, q.highCall.symbol}
  }

  const REPEATED := "atomic signal requires four distinct contracts"

  /** A signal is made of every selectable structure, so one that repeats a symbol fails the whole search. */
  ghost predicate IsSearch(contracts: seq<Contract>, history: History, now: Moment, r: Result<Option<Quad>>) {
    if exists q :: Selectable(q, contracts, history, now) && !FourSymbols(q) then r == Err(REPEATED)
    else r.Ok? && IsSelection(contracts, history, now, r.value)
  }

  method Select(contracts: seq<Contract>, history: History, now: Moment) returns (r: Result<Option<Quad>>)
    ensures IsSearch(contracts, history, now, r)
  {
    var eligible: seq<Contract> := [];
    for i := 0 to |contracts|
      invariant forall c :: c in eligible <==> c in contracts[..i] && Eligible(c, history, now)
    {
      assert contracts[..i + 1] == contracts[..i] + [contracts[i]];
      if Eligible(contracts[i], history, now) {
        eligible := eligible + [contracts[i]];
      }
    }
    assert contracts[..|contracts|] == contracts;
    var puts := Pairs(eligible, Put);
    var calls := Pairs(eligible, Call);
    forall q ensures Joined(q, puts, calls) <==> Selectable(q, contracts, history, now) {
      JoinedIsSelectable(q, contracts, history, now, eligible, puts, calls);
    }
    var candidates := Join(puts, calls);
    if candidates.Err? {
      return Err(candidates.reason);
    }
    var least := Least(candidates.value);
    return Ok(least);
  }

  /** All pairs of contracts of one right with a lower and a higher strike. */
  method Pairs(s: seq<Contract>, right: Right) returns (pairs: seq<(Contract, Contract)>)
    ensures forall a, b :: (a, b) in pairs <==> a in s && b in s && a.right == b.right == right && a.strike < b.strike
  {
    pairs := [];
    for i := 0 to |s|
      invariant forall a, b :: (a, b) in pairs <==>
                  a in s[..i] && b in s && a.right == b.right == right && a.strike < b.strike
    {
      assert s[..i + 1] == s[..i] + [s[i]];
      var before := pairs;
      for j := 0 to |s|
        invariant forall a, b :: (a, b) in pairs <==>
                    ((a, b) in before
                     || (a == s[i] && b in s[..j] && a.right == b.right == right && a.strike < b.strike))
      {
        assert s[..j + 1] == s[..j] + [s[j]];
        if s[i].right == s[j].right == right && s[i].strike < s[j].strike {
          pairs := pairs + [(s[i], s[j])];
        }
      }
      assert s[..|s|] == s;
    }
    assert s[..|s|] == s;
  }

  /** A put pair and a call pair that make an ordered structure. */
  predicate Joined(q: Quad, puts: seq<(Contract, Contract)>, calls: seq<(Contract, Contract)>) {
    (q.lowPut, q.highPut) in puts && (q.lowCall, q.highCall) in calls && Ordered(q)
  }

  lemma {:induction false} JoinedIsSelectable(
    q: Quad, contracts: seq<Contract>, history: History, now: Moment, eligible: seq<Contract>,
    puts: seq<(Contract, Contract)>, calls: seq<(Contract, Contract)>)
    requires forall c :: c in eligible <==> c in contracts && Eligible(c, history, now)
    requires forall a, b :: (a, b) in puts <==>
               a in eligible && b in eligible && a.right == b.right == Put && a.strike < b.strike
    requires forall a, b :: (a, b) in calls <==>
               a in eligible && b in eligible && a.right == b.right == Call && a.strike < b.strike
    ensures Joined(q, puts, calls) <==> Selectable(q, contracts, history, now)
  {
  }

  method Join(puts: seq<(Contract, Contract)>, calls: seq<(Contract, Contract)>) returns (r: Result<seq<Quad>>)
    ensures r.Ok? ==> forall q :: (q in r.value <==> Joined(q, puts, calls)) && (q in r.value ==> FourSymbols(q))
    ensures r.Err? ==> r.reason == REPEATED && exists q :: Joined(q, puts, calls) && !FourSymbols(q)
  {
    var candidates: seq<Quad> := [];
    for i := 0 to |puts|
      invariant forall q :: q in candidates <==> Joined(q, puts[..i], calls)
      invariant forall q :: q in candidates ==> FourSymbols(q)
    {
      assert puts[..i + 1] == puts[..i] + [puts[i]];
      var before := candidates;
      for j := 0 to |calls|
        invariant forall q :: q in candidates <==> (q in before || Joined(q, [puts[i]], calls[..j]))
        invariant forall q :: q in candidates ==> FourSymbols(q)
      {
        assert calls[..j + 1] == calls[..j] + [calls[j]];
        var q := Quad(puts[i].0, puts[i].1, calls[j].0, calls[j].1);
        if Ordered(q) {
          if !FourSymbols(q) {
            assert Joined(q, puts, calls);
            return Err(REPEATED);
          }
          candidates := candidates + [q];
        }
      }
      assert calls[..|calls|] == calls;
    }
    assert puts[..|puts|] == puts;
    return Ok(candidates);
  }

  method Least(candidates: seq<Quad>) returns (r: Option<Quad>)
    ensures r.None? <==> candidates == []
    ensures r.Some? ==> r.value in candidates && forall q :: q in candidates ==> !QuadLess(q, r.value)
  {
    if candidates == [] {
      return None;
    }
    var best := candidates[0];
    QuadLessIsTotal(best, best, best);
    for i := 1 to |candidates|
      invariant best in candidates[..i]
      invariant forall q :: q in candidates[..i] ==> !QuadLess(q, best)
    {
      assert candidates[..i + 1] == candidates[..i] + [candidates[i]];
      if QuadLess(candidates[i], best) {
        forall q | q in candidates[..i + 1] ensures !QuadLess(q, candidates[i]) {
          QuadLessIsTotal(q, candidates[i], best);
          QuadLessIsTotal(q, q, q);
        }
        best := candidates[i];
      }
    }
    assert candidates[..|candidates|] == candidates;
    return Some(best);
  }

  // ------------------------------------------------------------- theorems

  /** Contracts are told apart by their symbols. */
  predicate DistinctContracts(contracts: seq<Contract>) {
    forall c, d :: c in contracts && d in contracts && c.symbol == d.symbol ==> c == d
  }

  /** Two histories are the same up to a time. */
  ghost predicate AgreeUpTo(history: History, other: History, at: int) {
    forall symbol :: ObservedBars(history, symbol, at) == ObservedBars(other, symbol, at)
  }

  /** There is only one least structure. */
  lemma {:induction false} SelectionIsUnique(
    contracts: seq<Contract>, history: History, now: Moment, r: Option<Quad>, s: Option<Quad>)
    requires IsSelection(contracts, history, now, r) && IsSelection(contracts, history, now, s)
    ensures r == s
  {
    if r.Some? && s.Some? {
      QuadLessIsTotal(r.value, s.value, r.value);
      SameKeySameQuad(contracts, history, now, r.value, s.value);
    }
  }

  /** The key leaves nothing of a selectable structure open. */
  lemma {:induction false} SameKeySameQuad(
    contracts: seq<Contract>, history: History, now: Moment, q: Quad, r: Quad)
    requires Selectable(q, contracts, history, now) && Selectable(r, contracts, history, now)
    ensures KeyOfQuad(q) == KeyOfQuad(r) ==> q == r
  {
    var (k, l) := (KeyOfQuad(q), KeyOfQuad(r));
    if k == l {
      forall i | 0 <= i < 10 ensures k[i] == l[i] {
      }
      assert k[0].n == l[0].n && k[1].s == l[1].s;
      assert k[2].n == l[2].n && k[3].n == l[3].n && k[4].n == l[4].n && k[5].n == l[5].n;
      assert k[6].s == l[6].s && k[7].s == l[7].s && k[8].s == l[8].s && k[9].s == l[9].s;
    }
  }

  lemma {:induction false} SameSelectable(
    q: Quad, contracts: seq<Contract>, history: History, other: History, now: Moment)
    requires AgreeUpTo(history, other, now.at)
    ensures Selectable(q, contracts, history, now) == Selectable(q, contracts, other, now)
  {
  }

  /** No lookahead: bars after the signal can change neither what is selected nor whether the search fails. */
  lemma {:induction false} NoLookahead(
    contracts: seq<Contract>, history: History, other: History, now: Moment,
    r: Result<Option<Quad>>, s: Result<Option<Quad>>)
    requires AgreeUpTo(history, other, now.at)
    requires IsSearch(contracts, history, now, r) && IsSearch(contracts, other, now, s)
    ensures r == s
  {
    forall q ensures Selectable(q, contracts, history, now) == Selectable(q, contracts, other, now) {
      SameSelectable(q, contracts, history, other, now);
    }
    if r.Ok? {
      assert IsSelection(contracts, history, now, s.value);
      SelectionIsUnique(contracts, history, now, r.value, s.value);
    }
  }

  /** Contracts that are told apart by their symbols never fail the search. */
  lemma {:induction false} DistinctContractsNeverFail(
    contracts: seq<Contract>, history: History, now: Moment, r: Result<Option<Quad>>)
    requires DistinctContracts(contracts) && IsSearch(contracts, history, now, r)
    ensures r.Ok?
  {
    forall q | Selectable(q, contracts, history, now) ensures FourSymbols(q) {
      assert Among(q, contracts);
    }
  }

  datatype SignalLeg = SignalLeg(contract: Contract, side: Side, ratio: int)

  /** The legs of the signal that the selected structure becomes. */
  function SignalOf(q: Quad, strategy: Strategy): seq<SignalLeg> {
    var sides := ExpectedSides(strategy);
    [ SignalLeg(q.lowPut, sides[0], 1), SignalLeg(q.highPut, sides[1], 1),
      SignalLeg(q.lowCall, sides[2], 1), SignalLeg(q.highCall, sides[3], 1) ]
  }

  /** Two puts below two calls, in strike order. */
  predicate CoveredWings(a: Contract, b: Contract, c: Contract, d: Contract) {
    && a.right == b.right == Put && c.right == d.right == Call
    && a.strike < b.strike < c.strike < d.strike
  }

  /** What an atomic signal demands of its four legs, whatever order they come in, and the strategy it then is. */
  ghost predicate WellFormedSignal(legs: seq<SignalLeg>, now: Moment, strategy: Strategy) {
    && |legs| == 4
    && (forall i, j :: 0 <= i < j < 4 ==>
          && legs[i].contract.symbol != legs[j].contract.symbol
          && legs[i].contract.underlying == legs[j].contract.underlying
          && legs[i].contract.expiration == legs[j].contract.expiration
          && legs[i].ratio == legs[j].ratio)
    && 1 <= legs[0].contract.expiration - now.date <= 3
    && (forall i :: 0 <= i < 4 ==> legs[i].contract.multiplier == legs[i].contract.deliverableShares == 100)
    && exists a, b, c, d :: {a, b, c, d} <= {0, 1, 2, 3}
         && CoveredWings(legs[a].contract, legs[b].contract, legs[c].contract, legs[d].contract)
         && [legs[a].side, legs[b].side, legs[c].side, legs[d].side] in {[Buy, Sell, Sell, Buy], [Sell, Buy, Buy, Sell]}
         && (legs[a].side == Buy <==> strategy == ShortVol)
  }

  /** The legs of a search that succeeds make a valid signal of the strategy asked for. */
  lemma {:induction false} SelectionIsWellFormed(
    contracts: seq<Contract>, history: History, now: Moment, r: Result<Option<Quad>>, strategy: Strategy)
    requires IsSearch(contracts, history, now, r) && r.Ok? && r.value.Some?
    ensures WellFormedSignal(SignalOf(r.value.value, strategy), now, strategy)
  {
    var q := r.value.value;
    var legs := SignalOf(q, strategy);
    assert FourSymbols(q);
    assert CoveredWings(legs[0].contract, legs[1].contract, legs[2].contract, legs[3].contract);
    assert [legs[0].side, legs[1].side, legs[2].side, legs[3].side] == ExpectedSides(strategy);
    assert {0, 1, 2, 3} <= {0, 1, 2, 3};
  }
}
