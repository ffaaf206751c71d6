/** The candidate ranking: a lexicographic key and a stable sort. */
module Ranking {
  import opened Payoff
  import opened StableSort

  datatype Key = Key(negatedEv: real, maxLoss: real, limitSize: real, symbols: string)

  function JoinedSymbols(legs: seq<OptionLeg>): string {
    if legs == [] then ""
    else if |legs| == 1 then legs[0].symbol
    else legs[0].symbol + ":" + JoinedSymbols(legs[1..])
  }

  function KeyOf(c: Candidate): Key {
    Key(-c.robustEv, c.maxLoss, Abs(c.entryLimit), JoinedSymbols(c.legs))
  }

  /** Code-point order of strings. */
  predicate StringLess(a: string, b: string) {
    b != [] && (a == [] || a[0] < b[0] || (a[0] == b[0] && StringLess(a[1..], b[1..])))
  }

  predicate KeyLess(a: Key, b: Key) {
    if a.negatedEv != b.negatedEv then a.negatedEv < b.negatedEv
    else if a.maxLoss != b.maxLoss then a.maxLoss < b.maxLoss
    else if a.limitSize != b.limitSize then a.limitSize < b.limitSize
    else StringLess(a.symbols, b.symbols)
  }

  /** Whether a may stand before b. */
  predicate NotAfter(a: Candidate, b: Candidate) {
    !KeyLess(KeyOf(b), KeyOf(a))
  }

  lemma {:induction false} StringLessIsTotal(a: string, b: string, c: string)
    ensures !StringLess(a, a)
    ensures StringLess(a, b) || a == b || StringLess(b, a)
    ensures StringLess(a, b) && StringLess(b, c) ==> StringLess(a, c)
  {
    if a != [] && b != [] && c != [] {
      StringLessIsTotal(a[1..], b[1..], c[1..]);
      assert a == [a[0]] + a[1..] && b == [b[0]] + b[1..];
    } else if a != [] && b != [] {
      StringLessIsTotal(a[1..], b[1..], []);
      assert a == [a[0]] + a[1..] && b == [b[0]] + b[1..];
    } else if a != [] {
      StringLessIsTotal(a[1..], [], []);
    }
  }

  lemma {:induction false} KeyLessIsTotal(a: Key, b: Key, c: Key)
    ensures !KeyLess(a, a)
    ensures KeyLess(a, b) || a == b || KeyLess(b, a)
    ensures KeyLess(a, b) && KeyLess(b, c) ==> KeyLess(a, c)
  {
    StringLessIsTotal(a.symbols, b.symbols, c.symbols);
  }

  lemma {:induction false} NotAfterIsTotal(a: Candidate, b: Candidate, c: Candidate)
    ensures NotAfter(a, b) || NotAfter(b, a)
    ensures NotAfter(a, b) && NotAfter(b, c) ==> NotAfter(a, c)
    ensures NotAfter(a, b) && NotAfter(b, a) <==> KeyOf(a) == KeyOf(b)
  {
    KeyLessIsTotal(KeyOf(a), KeyOf(b), KeyOf(a));
    KeyLessIsTotal(KeyOf(c), KeyOf(a), KeyOf(b));
    KeyLessIsTotal(KeyOf(b), KeyOf(c), KeyOf(a));
  }

  /** The key order is a total preorder whose ties are equal keys. */
  lemma {:induction false} NotAfterIsOrder()
    ensures TotalPreorder(NotAfter)
    ensures forall a, b :: Tied(NotAfter, a, b) <==> KeyOf(a) == KeyOf(b)
  {
    forall a: Candidate, b: Candidate, c: Candidate
      ensures NotAfter(a, b) || NotAfter(b, a)
      ensures NotAfter(a, b) && NotAfter(b, c) ==> NotAfter(a, c)
      ensures Tied(NotAfter, a, b) <==> KeyOf(a) == KeyOf(b)
    {
      NotAfterIsTotal(a, b, c);
    }
  }

  /** The ranking: a stable sort by key. */
  function Rank(s: seq<Candidate>): seq<Candidate> {
    Sort(NotAfter, s)
  }

  /** No two different candidates share a key. */
  ghost predicate DistinctKeys(m: multiset<Candidate>) {
    forall a, b :: a in m && b in m && KeyOf(a) == KeyOf(b) ==> a == b
  }

  /** The ranking is the same for every input order if and only if no two different candidates share a key. */
  lemma {:induction false} RankIgnoresOrderIff(m: multiset<Candidate>)
    ensures IgnoresOrder(NotAfter, m) <==> DistinctKeys(m)
  {
    NotAfterIsOrder();
    SortIgnoresOrderIff(NotAfter, m);
    DistinctKeysMeansNoTies(m);
  }

  lemma {:induction false} DistinctKeysMeansNoTies(m: multiset<Candidate>)
    ensures NoTies(NotAfter, m) <==> DistinctKeys(m)
  {
    forall a: Candidate, b: Candidate ensures Tied(NotAfter, a, b) <==> KeyOf(a) == KeyOf(b) {
      NotAfterIsTotal(a, b, a);
    }
  }
}
