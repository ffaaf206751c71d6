/** A stable insertion sort over any total preorder, and when its result is independent of the input order. */
module StableSort {

  ghost predicate TotalPreorder<T(!new)>(leq: (T, T) -> bool) {
    && (forall a, b :: leq(a, b) || leq(b, a))
    && (forall a, b, c {:trigger leq(a, b), leq(b, c)} :: leq(a, b) && leq(b, c) ==> leq(a, c))
  }

  predicate Tied<T>(leq: (T, T) -> bool, a: T, b: T) {
    leq(a, b) && leq(b, a)
  }

  /** How many leading elements come strictly before x. */
  function Position<T>(leq: (T, T) -> bool, x: T, s: seq<T>): (p: nat)
    ensures p <= |s|
    ensures forall i :: 0 <= i < p ==> !leq(x, s[i])
    ensures p < |s| ==> leq(x, s[p])
  {
    if s == [] || leq(x, s[0]) then 0 else 1 + Position(leq, x, s[1..])
  }

  function Insert<T>(leq: (T, T) -> bool, x: T, s: seq<T>): seq<T> {
    var p := Position(leq, x, s);
    s[..p] + [x] + s[p..]
  }

  /** An element goes before the ones it ties with that follow it in the input. */
  function Sort<T>(leq: (T, T) -> bool, s: seq<T>): seq<T> {
    if s == [] then [] else Insert(leq, s[0], Sort(leq, s[1..]))
  }

  predicate Sorted<T>(leq: (T, T) -> bool, s: seq<T>) {
    forall i, j :: 0 <= i < j < |s| ==> leq(s[i], s[j])
  }

  lemma {:induction false} InsertKeepsMembers<T>(leq: (T, T) -> bool, x: T, s: seq<T>)
    ensures multiset(Insert(leq, x, s)) == multiset{x} + multiset(s)
  {
    var p := Position(leq, x, s);
    assert s == s[..p] + s[p..];
  }

  lemma {:induction false} InsertKeepsSorted<T(!new)>(leq: (T, T) -> bool, x: T, s: seq<T>)
    requires TotalPreorder(leq) && Sorted(leq, s)
    ensures Sorted(leq, Insert(leq, x, s))
  {
  }

  /** The result is a permutation of the input in order. */
  lemma {:induction false} SortSorts<T(!new)>(leq: (T, T) -> bool, s: seq<T>)
    requires TotalPreorder(leq)
    ensures Sorted(leq, Sort(leq, s))
    ensures multiset(Sort(leq, s)) == multiset(s)
  {
    if s != [] {
      SortSorts(leq, s[1..]);
      InsertKeepsSorted(leq, s[0], Sort(leq, s[1..]));
      InsertKeepsMembers(leq, s[0], Sort(leq, s[1..]));
      assert s == [s[0]] + s[1..];
    }
  }

  lemma {:induction false} SameMembers<T>(r: seq<T>, s: seq<T>)
    requires multiset(r) == multiset(s)
    ensures |r| == |s|
    ensures forall c :: c in r <==> c in s
  {
    assert |r| == |multiset(r)| && |s| == |multiset(s)|;
    forall c ensures c in r <==> c in s {
      assert c in r <==> c in multiset(r);
      assert c in s <==> c in multiset(s);
    }
  }

  /** No two different elements tie. */
  ghost predicate NoTies<T(!new)>(leq: (T, T) -> bool, m: multiset<T>) {
    forall a, b :: a in m && b in m && Tied(leq, a, b) ==> a == b
  }

  lemma {:induction false} SameHeads<T(!new)>(leq: (T, T) -> bool, r: seq<T>, s: seq<T>)
    requires multiset(r) == multiset(s) && Sorted(leq, r) && Sorted(leq, s) && NoTies(leq, multiset(r))
    requires r != [] && s != []
    ensures r[0] == s[0]
  {
    SameMembers(r, s);
    assert r[0] in s && s[0] in r;
    assert r[0] in multiset(r) && s[0] in multiset(r);
  }

  lemma {:induction false} WithoutHead<T>(r: seq<T>)
    requires r != []
    ensures multiset(r[1..]) == multiset(r) - multiset{r[0]}
  {
    assert r == [r[0]] + r[1..];
  }

  lemma {:induction false} SortedUnique<T(!new)>(leq: (T, T) -> bool, r: seq<T>, s: seq<T>)
    requires multiset(r) == multiset(s) && Sorted(leq, r) && Sorted(leq, s) && NoTies(leq, multiset(r))
    ensures r == s
  {
    SameMembers(r, s);
    if r != [] {
      SameHeads(leq, r, s);
      WithoutHead(r);
      WithoutHead(s);
      SortedUnique(leq, r[1..], s[1..]);
      assert r == [r[0]] + r[1..] && s == [s[0]] + s[1..];
    }
  }

  lemma {:induction false} SamePosition<T(!new)>(leq: (T, T) -> bool, a: T, b: T, s: seq<T>)
    requires TotalPreorder(leq) && Tied(leq, a, b)
    ensures Position(leq, a, s) == Position(leq, b, s)
  {
  }

  /** Inserted one after the other, the later of two tied elements comes first. */
  lemma {:induction false} LaterInsertFirst<T(!new)>(leq: (T, T) -> bool, a: T, b: T, s: seq<T>)
    requires TotalPreorder(leq) && Tied(leq, a, b)
    ensures
      var p := Position(leq, b, s);
      var r := Insert(leq, a, Insert(leq, b, s));
      p < |r| && r[p] == a
  {
  }

  lemma {:induction false} SortOfTwo<T>(leq: (T, T) -> bool, a: T, b: T, s: seq<T>)
    ensures Sort(leq, [a, b] + s) == Insert(leq, a, Insert(leq, b, Sort(leq, s)))
  {
  }

  /** Of two tied elements at the front the first stays first, so their order shows. */
  lemma {:induction false} TiesShowOrder<T(!new)>(leq: (T, T) -> bool, a: T, b: T, s: seq<T>)
    requires TotalPreorder(leq) && Tied(leq, a, b) && a != b
    ensures Sort(leq, [a, b] + s) != Sort(leq, [b, a] + s)
  {
    SortOfTwo(leq, a, b, s);
    SortOfTwo(leq, b, a, s);
    SamePosition(leq, a, b, Sort(leq, s));
    LaterInsertFirst(leq, a, b, Sort(leq, s));
    LaterInsertFirst(leq, b, a, Sort(leq, s));
  }

  lemma {:induction false} SeqOf<T>(m: multiset<T>) returns (s: seq<T>)
    ensures multiset(s) == m
    decreases |m|
  {
    s := [];
    if m != multiset{} {
      var x :| x in m;
      var rest := SeqOf(m - multiset{x});
      s := [x] + rest;
    }
  }

  lemma {:induction false} PairAndRest<T>(m: multiset<T>, a: T, b: T) returns (rest: seq<T>)
    requires a in m && b in m && a != b
    ensures multiset([a, b] + rest) == m
    ensures multiset([b, a] + rest) == m
  {
    rest := SeqOf(m - multiset{a, b});
    assert multiset([a, b] + rest) == multiset{a, b} + multiset(rest);
    assert multiset([b, a] + rest) == multiset{a, b} + multiset(rest);
  }

  lemma {:induction false} SortIgnoresOrder<T(!new)>(leq: (T, T) -> bool, r: seq<T>, s: seq<T>)
    requires TotalPreorder(leq) && multiset(r) == multiset(s) && NoTies(leq, multiset(r))
    ensures Sort(leq, r) == Sort(leq, s)
  {
    SortSorts(leq, r);
    SortSorts(leq, s);
    SortedUnique(leq, Sort(leq, r), Sort(leq, s));
  }

  lemma {:induction false} TiesExposeOrder<T(!new)>(leq: (T, T) -> bool, m: multiset<T>) returns (r: seq<T>, s: seq<T>)
    requires TotalPreorder(leq) && !NoTies(leq, m)
    ensures multiset(r) == m == multiset(s) && Sort(leq, r) != Sort(leq, s)
  {
    var a, b :| a in m && b in m && Tied(leq, a, b) && a != b;
    var rest := PairAndRest(m, a, b);
    TiesShowOrder(leq, a, b, rest);
    return [a, b] + rest, [b, a] + rest;
  }

  /** Every order of the input gives the same result. */
  ghost predicate IgnoresOrder<T(!new)>(leq: (T, T) -> bool, m: multiset<T>) {
    forall r, s :: multiset(r) == m && multiset(s) == m ==> Sort(leq, r) == Sort(leq, s)
  }

  /** Sorting ignores the order of the input if and only if no two different elements tie. */
  lemma {:induction false} SortIgnoresOrderIff<T(!new)>(leq: (T, T) -> bool, m: multiset<T>)
    requires TotalPreorder(leq)
    ensures IgnoresOrder(leq, m) <==> NoTies(leq, m)
  {
    if NoTies(leq, m) {
      forall r, s | multiset(r) == m && multiset(s) == m ensures Sort(leq, r) == Sort(leq, s) {
        SortIgnoresOrder(leq, r, s);
      }
    } else {
      var r, s := TiesExposeOrder(leq, m);
      assert !IgnoresOrder(leq, m);
    }
  }

  /** The first element of the sorted sequence with some property is least among those that have it. */
  lemma {:induction false} FirstIsLeast<T(!new)>(leq: (T, T) -> bool, s: seq<T>, has: T -> bool, i: nat)
    requires TotalPreorder(leq) && i < |Sort(leq, s)| && has(Sort(leq, s)[i])
    requires forall j :: 0 <= j < i ==> !has(Sort(leq, s)[j])
    ensures Sort(leq, s)[i] in s
    ensures forall d :: d in s && has(d) ==> leq(Sort(leq, s)[i], d)
  {
    SortSorts(leq, s);
    SameMembers(Sort(leq, s), s);
  }
}
