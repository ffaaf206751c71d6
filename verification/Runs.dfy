/** Runs of a machine: a script of actions folded by a step function. */
module Runs {

  function From<S, A>(step: (S, A) -> S, s: S, script: seq<A>): S
    decreases |script|
  {
    if script == [] then s else From(step, step(s, script[0]), script[1..])
  }

  lemma {:induction false} Splits<S, A>(step: (S, A) -> S, s: S, p: seq<A>, q: seq<A>)
    ensures From(step, s, p + q) == From(step, From(step, s, p), q)
    decreases |p|
  {
    if p == [] {
      assert p + q == q;
    } else {
      assert (p + q)[0] == p[0] && (p + q)[1..] == p[1..] + q;
      Splits(step, step(s, p[0]), p[1..], q);
    }
  }

  lemma {:induction false} SplitsInFour<S, A>(
    step: (S, A) -> S, s: S, p: seq<A>, q: seq<A>, r: seq<A>, z: seq<A>)
    ensures From(step, s, p + (q + (r + z))) == From(step, From(step, From(step, From(step, s, p), q), r), z)
  {
    Splits(step, s, p, q + (r + z));
    Splits(step, From(step, s, p), q, r + z);
    Splits(step, From(step, From(step, s, p), q), r, z);
  }

  lemma {:induction false} One<S, A>(step: (S, A) -> S, s: S, a: A)
    ensures From(step, s, [a]) == step(s, a)
  {
    assert [a][1..] == [];
  }

  /** A run one action longer is one more step. */
  lemma {:induction false} Extends<S, A>(step: (S, A) -> S, s: S, script: seq<A>, k: nat)
    requires k < |script|
    ensures From(step, s, script[..k + 1]) == step(From(step, s, script[..k]), script[k])
  {
    assert script[..k + 1] == script[..k] + [script[k]];
    Splits(step, s, script[..k], [script[k]]);
    One(step, From(step, s, script[..k]), script[k]);
  }

  /** A property every step keeps holds after every run. */
  lemma {:induction false} Keeps<S(!new), A(!new)>(step: (S, A) -> S, inv: S -> bool, s: S, script: seq<A>)
    requires inv(s) && forall t, a :: inv(t) ==> inv(step(t, a))
    ensures inv(From(step, s, script))
    decreases |script|
  {
    if script != [] {
      Keeps(step, inv, step(s, script[0]), script[1..]);
    }
  }
}
