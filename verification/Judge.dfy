/** The judge: recomputes every proposal's risk and issues one certificate or one refusal. */
module Judge {
  import opened Options
  import opened Payoff
  import opened Policy
  import opened Ranking
  import opened StableSort

  datatype Code = Gate(reason: Reason) | CatalystVeto | NoEligibleCandidate | RobustEvNonPositive

  datatype Verdict =
    | Issued(candidate: Candidate, issuedAt: int, expiresAt: int, dailyPnl: real)
    | Refused(reasons: set<Code>, candidateCount: nat)

  /** The context the gates see: it carries the expiry the certificate would have. */
  function JudgedContext(x: RiskContext, ttl: nat): RiskContext {
    x.(certificateExpiresAt := Some(x.now + ttl))
  }

  /** The proposal with its own worst loss in place of the one it came with. */
  function Recomputed(c: Candidate): Candidate
    requires c.legs != []
  {
    c.(maxLoss := ExactMaxLoss(c))
  }

  predicate AllHaveLegs(candidates: seq<Candidate>) {
    forall c :: c in candidates ==> c.legs != []
  }

  predicate Passes(policy: RiskPolicy, x: RiskContext, c: Candidate)
    requires c.legs != []
  {
    c.robustEv > 0.0 && Refusals(policy, Recomputed(c), x) == {}
  }

  /** Why a candidate does not pass. */
  function CodesFor(policy: RiskPolicy, x: RiskContext, c: Candidate): set<Code>
    requires c.legs != []
  {
    (set reason | reason in Refusals(policy, Recomputed(c), x) :: Gate(reason))
    + if c.robustEv <= 0.0 then {RobustEvNonPositive} else {}
  }

  /** The refusal codes of all candidates together. */
  ghost function AllCodes(policy: RiskPolicy, x: RiskContext, candidates: seq<Candidate>): set<Code>
    requires AllHaveLegs(candidates)
  {
    set c, code | c in candidates && code in CodesFor(policy, x, c) :: code
  }

  predicate NonePasses(policy: RiskPolicy, x: RiskContext, candidates: seq<Candidate>)
    requires AllHaveLegs(candidates)
  {
    forall c :: c in candidates ==> !Passes(policy, x, c)
  }

  /** A candidate that passes and comes no later in the ranking order than any other that does. */
  predicate Best(policy: RiskPolicy, x: RiskContext, candidates: seq<Candidate>, c: Candidate)
    requires AllHaveLegs(candidates)
  {
    && c in candidates && Passes(policy, x, c)
    && forall d :: d in candidates && Passes(policy, x, d) ==> NotAfter(c, d)
  }

  /** The verdicts the judge may reach, whatever the order of the candidates. */
  ghost predicate IsVerdict(
    policy: RiskPolicy, ttl: nat, candidates: seq<Candidate>, x: RiskContext, veto: bool, v: Verdict)
    requires AllHaveLegs(candidates)
  {
    var jx := JudgedContext(x, ttl);
    if veto then v == Refused({CatalystVeto}, |candidates|)
    else if candidates == [] then v == Refused({NoEligibleCandidate}, 0)
    else if NonePasses(policy, jx, candidates) then v == Refused(AllCodes(policy, jx, candidates), |candidates|)
    else exists c :: Best(policy, jx, candidates, c) && v == Issued(Recomputed(c), x.now, x.now + ttl, x.dailyPnl)
  }

  /** One proposal's turn: its worst loss is recomputed, then every gate is asked. */
  method Examine(policy: RiskPolicy, x: RiskContext, proposed: Candidate) returns (passes: bool, codes: set<Code>)
    requires proposed.legs != []
    ensures passes == Passes(policy, x, proposed)
    ensures codes == CodesFor(policy, x, proposed)
  {
    var candidate := Recomputed(proposed);
    var decision := Evaluate(policy, candidate, x);
    RefusalsAreViolations(policy, candidate, x);
    codes := set reason | reason in decision.reasons :: Gate(reason);
    if candidate.robustEv <= 0.0 {
      codes := codes + {RobustEvNonPositive};
      return false, codes;
    }
    return decision.allowed, codes;
  }

  /** Walks the ranking until a candidate passes, collecting refusals on the way. */
  method Certify(policy: RiskPolicy, ttl: nat, candidates: seq<Candidate>, x: RiskContext, veto: bool)
    returns (v: Verdict)
    requires AllHaveLegs(candidates) && 0 < ttl
    ensures IsVerdict(policy, ttl, candidates, x, veto, v)
  {
    if veto {
      return Refused({CatalystVeto}, |candidates|);
    }
    if candidates == [] {
      return Refused({NoEligibleCandidate}, 0);
    }
    var jx := JudgedContext(x, ttl);
    var refusals: set<Code> := {};
    var ranked := Rank(candidates);
    RankKeepsMembers(candidates);
    var i := 0;
    while i < |ranked|
      invariant 0 <= i <= |ranked|
      invariant NonePasses(policy, jx, ranked[..i])
      invariant refusals == AllCodes(policy, jx, ranked[..i])
    {
      var proposed := ranked[i];
      assert ranked[..i + 1] == ranked[..i] + [proposed];
      AllCodesGrow(policy, jx, ranked[..i], proposed);
      var passes, codes := Examine(policy, jx, proposed);
      refusals := refusals + codes;
      if passes {
        FirstPassingIsBest(policy, jx, candidates, i);
        return Issued(Recomputed(proposed), x.now, x.now + ttl, x.dailyPnl);
      }
      i := i + 1;
    }
    assert ranked[..i] == ranked;
    AllCodesOfMembers(policy, jx, ranked, candidates);
    return Refused(refusals, |candidates|);
  }

  lemma {:induction false} RankKeepsMembers(candidates: seq<Candidate>)
    ensures |Rank(candidates)| == |candidates|
    ensures forall c :: c in Rank(candidates) <==> c in candidates
  {
    NotAfterIsOrder();
    SortSorts(NotAfter, candidates);
    SameMembers(Rank(candidates), candidates);
  }

  lemma {:induction false} AllCodesGrow(policy: RiskPolicy, x: RiskContext, s: seq<Candidate>, c: Candidate)
    requires AllHaveLegs(s) && c.legs != []
    ensures AllHaveLegs(s + [c])
    ensures AllCodes(policy, x, s + [c]) == AllCodes(policy, x, s) + CodesFor(policy, x, c)
  {
  }

  lemma {:induction false} AllCodesOfMembers(policy: RiskPolicy, x: RiskContext, r: seq<Candidate>, s: seq<Candidate>)
    requires AllHaveLegs(r) && AllHaveLegs(s) && forall c :: c in r <==> c in s
    ensures AllCodes(policy, x, r) == AllCodes(policy, x, s)
    ensures NonePasses(policy, x, r) == NonePasses(policy, x, s)
  {
  }

  lemma {:induction false} FirstPassingIsBest(policy: RiskPolicy, x: RiskContext, candidates: seq<Candidate>, i: nat)
    requires AllHaveLegs(candidates) && AllHaveLegs(Rank(candidates)) && i < |Rank(candidates)|
    requires Passes(policy, x, Rank(candidates)[i])
    requires NonePasses(policy, x, Rank(candidates)[..i])
    ensures Best(policy, x, candidates, Rank(candidates)[i])
  {
    var ranked := Rank(candidates);
    NotAfterIsOrder();
    assert forall j :: 0 <= j < i ==> ranked[j] in ranked[..i];
    FirstIsLeast(NotAfter, candidates, (c: Candidate) => c.legs != [] && Passes(policy, x, c), i);
  }

  // ------------------------------------------------------------- theorems

  /** A call without a veto refuses exactly when no candidate passes every gate with positive robust value. */
  lemma {:induction false} RefusesIffNonePasses(
    policy: RiskPolicy, ttl: nat, candidates: seq<Candidate>, x: RiskContext, v: Verdict)
    requires AllHaveLegs(candidates) && IsVerdict(policy, ttl, candidates, x, false, v)
    ensures v.Refused? <==> NonePasses(policy, JudgedContext(x, ttl), candidates)
    ensures v.Refused? ==> v.reasons != {}
  {
    if v.Refused? && candidates != [] {
      var code := SomeCode(policy, JudgedContext(x, ttl), candidates[0]);
      assert code in AllCodes(policy, JudgedContext(x, ttl), candidates);
    }
  }

  /** A candidate that does not pass has a code that says why. */
  lemma {:induction false} SomeCode(policy: RiskPolicy, x: RiskContext, c: Candidate) returns (code: Code)
    requires c.legs != [] && !Passes(policy, x, c)
    ensures code in CodesFor(policy, x, c)
  {
    if c.robustEv <= 0.0 {
      code := RobustEvNonPositive;
    } else {
      var reason :| reason in Refusals(policy, Recomputed(c), x);
      code := Gate(reason);
    }
  }

  /** With distinct keys every order of the candidates leads to the same verdict, reasons included. */
  lemma {:induction false} VerdictIgnoresOrder(
    policy: RiskPolicy, ttl: nat, r: seq<Candidate>, s: seq<Candidate>, x: RiskContext, veto: bool,
    v: Verdict, w: Verdict)
    requires AllHaveLegs(r) && AllHaveLegs(s) && multiset(r) == multiset(s) && DistinctKeys(multiset(r))
    requires IsVerdict(policy, ttl, r, x, veto, v) && IsVerdict(policy, ttl, s, x, veto, w)
    ensures v == w
  {
    var jx := JudgedContext(x, ttl);
    SameMembers(r, s);
    AllCodesOfMembers(policy, jx, r, s);
    if v.Issued? && w.Issued? {
      var c :| Best(policy, jx, r, c) && v.candidate == Recomputed(c);
      var d :| Best(policy, jx, s, d) && w.candidate == Recomputed(d);
      BestIsUnique(policy, jx, r, s, c, d);
    }
  }

  lemma {:induction false} BestIsUnique(
    policy: RiskPolicy, x: RiskContext, r: seq<Candidate>, s: seq<Candidate>, c: Candidate, d: Candidate)
    requires AllHaveLegs(r) && AllHaveLegs(s) && (forall e :: e in r <==> e in s) && DistinctKeys(multiset(r))
    requires Best(policy, x, r, c) && Best(policy, x, s, d)
    ensures c == d
  {
    NotAfterIsTotal(c, d, c);
    assert c in multiset(r) && d in multiset(r);
  }

  /** What every certificate guarantees about its trade, over every terminal price. */
  lemma {:induction false} CertificateBoundsLoss(
    policy: RiskPolicy, ttl: nat, candidates: seq<Candidate>, x: RiskContext, veto: bool, v: Verdict)
    requires AllHaveLegs(candidates) && IsVerdict(policy, ttl, candidates, x, veto, v) && v.Issued?
    requires forall c :: c in candidates ==> WellFormed(c)
    ensures WellFormed(v.candidate) && v.candidate.maxLoss == ExactMaxLoss(v.candidate)
    ensures v.candidate.robustEv > 0.0
    ensures forall p :: p >= 0.0 ==>
      && StructurePnl(v.candidate, p) >= -policy.maxTradeLoss
      && v.dailyPnl + StructurePnl(v.candidate, p) > -policy.maxDailyLoss
  {
    var jx := JudgedContext(x, ttl);
    var d :| Best(policy, jx, candidates, d) && v == Issued(Recomputed(d), x.now, x.now + ttl, x.dailyPnl);
    SameTradeSameLoss(d, v.candidate);
    RefusalsAreViolations(policy, v.candidate, jx);
    assert !Violates(policy, v.candidate, jx, MaxTradeLoss) && !Violates(policy, v.candidate, jx, DailyLossLimit);
    CondorLossIsExact(v.candidate);
  }
}
