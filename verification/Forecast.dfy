/** Discrete return forecasts and the frozen scenario transformations. */
module Forecast {
  import opened Options

  datatype Scenario = BaseCase | VolUp | VolDown | LeftTail | RightTail | Vetoed

  datatype Node = Node(ret: real, prob: real)

  function Mass(nodes: seq<Node>): real {
    if nodes == [] then 0.0 else nodes[0].prob + Mass(nodes[1..])
  }

  function Mean(nodes: seq<Node>): real {
    if nodes == [] then 0.0 else nodes[0].ret * nodes[0].prob + Mean(nodes[1..])
  }

  /** The probability of a return of at most x. */
  function Cumulative(nodes: seq<Node>, x: real): real {
    if nodes == [] then 0.0 else (if nodes[0].ret <= x then nodes[0].prob else 0.0) + Cumulative(nodes[1..], x)
  }

  predicate NonNegative(nodes: seq<Node>) {
    forall i :: 0 <= i < |nodes| ==> nodes[i].prob >= 0.0
  }

  /** The validated distribution. */
  predicate Valid(nodes: seq<Node>) {
    && nodes != [] && Mass(nodes) == 1.0
    && forall i :: 0 <= i < |nodes| ==> 0.0 <= nodes[i].prob <= 1.0
  }

  /** Every return moved away from the centre by a factor. */
  function Spread(nodes: seq<Node>, centre: real, factor: real): seq<Node> {
    if nodes == [] then []
    else [nodes[0].(ret := centre + (nodes[0].ret - centre) * factor)] + Spread(nodes[1..], centre, factor)
  }

  /** Whether a tail scenario gives a node extra weight. */
  predicate InTail(node: Node, left: bool) {
    if left then node.ret < 0.0 else node.ret > 0.0
  }

  function Weighted(nodes: seq<Node>, left: bool): seq<Node> {
    if nodes == [] then []
    else
      var weight := if InTail(nodes[0], left) then 1.25 else 1.0;
      [nodes[0].(prob := nodes[0].prob * weight)] + Weighted(nodes[1..], left)
  }

  function Divided(nodes: seq<Node>, total: real): seq<Node>
    requires total != 0.0
  {
    if nodes == [] then [] else [nodes[0].(prob := nodes[0].prob / total)] + Divided(nodes[1..], total)
  }

  /** Normalises all but the last probability and gives the last one what remains. */
  function ReplaceNodes(nodes: seq<Node>): seq<Node>
    requires nodes != [] && Mass(nodes) != 0.0
  {
    var last := |nodes| - 1;
    var normalized := Divided(nodes[..last], Mass(nodes));
    normalized + [nodes[last].(prob := 1.0 - Mass(normalized))]
  }

  /** Some favoured node's probability exceeds one once it is weighted, which no node may hold. */
  predicate Overweight(nodes: seq<Node>, left: bool) {
    exists i :: 0 <= i < |nodes| && InTail(nodes[i], left) && nodes[i].prob * 1.25 > 1.0
  }

  /** The nodes of a scenario before they are normalised. */
  function Raw(nodes: seq<Node>, scenario: Scenario): (r: seq<Node>)
    requires Valid(nodes)
    ensures r != [] && Mass(r) >= 1.0 && NonNegative(r)
  {
    match scenario
    case BaseCase => nodes
    case Vetoed => nodes
    case VolUp => SpreadFields(nodes, Mean(nodes), 1.10); Spread(nodes, Mean(nodes), 1.10)
    case VolDown => SpreadFields(nodes, Mean(nodes), 0.90); Spread(nodes, Mean(nodes), 0.90)
    case LeftTail => WeightedFields(nodes, true); Weighted(nodes, true)
    case RightTail => WeightedFields(nodes, false); Weighted(nodes, false)
  }

  function ApplyScenario(nodes: seq<Node>, scenario: Scenario): Result<seq<Node>>
    requires Valid(nodes)
  {
    if scenario in {BaseCase, Vetoed} then Ok(nodes)
    else if scenario in {LeftTail, RightTail} && Overweight(nodes, scenario == LeftTail) then
      Err("probability above one")
    else Ok(ReplaceNodes(Raw(nodes, scenario)))
  }

  // ------------------------------------------------------ building blocks

  lemma {:induction false} SpreadFields(nodes: seq<Node>, centre: real, factor: real)
    ensures
      var r := Spread(nodes, centre, factor);
      && |r| == |nodes| && Mass(r) == Mass(nodes)
      && forall i :: 0 <= i < |r| ==> r[i].prob == nodes[i].prob
  {
    if nodes != [] {
      SpreadFields(nodes[1..], centre, factor);
    }
  }

  lemma {:induction false} SpreadAt(nodes: seq<Node>, centre: real, factor: real, i: nat)
    requires i < |nodes| == |Spread(nodes, centre, factor)|
    ensures Spread(nodes, centre, factor)[i].ret == centre + (nodes[i].ret - centre) * factor
  {
    if i > 0 {
      SpreadFields(nodes[1..], centre, factor);
      SpreadAt(nodes[1..], centre, factor, i - 1);
      assert Spread(nodes, centre, factor)[i] == Spread(nodes[1..], centre, factor)[i - 1];
    }
  }

  /** The mass of the nodes a tail scenario favours. */
  function TailMass(nodes: seq<Node>, left: bool): real {
    if nodes == [] then 0.0 else (if InTail(nodes[0], left) then nodes[0].prob else 0.0) + TailMass(nodes[1..], left)
  }

  lemma {:induction false} WeightedFields(nodes: seq<Node>, left: bool)
    requires NonNegative(nodes)
    ensures
      var r := Weighted(nodes, left);
      && |r| == |nodes| && NonNegative(r)
      && Mass(r) == Mass(nodes) + 0.25 * TailMass(nodes, left)
      && 0.0 <= TailMass(nodes, left) <= Mass(nodes)
      && forall i :: 0 <= i < |r| ==> r[i].ret == nodes[i].ret
  {
    if nodes != [] {
      WeightedFields(nodes[1..], left);
    }
  }

  lemma {:induction false} ShareAdds(x: real, y: real, t: real)
    requires t != 0.0
    ensures (x + y) / t == x / t + y / t
  {
  }

  lemma {:induction false} ShareOfRemainder(front: real, last: real, t: real)
    requires front + last == t != 0.0
    ensures 1.0 - front / t == last / t && t / t == 1.0
  {
    ShareAdds(front, last, t);
  }

  lemma {:induction false} ShareOfProduct(r: real, p: real, t: real)
    requires t != 0.0
    ensures r * (p / t) == (r * p) / t
  {
  }

  lemma {:induction false} ShareIsNonNegative(p: real, t: real)
    requires t > 0.0 && p >= 0.0
    ensures p / t >= 0.0
  {
  }

  lemma {:induction false} DividedFields(nodes: seq<Node>, total: real)
    requires total > 0.0
    ensures |Divided(nodes, total)| == |nodes|
    ensures NonNegative(nodes) ==> NonNegative(Divided(nodes, total))
  {
    if nodes != [] {
      DividedFields(nodes[1..], total);
      if NonNegative(nodes) {
        ShareIsNonNegative(nodes[0].prob, total);
      }
    }
  }

  lemma {:induction false} DividedMass(nodes: seq<Node>, total: real)
    requires total != 0.0
    ensures Mass(Divided(nodes, total)) == Mass(nodes) / total
  {
    if nodes != [] {
      DividedMass(nodes[1..], total);
      ShareAdds(nodes[0].prob, Mass(nodes[1..]), total);
    }
  }

  lemma {:induction false} DividedMean(nodes: seq<Node>, total: real)
    requires total != 0.0
    ensures Mean(Divided(nodes, total)) == Mean(nodes) / total
  {
    if nodes != [] {
      DividedMean(nodes[1..], total);
      ShareOfProduct(nodes[0].ret, nodes[0].prob, total);
      ShareAdds(nodes[0].ret * nodes[0].prob, Mean(nodes[1..]), total);
    }
  }

  lemma {:induction false} DividedCumulative(nodes: seq<Node>, total: real, x: real)
    requires total != 0.0
    ensures Cumulative(Divided(nodes, total), x) == Cumulative(nodes, x) / total
  {
    if nodes != [] {
      DividedCumulative(nodes[1..], total, x);
      ShareAdds(if nodes[0].ret <= x then nodes[0].prob else 0.0, Cumulative(nodes[1..], x), total);
    }
  }

  lemma {:induction false} MassSplits(nodes: seq<Node>, more: seq<Node>)
    ensures Mass(nodes + more) == Mass(nodes) + Mass(more)
  {
    if nodes == [] {
      assert nodes + more == more;
    } else {
      assert (nodes + more)[1..] == nodes[1..] + more;
      MassSplits(nodes[1..], more);
    }
  }

  lemma {:induction false} DividedSplits(nodes: seq<Node>, more: seq<Node>, total: real)
    requires total != 0.0
    ensures Divided(nodes + more, total) == Divided(nodes, total) + Divided(more, total)
  {
    if nodes == [] {
      assert nodes + more == more;
    } else {
      assert (nodes + more)[1..] == nodes[1..] + more;
      DividedSplits(nodes[1..], more, total);
    }
  }

  /** In exact arithmetic the remainder given to the last node is its normalised share. */
  lemma {:induction false} RemainderIsShare(nodes: seq<Node>, total: real)
    requires nodes != [] && Mass(nodes) == total != 0.0
    ensures 1.0 - Mass(Divided(nodes[..|nodes| - 1], total)) == nodes[|nodes| - 1].prob / total
  {
    var front, back := nodes[..|nodes| - 1], nodes[|nodes| - 1..];
    assert nodes == front + back;
    MassSplits(front, back);
    assert Mass(back) == back[0].prob;
    DividedMass(front, total);
    ShareOfRemainder(Mass(front), nodes[|nodes| - 1].prob, total);
  }

  lemma {:induction false} DividedEndsWith(nodes: seq<Node>, total: real)
    requires nodes != [] && total != 0.0
    ensures
      var last := nodes[|nodes| - 1];
      Divided(nodes, total) == Divided(nodes[..|nodes| - 1], total) + [last.(prob := last.prob / total)]
  {
    var front, back := nodes[..|nodes| - 1], nodes[|nodes| - 1..];
    assert nodes == front + back && back[1..] == [];
    DividedSplits(front, back, total);
  }

  lemma {:induction false} ReplaceNormalizes(nodes: seq<Node>)
    requires nodes != [] && Mass(nodes) > 0.0
    ensures ReplaceNodes(nodes) == Divided(nodes, Mass(nodes))
  {
    RemainderIsShare(nodes, Mass(nodes));
    DividedEndsWith(nodes, Mass(nodes));
  }

  lemma {:induction false} DividedByOne(nodes: seq<Node>)
    ensures Divided(nodes, 1.0) == nodes
  {
    if nodes != [] {
      DividedByOne(nodes[1..]);
    }
  }

  lemma {:induction false} ProbabilitiesBounded(nodes: seq<Node>)
    requires NonNegative(nodes)
    ensures Mass(nodes) >= 0.0
    ensures forall i :: 0 <= i < |nodes| ==> nodes[i].prob <= Mass(nodes)
  {
    if nodes != [] {
      ProbabilitiesBounded(nodes[1..]);
    }
  }

  lemma {:induction false} CumulativeBounds(nodes: seq<Node>, x: real)
    requires NonNegative(nodes)
    ensures 0.0 <= Cumulative(nodes, x) <= Mass(nodes)
  {
    if nodes != [] {
      CumulativeBounds(nodes[1..], x);
    }
  }

  // ------------------------------------------------------------- theorems

  /** Normalising non-negative weights gives probabilities. */
  lemma {:induction false} NormalizedIsValid(nodes: seq<Node>)
    requires nodes != [] && NonNegative(nodes) && Mass(nodes) > 0.0
    ensures Valid(ReplaceNodes(nodes))
  {
    ReplaceNormalizes(nodes);
    DividedFields(nodes, Mass(nodes));
    DividedMass(nodes, Mass(nodes));
    ShareOfRemainder(0.0, Mass(nodes), Mass(nodes));
    ProbabilitiesBounded(Divided(nodes, Mass(nodes)));
  }

  /** A node that a tail scenario would weight above one. */
  predicate Heavy(node: Node, scenario: Scenario) {
    node.prob > 0.8 && ((scenario == LeftTail && node.ret < 0.0) || (scenario == RightTail && node.ret > 0.0))
  }

  /**
   A scenario fails exactly when a tail scenario would weight some single node
   above one; otherwise it yields probabilities: none negative, none above
   one, summing to one.
   */
  lemma {:induction false} ScenarioKeepsProbability(nodes: seq<Node>, scenario: Scenario)
    requires Valid(nodes)
    ensures
      var r := ApplyScenario(nodes, scenario);
      && (r.Err? <==> exists i :: 0 <= i < |nodes| && Heavy(nodes[i], scenario))
      && (r.Ok? ==> Valid(r.value))
  {
    NormalizedIsValid(Raw(nodes, scenario));
    forall i | 0 <= i < |nodes|
      ensures Heavy(nodes[i], scenario)
         <==> scenario in {LeftTail, RightTail} && InTail(nodes[i], scenario == LeftTail) && nodes[i].prob * 1.25 > 1.0
    {
    }
  }

  const HEAVY_TAIL := [Node(-0.01, 0.9), Node(0.02, 0.1)]

  /** A concrete valid forecast that the left-tail scenario refuses. */
  lemma {:induction false} HeavyTailFails()
    ensures Valid(HEAVY_TAIL) && ApplyScenario(HEAVY_TAIL, LeftTail).Err?
  {
    assert HEAVY_TAIL[1..] == [HEAVY_TAIL[1]] && HEAVY_TAIL[1..][1..] == [];
    assert Mass(HEAVY_TAIL[1..]) == 0.1;
    ScenarioKeepsProbability(HEAVY_TAIL, LeftTail);
    assert Heavy(HEAVY_TAIL[0], LeftTail);
  }

  lemma {:induction false} AffineTerm(r: real, p: real, m: real, n: real, factor: real, k: real)
    ensures (r * factor + k) * p + (m * factor + n * k) == (r * p + m) * factor + (p + n) * k
  {
  }

  lemma {:induction false} MeanOfAffine(moved: seq<Node>, nodes: seq<Node>, factor: real, k: real)
    requires |moved| == |nodes|
    requires forall i :: 0 <= i < |nodes| ==>
      moved[i].prob == nodes[i].prob && moved[i].ret == nodes[i].ret * factor + k
    ensures Mean(moved) == Mean(nodes) * factor + Mass(nodes) * k
  {
    if nodes != [] {
      MeanOfAffine(moved[1..], nodes[1..], factor, k);
      AffineTerm(nodes[0].ret, nodes[0].prob, Mean(nodes[1..]), Mass(nodes[1..]), factor, k);
    }
  }

  lemma {:induction false} SpreadIsAffine(r: real, centre: real, factor: real)
    ensures centre + (r - centre) * factor == r * factor + (centre - centre * factor)
  {
  }

  lemma {:induction false} CentreStays(m: real, mass: real, factor: real)
    requires mass == 1.0
    ensures m * factor + mass * (m - m * factor) == m
  {
  }

  lemma {:induction false} SpreadKeepsMean(nodes: seq<Node>, factor: real)
    requires Mass(nodes) == 1.0
    ensures Mean(Spread(nodes, Mean(nodes), factor)) == Mean(nodes)
  {
    var moved := Spread(nodes, Mean(nodes), factor);
    var k := Mean(nodes) - Mean(nodes) * factor;
    SpreadFields(nodes, Mean(nodes), factor);
    forall i | 0 <= i < |nodes| ensures moved[i].ret == nodes[i].ret * factor + k {
      SpreadAt(nodes, Mean(nodes), factor, i);
      SpreadIsAffine(nodes[i].ret, Mean(nodes), factor);
    }
    MeanOfAffine(moved, nodes, factor, k);
    CentreStays(Mean(nodes), Mass(nodes), factor);
  }

  lemma {:induction false} VolatilityOnlySpreads(nodes: seq<Node>, up: bool)
    requires Valid(nodes)
    ensures ApplyScenario(nodes, if up then VolUp else VolDown)
         == Ok(Spread(nodes, Mean(nodes), if up then 1.10 else 0.90))
  {
    var spread := Raw(nodes, if up then VolUp else VolDown);
    SpreadFields(nodes, Mean(nodes), if up then 1.10 else 0.90);
    ReplaceNormalizes(spread);
    DividedByOne(spread);
  }

  /** A volatility scenario: the mean and every probability stay, every deviation from the mean is scaled. */
  predicate Rescaled(before: seq<Node>, after: seq<Node>, factor: real) {
    && |after| == |before| && Mean(after) == Mean(before)
    && forall i :: 0 <= i < |before| ==>
         && after[i].prob == before[i].prob
         && after[i].ret == Mean(before) + (before[i].ret - Mean(before)) * factor
  }

  lemma {:induction false} SpreadIsRescaled(nodes: seq<Node>, factor: real)
    requires Valid(nodes)
    ensures Rescaled(nodes, Spread(nodes, Mean(nodes), factor), factor)
  {
    var r := Spread(nodes, Mean(nodes), factor);
    SpreadFields(nodes, Mean(nodes), factor);
    SpreadKeepsMean(nodes, factor);
    forall i | 0 <= i < |nodes|
      ensures r[i].ret == Mean(nodes) + (nodes[i].ret - Mean(nodes)) * factor
    {
      SpreadAt(nodes, Mean(nodes), factor, i);
    }
  }

  /** Volatility scenarios never fail, keep the mean, and scale every deviation from it by 1.10 or 0.90. */
  lemma {:induction false} VolatilityScalesDeviations(nodes: seq<Node>)
    requires Valid(nodes)
    ensures ApplyScenario(nodes, VolUp).Ok? && Rescaled(nodes, ApplyScenario(nodes, VolUp).value, 1.10)
    ensures ApplyScenario(nodes, VolDown).Ok? && Rescaled(nodes, ApplyScenario(nodes, VolDown).value, 0.90)
  {
    VolatilityOnlySpreads(nodes, true);
    VolatilityOnlySpreads(nodes, false);
    SpreadIsRescaled(nodes, 1.10);
    SpreadIsRescaled(nodes, 0.90);
  }

  lemma {:induction false} WeightedCumulative(nodes: seq<Node>, left: bool, x: real)
    requires NonNegative(nodes)
    ensures
      var c := Cumulative(nodes, x);
      var w := Cumulative(Weighted(nodes, left), x);
      && (left ==> w == c + 0.25 * (if x < 0.0 then c else TailMass(nodes, true)))
      && (!left ==> w == c + 0.25 * (if x <= 0.0 then 0.0 else c - (Mass(nodes) - TailMass(nodes, false))))
  {
    if nodes != [] {
      WeightedCumulative(nodes[1..], left, x);
    }
  }

  /** The mean of the favoured nodes alone. */
  function TailMean(nodes: seq<Node>, left: bool): real {
    if nodes == [] then 0.0
    else (if InTail(nodes[0], left) then nodes[0].ret * nodes[0].prob else 0.0) + TailMean(nodes[1..], left)
  }

  lemma {:induction false} SignedProduct(x: real, y: real)
    requires y >= 0.0
    ensures x >= 0.0 ==> x * y >= 0.0
    ensures x <= 0.0 ==> x * y <= 0.0
  {
  }

  lemma {:induction false} WeightedMean(nodes: seq<Node>, left: bool)
    requires NonNegative(nodes)
    ensures Mean(Weighted(nodes, left)) == Mean(nodes) + 0.25 * TailMean(nodes, left)
    ensures left ==> TailMean(nodes, left) <= 0.0 && TailMean(nodes, left) <= Mean(nodes)
    ensures !left ==> TailMean(nodes, left) >= 0.0 && TailMean(nodes, left) >= Mean(nodes)
  {
    if nodes != [] {
      WeightedMean(nodes[1..], left);
      SignedProduct(nodes[0].ret, nodes[0].prob);
      assert nodes[0].ret * (nodes[0].prob * 1.25)
          == nodes[0].ret * nodes[0].prob + 0.25 * (nodes[0].ret * nodes[0].prob);
    }
  }

  /** Adding h to c while the whole grows by n in a quarter each: the share grows when h keeps pace. */
  lemma {:induction false} ShareKeepsPace(c: real, h: real, n: real)
    requires n >= 0.0
    ensures n * c <= h ==> c <= (c + 0.25 * h) / (1.0 + 0.25 * n)
    ensures n * c >= h ==> c >= (c + 0.25 * h) / (1.0 + 0.25 * n)
  {
  }

  lemma {:induction false} PartBelow(x: real, y: real)
    requires 0.0 <= x <= 1.0 && y >= 0.0
    ensures 0.0 <= x * y <= y
  {
  }

  /** The left tail's cumulative share: c grows by itself below zero, by the whole tail from zero on. */
  lemma {:induction false} LeftShare(c: real, n: real, below: bool)
    requires 0.0 <= c <= 1.0 && 0.0 <= n <= 1.0
    ensures c <= (c + 0.25 * (if below then c else n)) / (1.0 + 0.25 * n)
  {
    PartBelow(n, c);
    PartBelow(c, n);
    ShareKeepsPace(c, if below then c else n, n);
  }

  /** The right tail's: c grows only by what it holds beyond the 1 - n outside the tail. */
  lemma {:induction false} RightShare(c: real, n: real, h: real)
    requires 0.0 <= c <= 1.0 && 0.0 <= n <= 1.0 && (h == 0.0 || h == c - (1.0 - n))
    ensures c >= (c + 0.25 * h) / (1.0 + 0.25 * n)
  {
    PartBelow(n, c);
    PartBelow(1.0 - c, 1.0 - n);
    assert (1.0 - c) * (1.0 - n) == 1.0 - c - n + n * c;
    ShareKeepsPace(c, h, n);
  }

  lemma {:induction false} PartOfLower(n: real, m: real, t: real)
    requires 0.0 <= n <= 1.0 && t <= 0.0 && t <= m
    ensures t <= n * m
  {
    if m <= 0.0 {
      PartBelow(n, -m);
      assert n * -m == -(n * m);
    } else {
      PartBelow(n, m);
    }
  }

  /** A part t of a mean m that is further from zero on one side pulls the share to that side. */
  lemma {:induction false} MeanShare(n: real, m: real, t: real)
    requires 0.0 <= n <= 1.0
    ensures t <= 0.0 && t <= m ==> (m + 0.25 * t) / (1.0 + 0.25 * n) <= m
    ensures t >= 0.0 && t >= m ==> (m + 0.25 * t) / (1.0 + 0.25 * n) >= m
  {
    if t <= 0.0 && t <= m {
      PartOfLower(n, m, t);
      ShareKeepsPace(m, t, n);
    }
    if t >= 0.0 && t >= m {
      PartOfLower(n, -m, -t);
      assert n * -m == -(n * m);
      ShareKeepsPace(m, t, n);
    }
  }

  /** A tail scenario divides the weighted nodes by one plus a quarter of the tail. */
  lemma {:induction false} TailOnlyDivides(nodes: seq<Node>, scenario: Scenario)
    requires Valid(nodes) && scenario in {LeftTail, RightTail} && ApplyScenario(nodes, scenario).Ok?
    ensures
      var left := scenario == LeftTail;
      var total := 1.0 + 0.25 * TailMass(nodes, left);
      && 0.0 <= TailMass(nodes, left) <= 1.0
      && total > 0.0
      && ApplyScenario(nodes, scenario).value == Divided(Weighted(nodes, left), total)
  {
    WeightedFields(nodes, scenario == LeftTail);
    ReplaceNormalizes(Weighted(nodes, scenario == LeftTail));
  }

  lemma {:induction false} TailCumulative(nodes: seq<Node>, scenario: Scenario, x: real)
    requires Valid(nodes) && scenario in {LeftTail, RightTail} && ApplyScenario(nodes, scenario).Ok?
    ensures
      var before := Cumulative(nodes, x);
      var after := Cumulative(ApplyScenario(nodes, scenario).value, x);
      if scenario == LeftTail then before <= after else after <= before
  {
    var left := scenario == LeftTail;
    var (c, n) := (Cumulative(nodes, x), TailMass(nodes, left));
    TailOnlyDivides(nodes, scenario);
    DividedCumulative(Weighted(nodes, left), 1.0 + 0.25 * n, x);
    WeightedCumulative(nodes, left, x);
    CumulativeBounds(nodes, x);
    LeftShare(c, n, x < 0.0);
    RightShare(c, n, if x <= 0.0 then 0.0 else c - (1.0 - n));
  }

  lemma {:induction false} TailMeanMoves(nodes: seq<Node>, scenario: Scenario)
    requires Valid(nodes) && scenario in {LeftTail, RightTail} && ApplyScenario(nodes, scenario).Ok?
    ensures
      var before := Mean(nodes);
      var after := Mean(ApplyScenario(nodes, scenario).value);
      if scenario == LeftTail then after <= before else before <= after
  {
    var left := scenario == LeftTail;
    var n := TailMass(nodes, left);
    TailOnlyDivides(nodes, scenario);
    DividedMean(Weighted(nodes, left), 1.0 + 0.25 * n);
    WeightedMean(nodes, left);
    MeanShare(n, Mean(nodes), TailMean(nodes, left));
  }

  /** A left-tail scenario raises every cumulative probability and never raises the mean. */
  lemma {:induction false} LeftTailShiftsLeft(nodes: seq<Node>)
    requires Valid(nodes) && ApplyScenario(nodes, LeftTail).Ok?
    ensures forall x :: Cumulative(nodes, x) <= Cumulative(ApplyScenario(nodes, LeftTail).value, x)
    ensures Mean(ApplyScenario(nodes, LeftTail).value) <= Mean(nodes)
  {
    forall x ensures Cumulative(nodes, x) <= Cumulative(ApplyScenario(nodes, LeftTail).value, x) {
      TailCumulative(nodes, LeftTail, x);
    }
    TailMeanMoves(nodes, LeftTail);
  }

  /** A right-tail scenario lowers every cumulative probability and never lowers the mean. */
  lemma {:induction false} RightTailShiftsRight(nodes: seq<Node>)
    requires Valid(nodes) && ApplyScenario(nodes, RightTail).Ok?
    ensures forall x :: Cumulative(ApplyScenario(nodes, RightTail).value, x) <= Cumulative(nodes, x)
    ensures Mean(nodes) <= Mean(ApplyScenario(nodes, RightTail).value)
  {
    forall x ensures Cumulative(ApplyScenario(nodes, RightTail).value, x) <= Cumulative(nodes, x) {
      TailCumulative(nodes, RightTail, x);
    }
    TailMeanMoves(nodes, RightTail);
  }
}
