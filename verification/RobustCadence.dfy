/** The weighted median and the median absolute deviation, over exact reals. */
module RobustCadence {
  import opened Prelude
  import opened Ranking

  /** A float: a finite value, or one of the values the functions drop. */
  datatype Number = Finite(value: real) | NotFinite

  datatype Weighted = Weighted(value: real, weight: real)

  function Abs(x: real): real {
    if x < 0.0 then -x else x
  }

  // ---------------------------------------------------------------- sums over pairs

  function SumOf(ps: seq<Weighted>, g: Weighted -> real): real {
    if ps == [] then 0.0 else SumOf(ps[..|ps| - 1], g) + g(ps[|ps| - 1])
  }

  function Mass(): Weighted -> real {
    (p: Weighted) => p.weight
  }

  function Nothing(): Weighted -> real {
    (p: Weighted) => 0.0
  }

  function MassAtMost(m: real): Weighted -> real {
    (p: Weighted) => if p.value <= m then p.weight else 0.0
  }

  function MassBelow(m: real): Weighted -> real {
    (p: Weighted) => if p.value < m then p.weight else 0.0
  }

  function MassInside(lo: real, hi: real): Weighted -> real {
    (p: Weighted) => if lo <= p.value <= hi then p.weight else 0.0
  }

  function Distance(m: real): Weighted -> real {
    (p: Weighted) => p.weight * Abs(p.value - m)
  }

  lemma SumAppend(ps: seq<Weighted>, p: Weighted, g: Weighted -> real)
    ensures SumOf(ps + [p], g) == SumOf(ps, g) + g(p)
  {
    assert (ps + [p])[..|ps|] == ps;
  }

  lemma {:induction false} SumConcat(a: seq<Weighted>, b: seq<Weighted>, g: Weighted -> real)
    ensures SumOf(a + b, g) == SumOf(a, g) + SumOf(b, g)
  {
    if b == [] {
      assert a + b == a;
    } else {
      var n := |b| - 1;
      assert (a + b)[..|a + b| - 1] == a + b[..n];
      SumConcat(a, b[..n], g);
    }
  }

  lemma SumSplit(ps: seq<Weighted>, k: nat, g: Weighted -> real)
    requires k <= |ps|
    ensures SumOf(ps, g) == SumOf(ps[..k], g) + SumOf(ps[k..], g)
  {
    assert ps == ps[..k] + ps[k..];
    SumConcat(ps[..k], ps[k..], g);
  }

  lemma {:induction false} SumMore(ps: seq<Weighted>, g: Weighted -> real, h: Weighted -> real)
    requires forall p | p in ps :: g(p) <= h(p)
    ensures SumOf(ps, g) <= SumOf(ps, h)
  {
    if ps != [] {
      assert ps[|ps| - 1] in ps && forall p | p in ps[..|ps| - 1] :: p in ps;
      SumMore(ps[..|ps| - 1], g, h);
    }
  }

  /** Sums are linear. */
  lemma {:induction false} SumCombines(ps: seq<Weighted>, h: Weighted -> real, f: Weighted -> real, c: real,
                                       g: Weighted -> real)
    requires forall p | p in ps :: h(p) == f(p) + c * g(p)
    ensures SumOf(ps, h) == SumOf(ps, f) + c * SumOf(ps, g)
  {
    if ps != [] {
      var n := |ps| - 1;
      assert ps[n] in ps && forall p | p in ps[..n] :: p in ps;
      SumCombines(ps[..n], h, f, c, g);
      Distribute(c, SumOf(ps[..n], g), g(ps[n]));
    }
  }

  lemma Distribute(c: real, x: real, y: real)
    ensures c * (x + y) == c * x + c * y
  {
  }

  lemma TakeOut(ps: seq<Weighted>, i: nat, g: Weighted -> real)
    requires i < |ps|
    ensures SumOf(ps, g) == SumOf(ps[..i] + ps[i + 1..], g) + g(ps[i])
  {
    var before, after := ps[..i], ps[i + 1..];
    assert ps[..i + 1] == before + [ps[i]];
    SumAppend(before, ps[i], g);
    SumSplit(ps, i + 1, g);
    SumConcat(before, after, g);
  }

  /** A sum depends on the multiset of pairs only. */
  lemma {:induction false} SumOfPermutation(a: seq<Weighted>, b: seq<Weighted>, g: Weighted -> real)
    requires multiset(a) == multiset(b)
    ensures SumOf(a, g) == SumOf(b, g)
  {
    assert |multiset(a)| == |multiset(b)|;
    if a != [] {
      var n := |a| - 1;
      assert a[n] in multiset(b);
      var i :| 0 <= i < |b| && b[i] == a[n];
      Without(a, n);
      assert a[..n] + a[n + 1..] == a[..n];
      Without(b, i);
      TakeOut(b, i, g);
      SumOfPermutation(a[..n], b[..i] + b[i + 1..], g);
    }
  }

  // ---------------------------------------------------------------- the weighted median

  predicate SmallerValue(a: Weighted, b: Weighted) {
    a.value < b.value
  }

  /** The pairs with positive weight and finite value, of the two lists cut to the shorter one. */
  function Usable(values: seq<Number>, weights: seq<real>): (ps: seq<Weighted>)
    ensures forall p | p in ps :: p.weight > 0.0
  {
    if values == [] || weights == [] then []
    else
      var rest := Usable(values[1..], weights[1..]);
      if weights[0] > 0.0 && values[0].Finite? then [Weighted(values[0].value, weights[0])] + rest else rest
  }

  /** The value at which the running weight reaches half, scanning `ps` in order. */
  function Crossing(ps: seq<Weighted>, running: real, half: real): Option<real> {
    if ps == [] then None
    else if running + ps[0].weight >= half then Some(ps[0].value)
    else Crossing(ps[1..], running + ps[0].weight, half)
  }

  function ScanMedian(sorted: seq<Weighted>): Option<real> {
    Crossing(sorted, 0.0, SumOf(sorted, Mass()) / 2.0)
  }

  function WeightedMedian(values: seq<Number>, weights: seq<real>): Option<real> {
    ScanMedian(Sort(Usable(values, weights), SmallerValue))
  }

  method ComputeWeightedMedian(values: seq<Number>, weights: seq<real>) returns (median: Option<real>)
    ensures median == WeightedMedian(values, weights)
  {
    var pairs := Sort(Usable(values, weights), SmallerValue);
    if pairs == [] {
      return None;
    }
    SortedUsable(values, weights);
    median := ScanPairs(pairs);
  }

  method ScanPairs(pairs: seq<Weighted>) returns (median: Option<real>)
    requires pairs != [] && forall p | p in pairs :: p.weight > 0.0
    ensures median == ScanMedian(pairs)
  {
    var half := SumOf(pairs, Mass()) / 2.0;
    var running := 0.0;
    SumPositive(pairs);
    assert pairs[..|pairs|] == pairs && pairs[0..] == pairs;
    for i := 0 to |pairs|
      invariant running == SumOf(pairs[..i], Mass())
      invariant Crossing(pairs[i..], running, half) == ScanMedian(pairs)
      invariant running < half
    {
      assert pairs[..i + 1] == pairs[..i] + [pairs[i]];
      SumAppend(pairs[..i], pairs[i], Mass());
      assert pairs[i..][1..] == pairs[i + 1..] && pairs[i..][0] == pairs[i];
      running := running + pairs[i].weight;
      if running >= half {
        return Some(pairs[i].value);
      }
    }
    // The source's closing `return pairs[-1][0]` serves rounding only.
    assert false;
  }

  lemma SumPositive(ps: seq<Weighted>)
    requires ps != [] && forall p | p in ps :: p.weight > 0.0
    ensures SumOf(ps, Mass()) > 0.0
  {
    var n := |ps| - 1;
    assert ps[n] in ps && forall p | p in ps[..n] :: p in ps;
    NonNegative(ps[..n], Mass());
  }

  lemma {:induction false} NonNegative(ps: seq<Weighted>, g: Weighted -> real)
    requires forall p | p in ps :: g(p) >= 0.0
    ensures SumOf(ps, g) >= 0.0
  {
    if ps != [] {
      assert ps[|ps| - 1] in ps && forall p | p in ps[..|ps| - 1] :: p in ps;
      NonNegative(ps[..|ps| - 1], g);
    }
  }

  ghost predicate Ascending(ps: seq<Weighted>) {
    forall i, j | 0 <= i < j < |ps| :: ps[i].value <= ps[j].value
  }

  lemma SortedUsable(values: seq<Number>, weights: seq<real>)
    ensures var sorted := Sort(Usable(values, weights), SmallerValue);
            Ascending(sorted) && forall p | p in sorted :: p in Usable(values, weights) && p.weight > 0.0
  {
    var ps := Usable(values, weights);
    var sorted := Sort(ps, SmallerValue);
    SortOrdered(ps, SmallerValue);
    assert forall i, j | 0 <= i < j < |sorted| :: !SmallerValue(sorted[j], sorted[i]);
    forall p | p in sorted ensures p in ps {
      SortMembers(ps, SmallerValue, p);
    }
  }

  // ---------------------------------------------------------------- what is used

  /** The positions that both lists have. */
  function Zip(values: seq<Number>, weights: seq<real>): seq<(Number, real)> {
    seq(Min(|values|, |weights|), i requires 0 <= i < |values| && i < |weights| => (values[i], weights[i]))
  }

  function IsPair(v: Number, w: real): ((Number, real)) -> bool {
    (p: (Number, real)) => p == (v, w)
  }

  lemma {:induction false} UsableAppend(values: seq<Number>, weights: seq<real>, v: Number, w: real)
    requires |values| == |weights|
    ensures Usable(values + [v], weights + [w])
         == Usable(values, weights) + if w > 0.0 && v.Finite? then [Weighted(v.value, w)] else []
  {
    if values == [] {
      assert (values + [v])[1..] == [];
    } else {
      assert (values + [v])[1..] == values[1..] + [v] && (weights + [w])[1..] == weights[1..] + [w];
      UsableAppend(values[1..], weights[1..], v, w);
    }
  }

  lemma {:induction false} UsableCut(values: seq<Number>, weights: seq<real>)
    ensures var n := Min(|values|, |weights|); Usable(values, weights) == Usable(values[..n], weights[..n])
  {
    var n := Min(|values|, |weights|);
    if n > 0 {
      UsableCut(values[1..], weights[1..]);
      assert values[..n][1..] == values[1..][..n - 1] && weights[..n][1..] == weights[1..][..n - 1];
    }
  }

  lemma ZipAppend(values: seq<Number>, weights: seq<real>, x: Number, y: real, v: real, w: real)
    requires |values| == |weights|
    ensures Count(Zip(values + [x], weights + [y]), IsPair(Finite(v), w))
         == Count(Zip(values, weights), IsPair(Finite(v), w)) + if x == Finite(v) && y == w then 1 else 0
  {
    assert Zip(values + [x], weights + [y]) == Zip(values, weights) + [(x, y)];
    assert (Zip(values, weights) + [(x, y)])[..|values|] == Zip(values, weights);
  }

  lemma AppendCounts(ps: seq<Weighted>, last: seq<Weighted>, x: Number, y: real, v: real, w: real)
    requires last == if y > 0.0 && x.Finite? then [Weighted(x.value, y)] else []
    ensures multiset(ps + last)[Weighted(v, w)]
         == multiset(ps)[Weighted(v, w)] + if x == Finite(v) && y == w && w > 0.0 then 1 else 0
  {
  }

  lemma UsableGrows(values: seq<Number>, weights: seq<real>, x: Number, y: real, v: real, w: real)
    requires |values| == |weights|
    ensures multiset(Usable(values + [x], weights + [y]))[Weighted(v, w)]
         == multiset(Usable(values, weights))[Weighted(v, w)] + if x == Finite(v) && y == w && w > 0.0 then 1 else 0
  {
    var last := if y > 0.0 && x.Finite? then [Weighted(x.value, y)] else [];
    UsableAppend(values, weights, x, y);
    AppendCounts(Usable(values, weights), last, x, y, v, w);
  }

  lemma {:induction false} UsableCounts(values: seq<Number>, weights: seq<real>, v: real, w: real)
    requires |values| == |weights|
    ensures multiset(Usable(values, weights))[Weighted(v, w)]
         == if w > 0.0 then Count(Zip(values, weights), IsPair(Finite(v), w)) else 0
  {
    if values != [] {
      var front, x := values[..|values| - 1], values[|values| - 1];
      var back, y := weights[..|weights| - 1], weights[|weights| - 1];
      assert values == front + [x] && weights == back + [y];
      UsableGrows(front, back, x, y, v, w);
      ZipAppend(front, back, x, y, v, w);
      UsableCounts(front, back, v, w);
    }
  }

  /** A pair is used as often as a position of both lists holds its finite value and its positive
      weight; nothing else is used. */
  lemma UsableMeans(values: seq<Number>, weights: seq<real>, v: real, w: real)
    ensures multiset(Usable(values, weights))[Weighted(v, w)]
         == if w > 0.0 then Count(Zip(values, weights), IsPair(Finite(v), w)) else 0
  {
    var n := Min(|values|, |weights|);
    UsableCut(values, weights);
    UsableCounts(values[..n], weights[..n], v, w);
    assert Zip(values[..n], weights[..n]) == Zip(values, weights);
  }

  // ---------------------------------------------------------------- what it returns

  /** `m` is the lower weighted median: half of the weight is at or below it, less than half below. */
  ghost predicate IsLowerMedian(ps: seq<Weighted>, m: real) {
    && (exists p | p in ps :: p.value == m)
    && 2.0 * SumOf(ps, MassAtMost(m)) >= SumOf(ps, Mass())
    && 2.0 * SumOf(ps, MassBelow(m)) < SumOf(ps, Mass())
  }

  /** In an ascending list the prefix up to `k` bounds the weight at or below, and below, `ps[k]`. */
  lemma PrefixAtMost(ps: seq<Weighted>, k: nat)
    requires Ascending(ps) && k < |ps| && forall p | p in ps :: p.weight > 0.0
    ensures SumOf(ps, MassAtMost(ps[k].value)) >= SumOf(ps[..k + 1], Mass())
  {
    var g := MassAtMost(ps[k].value);
    var near, far := ps[..k + 1], ps[k + 1..];
    SumSplit(ps, k + 1, g);
    forall p | p in near ensures Mass()(p) <= g(p) {
      var i :| 0 <= i <= k && p == ps[i];
    }
    SumMore(near, Mass(), g);
    forall p | p in far ensures g(p) >= 0.0 {
      assert p in ps;
    }
    NonNegative(far, g);
  }

  lemma PrefixBelow(ps: seq<Weighted>, k: nat)
    requires Ascending(ps) && k < |ps| && forall p | p in ps :: p.weight > 0.0
    ensures SumOf(ps, MassBelow(ps[k].value)) <= SumOf(ps[..k], Mass())
  {
    var g := MassBelow(ps[k].value);
    var near, far := ps[..k], ps[k..];
    SumSplit(ps, k, g);
    forall p | p in near ensures g(p) <= Mass()(p) {
      assert p in ps;
    }
    SumMore(near, g, Mass());
    forall p | p in far ensures g(p) <= Nothing()(p) {
      var i :| k <= i < |ps| && p == ps[i];
    }
    SumMore(far, g, Nothing());
    SumNothing(far);
  }

  lemma {:induction false} SumNothing(ps: seq<Weighted>)
    ensures SumOf(ps, Nothing()) == 0.0
  {
    if ps != [] {
      SumNothing(ps[..|ps| - 1]);
    }
  }

  /** One step of the scan, with the total as a plain number. */
  lemma CrossingStep(ps: seq<Weighted>, k: nat, running: real, half: real)
    requires k < |ps|
    ensures Crossing(ps[k..], running, half)
         == if running + ps[k].weight >= half then Some(ps[k].value)
            else Crossing(ps[k + 1..], running + ps[k].weight, half)
  {
    assert ps[k..][0] == ps[k] && ps[k..][1..] == ps[k + 1..];
  }

  /** The scan stops at the first pair whose running weight reaches half. */
  lemma {:induction false} CrossingFrom(ps: seq<Weighted>, k: nat, running: real, total: real) returns (j: nat)
    requires k < |ps| && forall p | p in ps :: p.weight > 0.0
    requires total == SumOf(ps, Mass()) && running == SumOf(ps[..k], Mass()) && 2.0 * running < total
    ensures j < |ps| && Crossing(ps[k..], running, total / 2.0) == Some(ps[j].value)
    ensures 2.0 * SumOf(ps[..j], Mass()) < total <= 2.0 * SumOf(ps[..j + 1], Mass())
    decreases |ps| - k
  {
    var next := running + ps[k].weight;
    RunningSum(ps, k);
    CrossingStep(ps, k, running, total / 2.0);
    SumPositive(ps);
    assert ps[..|ps|] == ps;
    if next >= total / 2.0 {
      j := k;
    } else {
      j := CrossingFrom(ps, k + 1, next, total);
    }
  }

  lemma CrossedAt(ps: seq<Weighted>, k: nat)
    requires Ascending(ps) && k < |ps| && forall p | p in ps :: p.weight > 0.0
    requires 2.0 * SumOf(ps[..k], Mass()) < SumOf(ps, Mass()) <= 2.0 * SumOf(ps[..k + 1], Mass())
    ensures IsLowerMedian(ps, ps[k].value)
  {
    assert ps[k] in ps;
    PrefixAtMost(ps, k);
    PrefixBelow(ps, k);
  }

  lemma RunningSum(ps: seq<Weighted>, k: nat)
    requires k < |ps|
    ensures SumOf(ps[..k + 1], Mass()) == SumOf(ps[..k], Mass()) + ps[k].weight
  {
    assert ps[..k + 1] == ps[..k] + [ps[k]];
    SumAppend(ps[..k], ps[k], Mass());
  }

  lemma ScanIsLowerMedian(ps: seq<Weighted>)
    requires ps != [] && Ascending(ps) && forall p | p in ps :: p.weight > 0.0
    ensures ScanMedian(ps).Some? && IsLowerMedian(ps, ScanMedian(ps).value)
  {
    SumPositive(ps);
    assert ps[..0] == [] && ps[0..] == ps;
    var j := CrossingFrom(ps, 0, 0.0, SumOf(ps, Mass()));
    CrossedAt(ps, j);
  }

  lemma LowerMedianOfPermutation(a: seq<Weighted>, b: seq<Weighted>, m: real)
    requires multiset(a) == multiset(b) && IsLowerMedian(a, m)
    ensures IsLowerMedian(b, m)
  {
    SumOfPermutation(a, b, Mass());
    SumOfPermutation(a, b, MassAtMost(m));
    SumOfPermutation(a, b, MassBelow(m));
    var p :| p in a && p.value == m;
    assert p in multiset(b);
  }

  /** The result is an input value with half of the weight at or below it and less than half
      below it; there is one exactly when some pair is usable. */
  lemma MedianIsLowerMedian(values: seq<Number>, weights: seq<real>)
    ensures var ps := Usable(values, weights); var m := WeightedMedian(values, weights);
            if ps == [] then m.None? else m.Some? && IsLowerMedian(ps, m.value)
  {
    var ps := Usable(values, weights);
    var sorted := Sort(ps, SmallerValue);
    if ps != [] {
      SortedUsable(values, weights);
      ScanIsLowerMedian(sorted);
      LowerMedianOfPermutation(sorted, ps, ScanMedian(sorted).value);
    }
  }

  /** There is only one such value. */
  lemma LowerMedianIsUnique(ps: seq<Weighted>, a: real, b: real)
    requires (forall p | p in ps :: p.weight > 0.0) && IsLowerMedian(ps, a) && IsLowerMedian(ps, b)
    ensures a == b
  {
    if a < b {
      SumMore(ps, MassAtMost(a), MassBelow(b));
    } else if b < a {
      SumMore(ps, MassAtMost(b), MassBelow(a));
    }
  }

  /** So the order of the input does not matter. */
  lemma OrderDoesNotMatter(values: seq<Number>, weights: seq<real>, values': seq<Number>, weights': seq<real>)
    requires multiset(Usable(values, weights)) == multiset(Usable(values', weights'))
    ensures WeightedMedian(values, weights) == WeightedMedian(values', weights')
  {
    var ps, qs := Usable(values, weights), Usable(values', weights');
    MedianIsLowerMedian(values, weights);
    MedianIsLowerMedian(values', weights');
    assert |multiset(ps)| == |multiset(qs)|;
    if ps != [] {
      LowerMedianOfPermutation(qs, ps, WeightedMedian(values', weights').value);
      LowerMedianIsUnique(ps, WeightedMedian(values, weights).value, WeightedMedian(values', weights').value);
    }
  }

  // ---------------------------------------------------------------- least absolute deviations

  /** Moving from `a` to `b` changes each distance by at least the way times the signed weight
      `side`; if that weight adds up to nothing negative, `b` is no better than `a`. */
  lemma MoveAway(ps: seq<Weighted>, a: real, b: real, side: Weighted -> real, way: real)
    requires forall p | p in ps :: Distance(a)(p) + way * side(p) <= Distance(b)(p)
    requires way >= 0.0 && SumOf(ps, side) >= 0.0
    ensures SumOf(ps, Distance(a)) <= SumOf(ps, Distance(b))
  {
    var bound := (p: Weighted) => Distance(a)(p) + way * side(p);
    SumCombines(ps, bound, Distance(a), way, side);
    SumMore(ps, bound, Distance(b));
    Scale(way, 0.0, SumOf(ps, side));
  }

  function NearSide(m: real): Weighted -> real {
    (p: Weighted) => if p.value <= m then p.weight else -p.weight
  }

  function FarSide(m: real): Weighted -> real {
    (p: Weighted) => if p.value < m then -p.weight else p.weight
  }

  lemma NearSideSum(ps: seq<Weighted>, m: real)
    ensures SumOf(ps, NearSide(m)) == -SumOf(ps, Mass()) + 2.0 * SumOf(ps, MassAtMost(m))
  {
    var minus := (p: Weighted) => 0.0 + -1.0 * Mass()(p);
    SumCombines(ps, minus, Nothing(), -1.0, Mass());
    SumNothing(ps);
    SumCombines(ps, NearSide(m), minus, 2.0, MassAtMost(m));
  }

  lemma FarSideSum(ps: seq<Weighted>, m: real)
    ensures SumOf(ps, FarSide(m)) == SumOf(ps, Mass()) - 2.0 * SumOf(ps, MassBelow(m))
  {
    SumCombines(ps, FarSide(m), Mass(), -2.0, MassBelow(m));
  }

  lemma AllStepRight(ps: seq<Weighted>, a: real, b: real)
    requires a <= b && forall p | p in ps :: p.weight > 0.0
    ensures forall p | p in ps :: Distance(a)(p) + (b - a) * NearSide(a)(p) <= Distance(b)(p)
  {
    forall p | p in ps ensures Distance(a)(p) + (b - a) * NearSide(a)(p) <= Distance(b)(p) {
      StepRight(p, a, b);
    }
  }

  lemma AllStepLeft(ps: seq<Weighted>, a: real, b: real)
    requires b <= a && forall p | p in ps :: p.weight > 0.0
    ensures forall p | p in ps :: Distance(a)(p) + (a - b) * FarSide(a)(p) <= Distance(b)(p)
  {
    forall p | p in ps ensures Distance(a)(p) + (a - b) * FarSide(a)(p) <= Distance(b)(p) {
      StepLeft(p, a, b);
    }
  }

  lemma StepRight(p: Weighted, a: real, b: real)
    requires a <= b && p.weight > 0.0
    ensures Distance(a)(p) + (b - a) * NearSide(a)(p) <= Distance(b)(p)
  {
    var w := p.weight;
    if p.value <= a {
      assert Abs(p.value - a) + (b - a) == Abs(p.value - b);
      Distribute(w, Abs(p.value - a), b - a);
    } else {
      assert Abs(p.value - a) - (b - a) <= Abs(p.value - b);
      Distribute(w, Abs(p.value - a), -(b - a));
      Scale(w, Abs(p.value - a) - (b - a), Abs(p.value - b));
      Negate(w, b - a);
    }
  }

  lemma StepLeft(p: Weighted, a: real, b: real)
    requires b <= a && p.weight > 0.0
    ensures Distance(a)(p) + (a - b) * FarSide(a)(p) <= Distance(b)(p)
  {
    var w := p.weight;
    if p.value >= a {
      assert Abs(p.value - a) + (a - b) == Abs(p.value - b);
      Distribute(w, Abs(p.value - a), a - b);
    } else {
      assert Abs(p.value - a) - (a - b) <= Abs(p.value - b);
      Distribute(w, Abs(p.value - a), -(a - b));
      Scale(w, Abs(p.value - a) - (a - b), Abs(p.value - b));
      Negate(w, a - b);
    }
  }

  lemma Scale(w: real, x: real, y: real)
    requires w >= 0.0 && x <= y
    ensures w * x <= w * y
  {
  }

  lemma Negate(w: real, d: real)
    ensures w * -d == d * -w
  {
  }

  /** No real number has a smaller weighted sum of absolute deviations than the median. */
  lemma MedianMinimisesDeviation(values: seq<Number>, weights: seq<real>, x: real)
    requires WeightedMedian(values, weights).Some?
    ensures var ps := Usable(values, weights);
            SumOf(ps, Distance(WeightedMedian(values, weights).value)) <= SumOf(ps, Distance(x))
  {
    MedianIsLowerMedian(values, weights);
    LowerMedianMinimises(Usable(values, weights), WeightedMedian(values, weights).value, x);
  }

  lemma LowerMedianMinimises(ps: seq<Weighted>, m: real, x: real)
    requires (forall p | p in ps :: p.weight > 0.0) && IsLowerMedian(ps, m)
    ensures SumOf(ps, Distance(m)) <= SumOf(ps, Distance(x))
  {
    if m <= x {
      MoveRight(ps, m, x);
    } else {
      MoveLeft(ps, m, x);
    }
  }

  lemma MoveRight(ps: seq<Weighted>, m: real, x: real)
    requires (forall p | p in ps :: p.weight > 0.0) && m <= x
    requires 2.0 * SumOf(ps, MassAtMost(m)) >= SumOf(ps, Mass())
    ensures SumOf(ps, Distance(m)) <= SumOf(ps, Distance(x))
  {
    NearSideSum(ps, m);
    AllStepRight(ps, m, x);
    MoveAway(ps, m, x, NearSide(m), x - m);
  }

  lemma MoveLeft(ps: seq<Weighted>, m: real, x: real)
    requires (forall p | p in ps :: p.weight > 0.0) && x <= m
    requires 2.0 * SumOf(ps, MassBelow(m)) <= SumOf(ps, Mass())
    ensures SumOf(ps, Distance(m)) <= SumOf(ps, Distance(x))
  {
    FarSideSum(ps, m);
    AllStepLeft(ps, m, x);
    MoveAway(ps, m, x, FarSide(m), m - x);
  }

  // ---------------------------------------------------------------- breakdown

  /** While more than half of the weight lies in [lo, hi], so does the median, wherever the
      rest was moved to. */
  lemma MedianResists(values: seq<Number>, weights: seq<real>, lo: real, hi: real)
    requires var ps := Usable(values, weights); 2.0 * SumOf(ps, MassInside(lo, hi)) > SumOf(ps, Mass())
    ensures var m := WeightedMedian(values, weights); m.Some? && lo <= m.value <= hi
  {
    var ps := Usable(values, weights);
    MedianIsLowerMedian(values, weights);
    if ps != [] {
      LowerMedianInside(ps, WeightedMedian(values, weights).value, lo, hi);
    }
  }

  lemma LowerMedianInside(ps: seq<Weighted>, m: real, lo: real, hi: real)
    requires (forall p | p in ps :: p.weight > 0.0) && IsLowerMedian(ps, m)
    requires 2.0 * SumOf(ps, MassInside(lo, hi)) > SumOf(ps, Mass())
    ensures lo <= m <= hi
  {
    if m < lo {
      var outside := (p: Weighted) => Mass()(p) + -1.0 * MassAtMost(m)(p);
      SumCombines(ps, outside, Mass(), -1.0, MassAtMost(m));
      SumMore(ps, MassInside(lo, hi), outside);
    }
    if m > hi {
      SumMore(ps, MassInside(lo, hi), MassBelow(m));
    }
  }

  // ---------------------------------------------------------------- whole weights

  /** `n` pairs of weight one. */
  function Copies(x: real, n: nat): (r: seq<Weighted>)
    ensures |r| == n && forall p | p in r :: p == Weighted(x, 1.0)
  {
    seq(n, i => Weighted(x, 1.0))
  }

  predicate Whole(ps: seq<Weighted>) {
    forall p | p in ps :: p.weight > 0.0 && p.weight == p.weight.Floor as real
  }

  /** Each pair repeated as often as its weight says. */
  function Unfold(ps: seq<Weighted>): (r: seq<Weighted>)
    requires Whole(ps)
    ensures forall p | p in r :: p.weight == 1.0
  {
    if ps == [] then []
    else
      var n := |ps| - 1;
      assert ps[n] in ps;
      Unfold(ps[..n]) + Copies(ps[n].value, ps[n].weight.Floor)
  }

  lemma {:induction false} SumOfCopies(x: real, n: nat, g: Weighted -> real)
    ensures SumOf(Copies(x, n), g) == n as real * g(Weighted(x, 1.0))
  {
    if n > 0 {
      var c := Copies(x, n);
      assert c[..n - 1] == Copies(x, n - 1);
      SumOfCopies(x, n - 1, g);
      Distribute(g(Weighted(x, 1.0)), (n - 1) as real, 1.0);
    }
  }

  lemma CopiesKeepSum(p: Weighted, g: Weighted -> real)
    requires p.weight > 0.0 && p.weight == p.weight.Floor as real
    requires g(p) == p.weight * g(Weighted(p.value, 1.0))
    ensures SumOf(Copies(p.value, p.weight.Floor), g) == g(p)
  {
    SumOfCopies(p.value, p.weight.Floor, g);
  }

  /** A measure that grows with the weight alone sees no difference. */
  lemma {:induction false} UnfoldKeepsSums(ps: seq<Weighted>, g: Weighted -> real)
    requires Whole(ps)
    requires forall p | p in ps :: g(p) == p.weight * g(Weighted(p.value, 1.0))
    ensures SumOf(Unfold(ps), g) == SumOf(ps, g)
  {
    if ps != [] {
      var n := |ps| - 1;
      assert ps[n] in ps && forall p | p in ps[..n] :: p in ps;
      UnfoldKeepsSums(ps[..n], g);
      CopiesKeepSum(ps[n], g);
      SumConcat(Unfold(ps[..n]), Copies(ps[n].value, ps[n].weight.Floor), g);
    }
  }

  lemma {:induction false} UnitMass(ps: seq<Weighted>)
    requires forall p | p in ps :: p.weight == 1.0
    ensures SumOf(ps, Mass()) == |ps| as real
  {
    if ps != [] {
      assert ps[|ps| - 1] in ps && forall p | p in ps[..|ps| - 1] :: p in ps;
      UnitMass(ps[..|ps| - 1]);
    }
  }

  lemma MiddleOfUnits(ps: seq<Weighted>)
    requires ps != [] && Ascending(ps) && forall p | p in ps :: p.weight == 1.0
    ensures IsLowerMedian(ps, ps[(|ps| - 1) / 2].value)
  {
    var k := (|ps| - 1) / 2;
    PrefixAtMost(ps, k);
    PrefixBelow(ps, k);
    UnitMass(ps);
    assert forall p | p in ps[..k] :: p in ps;
    UnitMass(ps[..k]);
    assert forall p | p in ps[..k + 1] :: p in ps;
    UnitMass(ps[..k + 1]);
    assert ps[k] in ps;
  }

  lemma UnfoldedMedian(ps: seq<Weighted>, m: real)
    requires Whole(ps)
    requires IsLowerMedian(Unfold(ps), m)
    ensures IsLowerMedian(ps, m)
  {
    UnfoldKeepsSums(ps, Mass());
    UnfoldKeepsSums(ps, MassAtMost(m));
    UnfoldKeepsSums(ps, MassBelow(m));
    var p :| p in Unfold(ps) && p.value == m;
    UnfoldedFrom(ps, p);
  }

  lemma {:induction false} UnfoldedFrom(ps: seq<Weighted>, p: Weighted)
    requires Whole(ps) && p in Unfold(ps)
    ensures exists q | q in ps :: q.value == p.value
  {
    var n := |ps| - 1;
    assert ps[n] in ps && forall q | q in ps[..n] :: q in ps;
    if p !in Copies(ps[n].value, ps[n].weight.Floor) {
      UnfoldedFrom(ps[..n], p);
    }
  }

  lemma {:induction false} UnfoldNotEmpty(ps: seq<Weighted>)
    requires ps != [] && Whole(ps)
    ensures Unfold(ps) != []
  {
    assert ps[|ps| - 1] in ps;
  }

  lemma SortedUnits(ps: seq<Weighted>)
    requires forall p | p in ps :: p.weight == 1.0
    ensures var s := Sort(ps, SmallerValue); Ascending(s) && forall p | p in s :: p.weight == 1.0
  {
    var s := Sort(ps, SmallerValue);
    SortOrdered(ps, SmallerValue);
    assert forall i, j | 0 <= i < j < |s| :: !SmallerValue(s[j], s[i]);
    forall p | p in s ensures p in ps {
      SortMembers(ps, SmallerValue, p);
    }
  }

  /** The middle of the sorted list, the earlier of the two when its length is even. */
  function MiddleValue(units: seq<Weighted>): real
    requires units != []
  {
    Sort(units, SmallerValue)[(|units| - 1) / 2].value
  }

  /** With whole weights the result is the lower median of the list in which every value is
      repeated as often as its weight says. */
  lemma WholeWeightsMean(values: seq<Number>, weights: seq<real>)
    requires Whole(Usable(values, weights)) && Usable(values, weights) != []
    ensures var units := Unfold(Usable(values, weights));
            units != [] && WeightedMedian(values, weights) == Some(MiddleValue(units))
  {
    var ps := Usable(values, weights);
    UnfoldNotEmpty(ps);
    var m := MiddleValue(Unfold(ps));
    MedianOfUnits(Unfold(ps));
    UnfoldedMedian(ps, m);
    MedianIsLowerMedian(values, weights);
    LowerMedianIsUnique(ps, m, WeightedMedian(values, weights).value);
  }

  lemma MedianOfUnits(units: seq<Weighted>)
    requires units != [] && forall p | p in units :: p.weight == 1.0
    ensures IsLowerMedian(units, MiddleValue(units))
  {
    SortedUnits(units);
    MedianOfSorted(units, Sort(units, SmallerValue));
  }

  lemma MedianOfSorted(units: seq<Weighted>, sorted: seq<Weighted>)
    requires sorted != [] && multiset(sorted) == multiset(units) && Ascending(sorted)
    requires forall p | p in sorted :: p.weight == 1.0
    ensures IsLowerMedian(units, sorted[(|sorted| - 1) / 2].value)
  {
    MiddleOfUnits(sorted);
    LowerMedianOfPermutation(sorted, units, sorted[(|sorted| - 1) / 2].value);
  }

  // ---------------------------------------------------------------- the median absolute deviation

  predicate Less(a: real, b: real) {
    a < b
  }

  function FiniteOf(values: seq<Number>): seq<real> {
    if values == [] then []
    else FiniteOf(values[..|values| - 1]) + match values[|values| - 1] { case Finite(v) => [v] case NotFinite => [] }
  }

  /** The plain median: the middle value, or the mean of the two middle ones. */
  function Median(s: seq<real>): real
    requires s != []
  {
    var t, n := Sort(s, Less), |s|;
    if n % 2 == 1 then t[n / 2] else (t[n / 2 - 1] + t[n / 2]) / 2.0
  }

  function DistanceTo(center: real): real -> real {
    (v: real) => Abs(v - center)
  }

  function Deviation(clean: seq<real>): real
    requires clean != []
  {
    Median(Map(clean, DistanceTo(Median(clean))))
  }

  function Mad(values: seq<Number>): Option<real> {
    if FiniteOf(values) == [] then None else Some(Deviation(FiniteOf(values)))
  }

  function Within(lo: real, hi: real): real -> bool {
    (v: real) => lo <= v <= hi
  }

  lemma {:induction false} CountConcat(a: seq<real>, b: seq<real>, p: real -> bool)
    ensures Count(a + b, p) == Count(a, p) + Count(b, p)
  {
    if b == [] {
      assert a + b == a;
    } else {
      assert (a + b)[..|a + b| - 1] == a + b[..|b| - 1];
      CountConcat(a, b[..|b| - 1], p);
    }
  }

  lemma CountSplit(t: seq<real>, k: nat, p: real -> bool)
    requires k <= |t|
    ensures Count(t, p) == Count(t[..k], p) + Count(t[k..], p)
  {
    assert t == t[..k] + t[k..];
    CountConcat(t[..k], t[k..], p);
  }

  lemma CountTakeOut(s: seq<real>, i: nat, p: real -> bool)
    requires i < |s|
    ensures var rest := s[..i] + s[i + 1..];
            && multiset(rest) == multiset(s) - multiset{s[i]}
            && Count(s, p) == Count(rest, p) + if p(s[i]) then 1 else 0
  {
    var x: real := s[i];
    assert s == s[..i] + [x] + s[i + 1..];
    CountConcat(s[..i], s[i + 1..], p);
    CountSplit(s, i + 1, p);
    assert s[..i + 1][..i] == s[..i];
  }

  lemma {:induction false} SamePermutedCount(a: seq<real>, b: seq<real>, p: real -> bool)
    requires multiset(a) == multiset(b)
    ensures Count(a, p) == Count(b, p)
  {
    assert |multiset(a)| == |multiset(b)|;
    if a != [] {
      var n := |a| - 1;
      var x: real := a[n];
      assert a == a[..n] + [x];
      assert x in multiset(b);
      var i :| 0 <= i < |b| && b[i] == x;
      CountTakeOut(b, i, p);
      SamePermutedCount(a[..n], b[..i] + b[i + 1..], p);
    }
  }

  lemma {:induction false} NoneCounted(s: seq<real>, p: real -> bool)
    requires forall v | v in s :: !p(v)
    ensures Count(s, p) == 0
  {
    if s != [] {
      var x: real := s[|s| - 1];
      assert x in s && !p(x) && forall v | v in s[..|s| - 1] :: v in s;
      NoneCounted(s[..|s| - 1], p);
    }
  }

  lemma {:induction false} AllCounted(s: seq<real>, p: real -> bool)
    requires forall v | v in s :: p(v)
    ensures Count(s, p) == |s|
  {
    if s != [] {
      var x: real := s[|s| - 1];
      assert x in s && p(x) && forall v | v in s[..|s| - 1] :: v in s;
      AllCounted(s[..|s| - 1], p);
    }
  }

  lemma {:induction false} CountBounded(s: seq<real>, p: real -> bool)
    ensures Count(s, p) <= |s|
  {
    if s != [] {
      CountBounded(s[..|s| - 1], p);
    }
  }

  /** When more than half of an ascending list lies in [lo, hi], so does its middle. */
  lemma MiddleAtLeast(t: seq<real>, k: nat, lo: real, hi: real)
    requires Rising(t) && k <= |t| / 2 < |t| && (|t| - 1) / 2 <= k
    requires 2 * Count(t, Within(lo, hi)) > |t|
    ensures t[k] >= lo
  {
    if t[k] < lo {
      var p := Within(lo, hi);
      CountSplit(t, k + 1, p);
      CountBounded(t[k + 1..], p);
      forall v | v in t[..k + 1] ensures !p(v) {
        var i :| 0 <= i <= k && v == t[i];
        assert t[i] <= t[k];
      }
      NoneCounted(t[..k + 1], p);
    }
  }

  lemma MiddleAtMost(t: seq<real>, k: nat, lo: real, hi: real)
    requires Rising(t) && k <= |t| / 2 < |t| && (|t| - 1) / 2 <= k
    requires 2 * Count(t, Within(lo, hi)) > |t|
    ensures t[k] <= hi
  {
    if t[k] > hi {
      var p := Within(lo, hi);
      CountSplit(t, k, p);
      CountBounded(t[..k], p);
      forall v | v in t[k..] ensures !p(v) {
        var i :| k <= i < |t| && v == t[i];
        assert t[k] <= t[i];
      }
      NoneCounted(t[k..], p);
    }
  }

  lemma MiddlesInside(t: seq<real>, lo: real, hi: real)
    requires Rising(t) && t != [] && 2 * Count(t, Within(lo, hi)) > |t|
    ensures lo <= t[(|t| - 1) / 2] && t[|t| / 2] <= hi
  {
    MiddleAtLeast(t, (|t| - 1) / 2, lo, hi);
    MiddleAtMost(t, |t| / 2, lo, hi);
  }

  ghost predicate Rising(t: seq<real>) {
    forall i, j | 0 <= i <= j < |t| :: t[i] <= t[j]
  }

  lemma SortRises(s: seq<real>)
    ensures Rising(Sort(s, Less))
  {
    var t := Sort(s, Less);
    LessIsWeak();
    SortOrdered(s, Less);
    forall i, j | 0 <= i <= j < |t| ensures t[i] <= t[j] {
      assert i < j ==> !Less(t[j], t[i]);
    }
  }

  lemma LessIsWeak()
    ensures StrictWeak(Less)
  {
  }

  lemma MedianInside(s: seq<real>, lo: real, hi: real)
    requires s != [] && 2 * Count(s, Within(lo, hi)) > |s|
    ensures lo <= Median(s) <= hi
  {
    var t := Sort(s, Less);
    SortRises(s);
    SamePermutedCount(s, t, Within(lo, hi));
    MiddlesInside(t, lo, hi);
    assert t[(|t| - 1) / 2] <= Median(s) <= t[|t| / 2];
  }

  lemma {:induction false} DistancesInside(s: seq<real>, lo: real, hi: real, center: real)
    requires lo <= center <= hi
    ensures Count(Map(s, DistanceTo(center)), Within(0.0, hi - lo)) >= Count(s, Within(lo, hi))
  {
    if s != [] {
      var n := |s| - 1;
      var d := Map(s, DistanceTo(center));
      var x: real := d[n];
      assert d[..n] == Map(s[..n], DistanceTo(center));
      assert x == Abs(s[n] - center);
      assert Within(lo, hi)(s[n]) ==> Within(0.0, hi - lo)(x);
      DistancesInside(s[..n], lo, hi, center);
    }
  }

  /** While more than half of the finite values lie in [lo, hi], the deviation is at most the
      width of that range, however far the others were moved. */
  lemma MadResists(values: seq<Number>, lo: real, hi: real)
    requires 2 * Count(FiniteOf(values), Within(lo, hi)) > |FiniteOf(values)|
    ensures Mad(values).Some? && 0.0 <= Mad(values).value <= hi - lo
  {
    CountBounded(FiniteOf(values), Within(lo, hi));
    DeviationInside(FiniteOf(values), lo, hi);
  }

  lemma DeviationInside(clean: seq<real>, lo: real, hi: real)
    requires clean != [] && 2 * Count(clean, Within(lo, hi)) > |clean|
    ensures 0.0 <= Deviation(clean) <= hi - lo
  {
    MedianInside(clean, lo, hi);
    SpreadInside(clean, Median(clean), Map(clean, DistanceTo(Median(clean))), lo, hi);
  }

  lemma SpreadInside(clean: seq<real>, center: real, distances: seq<real>, lo: real, hi: real)
    requires clean != [] && distances == Map(clean, DistanceTo(center))
    requires lo <= center <= hi && 2 * Count(clean, Within(lo, hi)) > |clean|
    ensures distances != [] && 0.0 <= Median(distances) <= hi - lo
  {
    DistancesInside(clean, lo, hi, center);
    var width := hi - lo;
    assert 2 * Count(distances, Within(0.0, width)) > |distances|;
    MedianInside(distances, 0.0, width);
  }

  function AtMost(x: real): real -> bool {
    (v: real) => v <= x
  }

  function AtLeast(x: real): real -> bool {
    (v: real) => v >= x
  }

  /** At least half of the values are at or below the median and at least half at or above. */
  lemma MedianSplits(s: seq<real>)
    requires s != []
    ensures 2 * Count(s, AtMost(Median(s))) >= |s|
    ensures 2 * Count(s, AtLeast(Median(s))) >= |s|
  {
    var t, m := Sort(s, Less), Median(s);
    SortRises(s);
    SamePermutedCount(s, t, AtMost(m));
    SamePermutedCount(s, t, AtLeast(m));
    assert t[(|t| - 1) / 2] <= m <= t[|t| / 2];
    HalfAtMost(t, (|t| - 1) / 2, m);
    HalfAtLeast(t, |t| / 2, m);
  }

  lemma HalfAtMost(t: seq<real>, k: nat, m: real)
    requires Rising(t) && k < |t| && t[k] <= m
    ensures Count(t, AtMost(m)) >= k + 1
  {
    CountSplit(t, k + 1, AtMost(m));
    forall v | v in t[..k + 1] ensures AtMost(m)(v) {
      var i :| 0 <= i <= k && v == t[i];
      assert t[i] <= t[k];
    }
    AllCounted(t[..k + 1], AtMost(m));
  }

  lemma HalfAtLeast(t: seq<real>, k: nat, m: real)
    requires Rising(t) && k < |t| && t[k] >= m
    ensures Count(t, AtLeast(m)) >= |t| - k
  {
    CountSplit(t, k, AtLeast(m));
    forall v | v in t[k..] ensures AtLeast(m)(v) {
      var i :| k <= i < |t| && v == t[i];
      assert t[k] <= t[i];
    }
    AllCounted(t[k..], AtLeast(m));
  }

  lemma {:induction false} CountMapped(s: seq<real>, f: real -> real, p: real -> bool, q: real -> bool)
    requires forall v :: p(f(v)) == q(v)
    ensures Count(Map(s, f), p) == Count(s, q)
  {
    if s != [] {
      assert Map(s, f)[..|s| - 1] == Map(s[..|s| - 1], f);
      CountMapped(s[..|s| - 1], f, p, q);
    }
  }

  function Near(center: real, d: real): real -> bool {
    (v: real) => Abs(v - center) <= d
  }

  function Far(center: real, d: real): real -> bool {
    (v: real) => Abs(v - center) >= d
  }

  /** What the deviation says: at least half of the finite values are within that distance of
      their median, and at least half are at that distance or farther. */
  lemma MadMeans(values: seq<Number>)
    ensures var clean := FiniteOf(values);
            if clean == [] then Mad(values).None?
            else
              && Mad(values).Some?
              && 2 * Count(clean, Near(Median(clean), Mad(values).value)) >= |clean|
              && 2 * Count(clean, Far(Median(clean), Mad(values).value)) >= |clean|
  {
    var clean := FiniteOf(values);
    if clean != [] {
      var center, d := Median(clean), Mad(values).value;
      MedianSplits(Map(clean, DistanceTo(center)));
      CountMapped(clean, DistanceTo(center), AtMost(d), Near(center, d));
      CountMapped(clean, DistanceTo(center), AtLeast(d), Far(center, d));
    }
  }

  // ---------------------------------------------------------------- the middle by rank

  function Below(x: real): real -> bool {
    (v: real) => v < x
  }

  /** `x` is the value of rank `k`: at most `k` of the values are smaller, more than `k` no larger. */
  ghost predicate HasRank(s: seq<real>, x: real, k: int) {
    x in s && Count(s, Below(x)) <= k < Count(s, AtMost(x))
  }

  lemma RankOfSorted(t: seq<real>, k: nat)
    requires Rising(t) && k < |t|
    ensures HasRank(t, t[k], k)
  {
    HalfAtMost(t, k, t[k]);
    CountSplit(t, k, Below(t[k]));
    forall v | v in t[k..] ensures !Below(t[k])(v) {
      var i :| k <= i < |t| && v == t[i];
      assert t[k] <= t[i];
    }
    NoneCounted(t[k..], Below(t[k]));
    CountBounded(t[..k], Below(t[k]));
  }

  lemma RankOfPermutation(s: seq<real>, t: seq<real>, x: real, k: int)
    requires multiset(s) == multiset(t) && HasRank(t, x, k)
    ensures HasRank(s, x, k)
  {
    SamePermutedCount(s, t, Below(x));
    SamePermutedCount(s, t, AtMost(x));
    assert x in multiset(t);
  }

  /** The two middle values by rank, which are one when the number of values is odd. */
  ghost predicate Middles(s: seq<real>, a: real, b: real) {
    HasRank(s, a, (|s| - 1) / 2) && HasRank(s, b, |s| / 2)
  }

  /** The median is the mean of the two middle values. */
  lemma MedianIsMiddle(s: seq<real>)
    requires s != []
    ensures exists a, b :: Middles(s, a, b) && Median(s) == (a + b) / 2.0
  {
    var t := Sort(s, Less);
    var a, b := t[(|t| - 1) / 2], t[|t| / 2];
    SortRises(s);
    RankOfSorted(t, (|t| - 1) / 2);
    RankOfSorted(t, |t| / 2);
    RankOfPermutation(s, t, a, (|s| - 1) / 2);
    RankOfPermutation(s, t, b, |s| / 2);
    assert Middles(s, a, b);
  }

  lemma RankIsUnique(s: seq<real>, a: real, b: real, k: int)
    requires HasRank(s, a, k) && HasRank(s, b, k)
    ensures a == b
  {
    if a < b {
      CountGrows(s, AtMost(a), Below(b));
    } else if b < a {
      CountGrows(s, AtMost(b), Below(a));
    }
  }

  lemma {:induction false} CountGrows(s: seq<real>, p: real -> bool, q: real -> bool)
    requires forall v :: p(v) ==> q(v)
    ensures Count(s, p) <= Count(s, q)
  {
    if s != [] {
      CountGrows(s[..|s| - 1], p, q);
    }
  }

  function IsFinite(v: real): Number -> bool {
    (x: Number) => x == Finite(v)
  }

  /** The finite values are kept, each as often as it occurs. */
  lemma {:induction false} FiniteOfMeans(values: seq<Number>, v: real)
    ensures multiset(FiniteOf(values))[v] == Count(values, IsFinite(v))
  {
    if values != [] {
      FiniteOfMeans(values[..|values| - 1], v);
    }
  }

  /** The distance of a value from the center, in either direction. */
  function IsFrom(center: real, d: real): real -> bool {
    (v: real) => v - center == d || center - v == d
  }

  lemma {:induction false} DistancesMean(clean: seq<real>, center: real, d: real)
    ensures multiset(Map(clean, DistanceTo(center)))[d] == if d >= 0.0 then Count(clean, IsFrom(center, d)) else 0
  {
    if clean != [] {
      var n := |clean| - 1;
      var all := Map(clean, DistanceTo(center));
      DistancesMean(clean[..n], center, d);
      assert all[..n] == Map(clean[..n], DistanceTo(center)) && all == all[..n] + [all[n]];
      assert all[n] == Abs(clean[n] - center);
      assert all[n] == d <==> d >= 0.0 && IsFrom(center, d)(clean[n]);
      assert multiset(all) == multiset(all[..n]) + multiset{all[n]};
    }
  }

  /** The deviation is the median of the distances of the finite values from their median. */
  lemma MadIsMedianDistance(values: seq<Number>)
    ensures Mad(values).None? <==> forall v | v in values :: v == NotFinite
    ensures Mad(values).Some? ==>
              exists clean, distances ::
                && (forall v :: multiset(clean)[v] == Count(values, IsFinite(v)))
                && clean != [] && distances != []
                && (forall d :: multiset(distances)[d]
                                == if d >= 0.0 then Count(clean, IsFrom(Median(clean), d)) else 0)
                && Mad(values) == Some(Median(distances))
  {
    var clean := FiniteOf(values);
    forall v ensures multiset(clean)[v] == Count(values, IsFinite(v)) {
      FiniteOfMeans(values, v);
    }
    NoneFinite(values);
    if clean != [] {
      var distances := Map(clean, DistanceTo(Median(clean)));
      forall d ensures multiset(distances)[d] == if d >= 0.0 then Count(clean, IsFrom(Median(clean), d)) else 0 {
        DistancesMean(clean, Median(clean), d);
      }
    }
  }

  lemma {:induction false} NoneFinite(values: seq<Number>)
    ensures FiniteOf(values) == [] <==> forall v | v in values :: v == NotFinite
  {
    if values != [] {
      var n := |values| - 1;
      NoneFinite(values[..n]);
      assert values[n] in values && forall v :: v in values <==> v in values[..n] || v == values[n];
      assert FiniteOf(values) == [] <==> FiniteOf(values[..n]) == [] && values[n] == NotFinite;
    }
  }
}
