/** Association rules over baskets. A product is the rank of its name in string order, so a
    basket (the sorted distinct names of one order) is a strictly increasing sequence. */
module MarketBasket {
  import opened Prelude
  import opened Ranking

  type Item = int
  type Basket = seq<Item>
  type Pair = (Item, Item)
  type Triple = (Item, Item, Item)

  const TRIPLE_BASKET_CAP := 15
  const TRIPLE_MIN_BASKETS := 2000
  const TRIPLE_MIN_AVG_SIZE := 3
  const TRIPLE_TOP_PRODUCTS := 300
  const MAX_TRIPLE_RULES := 200

  predicate Increasing(b: Basket) {
    forall i, j | 0 <= i < j < |b| :: b[i] < b[j]
  }

  ghost predicate AllIncreasing(bs: seq<Basket>) {
    forall b | b in bs :: Increasing(b)
  }

  // ---------------------------------------------------------------- counters

  /** A counting dictionary, keys in insertion order. */
  datatype Counter<K(==)> = Counter(keys: seq<K>, count: map<K, int>) {
    function Get(k: K): int {
      if k in count then count[k] else 0
    }
    function Bump(k: K): Counter<K> {
      Counter(if k in count then keys else keys + [k], count[k := Get(k) + 1])
    }
  }

  function Tally<K(==)>(ks: seq<K>): Counter<K> {
    if ks == [] then Counter([], map[]) else Tally(ks[..|ks| - 1]).Bump(ks[|ks| - 1])
  }

  lemma TallyStep<K>(ks: seq<K>, k: K)
    ensures Tally(ks + [k]) == Tally(ks).Bump(k)
  {
    assert (ks + [k])[..|ks|] == ks;
  }

  /** A counter holds the distinct keys in first-seen order, each with its multiplicity. */
  lemma {:induction false} TallyMeans<K(!new)>(ks: seq<K>)
    ensures Tally(ks).keys == Dedup(ks)
    ensures forall k :: k in Tally(ks).count <==> k in ks
    ensures forall k :: Tally(ks).Get(k) == multiset(ks)[k]
  {
    if ks != [] {
      var n := |ks| - 1;
      TallyMeans(ks[..n]);
      assert ks == ks[..n] + [ks[n]];
      assert multiset(ks) == multiset(ks[..n]) + multiset{ks[n]};
    }
  }

  function Total<K(==)>(c: Counter<K>): int {
    Sum(Map(c.keys, k => c.Get(k)))
  }

  lemma {:induction false} TallyTotal<K(!new)>(ks: seq<K>)
    ensures Total(Tally(ks)) == |ks|
  {
    if ks != [] {
      var n := |ks| - 1;
      TallyTotal(ks[..n]);
      TallyMeans(ks[..n]);
      BumpTotal(Tally(ks[..n]), ks[n]);
    }
  }

  lemma BumpTotal<K(!new)>(c: Counter<K>, k: K)
    requires Distinct(c.keys) && forall x :: x in c.keys <==> x in c.count
    ensures Total(c.Bump(k)) == Total(c) + 1
  {
    var before, after := Map(c.keys, x => c.Get(x)), Map(c.Bump(k).keys, x => c.Bump(k).Get(x));
    if k in c.count {
      var i :| 0 <= i < |c.keys| && c.keys[i] == k;
      assert after == before[i := before[i] + 1];
      SumUpdate(before, i, before[i] + 1);
    } else {
      assert after[..|before|] == before;
    }
  }

  // ---------------------------------------------------------------- combinations

  function Choose2(k: nat): nat {
    k * (k - 1) / 2
  }

  lemma Choose2Step(k: nat)
    ensures Choose2(k + 1) == Choose2(k) + k
  {
    assert (k + 1) * k == k * (k - 1) + 2 * k;
  }

  /** `combinations(items, 2)` and `combinations(items, 3)`, in their order. */
  function Pairs(b: Basket): seq<Pair> {
    if b == [] then [] else Map(b[1..], x => (b[0], x)) + Pairs(b[1..])
  }

  function Triples(b: Basket): seq<Triple> {
    if b == [] then [] else Map(Pairs(b[1..]), (p: Pair) => (b[0], p.0, p.1)) + Triples(b[1..])
  }

  lemma {:induction false} PairsSize(b: Basket)
    ensures |Pairs(b)| == Choose2(|b|)
  {
    if b != [] {
      PairsSize(b[1..]);
      Choose2Step(|b| - 1);
    }
  }

  lemma {:induction false} PairsMean(b: Basket, p: Pair)
    requires Increasing(b)
    ensures p in Pairs(b) <==> p.0 < p.1 && p.0 in b && p.1 in b
  {
    if b != [] {
      var rest := b[1..];
      PairsMean(rest, p);
      var first := Map(rest, x => (b[0], x));
      if p.0 == b[0] && p.1 in rest {
        var i :| 0 <= i < |rest| && rest[i] == p.1;
        assert first[i] == p;
      }
      assert p in Pairs(b) <==> p in first || p in Pairs(rest);
    }
  }

  lemma {:induction false} TriplesMean(b: Basket, t: Triple)
    requires Increasing(b)
    ensures t in Triples(b) <==> t.0 < t.1 < t.2 && t.0 in b && t.1 in b && t.2 in b
  {
    if b != [] {
      var rest := b[1..];
      TriplesMean(rest, t);
      PairsMean(rest, (t.1, t.2));
      var first := Map(Pairs(rest), (p: Pair) => (b[0], p.0, p.1));
      if t.0 == b[0] && (t.1, t.2) in Pairs(rest) {
        var i :| 0 <= i < |Pairs(rest)| && Pairs(rest)[i] == (t.1, t.2);
        assert first[i] == t;
      }
      assert t in Triples(b) <==> t in first || t in Triples(rest);
      assert t in first ==> t.0 == b[0] && (t.1, t.2) in Pairs(rest);
    }
  }

  lemma DistinctAppend<T>(a: seq<T>, b: seq<T>)
    requires Distinct(a) && Distinct(b) && forall x | x in a :: x !in b
    ensures Distinct(a + b)
  {
    forall i, j | 0 <= i < j < |a + b| ensures (a + b)[i] != (a + b)[j] {
      if i < |a| <= j {
        assert b[j - |a|] in b && a[i] in a;
      }
    }
  }

  lemma {:induction false} PairsDistinct(b: Basket)
    requires Increasing(b)
    ensures Distinct(Pairs(b))
  {
    if b != [] {
      var rest := b[1..];
      PairsDistinct(rest);
      forall p | p in Pairs(rest) ensures p.0 != b[0] {
        PairsMean(rest, p);
      }
      DistinctAppend(Map(rest, x => (b[0], x)), Pairs(rest));
    }
  }

  lemma {:induction false} TriplesDistinct(b: Basket)
    requires Increasing(b)
    ensures Distinct(Triples(b))
  {
    if b != [] {
      var rest := b[1..];
      PairsDistinct(rest);
      TriplesDistinct(rest);
      forall t | t in Triples(rest) ensures t.0 != b[0] {
        TriplesMean(rest, t);
      }
      DistinctAppend(Map(Pairs(rest), (p: Pair) => (b[0], p.0, p.1)), Triples(rest));
    }
  }

  // ---------------------------------------------------------------- what the counts mean

  function AllItems(bs: seq<Basket>): seq<Item> {
    if bs == [] then [] else AllItems(bs[..|bs| - 1]) + bs[|bs| - 1]
  }

  function AllPairs(bs: seq<Basket>): seq<Pair> {
    if bs == [] then [] else AllPairs(bs[..|bs| - 1]) + Pairs(bs[|bs| - 1])
  }

  lemma {:induction false} CountMore(bs: seq<Basket>, p: Basket -> bool, q: Basket -> bool)
    requires forall b | b in bs && p(b) :: q(b)
    ensures Count(bs, p) <= Count(bs, q)
  {
    if bs != [] {
      var n := |bs| - 1;
      assert bs[n] in bs && forall b | b in bs[..n] :: b in bs;
      CountMore(bs[..n], p, q);
    }
  }

  /** `item_count[x]` is the number of baskets with `x`; the counts add up to the basket sizes. */
  lemma ItemCountMeans(bs: seq<Basket>, x: Item)
    requires AllIncreasing(bs)
    ensures Tally(AllItems(bs)).Get(x) == Count(bs, b => x in b)
    ensures Total(Tally(AllItems(bs))) == Sum(Map(bs, (b: Basket) => |b|))
  {
    TallyMeans(AllItems(bs));
    TallyTotal(AllItems(bs));
    ItemMultiplicity(bs, x);
    ItemTotal(bs);
  }

  lemma {:induction false} ItemMultiplicity(bs: seq<Basket>, x: Item)
    requires AllIncreasing(bs)
    ensures multiset(AllItems(bs))[x] == Count(bs, b => x in b)
  {
    if bs != [] {
      var n := |bs| - 1;
      assert bs[n] in bs && forall b | b in bs[..n] :: b in bs;
      ItemMultiplicity(bs[..n], x);
      DistinctOnce(bs[n], x);
    }
  }

  lemma {:induction false} ItemTotal(bs: seq<Basket>)
    ensures |AllItems(bs)| == Sum(Map(bs, (b: Basket) => |b|))
  {
    if bs != [] {
      var n := |bs| - 1;
      ItemTotal(bs[..n]);
      assert Map(bs, (b: Basket) => |b|)[..n] == Map(bs[..n], (b: Basket) => |b|);
    }
  }

  /** `pair_count[(x, y)]`, x before y, is the number of baskets with both; the counts add up
      to the number of pairs k(k-1)/2 of each basket. */
  lemma PairCountMeans(bs: seq<Basket>, x: Item, y: Item)
    requires AllIncreasing(bs)
    ensures Tally(AllPairs(bs)).Get((x, y)) == if x < y then Count(bs, b => x in b && y in b) else 0
    ensures Total(Tally(AllPairs(bs))) == Sum(Map(bs, (b: Basket) => Choose2(|b|)))
  {
    TallyMeans(AllPairs(bs));
    TallyTotal(AllPairs(bs));
    PairMultiplicity(bs, x, y);
    PairTotal(bs);
  }

  lemma {:induction false} PairMultiplicity(bs: seq<Basket>, x: Item, y: Item)
    requires AllIncreasing(bs)
    ensures multiset(AllPairs(bs))[(x, y)] == if x < y then Count(bs, b => x in b && y in b) else 0
  {
    if bs != [] {
      var n := |bs| - 1;
      assert bs[n] in bs && forall b | b in bs[..n] :: b in bs;
      PairMultiplicity(bs[..n], x, y);
      PairsMean(bs[n], (x, y));
      PairsDistinct(bs[n]);
      DistinctOnce(Pairs(bs[n]), (x, y));
    }
  }

  lemma {:induction false} PairTotal(bs: seq<Basket>)
    ensures |AllPairs(bs)| == Sum(Map(bs, (b: Basket) => Choose2(|b|)))
  {
    if bs != [] {
      var n := |bs| - 1;
      var f := (b: Basket) => Choose2(|b|);
      PairTotal(bs[..n]);
      assert Map(bs, f)[..n] == Map(bs[..n], f);
      PairsSize(bs[n]);
    }
  }

  // ---------------------------------------------------------------- pair rules

  datatype Rule = Rule(ante: Item, cons: Item, support: real, confidence: real, lift: real, count: int)

  function Ratio(a: int, b: int): real {
    if b == 0 then 0.0 else a as real / b as real
  }

  function Lift(confidence: real, share: real): real {
    if share == 0.0 then 0.0 else confidence / share
  }

  function RuleOf(items: Counter<Item>, n: nat, ante: Item, cons: Item, c: int): Rule {
    var confidence := Ratio(c, items.Get(ante));
    Rule(ante, cons, Ratio(c, n), confidence, Lift(confidence, Ratio(items.Get(cons), n)), c)
  }

  function PairRules(items: Counter<Item>, n: nat, p: Pair, c: int, minSupport: real, minLift: real): seq<Rule> {
    if Ratio(c, n) < minSupport then []
    else
      var there, back := RuleOf(items, n, p.0, p.1, c), RuleOf(items, n, p.1, p.0, c);
      (if there.lift >= minLift then [there] else []) + (if back.lift >= minLift then [back] else [])
  }

  function Concat(lists: seq<seq<Rule>>): seq<Rule> {
    if lists == [] then [] else Concat(lists[..|lists| - 1]) + lists[|lists| - 1]
  }

  /** The rules of each counted pair, in counting order. */
  function RuleLists(items: Counter<Item>, pairs: Counter<Pair>, n: nat, minSupport: real, minLift: real)
      : (r: seq<seq<Rule>>)
    ensures |r| == |pairs.keys|
  {
    seq(|pairs.keys|, i requires 0 <= i < |pairs.keys| =>
      PairRules(items, n, pairs.keys[i], pairs.Get(pairs.keys[i]), minSupport, minLift))
  }

  predicate StrongerPair(a: Rule, b: Rule) {
    a.lift > b.lift || (a.lift == b.lift && a.confidence > b.confidence)
  }

  function RankedRules(bs: seq<Basket>, minSupport: real, minLift: real): seq<Rule> {
    var items, pairs := Tally(AllItems(bs)), Tally(AllPairs(bs));
    Sort(Concat(RuleLists(items, pairs, |bs|, minSupport, minLift)), StrongerPair)
  }

  /** Lift is symmetric: it does not depend on which side is the antecedent. */
  lemma LiftSymmetric(c: int, a: int, b: int, n: int)
    requires a > 0 && b > 0 && n > 0
    ensures Lift(Ratio(c, a), Ratio(b, n)) == Lift(Ratio(c, b), Ratio(a, n))
  {
    var (x, y, z, m) := (c as real, a as real, b as real, n as real);
    assert (x / y) / (z / m) == x * m / (y * z) by {
      Fraction(x, y, z, m);
    }
    assert (x / z) / (y / m) == x * m / (z * y) by {
      Fraction(x, z, y, m);
    }
  }

  lemma Fraction(x: real, y: real, z: real, m: real)
    requires y > 0.0 && z > 0.0 && m > 0.0
    ensures z / m != 0.0 && (x / y) / (z / m) == x * m / (y * z)
  {
    var q := z / m;
    assert q * m == z;
    assert q > 0.0;
    var l := (x / y) / q;
    assert l * q == x / y;
    assert l * q * y == x;
    assert l * (y * z) == l * q * y * m == x * m;
  }

  ghost predicate Swapped(r: Rule, q: Rule) {
    q.ante == r.cons && q.cons == r.ante && q.lift == r.lift && q.support == r.support && q.count == r.count
  }

  lemma SwapOne(items: Counter<Item>, n: nat, p: Pair, c: int, minSupport: real, minLift: real, r: Rule)
    requires items.Get(p.0) > 0 && items.Get(p.1) > 0 && n > 0
    requires r in PairRules(items, n, p, c, minSupport, minLift)
    ensures exists q | q in PairRules(items, n, p, c, minSupport, minLift) :: Swapped(r, q)
  {
    var there, back := RuleOf(items, n, p.0, p.1, c), RuleOf(items, n, p.1, p.0, c);
    LiftSymmetric(c, items.Get(p.0), items.Get(p.1), n);
    assert there in PairRules(items, n, p, c, minSupport, minLift);
    assert back in PairRules(items, n, p, c, minSupport, minLift);
    assert Swapped(there, back) && Swapped(back, there);
  }

  /** The pair rules are closed under swapping the sides, with equal lift, support and count. */
  lemma RulesSwap(bs: seq<Basket>, minSupport: real, minLift: real, r: Rule)
    requires AllIncreasing(bs) && r in RankedRules(bs, minSupport, minLift)
    ensures exists q | q in RankedRules(bs, minSupport, minLift) :: Swapped(r, q)
  {
    var items, pairs := Tally(AllItems(bs)), Tally(AllPairs(bs));
    var lists := RuleLists(items, pairs, |bs|, minSupport, minLift);
    var all := Concat(lists);
    SortMembers(all, StrongerPair, r);
    InConcat(lists, r);
    var i :| 0 <= i < |lists| && r in lists[i];
    var p := pairs.keys[i];
    assert p in pairs.keys;
    PairIsCounted(bs, p);
    SwapOne(items, |bs|, p, pairs.Get(p), minSupport, minLift, r);
    var q :| q in PairRules(items, |bs|, p, pairs.Get(p), minSupport, minLift) && Swapped(r, q);
    assert q in lists[i];
    InConcat(lists, q);
    SortMembers(all, StrongerPair, q);
  }

  lemma {:induction false} InConcat(lists: seq<seq<Rule>>, r: Rule)
    ensures r in Concat(lists) <==> exists i | 0 <= i < |lists| :: r in lists[i]
  {
    if lists != [] {
      var n := |lists| - 1;
      InConcat(lists[..n], r);
      assert forall i | 0 <= i < n :: lists[..n][i] == lists[i];
      assert r in Concat(lists) <==> r in Concat(lists[..n]) || r in lists[n];
    }
  }

  /** A counted pair: both sides are counted items, and no confidence can exceed 1. */
  lemma PairIsCounted(bs: seq<Basket>, p: Pair)
    requires AllIncreasing(bs) && p in Tally(AllPairs(bs)).keys
    ensures var c := Tally(AllPairs(bs)).Get(p); var items := Tally(AllItems(bs));
            0 < c <= items.Get(p.0) && c <= items.Get(p.1) && p.0 < p.1 && |bs| > 0
  {
    TallyMeans(AllPairs(bs));
    PairCountMeans(bs, p.0, p.1);
    ItemCountMeans(bs, p.0);
    ItemCountMeans(bs, p.1);
    assert p in multiset(AllPairs(bs));
    CountMore(bs, b => p.0 in b && p.1 in b, b => p.0 in b);
    CountMore(bs, b => p.0 in b && p.1 in b, b => p.1 in b);
  }

  // ---------------------------------------------------------------- triples

  /** The products kept of a basket: those on the top list, at most fifteen. */
  function Keep(b: Basket, top: set<Item>): Basket {
    var kept := Filter(b, x => x in top);
    kept[..Min(TRIPLE_BASKET_CAP, |kept|)]
  }

  function BasketTriples(b: Basket, top: set<Item>): seq<Triple> {
    if |Keep(b, top)| < 3 then [] else Triples(Keep(b, top))
  }

  function AllTriples(bs: seq<Basket>, top: set<Item>): seq<Triple> {
    if bs == [] then [] else AllTriples(bs[..|bs| - 1], top) + BasketTriples(bs[|bs| - 1], top)
  }

  function MinCount(n: nat): nat {
    Max(5, n / 500)
  }

  function More(items: Counter<Item>): (Item, Item) -> bool {
    (x, y) => items.Get(x) > items.Get(y)
  }

  function TopProducts(items: Counter<Item>): set<Item> {
    var ranked := Sort(items.keys, More(items));
    set x | x in ranked[..Min(TRIPLE_TOP_PRODUCTS, |ranked|)]
  }

  function FrequentPairs(pairs: Counter<Pair>, top: set<Item>, minCount: nat): set<Pair> {
    set p | p in pairs.keys && pairs.Get(p) >= minCount && p.0 in top && p.1 in top
  }

  /** The pruning test: at least one pair of the triple is frequent. */
  predicate Promising(frequent: set<Pair>, t: Triple) {
    (t.0, t.1) in frequent || (t.0, t.2) in frequent || (t.1, t.2) in frequent
  }

  datatype TripleRule = TripleRule(
    antes: Pair, cons: Item, support: real, confidence: real, lift: real, count: int)

  function TripleRuleOf(items: Counter<Item>, pairs: Counter<Pair>, n: nat, antes: Pair, cons: Item, c: int)
      : TripleRule {
    var confidence := Ratio(c, pairs.Get(antes));
    TripleRule(antes, cons, Ratio(c, n), confidence, Lift(confidence, Ratio(items.Get(cons), n)), c)
  }

  /** One direction: skipped when the antecedent pair is unknown or rare (the `pc` guard). */
  function OneDirection(items: Counter<Item>, pairs: Counter<Pair>, n: nat, minCount: nat,
                        antes: Pair, cons: Item, c: int): seq<TripleRule> {
    if antes !in pairs.count || pairs.Get(antes) < minCount then []
    else
      var r := TripleRuleOf(items, pairs, n, antes, cons, c);
      if r.lift >= 1.2 then [r] else []
  }

  function TripleRules(items: Counter<Item>, pairs: Counter<Pair>, n: nat, minCount: nat, t: Triple, c: int)
      : seq<TripleRule> {
    OneDirection(items, pairs, n, minCount, (t.0, t.1), t.2, c)
    + OneDirection(items, pairs, n, minCount, (t.0, t.2), t.1, c)
    + OneDirection(items, pairs, n, minCount, (t.1, t.2), t.0, c)
  }

  function TripleRulesOf(items: Counter<Item>, pairs: Counter<Pair>, n: nat, minCount: nat,
                         counted: Counter<Triple>, keys: seq<Triple>): seq<TripleRule> {
    if keys == [] then []
    else
      var t := keys[|keys| - 1];
      TripleRulesOf(items, pairs, n, minCount, counted, keys[..|keys| - 1])
      + if counted.Get(t) < minCount then [] else TripleRules(items, pairs, n, minCount, t, counted.Get(t))
  }

  predicate StrongerTriple(a: TripleRule, b: TripleRule) {
    a.confidence > b.confidence || (a.confidence == b.confidence && a.lift > b.lift)
  }

  function RankTriples(items: Counter<Item>, pairs: Counter<Pair>, n: nat, minCount: nat, counted: Counter<Triple>)
      : seq<TripleRule> {
    var rules := Sort(TripleRulesOf(items, pairs, n, minCount, counted, counted.keys), StrongerTriple);
    rules[..Min(MAX_TRIPLE_RULES, |rules|)]
  }

  predicate BigEnough(bs: seq<Basket>) {
    |bs| >= TRIPLE_MIN_BASKETS && |AllItems(bs)| >= TRIPLE_MIN_AVG_SIZE * |bs|
  }

  function Passes(frequent: set<Pair>): Triple -> bool {
    t => Promising(frequent, t)
  }

  /** The ranked rules when only triples with a frequent pair are counted, and when all are. */
  function PrunedRules(bs: seq<Basket>, top: set<Item>, frequent: set<Pair>): seq<TripleRule> {
    RankTriples(Tally(AllItems(bs)), Tally(AllPairs(bs)), |bs|, MinCount(|bs|),
                Tally(Filter(AllTriples(bs, top), Passes(frequent))))
  }

  function NaiveRules(bs: seq<Basket>, top: set<Item>): seq<TripleRule> {
    RankTriples(Tally(AllItems(bs)), Tally(AllPairs(bs)), |bs|, MinCount(|bs|), Tally(AllTriples(bs, top)))
  }

  function TopOf(bs: seq<Basket>): set<Item> {
    TopProducts(Tally(AllItems(bs)))
  }

  function FrequentOf(bs: seq<Basket>): set<Pair> {
    FrequentPairs(Tally(AllPairs(bs)), TopOf(bs), MinCount(|bs|))
  }

  /** Mining with the Apriori pruning. */
  function MineTriples(bs: seq<Basket>): seq<TripleRule> {
    if !BigEnough(bs) || FrequentOf(bs) == {} then [] else PrunedRules(bs, TopOf(bs), FrequentOf(bs))
  }

  /** The same without any pruning: every triple is counted. */
  function MineNaively(bs: seq<Basket>): seq<TripleRule> {
    if !BigEnough(bs) then [] else NaiveRules(bs, TopOf(bs))
  }

  lemma KeepMeans(b: Basket, top: set<Item>)
    requires Increasing(b)
    ensures Increasing(Keep(b, top)) && forall x | x in Keep(b, top) :: x in b && x in top
  {
    var kept := Filter(b, x => x in top);
    FilterIncreasing(b, x => x in top);
    assert forall x | x in Keep(b, top) :: x in kept;
  }

  lemma {:induction false} FilterIncreasing(b: Basket, p: Item -> bool)
    requires Increasing(b)
    ensures Increasing(Filter(b, p))
  {
    if b != [] {
      var n := |b| - 1;
      FilterIncreasing(b[..n], p);
      forall x | x in b[..n] ensures x < b[n] {
        var i :| 0 <= i < n && b[i] == x;
      }
      var f := Filter(b[..n], p);
      assert forall i | 0 <= i < |f| :: f[i] in b[..n];
    }
  }

  lemma BasketTriplesMean(b: Basket, top: set<Item>, t: Triple)
    requires Increasing(b)
    ensures multiset(BasketTriples(b, top))[t] <= 1
    ensures t in BasketTriples(b, top) <==>
              t.0 < t.1 < t.2 && t.0 in Keep(b, top) && t.1 in Keep(b, top) && t.2 in Keep(b, top)
  {
    var kept := Keep(b, top);
    KeepMeans(b, top);
    TriplesMean(kept, t);
    TriplesDistinct(kept);
    DistinctOnce(Triples(kept), t);
  }

  /** A triple's count is the number of baskets that keep all three of its products. */
  lemma {:induction false} TripleMultiplicity(bs: seq<Basket>, top: set<Item>, t: Triple)
    requires AllIncreasing(bs)
    ensures multiset(AllTriples(bs, top))[t] == Count(bs, b => t in BasketTriples(b, top))
  {
    if bs != [] {
      var n := |bs| - 1;
      assert bs[n] in bs && forall b | b in bs[..n] :: b in bs;
      TripleMultiplicity(bs[..n], top, t);
      BasketTriplesMean(bs[n], top, t);
      assert t in multiset(BasketTriples(bs[n], top)) <==> t in BasketTriples(bs[n], top);
    }
  }

  /** A triple is no more frequent than any of its pairs, and its products are on the top list. */
  lemma TripleAtMostPair(bs: seq<Basket>, top: set<Item>, t: Triple, p: Pair)
    requires AllIncreasing(bs) && t in AllTriples(bs, top)
    requires p == (t.0, t.1) || p == (t.0, t.2) || p == (t.1, t.2)
    ensures p.0 in top && p.1 in top
    ensures 0 < multiset(AllTriples(bs, top))[t] <= Tally(AllPairs(bs)).Get(p)
    ensures p in Tally(AllPairs(bs)).keys && p in Tally(AllPairs(bs)).count
  {
    var b := TripleOrigin(bs, top, t);
    BasketTriplesMean(b, top, t);
    KeepMeans(b, top);
    TripleMultiplicity(bs, top, t);
    PairCountMeans(bs, p.0, p.1);
    forall b | b in bs && t in BasketTriples(b, top) ensures p.0 in b && p.1 in b {
      BasketTriplesMean(b, top, t);
      KeepMeans(b, top);
    }
    CountMore(bs, b => t in BasketTriples(b, top), b => p.0 in b && p.1 in b);
    assert t in multiset(AllTriples(bs, top));
    TallyMeans(AllPairs(bs));
    assert p in multiset(AllPairs(bs));
  }

  lemma {:induction false} TripleOrigin(bs: seq<Basket>, top: set<Item>, t: Triple) returns (b: Basket)
    requires t in AllTriples(bs, top)
    ensures b in bs && t in BasketTriples(b, top)
  {
    var n := |bs| - 1;
    if t in AllTriples(bs[..n], top) {
      b := TripleOrigin(bs[..n], top, t);
    } else {
      b := bs[n];
    }
  }

  function Often(counted: Counter<Triple>, minCount: nat): Triple -> bool {
    t => counted.Get(t) >= minCount
  }

  /** Counting rules over all keys is counting them over the qualified keys. */
  lemma {:induction false} RulesOfQualified(items: Counter<Item>, pairs: Counter<Pair>, n: nat, minCount: nat,
                                            counted: Counter<Triple>, keys: seq<Triple>)
    ensures TripleRulesOf(items, pairs, n, minCount, counted, keys) ==
            TripleRulesOf(items, pairs, n, minCount, counted, Filter(keys, Often(counted, minCount)))
  {
    var qualified := Often(counted, minCount);
    if keys != [] {
      var m := |keys| - 1;
      RulesOfQualified(items, pairs, n, minCount, counted, keys[..m]);
      var f := Filter(keys[..m], qualified);
      if qualified(keys[m]) {
        assert (f + [keys[m]])[..|f|] == f;
      } else {
        assert f + [] == f;
      }
    }
  }

  lemma {:induction false} RulesAgree(items: Counter<Item>, pairs: Counter<Pair>, n: nat, minCount: nat,
                                      c: Counter<Triple>, d: Counter<Triple>, keys: seq<Triple>)
    requires forall t | t in keys :: c.Get(t) == d.Get(t)
    ensures TripleRulesOf(items, pairs, n, minCount, c, keys) == TripleRulesOf(items, pairs, n, minCount, d, keys)
  {
    if keys != [] {
      var m := |keys| - 1;
      assert keys[m] in keys && forall t | t in keys[..m] :: t in keys;
      RulesAgree(items, pairs, n, minCount, c, d, keys[..m]);
    }
  }

  lemma PrunedCounts(all: seq<Triple>, keep: Triple -> bool, t: Triple)
    ensures Tally(Filter(all, keep)).Get(t) == if keep(t) then Tally(all).Get(t) else 0
  {
    TallyMeans(all);
    TallyMeans(Filter(all, keep));
    FilterCount(all, keep, t);
  }

  lemma QualifiedKeys(all: seq<Triple>, keep: Triple -> bool, minCount: nat)
    requires minCount > 0 && forall t | t in all && multiset(all)[t] >= minCount :: keep(t)
    ensures Filter(Tally(Filter(all, keep)).keys, Often(Tally(Filter(all, keep)), minCount)) ==
            Filter(Tally(all).keys, Often(Tally(all), minCount))
  {
    var q, q' := Often(Tally(all), minCount), Often(Tally(Filter(all, keep)), minCount);
    TallyMeans(all);
    TallyMeans(Filter(all, keep));
    DedupFilter(all, keep);
    FilterTwice(Dedup(all), keep, q');
    forall t | t in Dedup(all) ensures Both(keep, q')(t) == q(t) {
      PrunedCounts(all, keep, t);
    }
    FilterAgree(Dedup(all), Both(keep, q'), q);
  }

  /** If the test keeps every key that is counted often enough, dropping the others before
      counting does not change the rules, not even their order. */
  lemma PruningIsHarmless(items: Counter<Item>, pairs: Counter<Pair>, n: nat, minCount: nat,
                          all: seq<Triple>, keep: Triple -> bool)
    requires minCount > 0 && forall t | t in all && multiset(all)[t] >= minCount :: keep(t)
    ensures RankTriples(items, pairs, n, minCount, Tally(Filter(all, keep))) ==
            RankTriples(items, pairs, n, minCount, Tally(all))
  {
    var naive, pruned := Tally(all), Tally(Filter(all, keep));
    var keys := Filter(naive.keys, Often(naive, minCount));
    QualifiedKeys(all, keep, minCount);
    calc {
      TripleRulesOf(items, pairs, n, minCount, pruned, pruned.keys);
      { RulesOfQualified(items, pairs, n, minCount, pruned, pruned.keys); }
      TripleRulesOf(items, pairs, n, minCount, pruned, keys);
      { QualifiedAgree(all, keep, minCount); RulesAgree(items, pairs, n, minCount, pruned, naive, keys); }
      TripleRulesOf(items, pairs, n, minCount, naive, keys);
      { RulesOfQualified(items, pairs, n, minCount, naive, naive.keys); }
      TripleRulesOf(items, pairs, n, minCount, naive, naive.keys);
    }
  }

  lemma QualifiedAgree(all: seq<Triple>, keep: Triple -> bool, minCount: nat)
    requires minCount > 0 && forall t | t in all && multiset(all)[t] >= minCount :: keep(t)
    ensures forall t | t in Filter(Tally(all).keys, Often(Tally(all), minCount)) ::
              Tally(Filter(all, keep)).Get(t) == Tally(all).Get(t)
  {
    TallyMeans(all);
    forall t | t in Filter(Tally(all).keys, Often(Tally(all), minCount))
      ensures Tally(Filter(all, keep)).Get(t) == Tally(all).Get(t)
    {
      PrunedCounts(all, keep, t);
    }
  }

  lemma {:induction false} FilterNothing<T(!new)>(s: seq<T>, p: T -> bool)
    requires forall x | x in s :: !p(x)
    ensures Filter(s, p) == []
  {
    if s != [] {
      assert s[|s| - 1] in s && forall x | x in s[..|s| - 1] :: x in s;
      FilterNothing(s[..|s| - 1], p);
    }
  }

  lemma NoTriplesNoRules(items: Counter<Item>, pairs: Counter<Pair>, n: nat, minCount: nat)
    ensures RankTriples(items, pairs, n, minCount, Tally([])) == []
  {
    assert TripleRulesOf(items, pairs, n, minCount, Tally([]), []) == [];
  }

  /** Every triple counted often enough passes the pruning test. */
  lemma OftenIsPromising(bs: seq<Basket>, t: Triple)
    requires AllIncreasing(bs)
    requires t in AllTriples(bs, TopOf(bs)) && multiset(AllTriples(bs, TopOf(bs)))[t] >= MinCount(|bs|)
    ensures Promising(FrequentOf(bs), t)
  {
    TripleAtMostPair(bs, TopOf(bs), t, (t.0, t.1));
  }

  lemma PrunedRanksSame(bs: seq<Basket>)
    requires AllIncreasing(bs)
    ensures PrunedRules(bs, TopOf(bs), FrequentOf(bs)) == NaiveRules(bs, TopOf(bs))
  {
    var all, passes := AllTriples(bs, TopOf(bs)), Passes(FrequentOf(bs));
    forall t | t in all && multiset(all)[t] >= MinCount(|bs|) ensures passes(t) {
      OftenIsPromising(bs, t);
    }
    PruningIsHarmless(Tally(AllItems(bs)), Tally(AllPairs(bs)), |bs|, MinCount(|bs|), all, passes);
  }

  lemma NothingFrequent(bs: seq<Basket>, top: set<Item>)
    ensures PrunedRules(bs, top, {}) == []
  {
    FilterNothing(AllTriples(bs, top), Passes({}));
    NoTriplesNoRules(Tally(AllItems(bs)), Tally(AllPairs(bs)), |bs|, MinCount(|bs|));
  }

  /** Apriori: the pruned miner and the naive one return the same list of rules. */
  lemma PrunedEqualsNaive(bs: seq<Basket>)
    requires AllIncreasing(bs)
    ensures MineTriples(bs) == MineNaively(bs)
  {
    PrunedRanksSame(bs);
    NothingFrequent(bs, TopOf(bs));
  }

  /** For every triple that is counted often enough, the guard on its antecedent pair never
      fires, the divisions are defined, and no confidence exceeds 1. */
  lemma GuardNeverFires(bs: seq<Basket>, t: Triple, p: Pair)
    requires AllIncreasing(bs)
    requires var counted := Tally(AllTriples(bs, TopProducts(Tally(AllItems(bs))))); counted.Get(t) >= MinCount(|bs|)
    requires p == (t.0, t.1) || p == (t.0, t.2) || p == (t.1, t.2)
    ensures var counted := Tally(AllTriples(bs, TopProducts(Tally(AllItems(bs)))));
            var pairs, items := Tally(AllPairs(bs)), Tally(AllItems(bs));
            && p in pairs.count && pairs.Get(p) >= MinCount(|bs|)
            && items.Get(t.0) > 0 && items.Get(t.1) > 0 && items.Get(t.2) > 0
            && Ratio(counted.Get(t), pairs.Get(p)) <= 1.0
  {
    var all := AllTriples(bs, TopProducts(Tally(AllItems(bs))));
    TallyMeans(all);
    assert t in multiset(all);
    TripleAtMostPair(bs, TopProducts(Tally(AllItems(bs))), t, p);
    TripleAtMostPair(bs, TopProducts(Tally(AllItems(bs))), t, (t.0, t.1));
    TripleAtMostPair(bs, TopProducts(Tally(AllItems(bs))), t, (t.1, t.2));
    PairIsCounted(bs, (t.0, t.1));
    PairIsCounted(bs, (t.1, t.2));
    RatioAtMostOne(Tally(all).Get(t), Tally(AllPairs(bs)).Get(p));
  }

  lemma RatioAtMostOne(a: int, b: int)
    requires 0 <= a <= b && 0 < b
    ensures Ratio(a, b) <= 1.0
  {
    assert a as real <= b as real;
    assert (a as real / b as real) * b as real == a as real;
  }

  /** The top list holds the 300 most counted products, or all of them; of two products counted
      alike the one met first goes first. */
  lemma TopProductsAreTop(bs: seq<Basket>, x: Item, y: Item)
    ensures var items := Tally(AllItems(bs)); var top := TopProducts(items);
            && |top| == Min(300, |items.keys|)
            && (x in top ==> x in items.keys)
            && (x in top && y in items.keys && y !in top ==>
                  && items.Get(y) <= items.Get(x)
                  && (items.Get(y) == items.Get(x) ==> !Before(items.keys, y, x)))
  {
    var items := Tally(AllItems(bs));
    var ranked := Sort(items.keys, More(items));
    TopIsCut(bs);
    SortMembers(items.keys, More(items), x);
    SortMembers(items.keys, More(items), y);
    var cut := Min(300, |ranked|);
    if x in ranked[..cut] && y in ranked && y !in ranked[..cut] {
      CutIsTop(items, cut, x, y);
    }
  }

  lemma TopIsCut(bs: seq<Basket>)
    ensures var items := Tally(AllItems(bs)); var ranked := Sort(items.keys, More(items));
            var cut := Min(300, |ranked|);
            && Distinct(ranked) && |TopProducts(items)| == cut
            && forall x :: x in TopProducts(items) <==> x in ranked[..cut]
  {
    var items := Tally(AllItems(bs));
    TallyMeans(AllItems(bs));
    SortDistinct(items.keys, More(items));
    SizeOfDistinct(Sort(items.keys, More(items))[..Min(300, |items.keys|)]);
  }

  lemma CutIsTop(items: Counter<Item>, cut: nat, x: Item, y: Item)
    requires var ranked := Sort(items.keys, More(items));
             cut <= |ranked| && Distinct(ranked) && x in ranked[..cut] && y in ranked && y !in ranked[..cut]
    ensures items.Get(y) <= items.Get(x)
    ensures items.Get(y) == items.Get(x) ==> !Before(items.keys, y, x)
  {
    var ranked := Sort(items.keys, More(items));
    SortOrdered(items.keys, More(items));
    var i :| 0 <= i < cut && ranked[i] == x;
    var j :| 0 <= j < |ranked| && ranked[j] == y;
    assert j >= cut;
    assert !More(items)(ranked[j], ranked[i]);
    NotBefore(ranked, i, j);
    SortStable(items.keys, More(items), y, x);
  }

  lemma {:induction false} SizeOfDistinct(s: seq<Item>)
    requires Distinct(s)
    ensures |set x | x in s| == |s|
  {
    if s != [] {
      var n := |s| - 1;
      SizeOfDistinct(s[..n]);
      assert (set x | x in s) == (set x | x in s[..n]) + {s[n]};
      assert s[n] !in s[..n];
    }
  }

  // ---------------------------------------------------------------- the loops

  /** The counting loops of the pair analysis. */
  method CountItemsAndPairs(bs: seq<Basket>) returns (items: Counter<Item>, pairs: Counter<Pair>)
    ensures items == Tally(AllItems(bs)) && pairs == Tally(AllPairs(bs))
  {
    items, pairs := Counter([], map[]), Counter([], map[]);
    for i := 0 to |bs|
      invariant items == Tally(AllItems(bs[..i])) && pairs == Tally(AllPairs(bs[..i]))
    {
      ghost var before, beforePairs := AllItems(bs[..i]), AllPairs(bs[..i]);
      assert bs[..i + 1][..i] == bs[..i];
      items := CountAll(items, bs[i], before);
      pairs := CountAll(pairs, Pairs(bs[i]), beforePairs);
    }
    assert bs[..|bs|] == bs;
  }

  method CountAll<K(==)>(start: Counter<K>, ks: seq<K>, ghost before: seq<K>) returns (c: Counter<K>)
    requires start == Tally(before)
    ensures c == Tally(before + ks)
  {
    c := start;
    assert before + ks[..0] == before;
    for j := 0 to |ks|
      invariant c == Tally(before + ks[..j])
    {
      TallyStep(before + ks[..j], ks[j]);
      assert before + ks[..j] + [ks[j]] == before + ks[..j + 1];
      c := Counter(if ks[j] in c.count then c.keys else c.keys + [ks[j]],
                   c.count[ks[j] := (if ks[j] in c.count then c.count[ks[j]] else 0) + 1]);
    }
    assert ks[..|ks|] == ks;
  }

  /** Pair rules and pruned triple rules of one analysis. */
  method AnalyzeBasket(bs: seq<Basket>, minSupport: real, minLift: real)
    returns (rules: seq<Rule>, triples: seq<TripleRule>)
    ensures rules == RankedRules(bs, minSupport, minLift)
    ensures triples == MineTriples(bs)
  {
    var items, pairs := CountItemsAndPairs(bs);
    var found: seq<Rule> := [];
    ghost var lists := RuleLists(items, pairs, |bs|, minSupport, minLift);
    for i := 0 to |pairs.keys|
      invariant found == Concat(lists[..i])
    {
      assert lists[..i + 1][..i] == lists[..i];
      found := found + PairRules(items, |bs|, pairs.keys[i], pairs.Get(pairs.keys[i]), minSupport, minLift);
    }
    assert lists[..|lists|] == lists;
    rules := Sort(found, StrongerPair);
    triples := MinePruned(bs, items, pairs);
  }

  method MinePruned(bs: seq<Basket>, items: Counter<Item>, pairs: Counter<Pair>) returns (rules: seq<TripleRule>)
    requires items == Tally(AllItems(bs)) && pairs == Tally(AllPairs(bs))
    ensures rules == MineTriples(bs)
  {
    if !BigEnough(bs) {
      return [];
    }
    var minCount, top := MinCount(|bs|), TopProducts(items);
    var frequent := FrequentPairs(pairs, top, minCount);
    if frequent == {} {
      return [];
    }
    var counted := CountPromising(bs, top, frequent);
    rules := EmitTriples(items, pairs, |bs|, minCount, counted);
  }

  method CountCombos(start: Counter<Triple>, combos: seq<Triple>, frequent: set<Pair>, ghost before: seq<Triple>)
    returns (counted: Counter<Triple>)
    requires start == Tally(before)
    ensures counted == Tally(before + Filter(combos, Passes(frequent)))
  {
    counted := start;
    assert before + Filter(combos[..0], Passes(frequent)) == before;
    for j := 0 to |combos|
      invariant counted == Tally(before + Filter(combos[..j], Passes(frequent)))
    {
      CombosStep(combos, frequent, before, j);
      if Promising(frequent, combos[j]) {
        counted := counted.Bump(combos[j]);
      }
    }
    assert combos[..|combos|] == combos;
  }

  lemma CombosStep(combos: seq<Triple>, frequent: set<Pair>, before: seq<Triple>, j: nat)
    requires j < |combos|
    ensures var now := Tally(before + Filter(combos[..j], Passes(frequent)));
            Tally(before + Filter(combos[..j + 1], Passes(frequent)))
            == if Promising(frequent, combos[j]) then now.Bump(combos[j]) else now
  {
    var passed := Filter(combos[..j], Passes(frequent));
    FilterStep(combos, Passes(frequent), j);
    if Promising(frequent, combos[j]) {
      TallyStep(before + passed, combos[j]);
      Associative(before, passed, [combos[j]]);
    } else {
      assert passed + [] == passed;
    }
  }

  method CountPromising(bs: seq<Basket>, top: set<Item>, frequent: set<Pair>) returns (counted: Counter<Triple>)
    ensures counted == Tally(Filter(AllTriples(bs, top), Passes(frequent)))
  {
    counted := Counter([], map[]);
    for i := 0 to |bs|
      invariant counted == Tally(Filter(AllTriples(bs[..i], top), Passes(frequent)))
    {
      assert bs[..i + 1][..i] == bs[..i];
      FilterConcat(AllTriples(bs[..i], top), BasketTriples(bs[i], top), Passes(frequent));
      counted := CountCombos(counted, BasketTriples(bs[i], top), frequent,
                             Filter(AllTriples(bs[..i], top), Passes(frequent)));
    }
    assert bs[..|bs|] == bs;
  }

  method EmitTriples(items: Counter<Item>, pairs: Counter<Pair>, n: nat, minCount: nat, counted: Counter<Triple>)
    returns (rules: seq<TripleRule>)
    ensures rules == RankTriples(items, pairs, n, minCount, counted)
  {
    var found: seq<TripleRule> := [];
    for i := 0 to |counted.keys|
      invariant found == TripleRulesOf(items, pairs, n, minCount, counted, counted.keys[..i])
    {
      var t := counted.keys[i];
      assert counted.keys[..i + 1][..i] == counted.keys[..i];
      if counted.Get(t) >= minCount {
        found := found + TripleRules(items, pairs, n, minCount, t, counted.Get(t));
      } else {
        assert found + [] == found;
      }
    }
    assert counted.keys[..|counted.keys|] == counted.keys;
    var sorted := Sort(found, StrongerTriple);
    rules := sorted[..Min(MAX_TRIPLE_RULES, |sorted|)];
  }
}
