/** What the mined rules say about the baskets themselves, without the counters: which pair
    rules there are, and that the triple rules are the strongest of those that qualify. */
module BasketMeaning {
  import opened Prelude
  import opened Ranking
  import opened MarketBasket

  /** The number of baskets with `x`, and with both `x` and `y`. */
  function With(bs: seq<Basket>, x: Item): nat {
    Count(bs, b => x in b)
  }

  function WithBoth(bs: seq<Basket>, x: Item, y: Item): nat {
    Count(bs, b => x in b && y in b)
  }

  lemma BothWays(bs: seq<Basket>, x: Item, y: Item)
    ensures WithBoth(bs, x, y) == WithBoth(bs, y, x)
  {
    CountMore(bs, b => x in b && y in b, b => y in b && x in b);
    CountMore(bs, b => y in b && x in b, b => x in b && y in b);
  }

  // ---------------------------------------------------------------- pair rules

  /** The rule a textbook would state for the two sides. */
  function PairRuleFor(bs: seq<Basket>, x: Item, y: Item): Rule {
    var both := WithBoth(bs, x, y);
    var confidence := Ratio(both, With(bs, x));
    Rule(x, y, Ratio(both, |bs|), confidence, Lift(confidence, Ratio(With(bs, y), |bs|)), both)
  }

  predicate MatchesPair(bs: seq<Basket>, minSupport: real, minLift: real, r: Rule) {
    && r.ante != r.cons && r.count > 0
    && r == PairRuleFor(bs, r.ante, r.cons)
    && r.support >= minSupport && r.lift >= minLift
  }

  lemma CountedRule(bs: seq<Basket>, x: Item, y: Item)
    requires AllIncreasing(bs)
    ensures RuleOf(Tally(AllItems(bs)), |bs|, x, y, WithBoth(bs, x, y)) == PairRuleFor(bs, x, y)
  {
    ItemCountMeans(bs, x);
    ItemCountMeans(bs, y);
  }

  lemma PairKeyIff(bs: seq<Basket>, p: Pair)
    requires AllIncreasing(bs)
    ensures p in Tally(AllPairs(bs)).keys <==> p.0 < p.1 && WithBoth(bs, p.0, p.1) > 0
    ensures p.0 < p.1 ==> Tally(AllPairs(bs)).Get(p) == WithBoth(bs, p.0, p.1)
  {
    PairCountMeans(bs, p.0, p.1);
    TallyMeans(AllPairs(bs));
    assert p in AllPairs(bs) <==> p in multiset(AllPairs(bs));
  }

  lemma PairRulesMean(items: Counter<Item>, n: nat, p: Pair, c: int, minSupport: real, minLift: real, r: Rule)
    ensures r in PairRules(items, n, p, c, minSupport, minLift)
       <==> && (r == RuleOf(items, n, p.0, p.1, c) || r == RuleOf(items, n, p.1, p.0, c))
            && Ratio(c, n) >= minSupport && r.lift >= minLift
  {
  }

  lemma PairRuleSides(bs: seq<Basket>, minSupport: real, minLift: real, p: Pair, r: Rule)
    requires p.0 < p.1 && WithBoth(bs, p.0, p.1) > 0
    ensures MatchesPair(bs, minSupport, minLift, r) && (p == (r.ante, r.cons) || p == (r.cons, r.ante))
       <==> && (r == PairRuleFor(bs, p.0, p.1) || r == PairRuleFor(bs, p.1, p.0))
            && Ratio(WithBoth(bs, p.0, p.1), |bs|) >= minSupport && r.lift >= minLift
  {
    BothWays(bs, p.0, p.1);
  }

  lemma RulesOfPair(bs: seq<Basket>, minSupport: real, minLift: real, p: Pair, r: Rule)
    requires AllIncreasing(bs) && p.0 < p.1 && WithBoth(bs, p.0, p.1) > 0
    ensures r in PairRules(Tally(AllItems(bs)), |bs|, p, WithBoth(bs, p.0, p.1), minSupport, minLift)
       <==> MatchesPair(bs, minSupport, minLift, r) && (p == (r.ante, r.cons) || p == (r.cons, r.ante))
  {
    BothWays(bs, p.0, p.1);
    CountedRule(bs, p.0, p.1);
    CountedRule(bs, p.1, p.0);
    PairRulesMean(Tally(AllItems(bs)), |bs|, p, WithBoth(bs, p.0, p.1), minSupport, minLift, r);
    PairRuleSides(bs, minSupport, minLift, p, r);
  }

  lemma ListedPairs(bs: seq<Basket>, minSupport: real, minLift: real, r: Rule)
    requires AllIncreasing(bs)
    ensures r in RankedRules(bs, minSupport, minLift) <==> MatchesPair(bs, minSupport, minLift, r)
  {
    var items, pairs := Tally(AllItems(bs)), Tally(AllPairs(bs));
    var lists := RuleLists(items, pairs, |bs|, minSupport, minLift);
    SortMembers(Concat(lists), StrongerPair, r);
    InConcat(lists, r);
    if r in RankedRules(bs, minSupport, minLift) {
      var i :| 0 <= i < |lists| && r in lists[i];
      var p := pairs.keys[i];
      assert p in pairs.keys;
      PairKeyIff(bs, p);
      RulesOfPair(bs, minSupport, minLift, p, r);
    }
    if MatchesPair(bs, minSupport, minLift, r) {
      BothWays(bs, r.ante, r.cons);
      var p := if r.ante < r.cons then (r.ante, r.cons) else (r.cons, r.ante);
      PairKeyIff(bs, p);
      RulesOfPair(bs, minSupport, minLift, p, r);
      var i :| 0 <= i < |pairs.keys| && pairs.keys[i] == p;
      assert r in lists[i];
    }
  }

  /** Of `n` baskets `ante` have the one side, `cons` the other and `all` both: the support is
      all / n, the confidence all / ante, the lift the confidence over cons / n. */
  predicate Says(all: int, n: nat, ante: nat, cons: nat, support: real, confidence: real, lift: real) {
    && support * n as real == all as real
    && confidence * ante as real == all as real
    && lift * (ante as real * cons as real) == all as real * n as real
  }

  lemma RatioIs(a: int, b: int, r: real)
    requires b > 0
    ensures r == Ratio(a, b) <==> r * b as real == a as real
  {
    var q := a as real / b as real;
    assert q * b as real == a as real;
    if r * b as real == q * b as real {
      assert (r - q) * b as real == 0.0;
    }
  }

  lemma LiftIs(all: int, n: nat, ante: nat, cons: nat, lift: real)
    requires n > 0 && ante > 0 && cons > 0
    ensures lift == Lift(Ratio(all, ante), Ratio(cons, n))
       <==> lift * (ante as real * cons as real) == all as real * n as real
  {
    var (x, y, z, m) := (all as real, ante as real, cons as real, n as real);
    Fraction(x, y, z, m);
    assert y * z > 0.0;
    var l := x * m / (y * z);
    assert l * (y * z) == x * m;
    if lift * (y * z) == l * (y * z) {
      assert (lift - l) * (y * z) == 0.0;
    }
  }

  lemma SaysIff(all: int, n: nat, ante: nat, cons: nat, support: real, confidence: real, lift: real)
    requires n > 0 && ante > 0 && cons > 0
    ensures Says(all, n, ante, cons, support, confidence, lift) <==>
              && support == Ratio(all, n) && confidence == Ratio(all, ante)
              && lift == Lift(Ratio(all, ante), Ratio(cons, n))
  {
    RatioIs(all, n, support);
    RatioIs(all, ante, confidence);
    LiftIs(all, n, ante, cons, lift);
  }

  predicate IsPairRule(bs: seq<Basket>, minSupport: real, minLift: real, r: Rule) {
    && r.ante != r.cons && r.count == WithBoth(bs, r.ante, r.cons) > 0
    && Says(r.count, |bs|, With(bs, r.ante), With(bs, r.cons), r.support, r.confidence, r.lift)
    && r.support >= minSupport && r.lift >= minLift
  }

  lemma BothAtMostEach(bs: seq<Basket>, x: Item, y: Item)
    ensures WithBoth(bs, x, y) <= With(bs, x) <= |bs| && WithBoth(bs, x, y) <= With(bs, y) <= |bs|
  {
    CountMore(bs, b => x in b && y in b, b => x in b);
    CountMore(bs, b => x in b && y in b, b => y in b);
    CountAtMost(bs, b => x in b);
    CountAtMost(bs, b => y in b);
  }

  lemma {:induction false} CountAtMost<T(!new)>(s: seq<T>, p: T -> bool)
    ensures Count(s, p) <= |s|
  {
    if s != [] {
      CountAtMost(s[..|s| - 1], p);
    }
  }

  lemma MatchesPairIff(bs: seq<Basket>, minSupport: real, minLift: real, r: Rule)
    ensures MatchesPair(bs, minSupport, minLift, r) <==> IsPairRule(bs, minSupport, minLift, r)
  {
    BothAtMostEach(bs, r.ante, r.cons);
    if WithBoth(bs, r.ante, r.cons) > 0 {
      SaysIff(WithBoth(bs, r.ante, r.cons), |bs|, With(bs, r.ante), With(bs, r.cons),
              r.support, r.confidence, r.lift);
    }
  }

  /** The listed pair rules are exactly the rules between two products bought together whose
      support and lift reach the thresholds. */
  lemma PairRuleIff(bs: seq<Basket>, minSupport: real, minLift: real, r: Rule)
    requires AllIncreasing(bs)
    ensures r in RankedRules(bs, minSupport, minLift) <==> IsPairRule(bs, minSupport, minLift, r)
  {
    ListedPairs(bs, minSupport, minLift, r);
    MatchesPairIff(bs, minSupport, minLift, r);
  }

  lemma StrongerPairIsWeak()
    ensures StrictWeak(StrongerPair)
  {
  }

  lemma {:induction false} ConcatDistinct(lists: seq<seq<Rule>>)
    requires forall i | 0 <= i < |lists| :: Distinct(lists[i])
    requires forall i, j, r | 0 <= i < j < |lists| && r in lists[i] :: r !in lists[j]
    ensures Distinct(Concat(lists))
  {
    if lists != [] {
      var n := |lists| - 1;
      var front := lists[..n];
      assert forall i | 0 <= i < n :: front[i] == lists[i];
      ConcatDistinct(front);
      forall r | r in Concat(front) ensures r !in lists[n] {
        InConcat(front, r);
        var i :| 0 <= i < n && r in front[i];
      }
      JoinDistinct(Concat(front), lists[n]);
    }
  }

  lemma JoinDistinct<T(!new)>(a: seq<T>, b: seq<T>)
    requires Distinct(a) && Distinct(b) && forall x | x in a :: x !in b
    ensures Distinct(a + b)
  {
    forall i, j | 0 <= i < j < |a + b| ensures (a + b)[i] != (a + b)[j] {
      if i < |a| <= j {
        assert a[i] in a && b[j - |a|] in b;
      }
    }
  }

  lemma RulesOfPairDistinct(items: Counter<Item>, n: nat, p: Pair, c: int, minSupport: real, minLift: real)
    requires p.0 != p.1
    ensures Distinct(PairRules(items, n, p, c, minSupport, minLift))
  {
  }

  lemma PairOfRule(items: Counter<Item>, n: nat, p: Pair, c: int, minSupport: real, minLift: real, r: Rule)
    requires r in PairRules(items, n, p, c, minSupport, minLift)
    ensures p == (r.ante, r.cons) || p == (r.cons, r.ante)
  {
  }

  lemma RuleListsDisjoint(bs: seq<Basket>, minSupport: real, minLift: real, i: nat, j: nat, r: Rule)
    requires AllIncreasing(bs)
    requires var lists := RuleLists(Tally(AllItems(bs)), Tally(AllPairs(bs)), |bs|, minSupport, minLift);
             i < j < |lists| && r in lists[i]
    ensures r !in RuleLists(Tally(AllItems(bs)), Tally(AllPairs(bs)), |bs|, minSupport, minLift)[j]
  {
    var items, pairs := Tally(AllItems(bs)), Tally(AllPairs(bs));
    TallyMeans(AllPairs(bs));
    var p, q := pairs.keys[i], pairs.keys[j];
    assert p in pairs.keys && q in pairs.keys && p != q;
    PairKeyIff(bs, p);
    PairKeyIff(bs, q);
    PairOfRule(items, |bs|, p, pairs.Get(p), minSupport, minLift, r);
    if r in PairRules(items, |bs|, q, pairs.Get(q), minSupport, minLift) {
      PairOfRule(items, |bs|, q, pairs.Get(q), minSupport, minLift, r);
    }
  }

  /** The pair rules are listed by falling lift, then confidence, and each of them once. */
  lemma PairRulesAreRanked(bs: seq<Basket>, minSupport: real, minLift: real)
    requires AllIncreasing(bs)
    ensures var rules := RankedRules(bs, minSupport, minLift);
            && Distinct(rules)
            && forall i, j | 0 <= i < j < |rules| ::
                 rules[i].lift > rules[j].lift
                 || (rules[i].lift == rules[j].lift && rules[i].confidence >= rules[j].confidence)
  {
    var items, pairs := Tally(AllItems(bs)), Tally(AllPairs(bs));
    var lists := RuleLists(items, pairs, |bs|, minSupport, minLift);
    forall i | 0 <= i < |lists| ensures Distinct(lists[i]) {
      assert pairs.keys[i] in pairs.keys;
      PairKeyIff(bs, pairs.keys[i]);
      RulesOfPairDistinct(items, |bs|, pairs.keys[i], pairs.Get(pairs.keys[i]), minSupport, minLift);
    }
    forall i, j, r | 0 <= i < j < |lists| && r in lists[i] ensures r !in lists[j] {
      RuleListsDisjoint(bs, minSupport, minLift, i, j, r);
    }
    ConcatDistinct(lists);
    SortDistinct(Concat(lists), StrongerPair);
    StrongerPairIsWeak();
    SortOrdered(Concat(lists), StrongerPair);
  }

  // ---------------------------------------------------------------- triple rules

  /** The baskets whose kept products include all three. */
  function KeepAll(top: set<Item>, t: Triple): Basket -> bool {
    (b: Basket) => t.0 in Keep(b, top) && t.1 in Keep(b, top) && t.2 in Keep(b, top)
  }

  predicate Splits(t: Triple, antes: Pair, cons: Item) {
    && t.0 < t.1 < t.2
    && (|| (antes == (t.0, t.1) && cons == t.2)
        || (antes == (t.0, t.2) && cons == t.1)
        || (antes == (t.1, t.2) && cons == t.0))
  }

  function TripleRuleFor(bs: seq<Basket>, t: Triple, antes: Pair, cons: Item): TripleRule {
    var all := Count(bs, KeepAll(TopOf(bs), t));
    var confidence := Ratio(all, WithBoth(bs, antes.0, antes.1));
    TripleRule(antes, cons, Ratio(all, |bs|), confidence, Lift(confidence, Ratio(With(bs, cons), |bs|)), all)
  }

  predicate IsSide(bs: seq<Basket>, t: Triple, antes: Pair, cons: Item, r: TripleRule) {
    r == TripleRuleFor(bs, t, antes, cons) && r.lift >= 1.2
  }

  /** A rule of this triple: counted often enough, one product set against the other two, and
      lifted by a fifth. */
  predicate IsRuleOf(bs: seq<Basket>, t: Triple, r: TripleRule) {
    && t.0 < t.1 < t.2 && Count(bs, KeepAll(TopOf(bs), t)) >= MinCount(|bs|)
    && (|| IsSide(bs, t, (t.0, t.1), t.2, r) || IsSide(bs, t, (t.0, t.2), t.1, r)
        || IsSide(bs, t, (t.1, t.2), t.0, r))
  }

  ghost predicate MatchesTriple(bs: seq<Basket>, r: TripleRule) {
    exists t :: IsRuleOf(bs, t, r)
  }

  lemma CountedTriple(bs: seq<Basket>, t: Triple)
    requires AllIncreasing(bs) && t.0 < t.1 < t.2
    ensures Tally(AllTriples(bs, TopOf(bs))).Get(t) == Count(bs, KeepAll(TopOf(bs), t))
  {
    var top := TopOf(bs);
    TallyMeans(AllTriples(bs, top));
    TripleMultiplicity(bs, top, t);
    forall b | b in bs ensures t in BasketTriples(b, top) <==> KeepAll(top, t)(b) {
      BasketTriplesMean(b, top, t);
    }
    CountMore(bs, b => t in BasketTriples(b, top), KeepAll(top, t));
    CountMore(bs, KeepAll(top, t), b => t in BasketTriples(b, top));
  }

  lemma CountedTripleRule(bs: seq<Basket>, t: Triple, antes: Pair, cons: Item)
    requires AllIncreasing(bs) && Splits(t, antes, cons)
    ensures TripleRuleOf(Tally(AllItems(bs)), Tally(AllPairs(bs)), |bs|, antes, cons,
                         Tally(AllTriples(bs, TopOf(bs))).Get(t))
         == TripleRuleFor(bs, t, antes, cons)
  {
    CountedTriple(bs, t);
    PairCountMeans(bs, antes.0, antes.1);
    ItemCountMeans(bs, cons);
  }

  lemma DirectionMeans(items: Counter<Item>, pairs: Counter<Pair>, n: nat, minCount: nat, antes: Pair, cons: Item,
                       c: int, r: TripleRule)
    requires antes in pairs.count && pairs.Get(antes) >= minCount
    ensures r in OneDirection(items, pairs, n, minCount, antes, cons, c)
       <==> r == TripleRuleOf(items, pairs, n, antes, cons, c) && r.lift >= 1.2
  {
  }

  lemma DirectionRule(bs: seq<Basket>, t: Triple, antes: Pair, cons: Item, r: TripleRule)
    requires AllIncreasing(bs) && Splits(t, antes, cons)
    requires Tally(AllTriples(bs, TopOf(bs))).Get(t) >= MinCount(|bs|)
    ensures r in OneDirection(Tally(AllItems(bs)), Tally(AllPairs(bs)), |bs|, MinCount(|bs|), antes, cons,
                              Tally(AllTriples(bs, TopOf(bs))).Get(t))
       <==> IsSide(bs, t, antes, cons, r)
  {
    GuardNeverFires(bs, t, antes);
    CountedTripleRule(bs, t, antes, cons);
    DirectionMeans(Tally(AllItems(bs)), Tally(AllPairs(bs)), |bs|, MinCount(|bs|), antes, cons,
                   Tally(AllTriples(bs, TopOf(bs))).Get(t), r);
  }

  lemma InThree(a: seq<TripleRule>, b: seq<TripleRule>, c: seq<TripleRule>, r: TripleRule)
    ensures r in a + b + c <==> r in a || r in b || r in c
  {
  }

  lemma RulesOfTriple(bs: seq<Basket>, t: Triple, r: TripleRule)
    requires AllIncreasing(bs) && t.0 < t.1 < t.2
    requires Tally(AllTriples(bs, TopOf(bs))).Get(t) >= MinCount(|bs|)
    ensures r in TripleRules(Tally(AllItems(bs)), Tally(AllPairs(bs)), |bs|, MinCount(|bs|), t,
                             Tally(AllTriples(bs, TopOf(bs))).Get(t))
       <==> IsRuleOf(bs, t, r)
  {
    var items, pairs, c := Tally(AllItems(bs)), Tally(AllPairs(bs)), Tally(AllTriples(bs, TopOf(bs))).Get(t);
    InThree(OneDirection(items, pairs, |bs|, MinCount(|bs|), (t.0, t.1), t.2, c),
            OneDirection(items, pairs, |bs|, MinCount(|bs|), (t.0, t.2), t.1, c),
            OneDirection(items, pairs, |bs|, MinCount(|bs|), (t.1, t.2), t.0, c), r);
    DirectionRule(bs, t, (t.0, t.1), t.2, r);
    DirectionRule(bs, t, (t.0, t.2), t.1, r);
    DirectionRule(bs, t, (t.1, t.2), t.0, r);
    CountedTriple(bs, t);
  }

  predicate FromTriple(items: Counter<Item>, pairs: Counter<Pair>, n: nat, minCount: nat, counted: Counter<Triple>,
                       t: Triple, r: TripleRule) {
    counted.Get(t) >= minCount && r in TripleRules(items, pairs, n, minCount, t, counted.Get(t))
  }

  lemma InLast(before: seq<TripleRule>, last: seq<TripleRule>, r: TripleRule)
    ensures r in before + last <==> r in before || r in last
  {
  }

  lemma {:induction false} InTripleRules(items: Counter<Item>, pairs: Counter<Pair>, n: nat, minCount: nat,
                                         counted: Counter<Triple>, keys: seq<Triple>, r: TripleRule)
    ensures r in TripleRulesOf(items, pairs, n, minCount, counted, keys)
       <==> exists t | t in keys :: FromTriple(items, pairs, n, minCount, counted, t, r)
  {
    if keys != [] {
      var front, t := keys[..|keys| - 1], keys[|keys| - 1];
      InTripleRules(items, pairs, n, minCount, counted, front, r);
      var last := if counted.Get(t) < minCount then [] else TripleRules(items, pairs, n, minCount, t, counted.Get(t));
      InLast(TripleRulesOf(items, pairs, n, minCount, counted, front), last, r);
      assert r in last <==> FromTriple(items, pairs, n, minCount, counted, t, r);
      assert forall u :: u in keys <==> u in front || u == t;
    }
  }

  /** The rules before ranking and cutting. */
  function Qualified(bs: seq<Basket>): seq<TripleRule> {
    var counted := Tally(AllTriples(bs, TopOf(bs)));
    TripleRulesOf(Tally(AllItems(bs)), Tally(AllPairs(bs)), |bs|, MinCount(|bs|), counted, counted.keys)
  }

  lemma QualifiedIff(bs: seq<Basket>, r: TripleRule)
    requires AllIncreasing(bs)
    ensures r in Qualified(bs) <==> MatchesTriple(bs, r)
  {
    var counted := Tally(AllTriples(bs, TopOf(bs)));
    TallyMeans(AllTriples(bs, TopOf(bs)));
    InTripleRules(Tally(AllItems(bs)), Tally(AllPairs(bs)), |bs|, MinCount(|bs|), counted, counted.keys, r);
    if r in Qualified(bs) {
      var t :| t in counted.keys
        && FromTriple(Tally(AllItems(bs)), Tally(AllPairs(bs)), |bs|, MinCount(|bs|), counted, t, r);
      var b := TripleOrigin(bs, TopOf(bs), t);
      BasketTriplesMean(b, TopOf(bs), t);
      RulesOfTriple(bs, t, r);
    }
    if MatchesTriple(bs, r) {
      var t :| IsRuleOf(bs, t, r);
      CountedTriple(bs, t);
      RulesOfTriple(bs, t, r);
      assert t in multiset(AllTriples(bs, TopOf(bs)));
      assert FromTriple(Tally(AllItems(bs)), Tally(AllPairs(bs)), |bs|, MinCount(|bs|), counted, t, r);
    }
  }

  lemma StrongerTripleIsWeak()
    ensures StrictWeak(StrongerTriple)
  {
  }

  lemma TripleOfRule(items: Counter<Item>, pairs: Counter<Pair>, n: nat, minCount: nat, t: Triple, c: int,
                     r: TripleRule)
    requires t.0 < t.1 < t.2 && r in TripleRules(items, pairs, n, minCount, t, c)
    ensures Splits(t, r.antes, r.cons)
  {
  }

  lemma SplitsOnce(t: Triple, u: Triple, antes: Pair, cons: Item)
    requires Splits(t, antes, cons) && Splits(u, antes, cons)
    ensures t == u
  {
  }

  lemma RulesOfTripleDistinct(items: Counter<Item>, pairs: Counter<Pair>, n: nat, minCount: nat, t: Triple, c: int)
    requires t.0 < t.1 < t.2
    ensures Distinct(TripleRules(items, pairs, n, minCount, t, c))
  {
  }

  lemma {:induction false} TripleRulesDistinct(items: Counter<Item>, pairs: Counter<Pair>, n: nat, minCount: nat,
                                               counted: Counter<Triple>, keys: seq<Triple>)
    requires Distinct(keys) && forall t | t in keys :: t.0 < t.1 < t.2
    ensures Distinct(TripleRulesOf(items, pairs, n, minCount, counted, keys))
  {
    if keys != [] {
      var front, t := keys[..|keys| - 1], keys[|keys| - 1];
      assert t in keys && t !in front && forall u | u in front :: u in keys;
      TripleRulesDistinct(items, pairs, n, minCount, counted, front);
      var before := TripleRulesOf(items, pairs, n, minCount, counted, front);
      if counted.Get(t) < minCount {
        assert before + [] == before;
      } else {
        var here := TripleRules(items, pairs, n, minCount, t, counted.Get(t));
        RulesOfTripleDistinct(items, pairs, n, minCount, t, counted.Get(t));
        forall r | r in before ensures r !in here {
          InTripleRules(items, pairs, n, minCount, counted, front, r);
          var u :| u in front && FromTriple(items, pairs, n, minCount, counted, u, r);
          TripleOfRule(items, pairs, n, minCount, u, counted.Get(u), r);
          if r in here {
            TripleOfRule(items, pairs, n, minCount, t, counted.Get(t), r);
            SplitsOnce(t, u, r.antes, r.cons);
          }
        }
        JoinDistinct(before, here);
      }
    }
  }

  lemma QualifiedDistinct(bs: seq<Basket>)
    requires AllIncreasing(bs)
    ensures Distinct(Qualified(bs))
  {
    var counted := Tally(AllTriples(bs, TopOf(bs)));
    TallyMeans(AllTriples(bs, TopOf(bs)));
    forall t | t in counted.keys ensures t.0 < t.1 < t.2 {
      var b := TripleOrigin(bs, TopOf(bs), t);
      BasketTriplesMean(b, TopOf(bs), t);
    }
    TripleRulesDistinct(Tally(AllItems(bs)), Tally(AllPairs(bs)), |bs|, MinCount(|bs|), counted, counted.keys);
  }

  lemma PrefixIsStrongest(rules: seq<TripleRule>, k: nat, q: TripleRule)
    requires Ordered(rules, StrongerTriple) && k <= |rules| && q in rules && q !in rules[..k]
    ensures k < |rules| && forall r | r in rules[..k] :: !StrongerTriple(q, r)
  {
    var j :| 0 <= j < |rules| && rules[j] == q;
    forall r | r in rules[..k] ensures !StrongerTriple(q, r) {
      var i :| 0 <= i < k && rules[i] == r;
    }
  }

  lemma MatchingTriples(bs: seq<Basket>, q: TripleRule)
    requires AllIncreasing(bs) && BigEnough(bs)
    ensures var mined := MineTriples(bs);
            && Ordered(mined, StrongerTriple) && Distinct(mined)
            && (q in mined ==> MatchesTriple(bs, q))
            && (MatchesTriple(bs, q) && q !in mined ==>
                  |mined| == 200 && forall r | r in mined :: !StrongerTriple(q, r))
  {
    QualifiedIff(bs, q);
    MinedIsPrefix(bs);
    CutIsStrongest(Qualified(bs), q);
    QualifiedDistinct(bs);
    SortDistinct(Qualified(bs), StrongerTriple);
  }

  /** The first 200 rules in order of strength. */
  function Strongest(rules: seq<TripleRule>): seq<TripleRule> {
    var ranked := Sort(rules, StrongerTriple);
    ranked[..Min(MAX_TRIPLE_RULES, |ranked|)]
  }

  lemma MinedIsPrefix(bs: seq<Basket>)
    requires AllIncreasing(bs) && BigEnough(bs)
    ensures MineTriples(bs) == Strongest(Qualified(bs))
  {
    PrunedEqualsNaive(bs);
  }

  lemma CutIsStrongest(rules: seq<TripleRule>, q: TripleRule)
    ensures var best := Strongest(rules);
            && Ordered(best, StrongerTriple) && (q in best ==> q in rules)
            && (q in rules && q !in best ==> |best| == 200 && forall r | r in best :: !StrongerTriple(q, r))
  {
    var ranked := Sort(rules, StrongerTriple);
    StrongerTripleIsWeak();
    SortOrdered(rules, StrongerTriple);
    SortMembers(rules, StrongerTriple, q);
    var k := Min(MAX_TRIPLE_RULES, |ranked|);
    if q in ranked && q !in ranked[..k] {
      PrefixIsStrongest(ranked, k, q);
    }
  }

  // ---------------------------------------------------------------- triple rules in plain counts

  /** A product of a basket is kept exactly if it is on the top list and fewer than fifteen
      products of that list stand before it in the basket. */
  lemma KeepIff(b: Basket, top: set<Item>, x: Item)
    requires Increasing(b)
    ensures x in Keep(b, top) <==> x in b && x in top && Count(b, y => y in top && y < x) < 15
  {
    var kept := Filter(b, x => x in top);
    FilterIncreasing(b, x => x in top);
    if x in kept {
      var i :| 0 <= i < |kept| && kept[i] == x;
      KeptBefore(b, top, i);
      assert i < 15 ==> Keep(b, top)[i] == x;
      assert x in Keep(b, top) ==> exists j :: 0 <= j < |kept| && j < 15 && kept[j] == x;
    }
  }

  function BelowIn(top: set<Item>, x: Item): Item -> bool {
    y => y in top && y < x
  }

  lemma {:induction false} KeptBefore(b: Basket, top: set<Item>, i: nat)
    requires Increasing(b) && i < |Filter(b, x => x in top)|
    ensures Count(b, BelowIn(top, Filter(b, x => x in top)[i])) == i
  {
    var n := |b| - 1;
    var front := Filter(b[..n], x => x in top);
    if i < |front| {
      KeptBefore(b[..n], top, i);
      assert front[i] in b[..n];
    } else {
      assert forall y | y in b[..n] :: y < b[n];
      CountFiltered(b[..n], top, b[n]);
    }
  }

  lemma {:induction false} CountFiltered(b: Basket, top: set<Item>, x: Item)
    requires forall y | y in b :: y < x
    ensures Count(b, BelowIn(top, x)) == |Filter(b, x => x in top)|
  {
    if b != [] {
      var front := b[..|b| - 1];
      assert b[|b| - 1] in b && forall y | y in front :: y in b;
      CountFiltered(front, top, x);
    }
  }

  /** Often enough: five times, and in a five-hundredth of the baskets, rounded down. */
  lemma MinCountMeans(n: nat, c: nat)
    ensures c >= MinCount(n) <==> c >= 5 && 500 * (c + 1) > n
  {
  }

  /** The rule sets one product of the triple against the other two; enough baskets keep all
      three, and the lift is at least 1.2. */
  predicate RuleOfTriple(bs: seq<Basket>, t: Triple, r: TripleRule) {
    && Splits(t, r.antes, r.cons)
    && r.count == Count(bs, KeepAll(TopOf(bs), t)) && r.count >= 5 && 500 * (r.count + 1) > |bs|
    && Says(r.count, |bs|, WithBoth(bs, r.antes.0, r.antes.1), With(bs, r.cons), r.support, r.confidence, r.lift)
    && r.lift >= 1.2
  }

  ghost predicate IsTripleRule(bs: seq<Basket>, r: TripleRule) {
    exists t :: RuleOfTriple(bs, t, r)
  }

  lemma KeptAtMostBoth(bs: seq<Basket>, t: Triple, antes: Pair, cons: Item)
    requires AllIncreasing(bs) && Splits(t, antes, cons)
    ensures Count(bs, KeepAll(TopOf(bs), t)) <= WithBoth(bs, antes.0, antes.1)
    ensures Count(bs, KeepAll(TopOf(bs), t)) <= With(bs, cons) <= |bs|
  {
    forall b | b in bs && KeepAll(TopOf(bs), t)(b) ensures t.0 in b && t.1 in b && t.2 in b {
      KeepMeans(b, TopOf(bs));
    }
    CountMore(bs, KeepAll(TopOf(bs), t), b => antes.0 in b && antes.1 in b);
    CountMore(bs, KeepAll(TopOf(bs), t), b => cons in b);
    CountAtMost(bs, b => cons in b);
  }

  lemma SideIff(bs: seq<Basket>, t: Triple, antes: Pair, cons: Item, r: TripleRule)
    requires AllIncreasing(bs) && Splits(t, antes, cons) && Count(bs, KeepAll(TopOf(bs), t)) > 0
    ensures IsSide(bs, t, antes, cons, r) <==>
              && r.antes == antes && r.cons == cons && r.count == Count(bs, KeepAll(TopOf(bs), t)) && r.lift >= 1.2
              && Says(r.count, |bs|, WithBoth(bs, antes.0, antes.1), With(bs, cons), r.support, r.confidence, r.lift)
  {
    KeptAtMostBoth(bs, t, antes, cons);
    SaysIff(Count(bs, KeepAll(TopOf(bs), t)), |bs|, WithBoth(bs, antes.0, antes.1), With(bs, cons),
            r.support, r.confidence, r.lift);
  }

  lemma RuleOfTripleIff(bs: seq<Basket>, t: Triple, r: TripleRule)
    requires AllIncreasing(bs)
    ensures IsRuleOf(bs, t, r) <==> RuleOfTriple(bs, t, r)
  {
    MinCountMeans(|bs|, Count(bs, KeepAll(TopOf(bs), t)));
    if t.0 < t.1 < t.2 && Count(bs, KeepAll(TopOf(bs), t)) > 0 {
      SideIff(bs, t, (t.0, t.1), t.2, r);
      SideIff(bs, t, (t.0, t.2), t.1, r);
      SideIff(bs, t, (t.1, t.2), t.0, r);
    }
  }

  /** By falling confidence, then lift. */
  predicate NoWeaker(a: TripleRule, b: TripleRule) {
    a.confidence > b.confidence || (a.confidence == b.confidence && a.lift >= b.lift)
  }

  lemma BigEnoughMeans(bs: seq<Basket>)
    ensures BigEnough(bs) <==> |bs| >= 2000 && Sum(Map(bs, (b: Basket) => |b|)) >= 3 * |bs|
  {
    ItemTotal(bs);
  }

  /** With 2000 baskets of 3 products on average the mined triple rules are rules that qualify,
      strongest first and each once; one that qualifies and is not listed is no stronger than any
      listed, and then 200 are listed. With less there are none. */
  lemma TripleRulesAreStrongest(bs: seq<Basket>, q: TripleRule)
    requires AllIncreasing(bs)
    ensures var mined := MineTriples(bs);
            if |bs| >= 2000 && Sum(Map(bs, (b: Basket) => |b|)) >= 3 * |bs| then
              && |mined| <= 200 && Distinct(mined)
              && (forall i, j | 0 <= i < j < |mined| :: NoWeaker(mined[i], mined[j]))
              && (q in mined ==> IsTripleRule(bs, q))
              && (IsTripleRule(bs, q) && q !in mined ==>
                    |mined| == 200 && forall r | r in mined :: NoWeaker(r, q))
            else mined == []
  {
    BigEnoughMeans(bs);
    if BigEnough(bs) {
      MatchingTriples(bs, q);
      MatchesTripleIff(bs, q);
    }
  }

  lemma MatchesTripleIff(bs: seq<Basket>, r: TripleRule)
    requires AllIncreasing(bs)
    ensures MatchesTriple(bs, r) <==> IsTripleRule(bs, r)
  {
    if MatchesTriple(bs, r) {
      var t :| IsRuleOf(bs, t, r);
      RuleOfTripleIff(bs, t, r);
    }
    if IsTripleRule(bs, r) {
      var t :| RuleOfTriple(bs, t, r);
      RuleOfTripleIff(bs, t, r);
    }
  }
}
