/** Expansion gaps: categories that most of a customer's peers buy and the customer does not,
    valued at the median of what the buying peers spend. */
module PeerGaps {
  import opened Prelude
  import opened Ranking
  import opened RobustCadence
  import opened GreedyCaps

  /** Revenue by customer and category; what is missing counts as nothing. */
  type Spend = map<(string, string), real>

  datatype Rules = Rules(minPeers: int, minAdoption: real)

  function Spent(spend: Spend, customer: string, category: string): real {
    if (customer, category) in spend then spend[(customer, category)] else 0.0
  }

  function Buys(spend: Spend, category: string): string -> bool {
    (c: string) => Spent(spend, c, category) > 0.0
  }

  function BuysNot(spend: Spend, category: string): string -> bool {
    (c: string) => !(Spent(spend, c, category) > 0.0)
  }

  function Buyers(spend: Spend, members: seq<string>, category: string): seq<string> {
    Filter(members, Buys(spend, category))
  }

  /** What the buying peers spend on the category. */
  function Amounts(spend: Spend, members: seq<string>, category: string): seq<real> {
    Map(Buyers(spend, members, category), (c: string) => Spent(spend, c, category))
  }

  function PeerMedian(spend: Spend, members: seq<string>, category: string): real {
    var amounts := Amounts(spend, members, category);
    if amounts == [] then 0.0 else Median(amounts)
  }

  predicate Adopted(spend: Spend, members: seq<string>, category: string, rules: Rules)
    requires members != []
  {
    |Buyers(spend, members, category)| as real / |members| as real >= rules.minAdoption
  }

  predicate IsGap(spend: Spend, members: seq<string>, category: string, rules: Rules)
    requires members != []
  {
    Adopted(spend, members, category, rules) && PeerMedian(spend, members, category) > 0.0
  }

  function GapEntry(category: string, value: real): string -> Entry {
    (c: string) => Entry(c, value, category, 0)
  }

  function CategoryGaps(spend: Spend, members: seq<string>, category: string, rules: Rules): seq<Entry>
    requires members != []
  {
    if IsGap(spend, members, category, rules) then
      Map(Filter(members, BuysNot(spend, category)), GapEntry(category, PeerMedian(spend, members, category)))
    else []
  }

  function GroupGaps(spend: Spend, members: seq<string>, categories: seq<string>, rules: Rules): seq<Entry>
    requires members != []
  {
    if categories == [] then []
    else
      GroupGaps(spend, members, categories[..|categories| - 1], rules)
      + CategoryGaps(spend, members, categories[|categories| - 1], rules)
  }

  ghost predicate NonEmpty(groups: seq<seq<string>>) {
    forall i | 0 <= i < |groups| :: groups[i] != []
  }

  function Gaps(spend: Spend, groups: seq<seq<string>>, categories: seq<string>, rules: Rules): seq<Entry>
    requires NonEmpty(groups)
  {
    if groups == [] then []
    else
      var members := groups[|groups| - 1];
      Gaps(spend, groups[..|groups| - 1], categories, rules)
      + if |members| < rules.minPeers then [] else GroupGaps(spend, members, categories, rules)
  }

  // ---------------------------------------------------------------- the loops

  method AppendGaps(gaps: seq<Entry>, missing: seq<string>, category: string, value: real) returns (r: seq<Entry>)
    ensures r == gaps + Map(missing, GapEntry(category, value))
  {
    r := gaps;
    for i := 0 to |missing|
      invariant r == gaps + Map(missing[..i], GapEntry(category, value))
    {
      r := r + [Entry(missing[i], value, category, 0)];
      assert Map(missing[..i + 1], GapEntry(category, value))
          == Map(missing[..i], GapEntry(category, value)) + [Entry(missing[i], value, category, 0)];
    }
    assert missing[..|missing|] == missing;
  }

  method ScanCategory(gaps: seq<Entry>, spend: Spend, members: seq<string>, category: string, rules: Rules)
    returns (r: seq<Entry>)
    requires members != []
    ensures r == gaps + CategoryGaps(spend, members, category, rules)
  {
    var buyers := Buyers(spend, members, category);
    var adoption := |buyers| as real / |members| as real;
    if adoption < rules.minAdoption {
      return gaps;
    }
    var peerMedian := PeerMedian(spend, members, category);
    if peerMedian <= 0.0 {
      return gaps;
    }
    r := AppendGaps(gaps, Filter(members, BuysNot(spend, category)), category, peerMedian);
  }

  lemma GroupGapsStep(spend: Spend, members: seq<string>, categories: seq<string>, rules: Rules, k: nat)
    requires members != [] && k < |categories|
    ensures GroupGaps(spend, members, categories[..k + 1], rules)
         == GroupGaps(spend, members, categories[..k], rules) + CategoryGaps(spend, members, categories[k], rules)
  {
    assert categories[..k + 1][..k] == categories[..k];
  }

  method ScanGroup(gaps: seq<Entry>, spend: Spend, members: seq<string>, categories: seq<string>, rules: Rules)
    returns (r: seq<Entry>)
    requires members != []
    ensures r == gaps + GroupGaps(spend, members, categories, rules)
  {
    r := gaps;
    for k := 0 to |categories|
      invariant r == gaps + GroupGaps(spend, members, categories[..k], rules)
    {
      GroupGapsStep(spend, members, categories, rules, k);
      Associative(gaps, GroupGaps(spend, members, categories[..k], rules),
                  CategoryGaps(spend, members, categories[k], rules));
      r := ScanCategory(r, spend, members, categories[k], rules);
    }
    assert categories[..|categories|] == categories;
  }

  method ComputeGaps(spend: Spend, groups: seq<seq<string>>, categories: seq<string>, rules: Rules)
      returns (gaps: seq<Entry>)
    requires NonEmpty(groups)
    ensures gaps == Gaps(spend, groups, categories, rules)
  {
    gaps := [];
    for i := 0 to |groups|
      invariant gaps == Gaps(spend, groups[..i], categories, rules)
    {
      assert groups[..i + 1][..i] == groups[..i];
      if |groups[i]| < rules.minPeers {
        continue;
      }
      gaps := ScanGroup(gaps, spend, groups[i], categories, rules);
    }
    assert groups[..|groups|] == groups;
  }

  // ---------------------------------------------------------------- which gaps there are

  /** The entry is a gap of this group: the group is large enough and adopted the category, the
      customer is a member that does not buy it, and the value is the buyers' positive median. */
  predicate GapOf(spend: Spend, members: seq<string>, rules: Rules, e: Entry) {
    && members != [] && |members| >= rules.minPeers && IsGap(spend, members, e.kind, rules)
    && e.customer in members && !(Spent(spend, e.customer, e.kind) > 0.0)
    && e.value == PeerMedian(spend, members, e.kind) && e.rank == 0
  }

  lemma CategoryGapIff(spend: Spend, members: seq<string>, category: string, rules: Rules, e: Entry)
    requires members != [] && |members| >= rules.minPeers
    ensures e in CategoryGaps(spend, members, category, rules)
            <==> e.kind == category && GapOf(spend, members, rules, e)
  {
    var missing := Filter(members, BuysNot(spend, category));
    var gaps := CategoryGaps(spend, members, category, rules);
    if e in gaps {
      var i :| 0 <= i < |gaps| && gaps[i] == e;
      assert missing[i] in missing;
    }
    if e.kind == category && GapOf(spend, members, rules, e) {
      assert e.customer in missing;
      var i :| 0 <= i < |missing| && missing[i] == e.customer;
      assert gaps[i] == e;
    }
  }

  lemma {:induction false} GroupGapIff(spend: Spend, members: seq<string>, categories: seq<string>, rules: Rules,
                                       e: Entry)
    requires members != [] && |members| >= rules.minPeers
    ensures e in GroupGaps(spend, members, categories, rules)
            <==> e.kind in categories && GapOf(spend, members, rules, e)
  {
    if categories != [] {
      var n := |categories| - 1;
      GroupGapIff(spend, members, categories[..n], rules, e);
      CategoryGapIff(spend, members, categories[n], rules, e);
      assert e.kind in categories <==> e.kind in categories[..n] || e.kind == categories[n];
    }
  }

  /** The loops find exactly the gaps of the groups. */
  lemma {:induction false} GapIff(spend: Spend, groups: seq<seq<string>>, categories: seq<string>, rules: Rules,
                                  e: Entry)
    requires NonEmpty(groups)
    ensures e in Gaps(spend, groups, categories, rules)
       <==> e.kind in categories && exists g | g in groups :: GapOf(spend, g, rules, e)
  {
    if groups != [] {
      var n := |groups| - 1;
      GapIff(spend, groups[..n], categories, rules, e);
      if |groups[n]| >= rules.minPeers {
        GroupGapIff(spend, groups[n], categories, rules, e);
      }
      assert forall g :: g in groups <==> g in groups[..n] || g == groups[n];
    }
  }

  // ---------------------------------------------------------------- what a gap says

  /** Every gap is positive, and at least half of the peers that buy the category spend that
      much or more, at least half that much or less. */
  lemma GapIsTypical(spend: Spend, groups: seq<seq<string>>, categories: seq<string>, rules: Rules, e: Entry)
    requires NonEmpty(groups) && e in Gaps(spend, groups, categories, rules)
    ensures e.value > 0.0
    ensures exists g | g in groups :: GapOf(spend, g, rules, e)
              && var amounts := Amounts(spend, g, e.kind);
                 amounts != [] && e.value == Median(amounts) && 2 * Count(amounts, AtLeast(e.value)) >= |amounts|
                   && 2 * Count(amounts, AtMost(e.value)) >= |amounts|
  {
    GapIff(spend, groups, categories, rules, e);
    var g :| g in groups && GapOf(spend, g, rules, e);
    MedianSplits(Amounts(spend, g, e.kind));
  }

  /** One wholesale buyer, or any minority of the buyers, cannot move a gap out of the range the
      others span. */
  lemma GapResists(spend: Spend, members: seq<string>, rules: Rules, e: Entry, lo: real, hi: real)
    requires GapOf(spend, members, rules, e)
    requires 2 * Count(Amounts(spend, members, e.kind), Within(lo, hi)) > |Amounts(spend, members, e.kind)|
    ensures lo <= e.value <= hi
  {
    MedianInside(Amounts(spend, members, e.kind), lo, hi);
  }

  ghost predicate DistinctGaps(s: seq<Entry>) {
    forall i, j | 0 <= i < j < |s| :: !(s[i].customer == s[j].customer && s[i].kind == s[j].kind)
  }

  lemma CategoryGapsDistinct(spend: Spend, members: seq<string>, category: string, rules: Rules)
    requires members != [] && Distinct(members)
    ensures DistinctGaps(CategoryGaps(spend, members, category, rules))
  {
    FilterDistinct(members, BuysNot(spend, category));
  }

  lemma {:induction false} GroupGapsDistinct(spend: Spend, members: seq<string>, categories: seq<string>, rules: Rules)
    requires members != [] && |members| >= rules.minPeers && Distinct(members) && Distinct(categories)
    ensures DistinctGaps(GroupGaps(spend, members, categories, rules))
  {
    if categories != [] {
      var n := |categories| - 1;
      GroupGapsDistinct(spend, members, categories[..n], rules);
      CategoryGapsDistinct(spend, members, categories[n], rules);
      var a, b := GroupGaps(spend, members, categories[..n], rules), CategoryGaps(spend, members, categories[n], rules);
      forall i | 0 <= i < |a| ensures a[i].kind in categories[..n] {
        assert a[i] in a;
        GroupGapIff(spend, members, categories[..n], rules, a[i]);
      }
      forall j | 0 <= j < |b| ensures b[j].kind == categories[n] {
        assert b[j] in b;
        CategoryGapIff(spend, members, categories[n], rules, b[j]);
      }
      assert categories[n] !in categories[..n];
    }
  }

  ghost predicate Partition(groups: seq<seq<string>>) {
    && (forall i | 0 <= i < |groups| :: Distinct(groups[i]))
    && (forall i, j, c | 0 <= i < j < |groups| && c in groups[i] :: c !in groups[j])
  }

  /** No customer is told of one category twice. */
  lemma {:induction false} GapsDistinct(spend: Spend, groups: seq<seq<string>>, categories: seq<string>, rules: Rules)
    requires NonEmpty(groups) && Partition(groups) && Distinct(categories)
    ensures DistinctGaps(Gaps(spend, groups, categories, rules))
  {
    if groups != [] {
      var n := |groups| - 1;
      GapsDistinct(spend, groups[..n], categories, rules);
      if |groups[n]| >= rules.minPeers {
        GroupGapsDistinct(spend, groups[n], categories, rules);
        var a, b := Gaps(spend, groups[..n], categories, rules), GroupGaps(spend, groups[n], categories, rules);
        forall i | 0 <= i < |a| ensures a[i].customer !in groups[n] {
          assert a[i] in a;
          GapIff(spend, groups[..n], categories, rules, a[i]);
          var g :| g in groups[..n] && GapOf(spend, g, rules, a[i]);
          var k :| 0 <= k < n && groups[k] == g;
        }
        forall j | 0 <= j < |b| ensures b[j].customer in groups[n] {
          assert b[j] in b;
          GroupGapIff(spend, groups[n], categories, rules, b[j]);
        }
      }
    }
  }

  /** The whole computation: no selection of the gaps with at most `top` per customer is worth
      more than the one returned. */
  lemma ExpansionIsBest(spend: Spend, groups: seq<seq<string>>, categories: seq<string>, rules: Rules,
                        top: int, chosen: seq<Entry>)
    requires NonEmpty(groups)
    requires var gaps := Gaps(spend, groups, categories, rules);
             multiset(chosen) <= multiset(gaps) && Respects(chosen, top, None)
    ensures var gaps := Gaps(spend, groups, categories, rules); var best := TrimmedGaps(gaps, top);
            && SumValue(chosen) <= SumValue(best)
            && multiset(best) <= multiset(gaps) && Respects(best, top, None)
  {
    var gaps := Gaps(spend, groups, categories, rules);
    forall e | e in gaps ensures e.value > 0.0 {
      GapIff(spend, groups, categories, rules, e);
    }
    TrimIsBest(gaps, chosen, top);
  }

  // ---------------------------------------------------------------- gaps in plain counts

  /** The customer spends something on the category. */
  predicate BuysIt(spend: Spend, c: string, category: string) {
    (c, category) in spend && spend[(c, category)] > 0.0
  }

  /** How many of the members do. */
  function BuyerCount(spend: Spend, members: seq<string>, category: string): nat {
    if members == [] then 0
    else
      BuyerCount(spend, members[..|members| - 1], category)
      + if BuysIt(spend, members[|members| - 1], category) then 1 else 0
  }

  function Pays(spend: Spend, category: string, amount: real): string -> bool {
    (c: string) => BuysIt(spend, c, category) && spend[(c, category)] == amount
  }

  /** The amounts behind a gap: what each buying member spends, as often as members spend it. */
  lemma {:induction false} AmountsMean(spend: Spend, members: seq<string>, category: string, amount: real)
    ensures multiset(Amounts(spend, members, category))[amount] == Count(members, Pays(spend, category, amount))
  {
    if members != [] {
      var n := |members| - 1;
      AmountsMean(spend, members[..n], category, amount);
      AmountsStep(spend, members, category);
    }
  }

  lemma AmountsStep(spend: Spend, members: seq<string>, category: string)
    requires members != []
    ensures var n := |members| - 1; var before := Amounts(spend, members[..n], category);
            Amounts(spend, members, category)
            == if BuysIt(spend, members[n], category) then before + [spend[(members[n], category)]] else before
  {
  }

  lemma {:induction false} BuyersCounted(spend: Spend, members: seq<string>, category: string)
    ensures |Buyers(spend, members, category)| == BuyerCount(spend, members, category)
  {
    if members != [] {
      BuyersCounted(spend, members[..|members| - 1], category);
    }
  }

  lemma MedianOfPositive(s: seq<real>)
    requires s != [] && forall i | 0 <= i < |s| :: s[i] > 0.0
    ensures Median(s) > 0.0
  {
    var t := Sort(s, Less);
    forall i | 0 <= i < |t| ensures t[i] > 0.0 {
      var x: real := t[i];
      SortMembers(s, Less, x);
      var j :| 0 <= j < |s| && s[j] == x;
    }
  }

  /** In a group of `size` members, `buyers` of whom buy the category, these are enough of them. */
  predicate Enough(buyers: nat, size: nat, rules: Rules) {
    && size >= rules.minPeers && buyers > 0
    && size > 0 && buyers as real / size as real >= rules.minAdoption
  }

  /** Without the division: at least the wanted share of the group. */
  lemma EnoughMeans(buyers: nat, size: nat, rules: Rules)
    ensures Enough(buyers, size, rules) <==>
              size >= rules.minPeers && buyers > 0 && size > 0 && buyers as real >= rules.minAdoption * size as real
  {
    if size > 0 {
      var q, share := buyers as real / size as real, rules.minAdoption;
      assert q * size as real == buyers as real;
      if q >= share {
        assert (q - share) * size as real >= 0.0;
      } else {
        assert (share - q) * size as real > 0.0;
      }
    }
  }

  lemma MedianIffBought(spend: Spend, members: seq<string>, category: string)
    ensures PeerMedian(spend, members, category) > 0.0 <==> BuyerCount(spend, members, category) > 0
  {
    BuyersCounted(spend, members, category);
    var amounts := Amounts(spend, members, category);
    forall i | 0 <= i < |amounts| ensures amounts[i] > 0.0 {
      assert Buyers(spend, members, category)[i] in Buyers(spend, members, category);
    }
    if amounts != [] {
      MedianOfPositive(amounts);
    }
  }

  lemma GapOfIff(spend: Spend, g: seq<string>, rules: Rules, e: Entry)
    ensures GapOf(spend, g, rules, e) <==>
              && Enough(BuyerCount(spend, g, e.kind), |g|, rules)
              && e.customer in g && !BuysIt(spend, e.customer, e.kind)
              && e.value == PeerMedian(spend, g, e.kind) && e.rank == 0
  {
    BuyersCounted(spend, g, e.kind);
    MedianIffBought(spend, g, e.kind);
  }

  /** The entry names a member that does not buy the category, in a group that is large enough and
      has enough buyers, with the median of what they spend. */
  ghost predicate TellsOf(spend: Spend, g: seq<string>, rules: Rules, e: Entry) {
    && Enough(BuyerCount(spend, g, e.kind), |g|, rules)
    && e.customer in g && !BuysIt(spend, e.customer, e.kind)
    && Amounts(spend, g, e.kind) != [] && e.value == Median(Amounts(spend, g, e.kind)) && e.rank == 0
  }

  lemma TellsOfIff(spend: Spend, g: seq<string>, rules: Rules, e: Entry)
    ensures GapOf(spend, g, rules, e) <==> TellsOf(spend, g, rules, e)
  {
    GapOfIff(spend, g, rules, e);
    BuyersCounted(spend, g, e.kind);
  }

  /** The gaps are exactly these: behind each is such a group, and each such member of such a
      group is told of the category. */
  lemma GapsMean(spend: Spend, groups: seq<seq<string>>, categories: seq<string>, rules: Rules, e: Entry)
    requires NonEmpty(groups)
    ensures e in Gaps(spend, groups, categories, rules)
       <==> e.kind in categories && exists g | g in groups :: TellsOf(spend, g, rules, e)
  {
    GapIff(spend, groups, categories, rules, e);
    forall g ensures GapOf(spend, g, rules, e) <==> TellsOf(spend, g, rules, e) {
      TellsOfIff(spend, g, rules, e);
    }
  }
}
