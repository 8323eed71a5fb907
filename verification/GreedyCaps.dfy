/** Greedy selection under a per-customer cap and an overall limit: the tail of the action
    list, and the trim of the expansion gaps. Values are reals. */
module GreedyCaps {
  import opened Prelude
  import opened Ranking

  /** An action (kind: what to do) or an expansion gap (kind: its category). */
  datatype Entry = Entry(customer: string, value: real, kind: string, rank: nat)

  function CountOf(s: seq<Entry>, c: string): nat {
    if s == [] then 0 else CountOf(s[..|s| - 1], c) + if s[|s| - 1].customer == c then 1 else 0
  }

  function SumValue(s: seq<Entry>): real {
    if s == [] then 0.0 else SumValue(s[..|s| - 1]) + s[|s| - 1].value
  }

  /** The limit is tested after an append, so it never stops an empty list. */
  predicate Full(kept: seq<Entry>, limit: Option<int>) {
    limit.Some? && kept != [] && |kept| >= limit.value
  }

  /** The greedy loop over an already ranked list; no limit means no early stop. */
  function Kept(s: seq<Entry>, cap: int, limit: Option<int>): seq<Entry> {
    if s == [] then []
    else
      var n := |s| - 1;
      var k := Kept(s[..n], cap, limit);
      if Full(k, limit) || CountOf(k, s[n].customer) >= cap then k else k + [s[n]]
  }

  /** What the loop lets through: the caps, with a limit below 1 counting as 1. */
  ghost predicate Respects(s: seq<Entry>, cap: int, limit: Option<int>) {
    && (forall c :: CountOf(s, c) <= Max(0, cap))
    && (limit.Some? ==> |s| <= Max(1, limit.value))
  }

  // ---------------------------------------------------------------- sums and permutations

  lemma CountAppend(s: seq<Entry>, x: Entry, c: string)
    ensures CountOf(s + [x], c) == CountOf(s, c) + if x.customer == c then 1 else 0
    ensures SumValue(s + [x]) == SumValue(s) + x.value
  {
    assert (s + [x])[..|s|] == s;
  }

  lemma {:induction false} SumsConcat(a: seq<Entry>, b: seq<Entry>, c: string)
    ensures SumValue(a + b) == SumValue(a) + SumValue(b)
    ensures CountOf(a + b, c) == CountOf(a, c) + CountOf(b, c)
  {
    if b == [] {
      assert a + b == a;
    } else {
      assert (a + b)[..|a + b| - 1] == a + b[..|b| - 1];
      SumsConcat(a, b[..|b| - 1], c);
    }
  }

  lemma TakeOut(s: seq<Entry>, i: nat, c: string)
    requires i < |s|
    ensures SumValue(s) == SumValue(s[..i] + s[i + 1..]) + s[i].value
    ensures CountOf(s, c) == CountOf(s[..i] + s[i + 1..], c) + if s[i].customer == c then 1 else 0
  {
    var before, after := s[..i], s[i + 1..];
    assert s == (before + [s[i]]) + after;
    SumsConcat(before + [s[i]], after, c);
    CountAppend(before, s[i], c);
    SumsConcat(before, after, c);
  }

  /** Value and counts depend on the multiset only. */
  lemma {:induction false} PermutationSums(a: seq<Entry>, b: seq<Entry>, c: string)
    requires multiset(a) == multiset(b)
    ensures SumValue(a) == SumValue(b) && CountOf(a, c) == CountOf(b, c) && |a| == |b|
  {
    assert |multiset(a)| == |multiset(b)|;
    if a != [] {
      var n := |a| - 1;
      assert a[n] in multiset(b);
      var i :| 0 <= i < |b| && b[i] == a[n];
      Without(a, n);
      assert a[..n] + a[n + 1..] == a[..n];
      Without(b, i);
      TakeOut(b, i, c);
      PermutationSums(a[..n], b[..i] + b[i + 1..], c);
    }
  }

  // ---------------------------------------------------------------- selections as marks

  /** The entries of `s` that are marked. */
  function Pick(s: seq<Entry>, marks: seq<bool>): seq<Entry>
    requires |marks| == |s|
  {
    if s == [] then []
    else
      var n := |s| - 1;
      var before := Pick(s[..n], marks[..n]);
      if marks[n] then before + [s[n]] else before
  }

  /** Every selection from `s` is a marking of `s`, up to order. */
  lemma {:induction false} MarksOf(s: seq<Entry>, chosen: multiset<Entry>) returns (marks: seq<bool>)
    requires chosen <= multiset(s)
    ensures |marks| == |s| && multiset(Pick(s, marks)) == chosen
  {
    if s == [] {
      marks := [];
    } else {
      var n := |s| - 1;
      assert s == s[..n] + [s[n]];
      var rest := chosen - multiset{s[n]};
      var before := MarksOf(s[..n], rest);
      marks := before + [s[n] in chosen];
      assert marks[..n] == before;
    }
  }

  // ---------------------------------------------------------------- counting domination

  function Customers(s: seq<Entry>): seq<string> {
    Dedup(Map(s, (e: Entry) => e.customer))
  }

  function CountsBy(s: seq<Entry>, cs: seq<string>): int {
    Sum(Map(cs, c => CountOf(s, c)))
  }

  lemma {:induction false} CountsAddUp(s: seq<Entry>, cs: seq<string>)
    requires Distinct(cs) && forall e | e in s :: e.customer in cs
    ensures CountsBy(s, cs) == |s|
  {
    if s == [] {
      SumZero(Map(cs, c => CountOf(s, c)));
    } else {
      var n := |s| - 1;
      assert s[n] in s && forall e | e in s[..n] :: e in s;
      CountsAddUp(s[..n], cs);
      var i :| 0 <= i < |cs| && cs[i] == s[n].customer;
      SumDiffers(Map(cs, c => CountOf(s[..n], c)), Map(cs, c => CountOf(s, c)), i);
    }
  }

  lemma {:induction false} KeptSubset(s: seq<Entry>, cap: int, limit: Option<int>)
    ensures forall e | e in Kept(s, cap, limit) :: e in s
    ensures multiset(Kept(s, cap, limit)) <= multiset(s)
    ensures limit.Some? ==> |Kept(s, cap, limit)| <= Max(1, limit.value)
  {
    if s != [] {
      var n := |s| - 1;
      assert s == s[..n] + [s[n]];
      KeptSubset(s[..n], cap, limit);
    }
  }

  /** While the list is not full, each customer has as many entries as the cap allows. */
  lemma {:induction false} KeptCounts(s: seq<Entry>, cap: int, limit: Option<int>, c: string)
    ensures CountOf(Kept(s, cap, limit), c) <= Max(0, cap)
    ensures !Full(Kept(s, cap, limit), limit) ==>
              CountOf(Kept(s, cap, limit), c) == Min(Max(0, cap), CountOf(s, c))
  {
    if s != [] {
      var n := |s| - 1;
      KeptCounts(s[..n], cap, limit, c);
      CountAppend(Kept(s[..n], cap, limit), s[n], c);
    }
  }

  lemma {:induction false} PickCounts(s: seq<Entry>, marks: seq<bool>, c: string)
    requires |marks| == |s|
    ensures CountOf(Pick(s, marks), c) <= CountOf(s, c)
    ensures forall e | e in Pick(s, marks) :: e in s
  {
    if s != [] {
      var n := |s| - 1;
      PickCounts(s[..n], marks[..n], c);
      CountAppend(Pick(s[..n], marks[..n]), s[n], c);
    }
  }

  lemma {:induction false} PickPrefix(s: seq<Entry>, marks: seq<bool>, p: nat, c: string)
    requires |marks| == |s| && p <= |s|
    ensures CountOf(Pick(s[..p], marks[..p]), c) <= CountOf(Pick(s, marks), c)
    ensures |Pick(s[..p], marks[..p])| <= |Pick(s, marks)|
  {
    if p < |s| {
      var n := |s| - 1;
      PickPrefix(s[..n], marks[..n], p, c);
      assert s[..n][..p] == s[..p] && marks[..n][..p] == marks[..p];
      CountAppend(Pick(s[..n], marks[..n]), s[n], c);
    } else {
      assert s[..p] == s && marks[..p] == marks;
    }
  }

  /** On every prefix of the ranking, the greedy list has at least as many entries as any
      selection that respects the caps. */
  lemma KeptDominates(s: seq<Entry>, marks: seq<bool>, cap: int, limit: Option<int>, p: nat)
    requires |marks| == |s| && p <= |s| && Respects(Pick(s, marks), cap, limit)
    ensures |Pick(s[..p], marks[..p])| <= |Kept(s[..p], cap, limit)|
  {
    var kept, picked := Kept(s[..p], cap, limit), Pick(s[..p], marks[..p]);
    PickPrefix(s, marks, p, "");
    if !Full(kept, limit) {
      var cs := Customers(s[..p]);
      KeptSubset(s[..p], cap, limit);
      PickCounts(s[..p], marks[..p], "");
      CustomersCover(s[..p]);
      CountsAddUp(kept, cs);
      CountsAddUp(picked, cs);
      forall c ensures CountOf(picked, c) <= CountOf(kept, c) {
        KeptCounts(s[..p], cap, limit, c);
        PickCounts(s[..p], marks[..p], c);
        PickPrefix(s, marks, p, c);
      }
      SumMonotone(Map(cs, c => CountOf(picked, c)), Map(cs, c => CountOf(kept, c)));
    }
  }

  lemma CustomersCover(s: seq<Entry>)
    ensures Distinct(Customers(s)) && forall e | e in s :: e.customer in Customers(s)
  {
    forall e | e in s ensures e.customer in Customers(s) {
      var i :| 0 <= i < |s| && s[i] == e;
      assert Map(s, (e: Entry) => e.customer)[i] == e.customer;
    }
  }

  // ---------------------------------------------------------------- optimality

  ghost predicate Descending(s: seq<Entry>) {
    && (forall i, j | 0 <= i < j < |s| :: s[i].value >= s[j].value)
    && (forall i | 0 <= i < |s| :: s[i].value >= 0.0)
  }

  function LeadCount(s: seq<Entry>, marks: seq<bool>, cap: int, limit: Option<int>, p: nat): int
    requires |marks| == |s| && p <= |s|
  {
    |Kept(s[..p], cap, limit)| - |Pick(s[..p], marks[..p])|
  }

  function LeadValue(s: seq<Entry>, marks: seq<bool>, cap: int, limit: Option<int>, p: nat): real
    requires |marks| == |s| && p <= |s|
  {
    SumValue(Kept(s[..p], cap, limit)) - SumValue(Pick(s[..p], marks[..p]))
  }

  lemma KeptGrows(s: seq<Entry>, cap: int, limit: Option<int>, p: nat) returns (one: bool)
    requires 0 < p <= |s|
    ensures |Kept(s[..p], cap, limit)| == |Kept(s[..p - 1], cap, limit)| + (if one then 1 else 0)
    ensures SumValue(Kept(s[..p], cap, limit))
            == SumValue(Kept(s[..p - 1], cap, limit)) + if one then s[p - 1].value else 0.0
  {
    assert s[..p][..p - 1] == s[..p - 1];
    var k := Kept(s[..p - 1], cap, limit);
    CountAppend(k, s[p - 1], "");
    one := Kept(s[..p], cap, limit) != k;
  }

  lemma PickGrows(s: seq<Entry>, marks: seq<bool>, p: nat)
    requires |marks| == |s| && 0 < p <= |s|
    ensures var one := marks[p - 1];
            && |Pick(s[..p], marks[..p])| == |Pick(s[..p - 1], marks[..p - 1])| + (if one then 1 else 0)
            && SumValue(Pick(s[..p], marks[..p])) == SumValue(Pick(s[..p - 1], marks[..p - 1]))
                                                    + (if one then s[p - 1].value else 0.0)
  {
    assert s[..p][..p - 1] == s[..p - 1] && marks[..p][..p - 1] == marks[..p - 1];
    CountAppend(Pick(s[..p - 1], marks[..p - 1]), s[p - 1], "");
  }

  lemma LeadStep(s: seq<Entry>, marks: seq<bool>, cap: int, limit: Option<int>, p: nat)
    requires |marks| == |s| && 0 < p <= |s|
    ensures var step := LeadCount(s, marks, cap, limit, p) - LeadCount(s, marks, cap, limit, p - 1);
            && -1 <= step <= 1
            && LeadValue(s, marks, cap, limit, p) - LeadValue(s, marks, cap, limit, p - 1) ==
                 if step == 0 then 0.0 else if step == 1 then s[p - 1].value else -s[p - 1].value
  {
    var one := KeptGrows(s, cap, limit, p);
    PickGrows(s, marks, p);
  }

  /** `k` times `v`. */
  function Times(v: real, k: nat): real {
    if k == 0 then 0.0 else Times(v, k - 1) + v
  }

  lemma {:induction false} TimesGrows(small: real, large: real, k: nat)
    requires 0.0 <= small <= large
    ensures 0.0 <= Times(small, k) <= Times(large, k)
  {
    if k > 0 {
      TimesGrows(small, large, k - 1);
    }
  }

  /** Summation by parts: the lead in value is at least the lead in number times the last value. */
  lemma {:induction false} LeadInValue(s: seq<Entry>, marks: seq<bool>, cap: int, limit: Option<int>, p: nat)
    requires |marks| == |s| && 0 < p <= |s| && Descending(s) && Respects(Pick(s, marks), cap, limit)
    ensures LeadCount(s, marks, cap, limit, p) >= 0
    ensures LeadValue(s, marks, cap, limit, p) >= Times(s[p - 1].value, LeadCount(s, marks, cap, limit, p)) >= 0.0
  {
    LeadStep(s, marks, cap, limit, p);
    KeptDominates(s, marks, cap, limit, p);
    KeptDominates(s, marks, cap, limit, p - 1);
    var w0, d0 := LeadValue(s, marks, cap, limit, p - 1), LeadCount(s, marks, cap, limit, p - 1);
    if p > 1 {
      LeadInValue(s, marks, cap, limit, p - 1);
      TimesGrows(s[p - 1].value, s[p - 2].value, d0);
    }
    LeadBound(w0, d0, s[p - 1].value, LeadValue(s, marks, cap, limit, p), LeadCount(s, marks, cap, limit, p));
  }

  lemma LeadBound(w0: real, d0: nat, v: real, w: real, d: nat)
    requires v >= 0.0 && w0 >= Times(v, d0) && -1 <= d - d0 <= 1
    requires w - w0 == if d == d0 then 0.0 else if d - d0 == 1 then v else -v
    ensures w >= Times(v, d) >= 0.0
  {
    TimesGrows(v, v, d);
  }

  /** The greedy list has the largest total value among all selections from the ranked list
      that respect the per-customer cap and the limit. */
  lemma GreedyIsOptimal(s: seq<Entry>, chosen: seq<Entry>, cap: int, limit: Option<int>)
    requires Descending(s) && multiset(chosen) <= multiset(s) && Respects(chosen, cap, limit)
    ensures SumValue(chosen) <= SumValue(Kept(s, cap, limit))
  {
    var marks := MarksOf(s, multiset(chosen));
    var picked := Pick(s, marks);
    forall c ensures CountOf(picked, c) == CountOf(chosen, c) && |picked| == |chosen| {
      PermutationSums(picked, chosen, c);
    }
    PermutationSums(picked, chosen, "");
    if s != [] {
      LeadInValue(s, marks, cap, limit, |s|);
      assert s[..|s|] == s && marks[..|s|] == marks;
    }
  }

  /** And it is such a selection itself. */
  lemma GreedyRespects(s: seq<Entry>, cap: int, limit: Option<int>)
    ensures multiset(Kept(s, cap, limit)) <= multiset(s) && Respects(Kept(s, cap, limit), cap, limit)
  {
    KeptSubset(s, cap, limit);
    forall c ensures CountOf(Kept(s, cap, limit), c) <= Max(0, cap) {
      KeptCounts(s, cap, limit, c);
    }
  }

  // ---------------------------------------------------------------- rankings

  predicate ActionBefore(a: Entry, b: Entry) {
    a.value > b.value || (a.value == b.value && TextLess(a.customer, b.customer))
  }

  predicate GapBefore(a: Entry, b: Entry) {
    a.value > b.value
  }

  lemma RankedDescending(entries: seq<Entry>, before: (Entry, Entry) -> bool)
    requires before == ActionBefore || before == GapBefore
    requires forall e | e in entries :: e.value >= 0.0
    ensures Descending(Sort(entries, before))
  {
    if before == ActionBefore {
      ActionOrder();
    }
    SortOrdered(entries, before);
    var s := Sort(entries, before);
    forall i | 0 <= i < |s| ensures s[i].value >= 0.0 {
      SortMembers(entries, before, s[i]);
    }
    assert forall i, j | 0 <= i < j < |s| :: !before(s[j], s[i]);
  }

  lemma ActionOrder()
    ensures StrictWeak(ActionBefore)
  {
    forall x, y | ActionBefore(x, y) ensures !ActionBefore(y, x) {
      if x.value == y.value {
        TextLessAsymmetric(x.customer, y.customer);
      }
    }
    forall x, y, z | !ActionBefore(x, y) && !ActionBefore(y, z) ensures !ActionBefore(x, z) {
      if x.value == y.value == z.value {
        TextLessNegative(x.customer, y.customer, z.customer);
      }
    }
  }

  function ActionList(actions: seq<Entry>, cap: int, limit: int): seq<Entry> {
    Kept(Sort(actions, ActionBefore), cap, Some(limit))
  }

  function TrimmedGaps(gaps: seq<Entry>, top: int): seq<Entry> {
    Kept(Sort(gaps, GapBefore), top, None)
  }

  /** No selection from the raw actions within the cap and the limit is worth more than the
      action list, which is one itself. */
  lemma ActionListIsBest(actions: seq<Entry>, chosen: seq<Entry>, cap: int, limit: int)
    requires forall e | e in actions :: e.value > 0.0
    requires multiset(chosen) <= multiset(actions) && Respects(chosen, cap, Some(limit))
    ensures var best := ActionList(actions, cap, limit);
            && SumValue(chosen) <= SumValue(best)
            && multiset(best) <= multiset(actions) && Respects(best, cap, Some(limit))
  {
    RankedDescending(actions, ActionBefore);
    GreedyIsOptimal(Sort(actions, ActionBefore), chosen, cap, Some(limit));
    GreedyRespects(Sort(actions, ActionBefore), cap, Some(limit));
  }

  lemma {:induction false} KeptOrdered(s: seq<Entry>, cap: int, limit: Option<int>, before: (Entry, Entry) -> bool)
    requires Ordered(s, before)
    ensures Ordered(Kept(s, cap, limit), before)
  {
    if s != [] {
      var n := |s| - 1;
      KeptOrdered(s[..n], cap, limit, before);
      KeptSubset(s[..n], cap, limit);
      var k := Kept(s[..n], cap, limit);
      forall i | 0 <= i < |k| ensures !before(s[n], k[i]) {
        assert k[i] in k;
        var j :| 0 <= j < n && s[j] == k[i];
      }
    }
  }

  /** The action list is in order of falling value, equal values by customer. */
  lemma ActionListIsRanked(actions: seq<Entry>, cap: int, limit: int)
    ensures var list := ActionList(actions, cap, limit);
            forall i, j | 0 <= i < j < |list| ::
              list[i].value > list[j].value
              || (list[i].value == list[j].value && !TextLess(list[j].customer, list[i].customer))
  {
    ActionOrder();
    SortOrdered(actions, ActionBefore);
    KeptOrdered(Sort(actions, ActionBefore), cap, Some(limit), ActionBefore);
  }

  /** The same for the gap trim, which has no overall limit. */
  lemma TrimIsBest(gaps: seq<Entry>, chosen: seq<Entry>, top: int)
    requires forall e | e in gaps :: e.value > 0.0
    requires multiset(chosen) <= multiset(gaps) && Respects(chosen, top, None)
    ensures var best := TrimmedGaps(gaps, top);
            && SumValue(chosen) <= SumValue(best)
            && multiset(best) <= multiset(gaps) && Respects(best, top, None)
  {
    RankedDescending(gaps, GapBefore);
    GreedyIsOptimal(Sort(gaps, GapBefore), chosen, top, None);
    GreedyRespects(Sort(gaps, GapBefore), top, None);
  }

  /** The trimmed gaps are in order of falling value. */
  lemma TrimIsRanked(gaps: seq<Entry>, top: int)
    ensures var list := TrimmedGaps(gaps, top); forall i, j | 0 <= i < j < |list| :: list[i].value >= list[j].value
  {
    SortOrdered(gaps, GapBefore);
    KeptOrdered(Sort(gaps, GapBefore), top, None, GapBefore);
  }

  /** The entries with fewer than `cap` earlier ones of their customer. */
  function FirstOnes(s: seq<Entry>, cap: int): seq<bool> {
    seq(|s|, i requires 0 <= i < |s| => CountOf(s[..i], s[i].customer) < cap)
  }

  /** Without a limit the loop keeps the first `cap` entries of each customer. */
  lemma {:induction false} KeptAreFirst(s: seq<Entry>, cap: int)
    ensures Kept(s, cap, None) == Pick(s, FirstOnes(s, cap))
  {
    if s != [] {
      var n := |s| - 1;
      KeptAreFirst(s[..n], cap);
      KeptCounts(s[..n], cap, None, s[n].customer);
      assert forall i | 0 <= i < n :: s[..n][..i] == s[..i];
      assert FirstOnes(s, cap)[..n] == FirstOnes(s[..n], cap);
    }
  }

  /** A limit only cuts that list off; a limit below one keeps one entry. */
  lemma {:induction false} LimitCuts(s: seq<Entry>, cap: int, limit: int)
    ensures var all := Kept(s, cap, None); Kept(s, cap, Some(limit)) == all[..Min(Max(1, limit), |all|)]
  {
    if s != [] {
      LimitCuts(s[..|s| - 1], cap, limit);
      var all, top := Kept(s[..|s| - 1], cap, None), Max(1, limit);
      if |all| < top {
        assert all[..|all|] == all;
        assert Kept(s, cap, Some(limit)) == Kept(s, cap, None);
        assert Kept(s, cap, None)[..|Kept(s, cap, None)|] == Kept(s, cap, None);
      } else {
        assert Full(all[..top], Some(limit));
        assert (all + [s[|s| - 1]])[..top] == all[..top];
      }
    }
  }

  /** The list respects the limit as written exactly when the limit is positive or there is
      nothing to keep: the append comes before the test. */
  lemma LimitRespectedIff(s: seq<Entry>, cap: int, limit: int)
    requires s != [] && cap >= 1
    ensures |Kept(s, cap, Some(limit))| <= limit <==> limit >= 1
  {
    KeptSubset(s, cap, Some(limit));
    KeptNonempty(s, cap, Some(limit));
  }

  lemma {:induction false} KeptNonempty(s: seq<Entry>, cap: int, limit: Option<int>)
    requires s != [] && cap >= 1
    ensures Kept(s, cap, limit) != []
  {
    if |s| > 1 {
      KeptNonempty(s[..|s| - 1], cap, limit);
    }
  }

  // ---------------------------------------------------------------- the summary by kind

  datatype KindRow = KindRow(kind: string, count: nat, total: real)

  function KindIndex(rows: seq<KindRow>, kind: string): (i: nat)
    ensures i <= |rows| && (i < |rows| ==> rows[i].kind == kind)
    ensures i == |rows| ==> forall r | r in rows :: r.kind != kind
  {
    if rows == [] then 0
    else if rows[0].kind == kind then 0
    else 1 + KindIndex(rows[1..], kind)
  }

  function AddToKind(rows: seq<KindRow>, e: Entry): seq<KindRow> {
    var i := KindIndex(rows, e.kind);
    if i < |rows| then rows[i := KindRow(e.kind, rows[i].count + 1, rows[i].total + e.value)]
    else rows + [KindRow(e.kind, 1, e.value)]
  }

  function Summarize(kept: seq<Entry>): seq<KindRow> {
    if kept == [] then [] else AddToKind(Summarize(kept[..|kept| - 1]), kept[|kept| - 1])
  }

  function RowCounts(rows: seq<KindRow>): int {
    if rows == [] then 0 else RowCounts(rows[..|rows| - 1]) + rows[|rows| - 1].count
  }

  function RowTotals(rows: seq<KindRow>): real {
    if rows == [] then 0.0 else RowTotals(rows[..|rows| - 1]) + rows[|rows| - 1].total
  }

  lemma {:induction false} RowReplace(rows: seq<KindRow>, i: nat, r: KindRow)
    requires i < |rows|
    ensures RowCounts(rows[i := r]) == RowCounts(rows) - rows[i].count + r.count
    ensures RowTotals(rows[i := r]) == RowTotals(rows) - rows[i].total + r.total
  {
    var n := |rows| - 1;
    if i < n {
      RowReplace(rows[..n], i, r);
      assert rows[i := r][..n] == rows[..n][i := r];
    } else {
      assert rows[i := r][..n] == rows[..n];
    }
  }

  lemma AddToKindAdds(rows: seq<KindRow>, e: Entry)
    ensures RowCounts(AddToKind(rows, e)) == RowCounts(rows) + 1
    ensures RowTotals(AddToKind(rows, e)) == RowTotals(rows) + e.value
  {
    var i := KindIndex(rows, e.kind);
    if i < |rows| {
      RowReplace(rows, i, KindRow(e.kind, rows[i].count + 1, rows[i].total + e.value));
    } else {
      assert (rows + [KindRow(e.kind, 1, e.value)])[..|rows|] == rows;
    }
  }

  ghost predicate DistinctKinds(rows: seq<KindRow>) {
    forall i, j | 0 <= i < j < |rows| :: rows[i].kind != rows[j].kind
  }

  lemma AddToKindDistinct(rows: seq<KindRow>, e: Entry)
    requires DistinctKinds(rows)
    ensures DistinctKinds(AddToKind(rows, e))
  {
    var i := KindIndex(rows, e.kind);
    if i == |rows| {
      assert forall j | 0 <= j < |rows| :: rows[j] in rows;
    }
  }

  /** Nothing is lost or counted twice: one row per kind, counts and values add up. */
  lemma {:induction false} SummaryAddsUp(kept: seq<Entry>)
    ensures RowCounts(Summarize(kept)) == |kept| && RowTotals(Summarize(kept)) == SumValue(kept)
    ensures DistinctKinds(Summarize(kept))
  {
    if kept != [] {
      var n := |kept| - 1;
      SummaryAddsUp(kept[..n]);
      AddToKindAdds(Summarize(kept[..n]), kept[n]);
      AddToKindDistinct(Summarize(kept[..n]), kept[n]);
    }
  }

  function KindCount(s: seq<Entry>, kind: string): nat {
    if s == [] then 0 else KindCount(s[..|s| - 1], kind) + if s[|s| - 1].kind == kind then 1 else 0
  }

  function KindTotal(s: seq<Entry>, kind: string): real {
    if s == [] then 0.0 else KindTotal(s[..|s| - 1], kind) + if s[|s| - 1].kind == kind then s[|s| - 1].value else 0.0
  }

  /** The row holds the number and the total value of its kind, which occurs. */
  predicate IsKindRow(kept: seq<Entry>, r: KindRow) {
    0 < r.count == KindCount(kept, r.kind) && r.total == KindTotal(kept, r.kind)
  }

  ghost predicate RowsMean(rows: seq<KindRow>, kept: seq<Entry>) {
    && (forall i | 0 <= i < |rows| :: IsKindRow(kept, rows[i]))
    && (forall kind | KindCount(kept, kind) > 0 :: HasKind(rows, kind))
  }

  predicate HasKind(rows: seq<KindRow>, kind: string) {
    exists i | 0 <= i < |rows| :: rows[i].kind == kind
  }

  lemma KindStep(s: seq<Entry>, e: Entry, kind: string)
    ensures KindCount(s + [e], kind) == KindCount(s, kind) + if e.kind == kind then 1 else 0
    ensures KindTotal(s + [e], kind) == KindTotal(s, kind) + if e.kind == kind then e.value else 0.0
  {
    assert (s + [e])[..|s|] == s;
  }

  lemma {:induction false} NoneOfKind(s: seq<Entry>, kind: string)
    ensures KindCount(s, kind) == 0 ==> KindTotal(s, kind) == 0.0
  {
    if s != [] {
      NoneOfKind(s[..|s| - 1], kind);
    }
  }

  lemma AddToKindMeans(rows: seq<KindRow>, kept: seq<Entry>, e: Entry)
    requires RowsMean(rows, kept) && DistinctKinds(rows)
    ensures RowsMean(AddToKind(rows, e), kept + [e])
  {
    var k, after := KindIndex(rows, e.kind), AddToKind(rows, e);
    NoneOfKind(kept, e.kind);
    assert forall i | 0 <= i < |rows| :: rows[i] in rows;
    forall i | 0 <= i < |after| ensures IsKindRow(kept + [e], after[i]) {
      KindStep(kept, e, after[i].kind);
      if i < |rows| {
        assert IsKindRow(kept, rows[i]);
        assert after[i].kind == rows[i].kind;
        assert i != k && k < |rows| ==> rows[i].kind != e.kind;
      } else {
        assert KindCount(kept, e.kind) > 0 ==> HasKind(rows, e.kind);
      }
    }
    forall kind | KindCount(kept + [e], kind) > 0 ensures HasKind(after, kind) {
      KindStep(kept, e, kind);
      if kind == e.kind {
        assert after[k].kind == kind;
      } else {
        var i :| 0 <= i < |rows| && rows[i].kind == kind;
        assert after[i].kind == kind;
      }
    }
  }

  lemma {:induction false} RowsMeanAll(kept: seq<Entry>)
    ensures RowsMean(Summarize(kept), kept)
  {
    if kept != [] {
      var n := |kept| - 1;
      RowsMeanAll(kept[..n]);
      SummaryAddsUp(kept[..n]);
      AddToKindMeans(Summarize(kept[..n]), kept[..n], kept[n]);
      assert kept == kept[..n] + [kept[n]];
    }
  }

  /** The summary has exactly one row for each kind that occurs, with its number and value. */
  lemma SummaryMeans(kept: seq<Entry>, r: KindRow)
    ensures r in Summarize(kept) <==> IsKindRow(kept, r)
  {
    var rows := Summarize(kept);
    RowsMeanAll(kept);
    if r in rows {
      var i :| 0 <= i < |rows| && rows[i] == r;
    }
    if IsKindRow(kept, r) {
      assert HasKind(rows, r.kind);
      var i :| 0 <= i < |rows| && rows[i].kind == r.kind;
      assert IsKindRow(kept, rows[i]);
      assert rows[i] == r;
    }
  }

  predicate LargerTotal(a: KindRow, b: KindRow) {
    a.total > b.total
  }

  /** The summary of a plan lists the largest totals first, and every row of it once. */
  lemma SummaryIsRanked(kept: seq<Entry>, r: KindRow)
    ensures var rows := Sort(Summarize(kept), LargerTotal);
            && (forall i, j | 0 <= i < j < |rows| :: rows[i].total >= rows[j].total && rows[i].kind != rows[j].kind)
            && (r in rows <==> IsKindRow(kept, r))
  {
    var rows := Summarize(kept);
    SortOrdered(rows, LargerTotal);
    SortMembers(rows, LargerTotal, r);
    SummaryMeans(kept, r);
    SummaryAddsUp(kept);
    SortedKinds(rows);
  }

  lemma SortedKinds(rows: seq<KindRow>)
    requires DistinctKinds(rows)
    ensures DistinctKinds(Sort(rows, LargerTotal))
  {
    var sorted := Sort(rows, LargerTotal);
    SortDistinct(rows, LargerTotal);
    forall i, j | 0 <= i < j < |sorted| ensures sorted[i].kind != sorted[j].kind {
      SortMembers(rows, LargerTotal, sorted[i]);
      SortMembers(rows, LargerTotal, sorted[j]);
      var k :| 0 <= k < |rows| && rows[k] == sorted[i];
      var l :| 0 <= l < |rows| && rows[l] == sorted[j];
    }
  }

  // ---------------------------------------------------------------- the loops

  lemma KeptStops(s: seq<Entry>, cap: int, limit: Option<int>, i: nat)
    requires i <= |s| && Full(Kept(s[..i], cap, limit), limit)
    ensures Kept(s, cap, limit) == Kept(s[..i], cap, limit)
  {
    if i < |s| {
      assert s[..|s| - 1][..i] == s[..i];
      KeptStops(s[..|s| - 1], cap, limit, i);
    } else {
      assert s[..i] == s;
    }
  }

  /** The dictionary counts the kept entries of each customer. */
  ghost predicate SeenOf(seen: map<string, int>, kept: seq<Entry>) {
    forall c :: CountOf(kept, c) == if c in seen then seen[c] else 0
  }

  lemma SeenStep(seen: map<string, int>, kept: seq<Entry>, a: Entry)
    requires SeenOf(seen, kept)
    ensures SeenOf(seen[a.customer := (if a.customer in seen then seen[a.customer] else 0) + 1], kept + [a])
  {
    var after := seen[a.customer := (if a.customer in seen then seen[a.customer] else 0) + 1];
    forall c ensures CountOf(kept + [a], c) == if c in after then after[c] else 0 {
      CountAppend(kept, a, c);
    }
  }

  /** The loop with the `seen` dictionary, and its early stop. */
  method SelectActions(ranked: seq<Entry>, cap: int, limit: int) returns (kept: seq<Entry>)
    ensures kept == Kept(ranked, cap, Some(limit))
  {
    var seen: map<string, int> := map[];
    kept := [];
    for i := 0 to |ranked|
      invariant kept == Kept(ranked[..i], cap, Some(limit)) && !Full(kept, Some(limit))
      invariant SeenOf(seen, kept)
    {
      var a := ranked[i];
      assert ranked[..i + 1][..i] == ranked[..i];
      var n := if a.customer in seen then seen[a.customer] else 0;
      if n < cap {
        SeenStep(seen, kept, a);
        seen := seen[a.customer := n + 1];
        kept := kept + [a];
        if |kept| >= limit {
          KeptStops(ranked, cap, Some(limit), i + 1);
          return;
        }
      }
    }
    assert ranked[..|ranked|] == ranked;
  }

  method NumberRanks(kept: seq<Entry>) returns (plan: seq<Entry>)
    ensures |plan| == |kept| && forall i | 0 <= i < |plan| :: plan[i] == kept[i].(rank := i + 1)
  {
    plan := [];
    for i := 0 to |kept|
      invariant |plan| == i && forall j | 0 <= j < i :: plan[j] == kept[j].(rank := j + 1)
    {
      plan := plan + [kept[i].(rank := i + 1)];
    }
  }

  method SummarizeKinds(kept: seq<Entry>) returns (total: real, rows: seq<KindRow>)
    ensures total == SumValue(kept) && rows == Summarize(kept)
  {
    total, rows := 0.0, [];
    for i := 0 to |kept|
      invariant total == SumValue(kept[..i]) && rows == Summarize(kept[..i])
    {
      assert kept[..i + 1][..i] == kept[..i];
      total := total + kept[i].value;
      rows := AddToKind(rows, kept[i]);
    }
    assert kept[..|kept|] == kept;
  }

  /** The end of `build_action_list`: rank, cap, number and total the raw actions. */
  method BuildActionList(actions: seq<Entry>, cap: int, limit: int)
    returns (plan: seq<Entry>, total: real, summary: seq<KindRow>)
    ensures var best := ActionList(actions, cap, limit);
            && |plan| == |best| && (forall i | 0 <= i < |plan| :: plan[i] == best[i].(rank := i + 1))
            && total == SumValue(best)
            && summary == Sort(Summarize(best), LargerTotal)
  {
    var kept := SelectActions(Sort(actions, ActionBefore), cap, limit);
    plan := NumberRanks(kept);
    var rows;
    total, rows := SummarizeKinds(kept);
    summary := Sort(rows, LargerTotal);
  }

  /** The buckets hold as many gaps per customer as the list. */
  ghost predicate BucketsOf(buckets: map<string, seq<Entry>>, trimmed: seq<Entry>) {
    forall c :: CountOf(trimmed, c) == if c in buckets then |buckets[c]| else 0
  }

  lemma BucketStep(buckets: map<string, seq<Entry>>, trimmed: seq<Entry>, gap: Entry)
    requires BucketsOf(buckets, trimmed) && gap.customer in buckets
    ensures BucketsOf(buckets[gap.customer := buckets[gap.customer] + [gap]], trimmed + [gap])
  {
    var after := buckets[gap.customer := buckets[gap.customer] + [gap]];
    forall c ensures CountOf(trimmed + [gap], c) == if c in after then |after[c]| else 0 {
      CountAppend(trimmed, gap, c);
    }
  }

  lemma KeptStep(s: seq<Entry>, cap: int, i: nat)
    requires i < |s|
    ensures var kept := Kept(s[..i], cap, None);
            Kept(s[..i + 1], cap, None) == if CountOf(kept, s[i].customer) < cap then kept + [s[i]] else kept
  {
    assert s[..i + 1][..i] == s[..i];
  }

  /** The trim of `compute_expansion_gap`, with one bucket per customer. */
  method TrimGaps(gaps: seq<Entry>, top: int) returns (trimmed: seq<Entry>)
    ensures trimmed == TrimmedGaps(gaps, top)
  {
    var ranked := Sort(gaps, GapBefore);
    trimmed := TrimRanked(ranked, top);
  }

  method TrimRanked(ranked: seq<Entry>, top: int) returns (trimmed: seq<Entry>)
    ensures trimmed == Kept(ranked, top, None)
  {
    var buckets: map<string, seq<Entry>> := map[];
    trimmed := [];
    for i := 0 to |ranked|
      invariant trimmed == Kept(ranked[..i], top, None)
      invariant BucketsOf(buckets, trimmed)
    {
      var gap := ranked[i];
      KeptStep(ranked, top, i);
      if gap.customer !in buckets {
        buckets := buckets[gap.customer := []];
      }
      if |buckets[gap.customer]| < top {
        BucketStep(buckets, trimmed, gap);
        buckets := buckets[gap.customer := buckets[gap.customer] + [gap]];
        trimmed := trimmed + [gap];
      }
    }
    assert ranked[..|ranked|] == ranked;
  }
}
