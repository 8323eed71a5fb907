/** Policy settings kept as text: the ladder of discounts and the full-price thresholds. */
module SettingsStore {
  import opened Prelude
  import opened Ranking
  import opened Decimal

  const MAX_LADDER_RUNG_BP := 5_000
  const MAX_LADDER_RUNGS := 8
  const DEFAULT_HIGH_BP := 9_000
  const DEFAULT_LOW_BP := 5_000
  const DEFAULT_MIN_LINES := 3

  const OFFER_LADDER_BP := "offer_ladder_bp"
  const FULL_PRICE_HIGH_BP := "full_price_high_bp"
  const FULL_PRICE_LOW_BP := "full_price_low_bp"
  const FULL_PRICE_MIN_LINES := "full_price_min_lines"

  datatype Error = TooManyRungs | BadRung(rung: int) | BadThresholds | BadMinLines

  datatype Result<+T> = Ok(value: T) | Err(error: Error)

  // ---------------------------------------------------------------- whole numbers as text

  predicate IsBlank(c: char) {
    c == ' ' || '\t' <= c <= '\r'
  }

  function Strip(s: string): string {
    if s == [] then s
    else if IsBlank(s[0]) then Strip(s[1..])
    else if IsBlank(s[|s| - 1]) then Strip(s[..|s| - 1])
    else s
  }

  /** Python's `int` on ASCII text: blanks around, an optional sign, digits with single
      underscores between them. */
  function ParseInt(s: string): Option<int> {
    var t := Strip(s);
    if t != [] && t[0] == '-' then
      var n := ParseNat(t[1..]);
      if n.Some? then Some(-(n.value as int)) else None
    else
      var n := ParseNat(if t != [] && t[0] == '+' then t[1..] else t);
      if n.Some? then Some(n.value as int) else None
  }

  predicate Numeral(s: string) {
    && s != [] && IsDigit(s[0]) && IsDigit(s[|s| - 1])
    && (forall i | 0 <= i < |s| :: IsDigit(s[i]) || s[i] == '_')
    && (forall i | 0 <= i < |s| - 1 :: s[i] == '_' ==> s[i + 1] != '_')
  }

  function WithoutUnderscores(s: string): (r: string)
    requires forall i | 0 <= i < |s| :: IsDigit(s[i]) || s[i] == '_'
    ensures AllDigits(r)
  {
    if s == [] then []
    else WithoutUnderscores(s[..|s| - 1]) + if s[|s| - 1] == '_' then [] else [s[|s| - 1]]
  }

  function ParseNat(s: string): Option<nat> {
    if Numeral(s) then Some(ValueOf(WithoutUnderscores(s))) else None
  }

  lemma {:induction false} DigitsKept(s: string)
    requires AllDigits(s)
    ensures WithoutUnderscores(s) == s
  {
    if s != [] {
      DigitsKept(s[..|s| - 1]);
    }
  }

  /** Python's `str` of an int. */
  function Text(n: int): string {
    if n < 0 then "-" + DigitsOf(-n) else DigitsOf(n)
  }

  lemma StripSolid(s: string)
    requires s != [] && !IsBlank(s[0]) && !IsBlank(s[|s| - 1])
    ensures Strip(s) == s
  {
  }

  lemma ParseDigits(n: nat)
    ensures ParseNat(DigitsOf(n)) == Some(n)
  {
    DigitsKept(DigitsOf(n));
    ValueOfDigits(n);
  }

  lemma ParseNatural(n: nat)
    ensures ParseInt(DigitsOf(n)) == Some(n)
  {
    var s := DigitsOf(n);
    assert IsDigit(s[0]) && IsDigit(s[|s| - 1]);
    StripSolid(s);
    ParseDigits(n);
  }

  lemma ParseNegative(n: nat)
    ensures ParseInt("-" + DigitsOf(n)) == Some(-(n as int))
  {
    var s := DigitsOf(n);
    assert IsDigit(s[|s| - 1]);
    assert ("-" + s)[|s|] == s[|s| - 1] && ("-" + s)[1..] == s;
    StripSolid("-" + s);
    ParseDigits(n);
  }

  lemma ParsePrinted(n: int)
    ensures ParseInt(Text(n)) == Some(n)
  {
    if n < 0 {
      ParseNegative(-n);
      assert Text(n) == "-" + DigitsOf(-n);
    } else {
      ParseNatural(n);
      assert Text(n) == DigitsOf(n);
    }
  }

  // ---------------------------------------------------------------- lists as text

  function Split(s: string, c: char): seq<string> {
    if s == [] then [""]
    else
      var rest := Split(s[..|s| - 1], c);
      if s[|s| - 1] == c then rest + [""]
      else rest[..|rest| - 1] + [rest[|rest| - 1] + [s[|s| - 1]]]
  }

  function Join(rungs: seq<int>): string {
    if rungs == [] then ""
    else if |rungs| == 1 then Text(rungs[0])
    else Join(rungs[..|rungs| - 1]) + "," + Text(rungs[|rungs| - 1])
  }

  predicate HasText(part: string) {
    Strip(part) != []
  }

  function ParseAll(parts: seq<string>): Option<seq<int>> {
    if parts == [] then Some([])
    else
      var rest, last := ParseAll(parts[..|parts| - 1]), ParseInt(parts[|parts| - 1]);
      if rest.Some? && last.Some? then Some(rest.value + [last.value]) else None
  }

  predicate LessInt(a: int, b: int) {
    a < b
  }

  predicate IsRung(r: int) {
    0 < r <= MAX_LADDER_RUNG_BP
  }

  /** The distinct numbers in ascending order. */
  function Cleaned(rungs: seq<int>): seq<int> {
    Sort(Dedup(rungs), LessInt)
  }

  /** The ladder a stored text stands for; nothing usable means it was never set. */
  function ReadLadder(raw: Option<string>): Option<seq<int>> {
    if raw.None? then None
    else
      var numbers := ParseAll(Filter(Split(raw.value, ','), HasText));
      if numbers.None? then None
      else
        var rungs := Filter(Cleaned(numbers.value), IsRung);
        if rungs == [] then None else Some(rungs)
  }

  function Get(rows: map<string, string>, key: string): Option<string> {
    if key in rows then Some(rows[key]) else None
  }

  function FirstBad(rungs: seq<int>): Option<int> {
    if rungs == [] then None
    else if !IsRung(rungs[0]) then Some(rungs[0])
    else FirstBad(rungs[1..])
  }

  lemma {:induction false} NoBadRung(rungs: seq<int>)
    ensures FirstBad(rungs).None? <==> forall r | r in rungs :: IsRung(r)
  {
    if rungs != [] {
      NoBadRung(rungs[1..]);
      assert rungs == [rungs[0]] + rungs[1..];
    }
  }

  method FindBad(rungs: seq<int>) returns (bad: Option<int>)
    ensures bad == FirstBad(rungs)
  {
    assert rungs[0..] == rungs;
    for i := 0 to |rungs|
      invariant FirstBad(rungs) == FirstBad(rungs[i..])
    {
      if !IsRung(rungs[i]) {
        return Some(rungs[i]);
      }
      assert rungs[i..][1..] == rungs[i + 1..];
    }
    bad := None;
  }

  /** Storing a ladder: nothing or an empty list removes it, and a list that breaks a limit
      changes nothing. */
  function SetLadder(rows: map<string, string>, rungs: seq<int>): (map<string, string>, Result<Option<seq<int>>>) {
    if rungs == [] then (rows - {OFFER_LADDER_BP}, Ok(None))
    else
      var cleaned := Cleaned(rungs);
      if |cleaned| > MAX_LADDER_RUNGS then (rows, Err(TooManyRungs))
      else if FirstBad(cleaned).Some? then (rows, Err(BadRung(FirstBad(cleaned).value)))
      else
        (rows[OFFER_LADDER_BP := Join(cleaned)], Ok(Some(cleaned)))
  }

  ghost predicate Ascending(rungs: seq<int>) {
    forall i, j | 0 <= i < j < |rungs| :: rungs[i] < rungs[j]
  }

  lemma CleanedAscends(rungs: seq<int>)
    ensures Ascending(Cleaned(rungs)) && forall r :: r in Cleaned(rungs) <==> r in rungs
  {
    var d, c := Dedup(rungs), Cleaned(rungs);
    SortOrdered(d, LessInt);
    forall r ensures r in c <==> r in rungs {
      SortMembers(d, LessInt, r);
    }
    SortDistinct(d, LessInt);
    forall i, j | 0 <= i < j < |c| ensures c[i] < c[j] {
      assert !LessInt(c[j], c[i]);
    }
  }

  lemma {:induction false} AscendingIsDistinct(rungs: seq<int>)
    requires Ascending(rungs)
    ensures Dedup(rungs) == rungs
  {
    if rungs != [] {
      var n := |rungs| - 1;
      var front, last := rungs[..n], rungs[n];
      AscendingIsDistinct(front);
      assert rungs == front + [last];
      assert last !in front;
      DedupAppend(front, last);
    }
  }

  lemma AscendingIsSorted(rungs: seq<int>)
    requires Ascending(rungs)
    ensures Sort(rungs, LessInt) == rungs
  {
    SortOfOrdered(rungs, LessInt);
  }

  lemma AscendingIsClean(rungs: seq<int>)
    requires Ascending(rungs)
    ensures Cleaned(rungs) == rungs
  {
    AscendingIsDistinct(rungs);
    AscendingIsSorted(rungs);
  }

  lemma {:induction false} FilterAscends(rungs: seq<int>, p: int -> bool)
    requires Ascending(rungs)
    ensures Ascending(Filter(rungs, p))
  {
    if rungs != [] {
      var n := |rungs| - 1;
      FilterAscends(rungs[..n], p);
      var f := Filter(rungs[..n], p);
      forall i | 0 <= i < |f| ensures f[i] < rungs[n] {
        assert f[i] in f;
        assert f[i] in rungs[..n];
      }
    }
  }

  // ---------------------------------------------------------------- the ladder round trip

  function Numerals(rungs: seq<int>): seq<string> {
    if rungs == [] then [] else Numerals(rungs[..|rungs| - 1]) + [Text(rungs[|rungs| - 1])]
  }

  /** The parts with `tail` added to the last one. */
  function Extend(parts: seq<string>, tail: string): seq<string>
    requires parts != []
  {
    parts[..|parts| - 1] + [parts[|parts| - 1] + tail]
  }

  lemma SplitStep(s: string, c: char)
    ensures Split(s, ',') != []
    ensures Split(s + [c], ',') == if c == ',' then Split(s, ',') + [""] else Extend(Split(s, ','), [c])
  {
    assert (s + [c])[..|s|] == s;
  }

  lemma ExtendTwice(parts: seq<string>, a: string, b: string)
    requires parts != []
    ensures Extend(Extend(parts, a), b) == Extend(parts, a + b)
  {
    Associative(parts[|parts| - 1], a, b);
  }

  /** Appending text without a separator extends the last part. */
  lemma {:induction false} SplitPlain(s: string, tail: string)
    requires forall i | 0 <= i < |tail| :: tail[i] != ','
    ensures Split(s, ',') != [] && Split(s + tail, ',') == Extend(Split(s, ','), tail)
  {
    if tail == [] {
      assert s + tail == s;
      SplitStep(s, ',');
      var parts := Split(s, ',');
      assert parts[|parts| - 1] + tail == parts[|parts| - 1];
      assert Extend(parts, tail) == parts;
    } else {
      var front, last := tail[..|tail| - 1], tail[|tail| - 1];
      SplitPlain(s, front);
      assert tail == front + [last];
      Associative(s, front, [last]);
      SplitStep(s + front, last);
      ExtendTwice(Split(s, ','), front, [last]);
    }
  }

  lemma TextHasNoComma(n: int)
    ensures forall i | 0 <= i < |Text(n)| :: Text(n)[i] != ','
    ensures HasText(Text(n))
  {
    var size: nat := if n < 0 then -n else n;
    var s, t := DigitsOf(size), Text(n);
    assert IsDigit(s[0]) && IsDigit(s[|s| - 1]);
    assert t[|t| - 1] == s[|s| - 1];
    forall i | 0 <= i < |t| ensures t[i] != ',' {
      assert n < 0 && i > 0 ==> t[i] == s[i - 1];
      assert n >= 0 ==> IsDigit(s[i]);
    }
  }

  lemma {:induction false} SplitJoined(rungs: seq<int>)
    requires rungs != []
    ensures Split(Join(rungs), ',') == Numerals(rungs)
  {
    var n := |rungs| - 1;
    var last := Text(rungs[n]);
    TextHasNoComma(rungs[n]);
    assert "" + last == last;
    if n == 0 {
      SplitPlain("", last);
      assert Extend([""], last) == [last];
      assert Numerals(rungs[..0]) == [] && [] + [last] == [last];
    } else {
      SplitJoined(rungs[..n]);
      var parts := Numerals(rungs[..n]);
      SplitStep(Join(rungs[..n]), ',');
      SplitPlain(Join(rungs[..n]) + ",", last);
      assert Extend(parts + [""], last) == parts + [last];
    }
  }

  lemma ParseAllAppend(parts: seq<string>, last: string)
    ensures ParseAll(parts + [last])
         == var rest, n := ParseAll(parts), ParseInt(last);
            if rest.Some? && n.Some? then Some(rest.value + [n.value]) else None
  {
    assert (parts + [last])[..|parts|] == parts;
  }

  lemma NumeralsStep(rungs: seq<int>)
    requires rungs != []
    ensures Numerals(rungs) == Numerals(rungs[..|rungs| - 1]) + [Text(rungs[|rungs| - 1])]
  {
  }

  lemma {:induction false} NumeralsParse(rungs: seq<int>)
    ensures ParseAll(Numerals(rungs)) == Some(rungs)
  {
    if rungs != [] {
      NumeralsParse(rungs[..|rungs| - 1]);
      NumeralsStep(rungs);
      NumeralParses(rungs[..|rungs| - 1], rungs[|rungs| - 1]);
      FrontAndLast(rungs);
    }
  }

  lemma NumeralParses(front: seq<int>, last: int)
    requires ParseAll(Numerals(front)) == Some(front)
    ensures ParseAll(Numerals(front) + [Text(last)]) == Some(front + [last])
  {
    ParsePrinted(last);
    ParseAllAppend(Numerals(front), Text(last));
  }

  lemma {:induction false} NumeralsLength(rungs: seq<int>)
    ensures |Numerals(rungs)| == |rungs|
    ensures forall i | 0 <= i < |rungs| :: Numerals(rungs)[i] == Text(rungs[i])
  {
    if rungs != [] {
      NumeralsLength(rungs[..|rungs| - 1]);
    }
  }

  lemma NumeralsHaveText(rungs: seq<int>)
    ensures Filter(Numerals(rungs), HasText) == Numerals(rungs)
  {
    NumeralsLength(rungs);
    forall i | 0 <= i < |rungs| ensures HasText(Numerals(rungs)[i]) {
      TextHasNoComma(rungs[i]);
    }
    FilterAll(Numerals(rungs), HasText);
  }

  lemma StoredReads(cleaned: seq<int>)
    requires cleaned != [] && Ascending(cleaned) && forall i | 0 <= i < |cleaned| :: IsRung(cleaned[i])
    ensures ReadLadder(Some(Join(cleaned))) == Some(cleaned)
  {
    SplitJoined(cleaned);
    NumeralsHaveText(cleaned);
    NumeralsParse(cleaned);
    AscendingIsClean(cleaned);
    FilterAll(cleaned, IsRung);
  }

  /** What cleaning a list gives, and when it has no bad rung. */
  lemma CleanedMeans(rungs: seq<int>)
    ensures var c := Cleaned(rungs);
            && Ascending(c) && |c| == |Dedup(rungs)| && (c == [] <==> rungs == [])
            && (forall r :: r in c <==> r in rungs)
            && (FirstBad(c).None? <==> forall r | r in rungs :: IsRung(r))
  {
    CleanedAscends(rungs);
    NoBadRung(Cleaned(rungs));
    if rungs != [] {
      var r := rungs[0];
      assert r in rungs && r in Cleaned(rungs);
    }
    if Cleaned(rungs) != [] {
      assert Cleaned(rungs)[0] in rungs;
    }
  }

  /** A stored ladder reads back as the same distinct, ascending, bounded rungs: those given. */
  lemma LadderRoundTrip(rows: map<string, string>, rungs: seq<int>)
    requires SetLadder(rows, rungs).1.Ok? && rungs != []
    ensures var after, kept := SetLadder(rows, rungs).0, SetLadder(rows, rungs).1.value;
            && kept.Some? && IsLadderOf(kept.value, rungs)
            && ReadLadder(Get(after, OFFER_LADDER_BP)) == kept
            && forall key | key != OFFER_LADDER_BP :: Get(after, key) == Get(rows, key)
  {
    AcceptedIsLadder(rungs);
    CleanedReads(rungs);
  }

  /** At most eight rungs: the given ones, distinct, ascending and bounded. */
  ghost predicate IsLadderOf(kept: seq<int>, rungs: seq<int>) {
    && Ascending(kept) && 0 < |kept| <= MAX_LADDER_RUNGS
    && (forall r :: r in kept <==> r in rungs)
    && (forall r | r in kept :: 0 < r <= 5_000)
  }

  lemma AcceptedIsLadder(rungs: seq<int>)
    requires rungs != [] && |Cleaned(rungs)| <= MAX_LADDER_RUNGS && FirstBad(Cleaned(rungs)).None?
    ensures IsLadderOf(Cleaned(rungs), rungs)
  {
    CleanedMeans(rungs);
  }

  lemma CleanedReads(rungs: seq<int>)
    requires rungs != [] && FirstBad(Cleaned(rungs)).None?
    ensures ReadLadder(Some(Join(Cleaned(rungs)))) == Some(Cleaned(rungs))
  {
    var cleaned := Cleaned(rungs);
    CleanedMeans(rungs);
    forall i | 0 <= i < |cleaned| ensures IsRung(cleaned[i]) {
      assert cleaned[i] in cleaned;
    }
    StoredReads(cleaned);
  }

  /** A ladder is accepted exactly when it is empty or names at most eight distinct rungs, each
      above zero and at most fifty percent; else nothing changes. */
  lemma LadderAcceptedIff(rows: map<string, string>, rungs: seq<int>)
    ensures SetLadder(rows, rungs).1.Ok? <==> |Dedup(rungs)| <= 8 && forall r | r in rungs :: 0 < r <= 5_000
    ensures SetLadder(rows, rungs).1.Err? ==> SetLadder(rows, rungs).0 == rows
    ensures rungs == [] ==> ReadLadder(Get(SetLadder(rows, rungs).0, OFFER_LADDER_BP)) == None
  {
    CleanedMeans(rungs);
    assert rungs == [] ==> |Dedup(rungs)| == 0;
  }

  /** Whatever text is stored, what is read is a ladder: ascending, distinct and bounded. */
  lemma ReadIsLadder(raw: string)
    requires ReadLadder(Some(raw)).Some?
    ensures var l := ReadLadder(Some(raw)).value; l != [] && Ascending(l) && forall r | r in l :: 0 < r <= 5_000
  {
    var numbers := ParseAll(Filter(Split(raw, ','), HasText)).value;
    CleanedAscends(numbers);
    FilterAscends(Cleaned(numbers), IsRung);
  }

  /** A ladder that was read can be stored again, and reads as before, exactly when it has at
      most eight rungs; reading itself does not check that limit. */
  lemma LadderRewritesIff(rows: map<string, string>, raw: string)
    requires ReadLadder(Some(raw)).Some?
    ensures var l := ReadLadder(Some(raw)).value; var stored := SetLadder(rows, l);
            && (stored.1.Ok? <==> |l| <= 8)
            && (stored.1.Ok? ==> ReadLadder(Get(stored.0, OFFER_LADDER_BP)) == Some(l))
  {
    var l := ReadLadder(Some(raw)).value;
    ReadIsLadder(raw);
    AscendingIsDistinct(l);
    AscendingIsClean(l);
    LadderAcceptedIff(rows, l);
    if |l| <= 8 {
      LadderRoundTrip(rows, l);
    }
  }

  // ---------------------------------------------------------------- what any text reads as

  lemma {:induction false} StripsFront(before: string, s: string)
    requires s != [] && !IsBlank(s[0]) && !IsBlank(s[|s| - 1])
    requires forall i | 0 <= i < |before| :: IsBlank(before[i])
    ensures Strip(before + s) == s
  {
    if before == [] {
      assert before + s == s;
    } else {
      assert (before + s)[1..] == before[1..] + s;
      StripsFront(before[1..], s);
    }
  }

  lemma {:induction false} StripsBack(s: string, after: string)
    requires s != [] && !IsBlank(s[0]) && forall i | 0 <= i < |after| :: IsBlank(after[i])
    ensures Strip(s + after) == Strip(s)
  {
    if after == [] {
      assert s + after == s;
    } else {
      assert (s + after)[..|s + after| - 1] == s + after[..|after| - 1];
      StripsBack(s, after[..|after| - 1]);
    }
  }

  lemma {:induction false} StripsBoth(before: string, s: string, after: string)
    requires s != [] && !IsBlank(s[0]) && !IsBlank(s[|s| - 1])
    requires forall i | 0 <= i < |before| :: IsBlank(before[i])
    requires forall i | 0 <= i < |after| :: IsBlank(after[i])
    ensures Strip(before + s + after) == s
  {
    if before == [] {
      assert before + s + after == s + after;
      StripsBack(s, after);
      StripSolid(s);
    } else {
      assert (before + s + after)[1..] == before[1..] + s + after;
      StripsBoth(before[1..], s, after);
    }
  }

  lemma TextEnds(n: int)
    ensures var s := Text(n); s != [] && !IsBlank(s[0]) && !IsBlank(s[|s| - 1])
  {
    var digits := if n < 0 then DigitsOf(-n) else DigitsOf(n);
    assert IsDigit(digits[0]) && IsDigit(digits[|digits| - 1]);
    assert Text(n)[|Text(n)| - 1] == digits[|digits| - 1];
  }

  /** Spaces, tabs and the four line and page breaks of ASCII. */
  ghost predicate Blanks(s: string) {
    forall i | 0 <= i < |s| :: s[i] as int in {9, 10, 11, 12, 13, 32}
  }

  /** Blanks around a number do not matter, nor does a plus sign before it. */
  lemma PaddedReads(before: string, n: int, after: string)
    requires Blanks(before) && Blanks(after)
    ensures ParseInt(before + Text(n) + after) == Some(n)
    ensures n >= 0 ==> ParseInt(before + ("+" + Text(n)) + after) == Some(n)
  {
    TextEnds(n);
    StripsBoth(before, Text(n), after);
    StripSolid(Text(n));
    ParsePrinted(n);
    if n >= 0 {
      var s := "+" + Text(n);
      assert s[0] == '+' && s[1..] == Text(n) && s[|s| - 1] == Text(n)[|Text(n)| - 1];
      StripsBoth(before, s, after);
      ParseDigits(n);
    }
  }

  lemma {:induction false} UnderscoresConcat(a: string, b: string)
    requires forall i | 0 <= i < |a| :: IsDigit(a[i]) || a[i] == '_'
    requires AllDigits(b)
    ensures WithoutUnderscores(a + b) == WithoutUnderscores(a) + b
  {
    if b == [] {
      assert a + b == a;
    } else {
      var s := a + b;
      assert s[..|s| - 1] == a + b[..|b| - 1];
      UnderscoresConcat(a, b[..|b| - 1]);
    }
  }

  lemma UnderscoreNumeral(a: string, b: string)
    requires a != [] && b != [] && AllDigits(a) && AllDigits(b)
    ensures Numeral(a + "_" + b)
  {
    var s := a + "_" + b;
    assert IsDigit(s[0]) && s[|s| - 1] == b[|b| - 1];
    forall i | 0 <= i < |s| ensures IsDigit(s[i]) || (s[i] == '_' && i == |a|) {
      assert i < |a| ==> s[i] == a[i];
      assert i > |a| ==> s[i] == b[i - |a| - 1];
    }
  }

  lemma HeadKept(a: string)
    requires AllDigits(a)
    ensures var head := a + "_";
            (forall i | 0 <= i < |head| :: IsDigit(head[i]) || head[i] == '_') && WithoutUnderscores(head) == a
  {
    var head := a + "_";
    assert head[..|head| - 1] == a && head[|head| - 1] == '_';
    DigitsKept(a);
    assert a + [] == a;
  }

  /** One underscore between digits does not matter. */
  lemma UnderscoreReads(a: string, b: string)
    requires a != [] && b != [] && AllDigits(a) && AllDigits(b)
    ensures ParseNat(a + "_" + b) == Some(ValueOf(a + b))
  {
    UnderscoreNumeral(a, b);
    HeadKept(a);
    UnderscoresConcat(a + "_", b);
  }

  /** Two of them, or one at an end, make it no number. */
  lemma StrayUnderscore(a: string, b: string)
    ensures ParseNat(a + "__" + b) == ParseNat("_" + a) == ParseNat(a + "_") == None
  {
    var t := a + "__" + b;
    assert t[|a|] == '_' && t[|a| + 1] == '_';
    assert ("_" + a)[0] == '_' && (a + "_")[|a|] == '_';
  }

  /** The parts of a text that hold something. */
  function Parts(raw: string): seq<string> {
    Filter(Split(raw, ','), HasText)
  }

  lemma {:induction false} ParseAllMeans(parts: seq<string>, r: int)
    ensures ParseAll(parts).Some? <==> forall part | part in parts :: ParseInt(part).Some?
    ensures ParseAll(parts).Some? ==>
              (r in ParseAll(parts).value <==> exists part | part in parts :: ParseInt(part) == Some(r))
  {
    if parts != [] {
      var front, last := parts[..|parts| - 1], parts[|parts| - 1];
      ParseAllMeans(front, r);
      assert forall part :: part in parts <==> part in front || part == last;
    }
  }

  /** A rung is read exactly if every part that holds something is a number and one of them is
      this rung, in range. */
  lemma ReadLadderIff(raw: string, r: int)
    ensures ReadLadder(Some(raw)).Some? && r in ReadLadder(Some(raw)).value <==>
              && (forall part | part in Parts(raw) :: ParseInt(part).Some?)
              && (exists part | part in Parts(raw) :: ParseInt(part) == Some(r))
              && 0 < r <= 5_000
    ensures ReadLadder(None) == None
  {
    var numbers := ParseAll(Parts(raw));
    ParseAllMeans(Parts(raw), r);
    if numbers.Some? {
      SortMembers(Dedup(numbers.value), LessInt, r);
      var rungs := Filter(Cleaned(numbers.value), IsRung);
      assert r in rungs <==> r in numbers.value && IsRung(r);
    }
  }

  lemma {:induction false} FirstBadMeans(rungs: seq<int>)
    requires Ascending(rungs) && FirstBad(rungs).Some?
    ensures var b := FirstBad(rungs).value; b in rungs && !IsRung(b) && forall r | r in rungs && !IsRung(r) :: b <= r
  {
    if IsRung(rungs[0]) {
      FirstBadMeans(rungs[1..]);
      assert rungs == [rungs[0]] + rungs[1..];
    }
  }

  /** Why a ladder is refused: too many distinct rungs, else the smallest rung out of range. */
  lemma RefusalMeans(rows: map<string, string>, rungs: seq<int>)
    ensures var r := SetLadder(rows, rungs).1;
            && (r == Err(TooManyRungs) <==> |Dedup(rungs)| > 8)
            && (r.Err? && r != Err(TooManyRungs) ==>
                  && r.error.BadRung? && r.error.rung in rungs && !(0 < r.error.rung <= 5_000)
                  && forall x | x in rungs && !(0 < x <= 5_000) :: r.error.rung <= x)
  {
    if rungs != [] {
      CleanedMeans(rungs);
      CleanedAscends(rungs);
      if FirstBad(Cleaned(rungs)).Some? {
        FirstBadMeans(Cleaned(rungs));
      }
    }
  }

  // ---------------------------------------------------------------- full-price thresholds

  datatype Thresholds = Thresholds(high: int, low: int, minLines: int, configured: bool)

  function ReadInt(rows: map<string, string>, key: string, default: int): (int, bool) {
    if key !in rows then (default, false)
    else
      var n := ParseInt(rows[key]);
      if n.Some? then (n.value, true) else (default, false)
  }

  function ReadThresholds(rows: map<string, string>): Thresholds {
    var high := ReadInt(rows, FULL_PRICE_HIGH_BP, DEFAULT_HIGH_BP);
    var low := ReadInt(rows, FULL_PRICE_LOW_BP, DEFAULT_LOW_BP);
    var minLines := ReadInt(rows, FULL_PRICE_MIN_LINES, DEFAULT_MIN_LINES);
    Thresholds(high.0, low.0, minLines.0, high.1 || low.1 || minLines.1)
  }

  /** A setting that is a number counts as written, any other as the default; one that counts
      makes the thresholds the user's. */
  lemma ThresholdsRead(rows: map<string, string>)
    ensures var t := ReadThresholds(rows);
            var (h, l, m) := (Stored(rows, "full_price_high_bp"), Stored(rows, "full_price_low_bp"),
                              Stored(rows, "full_price_min_lines"));
            && t.high == (if h.Some? then h.value else 9_000)
            && t.low == (if l.Some? then l.value else 5_000)
            && t.minLines == (if m.Some? then m.value else 3)
            && (t.configured <==> h.Some? || l.Some? || m.Some?)
  {
  }

  function Stored(rows: map<string, string>, key: string): Option<int> {
    if key in rows then ParseInt(rows[key]) else None
  }

  function Or(a: Option<int>, b: int): int {
    match a case Some(x) => x case None => b
  }

  predicate Sensible(high: int, low: int, minLines: int) {
    0 <= low < high <= 10_000 && minLines >= 1
  }

  function SetThresholds(rows: map<string, string>, high: Option<int>, low: Option<int>, minLines: Option<int>)
    : (map<string, string>, Result<Thresholds>)
  {
    var now := ReadThresholds(rows);
    var h, l, m := Or(high, now.high), Or(low, now.low), Or(minLines, now.minLines);
    if !(0 <= l < h <= 10_000) then (rows, Err(BadThresholds))
    else if m < 1 then (rows, Err(BadMinLines))
    else
      var after := WriteThresholds(rows, h, l, m);
      (after, Ok(ReadThresholds(after)))
  }

  function WriteThresholds(rows: map<string, string>, h: int, l: int, m: int): map<string, string> {
    rows[FULL_PRICE_HIGH_BP := Text(h)][FULL_PRICE_LOW_BP := Text(l)][FULL_PRICE_MIN_LINES := Text(m)]
  }

  lemma WrittenReads(rows: map<string, string>, h: int, l: int, m: int)
    ensures ReadThresholds(WriteThresholds(rows, h, l, m)) == Thresholds(h, l, m, true)
    ensures Get(WriteThresholds(rows, h, l, m), OFFER_LADDER_BP) == Get(rows, OFFER_LADDER_BP)
  {
    KeysDiffer();
    ParsePrinted(h);
    ParsePrinted(l);
    ParsePrinted(m);
  }

  lemma KeysDiffer()
    ensures FULL_PRICE_HIGH_BP != FULL_PRICE_LOW_BP && FULL_PRICE_LOW_BP != FULL_PRICE_MIN_LINES
    ensures FULL_PRICE_HIGH_BP != FULL_PRICE_MIN_LINES
    ensures OFFER_LADDER_BP !in {FULL_PRICE_HIGH_BP, FULL_PRICE_LOW_BP, FULL_PRICE_MIN_LINES}
  {
    assert |FULL_PRICE_HIGH_BP| != |FULL_PRICE_LOW_BP| && |FULL_PRICE_MIN_LINES| == 20;
    assert OFFER_LADDER_BP[0] == 'o';
    assert FULL_PRICE_HIGH_BP[0] == FULL_PRICE_LOW_BP[0] == FULL_PRICE_MIN_LINES[0] == 'f';
  }

  /** Accepted thresholds read back as given, the ones not given as they were before, all marked
      as the user's; refused ones change nothing, and the ladder is never touched. */
  lemma ThresholdsRoundTrip(rows: map<string, string>, high: Option<int>, low: Option<int>, minLines: Option<int>)
    ensures var now := ReadThresholds(rows); var done := SetThresholds(rows, high, low, minLines);
            var h, l, m := Or(high, now.high), Or(low, now.low), Or(minLines, now.minLines);
            && (done.1.Ok? <==> Sensible(h, l, m))
            && (done.1.Ok? ==> done.1.value == ReadThresholds(done.0) == Thresholds(h, l, m, true))
            && (done.1.Err? ==> done.0 == rows)
            && Get(done.0, OFFER_LADDER_BP) == Get(rows, OFFER_LADDER_BP)
  {
    var now := ReadThresholds(rows);
    var h, l, m := Or(high, now.high), Or(low, now.low), Or(minLines, now.minLines);
    WrittenReads(rows, h, l, m);
  }

  // ---------------------------------------------------------------- runs

  datatype Change = Ladder(rungs: seq<int>) | Prices(high: Option<int>, low: Option<int>, minLines: Option<int>)

  function Apply(rows: map<string, string>, c: Change): map<string, string> {
    match c
    case Ladder(rungs) => SetLadder(rows, rungs).0
    case Prices(high, low, minLines) => SetThresholds(rows, high, low, minLines).0
  }

  function Run(changes: seq<Change>): map<string, string> {
    if changes == [] then map[] else Apply(Run(changes[..|changes| - 1]), changes[|changes| - 1])
  }

  lemma SameThresholds(a: map<string, string>, b: map<string, string>)
    requires forall key | key != OFFER_LADDER_BP :: Get(a, key) == Get(b, key)
    ensures ReadThresholds(a) == ReadThresholds(b)
  {
    KeysDiffer();
    SameInt(a, b, FULL_PRICE_HIGH_BP, DEFAULT_HIGH_BP);
    SameInt(a, b, FULL_PRICE_LOW_BP, DEFAULT_LOW_BP);
    SameInt(a, b, FULL_PRICE_MIN_LINES, DEFAULT_MIN_LINES);
  }

  lemma SameInt(a: map<string, string>, b: map<string, string>, key: string, default: int)
    requires Get(a, key) == Get(b, key)
    ensures ReadInt(a, key, default) == ReadInt(b, key, default)
  {
    assert key in a <==> key in b;
  }

  lemma LadderLeavesOthers(rows: map<string, string>, rungs: seq<int>)
    ensures forall key | key != OFFER_LADDER_BP :: Get(SetLadder(rows, rungs).0, key) == Get(rows, key)
  {
  }

  lemma LadderLeavesThresholds(rows: map<string, string>, rungs: seq<int>)
    ensures ReadThresholds(SetLadder(rows, rungs).0) == ReadThresholds(rows)
  {
    LadderLeavesOthers(rows, rungs);
    SameThresholds(SetLadder(rows, rungs).0, rows);
  }

  /** After any changes, accepted or refused, in any order, the thresholds in force make sense. */
  lemma {:induction false} ThresholdsStaySensible(changes: seq<Change>)
    ensures var t := ReadThresholds(Run(changes)); Sensible(t.high, t.low, t.minLines)
  {
    if changes != [] {
      var n := |changes| - 1;
      ThresholdsStaySensible(changes[..n]);
      var rows := Run(changes[..n]);
      match changes[n]
      case Ladder(rungs) => LadderLeavesThresholds(rows, rungs);
      case Prices(high, low, minLines) => ThresholdsRoundTrip(rows, high, low, minLines);
    }
  }

  /** The settings table, changed in place. */
  class AppSettings {
    var rows: map<string, string>

    constructor ()
      ensures rows == map[]
    {
      rows := map[];
    }

    method SetSetting(key: string, value: string)
      modifies this
      ensures rows == old(rows)[key := value]
    {
      rows := rows[key := value];
    }

    method SetOfferLadder(rungs: seq<int>) returns (r: Result<Option<seq<int>>>)
      modifies this
      ensures (rows, r) == SetLadder(old(rows), rungs)
    {
      if rungs == [] {
        rows := rows - {OFFER_LADDER_BP};
        return Ok(None);
      }
      var cleaned := Cleaned(rungs);
      if |cleaned| > MAX_LADDER_RUNGS {
        return Err(TooManyRungs);
      }
      var bad := FindBad(cleaned);
      if bad.Some? {
        return Err(BadRung(bad.value));
      }
      SetSetting(OFFER_LADDER_BP, Join(cleaned));
      r := Ok(Some(cleaned));
    }

    method SetFullPriceThresholds(high: Option<int>, low: Option<int>, minLines: Option<int>)
        returns (r: Result<Thresholds>)
      modifies this
      ensures (rows, r) == SetThresholds(old(rows), high, low, minLines)
    {
      var now := ReadThresholds(rows);
      var h, l, m := Or(high, now.high), Or(low, now.low), Or(minLines, now.minLines);
      if !(0 <= l < h <= 10_000) {
        return Err(BadThresholds);
      }
      if m < 1 {
        return Err(BadMinLines);
      }
      SetSetting(FULL_PRICE_HIGH_BP, Text(h));
      SetSetting(FULL_PRICE_LOW_BP, Text(l));
      SetSetting(FULL_PRICE_MIN_LINES, Text(m));
      r := Ok(ReadThresholds(rows));
    }
  }
}
