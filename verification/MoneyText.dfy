/** Money at the boundary: display amounts become whole rials by half-even rounding, and whole
    rials become text with thousands separators. */
module MoneyText {
  import opened Prelude
  import opened Decimal

  datatype Currency = Toman | Rial

  /** A cell of a file: a finite number, or anything that is not one. */
  datatype Cell = Amount(value: real) | Unknown

  const QUANTITY_SCALE := 1000
  const BP_SCALE := 10_000

  function RialPerUnit(c: Currency): int {
    match c case Toman => 10 case Rial => 1
  }

  function HalfEven(x: real): int {
    var low := x.Floor;
    var rest := x - low as real;
    if rest < 0.5 || (rest == 0.5 && low % 2 == 0) then low else low + 1
  }

  /** Towards zero. */
  function Truncated(x: real): int {
    if x >= 0.0 then x.Floor else -((-x).Floor)
  }

  /** Decimals carry 28 digits; rounding to more of them fails. */
  const DECIMAL_LIMIT := 10_000_000_000_000_000_000_000_000_000

  predicate FitsDecimal(x: real) {
    -DECIMAL_LIMIT < HalfEven(x) < DECIMAL_LIMIT
  }

  /** Half-even rounding, or cutting off where that fails. */
  function RoundHalfEven(x: real): int {
    if FitsDecimal(x) then HalfEven(x) else Truncated(x)
  }

  function Times(x: real, scale: int): real {
    x * scale as real
  }

  /** A display amount times the scale, as a whole number; unknown stays unknown. */
  function Scaled(cell: Cell, scale: int): Option<int> {
    match cell case Amount(x) => Some(RoundHalfEven(Times(x, scale))) case Unknown => None
  }

  function ToRial(cell: Cell, c: Currency): Option<int> {
    Scaled(cell, RialPerUnit(c))
  }

  function RialToDisplay(rial: int, c: Currency): real {
    rial as real / RialPerUnit(c) as real
  }

  function ToQuantityMilli(cell: Cell): Option<int> {
    Scaled(cell, QUANTITY_SCALE)
  }

  function ToBasisPoints(cell: Cell): Option<int> {
    Scaled(cell, BP_SCALE)
  }

  // ---------------------------------------------------------------- rounding

  /** What half-even rounding means: the result is within a half, and even on a tie. */
  predicate IsHalfEven(x: real, n: int) {
    && -0.5 <= x - n as real <= 0.5
    && (x - n as real == 0.5 || x - n as real == -0.5 ==> n % 2 == 0)
  }

  /** What cutting off means: the nearest whole number on the side of zero. */
  predicate IsTruncated(x: real, n: int) {
    if x >= 0.0 then 0.0 <= x - n as real < 1.0 else -1.0 < x - n as real <= 0.0
  }

  lemma HalfEvenIff(x: real, n: int)
    ensures HalfEven(x) == n <==> IsHalfEven(x, n)
  {
    var low := x.Floor;
    assert low as real <= x < low as real + 1.0;
    if IsHalfEven(x, n) {
      assert low <= n <= low + 1;
    }
  }

  lemma TruncatedIff(x: real, n: int)
    ensures Truncated(x) == n <==> IsTruncated(x, n)
  {
    assert x.Floor as real <= x < x.Floor as real + 1.0;
    assert (-x).Floor as real <= -x < (-x).Floor as real + 1.0;
  }

  /** The result is the half-even rounding where 28 digits suffice, else what is left of the
      amount without its fraction. */
  lemma RoundIff(x: real, n: int)
    ensures RoundHalfEven(x) == n <==> if FitsDecimal(x) then IsHalfEven(x, n) else IsTruncated(x, n)
  {
    HalfEvenIff(x, n);
    TruncatedIff(x, n);
  }

  /** Where 28 digits suffice: a half below the first number of 29 digits is a tie and goes up. */
  lemma FitsDecimalIff(x: real)
    ensures FitsDecimal(x) <==>
              -9_999_999_999_999_999_999_999_999_999.5 < x < 9_999_999_999_999_999_999_999_999_999.5
  {
    HalfEvenIff(x, HalfEven(x));
  }

  lemma RoundMonotone(x: real, y: real)
    requires x <= y
    ensures RoundHalfEven(x) <= RoundHalfEven(y)
  {
    HalfEvenIff(x, HalfEven(x));
    HalfEvenIff(y, HalfEven(y));
    TruncatedIff(x, Truncated(x));
    TruncatedIff(y, Truncated(y));
  }

  /** Rounding does not lean to either side of zero. */
  lemma RoundIsOdd(x: real)
    ensures RoundHalfEven(-x) == -RoundHalfEven(x)
  {
    HalfEvenIff(x, HalfEven(x));
    HalfEvenIff(-x, -HalfEven(x));
  }

  /** A whole number is its own rounding, however large. */
  lemma WholeStays(n: int)
    ensures RoundHalfEven(n as real) == n
  {
    HalfEvenIff(n as real, n);
    TruncatedIff(n as real, n);
  }

  /** A scaled amount differs from the exact product by at most a half, or by less than one
      beyond 28 digits, and only an unknown cell is unknown. */
  lemma ScalingIsClose(cell: Cell, scale: int)
    ensures Scaled(cell, scale).None? <==> cell.Unknown?
    ensures cell.Amount? ==>
              var exact := Times(cell.value, scale); var off := exact - Scaled(cell, scale).value as real;
              if FitsDecimal(exact) then -0.5 <= off <= 0.5 else -1.0 < off < 1.0
  {
    if cell.Amount? {
      var exact := Times(cell.value, scale);
      RoundIff(exact, RoundHalfEven(exact));
    }
  }

  lemma ScalingKeepsOrder(x: real, y: real, scale: nat)
    requires x <= y
    ensures Scaled(Amount(x), scale).value <= Scaled(Amount(y), scale).value
  {
    assert (y - x) * scale as real >= 0.0;
    assert Times(x, scale) <= Times(y, scale);
    RoundMonotone(Times(x, scale), Times(y, scale));
  }

  lemma QuotientTimes(n: int, scale: int)
    requires scale > 0
    ensures Times(n as real / scale as real, scale) == n as real
  {
  }

  /** Rials to display and back is the identity. */
  lemma RialRoundTrip(rial: int, c: Currency)
    ensures ToRial(Amount(RialToDisplay(rial, c)), c) == Some(rial)
  {
    QuotientTimes(rial, RialPerUnit(c));
    WholeStays(rial);
  }

  /** Whole parts of any scale come back too. */
  lemma ScaleRoundTrip(n: int, scale: int)
    requires scale > 0
    ensures Scaled(Amount(n as real / scale as real), scale) == Some(n)
  {
    QuotientTimes(n, scale);
    WholeStays(n);
  }

  /** So do thousandths of a quantity and basis points. */
  lemma QuantityRoundTrip(milli: int, bp: int)
    ensures ToQuantityMilli(Amount(milli as real / QUANTITY_SCALE as real)) == Some(milli)
    ensures ToBasisPoints(Amount(bp as real / BP_SCALE as real)) == Some(bp)
  {
    ScaleRoundTrip(milli, QUANTITY_SCALE);
    ScaleRoundTrip(bp, BP_SCALE);
  }

  /** A toman is ten rials, a rial one; a unit is a thousand thousandths, the whole ten thousand
      basis points; what is not a number has no amount. */
  lemma UnitsMean(n: int)
    ensures ToRial(Amount(n as real), Toman) == Some(10 * n) && ToRial(Amount(n as real), Rial) == Some(n)
    ensures RialToDisplay(10 * n, Toman) == n as real && RialToDisplay(n, Rial) == n as real
    ensures ToQuantityMilli(Amount(n as real)) == Some(1000 * n)
    ensures ToBasisPoints(Amount(n as real)) == Some(10_000 * n)
    ensures ToRial(Unknown, Toman) == ToRial(Unknown, Rial) == None
    ensures ToQuantityMilli(Unknown) == ToBasisPoints(Unknown) == None
  {
    WholeStays(10 * n);
    WholeStays(n);
    WholeStays(1000 * n);
    WholeStays(10_000 * n);
  }

  // ---------------------------------------------------------------- printing

  /** A comma before every group of three digits, from the right. */
  function Grouped(s: string): string {
    if |s| <= 3 then s else Grouped(s[..|s| - 3]) + "," + s[|s| - 3..]
  }

  function UnitName(c: Currency): string {
    match c case Toman => "تومان" case Rial => "ریال"
  }

  /** What follows the amount. */
  function Tail(c: Currency): string {
    " " + UnitName(c)
  }

  function Size(rial: int): nat {
    if rial < 0 then -rial else rial
  }

  function Plain(whole: string, tenth: nat): string
    requires tenth < 10
  {
    whole + (if tenth == 0 then "" else ['.', DigitChar(tenth)])
  }

  /** What is printed before the unit, given the grouped whole part. */
  function Body(negative: bool, whole: string, tenth: nat): string
    requires tenth < 10
  {
    (if negative then "-" else "") + Plain(whole, tenth)
  }

  /** The amount in display units: no decimals if it is whole, else one. */
  function AmountText(rial: int, c: Currency): string {
    var size := Size(rial);
    match c
    case Toman => Body(rial < 0, Grouped(DigitsOf(size / 10)), size % 10)
    case Rial => Body(rial < 0, Grouped(DigitsOf(size)), 0)
  }

  function FormatRial(rial: Option<int>, c: Currency): string {
    match rial
    case None => "—"
    case Some(n) => AmountText(n, c) + Tail(c)
  }

  // ---------------------------------------------------------------- reading it back

  /** An amount read from text. */
  datatype Reading = Reading(rial: int, currency: Currency)

  predicate EndsWith(s: string, tail: string) {
    |s| >= |tail| && s[|s| - |tail|..] == tail
  }

  function WithoutCommas(s: string): string {
    if s == [] then []
    else WithoutCommas(s[..|s| - 1]) + if s[|s| - 1] == ',' then [] else [s[|s| - 1]]
  }

  function ReadWhole(s: string): Option<nat> {
    var digits := WithoutCommas(s);
    if digits != [] && AllDigits(digits) then Some(ValueOf(digits)) else None
  }

  /** Tenths of a display unit. */
  function ReadTenths(s: string): Option<nat> {
    if |s| >= 2 && s[|s| - 2] == '.' && IsDigit(s[|s| - 1]) then
      match ReadWhole(s[..|s| - 2])
      case Some(n) => Some(10 * n + (s[|s| - 1] as int - '0' as int))
      case None => None
    else
      match ReadWhole(s)
      case Some(n) => Some(10 * n)
      case None => None
  }

  function ReadSigned(s: string): Option<int> {
    if s != [] && s[0] == '-' then
      var r := ReadTenths(s[1..]);
      if r.Some? then Some(-(r.value as int)) else None
    else
      var r := ReadTenths(s);
      if r.Some? then Some(r.value as int) else None
  }

  function ReadMoney(s: string): Option<Reading> {
    if EndsWith(s, Tail(Toman)) then
      var n := ReadSigned(s[..|s| - |Tail(Toman)|]);
      if n.Some? then Some(Reading(n.value, Toman)) else None
    else if EndsWith(s, Tail(Rial)) then
      var n := ReadSigned(s[..|s| - |Tail(Rial)|]);
      if n.Some? then Some(Reading(n.value / 10, Rial)) else None
    else None
  }

  lemma {:induction false} CommasConcat(a: string, b: string)
    ensures WithoutCommas(a + b) == WithoutCommas(a) + WithoutCommas(b)
  {
    if b == [] {
      assert a + b == a;
    } else {
      assert (a + b)[..|a + b| - 1] == a + b[..|b| - 1];
      CommasConcat(a, b[..|b| - 1]);
    }
  }

  lemma {:induction false} NoCommas(s: string)
    requires AllDigits(s)
    ensures WithoutCommas(s) == s
  {
    if s != [] {
      NoCommas(s[..|s| - 1]);
    }
  }

  lemma GroupReads(h: string, tail: string)
    requires AllDigits(tail)
    ensures WithoutCommas(h + "," + tail) == WithoutCommas(h) + tail
  {
    CommaDropped(h);
    CommasConcat(h + ",", tail);
    NoCommas(tail);
  }

  lemma CommaDropped(h: string)
    ensures WithoutCommas(h + ",") == WithoutCommas(h)
  {
    assert (h + ",")[..|h|] == h && (h + ",")[|h|] == ',';
  }

  lemma {:induction false} GroupedReads(s: string)
    requires AllDigits(s)
    ensures WithoutCommas(Grouped(s)) == s
  {
    if |s| <= 3 {
      NoCommas(s);
    } else {
      var head, tail := s[..|s| - 3], s[|s| - 3..];
      GroupedReads(head);
      GroupReads(Grouped(head), tail);
      assert s == head + tail;
    }
  }

  function FromEnd(s: string, i: nat): char
    requires i < |s|
  {
    s[|s| - 1 - i]
  }

  ghost predicate Shaped(g: string) {
    && g != [] && IsDigit(g[0])
    && (forall i | 0 <= i < |g| :: FromEnd(g, i) == ',' <==> i % 4 == 3)
    && (forall i | 0 <= i < |g| :: FromEnd(g, i) == ',' || IsDigit(FromEnd(g, i)))
  }

  lemma AddGroup(h: string, tail: string)
    requires Shaped(h) && AllDigits(tail) && |tail| == 3
    ensures Shaped(h + "," + tail)
  {
    var g := h + "," + tail;
    forall i | 0 <= i < |g|
      ensures FromEnd(g, i) == ',' || IsDigit(FromEnd(g, i))
      ensures FromEnd(g, i) == ',' <==> i % 4 == 3
    {
      if i >= 4 {
        assert FromEnd(g, i) == FromEnd(h, i - 4);
        assert i % 4 == (i - 4) % 4;
      } else if i < 3 {
        assert FromEnd(g, i) == tail[2 - i];
      }
    }
  }

  lemma {:induction false} GroupedShape(s: string)
    requires s != [] && AllDigits(s)
    ensures Shaped(Grouped(s))
  {
    if |s| > 3 {
      GroupedShape(s[..|s| - 3]);
      AddGroup(Grouped(s[..|s| - 3]), s[|s| - 3..]);
    } else {
      assert forall i | 0 <= i < |s| :: IsDigit(FromEnd(s, i));
    }
  }

  /** The separators stand exactly before each group of three digits counted from the right. */
  lemma SeparatorsEveryThree(n: nat, i: nat)
    requires i < |Grouped(DigitsOf(n))|
    ensures FromEnd(Grouped(DigitsOf(n)), i) == ',' <==> i % 4 == 3
  {
    GroupedShape(DigitsOf(n));
  }

  /** Digits and commas, starting with a digit, that read as `n`. */
  ghost predicate WholePart(g: string, n: nat) {
    && g != [] && IsDigit(g[0]) && ReadWhole(g) == Some(n)
    && forall i | 0 <= i < |g| :: g[i] == ',' || IsDigit(g[i])
  }

  lemma ShapedChars(g: string, i: nat)
    requires Shaped(g) && i < |g|
    ensures g[i] == ',' || IsDigit(g[i])
  {
    assert FromEnd(g, |g| - 1 - i) == g[i];
  }

  lemma GroupedWholePart(n: nat)
    ensures WholePart(Grouped(DigitsOf(n)), n)
  {
    var digits := DigitsOf(n);
    GroupedReads(digits);
    ValueOfDigits(n);
    GroupedShape(digits);
    forall i | 0 <= i < |Grouped(digits)| ensures Grouped(digits)[i] == ',' || IsDigit(Grouped(digits)[i]) {
      ShapedChars(Grouped(digits), i);
    }
    assert ReadWhole(Grouped(digits)) == Some(n);
  }

  lemma ReadsPlain(g: string, n: nat)
    requires WholePart(g, n)
    ensures ReadTenths(g) == Some(10 * n)
  {
  }

  lemma ReadsTenth(g: string, n: nat, d: nat)
    requires WholePart(g, n) && d < 10
    ensures ReadTenths(g + ['.', DigitChar(d)]) == Some(10 * n + d)
  {
    var s := g + ['.', DigitChar(d)];
    assert s[..|s| - 2] == g;
  }

  lemma ReadsNegative(s: string)
    ensures ReadTenths(s).Some? ==> ReadSigned("-" + s) == Some(-(ReadTenths(s).value as int))
  {
    assert ("-" + s)[1..] == s;
  }

  lemma ReadsBody(negative: bool, whole: string, n: nat, tenth: nat)
    requires WholePart(whole, n) && tenth < 10
    ensures ReadSigned(Body(negative, whole, tenth)) == Some(if negative then -(10 * n + tenth) else 10 * n + tenth)
  {
    var plain := Plain(whole, tenth);
    ReadsUnsigned(whole, n, tenth);
    if negative {
      ReadsNegative(plain);
    } else {
      ReadsPositive(plain);
    }
  }

  lemma ReadsUnsigned(whole: string, n: nat, tenth: nat)
    requires WholePart(whole, n) && tenth < 10
    ensures ReadTenths(Plain(whole, tenth)) == Some(10 * n + tenth)
    ensures Plain(whole, tenth) != [] && IsDigit(Plain(whole, tenth)[0])
  {
    if tenth == 0 {
      assert whole + "" == whole;
      ReadsPlain(whole, n);
    } else {
      ReadsTenth(whole, n, tenth);
    }
  }

  lemma ReadsPositive(s: string)
    requires s != [] && IsDigit(s[0])
    ensures ReadTenths(s).Some? ==> ReadSigned("" + s) == Some(ReadTenths(s).value)
  {
    assert "" + s == s;
  }

  lemma ReadsGrouped(negative: bool, n: nat, tenth: nat)
    requires tenth < 10
    ensures ReadSigned(Body(negative, Grouped(DigitsOf(n)), tenth))
            == Some(if negative then -(10 * n + tenth) else 10 * n + tenth)
  {
    GroupedWholePart(n);
    ReadsBody(negative, Grouped(DigitsOf(n)), n, tenth);
  }

  lemma ReadsAs(negative: bool, n: nat, tenth: nat, tenths: nat)
    requires tenth < 10 && tenths == 10 * n + tenth
    ensures ReadSigned(Body(negative, Grouped(DigitsOf(n)), tenth)) == Some(WithSign(negative, tenths))
  {
    ReadsGrouped(negative, n, tenth);
  }

  function WithSign(negative: bool, n: nat): int {
    if negative then -(n as int) else n
  }

  lemma SizeMeans(rial: int)
    ensures 10 * (Size(rial) / 10) + Size(rial) % 10 == Size(rial)
    ensures WithSign(rial < 0, Size(rial)) == rial && WithSign(rial < 0, 10 * Size(rial)) == 10 * rial
  {
  }

  lemma ReadsToman(rial: int)
    ensures ReadSigned(AmountText(rial, Toman)) == Some(rial)
  {
    var size := Size(rial);
    SizeMeans(rial);
    ReadsAs(rial < 0, size / 10, size % 10, size);
  }

  lemma ReadsRial(rial: int)
    ensures ReadSigned(AmountText(rial, Rial)) == Some(10 * rial)
  {
    var size := Size(rial);
    SizeMeans(rial);
    ReadsAs(rial < 0, size, 0, 10 * size);
  }

  lemma SplitEnd(body: string, tail: string)
    ensures var s := body + tail; EndsWith(s, tail) && s[..|s| - |tail|] == body
  {
  }

  lemma OtherEnd(body: string, tail: string, other: string)
    requires tail != [] && other != [] && tail[|tail| - 1] != other[|other| - 1]
    ensures !EndsWith(body + tail, other)
  {
    var s := body + tail;
    assert |s| >= |other| ==> s[|s| - |other|..][|other| - 1] == s[|s| - 1];
  }

  lemma LastOfTails()
    ensures var t, r := Tail(Toman), Tail(Rial); t != [] && r != [] && r[|r| - 1] != t[|t| - 1]
  {
    assert Tail(Toman)[5] == 'ن' && Tail(Rial)[4] == 'ل';
  }

  lemma ReadsTomanUnit(body: string, n: int)
    requires ReadSigned(body) == Some(n)
    ensures ReadMoney(body + Tail(Toman)) == Some(Reading(n, Toman))
  {
    SplitEnd(body, Tail(Toman));
  }

  lemma ReadsRialUnit(body: string, n: int)
    requires ReadSigned(body) == Some(n)
    ensures ReadMoney(body + Tail(Rial)) == Some(Reading(n / 10, Rial))
  {
    SplitEnd(body, Tail(Rial));
    LastOfTails();
    OtherEnd(body, Tail(Rial), Tail(Toman));
  }

  /** The text of an amount determines the amount and its currency. */
  lemma MoneyRoundTrip(rial: int, c: Currency)
    ensures ReadMoney(FormatRial(Some(rial), c)) == Some(Reading(rial, c))
  {
    match c
    case Toman =>
      ReadsToman(rial);
      ReadsTomanUnit(AmountText(rial, Toman), rial);
    case Rial =>
      ReadsRial(rial);
      ReadsRialUnit(AmountText(rial, Rial), 10 * rial);
  }

  /** No two amounts print the same, and the dash stands for the unknown amount only. */
  lemma MoneyTextIsUnambiguous(a: Option<int>, c: Currency, b: Option<int>, d: Currency)
    requires FormatRial(a, c) == FormatRial(b, d)
    ensures a == b && (a.Some? ==> c == d)
  {
    if a.Some? {
      MoneyRoundTrip(a.value, c);
    }
    if b.Some? {
      MoneyRoundTrip(b.value, d);
    }
    assert ReadMoney("—").None?;
  }

  /** What the text says, in tenths of the unit that it names: as many as there are rials in
      toman, ten for each rial in rial. */
  lemma MoneyTextSays(n: int)
    ensures exists body :: FormatRial(Some(n), Toman) == body + " تومان" && ReadSigned(body) == Some(n)
    ensures exists body :: FormatRial(Some(n), Rial) == body + " ریال" && ReadSigned(body) == Some(10 * n)
    ensures FormatRial(None, Toman) == FormatRial(None, Rial) == "—"
  {
    ReadsToman(n);
    ReadsRial(n);
    assert FormatRial(Some(n), Toman) == AmountText(n, Toman) + " تومان";
    assert FormatRial(Some(n), Rial) == AmountText(n, Rial) + " ریال";
  }
}
