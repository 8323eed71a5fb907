/** What the text of a discount says: a percentage, and exactly the one of its basis points. */
module OfferText {
  import opened Prelude
  import opened Decimal
  import opened CampaignModel

  /** Nothing, or a point with one or two digits, the last of them not zero. */
  predicate IsFraction(f: string) {
    f == "" || ((|f| == 2 || |f| == 3) && f[0] == '.' && AllDigits(f[1..]) && f[|f| - 1] != '0')
  }

  function Hundredths(f: string): nat
    requires IsFraction(f)
  {
    if f == "" then 0 else if |f| == 2 then 10 * ValueOf(f[1..]) else ValueOf(f[1..])
  }

  /** A whole part without leading zeros, a fraction and the percent sign. */
  predicate Percentage(text: string, w: string, f: string) {
    && text == w + f + "٪" && w != [] && AllDigits(w) && (|w| > 1 ==> w[0] != '0') && IsFraction(f)
  }

  /** The text reads as this many hundredths of a percent. */
  ghost predicate ReadsAs(text: string, bp: nat) {
    exists w, f :: Percentage(text, w, f) && 100 * ValueOf(w) + Hundredths(f) == bp
  }

  lemma {:induction false} NoLeadingZero(n: nat)
    ensures var w := DigitsOf(n); |w| > 1 ==> w[0] != '0'
  {
    if n >= 10 {
      NoLeadingZero(n / 10);
      if n < 100 {
        assert DigitsOf(n / 10) == [DigitChar(n / 10)];
      } else {
        assert |DigitsOf(n / 10)| > 1;
      }
    }
  }

  lemma TwoDigits(n: nat)
    requires 10 <= n < 100
    ensures DigitsOf(n) == [DigitChar(n / 10), DigitChar(n % 10)]
  {
    assert DigitsOf(n / 10) == [DigitChar(n / 10)];
  }

  lemma ValueOfOne(d: nat)
    requires d < 10
    ensures AllDigits([DigitChar(d)]) && ValueOf([DigitChar(d)]) == d
  {
    assert [DigitChar(d)][..0] == [];
  }

  lemma ValueOfTwo(a: nat, b: nat)
    requires a < 10 && b < 10
    ensures var s := [DigitChar(a), DigitChar(b)]; AllDigits(s) && ValueOf(s) == 10 * a + b
  {
    ValueOfOne(a);
    assert [DigitChar(a), DigitChar(b)][..1] == [DigitChar(a)];
  }

  /** The fraction that the text shows for a rest below one percent. */
  lemma FractionOf(rest: nat) returns (f: string)
    requires rest < 100
    ensures IsFraction(f) && Hundredths(f) == rest
    ensures f == if rest % 100 == 0 then ""
                 else if rest % 10 == 0 then "." + DigitsOf(rest / 10)
                 else if rest < 10 then ".0" + DigitsOf(rest)
                 else "." + DigitsOf(rest)
  {
    if rest == 0 {
      f := "";
    } else if rest % 10 == 0 {
      f := ['.', DigitChar(rest / 10)];
      ValueOfOne(rest / 10);
      assert f[1..] == [DigitChar(rest / 10)];
    } else {
      f := ['.', DigitChar(rest / 10), DigitChar(rest % 10)];
      ValueOfTwo(rest / 10, rest % 10);
      assert f[1..] == [DigitChar(rest / 10), DigitChar(rest % 10)];
      if rest >= 10 {
        TwoDigits(rest);
      }
    }
  }

  /** The text of a discount is a percentage that reads as its basis points. */
  lemma DiscountTextMeans(bp: nat)
    ensures ReadsAs(DiscountText(bp), bp)
  {
    var w := DigitsOf(bp / 100);
    var f := FractionOf(bp % 100);
    NoLeadingZero(bp / 100);
    ValueOfDigits(bp / 100);
    assert Percentage(DiscountText(bp), w, f);
  }

  /** The whole part is the digits before the first other character. */
  lemma WholePartEnds(text: string, w: string, f: string)
    requires Percentage(text, w, f)
    ensures |w| < |text| && text[..|w|] == w && !IsDigit(text[|w|])
    ensures forall i | 0 <= i < |w| :: IsDigit(text[i])
  {
    assert forall i | 0 <= i < |w| :: text[i] == w[i];
    assert f != "" ==> text[|w|] == f[0];
  }

  lemma SameParts(text: string, w: string, f: string, w': string, f': string)
    requires Percentage(text, w, f) && Percentage(text, w', f')
    ensures |w| <= |w'|
  {
    WholePartEnds(text, w, f);
    WholePartEnds(text, w', f');
  }

  /** One text reads as one number only: two rungs never print alike. */
  lemma ReadsAsOne(text: string, a: nat, b: nat)
    requires ReadsAs(text, a) && ReadsAs(text, b)
    ensures a == b
  {
    var w, f :| Percentage(text, w, f) && 100 * ValueOf(w) + Hundredths(f) == a;
    var w', f' :| Percentage(text, w', f') && 100 * ValueOf(w') + Hundredths(f') == b;
    SameParts(text, w, f, w', f');
    SameParts(text, w', f', w, f);
    assert w == text[..|w|] == w' && f == text[|w|..|text| - 1] == f';
  }

  lemma RungsPrintApart(a: nat, b: nat)
    requires DiscountText(a) == DiscountText(b)
    ensures a == b
  {
    DiscountTextMeans(a);
    DiscountTextMeans(b);
    ReadsAsOne(DiscountText(a), a, b);
  }

  /** A rendered template is its pieces in order: a literal as it stands, the name, the discount's
      percentage if there is one, and any other placeholder as it was written. */
  lemma {:induction false} RenderedPiece(t: Template, name: string, rung: Option<nat>, i: nat) returns (text: string)
    requires i < |t|
    ensures Render(t, name, rung) == Render(t[..i], name, rung) + text + Render(t[i + 1..], name, rung)
    ensures match t[i]
            case Literal(source) => text == source
            case Placeholder(NameSlot, _) => text == name
            case Placeholder(DiscountSlot, source) => if rung.Some? then ReadsAs(text, rung.value) else text == source
            case Placeholder(OtherSlot, source) => text == source
  {
    text := RenderPiece(t[i], name, rung);
    if rung.Some? {
      DiscountTextMeans(rung.value);
    }
    RenderConcat(t[..i + 1], t[i + 1..], name, rung);
    assert t == t[..i + 1] + t[i + 1..];
    assert t[..i + 1][..i] == t[..i];
  }

  lemma {:induction false} RenderConcat(a: Template, b: Template, name: string, rung: Option<nat>)
    ensures Render(a + b, name, rung) == Render(a, name, rung) + Render(b, name, rung)
  {
    if b == [] {
      assert a + b == a;
    } else {
      assert (a + b)[..|a + b| - 1] == a + b[..|b| - 1];
      RenderConcat(a, b[..|b| - 1], name, rung);
      Associative(Render(a, name, rung), Render(b[..|b| - 1], name, rung), RenderPiece(b[|b| - 1], name, rung));
    }
  }

  // ---------------------------------------------------------------- segments

  /** A text of up to 70 characters is one segment; a longer one takes the fewest segments of 67
      characters that hold it; the empty one none. */
  lemma SegmentsMean(text: string)
    ensures var n := SegmentCount(text);
            && (n == 0 <==> text == "")
            && (0 < |text| <= 70 ==> n == 1)
            && (|text| > 70 ==> 67 * (n - 1) < |text| <= 67 * n)
  {
  }
}
