/** Iranian telephone numbers: from a number as it was typed to its one E.164 form. */
module PhoneNumber {
  import opened Prelude
  import opened Decimal

  const AREA_CODES: set<string> := {
    "11", "13", "17", "21", "23", "24", "25", "26", "28", "31", "34", "35",
    "38", "41", "44", "45", "51", "54", "56", "58", "61", "66", "71", "74",
    "76", "77", "81", "83", "84", "86", "87"
  }

  /** Persian and Arabic digits become ASCII ones; thousands and direction marks vanish. */
  function Translate(s: string): string {
    if s == [] then []
    else
      var c, rest := s[0], Translate(s[1..]);
      if '\U{06F0}' <= c <= '\U{06F9}' then [DigitChar(c as int - 0x06F0)] + rest
      else if '\U{0660}' <= c <= '\U{0669}' then [DigitChar(c as int - 0x0660)] + rest
      else if c == '\U{066C}' || '\U{200C}' == c || '\U{200E}' <= c <= '\U{200F}' then rest
      else [c] + rest
  }

  predicate StartsWith(s: string, head: string) {
    |s| >= |head| && s[..|head|] == head
  }

  /** The text before the first occurrence of the marker. */
  function Before(s: string, marker: string): string {
    if s == [] || StartsWith(s, marker) then [] else [s[0]] + Before(s[1..], marker)
  }

  predicate IsKept(c: char) {
    IsDigit(c) || c == '+'
  }

  /** Digits and plus signs of the number, without an extension. */
  function DigitsOnly(raw: string): string {
    Filter(Before(Before(Translate(raw), "داخلی"), "ext"), IsKept)
  }

  /** The number without its international or national prefix. */
  function ToNational(cleaned: string): Option<string> {
    if cleaned == [] then None
    else if cleaned[0] == '+' && !StartsWith(cleaned[1..], "98") then None
    else
      var digits :=
        if cleaned[0] == '+' then cleaned[3..]
        else if StartsWith(cleaned, "0098") then cleaned[4..]
        else if cleaned[0] == '0' then cleaned[1..]
        else if |cleaned| == 12 && StartsWith(cleaned, "98") then cleaned[2..]
        else cleaned;
      if digits != [] && AllDigits(digits) then Some(digits) else None
  }

  /** A mobile number, or a landline with a known area code: ten digits. */
  predicate IsNational(n: string) {
    |n| == 10 && AllDigits(n) && (n[0] == '9' || ('1' <= n[0] <= '8' && n[..2] in AREA_CODES))
  }

  function NormalPhone(raw: string): Option<string> {
    var national := ToNational(DigitsOnly(raw));
    if national.Some? && IsNational(national.value) then Some("+98" + national.value) else None
  }

  /** Ten digits from 9 on are a mobile number; nothing of another length or from 0 on is a number. */
  lemma MobileIff(n: string)
    requires AllDigits(n) && n != []
    ensures n[0] == '9' ==> (IsNational(n) <==> |n| == 10)
    ensures n[0] == '0' || |n| != 10 ==> !IsNational(n)
  {
  }

  // ---------------------------------------------------------------- one form

  ghost predicate Plain(s: string) {
    forall i | 0 <= i < |s| :: IsKept(s[i])
  }

  lemma {:induction false} TranslatePlain(s: string)
    requires Plain(s)
    ensures Translate(s) == s
  {
    if s != [] {
      assert IsKept(s[0]);
      TranslatePlain(s[1..]);
    }
  }

  lemma {:induction false} BeforePlain(s: string, marker: string)
    requires Plain(s) && marker != [] && !IsKept(marker[0])
    ensures Before(s, marker) == s
  {
    if s != [] {
      assert IsKept(s[0]);
      BeforePlain(s[1..], marker);
    }
  }

  /** Digits and plus signs only: nothing is dropped. */
  lemma PlainStays(s: string)
    requires Plain(s)
    ensures DigitsOnly(s) == s
  {
    TranslatePlain(s);
    BeforePlain(s, "داخلی");
    BeforePlain(s, "ext");
    FilterAll(s, IsKept);
  }

  lemma SpelledAs(prefix: string, n: string)
    requires Plain(prefix) && IsNational(n) && ToNational(prefix + n) == Some(n)
    ensures NormalPhone(prefix + n) == Some("+98" + n)
  {
    PlainStays(prefix + n);
  }

  lemma WithPlus(n: string)
    requires IsNational(n)
    ensures ToNational("+98" + n) == Some(n)
  {
    var s := "+98" + n;
    assert s[0] == '+' && s[1..] == "98" + n && s[3..] == n;
    assert s[1..][..2] == "98";
  }

  lemma WithZeros(n: string)
    requires IsNational(n)
    ensures ToNational("0098" + n) == Some(n)
  {
    var s := "0098" + n;
    assert s[0] == '0' && s[..4] == "0098" && s[4..] == n;
  }

  lemma WithCode(n: string)
    requires IsNational(n)
    ensures ToNational("98" + n) == Some(n)
  {
    var s := "98" + n;
    assert s[0] == '9' && s[..2] == "98" && s[2..] == n;
    assert "0098"[0] == '0';
    assert s[..4][0] == '9';
  }

  lemma WithZero(n: string)
    requires IsNational(n)
    ensures ToNational("0" + n) == Some(n)
  {
    var s := "0" + n;
    assert s[0] == '0' && s[1] == n[0] && s[1..] == n;
    assert "0098"[1] == '0';
    assert s[..4][1] == n[0];
  }

  lemma WithoutPrefix(n: string)
    requires IsNational(n)
    ensures ToNational(n) == Some(n)
  {
    assert "0098"[0] == '0';
    assert n[..4][0] == n[0];
  }

  lemma BarePrefix(n: string)
    requires IsNational(n)
    ensures ToNational("" + n) == Some(n)
  {
    assert "" + n == n;
    WithoutPrefix(n);
  }

  /** The usual ways to write the prefix. */
  datatype Spelling = Plus | Zeros | Code | Zero | Bare

  function Prefix(how: Spelling): string {
    match how
    case Plus => "+98"
    case Zeros => "0098"
    case Code => "98"
    case Zero => "0"
    case Bare => ""
  }

  /** However it is written, a number has the same normal form. */
  lemma SpellingsAgree(how: Spelling, n: string)
    requires IsNational(n)
    ensures NormalPhone(Prefix(how) + n) == Some("+98" + n)
  {
    match how {
      case Plus => WithPlus(n);
      case Zeros => WithZeros(n);
      case Code => WithCode(n);
      case Zero => WithZero(n);
      case Bare => BarePrefix(n);
    }
    SpelledAs(Prefix(how), n);
  }

  lemma ToNationalIff(cleaned: string, n: string)
    requires IsNational(n)
    ensures ToNational(cleaned) == Some(n) <==> exists how :: cleaned == Prefix(how) + n
  {
    if how :| cleaned == Prefix(how) + n {
      match how {
        case Plus => WithPlus(n);
        case Zeros => WithZeros(n);
        case Code => WithCode(n);
        case Zero => WithZero(n);
        case Bare => BarePrefix(n);
      }
    }
    if ToNational(cleaned) == Some(n) {
      if cleaned[0] == '+' {
        assert cleaned == ['+'] + cleaned[1..][..2] + cleaned[3..];
        assert cleaned == Prefix(Plus) + n;
      } else if StartsWith(cleaned, "0098") {
        assert cleaned == Prefix(Zeros) + n;
      } else if cleaned[0] == '0' {
        assert cleaned == Prefix(Zero) + n;
      } else if |cleaned| == 12 && StartsWith(cleaned, "98") {
        assert cleaned == Prefix(Code) + n;
      } else {
        assert cleaned == Prefix(Bare) + n;
      }
    }
  }

  /** The characters that count are a valid number written in one of these ways. */
  ghost predicate Spells(digits: string, n: string) {
    IsNational(n) && exists how :: digits == Prefix(how) + n
  }

  /** A text is a number exactly if its digits and plus signs are one of the five spellings. */
  lemma NormalIff(raw: string, e: string)
    ensures NormalPhone(raw) == Some(e) <==> exists n :: Spells(DigitsOnly(raw), n) && e == "+98" + n
  {
    var digits := DigitsOnly(raw);
    if NormalPhone(raw) == Some(e) {
      var n := ToNational(digits).value;
      ToNationalIff(digits, n);
      assert Spells(digits, n);
    }
    if n :| Spells(digits, n) && e == "+98" + n {
      ToNationalIff(digits, n);
    }
  }

  /** What a typed character stands for: a digit in one of three scripts, a plus sign, or nothing. */
  function ReadChar(c: char): string {
    if '0' <= c <= '9' || c == '+' then [c]
    else if '۰' <= c <= '۹' then [('0' as int + (c as int - '۰' as int)) as char]
    else if '٠' <= c <= '٩' then [('0' as int + (c as int - '٠' as int)) as char]
    else ""
  }

  function ReadAll(s: string): string {
    if s == "" then "" else ReadChar(s[0]) + ReadAll(s[1..])
  }

  /** Neither "ext" nor its Persian word starts in here. */
  predicate NoMarker(s: string) {
    forall i | 0 <= i < |s| :: s[i] != 'e' && s[i] != 'د'
  }

  lemma {:induction false} TranslateNoMarker(s: string)
    requires NoMarker(s)
    ensures NoMarker(Translate(s))
  {
    if s != [] {
      TranslateNoMarker(s[1..]);
    }
  }

  lemma {:induction false} BeforeNothing(s: string, marker: string)
    requires NoMarker(s) && marker != [] && (marker[0] == 'e' || marker[0] == 'د')
    ensures Before(s, marker) == s
  {
    if s != [] {
      BeforeNothing(s[1..], marker);
    }
  }

  lemma {:induction false} TranslateConcat(a: string, b: string)
    ensures Translate(a + b) == Translate(a) + Translate(b)
  {
    if a == [] {
      assert a + b == b;
    } else {
      assert (a + b)[1..] == a[1..] + b && (a + b)[0] == a[0];
      TranslateConcat(a[1..], b);
    }
  }

  lemma OneRead(c: char)
    ensures Filter(Translate([c]), IsKept) == ReadChar(c)
  {
    assert [c][1..] == [];
    var t := Translate([c]);
    assert t == [] || (|t| == 1 && t[..0] == [] && Filter(t, IsKept) == if IsKept(t[0]) then [t[0]] else []);
  }

  lemma {:induction false} ReadsTranslated(s: string)
    ensures Filter(Translate(s), IsKept) == ReadAll(s)
  {
    if s != [] {
      ReadsTranslated(s[1..]);
      assert s == [s[0]] + s[1..];
      TranslateConcat([s[0]], s[1..]);
      FilterConcat(Translate([s[0]]), Translate(s[1..]), IsKept);
      OneRead(s[0]);
    }
  }

  /** Without an extension the digits of a text are those typed, in order, in whichever script;
      separators, blanks and direction marks do not matter. */
  lemma DigitsRead(raw: string)
    requires NoMarker(raw)
    ensures DigitsOnly(raw) == ReadAll(raw)
  {
    TranslateNoMarker(raw);
    BeforeNothing(Translate(raw), "داخلی");
    BeforeNothing(Translate(raw), "ext");
    ReadsTranslated(raw);
  }

  lemma {:induction false} BeforeMarker(a: string, marker: string, b: string)
    requires NoMarker(a) && marker != [] && (marker[0] == 'e' || marker[0] == 'د')
    ensures Before(a + marker + b, marker) == a
  {
    var s := a + marker + b;
    if a == [] {
      assert s[..|marker|] == marker;
    } else {
      assert s[1..] == a[1..] + marker + b;
      BeforeMarker(a[1..], marker, b);
    }
  }

  /** Neither a digit of another script nor a mark. */
  predicate IsLetter(c: char) {
    'a' <= c <= 'z' || c in {'د', 'ا', 'خ', 'ل', 'ی'}
  }

  lemma {:induction false} LettersStay(s: string)
    requires forall i | 0 <= i < |s| :: IsLetter(s[i])
    ensures Translate(s) == s
  {
    if s != [] {
      assert IsLetter(s[0]);
      LettersStay(s[1..]);
    }
  }

  /** What follows "ext" does not count. */
  lemma ExtensionDropped(raw: string, extension: string)
    requires NoMarker(raw) && NoMarker(extension)
    ensures DigitsOnly(raw + "ext" + extension) == ReadAll(raw)
  {
    TranslateConcat(raw + "ext", extension);
    TranslateConcat(raw, "ext");
    LettersStay("ext");
    TranslateNoMarker(raw);
    TranslateNoMarker(extension);
    var all := Translate(raw) + "ext" + Translate(extension);
    NoPersianWord(all);
    BeforeMarker(Translate(raw), "ext", Translate(extension));
    ReadsTranslated(raw);
  }

  /** Nor what follows its Persian word. */
  lemma PersianExtensionDropped(raw: string, extension: string)
    requires NoMarker(raw)
    ensures DigitsOnly(raw + "داخلی" + extension) == ReadAll(raw)
  {
    TranslateConcat(raw + "داخلی", extension);
    TranslateConcat(raw, "داخلی");
    LettersStay("داخلی");
    TranslateNoMarker(raw);
    BeforeMarker(Translate(raw), "داخلی", Translate(extension));
    BeforeNothing(Translate(raw), "ext");
    ReadsTranslated(raw);
  }

  lemma {:induction false} NoPersianWord(s: string)
    requires forall i | 0 <= i < |s| :: s[i] != 'د'
    ensures Before(s, "داخلی") == s
  {
    if s != [] {
      NoPersianWord(s[1..]);
    }
  }

  /** A normal form is its own normal form. */
  lemma NormalIsFixed(raw: string)
    requires NormalPhone(raw).Some?
    ensures NormalPhone(NormalPhone(raw).value) == NormalPhone(raw)
  {
    var n := ToNational(DigitsOnly(raw)).value;
    WithPlus(n);
    SpelledAs("+98", n);
  }

  /** The number as the register and the customer table store it. */
  function Stored(phone: Option<string>): Option<string> {
    if phone.Some? then NormalPhone(phone.value) else None
  }

  predicate IsNormal(phone: Option<string>) {
    phone.Some? ==> NormalPhone(phone.value) == phone
  }

  lemma StoredIsNormal(phone: Option<string>)
    ensures IsNormal(Stored(phone))
  {
    if phone.Some? && NormalPhone(phone.value).Some? {
      NormalIsFixed(phone.value);
    }
  }
}
