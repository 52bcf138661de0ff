/**
The words of script data, as they are written (crates/tpf3mp-agent/src/save_check.rs).

Strings, numerals and names are described here by how they are built, with no
word about how a lexer finds them. The lexer of `LuaText` is proved to find
exactly them: a string where one stands and nowhere else, the longest numeral,
the whole name. So every text divides into words, blanks and comments in just
one way, and the lexer's tokens are those of that division.
*/
module LuaLexemes {
  import opened Protocol
  import opened LuaData
  import opened LuaText

  /** `s` is written in `text` from `at` on. */
  predicate Spells(text: string, at: nat, s: string) {
    at + |s| <= |text| && forall i | 0 <= i < |s| :: text[at + i] == s[i]
  }

  lemma Joined(text: string, at: nat, a: string, b: string)
    requires Spells(text, at, a) && Spells(text, at + |a|, b)
    ensures Spells(text, at, a + b)
  {
    var s := a + b;
    forall i | 0 <= i < |s| ensures text[at + i] == s[i] {
      if i >= |a| { assert text[at + |a| + (i - |a|)] == b[i - |a|]; }
    }
  }

  lemma Parted(text: string, at: nat, a: string, b: string)
    requires Spells(text, at, a + b)
    ensures Spells(text, at, a) && Spells(text, at + |a|, b)
  {
    var s := a + b;
    forall i | 0 <= i < |a| ensures text[at + i] == a[i] { assert s[i] == a[i]; }
    forall i | 0 <= i < |b| ensures text[at + |a| + i] == b[i] { assert s[|a| + i] == b[i]; }
  }

  lemma SpellsFirst(text: string, at: nat, s: string)
    requires Spells(text, at, s) && s != ""
    ensures text[at] == s[0]
  {
    assert text[at + 0] == s[0];
  }

  // ----- strings

  predicate IsQuote(c: char) {
    c == '"' || c == '\''
  }

  predicate IsBreak(c: char) {
    c == '\r' || c == '\n'
  }

  /** What a string is made of: characters, and backslashes with the character or the
      line break they take along. */
  datatype Item = Bare(c: char) | Escaped(c: char) | EscapedBreak

  function PrintItem(item: Item): string {
    match item
    case Bare(c) => [c]
    case Escaped(c) => ['\\', c]
    case EscapedBreak => "\\\r\n"
  }

  predicate ItemOk(item: Item, quote: char) {
    item.Bare? ==> item.c != quote && item.c != '\\' && !IsBreak(item.c)
  }

  predicate ItemsOk(items: seq<Item>, quote: char) {
    forall i | 0 <= i < |items| :: ItemOk(items[i], quote)
  }

  /** The items, and the quote that ends them. */
  function PrintInside(items: seq<Item>, quote: char): (s: string)
    ensures s != "" && |s| > |items|
    decreases |items|
  {
    if items == [] then [quote] else PrintItem(items[0]) + PrintInside(items[1..], quote)
  }

  /** A string made of `items` stands from its first quote at `at` to `end`. */
  predicate QuotedAt(text: string, at: nat, quote: char, items: seq<Item>, end: nat) {
    && IsQuote(quote) && ItemsOk(items, quote) && At(text, at, quote)
    && Spells(text, at + 1, PrintInside(items, quote)) && end == at + 1 + |PrintInside(items, quote)|
  }

  /** No item starts with the second half of a line break. */
  lemma InsideStarts(items: seq<Item>, quote: char)
    requires IsQuote(quote) && ItemsOk(items, quote)
    ensures PrintInside(items, quote)[0] != '\n'
  {
  }

  lemma InsideFirst(item: Item, rest: seq<Item>, quote: char)
    ensures PrintInside([item] + rest, quote) == PrintItem(item) + PrintInside(rest, quote)
    ensures ItemOk(item, quote) && ItemsOk(rest, quote) ==> ItemsOk([item] + rest, quote)
  {
    assert ([item] + rest)[1..] == rest;
  }

  /** Before its closing quote, the lexer passes an item. */
  lemma ItemFound(text: string, quote: char, at: nat) returns (item: Item)
    requires StringEnd(text, quote, at).Some? && text[at] != quote
    ensures ItemOk(item, quote) && Spells(text, at, PrintItem(item))
    ensures StringEnd(text, quote, at) == StringEnd(text, quote, at + |PrintItem(item)|)
  {
    if text[at] != '\\' {
      item := Bare(text[at]);
    } else if At(text, at + 1, '\r') && At(text, at + 2, '\n') {
      item := EscapedBreak;
    } else {
      item := Escaped(text[at + 1]);
    }
  }

  /** Where the lexer ends a string, one ends. */
  lemma {:induction false} StringSound(text: string, quote: char, at: nat) returns (items: seq<Item>)
    requires IsQuote(quote) && StringEnd(text, quote, at).Some?
    ensures ItemsOk(items, quote) && Spells(text, at, PrintInside(items, quote))
    ensures StringEnd(text, quote, at) == Some(at + |PrintInside(items, quote)|)
    decreases |text| - at
  {
    if text[at] == quote {
      items := [];
    } else {
      var item := ItemFound(text, quote, at);
      var rest := StringSound(text, quote, at + |PrintItem(item)|);
      items := [item] + rest;
      InsideFirst(item, rest, quote);
      Joined(text, at, PrintItem(item), PrintInside(rest, quote));
    }
  }

  /** Where a string ends, the lexer ends it. */
  lemma {:induction false} StringComplete(text: string, quote: char, at: nat, items: seq<Item>)
    requires IsQuote(quote) && ItemsOk(items, quote) && Spells(text, at, PrintInside(items, quote))
    ensures StringEnd(text, quote, at) == Some(at + |PrintInside(items, quote)|)
    decreases |items|
  {
    if items == [] {
      assert text[at] == PrintInside(items, quote)[0];
    } else {
      var item, rest := items[0], items[1..];
      Parted(text, at, PrintItem(item), PrintInside(rest, quote));
      StringComplete(text, quote, at + |PrintItem(item)|, rest);
      InsideStarts(rest, quote);
      SpellsFirst(text, at + |PrintItem(item)|, PrintInside(rest, quote));
      ItemStep(text, quote, at, item);
    }
  }

  /** The lexer passes an item in one go. */
  lemma ItemStep(text: string, quote: char, at: nat, item: Item)
    requires IsQuote(quote) && ItemOk(item, quote) && Spells(text, at, PrintItem(item))
    requires !At(text, at + |PrintItem(item)|, '\n')
    ensures StringEnd(text, quote, at) == StringEnd(text, quote, at + |PrintItem(item)|)
  {
    var s := PrintItem(item);
    assert text[at] == s[0];
    if item.Escaped? { assert text[at + 1] == s[1]; }
    if item.EscapedBreak? { assert text[at + 1] == s[1] && text[at + 2] == s[2]; }
  }

  /** Strings are found exactly: the lexer ends one at `end` just where one ends. */
  lemma StringIs(text: string, at: nat, end: nat)
    requires at < |text| && IsQuote(text[at])
    ensures StringEnd(text, text[at], at + 1) == Some(end) <==> exists items :: QuotedAt(text, at, text[at], items, end)
  {
    if StringEnd(text, text[at], at + 1) == Some(end) {
      var items := StringSound(text, text[at], at + 1);
      assert QuotedAt(text, at, text[at], items, end);
    }
    if items :| QuotedAt(text, at, text[at], items, end) {
      StringComplete(text, text[at], at + 1, items);
    }
  }

  // ----- numerals

  predicate IsDigitOf(c: char, hex: bool) {
    if hex then IsHexDigit(c) else IsDigit(c)
  }

  predicate Digits(s: string, hex: bool) {
    forall i | 0 <= i < |s| :: IsDigitOf(s[i], hex)
  }

  /** `10`, `1.`, `.5`, `1.5` and each with an exponent; hexadecimal digits; and two
      words. */
  datatype Exponent = Exponent(mark: char, sign: Option<char>, digits: string)
  datatype Numeral =
    | Word(word: string)
    | Hex(mark: char, digits: string)
    | Decimal(whole: string, fraction: Option<string>, exponent: Option<Exponent>)

  predicate ExponentOk(e: Option<Exponent>) {
    e.Some?
    ==> && (e.value.mark == 'e' || e.value.mark == 'E')
        && (e.value.sign.None? || e.value.sign.value == '+' || e.value.sign.value == '-')
        && e.value.digits != "" && Digits(e.value.digits, false)
  }

  predicate FractionOk(fraction: Option<string>) {
    fraction.Some? ==> Digits(fraction.value, false)
  }

  predicate DecimalOk(whole: string, fraction: Option<string>, exponent: Option<Exponent>) {
    && Digits(whole, false) && FractionOk(fraction) && ExponentOk(exponent)
    && (whole != "" || (fraction.Some? && fraction.value != ""))
  }

  predicate NumeralOk(n: Numeral) {
    match n
    case Word(word) => word == "inf" || word == "nan"
    case Hex(mark, digits) => (mark == 'x' || mark == 'X') && digits != "" && Digits(digits, true)
    case Decimal(whole, fraction, exponent) => DecimalOk(whole, fraction, exponent)
  }

  function PrintSign(sign: Option<char>): string {
    if sign.None? then "" else [sign.value]
  }

  function PrintExponent(e: Option<Exponent>): string {
    if e.None? then "" else [e.value.mark] + (PrintSign(e.value.sign) + e.value.digits)
  }

  function PrintFraction(fraction: Option<string>): string {
    if fraction.None? then "" else ['.'] + fraction.value
  }

  function PrintNumeral(n: Numeral): string {
    match n
    case Word(word) => word
    case Hex(mark, digits) => ['0', mark] + digits
    case Decimal(whole, fraction, exponent) => whole + (PrintFraction(fraction) + PrintExponent(exponent))
  }

  function PrintSigned(minus: bool, n: Numeral): string {
    if minus then ['-'] + PrintNumeral(n) else PrintNumeral(n)
  }

  predicate Bounded(text: string, end: nat) {
    !(end < |text| && IsWord(text[end]))
  }

  /** A numeral stands from `at` to `end`. The two words count only if no longer word
      stands there. */
  predicate NumeralAt(text: string, at: nat, minus: bool, n: Numeral, end: nat) {
    && NumeralOk(n) && (n.Word? ==> Bounded(text, end))
    && Spells(text, at, PrintSigned(minus, n)) && end == at + |PrintSigned(minus, n)|
  }

  ghost predicate SomeNumeral(text: string, at: nat, end: nat) {
    exists minus, n :: NumeralAt(text, at, minus, n, end)
  }

  ghost predicate NoNumeral(text: string, at: nat) {
    forall end: nat :: !SomeNumeral(text, at, end)
  }

  /** The longest numeral at `at` ends at `end`. */
  ghost predicate LongestNumeral(text: string, at: nat, end: nat) {
    SomeNumeral(text, at, end) && forall other: nat :: SomeNumeral(text, at, other) ==> other <= end
  }

  lemma {:induction false} DigitsRun(text: string, from: nat, hex: bool)
    ensures var end := DigitsEnd(text, from, hex);
            && (forall i | from <= i < end :: i < |text| && IsDigitOf(text[i], hex))
            && !(end < |text| && IsDigitOf(text[end], hex))
    decreases |text| - from
  {
    if from < |text| && IsDigitOf(text[from], hex) { DigitsRun(text, from + 1, hex); }
  }

  /** The digits found are all of those written, and go on only with a digit. */
  lemma DigitsReach(text: string, at: nat, s: string, hex: bool)
    requires Spells(text, at, s) && Digits(s, hex)
    ensures DigitsEnd(text, at, hex) >= at + |s|
    ensures DigitsEnd(text, at, hex) > at + |s| ==> at + |s| < |text| && IsDigitOf(text[at + |s|], hex)
  {
    DigitsRun(text, at, hex);
    forall i | at <= i < at + |s| ensures IsDigitOf(text[i], hex) { assert text[at + (i - at)] == s[i - at]; }
  }

  lemma SpellsSlice(text: string, a: nat, b: nat)
    requires a <= b <= |text|
    ensures Spells(text, a, text[a..b])
  {
  }

  lemma DigitsFound(text: string, at: nat, hex: bool) returns (s: string)
    requires at <= |text|
    ensures Digits(s, hex) && Spells(text, at, s) && DigitsEnd(text, at, hex) == at + |s|
  {
    DigitsRun(text, at, hex);
    s := text[at..DigitsEnd(text, at, hex)];
    SpellsSlice(text, at, DigitsEnd(text, at, hex));
  }

  lemma ExponentSound(text: string, end: nat) returns (e: Option<Exponent>)
    requires end <= |text|
    ensures ExponentOk(e) && Spells(text, end, PrintExponent(e)) && ExponentEnd(text, end) == end + |PrintExponent(e)|
  {
    e := None;
    if ExponentEnd(text, end) > end {
      var sign := if At(text, end + 1, '+') || At(text, end + 1, '-') then Some(text[end + 1]) else None;
      var digits := DigitsFound(text, end + 1 + |PrintSign(sign)|, false);
      e := Some(Exponent(text[end], sign, digits));
      ExponentWritten(text, end, sign, digits);
    }
  }

  lemma ExponentWritten(text: string, end: nat, sign: Option<char>, digits: string)
    requires end < |text| && Spells(text, end + 1, PrintSign(sign))
    requires Spells(text, end + 1 + |PrintSign(sign)|, digits)
    ensures var e := Some(Exponent(text[end], sign, digits));
            Spells(text, end, PrintExponent(e)) && |PrintExponent(e)| == 1 + |PrintSign(sign)| + |digits|
  {
    Joined(text, end + 1, PrintSign(sign), digits);
    Joined(text, end, [text[end]], PrintSign(sign) + digits);
  }

  lemma ExponentReach(text: string, end: nat, e: Option<Exponent>)
    requires end <= |text| && ExponentOk(e) && Spells(text, end, PrintExponent(e))
    ensures ExponentEnd(text, end) >= end + |PrintExponent(e)|
  {
    if e.Some? {
      var sign, digits := PrintSign(e.value.sign), e.value.digits;
      Parted(text, end, [e.value.mark], sign + digits);
      Parted(text, end + 1, sign, digits);
      SpellsFirst(text, end, [e.value.mark]);
      SpellsFirst(text, end + 1 + |sign|, digits);
      if sign != "" { SpellsFirst(text, end + 1, sign); }
      DigitsReach(text, end + 1 + |sign|, digits, false);
    }
  }

  /** The end of a decimal whose whole part ends at `point`. */
  function TailEnd(text: string, point: nat): (end: nat)
    requires point <= |text|
    ensures point <= end <= |text|
  {
    ExponentEnd(text, if At(text, point, '.') then DigitsEnd(text, point + 1, false) else point)
  }

  /** A decimal starts at `at`, with a digit or with a point and a digit. */
  predicate StartsDecimal(text: string, at: nat) {
    DigitsEnd(text, at, false) > at || (At(text, at, '.') && DigitsEnd(text, at + 1, false) > at + 1)
  }

  lemma DecimalIsTail(text: string, at: nat)
    requires at <= |text|
    ensures DecimalEnd(text, at)
            == if StartsDecimal(text, at) then Some(TailEnd(text, DigitsEnd(text, at, false))) else None
  {
  }

  lemma FractionSound(text: string, point: nat) returns (fraction: Option<string>)
    requires point <= |text|
    ensures FractionOk(fraction) && Spells(text, point, PrintFraction(fraction))
    ensures if At(text, point, '.')
            then fraction.Some? && DigitsEnd(text, point + 1, false) == point + 1 + |fraction.value|
            else fraction.None?
  {
    fraction := None;
    if At(text, point, '.') {
      var digits := DigitsFound(text, point + 1, false);
      fraction := Some(digits);
      Joined(text, point, ['.'], digits);
    }
  }

  lemma TailSound(text: string, point: nat) returns (fraction: Option<string>, e: Option<Exponent>)
    requires point <= |text|
    ensures FractionOk(fraction) && ExponentOk(e) && Spells(text, point, PrintFraction(fraction) + PrintExponent(e))
    ensures TailEnd(text, point) == point + |PrintFraction(fraction) + PrintExponent(e)|
    ensures At(text, point, '.')
            ==> fraction.Some? && DigitsEnd(text, point + 1, false) == point + 1 + |fraction.value|
  {
    fraction := FractionSound(text, point);
    e := ExponentSound(text, point + |PrintFraction(fraction)|);
    Joined(text, point, PrintFraction(fraction), PrintExponent(e));
  }

  lemma DecimalParts(text: string, at: nat) returns (whole: string, fraction: Option<string>, e: Option<Exponent>)
    requires at <= |text| && StartsDecimal(text, at)
    ensures DecimalOk(whole, fraction, e) && Spells(text, at, whole) && DigitsEnd(text, at, false) == at + |whole|
    ensures Spells(text, at + |whole|, PrintFraction(fraction) + PrintExponent(e))
    ensures TailEnd(text, at + |whole|) == at + |whole| + |PrintFraction(fraction) + PrintExponent(e)|
  {
    whole := DigitsFound(text, at, false);
    fraction, e := TailSound(text, at + |whole|);
  }

  lemma DecimalSound(text: string, at: nat) returns (n: Numeral)
    requires at <= |text| && DecimalEnd(text, at).Some?
    ensures n.Decimal? && NumeralOk(n) && Spells(text, at, PrintNumeral(n))
    ensures DecimalEnd(text, at) == Some(at + |PrintNumeral(n)|)
  {
    DecimalIsTail(text, at);
    var whole, fraction, e := DecimalParts(text, at);
    n := Decimal(whole, fraction, e);
    DecimalWritten(text, at, whole, fraction, e);
  }

  lemma DecimalWritten(text: string, at: nat, whole: string, fraction: Option<string>, e: Option<Exponent>)
    requires Spells(text, at, whole) && Spells(text, at + |whole|, PrintFraction(fraction) + PrintExponent(e))
    ensures var n := Decimal(whole, fraction, e);
            && Spells(text, at, PrintNumeral(n))
            && |PrintNumeral(n)| == |whole| + |PrintFraction(fraction) + PrintExponent(e)|
  {
    Joined(text, at, whole, PrintFraction(fraction) + PrintExponent(e));
  }

  /** What comes after the whole part of a decimal starts with no digit. */
  lemma TailStarts(fraction: Option<string>, e: Option<Exponent>)
    requires ExponentOk(e) && PrintFraction(fraction) + PrintExponent(e) != ""
    ensures var c := (PrintFraction(fraction) + PrintExponent(e))[0];
            if fraction.Some? then c == '.' else c == 'e' || c == 'E'
  {
  }

  /** A tail at `point` leads no further than the lexer goes. */
  lemma TailReach(text: string, point: nat, fraction: Option<string>, e: Option<Exponent>)
    requires point <= |text| && FractionOk(fraction) && ExponentOk(e)
    requires Spells(text, point, PrintFraction(fraction) + PrintExponent(e))
    ensures TailEnd(text, point) >= point + |PrintFraction(fraction) + PrintExponent(e)|
    ensures fraction.Some? ==> At(text, point, '.') && DigitsEnd(text, point + 1, false) >= point + 1 + |fraction.value|
  {
    Parted(text, point, PrintFraction(fraction), PrintExponent(e));
    if fraction.Some? { FractionReach(text, point, fraction.value); }
    if e.Some? { SpellsFirst(text, point + |PrintFraction(fraction)|, PrintExponent(e)); }
    ExponentReach(text, point + |PrintFraction(fraction)|, e);
  }

  lemma FractionReach(text: string, point: nat, digits: string)
    requires Spells(text, point, ['.'] + digits) && Digits(digits, false)
    ensures At(text, point, '.') && DigitsEnd(text, point + 1, false) >= point + 1 + |digits|
    ensures var end := point + 1 + |digits|;
            DigitsEnd(text, point + 1, false) > end ==> end < |text| && IsDigit(text[end])
  {
    Parted(text, point, ['.'], digits);
    SpellsFirst(text, point, ['.']);
    DigitsReach(text, point + 1, digits, false);
  }

  lemma DecimalReach(text: string, at: nat, whole: string, fraction: Option<string>, e: Option<Exponent>)
    requires DecimalOk(whole, fraction, e) && Spells(text, at, whole + (PrintFraction(fraction) + PrintExponent(e)))
    ensures DecimalEnd(text, at).Some?
    ensures DecimalEnd(text, at).value >= at + |whole + (PrintFraction(fraction) + PrintExponent(e))|
  {
    var tail, point := PrintFraction(fraction) + PrintExponent(e), at + |whole|;
    Parted(text, at, whole, tail);
    DigitsReach(text, at, whole, false);
    DecimalIsTail(text, at);
    if tail != "" {
      TailStarts(fraction, e);
      SpellsFirst(text, point, tail);
      TailReach(text, point, fraction, e);
    }
  }

  lemma DecimalStarts(whole: string, fraction: Option<string>, e: Option<Exponent>)
    requires DecimalOk(whole, fraction, e)
    ensures var s := whole + (PrintFraction(fraction) + PrintExponent(e)); s != "" && (IsDigit(s[0]) || s[0] == '.')
  {
    var tail := PrintFraction(fraction) + PrintExponent(e);
    if whole != "" {
      assert (whole + tail)[0] == whole[0];
    } else {
      assert whole + tail == tail;
      TailStarts(fraction, e);
    }
  }

  /** No numeral starts with a minus. */
  lemma NumeralStarts(n: Numeral)
    requires NumeralOk(n)
    ensures PrintNumeral(n) != ""
    ensures var c := PrintNumeral(n)[0]; if n.Word? then c == 'i' || c == 'n' else IsDigit(c) || c == '.'
  {
    if n.Decimal? { DecimalStarts(n.whole, n.fraction, n.exponent); }
  }

  /** After the sign. */
  function UnsignedEnd(text: string, at: nat): Option<nat> {
    if WordAt(text, at, "inf") || WordAt(text, at, "nan") then Some(at + 3)
    else if At(text, at, '0') && (At(text, at + 1, 'x') || At(text, at + 1, 'X'))
            && DigitsEnd(text, at + 2, true) > at + 2 then Some(DigitsEnd(text, at + 2, true))
    else DecimalEnd(text, at)
  }

  lemma WordIs(text: string, at: nat, word: string)
    ensures WordAt(text, at, word) <==> Spells(text, at, word) && Bounded(text, at + |word|)
  {
    if at + |word| <= |text| {
      if text[at..at + |word|] == word {
        forall i | 0 <= i < |word| ensures text[at + i] == word[i] { assert text[at..at + |word|][i] == word[i]; }
      }
    }
  }

  lemma UnsignedSound(text: string, at: nat) returns (n: Numeral)
    requires at <= |text| && UnsignedEnd(text, at).Some?
    ensures NumeralAt(text, at, false, n, UnsignedEnd(text, at).value)
  {
    WordIs(text, at, "inf");
    WordIs(text, at, "nan");
    if WordAt(text, at, "inf") {
      n := Word("inf");
    } else if WordAt(text, at, "nan") {
      n := Word("nan");
    } else if At(text, at, '0') && (At(text, at + 1, 'x') || At(text, at + 1, 'X'))
              && DigitsEnd(text, at + 2, true) > at + 2 {
      var digits := DigitsFound(text, at + 2, true);
      n := Hex(text[at + 1], digits);
      Joined(text, at, ['0', text[at + 1]], digits);
    } else {
      n := DecimalSound(text, at);
    }
  }

  lemma HexReach(text: string, at: nat, n: Numeral)
    requires n.Hex? && NumeralOk(n) && Spells(text, at, PrintNumeral(n))
    ensures At(text, at, '0') && (At(text, at + 1, 'x') || At(text, at + 1, 'X'))
    ensures DigitsEnd(text, at + 2, true) >= at + |PrintNumeral(n)| > at + 2
  {
    var start := ['0', n.mark];
    Parted(text, at, start, n.digits);
    assert text[at] == start[0] && text[at + 1] == start[1];
    DigitsReach(text, at + 2, n.digits, true);
  }

  /** Before an `x` a decimal is a single digit. */
  lemma DecimalBeforeHex(text: string, at: nat)
    requires At(text, at, '0') && (At(text, at + 1, 'x') || At(text, at + 1, 'X'))
    ensures DecimalEnd(text, at) == Some(at + 1)
  {
    assert DigitsEnd(text, at, false) == DigitsEnd(text, at + 1, false) == at + 1;
  }

  lemma UnsignedReach(text: string, at: nat, n: Numeral, end: nat)
    requires NumeralAt(text, at, false, n, end)
    ensures UnsignedEnd(text, at).Some? && UnsignedEnd(text, at).value >= end
  {
    WordIs(text, at, "inf");
    WordIs(text, at, "nan");
    NumeralStarts(n);
    SpellsFirst(text, at, PrintNumeral(n));
    if !n.Word? {
      NotAWord(text, at);
      if n.Hex? {
        HexReach(text, at, n);
      } else {
        DecimalReach(text, at, n.whole, n.fraction, n.exponent);
        if At(text, at, '0') && (At(text, at + 1, 'x') || At(text, at + 1, 'X')) { DecimalBeforeHex(text, at); }
      }
    }
  }

  lemma NotAWord(text: string, at: nat)
    requires at < |text| && (IsDigit(text[at]) || text[at] == '.')
    ensures !WordAt(text, at, "inf") && !WordAt(text, at, "nan")
  {
    WordIs(text, at, "inf");
    WordIs(text, at, "nan");
    if Spells(text, at, "inf") { SpellsFirst(text, at, "inf"); }
    if Spells(text, at, "nan") { SpellsFirst(text, at, "nan"); }
  }

  lemma SignIs(text: string, at: nat, minus: bool, n: Numeral, end: nat)
    requires NumeralAt(text, at, minus, n, end)
    ensures minus <==> At(text, at, '-')
    ensures NumeralAt(text, if minus then at + 1 else at, false, n, end)
  {
    NumeralStarts(n);
    if minus {
      Parted(text, at, ['-'], PrintNumeral(n));
      SpellsFirst(text, at, ['-']);
    } else {
      SpellsFirst(text, at, PrintNumeral(n));
    }
  }

  lemma MinusWritten(text: string, at: nat, n: Numeral, end: nat)
    requires At(text, at, '-') && NumeralAt(text, at + 1, false, n, end)
    ensures NumeralAt(text, at, true, n, end)
  {
    Joined(text, at, ['-'], PrintNumeral(n));
  }

  lemma NumberSound(text: string, at: nat)
    requires at < |text| && NumberEnd(text, at).Some?
    ensures SomeNumeral(text, at, NumberEnd(text, at).value)
  {
    var end := NumberEnd(text, at).value;
    AfterSign(text, at);
    if At(text, at, '-') {
      var n := UnsignedSound(text, at + 1);
      MinusWritten(text, at, n, end);
    } else {
      var n := UnsignedSound(text, at);
    }
  }

  /** Numerals are found exactly, and the longest of them. */
  lemma NumberIs(text: string, at: nat, end: nat)
    requires at < |text|
    ensures NumberEnd(text, at) == Some(end) <==> LongestNumeral(text, at, end)
    ensures NumberEnd(text, at) == None <==> NoNumeral(text, at)
  {
    if NumberEnd(text, at).Some? { NumberSound(text, at); }
    forall other: nat | SomeNumeral(text, at, other)
      ensures NumberEnd(text, at).Some? && other <= NumberEnd(text, at).value
    {
      NumberReach(text, at, other);
    }
  }

  lemma NumberReach(text: string, at: nat, end: nat)
    requires SomeNumeral(text, at, end)
    ensures NumberEnd(text, at).Some? && NumberEnd(text, at).value >= end
  {
    var minus: bool, n: Numeral :| NumeralAt(text, at, minus, n, end);
    SignedReach(text, at, minus, n, end);
  }

  lemma SignedReach(text: string, at: nat, minus: bool, n: Numeral, end: nat)
    requires NumeralAt(text, at, minus, n, end)
    ensures NumberEnd(text, at).Some? && NumberEnd(text, at).value >= end
  {
    SignIs(text, at, minus, n, end);
    UnsignedReach(text, if minus then at + 1 else at, n, end);
    AfterSign(text, at);
  }

  lemma AfterSign(text: string, at: nat)
    ensures NumberEnd(text, at) == UnsignedEnd(text, if At(text, at, '-') then at + 1 else at)
  {
  }

  // ----- names, blanks and comments

  /** The whole of a name stands from `at` to `end`. */
  predicate NameAt(text: string, at: nat, name: string, end: nat) {
    && name != "" && IsLetter(name[0]) && (forall i | 0 <= i < |name| :: IsWord(name[i]))
    && Spells(text, at, name) && end == at + |name| && Bounded(text, end)
  }

  lemma {:induction false} WordRun(text: string, from: nat)
    ensures var end := WordEnd(text, from);
            (forall i | from <= i < end :: i < |text| && IsWord(text[i])) && Bounded(text, end)
    decreases |text| - from
  {
    if from < |text| && IsWord(text[from]) { WordRun(text, from + 1); }
  }

  lemma NameIs(text: string, at: nat, name: string, end: nat)
    requires at < |text| && IsLetter(text[at])
    ensures NameAt(text, at, name, end) <==> end == WordEnd(text, at) && name == text[at..end]
  {
    WordRun(text, at);
    var last := WordEnd(text, at);
    SpellsSlice(text, at, last);
    if NameAt(text, at, name, end) {
      forall i | at <= i < end ensures IsWord(text[i]) { assert text[at + (i - at)] == name[i - at]; }
      assert name == text[at..end];
    }
  }

  predicate Blank(text: string, at: nat, end: nat)
    requires at < |text|
  {
    IsSpace(text[at]) && end == at + 1
  }

  /** A comment goes from two dashes to the end of its line. */
  predicate Comment(text: string, at: nat, end: nat) {
    && Spells(text, at, "--") && at < end <= |text|
    && (forall i | at <= i < end :: !IsBreak(text[i])) && (end < |text| ==> IsBreak(text[end]))
  }

  lemma {:induction false} CommentRun(text: string, from: nat)
    requires from <= |text|
    ensures var end := CommentEnd(text, from);
            (forall i | from <= i < end :: !IsBreak(text[i])) && (end < |text| ==> IsBreak(text[end]))
    decreases |text| - from
  {
    if from < |text| && !IsBreak(text[from]) { CommentRun(text, from + 1); }
  }

  lemma CommentIs(text: string, at: nat, end: nat)
    requires at < |text|
    ensures Comment(text, at, end) <==> At(text, at, '-') && At(text, at + 1, '-') && end == CommentEnd(text, at)
  {
    CommentRun(text, at);
    if At(text, at, '-') && At(text, at + 1, '-') {
      assert CommentEnd(text, at) > at;
      assert Spells(text, at, "--");
    }
    if Spells(text, at, "--") {
      assert text[at + 0] == "--"[0] && text[at + 1] == "--"[1];
    }
  }

  // ----- a text divides in one way

  /** What stands at some place: a word, or with no token what is between words. */
  datatype Piece = Piece(token: Option<Token>, end: nat)

  ghost predicate Stands(text: string, at: nat, piece: Piece)
    requires at < |text|
  {
    match piece.token
    case None => Blank(text, at, piece.end) || Comment(text, at, piece.end)
    case Some(Text) => exists items :: QuotedAt(text, at, text[at], items, piece.end)
    case Some(Punct(c)) => IsMark(c) && text[at] == c && piece.end == at + 1
    case Some(Number) => LongestNumeral(text, at, piece.end)
    case Some(Name(name)) =>
      NameAt(text, at, name, piece.end) && NoNumeral(text, at)
    case _ => false
  }

  /** What the lexer finds at a place. */
  function First(text: string, at: nat): (piece: Option<Piece>)
    requires at < |text|
    ensures piece.Some? ==> at < piece.value.end <= |text|
  {
    var c := text[at];
    if IsSpace(c) then Some(Piece(None, at + 1))
    else if c == '-' && At(text, at + 1, '-') then
      assert CommentEnd(text, at) > at;
      Some(Piece(None, CommentEnd(text, at)))
    else if IsQuote(c) then
      match StringEnd(text, c, at + 1) case None => None case Some(end) => Some(Piece(Some(Text), end))
    else if IsMark(c) then Some(Piece(Some(Punct(c)), at + 1))
    else
      match NumberEnd(text, at)
      case Some(end) => Some(Piece(Some(Number), end))
      case None =>
        if IsLetter(c) then Some(Piece(Some(Name(text[at..WordEnd(text, at)])), WordEnd(text, at))) else None
  }

  lemma NextIsFirst(text: string, at: nat)
    requires at < |text|
    ensures First(text, at).None? ==> NextToken(text, at) == Lexeme(Bad, at)
    ensures First(text, at).Some?
            ==> var piece := First(text, at).value;
                if piece.token.None? then NextToken(text, at) == NextToken(text, piece.end)
                else && NextToken(text, at) == Lexeme(piece.token.value, piece.end)
                     && !piece.token.value.End? && !piece.token.value.Bad?
  {
  }

  /** A numeral starts with a digit, a point, a minus or a letter. */
  lemma NumberStarts(text: string, at: nat, end: nat)
    requires SomeNumeral(text, at, end) && at < |text|
    ensures !IsSpace(text[at]) && !IsQuote(text[at]) && !IsMark(text[at])
    ensures text[at] == '-' ==> !At(text, at + 1, '-')
  {
    var minus: bool, n: Numeral :| NumeralAt(text, at, minus, n, end);
    SignIs(text, at, minus, n, end);
    NumeralStarts(n);
    SpellsFirst(text, if minus then at + 1 else at, PrintNumeral(n));
  }

  /** Nothing else stands where a numeral does. */
  predicate OnlyWords(text: string, at: nat)
    requires at < |text|
  {
    !IsSpace(text[at]) && !IsQuote(text[at]) && !IsMark(text[at]) && (text[at] == '-' ==> !At(text, at + 1, '-'))
  }

  lemma NumeralStands(text: string, at: nat)
    requires at < |text|
    ensures NumberEnd(text, at).Some? ==> OnlyWords(text, at)
  {
    if NumberEnd(text, at).Some? {
      NumberSound(text, at);
      NumberStarts(text, at, NumberEnd(text, at).value);
    }
  }

  lemma LetterStands(text: string, at: nat)
    requires at < |text|
    ensures IsLetter(text[at]) ==> OnlyWords(text, at)
  {
  }

  lemma BlankStands(text: string, at: nat, end: nat)
    requires at < |text|
    ensures Stands(text, at, Piece(None, end)) <==> First(text, at) == Some(Piece(None, end))
  {
    CommentIs(text, at, end);
  }

  lemma TextStands(text: string, at: nat, end: nat)
    requires at < |text|
    ensures Stands(text, at, Piece(Some(Text), end)) <==> First(text, at) == Some(Piece(Some(Text), end))
  {
    if IsQuote(text[at]) { StringIs(text, at, end); }
  }

  lemma MarkStands(text: string, at: nat, c: char, end: nat)
    requires at < |text|
    ensures Stands(text, at, Piece(Some(Punct(c)), end)) <==> First(text, at) == Some(Piece(Some(Punct(c)), end))
  {
  }

  lemma NumberStands(text: string, at: nat, end: nat)
    requires at < |text|
    ensures Stands(text, at, Piece(Some(Number), end)) <==> First(text, at) == Some(Piece(Some(Number), end))
  {
    NumeralStands(text, at);
    NumberIs(text, at, end);
  }

  lemma NameStands(text: string, at: nat, name: string, end: nat)
    requires at < |text|
    ensures Stands(text, at, Piece(Some(Name(name)), end)) <==> First(text, at) == Some(Piece(Some(Name(name)), end))
  {
    LetterStands(text, at);
    NumberIs(text, at, end);
    if IsLetter(text[at]) { NameIs(text, at, name, end); }
    if NameAt(text, at, name, end) { SpellsFirst(text, at, name); }
  }

  /** At most one piece stands at a place: the one the lexer finds. */
  lemma FirstStands(text: string, at: nat, piece: Piece)
    requires at < |text|
    ensures Stands(text, at, piece) <==> First(text, at) == Some(piece)
  {
    match piece.token
    case None => BlankStands(text, at, piece.end);
    case Some(Text) => TextStands(text, at, piece.end);
    case Some(Punct(c)) => MarkStands(text, at, c, piece.end);
    case Some(Number) => NumberStands(text, at, piece.end);
    case Some(Name(name)) => NameStands(text, at, name, piece.end);
    case _ =>
  }

  /** The pieces stand one after the other from `at` on. */
  ghost predicate Divides(text: string, at: nat, pieces: seq<Piece>)
    decreases |pieces|
  {
    pieces != [] ==> at < |text| && Stands(text, at, pieces[0]) && Divides(text, pieces[0].end, pieces[1..])
  }

  function Reach(at: nat, pieces: seq<Piece>): nat {
    if pieces == [] then at else Last(pieces).end
  }

  /** Nothing stands at a place. */
  ghost predicate Nothing(text: string, at: nat)
    requires at < |text|
  {
    forall piece :: !Stands(text, at, piece)
  }

  /** The pieces go on for as long as anything stands there. */
  ghost predicate Division(text: string, at: nat, pieces: seq<Piece>) {
    && at <= |text| && Divides(text, at, pieces) && Reach(at, pieces) <= |text|
    && (Reach(at, pieces) < |text| ==> Nothing(text, Reach(at, pieces)))
  }

  /** The words among the pieces. */
  function Words(pieces: seq<Piece>): seq<Token> {
    if pieces == [] then []
    else (if pieces[0].token.Some? then [pieces[0].token.value] else []) + Words(pieces[1..])
  }

  lemma DivisionNext(text: string, at: nat, pieces: seq<Piece>)
    requires Division(text, at, pieces) && pieces != []
    ensures First(text, at) == Some(pieces[0]) && Division(text, pieces[0].end, pieces[1..])
    ensures Reach(at, pieces) == Reach(pieces[0].end, pieces[1..])
  {
    FirstStands(text, at, pieces[0]);
  }

  lemma DivisionEnds(text: string, at: nat)
    requires at < |text| && Nothing(text, at)
    ensures First(text, at) == None
  {
    if First(text, at).Some? { FirstStands(text, at, First(text, at).value); }
  }

  /** Every text divides. */
  lemma {:induction false} EveryTextDivides(text: string, at: nat) returns (pieces: seq<Piece>)
    requires at <= |text|
    ensures Division(text, at, pieces)
    decreases |text| - at
  {
    pieces := [];
    if at < |text| {
      if First(text, at).None? {
        forall piece ensures !Stands(text, at, piece) { FirstStands(text, at, piece); }
      } else {
        var first := First(text, at).value;
        FirstStands(text, at, first);
        var rest := EveryTextDivides(text, first.end);
        pieces := [first] + rest;
        assert pieces[1..] == rest;
      }
    }
  }

  /** In one way only. */
  lemma {:induction false} OneDivision(text: string, at: nat, a: seq<Piece>, b: seq<Piece>)
    requires Division(text, at, a) && Division(text, at, b)
    ensures a == b
    decreases |a|
  {
    if a != [] { DivisionNext(text, at, a); }
    if b != [] { DivisionNext(text, at, b); }
    if at < |text| {
      if a == [] || b == [] { DivisionEnds(text, at); }
      if a != [] && b != [] {
        OneDivision(text, a[0].end, a[1..], b[1..]);
        assert a == [a[0]] + a[1..] && b == [b[0]] + b[1..];
      }
    }
  }

  lemma TokensNext(text: string, at: nat)
    requires at <= |text|
    ensures at == |text| ==> Tokens(text, at) == [End]
    ensures at < |text| && First(text, at).None? ==> Tokens(text, at) == [Bad]
    ensures at < |text| && First(text, at).Some?
            ==> var piece := First(text, at).value;
                Tokens(text, at)
                == (if piece.token.Some? then [piece.token.value] else []) + Tokens(text, piece.end)
  {
    if at < |text| { NextIsFirst(text, at); }
  }

  /** The lexer's tokens are the words of the division, and then the end of the text
      or what is no word. */
  lemma {:induction false} TokensAreWords(text: string, at: nat, pieces: seq<Piece>)
    requires Division(text, at, pieces)
    ensures Tokens(text, at) == Words(pieces) + [if Reach(at, pieces) == |text| then End else Bad]
    decreases |pieces|
  {
    TokensNext(text, at);
    if pieces == [] {
      if at < |text| { DivisionEnds(text, at); }
    } else {
      DivisionNext(text, at, pieces);
      TokensAreWords(text, pieces[0].end, pieces[1..]);
      Assoc(if pieces[0].token.Some? then [pieces[0].token.value] else [], Words(pieces[1..]),
            [if Reach(at, pieces) == |text| then End else Bad]);
    }
  }

  lemma GrammarEnds(tokens: seq<Token>)
    requires InGrammar(tokens)
    ensures tokens != [] && Last(tokens) == End
  {
  }

  /** Script data that is admitted is what it is written to be: the text divides to its
      very end into words, blanks and comments, and the words are a data function. */
  lemma AdmittedIs(text: string)
    ensures InGrammar(Tokens(text, 0))
            <==> exists pieces ::
                   Division(text, 0, pieces) && Reach(0, pieces) == |text| && InGrammar(Words(pieces) + [End])
  {
    var pieces := EveryTextDivides(text, 0);
    TokensAreWords(text, 0, pieces);
    forall other | Division(text, 0, other) ensures other == pieces { OneDivision(text, 0, other, pieces); }
    if InGrammar(Tokens(text, 0)) { GrammarEnds(Tokens(text, 0)); }
  }
}
