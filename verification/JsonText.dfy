/** Strings and integers in JSON, on UTF-16 code units as JavaScript has them: the printer and a
    reader that inverts it. */
module JsonText {
  import opened Prelude

  type Unit = u: int | 0 <= u < 0x10000

  type Text = seq<Unit>

  const Quote: Unit := 34
  const Comma: Unit := 44
  const Minus: Unit := 45
  const Colon: Unit := 58
  const Backslash: Unit := 92
  const LetterU: Unit := 117

  // ---- Strings ----

  predicate IsHigh(u: Unit) {
    0xD800 <= u < 0xDC00
  }

  predicate IsLow(u: Unit) {
    0xDC00 <= u < 0xE000
  }

  function HexUnit(n: int): Unit
    requires 0 <= n < 16
  {
    if n < 10 then 48 + n else 87 + n
  }

  function HexValue(u: Unit): Option<nat> {
    if 48 <= u < 58 then Some(u - 48) else if 97 <= u < 103 then Some(u - 87) else None
  }

  function UnicodeEscape(u: Unit): Text {
    [Backslash, LetterU, HexUnit(u / 4096), HexUnit(u / 256 % 16), HexUnit(u / 16 % 16), HexUnit(u % 16)]
  }

  /** The letter of a two-unit escape. */
  function ShortEscape(u: Unit): Option<Unit> {
    match u
    case 34 => Some(34)
    case 92 => Some(92)
    case 8 => Some(98)
    case 9 => Some(116)
    case 10 => Some(110)
    case 12 => Some(102)
    case 13 => Some(114)
    case _ => None
  }

  function Unescape(letter: Unit): Option<Unit> {
    match letter
    case 34 => Some(34)
    case 92 => Some(92)
    case 98 => Some(8)
    case 116 => Some(9)
    case 110 => Some(10)
    case 102 => Some(12)
    case 114 => Some(13)
    case _ => None
  }

  /** A unit on its own; a surrogate that is half of no pair is escaped. */
  function EscapeUnit(u: Unit): Text {
    if ShortEscape(u).Some? then [Backslash, ShortEscape(u).value]
    else if u < 32 || IsHigh(u) || IsLow(u) then UnicodeEscape(u)
    else [u]
  }

  function Escape(text: Text): Text {
    if text == [] then []
    else if |text| > 1 && IsHigh(text[0]) && IsLow(text[1]) then text[..2] + Escape(text[2..])
    else EscapeUnit(text[0]) + Escape(text[1..])
  }

  function PrintString(text: Text): Text {
    [Quote] + Escape(text) + [Quote]
  }

  function Prepend(u: Unit, read: Option<(Text, Text)>): Option<(Text, Text)> {
    if read.None? then None else Some(([u] + read.value.0, read.value.1))
  }

  function FourDigits(text: Text): Option<Unit> {
    if |text| < 4 then None
    else
      var a, b, c, d := HexValue(text[0]), HexValue(text[1]), HexValue(text[2]), HexValue(text[3]);
      if a.None? || b.None? || c.None? || d.None? || a.value > 15 || b.value > 15 || c.value > 15 || d.value > 15
      then None
      else
        var n: int := a.value * 4096 + b.value * 256 + c.value * 16 + d.value;
        Some(n)
  }

  /** Reads a string after its opening quote, up to and with the closing one. */
  function ReadString(text: Text): (read: Option<(Text, Text)>)
    ensures read.Some? ==> |read.value.1| < |text|
    decreases |text|
  {
    if text == [] then None
    else if text[0] == Quote then Some(([], text[1..]))
    else if text[0] != Backslash then Prepend(text[0], ReadString(text[1..]))
    else if |text| == 1 then None
    else if text[1] == LetterU then
      var unit := FourDigits(text[2..]);
      if unit.None? then None else Prepend(unit.value, ReadString(text[6..]))
    else if Unescape(text[1]).None? then None
    else Prepend(Unescape(text[1]).value, ReadString(text[2..]))
  }

  lemma HexRoundTrip(u: Unit, rest: Text)
    ensures FourDigits(UnicodeEscape(u)[2..] + rest) == Some(u)
  {
    var a, b, c, d := u / 4096, u / 256 % 16, u / 16 % 16, u % 16;
    assert HexValue(HexUnit(a)) == Some(a) && HexValue(HexUnit(b)) == Some(b);
    assert HexValue(HexUnit(c)) == Some(c) && HexValue(HexUnit(d)) == Some(d);
    assert UnicodeEscape(u)[2..] == [HexUnit(a), HexUnit(b), HexUnit(c), HexUnit(d)];
    HexDigitsOf(u);
  }

  lemma HexDigitsOf(u: Unit)
    ensures u / 4096 * 4096 + u / 256 % 16 * 256 + u / 16 % 16 * 16 + u % 16 == u
  {
    assert u / 16 == u / 256 * 16 + u / 16 % 16;
    assert u / 256 == u / 4096 * 16 + u / 256 % 16;
  }

  lemma EscapedUnitIsRead(u: Unit, more: Text)
    ensures ReadString(EscapeUnit(u) + more) == Prepend(u, ReadString(more))
  {
    var text := EscapeUnit(u) + more;
    if ShortEscape(u).Some? {
      assert text[2..] == more;
    } else if u < 32 || IsHigh(u) || IsLow(u) {
      HexRoundTrip(u, more);
      assert text[2..] == UnicodeEscape(u)[2..] + more;
      assert text[6..] == more;
    } else {
      assert text[1..] == more;
    }
  }

  lemma RawUnitIsRead(u: Unit, more: Text)
    requires u != Quote && u != Backslash
    ensures ReadString([u] + more) == Prepend(u, ReadString(more))
  {
    assert ([u] + more)[1..] == more;
  }

  predicate BeginsWithPair(text: Text) {
    |text| > 1 && IsHigh(text[0]) && IsLow(text[1])
  }

  lemma EscapePair(text: Text, tail: Text)
    requires BeginsWithPair(text)
    ensures Escape(text) + tail == [text[0]] + ([text[1]] + (Escape(text[2..]) + tail))
  {
    assert text[..2] == [text[0]] + [text[1]];
  }

  lemma EscapeOne(text: Text, tail: Text)
    requires text != [] && !BeginsWithPair(text)
    ensures Escape(text) + tail == EscapeUnit(text[0]) + (Escape(text[1..]) + tail)
  {
  }

  lemma PairStep(text: Text, tail: Text, rest: Text)
    requires BeginsWithPair(text) && ReadString(Escape(text[2..]) + tail) == Some((text[2..], rest))
    ensures ReadString(Escape(text) + tail) == Some((text, rest))
  {
    var more := Escape(text[2..]) + tail;
    EscapePair(text, tail);
    RawUnitIsRead(text[1], more);
    RawUnitIsRead(text[0], [text[1]] + more);
    assert text == [text[0]] + ([text[1]] + text[2..]);
  }

  lemma UnitStep(text: Text, tail: Text, rest: Text)
    requires text != [] && !BeginsWithPair(text) && ReadString(Escape(text[1..]) + tail) == Some((text[1..], rest))
    ensures ReadString(Escape(text) + tail) == Some((text, rest))
  {
    EscapeOne(text, tail);
    EscapedUnitIsRead(text[0], Escape(text[1..]) + tail);
    assert text == [text[0]] + text[1..];
  }

  lemma QuoteEnds(rest: Text)
    ensures ReadString([Quote] + rest) == Some(([], rest))
  {
    assert ([Quote] + rest)[1..] == rest;
  }

  /** Whatever the string, lone surrogates and control characters included, what is printed is
      read back, and reading stops right after it. */
  lemma {:induction false} StringRoundTrip(text: Text, rest: Text)
    ensures ReadString(Escape(text) + ([Quote] + rest)) == Some((text, rest))
    decreases |text|
  {
    if text == [] {
      assert Escape(text) + ([Quote] + rest) == [Quote] + rest;
      QuoteEnds(rest);
    } else if BeginsWithPair(text) {
      StringRoundTrip(text[2..], rest);
      PairStep(text, [Quote] + rest, rest);
    } else {
      StringRoundTrip(text[1..], rest);
      UnitStep(text, [Quote] + rest, rest);
    }
  }

  /** Quotes, backslashes and control characters must be escaped, and half of a surrogate pair. */
  predicate MustEscape(u: Unit) {
    u == 34 || u == 92 || u < 32 || 0xD800 <= u < 0xE000
  }

  /** One unit is printed as it is if it may be, by its letter if it has one, and else in hexadecimal. */
  lemma EscapesAreShort(u: Unit)
    ensures EscapeUnit(u) == [u] <==> !MustEscape(u)
    ensures |EscapeUnit(u)| == 2 <==> u in {8, 9, 10, 12, 13, 34, 92}
    ensures |EscapeUnit(u)| == if !MustEscape(u) then 1 else if u in {8, 9, 10, 12, 13, 34, 92} then 2 else 6
  {
  }

  /** A text is printed as it is if no unit of it must be escaped. */
  lemma {:induction false} PlainTextIsPrintedAsItIs(text: Text)
    requires forall u | u in text :: !MustEscape(u)
    ensures Escape(text) == text
  {
    if text != [] {
      assert text[0] in text && forall u | u in text[1..] :: u in text;
      PlainTextIsPrintedAsItIs(text[1..]);
      EscapesAreShort(text[0]);
    }
  }

  /** And so are the pairs of a text between other units. */
  lemma PairsAreNotEscaped(high: Unit, low: Unit, more: Text)
    requires IsHigh(high) && IsLow(low)
    ensures Escape([high, low] + more) == [high, low] + Escape(more)
  {
    var text := [high, low] + more;
    assert text[..2] == [high, low] && text[2..] == more;
  }

  // ---- Integers ----

  predicate IsDigit(u: Unit) {
    48 <= u < 58
  }

  function PrintNat(n: nat): (text: Text)
    ensures text != [] && forall i | 0 <= i < |text| :: IsDigit(text[i])
  {
    if n < 10 then [48 + n] else PrintNat(n / 10) + [48 + n % 10]
  }

  function PrintInt(n: int): Text {
    if n < 0 then [Minus] + PrintNat(-n) else PrintNat(n)
  }

  /** Numbers are printed without zeros in front, and zero without a sign. */
  lemma {:induction false} NoLeadingZeros(n: nat)
    ensures PrintNat(n)[0] == 48 <==> n == 0
  {
    if 10 <= n {
      NoLeadingZeros(n / 10);
    }
  }

  lemma OnlyNegativesHaveASign(n: int)
    ensures PrintInt(n)[0] == Minus <==> n < 0
    ensures (if n < 0 then PrintInt(n)[1] else PrintInt(n)[0]) == 48 <==> n == 0
  {
    NoLeadingZeros(if n < 0 then -n else n);
  }

  /** Goes on with the digits of a number whose digits so far make `value`. */
  function ReadDigits(text: Text, value: nat): (read: (nat, Text))
    ensures |read.1| <= |text|
    decreases |text|
  {
    if text == [] || !IsDigit(text[0]) then (value, text)
    else ReadDigits(text[1..], 10 * value + (text[0] - 48))
  }

  function ReadInt(text: Text): (read: Option<(int, Text)>)
    ensures read.Some? ==> |read.value.1| < |text|
  {
    if text != [] && IsDigit(text[0]) then
      Some(ReadDigits(text[1..], text[0] - 48))
    else if |text| > 1 && text[0] == Minus && IsDigit(text[1]) then
      var (n, rest) := ReadDigits(text[2..], text[1] - 48);
      Some((0 - n, rest))
    else None
  }

  predicate EndsNumber(rest: Text) {
    rest == [] || !IsDigit(rest[0])
  }

  lemma {:induction false} DigitsRoundTrip(n: nat, rest: Text)
    ensures ReadDigits(PrintNat(n) + rest, 0) == ReadDigits(rest, n)
    decreases n
  {
    if n < 10 {
      assert (PrintNat(n) + rest)[1..] == rest;
    } else {
      var last := [48 + n % 10];
      DigitsRoundTrip(n / 10, last + rest);
      assert PrintNat(n) + rest == PrintNat(n / 10) + (last + rest);
      assert (last + rest)[1..] == rest;
    }
  }

  lemma NatIsRead(n: nat, rest: Text)
    requires EndsNumber(rest)
    ensures var digits := PrintNat(n) + rest;
            IsDigit(digits[0]) && ReadDigits(digits[1..], digits[0] - 48) == (n, rest)
  {
    var digits := PrintNat(n) + rest;
    DigitsRoundTrip(n, rest);
    assert digits[0] == PrintNat(n)[0];
    assert ReadDigits(digits, 0) == ReadDigits(digits[1..], digits[0] - 48);
  }

  lemma IntRoundTrip(n: int, rest: Text)
    requires EndsNumber(rest)
    ensures ReadInt(PrintInt(n) + rest) == Some((n, rest))
  {
    var m: nat := if n < 0 then -n else n;
    var digits := PrintNat(m) + rest;
    NatIsRead(m, rest);
    if n < 0 {
      SignIsRead(digits);
      assert PrintInt(n) + rest == [Minus] + digits;
    } else {
      UnsignedIsRead(digits);
    }
  }

  lemma UnsignedIsRead(digits: Text)
    requires digits != [] && IsDigit(digits[0])
    ensures ReadInt(digits) == Some(ReadDigits(digits[1..], digits[0] - 48))
  {
  }

  lemma SignIsRead(digits: Text)
    requires digits != [] && IsDigit(digits[0])
    ensures var (n, rest) := ReadDigits(digits[1..], digits[0] - 48);
            ReadInt([Minus] + digits) == Some((0 - n, rest))
  {
    assert ([Minus] + digits)[2..] == digits[1..];
  }
}
