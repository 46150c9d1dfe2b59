/**
 The extended parameter value of section 3.2 of RFC 5987: a character set, an optional language and
 percent-encoded octets.

 A language tag is known by its text; `isTag` tells which texts are tags.
 */
module ExtendedValue {
  import opened Wrappers
  import opened Text

  type Octet = n: nat | n < 256

  datatype ExtendedValue = ExtendedValue(charset: string, languageTag: Option<string>, value: seq<Octet>)

  datatype Invalid = LanguageMissing | LanguageInvalid | ValueMissing

  // ----- Octets and text

  function Utf8Char(c: char): seq<Octet> {
    var n := c as int;
    if n < 0x80 then [n]
    else if n < 0x800 then [0xC0 + n / 0x40, 0x80 + n % 0x40]
    else if n < 0x1_0000 then [0xE0 + n / 0x1000, 0x80 + n / 0x40 % 0x40, 0x80 + n % 0x40]
    else [0xF0 + n / 0x4_0000, 0x80 + n / 0x1000 % 0x40, 0x80 + n / 0x40 % 0x40, 0x80 + n % 0x40]
  }

  function Utf8(s: string): seq<Octet> {
    if s == "" then [] else Utf8Char(s[0]) + Utf8(s[1..])
  }

  /** The octets that are percent-encoded; every other one prints as itself. */
  predicate Encoded(b: Octet) {
    b < 0x20 || b >= 0x7F || b as char in " \"%'()*,/:;<->?[\\]{}"
  }

  predicate Follower(b: Octet) { 0x80 <= b < 0xC0 }

  function Bits(b: Octet, mark: int): int { b as int - mark }

  /** Each character is spelled by its code point, in the fewest octets that hold it. */
  lemma Utf8Spells(c: char)
    ensures var u, n := Utf8Char(c), c as int;
            && (n < 0x80 <==> |u| == 1) && (n < 0x800 <==> |u| <= 2) && (n < 0x1_0000 <==> |u| <= 3) && 1 <= |u| <= 4
            && (forall i | 1 <= i < |u| :: Follower(u[i]))
            && (|u| == 1 ==> u[0] == n)
            && (|u| == 2 ==> n == Bits(u[0], 0xC0) * 0x40 + Bits(u[1], 0x80))
            && (|u| == 3 ==> n == Bits(u[0], 0xE0) * 0x1000 + Bits(u[1], 0x80) * 0x40 + Bits(u[2], 0x80))
            && (|u| == 4 ==>
                  n == Bits(u[0], 0xF0) * 0x4_0000 + Bits(u[1], 0x80) * 0x1000 + Bits(u[2], 0x80) * 0x40
                       + Bits(u[3], 0x80))
  {
    var n := c as int;
    assert n / 0x1000 == n / 0x40 / 0x40 && n / 0x4_0000 == n / 0x1000 / 0x40;
  }

  function HexDigit(n: nat): char
    requires n < 16
  {
    if n < 10 then '0' + n as char else 'A' + (n - 10) as char
  }

  function HexValue(b: Octet): Option<nat> {
    if 0x30 <= b <= 0x39 then Some(b - 0x30)
    else if 0x41 <= b <= 0x46 then Some(b - 0x41 + 10)
    else if 0x61 <= b <= 0x66 then Some(b - 0x61 + 10)
    else None
  }

  function EncodeOctet(b: Octet): string {
    if Encoded(b) then ['%', HexDigit(b / 16), HexDigit(b % 16)] else [b as char]
  }

  function PercentEncode(value: seq<Octet>): string {
    if value == [] then "" else EncodeOctet(value[0]) + PercentEncode(value[1..])
  }

  /** A percent sign that two hex digits do not follow stands for itself. */
  function PercentDecode(bytes: seq<Octet>): seq<Octet> {
    if bytes == [] then []
    else if bytes[0] == 0x25 && |bytes| >= 3 && HexValue(bytes[1]).Some? && HexValue(bytes[2]).Some? then
      [HexValue(bytes[1]).value * 16 + HexValue(bytes[2]).value] + PercentDecode(bytes[3..])
    else [bytes[0]] + PercentDecode(bytes[1..])
  }

  // ----- The parser and the printer

  function Parse(val: string, isTag: string -> bool): Result<ExtendedValue, Invalid> {
    match SplitOnce(val, '\'')
    case None => Err(LanguageMissing)
    case Some((charset, rest)) =>
      match SplitOnce(rest, '\'')
      case None => if rest == "" || isTag(rest) then Err(ValueMissing) else Err(LanguageInvalid)
      case Some((language, chars)) =>
        if language != "" && !isTag(language) then Err(LanguageInvalid)
        else Ok(ExtendedValue(charset, if language == "" then None else Some(language), PercentDecode(Utf8(chars))))
  }

  function PrintLanguage(tag: Option<string>): string { if tag.Some? then tag.value else "" }

  function Print(v: ExtendedValue): string {
    v.charset + "'" + PrintLanguage(v.languageTag) + "'" + PercentEncode(v.value)
  }

  // ----- Octets survive

  lemma Utf8One(c: char, t: string)
    requires c as int < 0x80
    ensures Utf8([c] + t) == [c as int] + Utf8(t)
  {
    assert ([c] + t)[1..] == t;
  }

  lemma Utf8Three(a: char, b: char, c: char, t: string)
    requires a as int < 0x80 && b as int < 0x80 && c as int < 0x80
    ensures Utf8([a, b, c] + t) == [a as int, b as int, c as int] + Utf8(t)
  {
    Utf8One(a, [b, c] + t);
    Utf8One(b, [c] + t);
    Utf8One(c, t);
    assert [a, b, c] + t == [a] + ([b] + ([c] + t));
    assert [b, c] + t == [b] + ([c] + t);
  }

  lemma HexReads(n: nat)
    requires n < 16
    ensures HexDigit(n) as int < 0x80 && HexValue(HexDigit(n) as int) == Some(n)
  {
  }

  lemma EncodedReads(b: Octet, rest: string)
    requires Encoded(b)
    ensures PercentDecode(Utf8(EncodeOctet(b) + rest)) == [b] + PercentDecode(Utf8(rest))
  {
    HexReads(b / 16);
    HexReads(b % 16);
    Utf8Three('%', HexDigit(b / 16), HexDigit(b % 16), rest);
    assert Utf8(EncodeOctet(b) + rest)[3..] == Utf8(rest);
  }

  lemma PlainReads(b: Octet, rest: string)
    requires !Encoded(b)
    ensures PercentDecode(Utf8(EncodeOctet(b) + rest)) == [b] + PercentDecode(Utf8(rest))
  {
    SeparatorsAreEncoded();
    Utf8One(b as char, rest);
    assert Utf8(EncodeOctet(b) + rest)[1..] == Utf8(rest);
  }

  lemma SeparatorsAreEncoded()
    ensures Encoded(0x20) && Encoded(0x25) && Encoded(0x27) && Encoded(0x3B)
  {
    var listed := " \"%'()*,/:;<->?[\\]{}";
    assert listed[0] == ' ' && listed[2] == '%' && listed[3] == '\'' && listed[10] == ';';
  }

  /** Decoding the encoded form returns the octets, whatever they are. */
  lemma {:induction false} PercentRoundTrip(value: seq<Octet>)
    ensures PercentDecode(Utf8(PercentEncode(value))) == value
  {
    if value != [] {
      var b, rest := value[0], PercentEncode(value[1..]);
      PercentRoundTrip(value[1..]);
      if Encoded(b) {
        EncodedReads(b, rest);
      } else {
        PlainReads(b, rest);
      }
    }
  }

  /** The encoded form uses neither quotes nor separators, and no whitespace. */
  lemma {:induction false} EncodedIsPlain(value: seq<Octet>)
    ensures forall c | c in PercentEncode(value) :: c != '\'' && c != ';' && !IsSpace(c)
  {
    if value != [] {
      EncodedIsPlain(value[1..]);
      OctetIsPlain(value[0]);
    }
  }

  lemma OctetIsPlain(b: Octet)
    ensures forall c | c in EncodeOctet(b) :: c != '\'' && c != ';' && !IsSpace(c)
  {
    if Encoded(b) {
      HexIsPlain(b / 16);
      HexIsPlain(b % 16);
    } else {
      SeparatorsAreEncoded();
      LiteralIsPlain(b);
    }
  }

  lemma LiteralIsPlain(b: Octet)
    requires !Encoded(b) && Encoded(0x20) && Encoded(0x27) && Encoded(0x3B)
    ensures b as char != '\'' && b as char != ';' && !IsSpace(b as char)
  {
  }

  lemma HexIsPlain(n: nat)
    requires n < 16
    ensures HexDigit(n) != '\'' && HexDigit(n) != ';' && !IsSpace(HexDigit(n))
  {
  }

  /** The attribute characters of section 3.2.1 of RFC 5987. */
  predicate AttrChar(b: Octet) {
    || 0x30 <= b <= 0x39 || 0x41 <= b <= 0x5A || 0x61 <= b <= 0x7A
    || b as char in "!#$&+-.^_`|~"
  }

  /** What is not encoded is an attribute character other than the dash, an equals sign or an at sign. */
  lemma LiteralIff(b: Octet)
    ensures !Encoded(b) <==> (AttrChar(b) && b != 0x2D) || b == 0x3D || b == 0x40
  {
    EncodedAre(b);
    AttrAre(b);
  }

  lemma AttrAre(b: Octet)
    ensures AttrChar(b) <==>
            || 0x30 <= b <= 0x39 || 0x41 <= b <= 0x5A || 0x5E <= b <= 0x7A
            || b in {0x21, 0x23, 0x24, 0x26, 0x2B, 0x2D, 0x2E, 0x7C, 0x7E}
  {
    var attr := "!#$&+-.^_`|~";
    assert attr == ['!', '#', '$', '&', '+', '-', '.', '^', '_', '`', '|', '~'];
  }

  lemma EncodedAre(b: Octet)
    ensures Encoded(b) <==>
            || b < 0x21 || (b >= 0x7B && b != 0x7C && b != 0x7E) || 0x27 <= b <= 0x2A || 0x5B <= b <= 0x5D
            || b in {0x22, 0x25, 0x2C, 0x2D, 0x2F, 0x3A, 0x3B, 0x3C, 0x3E, 0x3F}
  {
    var listed := " \"%'()*,/:;<->?[\\]{}";
    assert listed == [' ', '"', '%', '\'', '(', ')', '*', ',', '/', ':', ';', '<', '-', '>', '?']
                     + ['[', '\\', ']', '{', '}'];
  }

  // ----- Every spelling is decoded

  /** A spelling of one octet: itself, or a percent sign and two hex digits in either case. */
  datatype Piece = Literal(octet: Octet) | Escaped(high: Octet, low: Octet) {
    predicate Spells(b: Octet) {
      match this
      case Literal(octet) => octet == b && b != 0x25
      case Escaped(high, low) => IsHex(high, b / 16) && IsHex(low, b % 16)
    }

    function Octets(): seq<Octet> { if Literal? then [octet] else [0x25, high, low] }
  }

  predicate IsHex(digit: Octet, n: nat) {
    || (n < 10 && digit == 0x30 + n)
    || (10 <= n < 16 && (digit == 0x41 + (n - 10) || digit == 0x61 + (n - 10)))
  }

  function Spelled(pieces: seq<Piece>): seq<Octet> {
    if pieces == [] then [] else pieces[0].Octets() + Spelled(pieces[1..])
  }

  lemma HexValueIff(digit: Octet, n: nat)
    ensures HexValue(digit) == Some(n) <==> IsHex(digit, n)
  {
  }

  lemma PieceDecodes(piece: Piece, b: Octet, rest: seq<Octet>)
    requires piece.Spells(b)
    ensures PercentDecode(piece.Octets() + rest) == [b] + PercentDecode(rest)
  {
    var all := piece.Octets() + rest;
    if piece.Escaped? {
      HexValueIff(piece.high, b / 16);
      HexValueIff(piece.low, b % 16);
      assert all[3..] == rest;
    } else {
      assert all[1..] == rest;
    }
  }

  /** Whichever octets are escaped, and in whichever case: what was spelled is what is decoded. */
  lemma {:induction false} AnySpellingDecodes(pieces: seq<Piece>, value: seq<Octet>)
    requires |pieces| == |value| && forall i | 0 <= i < |pieces| :: pieces[i].Spells(value[i])
    ensures PercentDecode(Spelled(pieces)) == value
  {
    if pieces != [] {
      PieceDecodes(pieces[0], value[0], Spelled(pieces[1..]));
      AnySpellingDecodes(pieces[1..], value[1..]);
      assert value == [value[0]] + value[1..];
    }
  }

  /** A percent sign without two hex digits behind it stays, and so does everything that is no escape. */
  lemma NoEscapeStays(bytes: seq<Octet>)
    requires bytes != []
    requires bytes[0] == 0x25 && |bytes| >= 3 ==>
               !(exists n :: IsHex(bytes[1], n)) || !(exists n :: IsHex(bytes[2], n))
    ensures PercentDecode(bytes) == [bytes[0]] + PercentDecode(bytes[1..])
  {
    if bytes[0] == 0x25 && |bytes| >= 3 {
      if HexValue(bytes[1]).Some? {
        HexValueIff(bytes[1], HexValue(bytes[1]).value);
      }
      if HexValue(bytes[2]).Some? {
        HexValueIff(bytes[2], HexValue(bytes[2]).value);
      }
    }
  }

  // ----- Round trip

  lemma QuoteSplits(a: string, b: string)
    requires '\'' !in a
    ensures SplitOnce(a + "'" + b, '\'') == Some((a, b))
  {
    assert a + "'" + b == a + ['\''] + b;
    SplitOnceIs(a, '\'', b);
  }

  /** What an extended value must be for its printed form to keep its parts apart. */
  predicate Separable(v: ExtendedValue, isTag: string -> bool) {
    && '\'' !in v.charset
    && (v.languageTag.Some? ==> v.languageTag.value != "" && '\'' !in v.languageTag.value && isTag(v.languageTag.value))
  }

  lemma PrintedParts(v: ExtendedValue)
    ensures Print(v) == v.charset + "'" + (PrintLanguage(v.languageTag) + "'" + PercentEncode(v.value))
  {
  }

  lemma SeparableRoundTrip(v: ExtendedValue, isTag: string -> bool)
    requires Separable(v, isTag)
    ensures Parse(Print(v), isTag) == Ok(v)
  {
    var language, chars := PrintLanguage(v.languageTag), PercentEncode(v.value);
    PrintedParts(v);
    QuoteSplits(v.charset, language + "'" + chars);
    QuoteSplits(language, chars);
    PercentRoundTrip(v.value);
  }

  /** Whatever was parsed is separable. */
  lemma ParsedIsSeparable(val: string, isTag: string -> bool)
    requires Parse(val, isTag).Ok?
    ensures Separable(Parse(val, isTag).value, isTag)
    ensures forall c | c in Parse(val, isTag).value.charset :: c in val
    ensures var v := Parse(val, isTag).value; v.languageTag.Some? ==> forall c | c in v.languageTag.value :: c in val
    ensures var v := Parse(val, isTag).value; v.charset != "" ==> v.charset[0] == val[0]
  {
    var (charset, rest) := SplitOnce(val, '\'').value;
    var (language, chars) := SplitOnce(rest, '\'').value;
    assert forall c | c in rest :: c in val;
  }

  /** The parts of a text: before the first quote, between the first two, and behind them. */
  ghost predicate HasParts(val: string, charset: string, language: string, chars: string) {
    val == charset + "'" + (language + "'" + chars) && '\'' !in charset && '\'' !in language
  }

  /** Only one quote: a language that no value follows. */
  ghost predicate HasLanguageOnly(val: string, charset: string, language: string) {
    val == charset + "'" + language && '\'' !in charset && '\'' !in language
  }

  predicate TagOrNone(language: string, isTag: string -> bool) { language == "" || isTag(language) }

  /** Exactly the texts with three parts, the second empty or a tag, are extended values. */
  lemma ParsesIffParts(val: string, isTag: string -> bool, v: ExtendedValue)
    ensures Parse(val, isTag) == Ok(v) <==>
            exists chars ::
              && HasParts(val, v.charset, PrintLanguage(v.languageTag), chars)
              && TagOrNone(PrintLanguage(v.languageTag), isTag) && v.languageTag != Some("")
              && v.value == PercentDecode(Utf8(chars))
  {
    if Parse(val, isTag) == Ok(v) {
      var (charset, rest) := SplitOnce(val, '\'').value;
      var (language, chars) := SplitOnce(rest, '\'').value;
      SplitOnceSplits(val, '\'');
      SplitOnceSplits(rest, '\'');
      assert HasParts(val, v.charset, PrintLanguage(v.languageTag), chars);
    }
    if chars :| && HasParts(val, v.charset, PrintLanguage(v.languageTag), chars)
                && TagOrNone(PrintLanguage(v.languageTag), isTag) && v.languageTag != Some("")
                && v.value == PercentDecode(Utf8(chars)) {
      QuoteSplits(v.charset, PrintLanguage(v.languageTag) + "'" + chars);
      QuoteSplits(PrintLanguage(v.languageTag), chars);
    }
  }

  /** Which error every other text is. */
  lemma ParseErrors(val: string, isTag: string -> bool)
    ensures Parse(val, isTag) == Err(LanguageMissing) <==> '\'' !in val
    ensures Parse(val, isTag) == Err(ValueMissing) <==>
            exists charset, language :: HasLanguageOnly(val, charset, language) && TagOrNone(language, isTag)
  {
    if '\'' !in val {
      FindNone(val, '\'');
    }
    if Parse(val, isTag) == Err(ValueMissing) {
      var (charset, rest) := SplitOnce(val, '\'').value;
      SplitOnceSplits(val, '\'');
      assert '\'' !in rest by { NoQuote(rest); }
      assert HasLanguageOnly(val, charset, rest);
    }
    if charset, language :| HasLanguageOnly(val, charset, language) && TagOrNone(language, isTag) {
      QuoteSplits(charset, language);
      FindNone(language, '\'');
    }
  }

  lemma NoQuote(s: string)
    requires SplitOnce(s, '\'').None?
    ensures '\'' !in s
  {
  }

  /** The printed form parses back exactly if charset and language hold no quote and the language is a tag. */
  lemma RoundTripIff(v: ExtendedValue, isTag: string -> bool)
    ensures Parse(Print(v), isTag) == Ok(v) <==> Separable(v, isTag)
  {
    if Separable(v, isTag) {
      SeparableRoundTrip(v, isTag);
    }
    if Parse(Print(v), isTag) == Ok(v) {
      ParsedIsSeparable(Print(v), isTag);
    }
  }
}
