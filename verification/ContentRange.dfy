/**
 The `Content-Range` header of a partial response, section 14.4 of RFC 9110: its printer, its parser,
 and the grammar that the parser accepts.
 */
module ContentRange {
  import opened Wrappers
  import opened Numbers
  import opened Text

  /** The bytes from `first` through `last`, of a resource of `complete` bytes if that is known. */
  datatype ContentRange = ContentRange(first: nat, last: nat, complete: Option<nat>)

  datatype Invalid = InvalidContentRange

  /** What fits the header and is a range of its resource. */
  predicate Valid(r: ContentRange) {
    && r.first <= r.last <= U64_MAX
    && (r.complete.Some? ==> r.last < r.complete.value <= U64_MAX)
  }

  function PrintComplete(complete: Option<nat>): string { if complete.Some? then Decimal(complete.value) else "*" }

  function Print(r: ContentRange): string {
    "bytes " + Decimal(r.first) + "-" + Decimal(r.last) + "/" + PrintComplete(r.complete)
  }

  // ----- The parser

  function FindAsciiSpace(s: string): (i: nat)
    ensures i <= |s| && (i < |s| ==> IsAsciiSpace(s[i]))
    ensures forall j | 0 <= j < i :: !IsAsciiSpace(s[j])
  {
    if s == "" || IsAsciiSpace(s[0]) then 0 else 1 + FindAsciiSpace(s[1..])
  }

  /** What a byte range says once its unit is read. */
  function ByteRange(value: string): Option<string> {
    var trimmed := Trim(value);
    var i := FindAsciiSpace(trimmed);
    if i < |trimmed| && EqIgnoreCase(trimmed[..i], "bytes") then Some(trimmed[i + 1..]) else None
  }

  function Number(value: string): Option<nat> {
    var digits := Trim(value);
    if digits == "" || !AllDigits(digits) then None
    else if NumberValue(digits) <= U64_MAX then Some(NumberValue(digits))
    else None
  }

  /** The complete length: `Some(None)` for `*`. */
  function Complete(value: string): Option<Option<nat>> {
    if Trim(value) == "*" then Some(None)
    else match Number(Trim(value)) case Some(n) => Some(Some(n)) case None => None
  }

  function FromStr(value: string): Result<ContentRange, Invalid> {
    match ByteRange(value)
    case None => Err(InvalidContentRange)
    case Some(range) =>
      match SplitOnce(range, '/')
      case None => Err(InvalidContentRange)
      case Some((span, after)) =>
        match SplitOnce(span, '-')
        case None => Err(InvalidContentRange)
        case Some((before, behind)) =>
          var first, last, complete := Number(before), Number(behind), Complete(after);
          if first.None? || last.None? || complete.None? then Err(InvalidContentRange)
          else if first.value > last.value || (complete.value.Some? && last.value >= complete.value.value)
            then Err(InvalidContentRange)
          else Ok(ContentRange(first.value, last.value, complete.value))
  }

  /** A range that could not be satisfied has a star for its span, and only tells how long the resource is. */
  function UnsatisfiedComplete(value: string): Option<nat> {
    match ByteRange(value)
    case None => None
    case Some(range) =>
      match SplitOnce(range, '/')
      case None => None
      case Some((star, complete)) => if Trim(star) == "*" then Number(complete) else None
  }

  // ----- The grammar

  /** Digits that stand for `n`, with whitespace around them. */
  datatype Spelling = Spelling(before: string, digits: string, after: string) {
    function Text(): string { before + digits + after }

    predicate Of(n: nat) {
      AllSpace(before) && AllSpace(after) && digits != "" && AllDigits(digits) && NumberValue(digits) == n
    }

    predicate Star() { AllSpace(before) && AllSpace(after) && digits == "*" }
  }

  /** A header value: whitespace, the unit in any case, one ASCII space, and the three numbers. */
  datatype Parts = Parts(lead: string, unit: string, space: char, first: Spelling, last: Spelling, complete: Spelling) {
    function Body(): string { first.Text() + "-" + last.Text() + "/" + complete.Text() }

    function Text(): string { lead + (unit + [space] + Body()) }

    predicate Spell(r: ContentRange) {
      && AllSpace(lead) && EqIgnoreCase(unit, "bytes") && IsAsciiSpace(space)
      && first.Of(r.first) && last.Of(r.last)
      && (if r.complete.Some? then complete.Of(r.complete.value) else complete.Star())
    }
  }

  lemma DigitsAreClean(d: string)
    requires AllDigits(d)
    ensures StartsClean(d) && EndsClean(d) && '-' !in d && '/' !in d
  {
  }

  lemma NumberOf(x: Spelling, n: nat)
    requires x.Of(n)
    ensures Trim(x.Text()) == x.digits
    ensures n <= U64_MAX ==> Number(x.Text()) == Some(n)
  {
    DigitsAreClean(x.digits);
    TrimIs(x.before, x.digits, x.after);
  }

  lemma NumberSpelled(s: string) returns (x: Spelling)
    requires Number(s).Some?
    ensures x.Text() == s && x.Of(Number(s).value) && Number(s).value <= U64_MAX
  {
    var v, w := TrimSplits(s);
    x := Spelling(v, Trim(s), w);
  }

  lemma TrimTwice(s: string)
    ensures Trim(Trim(s)) == Trim(s)
  {
    var v, w := TrimSplits(s);
    TrimIs("", Trim(s), "");
    assert "" + Trim(s) + "" == Trim(s);
  }

  lemma CompleteSpelled(s: string) returns (x: Spelling)
    requires Complete(s).Some?
    ensures x.Text() == s
    ensures match Complete(s).value case Some(n) => x.Of(n) && n <= U64_MAX case None => x.Star()
  {
    var v, w := TrimSplits(s);
    TrimTwice(s);
    x := Spelling(v, Trim(s), w);
  }

  lemma CompleteOf(x: Spelling, complete: Option<nat>)
    requires if complete.Some? then x.Of(complete.value) && complete.value <= U64_MAX else x.Star()
    ensures Complete(x.Text()) == Some(complete)
  {
    if complete.Some? {
      NumberOf(x, complete.value);
      TrimTwice(x.Text());
    } else {
      TrimIs(x.before, "*", x.after);
    }
  }

  lemma FindAsciiSpaceIs(a: string, c: char, b: string)
    requires IsAsciiSpace(c) && forall i | 0 <= i < |a| :: !IsAsciiSpace(a[i])
    ensures FindAsciiSpace(a + [c] + b) == |a|
  {
    var s := a + [c] + b;
    assert s[|a|] == c;
    assert forall j | 0 <= j < |a| :: s[j] == a[j];
  }

  lemma UnitIsClean(unit: string)
    requires EqIgnoreCase(unit, "bytes")
    ensures unit != "" && !IsSpace(unit[0]) && forall i | 0 <= i < |unit| :: !IsAsciiSpace(unit[i])
  {
    forall i | 0 <= i < |unit| ensures !IsSpace(unit[i]) && !IsAsciiSpace(unit[i]) {
      assert Lower(unit[i]) == "bytes"[i];
    }
  }

  /** Neither separator occurs in a spelled number. */
  lemma SpellingIsPlain(x: Spelling, n: nat)
    requires x.Of(n)
    ensures '-' !in x.Text() && '/' !in x.Text()
  {
    DigitsAreClean(x.digits);
  }

  lemma UnitParses(lead: string, unit: string, space: char, body: string, trail: string)
    requires AllSpace(lead) && EqIgnoreCase(unit, "bytes") && IsAsciiSpace(space) && AllSpace(trail)
    requires body != "" && EndsClean(body)
    ensures ByteRange(lead + (unit + [space] + body) + trail) == Some(body)
  {
    var core := unit + [space] + body;
    UnitIsClean(unit);
    assert core[0] == unit[0] && core[|core| - 1] == body[|body| - 1];
    TrimIs(lead, core, trail);
    FindAsciiSpaceIs(unit, space, body);
    assert core[..|unit|] == unit && core[|unit| + 1..] == body;
  }

  lemma BodyParses(first: Spelling, last: Spelling, complete: Spelling, r: ContentRange)
    requires Valid(r) && first.Of(r.first) && last.Of(r.last)
    requires if r.complete.Some? then complete.Of(r.complete.value) else complete.Star()
    ensures var body := first.Text() + "-" + last.Text() + "/" + complete.Text();
            && SplitOnce(body, '/') == Some((first.Text() + "-" + last.Text(), complete.Text()))
            && SplitOnce(first.Text() + "-" + last.Text(), '-') == Some((first.Text(), last.Text()))
            && Number(first.Text()) == Some(r.first) && Number(last.Text()) == Some(r.last)
            && Complete(complete.Text()) == Some(r.complete)
  {
    SpellingIsPlain(first, r.first);
    SpellingIsPlain(last, r.last);
    var span := first.Text() + "-" + last.Text();
    assert first.Text() + "-" + last.Text() + "/" + complete.Text() == span + ['/'] + complete.Text();
    SplitOnceIs(span, '/', complete.Text());
    assert span == first.Text() + ['-'] + last.Text();
    SplitOnceIs(first.Text(), '-', last.Text());
    NumberOf(first, r.first);
    NumberOf(last, r.last);
    CompleteOf(complete, r.complete);
  }

  /** Everything the grammar allows parses to what it spells. */
  lemma PartsParse(p: Parts, r: ContentRange)
    requires p.Spell(r) && Valid(r)
    ensures FromStr(p.Text()) == Ok(r)
  {
    var short := Spelling(p.complete.before, p.complete.digits, "");
    var body := p.first.Text() + "-" + p.last.Text() + "/" + short.Text();
    assert short.Text() == p.complete.before + p.complete.digits;
    BodyEnds(p, short, body);
    assert p.Text() == p.lead + (p.unit + [p.space] + body) + p.complete.after;
    UnitParses(p.lead, p.unit, p.space, body, p.complete.after);
    BodyParses(p.first, p.last, short, r);
  }

  lemma BodyEnds(p: Parts, short: Spelling, body: string)
    requires p.complete.digits != "" && EndsClean(p.complete.digits)
    requires short.Text() == p.complete.before + p.complete.digits
    requires body == p.first.Text() + "-" + p.last.Text() + "/" + short.Text()
    ensures body != "" && EndsClean(body)
  {
    assert body[|body| - 1] == p.complete.digits[|p.complete.digits| - 1];
  }

  lemma UnitSplits(s: string) returns (lead: string, unit: string, space: char, trail: string)
    requires ByteRange(s).Some?
    ensures AllSpace(lead) && AllSpace(trail) && EqIgnoreCase(unit, "bytes") && IsAsciiSpace(space)
    ensures s == lead + (unit + [space] + ByteRange(s).value) + trail
  {
    lead, trail := TrimSplits(s);
    var trimmed := Trim(s);
    var i := FindAsciiSpace(trimmed);
    unit, space := trimmed[..i], trimmed[i];
    assert trimmed == unit + [space] + trimmed[i + 1..];
  }

  lemma BodySplits(body: string) returns (first: string, last: string, complete: string)
    requires SplitOnce(body, '/').Some? && SplitOnce(SplitOnce(body, '/').value.0, '-').Some?
    ensures (first, last) == SplitOnce(SplitOnce(body, '/').value.0, '-').value
    ensures complete == SplitOnce(body, '/').value.1
    ensures body == first + "-" + last + "/" + complete
  {
    var (span, after) := SplitOnce(body, '/').value;
    SplitOnceSplits(body, '/');
    SplitOnceSplits(span, '-');
    first, last := SplitOnce(span, '-').value.0, SplitOnce(span, '-').value.1;
    complete := after;
  }

  lemma Longer(x: Spelling, w: string) returns (y: Spelling)
    requires AllSpace(w)
    ensures y.Text() == x.Text() + w
    ensures forall n | x.Of(n) :: y.Of(n)
    ensures x.Star() ==> y.Star()
  {
    y := Spelling(x.before, x.digits, x.after + w);
  }

  lemma Assemble(lead: string, unit: string, space: char, a: string, b: string, c: string, w: string)
    ensures lead + (unit + [space] + (a + "-" + b + "/" + c)) + w ==
            lead + (unit + [space] + (a + "-" + b + "/" + (c + w)))
  {
    assert (a + "-" + b + "/" + c) + w == a + "-" + b + "/" + (c + w);
    assert (unit + [space] + (a + "-" + b + "/" + c)) + w == unit + [space] + (a + "-" + b + "/" + (c + w));
  }

  /** What was parsed is valid and spelled by the grammar. */
  lemma ParsedIsSpelled(s: string, r: ContentRange) returns (p: Parts)
    requires FromStr(s) == Ok(r)
    ensures p.Text() == s && p.Spell(r) && Valid(r)
  {
    var lead, unit, space, trail := UnitSplits(s);
    var before, behind, after := BodySplits(ByteRange(s).value);
    var first := NumberSpelled(before);
    var last := NumberSpelled(behind);
    var complete := CompleteSpelled(after);
    var long := Longer(complete, trail);
    p := Parts(lead, unit, space, first, last, long);
    Assemble(lead, unit, space, before, behind, after, trail);
  }

  /** The parser accepts exactly the valid ranges the grammar spells. */
  lemma ParsesIffSpelled(s: string, r: ContentRange)
    ensures FromStr(s) == Ok(r) <==> Valid(r) && exists p: Parts :: p.Text() == s && p.Spell(r)
  {
    if FromStr(s) == Ok(r) {
      var p := ParsedIsSpelled(s, r);
    }
    if Valid(r) && exists p: Parts :: p.Text() == s && p.Spell(r) {
      var p: Parts :| p.Text() == s && p.Spell(r);
      PartsParse(p, r);
    }
  }

  lemma PrintIsSpelled(r: ContentRange) returns (p: Parts)
    ensures p.Text() == Print(r) && p.Spell(r)
  {
    DecimalReads(r.first);
    DecimalReads(r.last);
    if r.complete.Some? {
      DecimalReads(r.complete.value);
    }
    var a, b, c := Bare(Decimal(r.first)), Bare(Decimal(r.last)), Bare(PrintComplete(r.complete));
    p := Parts("", "bytes", ' ', a, b, c);
    PrintedText(a.digits, b.digits, c.digits);
  }

  function Bare(digits: string): (x: Spelling)
    ensures x.Text() == digits
  {
    Spelling("", digits, "")
  }

  lemma PrintedText(a: string, b: string, c: string)
    ensures "" + ("bytes" + [' '] + (a + "-" + b + "/" + c)) == "bytes " + a + "-" + b + "/" + c
  {
    assert "bytes" + [' '] == "bytes ";
    assert "bytes " + (a + "-" + b + "/" + c) == "bytes " + a + "-" + b + "/" + c;
  }

  /** The printed form of a range parses back to it exactly when the range is valid. */
  lemma RoundTripIffValid(r: ContentRange)
    ensures FromStr(Print(r)) == Ok(r) <==> Valid(r)
  {
    var p := PrintIsSpelled(r);
    if Valid(r) {
      PartsParse(p, r);
    }
    if FromStr(Print(r)) == Ok(r) {
      var q := ParsedIsSpelled(Print(r), r);
    }
  }

  lemma StarHasNoDash(star: string)
    requires Trim(star) == "*"
    ensures SplitOnce(star, '-').None?
  {
    var v, w := TrimSplits(star);
    assert star == v + "*" + w;
    assert '-' !in star;
    FindNone(star, '-');
  }

  /** Nothing is read both as an unsatisfied and as a satisfied range. */
  lemma NeverBoth(s: string)
    ensures UnsatisfiedComplete(s).Some? ==> FromStr(s).Err?
  {
    if UnsatisfiedComplete(s).Some? {
      StarHasNoDash(SplitOnce(ByteRange(s).value, '/').value.0);
    }
  }

  /** The length of an unsatisfied range is read back, whatever whitespace surrounds it and however it is spelled. */
  lemma UnsatisfiedIsRead(p: Parts, star: Spelling, complete: nat)
    requires AllSpace(p.lead) && EqIgnoreCase(p.unit, "bytes") && IsAsciiSpace(p.space)
    requires star.Star() && p.complete.Of(complete) && complete <= U64_MAX
    ensures UnsatisfiedComplete(p.lead + (p.unit + [p.space] + (star.Text() + "/" + p.complete.Text()))) ==
            Some(complete)
  {
    var short := Spelling(p.complete.before, p.complete.digits, "");
    var body := star.Text() + "/" + short.Text();
    var s := p.lead + (p.unit + [p.space] + (star.Text() + "/" + p.complete.Text()));
    DigitsAreClean(p.complete.digits);
    assert short.Text() == p.complete.before + p.complete.digits;
    assert body[|body| - 1] == p.complete.digits[|p.complete.digits| - 1];
    UnsatisfiedText(p, star, short, s);
    UnitParses(p.lead, p.unit, p.space, body, p.complete.after);
    StarSplits(star, short.Text());
    NumberOf(short, complete);
  }

  lemma UnsatisfiedText(p: Parts, star: Spelling, short: Spelling, s: string)
    requires short.Text() == p.complete.before + p.complete.digits
    requires s == p.lead + (p.unit + [p.space] + (star.Text() + "/" + p.complete.Text()))
    ensures s == p.lead + (p.unit + [p.space] + (star.Text() + "/" + short.Text())) + p.complete.after
  {
    assert p.complete.Text() == short.Text() + p.complete.after;
  }

  lemma StarSplits(star: Spelling, rest: string)
    requires star.Star()
    ensures SplitOnce(star.Text() + "/" + rest, '/') == Some((star.Text(), rest)) && Trim(star.Text()) == "*"
  {
    TrimIs(star.before, "*", star.after);
    assert '/' !in star.Text();
    assert star.Text() + "/" + rest == star.Text() + ['/'] + rest;
    SplitOnceIs(star.Text(), '/', rest);
  }

  /** The text of an unsatisfied range: the unit, a star for the span, and the length. */
  ghost predicate SpellsUnsatisfied(p: Parts, star: Spelling, complete: nat, s: string) {
    && AllSpace(p.lead) && EqIgnoreCase(p.unit, "bytes") && IsAsciiSpace(p.space)
    && star.Star() && p.complete.Of(complete) && complete <= U64_MAX
    && s == p.lead + (p.unit + [p.space] + (star.Text() + "/" + p.complete.Text()))
  }

  /** A length is read from exactly the spellings of an unsatisfied range. */
  lemma UnsatisfiedIff(s: string, complete: nat)
    ensures UnsatisfiedComplete(s) == Some(complete) <==> exists p, star :: SpellsUnsatisfied(p, star, complete, s)
  {
    if UnsatisfiedComplete(s) == Some(complete) {
      var p, star := UnsatisfiedSpelled(s, complete);
    }
    if p, star :| SpellsUnsatisfied(p, star, complete, s) {
      UnsatisfiedIsRead(p, star, complete);
    }
  }

  lemma UnsatisfiedSpelled(s: string, n: nat) returns (p: Parts, star: Spelling)
    requires UnsatisfiedComplete(s) == Some(n)
    ensures SpellsUnsatisfied(p, star, n, s)
  {
    var lead, unit, space, trail := UnitSplits(s);
    var (before, after) := SplitOnce(ByteRange(s).value, '/').value;
    SplitOnceSplits(ByteRange(s).value, '/');
    var v, w := TrimSplits(before);
    star := Spelling(v, "*", w);
    var short := NumberSpelled(after);
    var long := Longer(short, trail);
    p := Parts(lead, unit, space, star, star, long);
    AssembleUnsatisfied(lead, unit, space, before, after, trail);
  }

  lemma AssembleUnsatisfied(lead: string, unit: string, space: char, a: string, b: string, w: string)
    ensures lead + (unit + [space] + (a + ['/'] + b)) + w == lead + (unit + [space] + (a + "/" + (b + w)))
  {
    assert (a + ['/'] + b) + w == a + "/" + (b + w);
    assert (unit + [space] + (a + ['/'] + b)) + w == unit + [space] + (a + "/" + (b + w));
  }
}
