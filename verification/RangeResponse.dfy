/**
 A partial response: the check that its headers carry the requested range, and the body held to
 exactly the bytes of that range.
 */
module RangeResponse {
  import opened Wrappers
  import opened Numbers
  import opened ContentRange

  type Octet = bv8

  // ----- The headers

  /** The headers the check reads: `multipart` and `coded` tell whether the body is either. */
  datatype Headers = Headers(contentRange: Option<string>, multipart: bool, coded: bool)

  datatype PartialError = RangeMismatch(got: Option<ContentRange>) | RangeContentCoded

  function CheckPartial(headers: Headers, start: nat, end: nat, expectedTotal: Option<nat>)
    : Result<ContentRange, PartialError>
  {
    var got := match headers.contentRange
               case Some(value) => (match FromStr(value) case Ok(r) => Some(r) case Err(_) => None)
               case None => None;
    if && got.Some? && !headers.multipart
       && got.value.first == start && got.value.last < end
       && (got.value.complete.Some? && expectedTotal.Some? ==> got.value.complete == expectedTotal)
    then if headers.coded then Err(RangeContentCoded) else Ok(got.value)
    else Err(RangeMismatch(got))
  }

  /** The header's value, in some spelling, is this range. */
  ghost predicate Names(headers: Headers, got: ContentRange) {
    && headers.contentRange.Some? && Valid(got)
    && exists p: Parts :: p.Text() == headers.contentRange.value && p.Spell(got)
  }

  lemma NamesIffParsed(headers: Headers, got: ContentRange)
    ensures Names(headers, got) <==> headers.contentRange.Some? && FromStr(headers.contentRange.value) == Ok(got)
  {
    if headers.contentRange.Some? {
      ParsesIffSpelled(headers.contentRange.value, got);
    }
  }

  /** The range was asked for: it starts at the request, ends within it, and is of the same resource. */
  ghost predicate Answers(got: ContentRange, start: nat, end: nat, expectedTotal: Option<nat>) {
    && got.first == start && got.first <= got.last < end
    && (got.complete.None? || expectedTotal.None? || got.complete.value == expectedTotal.value)
  }

  /** A response passes exactly if its header names a range that was asked for and its body is that range as it is. */
  lemma PassesIff(headers: Headers, start: nat, end: nat, expectedTotal: Option<nat>, got: ContentRange)
    ensures CheckPartial(headers, start, end, expectedTotal) == Ok(got) <==>
            Names(headers, got) && Answers(got, start, end, expectedTotal) && !headers.multipart && !headers.coded
  {
    NamesIffParsed(headers, got);
  }

  /** Only a response that would pass is refused for its coding; any other refusal tells the range, if there is one. */
  lemma RefusedExactly(headers: Headers, start: nat, end: nat, expectedTotal: Option<nat>)
    ensures CheckPartial(headers, start, end, expectedTotal) == Err(RangeContentCoded) <==>
            && headers.coded && !headers.multipart
            && exists got :: Names(headers, got) && Answers(got, start, end, expectedTotal)
    ensures forall got ::
              CheckPartial(headers, start, end, expectedTotal) == Err(RangeMismatch(Some(got))) <==>
              Names(headers, got) && (headers.multipart || !Answers(got, start, end, expectedTotal))
    ensures CheckPartial(headers, start, end, expectedTotal) == Err(RangeMismatch(None)) <==>
            forall got :: !Names(headers, got)
  {
    forall got ensures Names(headers, got) <==>
                       headers.contentRange.Some? && FromStr(headers.contentRange.value) == Ok(got) {
      NamesIffParsed(headers, got);
    }
    forall got | headers.contentRange.Some? && FromStr(headers.contentRange.value) == Ok(got)
      ensures got.first <= got.last && Names(headers, got)
    {
      var p := ParsedIsSpelled(headers.contentRange.value, got);
    }
  }

  /** Both bounds are 64-bit numbers; nothing else is known of a range made by hand. */
  predicate Fits(r: ContentRange) { r.first <= U64_MAX && r.last <= U64_MAX }

  /** The byte count, in 64-bit arithmetic that wraps. */
  function Count(r: ContentRange): nat
    requires Fits(r)
  {
    (r.last - r.first + 1) % (U64_MAX + 1)
  }

  /** The difference of the bounds, and then the sum, are 64-bit numbers. */
  predicate CountsWithin(r: ContentRange) { 0 <= r.last - r.first <= U64_MAX && r.last - r.first + 1 <= U64_MAX }

  lemma SmallMod(x: nat, n: nat)
    requires x < n
    ensures x % n == x
  {
  }

  /**
   Counting stays within 64 bits exactly if the range is not reversed and is not the one of all 2^64 bytes. Wrapped,
   it is still right exactly for the bounds that cross by one.
   */
  lemma CountsWithinIff(r: ContentRange)
    requires Fits(r)
    ensures CountsWithin(r) <==> r.first <= r.last && !(r.first == 0 && r.last == U64_MAX)
    ensures Count(r) == r.last - r.first + 1 <==> CountsWithin(r) || r.first == r.last + 1
  {
    if CountsWithin(r) {
      SmallMod(r.last - r.first + 1, U64_MAX + 1);
    }
  }

  /** Of the ranges that the parser returns, counting leaves 64 bits for one pair of bounds only. */
  lemma ParsedCountsWithinIff(value: string, got: ContentRange)
    requires FromStr(value) == Ok(got)
    ensures Fits(got) && (CountsWithin(got) <==> (got.first, got.last) != (0, U64_MAX))
  {
    var p := ParsedIsSpelled(value, got);
    CountsWithinIff(got);
  }

  /** A range that passes starts where it was requested, has at least one byte and ends within the request. */
  lemma PassedFits(headers: Headers, start: nat, end: nat, expectedTotal: Option<nat>, got: ContentRange)
    requires end <= U64_MAX && CheckPartial(headers, start, end, expectedTotal) == Ok(got)
    ensures Valid(got) && got.first == start && CountsWithin(got)
    ensures 1 <= Count(got) == got.last - got.first + 1 <= end - start
    ensures got.complete.Some? && expectedTotal.Some? ==> got.last < expectedTotal.value
  {
    var p := ParsedIsSpelled(headers.contentRange.value, got);
    CountsWithinIff(got);
  }

  // ----- The body

  datatype Item = Chunk(bytes: seq<Octet>) | Fail(error: nat) | TooLong | TooShort(received: nat)

  /** A body that broke its range is not `open` any more. */
  datatype Body = Body(open: bool, remaining: nat)

  function PollBody(b: Body, count: nat, inner: Option<Item>): (Body, Option<Item>)
    requires b.remaining <= count
  {
    if !b.open then (b, None)
    else match inner
      case Some(Chunk(bytes)) =>
        if |bytes| <= b.remaining then (b.(remaining := b.remaining - |bytes|), inner)
        else (b.(open := false), Some(TooLong))
      case None => if b.remaining > 0 then (b.(open := false), Some(TooShort(count - b.remaining))) else (b, None)
      case _ => (b, inner)
  }

  class RangeBody {
    const got: ContentRange
    var open: bool
    var remaining: nat

    ghost predicate Valid()
      reads this
    {
      Fits(got) && remaining <= Count(got)
    }

    function View(): Body
      reads this
    {
      Body(open, remaining)
    }

    constructor (got: ContentRange)
      requires Fits(got)
      ensures this.got == got && Valid() && View() == Body(true, Count(got))
    {
      this.got := got;
      open, remaining := true, Count(got);
    }

    /** `inner` is what the wrapped stream returned, `None` at its end. */
    method PollNext(inner: Option<Item>) returns (item: Option<Item>)
      requires Valid()
      modifies this
      ensures Valid() && (View(), item) == PollBody(old(View()), Count(got), inner)
    {
      if !open {
        return None;
      }
      match inner {
        case Some(Chunk(bytes)) =>
          if remaining < |bytes| {
            open := false;
            return Some(TooLong);
          }
          remaining := remaining - |bytes|;
        case None =>
          if remaining > 0 {
            open := false;
            return Some(TooShort(Count(got) - remaining));
          }
        case _ =>
      }
      return inner;
    }
  }

  /** Everything the body yields until it ends, its stream yielding `inner` and then ending. */
  function Outputs(b: Body, count: nat, inner: seq<Item>): seq<Item>
    requires b.remaining <= count
    decreases |inner|
  {
    if !b.open then []
    else if inner == [] then
      (match PollBody(b, count, None).1 case Some(item) => [item] case None => [])
    else
      var (after, item) := PollBody(b, count, Some(inner[0]));
      (match item case Some(i) => [i] case None => []) + Outputs(after, count, inner[1..])
  }

  /** What a client's stream may yield. */
  predicate Raw(items: seq<Item>) { forall i | 0 <= i < |items| :: items[i].Chunk? || items[i].Fail? }

  function BytesOf(items: seq<Item>): seq<Octet> {
    if items == [] then []
    else BytesOf(items[..|items| - 1]) + (if items[|items| - 1].Chunk? then items[|items| - 1].bytes else [])
  }

  lemma {:induction false} BytesOfConcat(a: seq<Item>, b: seq<Item>)
    ensures BytesOf(a + b) == BytesOf(a) + BytesOf(b)
  {
    if b == [] {
      assert a + b == a;
    } else {
      assert (a + b)[..|a + b| - 1] == a + b[..|b| - 1];
      BytesOfConcat(a, b[..|b| - 1]);
    }
  }

  lemma BytesOfFirst(items: seq<Item>)
    requires items != []
    ensures BytesOf(items) == (if items[0].Chunk? then items[0].bytes else []) + BytesOf(items[1..])
  {
    assert items == [items[0]] + items[1..];
    assert [items[0]][..0] == [];
    BytesOfConcat([items[0]], items[1..]);
  }

  /** The items up to the first chunk that crosses the count. */
  function Kept(inner: seq<Item>, remaining: nat): seq<Item> {
    if inner == [] || (inner[0].Chunk? && |inner[0].bytes| > remaining) then []
    else [inner[0]] + Kept(inner[1..], if inner[0].Chunk? then remaining - |inner[0].bytes| else remaining)
  }

  lemma {:induction false} KeptFits(inner: seq<Item>, remaining: nat)
    ensures Kept(inner, remaining) <= inner
    ensures |BytesOf(Kept(inner, remaining))| <= remaining
    ensures |BytesOf(inner)| <= remaining ==> Kept(inner, remaining) == inner
    decreases |inner|
  {
    if inner != [] {
      BytesOfFirst(inner);
      var kept := Kept(inner, remaining);
      if kept != [] {
        KeptFits(inner[1..], if inner[0].Chunk? then remaining - |inner[0].bytes| else remaining);
        BytesOfFirst(kept);
        assert kept[1..] == Kept(inner[1..], if inner[0].Chunk? then remaining - |inner[0].bytes| else remaining);
        assert inner == [inner[0]] + inner[1..];
      }
    }
  }

  lemma OutputsFirst(b: Body, count: nat, inner: seq<Item>)
    requires b.open && b.remaining <= count && inner != [] && Raw(inner)
    ensures inner[0].Chunk? && |inner[0].bytes| > b.remaining ==> Outputs(b, count, inner) == [TooLong]
    ensures !(inner[0].Chunk? && |inner[0].bytes| > b.remaining) ==>
              var left := if inner[0].Chunk? then b.remaining - |inner[0].bytes| else b.remaining;
              Outputs(b, count, inner) == [inner[0]] + Outputs(Body(true, left), count, inner[1..])
  {
  }

  /** What the body yields: its stream if that is as long as the range, else the kept items or all, and an error. */
  function Expected(inner: seq<Item>, remaining: nat, count: nat): seq<Item>
    requires remaining <= count
  {
    var total := |BytesOf(inner)|;
    if total > remaining then Kept(inner, remaining) + [TooLong]
    else if total < remaining then inner + [TooShort(count - remaining + total)]
    else inner
  }

  lemma {:induction false} OutputsExact(b: Body, count: nat, inner: seq<Item>)
    requires b.open && b.remaining <= count && Raw(inner)
    ensures Outputs(b, count, inner) == Expected(inner, b.remaining, count)
    decreases |inner|
  {
    if inner != [] {
      BytesOfFirst(inner);
      OutputsFirst(b, count, inner);
      if !(inner[0].Chunk? && |inner[0].bytes| > b.remaining) {
        var left := if inner[0].Chunk? then b.remaining - |inner[0].bytes| else b.remaining;
        OutputsExact(Body(true, left), count, inner[1..]);
        assert inner == [inner[0]] + inner[1..];
      }
    }
  }

  predicate Checked(items: seq<Item>) { forall i | 0 <= i < |items| :: !items[i].TooLong? && !items[i].TooShort? }

  lemma BytesOfPrefix(a: seq<Item>, all: seq<Item>)
    requires a <= all
    ensures BytesOf(a) <= BytesOf(all)
  {
    BytesOfConcat(a, all[|a|..]);
    assert a + all[|a|..] == all;
  }

  lemma ErrorAtEnd(items: seq<Item>, error: Item)
    requires error.TooLong? || error.TooShort?
    ensures BytesOf(items + [error]) == BytesOf(items) && !Checked(items + [error])
  {
    BytesOfConcat(items, [error]);
    assert [error][..0] == [];
    assert (items + [error])[|items|] == error;
  }

  /**
   A limited body forwards a prefix of its stream, never more than the count, and passes exactly when it has that
   length.
   */
  lemma BodyIsExact(got: ContentRange, inner: seq<Item>)
    requires Fits(got) && Raw(inner)
    ensures var outputs := Outputs(Body(true, Count(got)), Count(got), inner);
            && BytesOf(outputs) <= BytesOf(inner)
            && |BytesOf(outputs)| <= Count(got)
            && (Checked(outputs) <==> |BytesOf(inner)| == Count(got))
            && (Checked(outputs) ==> outputs == inner)
  {
    var count := Count(got);
    OutputsExact(Body(true, count), count, inner);
    KeptFits(inner, count);
    if |BytesOf(inner)| > count {
      BytesOfPrefix(Kept(inner, count), inner);
      ErrorAtEnd(Kept(inner, count), TooLong);
    } else if |BytesOf(inner)| < count {
      ErrorAtEnd(inner, TooShort(|BytesOf(inner)|));
    }
  }
}
