/**
 What the `Content-Disposition` parser accepts: exactly the texts that its grammar spells, with any
 whitespace and any escapes, and which error every other text is.
 */
module DispositionGrammar {
  import opened Wrappers
  import opened Text
  import opened ContentDisposition
  import opened DispositionLaws
  import opened DispositionExact
  import Ext = ExtendedValue

  // ----- Texts around a separator

  /** The text before the first `c` and the text after it, without the whitespace between them and `c`. */
  ghost predicate Cuts(s: string, c: char, front: string, back: string) {
    && EndsClean(front) && StartsClean(back)
    && ((exists w :: AllSpace(w) && c !in front + w && s == front + w && back == "")
        || (exists w, v :: AllSpace(w) && AllSpace(v) && c !in front + w && s == front + w + [c] + (v + back)))
  }

  lemma CutsIff(s: string, c: char, front: string, back: string)
    ensures SplitAndTrim(s, c) == (front, back) <==> Cuts(s, c, front, back)
  {
    if SplitAndTrim(s, c) == (front, back) {
      SplitCuts(s, c);
    }
    if Cuts(s, c, front, back) {
      if w :| AllSpace(w) && c !in front + w && s == front + w && back == "" {
        SplitOrEndNone(s, c);
        TrimEndIs(front, w);
      } else {
        var w, v :| AllSpace(w) && AllSpace(v) && c !in front + w && s == front + w + [c] + (v + back);
        SplitOrEndIs(front + w, c, v + back);
        TrimEndIs(front, w);
        TrimStartIs(v, back);
      }
    }
  }

  lemma SplitCuts(s: string, c: char)
    ensures Cuts(s, c, SplitAndTrim(s, c).0, SplitAndTrim(s, c).1)
  {
    var (first, last) := SplitOrEnd(s, c);
    var w := TrimEndSplits(first);
    var v := TrimStartSplits(last);
    if SplitOnce(s, c).Some? {
      SplitOnceSplits(s, c);
      assert s == TrimEnd(first) + w + [c] + (v + TrimStart(last));
    }
  }

  /** What is left after a separator; the text before it is skipped. */
  ghost predicate Skips(s: string, next: string) {
    && StartsClean(next)
    && ((';' !in s && next == "")
        || exists junk, v :: ';' !in junk && AllSpace(v) && s == junk + [';'] + (v + next))
  }

  lemma SkipsIff(s: string, next: string)
    ensures TrimStart(SplitOrEnd(s, ';').1) == next <==> Skips(s, next)
  {
    var (junk, last) := SplitOrEnd(s, ';');
    var v := TrimStartSplits(last);
    if SplitOnce(s, ';').Some? {
      SplitOnceSplits(s, ';');
      assert s == junk + [';'] + (v + TrimStart(last));
    }
    if Skips(s, next) {
      if junk, v :| ';' !in junk && AllSpace(v) && s == junk + [';'] + (v + next) {
        SplitOrEndIs(junk, ';', v + next);
        TrimStartIs(v, next);
      } else {
        SplitOrEndNone(s, ';');
      }
    }
  }

  // ----- Quoted strings

  /** A character of a quoted string: as it is, or after a backslash. */
  datatype Piece = Bare(c: char) | Slashed(c: char) {
    predicate Ok() { Bare? ==> c != '"' && c != '\\' }

    function Chars(): string { if Bare? then [c] else ['\\', c] }
  }

  ghost predicate AllOk(pieces: seq<Piece>) { forall i | 0 <= i < |pieces| :: pieces[i].Ok() }

  function Spelled(pieces: seq<Piece>): string {
    if pieces == [] then "" else pieces[0].Chars() + Spelled(pieces[1..])
  }

  function Said(pieces: seq<Piece>): string {
    if pieces == [] then "" else [pieces[0].c] + Said(pieces[1..])
  }

  lemma UnquoteChar(c: char, more: string, escaping: bool)
    requires escaping || c != '"'
    requires Unquote(more, !escaping && c == '\\').Some?
    ensures var (value, end) := Unquote(more, !escaping && c == '\\').value;
            Unquote([c] + more, escaping) == Some((if !escaping && c == '\\' then value else [c] + value, end + 1))
  {
    assert ([c] + more)[1..] == more;
  }

  lemma SlashFirst(c: char, more: string)
    ensures ['\\', c] + more == ['\\'] + ([c] + more)
  {
  }

  lemma PieceUnquotes(piece: Piece, more: string)
    requires piece.Ok() && Unquote(more, false).Some?
    ensures var (value, end) := Unquote(more, false).value;
            Unquote(piece.Chars() + more, false) == Some(([piece.c] + value, |piece.Chars()| + end))
  {
    if piece.Slashed? {
      SlashFirst(piece.c, more);
      UnquoteChar(piece.c, more, true);
      UnquoteChar('\\', [piece.c] + more, false);
    } else {
      UnquoteChar(piece.c, more, false);
    }
  }

  lemma FirstSpelled(pieces: seq<Piece>, tail: string)
    requires pieces != []
    ensures Spelled(pieces) + tail == pieces[0].Chars() + (Spelled(pieces[1..]) + tail)
    ensures |Spelled(pieces)| == |pieces[0].Chars()| + |Spelled(pieces[1..])|
  {
    var first, more := pieces[0].Chars(), Spelled(pieces[1..]);
    assert Spelled(pieces) == first + more;
    assert first + more + tail == first + (more + tail);
  }

  lemma {:induction false} SpelledUnquotes(pieces: seq<Piece>, rest: string)
    requires AllOk(pieces)
    ensures Unquote(Spelled(pieces) + (['"'] + rest), false) == Some((Said(pieces), |Spelled(pieces)|))
  {
    if pieces != [] {
      SpelledUnquotes(pieces[1..], rest);
      PieceUnquotes(pieces[0], Spelled(pieces[1..]) + (['"'] + rest));
      FirstSpelled(pieces, ['"'] + rest);
    }
  }

  lemma {:induction false} SpellingOf(s: string) returns (pieces: seq<Piece>, rest: string)
    requires Unquote(s, false).Some?
    ensures AllOk(pieces) && s == Spelled(pieces) + (['"'] + rest)
    decreases |s|
  {
    if s[0] == '"' {
      pieces, rest := [], s[1..];
    } else {
      var piece := if s[0] == '\\' then Slashed(s[1]) else Bare(s[0]);
      var more;
      more, rest := SpellingOf(s[|piece.Chars()|..]);
      pieces := [piece] + more;
      assert s == piece.Chars() + s[|piece.Chars()|..];
      assert s == piece.Chars() + Spelled(more) + (['"'] + rest);
    }
  }

  /** The text is read as a quoted string exactly if pieces spell it up to a closing quote. */
  lemma UnquoteIff(s: string, v: string, end: nat)
    ensures Unquote(s, false) == Some((v, end)) <==>
            exists pieces, rest ::
              AllOk(pieces) && s == Spelled(pieces) + (['"'] + rest) && v == Said(pieces) && end == |Spelled(pieces)|
  {
    if Unquote(s, false) == Some((v, end)) {
      var pieces, rest := SpellingOf(s);
      SpelledUnquotes(pieces, rest);
    }
    if pieces, rest :|
      AllOk(pieces) && s == Spelled(pieces) + (['"'] + rest) && v == Said(pieces) && end == |Spelled(pieces)| {
      SpelledUnquotes(pieces, rest);
    }
  }

  /** Quotes, backslashes and control characters, but for those from the tab to U+000F. */
  predicate Special(c: char) {
    c == '"' || c == '\\' || ((c < ' ' || c == '\U{007F}') && !('\t' <= c <= '\U{000F}'))
  }

  /** The printer puts a backslash before the special characters and before no other. */
  lemma {:induction false} EscapeSpells(v: string, pieces: seq<Piece>)
    requires |pieces| == |v|
    requires forall i | 0 <= i < |v| :: pieces[i] == if Special(v[i]) then Slashed(v[i]) else Bare(v[i])
    ensures AllOk(pieces) && Said(pieces) == v && Escape(v) == Spelled(pieces)
  {
    if v != "" {
      EscapeSpells(v[1..], pieces[1..]);
      assert v == [v[0]] + v[1..];
    }
  }

  // ----- Values and parameters

  /** A quoted string and whatever precedes the next separator, or a token. */
  ghost predicate ValueReads(s: string, v: string, next: string) {
    || (exists pieces, more ::
          AllOk(pieces) && s == ['"'] + Spelled(pieces) + (['"'] + more) && v == Said(pieces) && Skips(more, next))
    || (s != "" && s[0] != '"' && v != "" && Cuts(s, ';', v, next))
  }

  lemma QuotedLeaves(s: string, v: string, end: nat, more: string)
    requires s != "" && s[0] == '"' && Unquote(s[1..], false) == Some((v, end))
    requires end + 2 <= |s| && s[end + 2..] == more
    ensures RegularValue(s) == Some((v, TrimStart(SplitOrEnd(more, ';').1)))
  {
  }

  lemma BetweenQuotes(a: string, b: string)
    ensures var s := ['"'] + a + (['"'] + b);
            |s| == |a| + |b| + 2 && s[0] == '"' && s[1..] == a + (['"'] + b) && s[|a| + 2..] == b
  {
  }

  lemma QuotedReads(pieces: seq<Piece>, more: string, next: string)
    requires AllOk(pieces) && Skips(more, next)
    ensures RegularValue(['"'] + Spelled(pieces) + (['"'] + more)) == Some((Said(pieces), next))
  {
    var s := ['"'] + Spelled(pieces) + (['"'] + more);
    SpelledUnquotes(pieces, more);
    BetweenQuotes(Spelled(pieces), more);
    QuotedLeaves(s, Said(pieces), |Spelled(pieces)|, more);
    SkipsIff(more, next);
  }

  lemma QuotedSpells(s: string) returns (pieces: seq<Piece>, more: string)
    requires s != "" && s[0] == '"' && RegularValue(s).Some?
    ensures AllOk(pieces) && s == ['"'] + Spelled(pieces) + (['"'] + more)
    ensures RegularValue(s).value.0 == Said(pieces) && Skips(more, RegularValue(s).value.1)
  {
    pieces, more := SpellingOf(s[1..]);
    SpelledUnquotes(pieces, more);
    assert s == ['"'] + Spelled(pieces) + (['"'] + more);
    assert s[|Spelled(pieces)| + 2..] == more;
    SkipsIff(more, RegularValue(s).value.1);
  }

  /** A value is read exactly as the grammar spells it. */
  lemma ValueReadsIff(s: string, v: string, next: string)
    requires s != ""
    ensures RegularValue(s) == Some((v, next)) <==> ValueReads(s, v, next)
  {
    if s[0] != '"' {
      CutsIff(s, ';', v, next);
    }
    if RegularValue(s) == Some((v, next)) && s[0] == '"' {
      var pieces, more := QuotedSpells(s);
    }
    if pieces, more :|
      AllOk(pieces) && s == ['"'] + Spelled(pieces) + (['"'] + more) && v == Said(pieces) && Skips(more, next) {
      QuotedReads(pieces, more, next);
    }
  }

  /** The parameter starts with `name`, and `rest` follows its equals sign. */
  ghost predicate Named(left: string, name: string, rest: string) {
    Cuts(left, '=', name, rest) && name != "" && name != "*" && rest != ""
  }

  predicate Starred(name: string) { name != "" && name[|name| - 1] == '*' }

  /** The value of the parameter `name`: an extended one, up to a separator, if the name ends with a star. */
  ghost predicate ParamNamed(name: string, rest: string, p: Param, next: string, isTag: string -> bool)
    requires name != ""
  {
    if Starred(name)
    then exists text, v ::
           Cuts(rest, ';', text, next) && Ext.Parse(text, isTag) == Ok(v) && p == ExtendedParam(name[..|name| - 1], v)
    else exists v :: ValueReads(rest, v, next) && p == RegularParam(name, v)
  }

  ghost predicate ParamReads(left: string, p: Param, next: string, isTag: string -> bool) {
    exists name, rest :: Named(left, name, rest) && ParamNamed(name, rest, p, next, isTag)
  }

  lemma ParsesStarred(left: string, name: string, rest: string, text: string, next: string, isTag: string -> bool)
    requires SplitAndTrim(left, '=') == (name, rest) && name != "*" && rest != "" && Starred(name)
    requires SplitAndTrim(rest, ';') == (text, next)
    ensures ParseParam(left, isTag) ==
            match Ext.Parse(text, isTag)
            case Err(cause) => Err(InvalidExtended(cause))
            case Ok(v) => Ok((ExtendedParam(name[..|name| - 1], v), next))
  {
  }

  lemma StarredReads(name: string, rest: string, text: string, left: string, next: string, isTag: string -> bool)
    requires Named(left, name, rest) && Starred(name) && Cuts(rest, ';', text, next)
    ensures ParseParam(left, isTag) ==
            match Ext.Parse(text, isTag)
            case Err(cause) => Err(InvalidExtended(cause))
            case Ok(v) => Ok((ExtendedParam(name[..|name| - 1], v), next))
  {
    CutsIff(left, '=', name, rest);
    CutsIff(rest, ';', text, next);
    ParsesStarred(left, name, rest, text, next, isTag);
  }

  lemma ParsesRegular(left: string, name: string, rest: string, v: string, next: string, isTag: string -> bool)
    requires SplitAndTrim(left, '=') == (name, rest) && name != "" && rest != "" && !Starred(name)
    requires RegularValue(rest) == Some((v, next))
    ensures ParseParam(left, isTag) == Ok((RegularParam(name, v), next))
  {
  }

  lemma RegularReads(name: string, rest: string, v: string, left: string, next: string, isTag: string -> bool)
    requires Named(left, name, rest) && !Starred(name) && ValueReads(rest, v, next)
    ensures ParseParam(left, isTag) == Ok((RegularParam(name, v), next))
  {
    CutsIff(left, '=', name, rest);
    ValueReadsIff(rest, v, next);
    ParsesRegular(left, name, rest, v, next, isTag);
  }

  lemma ParsedReads(left: string, p: Param, next: string, isTag: string -> bool)
    requires ParseParam(left, isTag) == Ok((p, next))
    ensures ParamReads(left, p, next, isTag)
  {
    var (name, rest) := SplitAndTrim(left, '=');
    SplitCuts(left, '=');
    assert Named(left, name, rest);
    if Starred(name) {
      SplitCuts(rest, ';');
    } else {
      ValueReadsIff(rest, RegularValue(rest).value.0, next);
    }
  }

  /** A parameter is read exactly as the grammar spells it. */
  lemma ParamReadsIff(left: string, p: Param, next: string, isTag: string -> bool)
    ensures ParseParam(left, isTag) == Ok((p, next)) <==> ParamReads(left, p, next, isTag)
  {
    if ParamReads(left, p, next, isTag) {
      var name, rest :| Named(left, name, rest) && ParamNamed(name, rest, p, next, isTag);
      if Starred(name) {
        var text, v :| Cuts(rest, ';', text, next) && Ext.Parse(text, isTag) == Ok(v)
                       && p == ExtendedParam(name[..|name| - 1], v);
        StarredReads(name, rest, text, left, next, isTag);
      } else {
        var v :| ValueReads(rest, v, next) && p == RegularParam(name, v);
        RegularReads(name, rest, v, left, next, isTag);
      }
    }
    if ParseParam(left, isTag) == Ok((p, next)) {
      ParsedReads(left, p, next, isTag);
    }
  }

  ghost predicate ExtendedFails(left: string, cause: Ext.Invalid, isTag: string -> bool) {
    exists name, rest, text, next ::
      && Named(left, name, rest) && Starred(name)
      && Cuts(rest, ';', text, next) && Ext.Parse(text, isTag) == Err(cause)
  }

  lemma FailedParts(left: string, cause: Ext.Invalid, isTag: string -> bool)
    requires ParseParam(left, isTag) == Err(InvalidExtended(cause))
    ensures var (name, rest) := SplitAndTrim(left, '=');
            && Starred(name) && name != "*" && rest != ""
            && Ext.Parse(SplitAndTrim(rest, ';').0, isTag) == Err(cause)
  {
  }

  lemma FailedExtended(left: string, cause: Ext.Invalid, isTag: string -> bool)
    requires ParseParam(left, isTag) == Err(InvalidExtended(cause))
    ensures ExtendedFails(left, cause, isTag)
  {
    var (name, rest) := SplitAndTrim(left, '=');
    var (text, next) := SplitAndTrim(rest, ';');
    FailedParts(left, cause, isTag);
    SplitCuts(left, '=');
    SplitCuts(rest, ';');
    assert Named(left, name, rest) && Cuts(rest, ';', text, next);
  }

  /** A parameter fails with the error of its extended value exactly if it has one that cannot be parsed. */
  lemma ParamFailsIff(left: string, cause: Ext.Invalid, isTag: string -> bool)
    ensures ParseParam(left, isTag) == Err(InvalidExtended(cause)) <==> ExtendedFails(left, cause, isTag)
  {
    if name, rest, text, next :|
      && Named(left, name, rest) && Starred(name)
      && Cuts(rest, ';', text, next) && Ext.Parse(text, isTag) == Err(cause) {
      StarredReads(name, rest, text, left, next, isTag);
    } else if ParseParam(left, isTag) == Err(InvalidExtended(cause)) {
      FailedExtended(left, cause, isTag);
    }
  }

  /** Every other failure of a parameter is the same. */
  lemma OtherwiseInvalid(left: string, isTag: string -> bool)
    requires ParseParam(left, isTag).Err? && !ParseParam(left, isTag).error.InvalidExtended?
    ensures ParseParam(left, isTag) == Err(InvalidParameter)
  {
  }

  // ----- Headers

  /** The parameters are read one after the other, and `rest` is left. */
  ghost predicate ReadTo(left: string, ps: seq<Param>, rest: string, isTag: string -> bool)
    decreases |ps|
  {
    if ps == [] then left == rest
    else left != "" && exists next :: ParamReads(left, ps[0], next, isTag) && ReadTo(next, ps[1..], rest, isTag)
  }

  lemma {:induction false} ReadToIff(left: string, ps: seq<Param>, isTag: string -> bool)
    ensures ParseParams(left, isTag) == Ok(ps) <==> ReadTo(left, ps, "", isTag)
    decreases |ps|
  {
    if left != "" && ps != [] {
      if ParseParams(left, isTag) == Ok(ps) {
        ParamsHead(left, ps, isTag);
        var next := ParseParam(left, isTag).value.1;
        ParamReadsIff(left, ps[0], next, isTag);
        ReadToIff(next, ps[1..], isTag);
      }
      if next :| ParamReads(left, ps[0], next, isTag) && ReadTo(next, ps[1..], "", isTag) {
        ParamReadsIff(left, ps[0], next, isTag);
        ReadToIff(next, ps[1..], isTag);
        ParsesOn(left, ps, next, isTag);
      }
    }
  }

  /** The text without the whitespace around it: the type, and the parameters after the first separator. */
  ghost predicate Parted(raw: string, name: string, left: string) {
    exists v, text, w ::
      && AllSpace(v) && AllSpace(w) && StartsClean(text) && EndsClean(text) && raw == v + text + w
      && Cuts(text, ';', name, left)
  }

  lemma PartedIff(raw: string, name: string, left: string)
    ensures SplitAndTrim(Trim(raw), ';') == (name, left) <==> Parted(raw, name, left)
  {
    CutsIff(Trim(raw), ';', name, left);
    var v, w := TrimSplits(raw);
    if v, text, w :|
      && AllSpace(v) && AllSpace(w) && StartsClean(text) && EndsClean(text) && raw == v + text + w
      && Cuts(text, ';', name, left) {
      TrimIs(v, text, w);
    }
  }

  ghost predicate Accepted(raw: string, h: Header, isTag: string -> bool) {
    exists name, left ::
      && Parted(raw, name, left) && name != ""
      && h.disposition == TypeOf(name) && ReadTo(left, h.parameters, "", isTag)
  }

  /** A header is accepted exactly as its grammar spells it. */
  lemma AcceptedIff(raw: string, h: Header, isTag: string -> bool)
    ensures FromRaw(raw, isTag) == Ok(h) <==> Accepted(raw, h, isTag)
  {
    if FromRaw(raw, isTag) == Ok(h) {
      var (name, left) := SplitAndTrim(Trim(raw), ';');
      PartedIff(raw, name, left);
      ReadToIff(left, h.parameters, isTag);
    }
    if name, left :|
      && Parted(raw, name, left) && name != ""
      && h.disposition == TypeOf(name) && ReadTo(left, h.parameters, "", isTag) {
      PartedIff(raw, name, left);
      ReadToIff(left, h.parameters, isTag);
    }
  }

  /** Parsing ends with the first parameter that cannot be read. */
  lemma {:induction false} FirstFailure(left: string, error: Invalid, isTag: string -> bool)
      returns (ps: seq<Param>, rest: string)
    requires ParseParams(left, isTag) == Err(error)
    ensures ReadTo(left, ps, rest, isTag) && rest != "" && ParseParam(rest, isTag) == Err(error)
    decreases |left|
  {
    match ParseParam(left, isTag)
    case Err(_) => ps, rest := [], left;
    case Ok((p, next)) =>
      ParamConsumes(left, isTag);
      ParamReadsIff(left, p, next, isTag);
      var more;
      more, rest := FirstFailure(next, error, isTag);
      ps := [p] + more;
      assert ps[1..] == more;
  }

  lemma {:induction false} FailsAt(left: string, ps: seq<Param>, rest: string, error: Invalid, isTag: string -> bool)
    requires ReadTo(left, ps, rest, isTag) && rest != "" && ParseParam(rest, isTag) == Err(error)
    ensures ParseParams(left, isTag) == Err(error)
    decreases |ps|
  {
    if ps != [] {
      var next :| ParamReads(left, ps[0], next, isTag) && ReadTo(next, ps[1..], rest, isTag);
      ParamReadsIff(left, ps[0], next, isTag);
      FailsAt(next, ps[1..], rest, error, isTag);
      ParamConsumes(left, isTag);
    }
  }

  ghost predicate FailsWithin(left: string, error: Invalid, isTag: string -> bool) {
    exists ps, rest :: ReadTo(left, ps, rest, isTag) && rest != "" && ParseParam(rest, isTag) == Err(error)
  }

  lemma FailsIff(left: string, error: Invalid, isTag: string -> bool)
    ensures ParseParams(left, isTag) == Err(error) <==> FailsWithin(left, error, isTag)
  {
    if ParseParams(left, isTag) == Err(error) {
      var ps, rest := FirstFailure(left, error, isTag);
    }
    if ps, rest :| ReadTo(left, ps, rest, isTag) && rest != "" && ParseParam(rest, isTag) == Err(error) {
      FailsAt(left, ps, rest, error, isTag);
    }
  }

  ghost predicate Refused(raw: string, error: Invalid, isTag: string -> bool) {
    exists name, left ::
      Parted(raw, name, left) && if name == "" then error == TypeMissing else FailsWithin(left, error, isTag)
  }

  /** A header is refused for its missing type, or with the error of the first parameter that cannot be read. */
  lemma RefusedIff(raw: string, error: Invalid, isTag: string -> bool)
    ensures FromRaw(raw, isTag) == Err(error) <==> Refused(raw, error, isTag)
  {
    if FromRaw(raw, isTag) == Err(error) {
      var (name, left) := SplitAndTrim(Trim(raw), ';');
      PartedIff(raw, name, left);
      FailsIff(left, error, isTag);
    }
    if name, left :|
      Parted(raw, name, left) && if name == "" then error == TypeMissing else FailsWithin(left, error, isTag) {
      PartedIff(raw, name, left);
      FailsIff(left, error, isTag);
    }
  }
}
