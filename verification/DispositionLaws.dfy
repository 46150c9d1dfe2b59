/**
 Which `Content-Disposition` headers survive being printed and parsed again: exactly the well-formed
 ones. What the parser returns is well-formed up to its field names, which are printed unquoted.
 */
module DispositionLaws {
  import opened Wrappers
  import opened Text
  import opened ContentDisposition
  import Ext = ExtendedValue

  // ----- Well-formed headers

  predicate Clean(s: string) { s != "" && StartsClean(s) && EndsClean(s) }

  predicate TypeOk(d: DispositionType) {
    d.Other? ==>
      && Clean(d.name) && ';' !in d.name
      && !EqIgnoreCase(d.name, "inline") && !EqIgnoreCase(d.name, "attachment") && !EqIgnoreCase(d.name, "form-data")
  }

  predicate ExtendedOk(v: Ext.ExtendedValue, isTag: string -> bool) {
    && Ext.Separable(v, isTag)
    && ';' !in v.charset && StartsClean(v.charset)
    && (v.languageTag.Some? ==> ';' !in v.languageTag.value)
  }

  predicate ParamOk(p: Param, isTag: string -> bool) {
    match p
    case Name(_) => true
    case Filename(_) => true
    case FilenameExt(extended) => ExtendedOk(extended, isTag)
    case Unknown(name, _) =>
      && Clean(name) && '=' !in name && name[|name| - 1] != '*'
      && !EqIgnoreCase(name, "name") && !EqIgnoreCase(name, "filename")
    case UnknownExt(name, extended) =>
      && name != "" && StartsClean(name) && '=' !in name && !EqIgnoreCase(name, "filename")
      && ExtendedOk(extended, isTag)
  }

  /** A field name that may be printed unquoted. */
  predicate PlainName(v: string) { Clean(v) && v[0] != '"' && ';' !in v }

  predicate Plain(p: Param) { p.Name? ==> PlainName(p.value) }

  ghost predicate ParamsOk(ps: seq<Param>, isTag: string -> bool) {
    forall i | 0 <= i < |ps| :: ParamOk(ps[i], isTag)
  }

  ghost predicate AllPlain(ps: seq<Param>) { forall i | 0 <= i < |ps| :: Plain(ps[i]) }

  ghost predicate WellFormed(h: Header, isTag: string -> bool) {
    TypeOk(h.disposition) && ParamsOk(h.parameters, isTag) && AllPlain(h.parameters)
  }

  // ----- Splitting printed text

  lemma SplitOrEndIs(a: string, c: char, b: string)
    requires c !in a
    ensures SplitOrEnd(a + [c] + b, c) == (a, b)
  {
    SplitOnceIs(a, c, b);
  }

  lemma SplitOrEndNone(a: string, c: char)
    requires c !in a
    ensures SplitOrEnd(a, c) == (a, "")
  {
    FindNone(a, c);
  }

  lemma TrimStartKeeps(s: string)
    requires StartsClean(s)
    ensures TrimStart(s) == s
  {
    TrimStartIs("", s);
    assert "" + s == s;
  }

  lemma TrimEndKeeps(s: string)
    requires EndsClean(s)
    ensures TrimEnd(s) == s
  {
    TrimEndIs(s, "");
    assert s + "" == s;
  }

  /** What follows a parameter: nothing, or a separator and the next one. */
  predicate Follows(tail: string, next: string) {
    (tail == "" && next == "") || (tail == "; " + next && StartsClean(next))
  }

  /** Text without a separator is cut off what follows it. */
  lemma CutAtSeparator(text: string, tail: string, next: string)
    requires Follows(tail, next) && ';' !in text
    ensures SplitOrEnd(text + tail, ';').0 == text
    ensures TrimStart(SplitOrEnd(text + tail, ';').1) == next
  {
    if tail == "" {
      assert text + tail == text;
      SplitOrEndNone(text, ';');
    } else {
      assert text + tail == text + [';'] + (" " + next);
      SplitOrEndIs(text, ';', " " + next);
      TrimStartIs(" ", next);
    }
  }

  // ----- Quoted strings

  /** Unquoting what was quoted returns it, and ends at the closing quote. */
  lemma {:induction false} UnquoteEscaped(v: string, rest: string)
    ensures Unquote(Escape(v) + ['"'] + rest, false) == Some((v, |Escape(v)|))
  {
    if v == "" {
      assert Escape(v) + ['"'] + rest == ['"'] + rest;
    } else {
      UnquoteEscaped(v[1..], rest);
      var more := Escape(v[1..]) + ['"'] + rest;
      assert v == [v[0]] + v[1..];
      if Escaped(v[0]) {
        var s := ['\\', v[0]] + more;
        assert Escape(v) + ['"'] + rest == s;
        assert s[1..] == [v[0]] + more && s[1..][1..] == more;
        assert Unquote(s[1..], true) == Some((v, |Escape(v[1..])| + 1));
      } else {
        var s := [v[0]] + more;
        assert Escape(v) + ['"'] + rest == s;
        assert s[1..] == more;
      }
    }
  }

  lemma QuotedValue(v: string, tail: string, next: string)
    requires Follows(tail, next)
    ensures RegularValue(Quote(v) + tail) == Some((v, next))
  {
    var s := Quote(v) + tail;
    UnquoteEscaped(v, tail);
    assert s[1..] == Escape(v) + ['"'] + tail;
    assert s[|Escape(v)| + 2..] == tail;
    CutAtSeparator("", tail, next);
    assert "" + tail == tail;
  }

  lemma TokenValue(v: string, tail: string, next: string)
    requires Follows(tail, next) && PlainName(v)
    ensures RegularValue(v + tail) == Some((v, next))
  {
    CutAtSeparator(v, tail, next);
    TrimEndKeeps(v);
  }

  // ----- One parameter

  /** A parameter's name ends at its first equals sign. */
  lemma NameEnds(name: string, text: string)
    requires name != "" && EndsClean(name) && '=' !in name && text != "" && StartsClean(text)
    ensures SplitAndTrim(name + "=" + text, '=') == (name, text)
  {
    assert name + "=" + text == name + ['='] + text;
    SplitOrEndIs(name, '=', text);
    TrimEndKeeps(name);
    TrimStartKeeps(text);
  }

  lemma RegularParses(name: string, value: string, text: string, tail: string, next: string, isTag: string -> bool)
    requires Clean(name) && '=' !in name && name[|name| - 1] != '*'
    requires text != "" && StartsClean(text) && RegularValue(text + tail) == Some((value, next))
    ensures ParseParam(name + "=" + text + tail, isTag) == Ok((RegularParam(name, value), next))
  {
    assert name + "=" + text + tail == name + "=" + (text + tail);
    NameEnds(name, text + tail);
  }

  lemma ExtendedPrintsPlain(v: Ext.ExtendedValue, isTag: string -> bool)
    requires ExtendedOk(v, isTag)
    ensures Clean(Ext.Print(v)) && ';' !in Ext.Print(v)
  {
    Ext.EncodedIsPlain(v.value);
    var text := Ext.Print(v);
    assert v.charset == "" ==> text[0] == '\'';
    assert v.charset != "" ==> text[0] == v.charset[0];
    var chars := Ext.PercentEncode(v.value);
    assert chars == "" ==> text[|text| - 1] == '\'';
    assert chars != "" ==> text[|text| - 1] == chars[|chars| - 1] && chars[|chars| - 1] in chars;
    assert ';' !in "'";
  }

  lemma ExtendedSplits(name: string, text: string, tail: string, next: string)
    requires name != "" && StartsClean(name) && '=' !in name && Follows(tail, next)
    requires Clean(text) && ';' !in text
    ensures SplitAndTrim(name + "*=" + text + tail, '=') == (name + "*", text + tail)
    ensures SplitAndTrim(text + tail, ';') == (text, next)
  {
    assert name + "*=" + text + tail == (name + "*") + "=" + (text + tail);
    NameEnds(name + "*", text + tail);
    CutAtSeparator(text, tail, next);
    TrimEndKeeps(text);
  }

  lemma StarredName(name: string)
    requires name != ""
    ensures var starred := name + "*";
            starred != "" && starred != "*" && starred[|starred| - 1] == '*' && starred[..|starred| - 1] == name
  {
  }

  lemma ExtendedParses(name: string, v: Ext.ExtendedValue, tail: string, next: string, isTag: string -> bool)
    requires name != "" && StartsClean(name) && '=' !in name && ExtendedOk(v, isTag) && Follows(tail, next)
    ensures ParseParam(name + "*=" + Ext.Print(v) + tail, isTag) == Ok((ExtendedParam(name, v), next))
  {
    var text := Ext.Print(v);
    ExtendedPrintsPlain(v, isTag);
    Ext.SeparableRoundTrip(v, isTag);
    ExtendedSplits(name, text, tail, next);
    StarredName(name);
  }

  /** A well-formed parameter is parsed off whatever follows it. */
  lemma ParamParses(p: Param, tail: string, next: string, isTag: string -> bool)
    requires ParamOk(p, isTag) && Plain(p) && Follows(tail, next)
    ensures ParseParam(PrintParam(p) + tail, isTag) == Ok((p, next))
  {
    match p
    case Name(value) =>
      TokenValue(value, tail, next);
      assert "name=" + value == "name" + "=" + value;
      RegularParses("name", value, value, tail, next, isTag);
    case Filename(value) =>
      QuotedValue(value, tail, next);
      assert "filename=" + Quote(value) == "filename" + "=" + Quote(value);
      RegularParses("filename", value, Quote(value), tail, next, isTag);
    case Unknown(name, value) =>
      QuotedValue(value, tail, next);
      RegularParses(name, value, Quote(value), tail, next, isTag);
    case FilenameExt(extended) =>
      assert "filename*=" + Ext.Print(extended) == "filename" + "*=" + Ext.Print(extended);
      ExtendedParses("filename", extended, tail, next, isTag);
    case UnknownExt(name, extended) => ExtendedParses(name, extended, tail, next, isTag);
  }

  // ----- Whole headers

  function Joined(ps: seq<Param>): string { if ps == [] then "" else PrintParam(ps[0]) + PrintTail(ps[1..]) }

  lemma TailIsJoined(ps: seq<Param>)
    ensures PrintTail(ps) == if ps == [] then "" else "; " + Joined(ps)
  {
    if ps != [] {
      assert "; " + PrintParam(ps[0]) + PrintTail(ps[1..]) == "; " + (PrintParam(ps[0]) + PrintTail(ps[1..]));
    }
  }

  /** A parameter's printed form starts with its name. */
  lemma ParamStarts(p: Param, isTag: string -> bool)
    requires ParamOk(p, isTag)
    ensures PrintParam(p) != "" && StartsClean(PrintParam(p))
  {
  }

  lemma ParamEnds(p: Param, isTag: string -> bool)
    requires ParamOk(p, isTag) && Plain(p)
    ensures EndsClean(PrintParam(p))
  {
    match p
    case Name(value) => assert PrintParam(p)[|PrintParam(p)| - 1] == value[|value| - 1];
    case FilenameExt(extended) =>
      ExtendedPrintsPlain(extended, isTag);
      assert PrintParam(p)[|PrintParam(p)| - 1] == Ext.Print(extended)[|Ext.Print(extended)| - 1];
    case UnknownExt(name, extended) =>
      ExtendedPrintsPlain(extended, isTag);
      assert PrintParam(p)[|PrintParam(p)| - 1] == Ext.Print(extended)[|Ext.Print(extended)| - 1];
    case Filename(value) => assert PrintParam(p)[|PrintParam(p)| - 1] == '"';
    case Unknown(name, value) => assert PrintParam(p)[|PrintParam(p)| - 1] == '"';
  }

  lemma JoinedStarts(ps: seq<Param>, isTag: string -> bool)
    requires ParamsOk(ps, isTag)
    ensures StartsClean(Joined(ps)) && (ps != [] ==> Joined(ps) != "")
  {
    if ps != [] {
      ParamStarts(ps[0], isTag);
    }
  }

  lemma {:induction false} JoinedEnds(ps: seq<Param>, isTag: string -> bool)
    requires ParamsOk(ps, isTag) && AllPlain(ps)
    ensures EndsClean(Joined(ps))
  {
    if ps != [] {
      TailIsJoined(ps[1..]);
      JoinedEnds(ps[1..], isTag);
      JoinedStarts(ps[1..], isTag);
      ParamEnds(ps[0], isTag);
    }
  }

  lemma FirstParses(ps: seq<Param>, isTag: string -> bool)
    requires ps != [] && ParamsOk(ps, isTag) && AllPlain(ps)
    ensures Joined(ps) != "" && ParseParam(Joined(ps), isTag) == Ok((ps[0], Joined(ps[1..])))
  {
    var rest := ps[1..];
    TailIsJoined(rest);
    JoinedStarts(rest, isTag);
    ParamParses(ps[0], PrintTail(rest), Joined(rest), isTag);
    ParamStarts(ps[0], isTag);
  }

  lemma ParsesOn(left: string, ps: seq<Param>, after: string, isTag: string -> bool)
    requires ps != [] && left != ""
    requires ParseParam(left, isTag) == Ok((ps[0], after)) && ParseParams(after, isTag) == Ok(ps[1..])
    ensures ParseParams(left, isTag) == Ok(ps)
  {
    ParamConsumes(left, isTag);
    assert ps == [ps[0]] + ps[1..];
  }

  lemma RestOk(ps: seq<Param>, isTag: string -> bool)
    requires ps != [] && ParamsOk(ps, isTag) && AllPlain(ps)
    ensures ParamsOk(ps[1..], isTag) && AllPlain(ps[1..])
  {
  }

  lemma FirstThenRest(ps: seq<Param>, isTag: string -> bool)
    requires ps != [] && ParamsOk(ps, isTag) && AllPlain(ps)
    requires ParseParams(Joined(ps[1..]), isTag) == Ok(ps[1..])
    ensures ParseParams(Joined(ps), isTag) == Ok(ps)
  {
    FirstParses(ps, isTag);
    ParsesOn(Joined(ps), ps, Joined(ps[1..]), isTag);
  }

  lemma {:induction false} ParamsParse(ps: seq<Param>, isTag: string -> bool)
    requires ParamsOk(ps, isTag) && AllPlain(ps)
    ensures ParseParams(Joined(ps), isTag) == Ok(ps)
  {
    if ps != [] {
      RestOk(ps, isTag);
      ParamsParse(ps[1..], isTag);
      FirstThenRest(ps, isTag);
    }
  }

  lemma TypePrints(d: DispositionType)
    requires TypeOk(d)
    ensures Clean(TypeName(d)) && ';' !in TypeName(d) && TypeOf(TypeName(d)) == d
  {
  }

  /** A header is split into its type and its parameters, less the whitespace at its end. */
  lemma HeaderSplits(d: DispositionType, tail: string, next: string, w: string)
    requires TypeOk(d) && Follows(tail, next) && AllSpace(w) && EndsClean(TypeName(d) + tail)
    ensures SplitAndTrim(Trim(TypeName(d) + tail + w), ';') == (TypeName(d), next)
  {
    TypePrints(d);
    var s := TypeName(d) + tail;
    TrimIs("", s, w);
    assert "" + s + w == s + w;
    CutAtSeparator(TypeName(d), tail, next);
    TrimEndKeeps(TypeName(d));
  }

  /** Every well-formed header survives. */
  lemma WellFormedRoundTrip(h: Header, isTag: string -> bool)
    requires WellFormed(h, isTag)
    ensures FromRaw(Print(h), isTag) == Ok(h)
  {
    var ps := h.parameters;
    TypePrints(h.disposition);
    TailIsJoined(ps);
    JoinedStarts(ps, isTag);
    JoinedEnds(ps, isTag);
    ParamsParse(ps, isTag);
    var s := TypeName(h.disposition) + PrintTail(ps);
    assert ps != [] ==> s[|s| - 1] == Joined(ps)[|Joined(ps)| - 1];
    HeaderSplits(h.disposition, PrintTail(ps), Joined(ps), "");
    assert s + "" == s;
  }
}
