/**
 The converse: what the parser returns is well-formed up to its field names, and a header that
 survives being printed and parsed has only field names that may be printed unquoted.
 */
module DispositionExact {
  import opened Wrappers
  import opened Text
  import opened ContentDisposition
  import opened DispositionLaws
  import Ext = ExtendedValue

  // ----- What the parser returns

  lemma SplitOrEndParts(s: string, c: char)
    ensures var (a, b) := SplitOrEnd(s, c); c !in a && a <= s
  {
  }

  /** The first part of a trimmed split is clean at both ends if its text starts clean. */
  lemma FirstPart(s: string, c: char)
    requires StartsClean(s)
    ensures var (a, b) := SplitAndTrim(s, c);
            StartsClean(a) && EndsClean(a) && StartsClean(b) && c !in a && (a != "" ==> s != "" && a[0] == s[0])
  {
    SplitOrEndParts(s, c);
    var w := TrimEndSplits(SplitOrEnd(s, c).0);
    var v := TrimStartSplits(SplitOrEnd(s, c).1);
  }

  lemma ParsedExtendedOk(text: string, isTag: string -> bool)
    requires StartsClean(text) && ';' !in text && Ext.Parse(text, isTag).Ok?
    ensures ExtendedOk(Ext.Parse(text, isTag).value, isTag)
  {
    Ext.ParsedIsSeparable(text, isTag);
  }

  lemma RegularValueLeaves(s: string)
    requires RegularValue(s).Some?
    ensures StartsClean(RegularValue(s).value.1)
  {
    if s != "" && s[0] == '"' {
      var w := TrimStartSplits(SplitOrEnd(s[Unquote(s[1..], false).value.1 + 2..], ';').1);
    } else {
      var w := TrimStartSplits(SplitOrEnd(s, ';').1);
    }
  }

  lemma ParsedParamOk(left: string, isTag: string -> bool)
    requires StartsClean(left) && ParseParam(left, isTag).Ok?
    ensures ParamOk(ParseParam(left, isTag).value.0, isTag) && StartsClean(ParseParam(left, isTag).value.1)
  {
    FirstPart(left, '=');
    var (name, rest) := SplitAndTrim(left, '=');
    if name[|name| - 1] == '*' {
      FirstPart(rest, ';');
      ParsedExtendedOk(SplitAndTrim(rest, ';').0, isTag);
    } else {
      RegularValueLeaves(rest);
    }
  }

  lemma {:induction false} ParsedParamsOk(left: string, isTag: string -> bool)
    requires StartsClean(left) && ParseParams(left, isTag).Ok?
    ensures ParamsOk(ParseParams(left, isTag).value, isTag)
    decreases |left|
  {
    if left != "" {
      ParsedParamOk(left, isTag);
      ParamConsumes(left, isTag);
      ParsedParamsOk(ParseParam(left, isTag).value.1, isTag);
    }
  }

  lemma ParsedTypeOk(name: string)
    requires Clean(name) && ';' !in name
    ensures TypeOk(TypeOf(name))
  {
  }

  /** Whatever was parsed is well-formed, but for field names that cannot be printed unquoted. */
  lemma ParsedHeaderOk(raw: string, isTag: string -> bool)
    requires FromRaw(raw, isTag).Ok?
    ensures TypeOk(FromRaw(raw, isTag).value.disposition) && ParamsOk(FromRaw(raw, isTag).value.parameters, isTag)
  {
    var v, w := TrimSplits(raw);
    FirstPart(Trim(raw), ';');
    var (name, left) := SplitAndTrim(Trim(raw), ';');
    ParsedTypeOk(name);
    ParsedParamsOk(left, isTag);
  }

  /** Printing what was parsed and parsing it again changes nothing, unless a field name needs quotes. */
  lemma ReprintIsStable(raw: string, isTag: string -> bool)
    requires FromRaw(raw, isTag).Ok? && AllPlain(FromRaw(raw, isTag).value.parameters)
    ensures FromRaw(Print(FromRaw(raw, isTag).value), isTag) == FromRaw(raw, isTag)
  {
    ParsedHeaderOk(raw, isTag);
    WellFormedRoundTrip(FromRaw(raw, isTag).value, isTag);
  }

  // ----- A field name that comes back is plain

  /** What precedes the closing quote is backslashes and characters of the value, each no earlier than in the value. */
  ghost predicate Within(s: string, j: nat, v: string)
    requires j < |s|
  {
    s[j] == '\\' || exists k :: 0 <= k <= j && k < |v| && s[j] == v[k]
  }

  lemma {:induction false} UnquoteShape(s: string, escaping: bool, j: nat)
    requires Unquote(s, escaping).Some? && j < Unquote(s, escaping).value.1
    ensures Unquote(s, escaping).value.1 < |s| && Within(s, j, Unquote(s, escaping).value.0)
    decreases |s|
  {
    UnquoteEnds(s, escaping);
    var v := Unquote(s, escaping).value.0;
    var isEscape := !escaping && s[0] == '\\';
    if j == 0 {
      assert !isEscape ==> s[0] == v[0];
    } else {
      var more := Unquote(s[1..], isEscape).value.0;
      UnquoteShape(s[1..], isEscape, j - 1);
      if s[j] != '\\' {
        var k :| 0 <= k <= j - 1 && k < |more| && s[1..][j - 1] == more[k];
        assert s[j] == v[if isEscape then k else k + 1];
      }
    }
  }

  predicate Odd(c: char) { IsSpace(c) || c == '"' || c == '\\' }

  /**
   If unquoting returned the very text it started in, that text would hold only whitespace, quotes and
   backslashes.
   */
  lemma {:induction false} AllOdd(v: string, w: string, t: string, i: nat)
    requires AllSpace(w) && w <= v && v[|w|..] <= t && |w| < |v| && t[0] == '"'
    requires Unquote(t[1..], false).Some? && Unquote(t[1..], false).value.0 == v
    requires i < |v|
    ensures Odd(v[i])
    decreases i
  {
    if i > |w| {
      var s, j := t[1..], i - |w| - 1;
      UnquoteEnds(s, false);
      assert v[i] == v[|w|..][j + 1] == t[j + 1] == s[j];
      UnquoteShape(s, false, j);
      if s[j] != '\\' {
        var k :| 0 <= k <= j && k < |v| && s[j] == v[k];
        AllOdd(v, w, t, k);
      }
    } else if i == |w| {
      assert v[i] == v[|w|..][0] == t[0];
    } else {
      assert v[i] == w[i];
    }
  }

  /** Unquoting never returns the text it started in. */
  lemma NeverItself(v: string, tail: string, w: string, t: string)
    requires AllSpace(w) && v + tail == w + t && (tail == "" || tail[0] == ';')
    requires t != "" && t[0] == '"' && Unquote(t[1..], false).Some?
    ensures Unquote(t[1..], false).value.0 != v
  {
    var s := t[1..];
    UnquoteEnds(s, false);
    InsideName(v, tail, w, t);
    if Unquote(s, false).value.0 == v {
      var j := |v| - |w| - 1;
      UnquoteShape(s, false, j);
      assert s[j] == t[j + 1] == tail[0];
      var k :| 0 <= k <= j && k < |v| && s[j] == v[k];
      AllOdd(v, w, t, k);
    }
  }

  lemma InsideName(v: string, tail: string, w: string, t: string)
    requires AllSpace(w) && v + tail == w + t && (tail == "" || tail[0] == ';')
    requires t != "" && t[0] == '"'
    ensures |w| < |v| && w <= v && v[|w|..] <= t
    ensures forall j | |v| - |w| <= j < |t| :: t[j] == tail[j - (|v| - |w|)]
  {
    var all := v + tail;
    assert all[|w|] == t[0];
    assert tail != "" ==> all[|v|] == tail[0];
    assert forall i | 0 <= i < |w| :: all[i] == w[i];
    assert |w| < |v|;
    assert forall i | 0 <= i < |w| :: v[i] == all[i];
    assert forall i | 0 <= i < |v| - |w| :: v[|w| + i] == all[|w| + i] == t[i];
    forall j | |v| - |w| <= j < |t| ensures t[j] == tail[j - (|v| - |w|)] {
      assert t[j] == all[|w| + j];
    }
  }

  lemma NameSplits(text: string)
    ensures SplitAndTrim("name=" + text, '=') == ("name", TrimStart(text))
  {
    assert "name=" + text == "name" + ['='] + text;
    SplitOrEndIs("name", '=', text);
    TrimEndKeeps("name");
  }

  lemma NameIsPlain(v: string, tail: string, isTag: string -> bool)
    requires tail == "" || tail[0] == ';'
    requires ParseParam("name=" + (v + tail), isTag).Ok? && ParseParam("name=" + (v + tail), isTag).value.0 == Name(v)
    ensures PlainName(v)
  {
    NameSplits(v + tail);
    var w := TrimStartSplits(v + tail);
    var t := TrimStart(v + tail);
    if t[0] == '"' {
      NeverItself(v, tail, w, t);
    } else {
      FirstPart(t, ';');
    }
  }

  // ----- Exactly the well-formed headers survive

  lemma RegularValueFits(s: string)
    requires RegularValue(s).Some?
    ensures |RegularValue(s).value.0| <= |s|
  {
    if s != "" && s[0] == '"' {
      UnquoteEnds(s[1..], false);
    } else {
      var w := TrimEndSplits(SplitOrEnd(s, ';').0);
      assert |SplitOrEnd(s, ';').0| == |TrimEnd(SplitOrEnd(s, ';').0)| + |w|;
    }
  }

  /** A field name that lost whitespace at its end does not come back. */
  lemma ShortenedName(v: string, shorter: string, isTag: string -> bool)
    requires |shorter| < |v| && ParseParam("name=" + shorter, isTag).Ok?
    ensures ParseParam("name=" + shorter, isTag).value.0 != Name(v)
  {
    NameSplits(shorter);
    TrimStartShorter(shorter);
    RegularValueFits(TrimStart(shorter));
  }

  lemma ParamsHead(left: string, ps: seq<Param>, isTag: string -> bool)
    requires ParseParams(left, isTag) == Ok(ps) && ps != []
    ensures left != "" && ParseParam(left, isTag).Ok? && ParseParam(left, isTag).value.0 == ps[0]
    ensures ParseParams(ParseParam(left, isTag).value.1, isTag) == Ok(ps[1..])
  {
    ParamConsumes(left, isTag);
  }

  /** The only parameter, its text less some whitespace at the end. */
  lemma LastIsPlain(p: Param, left: string, w: string, isTag: string -> bool)
    requires left + w == PrintParam(p) && AllSpace(w)
    requires ParseParam(left, isTag).Ok? && ParseParam(left, isTag).value.0 == p
    ensures Plain(p)
  {
    if p.Name? {
      var all := "name=" + p.value;
      assert forall i | |left| <= i < |all| :: all[i] == w[i - |left|];
      assert all[4] == '=';
      var shorter := left[5..];
      assert left == all[..|left|];
      assert left == "name=" + shorter;
      assert shorter + w == all[5..] == p.value;
      if w == "" {
        assert shorter + "" == shorter;
        NameIsPlain(p.value, "", isTag);
      } else {
        ShortenedName(p.value, shorter, isTag);
      }
    }
  }

  lemma OneOfManyIsPlain(p: Param, next: string, isTag: string -> bool)
    requires ParseParam(PrintParam(p) + ("; " + next), isTag).Ok?
    requires ParseParam(PrintParam(p) + ("; " + next), isTag).value.0 == p
    ensures Plain(p)
  {
    if p.Name? {
      NameThenTail(p.value, "; " + next);
      NameIsPlain(p.value, "; " + next, isTag);
    }
  }

  lemma NameThenTail(v: string, tail: string)
    ensures PrintParam(Name(v)) + tail == "name=" + (v + tail)
  {
  }

  /** Whitespace at the end of a text that starts clean lies within it. */
  lemma EndWithin(front: string, text: string, left: string, w: string) returns (shorter: string)
    requires front + text == left + w && AllSpace(w) && text != "" && StartsClean(text)
    ensures shorter != "" && StartsClean(shorter) && shorter + w == text && left == front + shorter
  {
    var all := front + text;
    assert all[|front|] == text[0];
    assert forall i | |left| <= i < |all| :: all[i] == w[i - |left|];
    assert |front| < |left|;
    shorter := left[|front|..];
    assert left == all[..|left|];
    assert front == all[..|front|] == left[..|front|];
    assert shorter + w == all[|front|..] == text;
    assert shorter[0] == all[|front|];
  }

  lemma JoinedOfMany(ps: seq<Param>)
    requires |ps| > 1
    ensures Joined(ps) == (PrintParam(ps[0]) + "; ") + Joined(ps[1..])
  {
    TailIsJoined(ps[1..]);
    assert PrintParam(ps[0]) + ("; " + Joined(ps[1..])) == (PrintParam(ps[0]) + "; ") + Joined(ps[1..]);
  }

  lemma OnlySurvivorIsPlain(p: Param, left: string, w: string, isTag: string -> bool)
    requires left + w == Joined([p]) && AllSpace(w) && ParseParams(left, isTag) == Ok([p])
    ensures Plain(p)
  {
    ParamsHead(left, [p], isTag);
    assert Joined([p]) == PrintParam(p) + "" == PrintParam(p);
    LastIsPlain(p, left, w, isTag);
  }

  lemma JoinedSplits(ps: seq<Param>, left: string, w: string, isTag: string -> bool) returns (next: string)
    requires |ps| > 1 && ParamsOk(ps, isTag) && left + w == Joined(ps) && AllSpace(w)
    ensures left == PrintParam(ps[0]) + ("; " + next) && next + w == Joined(ps[1..]) && StartsClean(next)
  {
    JoinedOfMany(ps);
    JoinedStarts(ps[1..], isTag);
    next := EndWithin(PrintParam(ps[0]) + "; ", Joined(ps[1..]), left, w);
    assert (PrintParam(ps[0]) + "; ") + next == PrintParam(ps[0]) + ("; " + next);
  }

  /** The first of several parameters is plain, and the others are left to be parsed. */
  lemma FirstSurvivorIsPlain(ps: seq<Param>, left: string, next: string, isTag: string -> bool)
    requires |ps| > 1 && ParamOk(ps[0], isTag) && StartsClean(next)
    requires left == PrintParam(ps[0]) + ("; " + next) && ParseParams(left, isTag) == Ok(ps)
    ensures Plain(ps[0]) && ParseParams(next, isTag) == Ok(ps[1..])
  {
    ParamsHead(left, ps, isTag);
    OneOfManyIsPlain(ps[0], next, isTag);
    ParamParses(ps[0], "; " + next, next, isTag);
  }

  lemma {:induction false} SurvivorsArePlain(ps: seq<Param>, left: string, w: string, isTag: string -> bool)
    requires ParamsOk(ps, isTag) && left + w == Joined(ps) && AllSpace(w) && ParseParams(left, isTag) == Ok(ps)
    ensures AllPlain(ps)
    decreases |ps|
  {
    if |ps| == 1 {
      assert ps == [ps[0]];
      OnlySurvivorIsPlain(ps[0], left, w, isTag);
    } else if |ps| > 1 {
      var next := JoinedSplits(ps, left, w, isTag);
      FirstSurvivorIsPlain(ps, left, next, isTag);
      SurvivorsArePlain(ps[1..], next, w, isTag);
    }
  }

  /** The type does not start with whitespace, so the header does not. */
  lemma NoLead(v: string, rest: string, raw: string)
    requires raw == v + rest && AllSpace(v) && raw != "" && !IsSpace(raw[0])
    ensures v == ""
  {
    assert raw[0] == (v + rest)[0];
  }

  /** Trimming a header takes whitespace only off its last parameter. */
  lemma TrimmedHeader(name: string, joined: string, raw: string) returns (next: string, w: string)
    requires Clean(name) && joined != "" && StartsClean(joined) && raw == (name + "; ") + joined
    ensures AllSpace(w) && next + w == joined && StartsClean(next)
    ensures Trim(raw) == name + ("; " + next) && EndsClean(Trim(raw)) && raw == Trim(raw) + w
  {
    var v;
    v, w := TrimSplits(raw);
    assert raw[0] == name[0];
    assert raw == v + (Trim(raw) + w);
    NoLead(v, Trim(raw) + w, raw);
    assert raw == Trim(raw) + w;
    next := EndWithin(name + "; ", joined, Trim(raw), w);
    assert (name + "; ") + next == name + ("; " + next);
  }

  lemma SurvivingNamesArePlain(h: Header, isTag: string -> bool)
    requires FromRaw(Print(h), isTag) == Ok(h) && TypeOk(h.disposition) && ParamsOk(h.parameters, isTag)
    ensures AllPlain(h.parameters)
  {
    var ps, name := h.parameters, TypeName(h.disposition);
    if ps != [] {
      TypePrints(h.disposition);
      TailIsJoined(ps);
      JoinedStarts(ps, isTag);
      assert Print(h) == (name + "; ") + Joined(ps);
      var next, w := TrimmedHeader(name, Joined(ps), Print(h));
      ParsedTail(h, next, w, isTag);
      SurvivorsArePlain(ps, next, w, isTag);
    }
  }

  lemma ParsedTail(h: Header, next: string, w: string, isTag: string -> bool)
    requires FromRaw(Print(h), isTag) == Ok(h) && TypeOk(h.disposition)
    requires var s := TypeName(h.disposition) + ("; " + next); Print(h) == s + w && EndsClean(s)
    requires AllSpace(w) && StartsClean(next)
    ensures ParseParams(next, isTag) == Ok(h.parameters)
  {
    HeaderSplits(h.disposition, "; " + next, next, w);
    TypePrints(h.disposition);
  }

  /** A header survives being printed and parsed if and only if it is well-formed. */
  lemma RoundTripIff(h: Header, isTag: string -> bool)
    ensures FromRaw(Print(h), isTag) == Ok(h) <==> WellFormed(h, isTag)
  {
    if WellFormed(h, isTag) {
      WellFormedRoundTrip(h, isTag);
    }
    if FromRaw(Print(h), isTag) == Ok(h) {
      ParsedHeaderOk(Print(h), isTag);
      SurvivingNamesArePlain(h, isTag);
    }
  }

  /** The field name `a;b` is read from a quoted value, and lost when it is printed again. */
  lemma QuotedNameIsLost(isTag: string -> bool)
    ensures var h := Header(FormData, [Name("a;b")]);
            FromRaw("form-data; " + ("name=" + Quote("a;b")), isTag) == Ok(h) && FromRaw(Print(h), isTag) != Ok(h)
  {
    var h := Header(FormData, [Name("a;b")]);
    ReadsQuotedName("a;b", isTag);
    assert "a;b"[1] == ';';
    assert !Plain(h.parameters[0]);
    RoundTripIff(h, isTag);
  }

  lemma OneParam(text: string, p: Param, isTag: string -> bool)
    requires text != "" && ParseParam(text, isTag) == Ok((p, ""))
    ensures ParseParams(text, isTag) == Ok([p])
  {
    ParamConsumes(text, isTag);
    assert [p] + [] == [p];
  }

  lemma OneName(v: string, isTag: string -> bool)
    ensures ParseParam("name=" + Quote(v), isTag) == Ok((Name(v), ""))
  {
    QuotedValue(v, "", "");
    assert Quote(v) + "" == Quote(v);
    RegularParses("name", v, Quote(v), "", "", isTag);
    assert "name" + "=" + Quote(v) + "" == "name=" + Quote(v);
  }

  lemma SplitsParts(raw: string, d: DispositionType, text: string, params: seq<Param>, isTag: string -> bool)
    requires SplitAndTrim(Trim(raw), ';') == (TypeName(d), text) && TypeOk(d)
    requires ParseParams(text, isTag) == Ok(params)
    ensures FromRaw(raw, isTag) == Ok(Header(d, params))
  {
    TypePrints(d);
  }

  lemma FormSplits(text: string)
    requires Clean(text)
    ensures SplitAndTrim(Trim("form-data; " + text), ';') == ("form-data", text)
  {
    var raw := "form-data" + ("; " + text);
    assert raw[|raw| - 1] == text[|text| - 1];
    HeaderSplits(FormData, "; " + text, text, "");
    assert raw + "" == raw;
    assert "form-data; " == "form-data" + "; ";
    assert raw == "form-data; " + text;
  }

  lemma QuotedNameIsClean(v: string)
    ensures Clean("name=" + Quote(v))
  {
    var text := "name=" + Quote(v);
    assert text[|text| - 1] == '"';
  }

  lemma ReadsFormParam(text: string, p: Param, isTag: string -> bool)
    requires Clean(text) && ParseParam(text, isTag) == Ok((p, ""))
    ensures FromRaw("form-data; " + text, isTag) == Ok(Header(FormData, [p]))
  {
    OneParam(text, p, isTag);
    FormSplits(text);
    SplitsParts("form-data; " + text, FormData, text, [p], isTag);
  }

  /** Any field name is read from its quoted form. */
  lemma ReadsQuotedName(v: string, isTag: string -> bool)
    ensures FromRaw("form-data; " + ("name=" + Quote(v)), isTag) == Ok(Header(FormData, [Name(v)]))
  {
    OneName(v, isTag);
    QuotedNameIsClean(v);
    ReadsFormParam("name=" + Quote(v), Name(v), isTag);
  }
}
