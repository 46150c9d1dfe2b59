/**
 The `Content-Disposition` header, section 4.1 of RFC 6266: its printer and its hand-written parser.

 Texts are sequences of characters: quotes, backslashes and separators are ASCII, so splitting and
 unescaping the UTF-8 bytes is the same as splitting and unescaping the characters.
 */
module ContentDisposition {
  import opened Wrappers
  import opened Text
  import Ext = ExtendedValue

  datatype DispositionType = Inline | Attachment | FormData | Other(name: string)

  datatype Param =
    | Name(value: string)
    | Filename(value: string)
    | FilenameExt(extended: Ext.ExtendedValue)
    | Unknown(name: string, value: string)
    | UnknownExt(name: string, extended: Ext.ExtendedValue)

  datatype Header = Header(disposition: DispositionType, parameters: seq<Param>)

  datatype Invalid = TypeMissing | InvalidParameter | InvalidExtended(cause: Ext.Invalid)

  // ----- The printer

  function TypeName(d: DispositionType): string {
    match d
    case Inline => "inline"
    case Attachment => "attachment"
    case FormData => "form-data"
    case Other(name) => name
  }

  /** The characters that are escaped in a quoted string. */
  predicate Escaped(c: char) {
    c <= '\U{0008}' || '\U{0010}' <= c <= '\U{001F}' || c == '\U{007F}' || c == '"' || c == '\\'
  }

  function Escape(s: string): string {
    if s == "" then "" else (if Escaped(s[0]) then ['\\', s[0]] else [s[0]]) + Escape(s[1..])
  }

  function Quote(s: string): string { ['"'] + Escape(s) + ['"'] }

  /** A field name is printed as it is, a file name and an unknown value are quoted. */
  function PrintParam(p: Param): string {
    match p
    case Name(value) => "name=" + value
    case Filename(value) => "filename=" + Quote(value)
    case FilenameExt(extended) => "filename*=" + Ext.Print(extended)
    case Unknown(name, value) => name + "=" + Quote(value)
    case UnknownExt(name, extended) => name + "*=" + Ext.Print(extended)
  }

  /** The parameters, each after a separator. */
  function PrintTail(ps: seq<Param>): string {
    if ps == [] then "" else "; " + PrintParam(ps[0]) + PrintTail(ps[1..])
  }

  function Print(h: Header): string { TypeName(h.disposition) + PrintTail(h.parameters) }

  // ----- The parser

  /** Without an occurrence of `c`, everything is before it. */
  function SplitOrEnd(s: string, c: char): (string, string) {
    match SplitOnce(s, c) case Some(parts) => parts case None => (s, "")
  }

  function SplitAndTrim(s: string, c: char): (string, string) {
    var (first, last) := SplitOrEnd(s, c);
    (TrimEnd(first), TrimStart(last))
  }

  function TypeOf(name: string): DispositionType {
    if EqIgnoreCase(name, "inline") then Inline
    else if EqIgnoreCase(name, "attachment") then Attachment
    else if EqIgnoreCase(name, "form-data") then FormData
    else Other(name)
  }

  /** What a quoted string holds, and where its closing quote is; the opening quote is already read. */
  function Unquote(s: string, escaping: bool): Option<(string, nat)> {
    if s == "" then None
    else if !escaping && s[0] == '"' then Some(("", 0))
    else
      match Unquote(s[1..], !escaping && s[0] == '\\')
      case None => None
      case Some((value, end)) =>
        Some((if !escaping && s[0] == '\\' then value else [s[0]] + value, end + 1))
  }

  function RegularParam(name: string, value: string): Param {
    if EqIgnoreCase(name, "name") then Name(value)
    else if EqIgnoreCase(name, "filename") then Filename(value)
    else Unknown(name, value)
  }

  function ExtendedParam(name: string, extended: Ext.ExtendedValue): Param {
    if EqIgnoreCase(name, "filename") then FilenameExt(extended) else UnknownExt(name, extended)
  }

  /** The value after `=`, and what is left after it and its separator. */
  function RegularValue(s: string): Option<(string, string)> {
    if s != "" && s[0] == '"' then
      match Unquote(s[1..], false)
      case None => None
      case Some((value, end)) =>
        if end + 2 <= |s| then Some((value, TrimStart(SplitOrEnd(s[end + 2..], ';').1))) else None
    else
      var (token, rest) := SplitAndTrim(s, ';');
      if token == "" then None else Some((token, rest))
  }

  /** The next parameter, and what is left after it. */
  function ParseParam(left: string, isTag: string -> bool): Result<(Param, string), Invalid> {
    var (name, rest) := SplitAndTrim(left, '=');
    if name == "" || name == "*" || rest == "" then Err(InvalidParameter)
    else if name[|name| - 1] == '*' then
      var (text, after) := SplitAndTrim(rest, ';');
      (match Ext.Parse(text, isTag)
       case Err(cause) => Err(InvalidExtended(cause))
       case Ok(extended) => Ok((ExtendedParam(name[..|name| - 1], extended), after)))
    else
      match RegularValue(rest)
      case None => Err(InvalidParameter)
      case Some((value, after)) => Ok((RegularParam(name, value), after))
  }

  lemma {:induction false} TrimStartShorter(s: string)
    ensures |TrimStart(s)| <= |s|
  {
    var w := TrimStartSplits(s);
    assert |s| == |w| + |TrimStart(s)|;
  }

  lemma RegularValueShorter(s: string)
    requires RegularValue(s).Some?
    ensures |RegularValue(s).value.1| <= |s|
  {
    if s != "" && s[0] == '"' {
      TrimStartShorter(SplitOrEnd(s[Unquote(s[1..], false).value.1 + 2..], ';').1);
    } else {
      TrimStartShorter(SplitOrEnd(s, ';').1);
    }
  }

  /** Every parameter consumes input. */
  lemma ParamConsumes(left: string, isTag: string -> bool)
    requires ParseParam(left, isTag).Ok?
    ensures |ParseParam(left, isTag).value.1| < |left|
  {
    var rest := SplitAndTrim(left, '=').1;
    TrimStartShorter(SplitOrEnd(left, '=').1);
    assert |rest| < |left|;
    TrimStartShorter(SplitOrEnd(rest, ';').1);
    if RegularValue(rest).Some? {
      RegularValueShorter(rest);
    }
  }

  function ParseParams(left: string, isTag: string -> bool): Result<seq<Param>, Invalid>
    decreases |left|
  {
    if left == "" then Ok([])
    else
      match ParseParam(left, isTag)
      case Err(error) => Err(error)
      case Ok((param, after)) =>
        ParamConsumes(left, isTag);
        match ParseParams(after, isTag)
        case Err(error) => Err(error)
        case Ok(params) => Ok([param] + params)
  }

  function FromRaw(value: string, isTag: string -> bool): Result<Header, Invalid> {
    var (name, left) := SplitAndTrim(Trim(value), ';');
    if name == "" then Err(TypeMissing)
    else match ParseParams(left, isTag)
      case Err(error) => Err(error)
      case Ok(params) => Ok(Header(TypeOf(name), params))
  }

  // ----- The parser's loops

  function Advance(value: string, n: nat, found: Option<(string, nat)>): Option<(string, nat)> {
    match found case None => None case Some((more, end)) => Some((value + more, n + end))
  }

  /** One character of a quoted string. */
  lemma UnquoteStep(quoted: string, n: nat, s: string, escaping: bool)
    requires s != ""
    ensures Advance(quoted, n, Unquote(s, escaping)) ==
            if !escaping && s[0] == '"' then Some((quoted, n))
            else Advance(if !escaping && s[0] == '\\' then quoted else quoted + [s[0]], n + 1,
                         Unquote(s[1..], !escaping && s[0] == '\\'))
  {
    var rest := Unquote(s[1..], !escaping && s[0] == '\\');
    if rest.Some? {
      assert quoted + [s[0]] + rest.value.0 == quoted + ([s[0]] + rest.value.0);
    }
    assert quoted + "" == quoted;
  }

  /** The loop over a quoted string that starts with its quote. */
  method ReadQuoted(left: string) returns (found: Option<(string, nat)>)
    requires left != "" && left[0] == '"'
    ensures found == Unquote(left[1..], false)
  {
    var escaping := false;
    var quoted := "";
    ghost var whole := Unquote(left[1..], false);
    assert whole.Some? ==> "" + whole.value.0 == whole.value.0;
    for i := 1 to |left|
      invariant whole == Advance(quoted, i - 1, Unquote(left[i..], escaping))
    {
      var c := left[i];
      UnquoteStep(quoted, i - 1, left[i..], escaping);
      assert left[i..][1..] == left[i + 1..];
      if escaping {
        escaping := false;
        quoted := quoted + [c];
      } else if c == '\\' {
        escaping := true;
      } else if c == '"' {
        return Some((quoted, i - 1));
      } else {
        quoted := quoted + [c];
      }
    }
    return None;
  }

  /** Parse one parameter off `left`. */
  method ReadParam(left: string, isTag: string -> bool) returns (res: Result<(Param, string), Invalid>)
    requires left != ""
    ensures res == ParseParam(left, isTag)
  {
    var (name, rest) := SplitAndTrim(left, '=');
    if name == "" || name == "*" || rest == "" {
      return Err(InvalidParameter);
    }
    if name[|name| - 1] == '*' {
      var (text, after) := SplitAndTrim(rest, ';');
      var extended := Ext.Parse(text, isTag);
      if extended.Err? {
        return Err(InvalidExtended(extended.error));
      }
      return Ok((ExtendedParam(name[..|name| - 1], extended.value), after));
    }
    var value, after;
    if rest[0] == '"' {
      var found := ReadQuoted(rest);
      if found.None? {
        return Err(InvalidParameter);
      }
      UnquoteEnds(rest[1..], false);
      value := found.value.0;
      after := TrimStart(SplitOrEnd(rest[found.value.1 + 2..], ';').1);
    } else {
      var (token, more) := SplitAndTrim(rest, ';');
      if token == "" {
        return Err(InvalidParameter);
      }
      value, after := token, more;
    }
    return Ok((RegularParam(name, value), after));
  }

  function Onto(params: seq<Param>, more: Result<seq<Param>, Invalid>): Result<seq<Param>, Invalid> {
    match more case Err(error) => Err(error) case Ok(rest) => Ok(params + rest)
  }

  /** One turn of the loop over the parameters. */
  lemma ParseStep(params: seq<Param>, left: string, isTag: string -> bool)
    requires left != ""
    ensures Onto(params, ParseParams(left, isTag)) ==
            match ParseParam(left, isTag)
            case Err(error) => Err(error)
            case Ok((param, after)) => Onto(params + [param], ParseParams(after, isTag))
  {
    if ParseParam(left, isTag).Ok? {
      var (param, after) := ParseParam(left, isTag).value;
      ParamConsumes(left, isTag);
      var rest := ParseParams(after, isTag);
      if rest.Ok? {
        assert params + [param] + rest.value == params + ([param] + rest.value);
      }
    }
  }

  method ReadHeader(raw: string, isTag: string -> bool) returns (res: Result<Header, Invalid>)
    ensures res == FromRaw(raw, isTag)
  {
    var (name, left) := SplitAndTrim(Trim(raw), ';');
    if name == "" {
      return Err(TypeMissing);
    }
    ghost var whole := ParseParams(left, isTag);
    var parameters: seq<Param> := [];
    assert whole.Ok? ==> parameters + whole.value == whole.value;
    while left != ""
      invariant whole == Onto(parameters, ParseParams(left, isTag))
      decreases |left|
    {
      ParseStep(parameters, left, isTag);
      var param := ReadParam(left, isTag);
      if param.Err? {
        return Err(param.error);
      }
      ParamConsumes(left, isTag);
      parameters := parameters + [param.value.0];
      left := param.value.1;
    }
    assert parameters + [] == parameters;
    return Ok(Header(TypeOf(name), parameters));
  }

  /** The closing quote lies inside the text, and the value is no longer than what precedes it. */
  lemma {:induction false} UnquoteEnds(s: string, escaping: bool)
    requires Unquote(s, escaping).Some?
    ensures var (value, end) := Unquote(s, escaping).value;
            end < |s| && s[end] == '"' && |value| <= end
  {
    if escaping || s[0] != '"' {
      UnquoteEnds(s[1..], !escaping && s[0] == '\\');
    }
  }
}
