/** Directive arguments as text: trimming, literals and the comma that splits them. */
module ViewText {
  import opened Prelude

  /** What a scanner or the compiler rejects, with the line it names. */
  datatype CompileError = CompileError(reason: Reason, line: nat)

  datatype Reason =
    | NeedsArguments(directive: Directive)
    | WithoutOpen(directive: Directive, expected: Directive)
    | BadEach(args: string)
    | MultipleExtends
    | BadArguments(directive: Directive, problem: Problem)
    | UnknownDirective(directive: Directive)
    | Unclosed(kind: Directive)
    | ParseFailure

  /** What is wrong with a directive's argument text. */
  datatype Problem =
    | NotLiteral(args: string)
    | Unterminated
    | InvalidLiteral
    | NeedsComma
    | NeedsValue
    | InDefault(problem: Problem)

  /** A directive by its name. `@raw` and `@endraw` never reach the compiler. */
  datatype Directive =
    | AtIf | AtElseIf | AtElse | AtEndIf
    | AtFor | AtEndFor
    | AtEach | AtEmpty | AtEndEach
    | AtSection | AtEndSection
    | AtPush | AtEndPush
    | AtPrepend | AtEndPrepend
    | AtComponent | AtEndComponent
    | AtExtends | AtSet | AtYield | AtInclude | AtStack
    | AtCsrf | AtMethod | AtRoute | AtAsset | AtIsland | AtIslands | AtCss | AtEscape
    | Unknown(name: string)

  /** The block a closing directive ends. */
  function Ends(directive: Directive): Option<Directive> {
    match directive
    case AtEndIf => Some(AtIf)
    case AtEndFor => Some(AtFor)
    case AtEndEach => Some(AtEach)
    case AtEndSection => Some(AtSection)
    case AtEndPush => Some(AtPush)
    case AtEndPrepend => Some(AtPrepend)
    case AtEndComponent => Some(AtComponent)
    case _ => None
  }

  predicate IsOpener(directive: Directive) {
    directive in {AtIf, AtFor, AtEach, AtSection, AtPush, AtPrepend, AtComponent}
  }

  /** JavaScript white space and line terminators. */
  predicate IsSpace(c: char) {
    || c == ' ' || '\t' <= c <= '\r' || c == '\U{A0}' || c == '\U{1680}' || '\U{2000}' <= c <= '\U{200A}'
    || c == '\U{2028}' || c == '\U{2029}' || c == '\U{202F}' || c == '\U{205F}' || c == '\U{3000}' || c == '\U{FEFF}'
  }

  function TrimStart(s: string): string {
    if s != [] && IsSpace(s[0]) then TrimStart(s[1..]) else s
  }

  function TrimEnd(s: string): string {
    if s != [] && IsSpace(s[|s| - 1]) then TrimEnd(s[..|s| - 1]) else s
  }

  function Trim(s: string): string {
    TrimEnd(TrimStart(s))
  }

  predicate IsQuote(c: char) {
    c == '\'' || c == '"' || c == '`'
  }

  // ----- The first top-level comma ------------------------------------------------------------------

  /** Where a scan of argument text stands: inside which quote, how deep in brackets, and
      whether the next character is escaped. */
  datatype Scan = Scan(quote: Option<char>, depth: int, escaped: bool)

  const FRESH := Scan(None, 0, false)

  function ScanChar(st: Scan, c: char): Scan {
    if st.escaped then st.(escaped := false)
    else if st.quote.Some? then
      if c == '\\' then st.(escaped := true)
      else if c == st.quote.value then st.(quote := None)
      else st
    else if IsQuote(c) then st.(quote := Some(c))
    else if c in {'(', '[', '{'} then st.(depth := st.depth + 1)
    else if c in {')', ']', '}'} then st.(depth := st.depth - 1)
    else st
  }

  /** The scan after the first `n` characters. */
  function ScanTo(args: string, n: nat): Scan
    requires n <= |args|
  {
    if n == 0 then FRESH else ScanChar(ScanTo(args, n - 1), args[n - 1])
  }

  predicate TopLevelComma(args: string, i: nat)
    requires i < |args|
  {
    args[i] == ',' && ScanTo(args, i) == FRESH
  }

  /** A comma is found exactly when one lies outside every quote and at bracket depth zero,
      and it is the first such comma. */
  method FindTopLevelComma(args: string) returns (comma: int)
    ensures -1 <= comma < |args|
    ensures comma >= 0 ==> TopLevelComma(args, comma)
    ensures forall i :: 0 <= i < (if comma < 0 then |args| else comma) ==> !TopLevelComma(args, i)
    ensures comma == CommaFrom(args, 0)
  {
    var depth := 0;
    var quote: Option<char> := None;
    var i := 0;
    while i < |args|
      invariant 0 <= i
      invariant i <= |args| ==> ScanTo(args, i) == Scan(quote, depth, false)
      invariant forall k :: 0 <= k < i && k < |args| ==> !TopLevelComma(args, k)
    {
      var ch := args[i];
      if quote.Some? {
        if ch == '\\' {
          i := i + 2;
          continue;
        }
        if ch == quote.value {
          quote := None;
        }
      } else if IsQuote(ch) {
        quote := Some(ch);
      } else if ch in {'(', '[', '{'} {
        depth := depth + 1;
      } else if ch in {')', ']', '}'} {
        depth := depth - 1;
      } else if ch == ',' && depth == 0 {
        CommaFromFirst(args, 0, i);
        return i;
      }
      i := i + 1;
    }
    CommaFromNone(args, 0);
    return -1;
  }

  /** The first top-level comma at or after `i`, or -1. */
  function CommaFrom(args: string, i: nat): int
    requires i <= |args|
    decreases |args| - i
  {
    if i == |args| then -1 else if TopLevelComma(args, i) then i else CommaFrom(args, i + 1)
  }

  lemma {:induction false} CommaFromFirst(args: string, i: nat, comma: nat)
    requires i <= comma < |args| && TopLevelComma(args, comma)
    requires forall k :: i <= k < comma ==> !TopLevelComma(args, k)
    ensures CommaFrom(args, i) == comma
    decreases comma - i
  {
    if i < comma {
      CommaFromFirst(args, i + 1, comma);
    }
  }

  lemma {:induction false} CommaFromNone(args: string, i: nat)
    requires i <= |args| && forall k :: i <= k < |args| ==> !TopLevelComma(args, k)
    ensures CommaFrom(args, i) == -1
    decreases |args| - i
  {
    if i < |args| {
      CommaFromNone(args, i + 1);
    }
  }

  lemma {:induction false} CommaFromBounds(args: string, i: nat)
    requires i <= |args|
    ensures -1 <= CommaFrom(args, i) < |args|
    decreases |args| - i
  {
    if i < |args| {
      CommaFromBounds(args, i + 1);
    }
  }

  function Comma(args: string): (comma: int)
    ensures -1 <= comma < |args|
  {
    CommaFromBounds(args, 0);
    CommaFrom(args, 0)
  }

  // ----- Literals and argument shapes ----------------------------------------------------------------

  /** Decoding of the escapes between two double quotes, as `JSON.parse` does; `None` when it throws. */
  type Unescape = string -> Option<string>

  function EscapeQuotes(s: string): string {
    if s == [] then [] else (if s[0] == '"' then "\\\"" else [s[0]]) + EscapeQuotes(s[1..])
  }

  function EvalStringLiteral(unescape: Unescape, args: string): Result<string, Problem> {
    var trimmed := Trim(args);
    if trimmed == [] || !IsQuote(trimmed[0]) then Err(NotLiteral(args))
    else if trimmed[|trimmed| - 1] != trimmed[0] then Err(Unterminated)
    else
      var inner := if |trimmed| == 1 then [] else trimmed[1..|trimmed| - 1];
      match unescape(EscapeQuotes(inner))
      case None => Err(InvalidLiteral)
      case Some(text) => Ok(text)
  }

  /** `@set('name', value)`. */
  function SplitSetArgs(unescape: Unescape, args: string): Result<(string, string), Problem> {
    var comma := Comma(args);
    if comma < 0 then Err(NeedsComma)
    else
      match EvalStringLiteral(unescape, args[..comma])
      case Err(problem) => Err(problem)
      case Ok(name) =>
        var value := Trim(args[comma + 1..]);
        if value == [] then Err(NeedsValue) else Ok((name, value))
  }

  /** `@yield('name')` or `@yield('name', 'default')`. */
  function SplitYieldArgs(unescape: Unescape, args: string): Result<(string, Option<string>), Problem> {
    var comma := Comma(args);
    if comma < 0 then
      match EvalStringLiteral(unescape, args)
      case Err(problem) => Err(problem)
      case Ok(name) => Ok((name, None))
    else
      match EvalStringLiteral(unescape, args[..comma])
      case Err(problem) => Err(problem)
      case Ok(name) =>
        match EvalStringLiteral(unescape, args[comma + 1..])
        case Err(problem) => Err(InDefault(problem))
        case Ok(fallback) => Ok((name, Some(fallback)))
  }

  /** `@include`, `@component` and `@island`: a literal name and an optional object expression. */
  function SplitNameAndObject(unescape: Unescape, args: string): Result<(string, string), Problem> {
    var comma := Comma(args);
    if comma < 0 then
      match EvalStringLiteral(unescape, args)
      case Err(problem) => Err(problem)
      case Ok(name) => Ok((name, "({})"))
    else
      match EvalStringLiteral(unescape, args[..comma])
      case Err(problem) => Err(problem)
      case Ok(name) =>
        var expr := Trim(args[comma + 1..]);
        Ok((name, if expr == [] then "({})" else "(" + expr + ")"))
  }

  // ----- `<item> in <collection>` -----------------------------------------------------------------------

  predicate IsIdentStart(c: char) {
    'a' <= c <= 'z' || 'A' <= c <= 'Z' || c == '_' || c == '$'
  }

  predicate IsIdentChar(c: char) {
    IsIdentStart(c) || '0' <= c <= '9'
  }

  function IdentLength(s: string): (n: nat)
    ensures n <= |s|
  {
    if s == [] || !IsIdentChar(s[0]) then 0 else 1 + IdentLength(s[1..])
  }

  /** The match of `^\s*([A-Za-z_$][\w$]*)\s+in\s+(.+)$`: the item and the collection. When only
      white space follows `in`, the pattern still matches if there are two characters of it. */
  function EachMatch(args: string): Option<(string, string)> {
    var s := TrimStart(args);
    if s == [] || !IsIdentStart(s[0]) then None
    else
      var n := IdentLength(s);
      var item, after := s[..n], s[n..];
      var keyword := TrimStart(after);
      if |keyword| == |after| || |keyword| < 2 || keyword[..2] != "in" then None
      else
        var tail := keyword[2..];
        var coll := TrimStart(tail);
        if |coll| == |tail| then None
        else if coll != [] then Some((item, coll))
        else if |tail| >= 2 then Some((item, tail[|tail| - 1..]))
        else None
  }

  /** How argument text is read: whether there is any, as a literal, as a name with an object, as
      a `@set` or `@yield` list, and as an `@each` clause. */
  datatype Syntax = Syntax(
    filled: string -> bool,
    literal: string -> Result<string, Problem>,
    named: string -> Result<(string, string), Problem>,
    setting: string -> Result<(string, string), Problem>,
    yielded: string -> Result<(string, Option<string>), Problem>,
    each: string -> Option<(string, string)>)

  /** The reading the compiler uses. Nothing else about argument text matters to it. */
  function StandardSyntax(unescape: Unescape): Syntax {
    Syntax(
      (args: string) => Trim(args) != [],
      (args: string) => EvalStringLiteral(unescape, args),
      (args: string) => SplitNameAndObject(unescape, args),
      (args: string) => SplitSetArgs(unescape, args),
      (args: string) => SplitYieldArgs(unescape, args),
      EachMatch)
  }

  // ----- Printing `'name', value` and splitting it again ------------------------------------------------

  /** A name that can stand between two `q` quotes as it is. */
  predicate PlainIn(name: string, q: char) {
    forall i :: 0 <= i < |name| ==> name[i] != q && name[i] != '\\'
  }

  function Quoted(name: string, q: char): string {
    [q] + name + [q]
  }

  lemma {:induction false} InsideQuotes(args: string, name: string, q: char, n: nat)
    requires IsQuote(q) && PlainIn(name, q) && n <= |name| && [q] + name <= args
    ensures ScanTo(args, n + 1) == Scan(Some(q), 0, false)
  {
    if n == 0 {
      assert ScanTo(args, 0) == FRESH;
    } else {
      InsideQuotes(args, name, q, n - 1);
      assert args[n] == name[n - 1];
    }
  }

  /** A comma right after a quoted name is the one that splits, whatever the name and the rest hold. */
  lemma CommaAfterName(name: string, q: char, rest: string)
    requires IsQuote(q) && PlainIn(name, q)
    ensures Comma(Quoted(name, q) + "," + rest) == |name| + 2
  {
    var args := Quoted(name, q) + "," + rest;
    assert [q] + name <= args;
    InsideQuotes(args, name, q, |name|);
    forall k | 0 <= k < |name| + 2
      ensures !TopLevelComma(args, k)
    {
      if k > 0 {
        InsideQuotes(args, name, q, k - 1);
      }
    }
    CommaFromFirst(args, 0, |name| + 2);
  }

  lemma QuotedIsLiteral(unescape: Unescape, name: string, q: char)
    requires IsQuote(q) && unescape(EscapeQuotes(name)) == Some(name)
    ensures EvalStringLiteral(unescape, Quoted(name, q)) == Ok(name)
  {
    var text := Quoted(name, q);
    assert TrimStart(text) == text && TrimEnd(text) == text;
    assert text[1..|text| - 1] == name;
  }

  lemma PartsOfPrinted(name: string, q: char, value: string)
    ensures var args := Quoted(name, q) + "," + value;
      |args| > |name| + 2 && args[..|name| + 2] == Quoted(name, q) && args[|name| + 3..] == value
  {
  }

  /** Splitting what was printed gives the name and the value back. */
  lemma SplitPrinted(unescape: Unescape, name: string, q: char, value: string)
    requires IsQuote(q) && PlainIn(name, q) && unescape(EscapeQuotes(name)) == Some(name)
    requires Trim(value) != []
    ensures SplitSetArgs(unescape, Quoted(name, q) + "," + value) == Ok((name, Trim(value)))
    ensures SplitNameAndObject(unescape, Quoted(name, q) + "," + value) == Ok((name, "(" + Trim(value) + ")"))
  {
    CommaAfterName(name, q, value);
    PartsOfPrinted(name, q, value);
    QuotedIsLiteral(unescape, name, q);
  }
}
