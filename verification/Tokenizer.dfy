/** The template scanner: `{{ }}`, `{!! !!}`, comments, directives and text. */
module Tokenizer {
  import opened Prelude
  import opened ViewText
  import opened Template

  // ----- The frozen directive set ---------------------------------------------------------------------------

  datatype Word = Directive(directive: Directive) | RawOpen | RawClose

  /** Which `@word`s are directives. */
  type Names = string -> Option<Word>

  function NameOf(directive: Directive): string {
    match directive
    case AtIf => "if"
    case AtElseIf => "elseif"
    case AtElse => "else"
    case AtEndIf => "endif"
    case AtFor => "for"
    case AtEndFor => "endfor"
    case AtEach => "each"
    case AtEmpty => "empty"
    case AtEndEach => "endeach"
    case AtExtends => "extends"
    case AtSection => "section"
    case AtEndSection => "endsection"
    case AtSet => "set"
    case AtYield => "yield"
    case AtInclude => "include"
    case AtPush => "push"
    case AtEndPush => "endpush"
    case AtPrepend => "prepend"
    case AtEndPrepend => "endprepend"
    case AtStack => "stack"
    case AtCsrf => "csrf"
    case AtMethod => "method"
    case AtRoute => "route"
    case AtAsset => "asset"
    case AtIsland => "island"
    case AtIslands => "islands"
    case AtCss => "css"
    case AtEscape => "escape"
    case AtComponent => "component"
    case AtEndComponent => "endcomponent"
    case Unknown(name) => name
  }

  function Frozen(name: string): Option<Word> {
    if name == "if" then Some(Word.Directive(AtIf))
    else if name == "elseif" then Some(Word.Directive(AtElseIf))
    else if name == "else" then Some(Word.Directive(AtElse))
    else if name == "endif" then Some(Word.Directive(AtEndIf))
    else if name == "for" then Some(Word.Directive(AtFor))
    else if name == "endfor" then Some(Word.Directive(AtEndFor))
    else if name == "each" then Some(Word.Directive(AtEach))
    else if name == "empty" then Some(Word.Directive(AtEmpty))
    else if name == "endeach" then Some(Word.Directive(AtEndEach))
    else if name == "extends" then Some(Word.Directive(AtExtends))
    else if name == "section" then Some(Word.Directive(AtSection))
    else if name == "endsection" then Some(Word.Directive(AtEndSection))
    else if name == "set" then Some(Word.Directive(AtSet))
    else if name == "yield" then Some(Word.Directive(AtYield))
    else if name == "include" then Some(Word.Directive(AtInclude))
    else if name == "push" then Some(Word.Directive(AtPush))
    else if name == "endpush" then Some(Word.Directive(AtEndPush))
    else if name == "prepend" then Some(Word.Directive(AtPrepend))
    else if name == "endprepend" then Some(Word.Directive(AtEndPrepend))
    else if name == "stack" then Some(Word.Directive(AtStack))
    else if name == "csrf" then Some(Word.Directive(AtCsrf))
    else if name == "method" then Some(Word.Directive(AtMethod))
    else if name == "route" then Some(Word.Directive(AtRoute))
    else if name == "asset" then Some(Word.Directive(AtAsset))
    else if name == "island" then Some(Word.Directive(AtIsland))
    else if name == "islands" then Some(Word.Directive(AtIslands))
    else if name == "css" then Some(Word.Directive(AtCss))
    else if name == "escape" then Some(Word.Directive(AtEscape))
    else if name == "component" then Some(Word.Directive(AtComponent))
    else if name == "endcomponent" then Some(Word.Directive(AtEndComponent))
    else if name == "raw" then Some(RawOpen)
    else if name == "endraw" then Some(RawClose)
    else None
  }

  const FROZEN: Names := (name: string) => Frozen(name)

  lemma FrozenBlocks(directive: Directive)
    requires directive in {AtIf, AtElseIf, AtElse, AtEndIf, AtFor, AtEndFor, AtEach, AtEmpty, AtEndEach}
    ensures Frozen(NameOf(directive)) == Some(Word.Directive(directive))
  {
  }

  lemma FrozenCaptures(directive: Directive)
    requires directive in {AtSection, AtEndSection, AtPush, AtEndPush, AtPrepend, AtEndPrepend, AtComponent,
      AtEndComponent}
    ensures Frozen(NameOf(directive)) == Some(Word.Directive(directive))
  {
  }

  lemma FrozenLayouts(directive: Directive)
    requires directive in {AtExtends, AtSet, AtYield, AtInclude, AtStack, AtIsland, AtIslands}
    ensures Frozen(NameOf(directive)) == Some(Word.Directive(directive))
  {
  }

  lemma FrozenHelpers(directive: Directive)
    requires directive in {AtCsrf, AtMethod, AtRoute}
    ensures Frozen(NameOf(directive)) == Some(Word.Directive(directive))
  {
  }

  lemma FrozenAssets(directive: Directive)
    requires directive in {AtAsset, AtCss, AtEscape}
    ensures Frozen(NameOf(directive)) == Some(Word.Directive(directive))
  {
  }

  /** Every directive is found under its own name. */
  lemma FrozenNames(directive: Directive)
    requires !directive.Unknown?
    ensures Frozen(NameOf(directive)) == Some(Word.Directive(directive))
  {
    if directive in {AtIf, AtElseIf, AtElse, AtEndIf, AtFor, AtEndFor, AtEach, AtEmpty, AtEndEach} {
      FrozenBlocks(directive);
    } else if directive in {AtExtends, AtSet, AtYield, AtInclude, AtStack, AtIsland, AtIslands} {
      FrozenLayouts(directive);
    } else if directive in {AtCsrf, AtMethod, AtRoute} {
      FrozenHelpers(directive);
    } else if directive in {AtAsset, AtCss, AtEscape} {
      FrozenAssets(directive);
    } else {
      FrozenCaptures(directive);
    }
  }

  predicate IsWordChar(c: char) {
    'a' <= c <= 'z' || 'A' <= c <= 'Z'
  }

  lemma NamesAreWords(directive: Directive)
    requires !directive.Unknown?
    ensures NameOf(directive) != "" && forall i :: 0 <= i < |NameOf(directive)| ==> IsWordChar(NameOf(directive)[i])
  {
  }

  // ----- Delimiters -----------------------------------------------------------------------------------------------

  function Shift(n: nat, k: Option<nat>): Option<nat> {
    match k
    case None => None
    case Some(i) => Some(n + i)
  }

  /** The first occurrence of `needle`. */
  function IndexOf(s: string, needle: string): Option<nat>
    requires needle != ""
  {
    if needle <= s then Some(0) else if s == "" then None else Shift(1, IndexOf(s[1..], needle))
  }

  /** Where the `}}` outside every quote is; see `CloseAtIsFirst`. */
  function CloseAt(s: string, quote: Option<char>): Option<nat> {
    if s == "" then None
    else if quote.None? then
      if IsQuote(s[0]) then Shift(1, CloseAt(s[1..], Some(s[0])))
      else if "}}" <= s then Some(0)
      else Shift(1, CloseAt(s[1..], None))
    else if s[0] == '\\' then
      if |s| < 2 then None else Shift(2, CloseAt(s[2..], quote))
    else Shift(1, CloseAt(s[1..], if s[0] == quote.value then None else quote))
  }

  /** Where the `)` that takes the depth to zero is, outside every quote; see `ParenAtIsFirst`. */
  function ParenAt(s: string, depth: int, quote: Option<char>): Option<nat> {
    if s == "" then None
    else if quote.Some? then
      if s[0] == '\\' then
        if |s| < 2 then None else Shift(2, ParenAt(s[2..], depth, quote))
      else Shift(1, ParenAt(s[1..], depth, if s[0] == quote.value then None else quote))
    else if IsQuote(s[0]) then Shift(1, ParenAt(s[1..], depth, Some(s[0])))
    else if s[0] == '(' then Shift(1, ParenAt(s[1..], depth + 1, None))
    else if s[0] == ')' then
      if depth == 1 then Some(0) else Shift(1, ParenAt(s[1..], depth - 1, None))
    else Shift(1, ParenAt(s[1..], depth, None))
  }

  // ----- What the two scans find ---------------------------------------------------------------------------

  /** The character at `i` is outside every quote. */
  predicate Outside(s: string, i: nat)
    requires i <= |s|
  {
    ScanTo(s, i).quote.None? && !ScanTo(s, i).escaped
  }

  predicate ClosesHere(s: string, i: nat) {
    i <= |s| && Outside(s, i) && "}}" <= s[i..]
  }

  /** Opening less closing parentheses outside quotes, in the first `n` characters. */
  function ParenDepth(s: string, n: nat): int
    requires n <= |s|
  {
    if n == 0 then 0
    else
      ParenDepth(s, n - 1)
      + if !Outside(s, n - 1) then 0 else if s[n - 1] == '(' then 1 else if s[n - 1] == ')' then -1 else 0
  }

  /** The parenthesis that brings the depth from one to zero. */
  predicate BalancesHere(s: string, i: nat) {
    i < |s| && s[i] == ')' && Outside(s, i) && ParenDepth(s, i) == 1
  }

  /** A quoted backslash and what it escapes: two characters inside the quote. */
  lemma Escaped2(s: string, i: nat)
    requires i < |s| && ScanTo(s, i).quote.Some? && !ScanTo(s, i).escaped && s[i] == '\\'
    ensures !Outside(s, i) && !Outside(s, i + 1)
    ensures i + 2 <= |s| ==> ScanTo(s, i + 2).quote == ScanTo(s, i).quote && !ScanTo(s, i + 2).escaped
    ensures i + 2 <= |s| ==> ParenDepth(s, i + 2) == ParenDepth(s, i)
  {
    assert ScanTo(s, i + 1) == ScanTo(s, i).(escaped := true);
  }

  /** `found` counts from `from` to the first such place, if there is one. */
  ghost predicate FirstClose(s: string, from: nat, found: Option<nat>) {
    match found
    case None => forall k: nat :: from <= k ==> !ClosesHere(s, k)
    case Some(d) => ClosesHere(s, from + d) && forall k :: from <= k < from + d ==> !ClosesHere(s, k)
  }

  lemma LaterClose(s: string, from: nat, n: nat, found: Option<nat>)
    requires FirstClose(s, from + n, found) && forall k :: from <= k < from + n ==> !ClosesHere(s, k)
    ensures FirstClose(s, from, Shift(n, found))
  {
  }

  lemma {:induction false} CloseAtIsFirst(s: string, i: nat, quote: Option<char>)
    requires i <= |s| && ScanTo(s, i).quote == quote && !ScanTo(s, i).escaped
    ensures FirstClose(s, i, CloseAt(s[i..], quote))
    decreases |s| - i
  {
    if i < |s| {
      Drop(s, i, 1);
      if quote.Some? && s[i] == '\\' {
        Escaped2(s, i);
        if i + 2 <= |s| {
          Drop(s, i, 2);
          CloseAtIsFirst(s, i + 2, quote);
          LaterClose(s, i, 2, CloseAt(s[i + 2..], quote));
        }
      } else if !ClosesHere(s, i) {
        var quote1 := ScanTo(s, i + 1).quote;
        CloseAtIsFirst(s, i + 1, quote1);
        LaterClose(s, i, 1, CloseAt(s[i + 1..], quote1));
        OneCharNoClose(s, i, quote);
      }
    }
  }

  lemma OneCharNoClose(s: string, i: nat, quote: Option<char>)
    requires i < |s| && ScanTo(s, i).quote == quote && !ScanTo(s, i).escaped && !ClosesHere(s, i)
    requires quote.Some? ==> s[i] != '\\'
    ensures CloseAt(s[i..], quote) == Shift(1, CloseAt(s[i + 1..], ScanTo(s, i + 1).quote))
  {
    Drop(s, i, 1);
  }

  /** `found` counts from `from` to the first such place, if there is one. */
  ghost predicate FirstBalance(s: string, from: nat, found: Option<nat>) {
    match found
    case None => forall k: nat :: from <= k ==> !BalancesHere(s, k)
    case Some(d) => BalancesHere(s, from + d) && forall k :: from <= k < from + d ==> !BalancesHere(s, k)
  }

  lemma LaterBalance(s: string, from: nat, n: nat, found: Option<nat>)
    requires FirstBalance(s, from + n, found) && forall k :: from <= k < from + n ==> !BalancesHere(s, k)
    ensures FirstBalance(s, from, Shift(n, found))
  {
  }

  lemma {:induction false} ParenAtIsFirst(s: string, i: nat, depth: int, quote: Option<char>)
    requires i <= |s| && ScanTo(s, i).quote == quote && !ScanTo(s, i).escaped && ParenDepth(s, i) == depth
    ensures FirstBalance(s, i, ParenAt(s[i..], depth, quote))
    decreases |s| - i
  {
    if i < |s| {
      Drop(s, i, 1);
      if quote.Some? && s[i] == '\\' {
        Escaped2(s, i);
        if i + 2 <= |s| {
          Drop(s, i, 2);
          ParenAtIsFirst(s, i + 2, depth, quote);
          LaterBalance(s, i, 2, ParenAt(s[i + 2..], depth, quote));
        }
      } else if !BalancesHere(s, i) {
        var next, quote1 := ParenDepth(s, i + 1), ScanTo(s, i + 1).quote;
        ParenAtIsFirst(s, i + 1, next, quote1);
        LaterBalance(s, i, 1, ParenAt(s[i + 1..], next, quote1));
      }
    }
  }

  const ENDRAW := "@endraw"

  predicate EndRawHere(s: string) {
    ENDRAW <= s && (|s| == |ENDRAW| || !IsWordChar(s[|ENDRAW|]))
  }

  function RawCloseAt(s: string): Option<nat> {
    if s == "" then None else if EndRawHere(s) then Some(0) else Shift(1, RawCloseAt(s[1..]))
  }

  function WordLength(s: string): (n: nat)
    ensures n <= |s|
  {
    if s != "" && IsWordChar(s[0]) then 1 + WordLength(s[1..]) else 0
  }

  function Newlines(s: string): nat {
    if s == "" then 0 else (if s[0] == '\n' then 1 else 0) + Newlines(s[1..])
  }

  lemma {:induction false} CloseAtBounds(s: string, quote: Option<char>)
    ensures var k := CloseAt(s, quote); k.Some? ==> k.value + 2 <= |s|
  {
    if s != "" {
      CloseAtBounds(s[1..], None);
      CloseAtBounds(s[1..], Some(s[0]));
      CloseAtBounds(s[1..], quote);
      if |s| >= 2 {
        CloseAtBounds(s[2..], quote);
      }
    }
  }

  lemma {:induction false} ParenAtBounds(s: string, depth: int, quote: Option<char>)
    ensures var k := ParenAt(s, depth, quote); k.Some? ==> k.value < |s|
  {
    if s != "" {
      ParenAtBounds(s[1..], depth, None);
      ParenAtBounds(s[1..], depth + 1, None);
      ParenAtBounds(s[1..], depth - 1, None);
      ParenAtBounds(s[1..], depth, Some(s[0]));
      ParenAtBounds(s[1..], depth, quote);
      if |s| >= 2 {
        ParenAtBounds(s[2..], depth, quote);
      }
    }
  }

  lemma {:induction false} RawCloseBounds(s: string)
    ensures var k := RawCloseAt(s); k.Some? ==> k.value + |ENDRAW| <= |s|
  {
    if s != "" && !EndRawHere(s) {
      RawCloseBounds(s[1..]);
    }
  }

  lemma {:induction false} IndexOfBounds(s: string, needle: string)
    requires needle != ""
    ensures var k := IndexOf(s, needle); k.Some? ==> k.value + |needle| <= |s|
  {
    if !(needle <= s) && s != "" {
      IndexOfBounds(s[1..], needle);
    }
  }

  // ----- The scan --------------------------------------------------------------------------------

  datatype ScanError =
    | UnclosedComment(line: nat)
    | UnclosedRaw(line: nat)
    | UnclosedEscaped(line: nat)
    | UnclosedArgs(name: string, line: nat)
    | UnclosedRawBlock(line: nat)
    | StrayEndRaw(line: nat)

  /** A token, where its own first character is, and where the run it ends up in began: for text
      that is where the last token ended, comments included. */
  datatype Spot = Spot(token: Token, at: nat, from: nat)

  /** Text gathered so far, the line recorded for it, and where its run and its first character are. */
  datatype Pending = Pending(text: string, line: nat, from: nat, at: nat)

  function Flush(p: Pending): seq<Spot> {
    if p.text == "" then [] else [Spot(Text(p.text, p.line), p.at, p.from)]
  }

  function Fresh(line: nat, pos: nat): Pending {
    Pending("", line, pos, pos)
  }

  function Add(p: Pending, c: char, pos: nat): Pending {
    p.(text := p.text + [c], at := if p.text == "" then pos else p.at)
  }

  function Onto(spots: seq<Spot>, rest: Result<seq<Spot>, ScanError>): Result<seq<Spot>, ScanError> {
    match rest
    case Err(error) => Err(error)
    case Ok(more) => Ok(spots + more)
  }

  /** One lexeme at the front of `s`: how long it is and the token it makes. */
  datatype Lexeme =
    | Comment(length: nat)
    | Emits(token: Token, length: nat)
    | Plain
    | Fails(error: ScanError)

  function LexComment(s: string, line: nat): Lexeme
    requires "{{--" <= s
  {
    match IndexOf(s[4..], "--}}")
    case None => Fails(UnclosedComment(line))
    case Some(k) => Comment(4 + k + 4)
  }

  function LexRaw(s: string, line: nat): Lexeme
    requires "{!!" <= s
  {
    IndexOfBounds(s[3..], "!!}");
    match IndexOf(s[3..], "!!}")
    case None => Fails(UnclosedRaw(line))
    case Some(k) => Emits(Raw(Trim(s[3..3 + k]), line), 3 + k + 3)
  }

  function LexEscaped(s: string, line: nat): Lexeme
    requires "{{" <= s
  {
    CloseAtBounds(s[2..], None);
    match CloseAt(s[2..], None)
    case None => Fails(UnclosedEscaped(line))
    case Some(k) => Emits(Escaped(Trim(s[2..2 + k]), line), 2 + k + 2)
  }

  /** A directive's argument list, if the very next character opens one: its text and its end. */
  datatype ArgList = NoArgs | Given(args: string, end: nat) | Open

  function LexArgs(s: string, after: nat): (list: ArgList)
    requires after <= |s|
    ensures list.Given? ==> after < list.end <= |s|
  {
    if after == |s| || s[after] != '(' then NoArgs
    else
      ParenAtBounds(s[after..], 0, None);
      match ParenAt(s[after..], 0, None)
      case None => Open
      case Some(k) => Given(s[after + 1..after + k], after + k + 1)
  }

  function LexDirective(names: Names, s: string, line: nat): Lexeme
    requires s != "" && s[0] == '@'
  {
    var after := 1 + WordLength(s[1..]);
    var name := s[1..after];
    var word := names(name);
    if name == "" || word.None? then Plain
    else
      match LexArgs(s, after)
      case Open => Fails(UnclosedArgs(name, line))
      case NoArgs => LexWord(word.value, s, None, after, line)
      case Given(args, end) => LexWord(word.value, s, Some(args), end, line)
  }

  /** `@raw` swallows everything up to `@endraw` as one text; other directives stand alone. */
  function LexWord(word: Word, s: string, args: Option<string>, after: nat, line: nat): Lexeme
    requires after <= |s|
  {
    match word
    case Directive(directive) => Emits(At(directive, args, line), after)
    case RawClose => Fails(StrayEndRaw(line))
    case RawOpen =>
      RawCloseBounds(s[after..]);
      match RawCloseAt(s[after..])
      case None => Fails(UnclosedRawBlock(line))
      case Some(k) => Emits(Text(s[after..after + k], line), after + k + |ENDRAW|)
  }

  /** `textLine` is the line a comment error names. */
  function Lex(names: Names, s: string, line: nat, textLine: nat): Lexeme {
    if s == "" then Plain
    else if "{{--" <= s then LexComment(s, textLine)
    else if "{!!" <= s then LexRaw(s, line)
    else if "{{" <= s then LexEscaped(s, line)
    else if s[0] == '@' then LexDirective(names, s, line)
    else Plain
  }

  lemma LexWordLength(word: Word, s: string, args: Option<string>, after: nat, line: nat)
    requires 0 < after <= |s|
    ensures var lexeme := LexWord(word, s, args, after, line);
      !lexeme.Comment? && (lexeme.Emits? ==> 0 < lexeme.length <= |s|)
  {
    RawCloseBounds(s[after..]);
  }

  lemma LexDirectiveLength(names: Names, s: string, line: nat)
    requires s != "" && s[0] == '@'
    ensures var lexeme := LexDirective(names, s, line);
      !lexeme.Comment? && (lexeme.Emits? ==> 0 < lexeme.length <= |s|)
  {
    var after := 1 + WordLength(s[1..]);
    var word := names(s[1..after]);
    if word.Some? {
      match LexArgs(s, after) {
        case Open =>
        case NoArgs => LexWordLength(word.value, s, None, after, line);
        case Given(args, end) => LexWordLength(word.value, s, Some(args), end, line);
      }
    }
  }

  /** A lexeme lies within the text it was read from. */
  predicate Fits(lexeme: Lexeme, s: string) {
    (lexeme.Comment? || lexeme.Emits?) ==> 0 < lexeme.length <= |s|
  }

  lemma LexLength(names: Names, s: string, line: nat, textLine: nat)
    ensures s != "" ==> Fits(Lex(names, s, line, textLine), s)
  {
    if s == "" {
    } else if "{{--" <= s {
      IndexOfBounds(s[4..], "--}}");
    } else if "{!!" <= s {
      IndexOfBounds(s[3..], "!!}");
    } else if "{{" <= s {
      CloseAtBounds(s[2..], None);
    } else if s[0] == '@' {
      LexDirectiveLength(names, s, line);
    }
  }

  ghost predicate LexerOk(lexer: (string, nat, nat) -> Lexeme) {
    forall s: string, l: nat, t: nat :: s != "" ==> Fits(lexer(s, l, t), s)
  }

  /** How the front of a text is read, given its line and the line recorded for pending text. */
  type Lexer = lexer: (string, nat, nat) -> Lexeme | LexerOk(lexer) witness (s: string, l: nat, t: nat) => Plain

  function LexerFor(names: Names): Lexer {
    LexesOk(names);
    (s: string, l: nat, t: nat) => Lex(names, s, l, t)
  }

  lemma LexesOk(names: Names)
    ensures LexerOk((s: string, l: nat, t: nat) => Lex(names, s, l, t))
  {
    forall s: string, l: nat, t: nat | s != ""
      ensures Fits(Lex(names, s, l, t), s)
    {
      LexLength(names, s, l, t);
    }
  }

  /** Stated so that `Lex` is looked into only where it is mentioned. */
  ghost predicate Agrees(lexer: Lexer, names: Names) {
    forall s: string, l: nat, t: nat {:trigger Lex(names, s, l, t)} :: lexer(s, l, t) == Lex(names, s, l, t)
  }

  /** The scan of what is left, `s`, which starts at `pos` on line `line`. */
  function ScanFrom(lexer: Lexer, s: string, pos: nat, line: nat, p: Pending): Result<seq<Spot>, ScanError>
    decreases |s|
  {
    if s == "" then Ok(Flush(p))
    else
      match lexer(s, line, p.line)
      case Fails(error) => Err(error)
      case Comment(n) => ScanFrom(lexer, s[n..], pos + n, line + Newlines(s[..n]), p)
      case Emits(token, n) =>
        var line1 := line + Newlines(s[..n]);
        Onto(Flush(p) + [Spot(token, pos, pos)], ScanFrom(lexer, s[n..], pos + n, line1, Fresh(line1, pos + n)))
      case Plain =>
        ScanFrom(lexer, s[1..], pos + 1, line + Newlines(s[..1]), Add(p, s[0], pos))
  }

  /** Every token of a source with where it comes from. */
  function ScanAll(lexer: Lexer, source: string): Result<seq<Spot>, ScanError> {
    ScanFrom(lexer, source, 0, 1, Fresh(1, 0))
  }

  function Spots(names: Names, source: string): Result<seq<Spot>, ScanError> {
    ScanAll(LexerFor(names), source)
  }

  function TokensOf(spots: seq<Spot>): seq<Token> {
    if spots == [] then [] else [spots[0].token] + TokensOf(spots[1..])
  }

  function Scanned(result: Result<seq<Spot>, ScanError>): Result<seq<Token>, ScanError> {
    match result
    case Err(error) => Err(error)
    case Ok(spots) => Ok(TokensOf(spots))
  }

  // ----- The scanner as it is written ------------------------------------------------------------

  function Found(from: nat, k: Option<nat>): int {
    match k
    case None => -1
    case Some(i) => from + i
  }

  /** An index counted from `from` on, or nothing for -1. */
  function Offset(from: nat, index: int): Option<nat> {
    if index < from then None else Some(index - from)
  }

  lemma FirstFound(from: nat, k: Option<nat>)
    ensures Offset(from, Found(from, k)) == k
  {
  }

  lemma Cut(source: string, i: nat, from: nat, to: nat)
    requires from <= to && i + to <= |source|
    ensures source[i..][from..to] == source[i + from..i + to]
  {
  }

  lemma CloseFound(source: string, from: nat)
    requires from <= |source|
    ensures FirstClose(source[from..], 0, Offset(from, Found(from, CloseAt(source[from..], None))))
  {
    FirstFound(from, CloseAt(source[from..], None));
    assert source[from..][0..] == source[from..];
    CloseAtIsFirst(source[from..], 0, None);
  }

  lemma ParenFound(source: string, from: nat)
    requires from <= |source|
    ensures FirstBalance(source[from..], 0, Offset(from, Found(from, ParenAt(source[from..], 0, None))))
  {
    FirstFound(from, ParenAt(source[from..], 0, None));
    assert source[from..][0..] == source[from..];
    ParenAtIsFirst(source[from..], 0, 0, None);
  }

  lemma Drop(source: string, i: nat, n: nat)
    requires i + n <= |source|
    ensures source[i..][n..] == source[i + n..]
  {
  }

  /** The first `}}` outside the quotes that open after `from`, or -1 if there is none. */
  method FindMatchingClose(source: string, from: nat) returns (close: int)
    requires from <= |source|
    ensures close == Found(from, CloseAt(source[from..], None))
    ensures FirstClose(source[from..], 0, Offset(from, close))
  {
    CloseFound(source, from);
    var i := from;
    var quote: Option<char> := None;
    while i < |source|
      invariant from <= i
      invariant i > |source| ==> CloseAt(source[from..], None) == None
      invariant i <= |source| ==> Found(from, CloseAt(source[from..], None)) == Found(i, CloseAt(source[i..], quote))
    {
      var ch := source[i];
      Drop(source, i, 1);
      if quote.None? {
        if IsQuote(ch) {
          quote := Some(ch);
        } else if "}}" <= source[i..] {
          return i;
        }
      } else {
        if ch == '\\' {
          if i + 2 <= |source| {
            Drop(source, i, 2);
          }
          i := i + 2;
          continue;
        }
        if ch == quote.value {
          quote := None;
        }
      }
      i := i + 1;
    }
    return -1;
  }

  /** The first `)` outside quotes that balances the parentheses since `start`, or -1. */
  method FindMatchingParen(source: string, start: nat) returns (close: int)
    requires start <= |source|
    ensures close == Found(start, ParenAt(source[start..], 0, None))
    ensures FirstBalance(source[start..], 0, Offset(start, close))
  {
    ParenFound(source, start);
    var depth := 0;
    var i := start;
    var quote: Option<char> := None;
    while i < |source|
      invariant start <= i
      invariant i > |source| ==> ParenAt(source[start..], 0, None) == None
      invariant i <= |source| ==>
        Found(start, ParenAt(source[start..], 0, None)) == Found(i, ParenAt(source[i..], depth, quote))
    {
      var ch := source[i];
      Drop(source, i, 1);
      if quote.Some? {
        if ch == '\\' {
          if i + 2 <= |source| {
            Drop(source, i, 2);
          }
          i := i + 2;
          continue;
        }
        if ch == quote.value {
          quote := None;
        }
        i := i + 1;
        continue;
      }
      if IsQuote(ch) {
        quote := Some(ch);
      } else if ch == '(' {
        depth := depth + 1;
      } else if ch == ')' {
        depth := depth - 1;
        if depth == 0 {
          return i;
        }
      }
      i := i + 1;
    }
    return -1;
  }

  method FindRawClose(source: string, from: nat) returns (close: int)
    requires from <= |source|
    ensures close == Found(from, RawCloseAt(source[from..]))
  {
    var i := from;
    while i < |source|
      invariant from <= i <= |source|
      invariant Found(from, RawCloseAt(source[from..])) == Found(i, RawCloseAt(source[i..]))
    {
      Drop(source, i, 1);
      if EndRawHere(source[i..]) {
        return i;
      }
      i := i + 1;
    }
    return -1;
  }

  /** `source.indexOf(needle, from)`. */
  method Search(source: string, needle: string, from: nat) returns (index: int)
    requires from <= |source| && needle != ""
    ensures index == Found(from, IndexOf(source[from..], needle))
  {
    var i := from;
    while i < |source|
      invariant from <= i <= |source|
      invariant Found(from, IndexOf(source[from..], needle)) == Found(i, IndexOf(source[i..], needle))
    {
      Drop(source, i, 1);
      if needle <= source[i..] {
        return i;
      }
      i := i + 1;
    }
    return -1;
  }

  method CountLines(text: string) returns (lines: nat)
    ensures lines == Newlines(text)
  {
    lines := 0;
    var k := 0;
    while k < |text|
      invariant 0 <= k <= |text| && Newlines(text) == lines + Newlines(text[k..])
    {
      if text[k] == '\n' {
        lines := lines + 1;
      }
      k := k + 1;
    }
  }

  method ReadName(source: string, start: nat) returns (end: nat)
    requires start <= |source|
    ensures end == start + WordLength(source[start..])
  {
    end := start;
    while end < |source| && IsWordChar(source[end])
      invariant start <= end <= |source|
      invariant WordLength(source[start..]) == end - start + WordLength(source[end..])
    {
      Drop(source, end, 1);
      end := end + 1;
    }
  }

  method ReadArgs(source: string, i: nat, end: nat) returns (list: ArgList)
    requires i <= end <= |source|
    ensures list == LexArgs(source[i..], end - i)
  {
    var after := end - i;
    Drop(source, i, after);
    if end == |source| || source[end] != '(' {
      return NoArgs;
    }
    ParenAtBounds(source[end..], 0, None);
    var close := FindMatchingParen(source, end);
    if close == -1 {
      return Open;
    }
    Cut(source, i, after + 1, close - i);
    return Given(source[end + 1..close], close + 1 - i);
  }

  /** The directive at `i`, where `source[i]` is `@`. */
  method ReadDirective(names: Names, source: string, i: nat, line: nat) returns (lexeme: Lexeme)
    requires i < |source| && source[i] == '@'
    ensures lexeme == LexDirective(names, source[i..], line)
  {
    Drop(source, i, 1);
    var end := ReadName(source, i + 1);
    var name := source[i + 1..end];
    Cut(source, i, 1, end - i);
    var word := names(name);
    if name == "" || word.None? {
      return Plain;
    }
    var list := ReadArgs(source, i, end);
    match list {
      case Open => return Fails(UnclosedArgs(name, line));
      case NoArgs => lexeme := ReadWord(word.value, source, i, None, end, line);
      case Given(args, last) => lexeme := ReadWord(word.value, source, i, Some(args), i + last, line);
    }
  }

  method ReadWord(word: Word, source: string, i: nat, args: Option<string>, after: nat, line: nat)
      returns (lexeme: Lexeme)
    requires i <= after <= |source|
    ensures lexeme == LexWord(word, source[i..], args, after - i, line)
  {
    if word.RawOpen? {
      Drop(source, i, after - i);
      var close := FindRawClose(source, after);
      if close == -1 {
        return Fails(UnclosedRawBlock(line));
      }
      RawCloseBounds(source[after..]);
      assert source[after..close] == source[i..][after - i..close - i];
      return Emits(Text(source[after..close], line), close + |ENDRAW| - i);
    }
    if word.RawClose? {
      return Fails(StrayEndRaw(line));
    }
    return Emits(At(word.directive, args, line), after - i);
  }

  method ReadComment(source: string, i: nat, textLine: nat) returns (lexeme: Lexeme)
    requires i < |source| && "{{--" <= source[i..]
    ensures lexeme == LexComment(source[i..], textLine)
  {
    Drop(source, i, 4);
    var close := Search(source, "--}}", i + 4);
    return if close == -1 then Fails(UnclosedComment(textLine)) else Comment(close + 4 - i);
  }

  method ReadRaw(source: string, i: nat, line: nat) returns (lexeme: Lexeme)
    requires i < |source| && "{!!" <= source[i..]
    ensures lexeme == LexRaw(source[i..], line)
  {
    Drop(source, i, 3);
    IndexOfBounds(source[i + 3..], "!!}");
    var close := Search(source, "!!}", i + 3);
    if close == -1 {
      return Fails(UnclosedRaw(line));
    }
    assert source[i + 3..close] == source[i..][3..close - i];
    return Emits(Raw(Trim(source[i + 3..close]), line), close + 3 - i);
  }

  method ReadEscaped(source: string, i: nat, line: nat) returns (lexeme: Lexeme)
    requires i < |source| && "{{" <= source[i..]
    ensures lexeme == LexEscaped(source[i..], line)
  {
    Drop(source, i, 2);
    CloseAtBounds(source[i + 2..], None);
    var close := FindMatchingClose(source, i + 2);
    if close == -1 {
      return Fails(UnclosedEscaped(line));
    }
    assert source[i + 2..close] == source[i..][2..close - i];
    return Emits(Escaped(Trim(source[i + 2..close]), line), close + 2 - i);
  }

  /** The lexeme at `i`. */
  method Read(names: Names, source: string, i: nat, line: nat, textLine: nat) returns (lexeme: Lexeme)
    requires i < |source|
    ensures lexeme == Lex(names, source[i..], line, textLine)
  {
    if "{{--" <= source[i..] {
      lexeme := ReadComment(source, i, textLine);
    } else if "{!!" <= source[i..] {
      lexeme := ReadRaw(source, i, line);
    } else if "{{" <= source[i..] {
      lexeme := ReadEscaped(source, i, line);
    } else if source[i] == '@' {
      lexeme := ReadDirective(names, source, i, line);
    } else {
      lexeme := Plain;
    }
  }

  lemma {:induction false} TokensOfAppend(a: seq<Spot>, b: seq<Spot>)
    ensures TokensOf(a + b) == TokensOf(a) + TokensOf(b)
  {
    if a == [] {
      assert a + b == b;
    } else {
      assert (a + b)[0] == a[0] && (a + b)[1..] == a[1..] + b;
      TokensOfAppend(a[1..], b);
      Assoc([a[0].token], TokensOf(a[1..]), TokensOf(b));
    }
  }

  lemma OntoOnto(a: seq<Spot>, b: seq<Spot>, rest: Result<seq<Spot>, ScanError>)
    ensures Onto(a, Onto(b, rest)) == Onto(a + b, rest)
  {
    if rest.Ok? {
      Assoc(a, b, rest.value);
    }
  }

  lemma OntoNil(rest: Result<seq<Spot>, ScanError>)
    ensures Onto([], rest) == rest
  {
    if rest.Ok? {
      assert [] + rest.value == rest.value;
    }
  }

  lemma FlushTokens(p: Pending, spot: Spot)
    ensures TokensOf(Flush(p)) == if p.text == "" then [] else [Text(p.text, p.line)]
    ensures TokensOf(Flush(p) + [spot]) == TokensOf(Flush(p)) + [spot.token]
  {
    TokensOfAppend(Flush(p), [spot]);
  }

  lemma EmittedTokens(spots: seq<Spot>, p: Pending, spot: Spot)
    ensures TokensOf(spots + (Flush(p) + [spot]))
      == (if p.text == "" then TokensOf(spots) else TokensOf(spots) + [Text(p.text, p.line)]) + [spot.token]
  {
    FlushTokens(p, spot);
    TokensOfAppend(spots, Flush(p) + [spot]);
    Assoc(TokensOf(spots), TokensOf(Flush(p)), [spot.token]);
    NilRight(TokensOf(spots));
  }

  lemma ScanPlain(lexer: Lexer, source: string, i: nat, line: nat, p: Pending)
    requires i < |source| && lexer(source[i..], line, p.line) == Plain
    ensures ScanFrom(lexer, source[i..], i, line, p)
      == ScanFrom(lexer, source[i + 1..], i + 1, line + (if source[i] == '\n' then 1 else 0), Add(p, source[i], i))
  {
    Drop(source, i, 1);
    assert source[i..][..1] == [source[i]];
    NewlinesOne(source[i]);
  }

  lemma NewlinesOne(c: char)
    ensures Newlines([c]) == if c == '\n' then 1 else 0
  {
    assert [c][1..] == "";
  }

  lemma ScanEnds(lexer: Lexer, spots: seq<Spot>, pos: nat, line: nat, p: Pending)
    ensures Scanned(Onto(spots, ScanFrom(lexer, "", pos, line, p)))
      == Ok(if p.text == "" then TokensOf(spots) else TokensOf(spots) + [Text(p.text, p.line)])
  {
    FlushTokens(p, Spot(Text("", 0), 0, 0));
    TokensOfAppend(spots, Flush(p));
    NilRight(spots);
  }

  lemma ScanComment(lexer: Lexer, source: string, i: nat, line: nat, p: Pending, n: nat)
    requires i < |source| && lexer(source[i..], line, p.line) == Comment(n) && i + n <= |source|
    ensures ScanFrom(lexer, source[i..], i, line, p)
      == ScanFrom(lexer, source[i + n..], i + n, line + Newlines(source[i..][..n]), p)
  {
    Drop(source, i, n);
  }

  lemma ScanEmits(lexer: Lexer, source: string, i: nat, line: nat, p: Pending, token: Token, n: nat)
    requires i < |source| && lexer(source[i..], line, p.line) == Emits(token, n) && i + n <= |source|
    ensures var line1 := line + Newlines(source[i..][..n]);
      ScanFrom(lexer, source[i..], i, line, p)
      == Onto(Flush(p) + [Spot(token, i, i)], ScanFrom(lexer, source[i + n..], i + n, line1, Fresh(line1, i + n)))
  {
    Drop(source, i, n);
  }

  lemma TokenTaken(lexer: Lexer, source: string, spots: seq<Spot>, i: nat, line: nat, p: Pending, token: Token, n: nat)
    requires i + n <= |source| && 0 < n && lexer(source[i..], line, p.line) == Emits(token, n)
    ensures var line1 := line + Newlines(source[i..][..n]);
      var emitted := Flush(p) + [Spot(token, i, i)];
      && Onto(spots, ScanFrom(lexer, source[i..], i, line, p))
        == Onto(spots + emitted, ScanFrom(lexer, source[i + n..], i + n, line1, Fresh(line1, i + n)))
      && TokensOf(spots + emitted)
        == (if p.text == "" then TokensOf(spots) else TokensOf(spots) + [Text(p.text, p.line)]) + [token]
  {
    var line1 := line + Newlines(source[i..][..n]);
    ScanEmits(lexer, source, i, line, p, token, n);
    EmittedTokens(spots, p, Spot(token, i, i));
    OntoOnto(spots, Flush(p) + [Spot(token, i, i)], ScanFrom(lexer, source[i + n..], i + n, line1,
      Fresh(line1, i + n)));
  }

  lemma CommentTaken(lexer: Lexer, source: string, spots: seq<Spot>, i: nat, line: nat, p: Pending, n: nat)
    requires i + n <= |source| && 0 < n && lexer(source[i..], line, p.line) == Comment(n)
    ensures Onto(spots, ScanFrom(lexer, source[i..], i, line, p))
      == Onto(spots + [], ScanFrom(lexer, source[i + n..], i + n, line + Newlines(source[i..][..n]), p))
  {
    ScanComment(lexer, source, i, line, p, n);
    NilRight(spots);
  }

  lemma CharTaken(lexer: Lexer, source: string, spots: seq<Spot>, i: nat, line: nat, p: Pending)
    requires i < |source| && lexer(source[i..], line, p.line) == Plain
    ensures Onto(spots, ScanFrom(lexer, source[i..], i, line, p))
      == Onto(spots + [], ScanFrom(lexer, source[i + 1..], i + 1, if source[i] == '\n' then line + 1 else line,
          Add(p, source[i], i)))
  {
    ScanPlain(lexer, source, i, line, p);
    NilRight(spots);
  }

  /** The scanner's variables. `spots` remembers where each token came from. */
  class Scanner {
    const names: Names
    ghost const lexer: Lexer
    const source: string
    var tokens: seq<Token>
    var i: nat
    var line: nat
    var textBuf: string
    var textStartLine: nat
    ghost var spots: seq<Spot>
    ghost var from: nat
    ghost var at: nat

    constructor (names: Names, source: string)
      ensures this.names == names && this.source == source && lexer == LexerFor(names) && Valid()
    {
      this.names, this.source, lexer := names, source, LexerFor(names);
      tokens, i, line, textBuf, textStartLine := [], 0, 1, "", 1;
      spots, from, at := [], 0, 0;
      new;
      assert source[0..] == source;
      OntoNil(ScanAll(lexer, source));
    }

    ghost function Gathered(): Pending
      reads this
    {
      Pending(textBuf, textStartLine, from, at)
    }

    /** What has been emitted, and the scan of the rest, make up the scan of the source. */
    ghost predicate Valid()
      reads this
    {
      && i <= |source| && tokens == TokensOf(spots)
      && ScanAll(lexer, source) == Onto(spots, ScanFrom(lexer, source[i..], i, line, Gathered()))
    }

    method FlushText()
      modifies this`tokens, this`textBuf
      ensures textBuf == ""
      ensures tokens == if old(textBuf) == "" then old(tokens) else old(tokens) + [Text(old(textBuf), textStartLine)]
    {
      if textBuf == "" {
        return;
      }
      tokens := tokens + [Text(textBuf, textStartLine)];
      textBuf := "";
    }

    /** The scan of the source goes on at `i + n` on line `line1` with `p`, once `emitted` is out. */
    ghost predicate GoesOn(emitted: seq<Spot>, n: nat, line1: nat, p: Pending)
      reads this
    {
      && i + n <= |source|
      && ScanAll(lexer, source) == Onto(spots + emitted, ScanFrom(lexer, source[i + n..], i + n, line1, p))
    }

    method SkipComment(n: nat, line1: nat)
      requires tokens == TokensOf(spots) && GoesOn([], n, line1, Gathered())
      modifies this
      ensures Valid() && i == old(i) + n
    {
      NilRight(spots);
      i, line := i + n, line1;
    }

    method TakeToken(token: Token, n: nat, line1: nat)
      requires GoesOn(Flush(Gathered()) + [Spot(token, i, i)], n, line1, Fresh(line1, i + n))
      requires TokensOf(spots + (Flush(Gathered()) + [Spot(token, i, i)]))
        == (if textBuf == "" then tokens else tokens + [Text(textBuf, textStartLine)]) + [token]
      modifies this
      ensures Valid() && i == old(i) + n
    {
      ghost var emitted := Flush(Gathered()) + [Spot(token, i, i)];
      FlushText();
      tokens := tokens + [token];
      i, line := i + n, line1;
      textStartLine := line1;
      spots, from, at := spots + emitted, i, i;
    }

    method TakeChar(line1: nat)
      requires i < |source| && tokens == TokensOf(spots) && GoesOn([], 1, line1, Add(Gathered(), source[i], i))
      modifies this
      ensures Valid() && i == old(i) + 1
    {
      NilRight(spots);
      if textBuf == "" {
        at := i;
      }
      textBuf := textBuf + [source[i]];
      i, line := i + 1, line1;
    }

    method Next() returns (lexeme: Lexeme)
      requires i < |source| && Agrees(lexer, names)
      ensures lexeme == lexer(source[i..], line, textStartLine) && Fits(lexeme, source[i..])
    {
      lexeme := Read(names, source, i, line, textStartLine);
    }

    /** The line after the next `n` characters. */
    method LineAfter(n: nat) returns (line1: nat)
      requires i + n <= |source|
      ensures line1 == line + Newlines(source[i..][..n])
    {
      var lines := CountLines(source[i..][..n]);
      return line + lines;
    }

    lemma CommentGoesOn(n: nat)
      requires Valid() && i + n <= |source| && 0 < n && lexer(source[i..], line, textStartLine) == Lexeme.Comment(n)
      ensures GoesOn([], n, line + Newlines(source[i..][..n]), Gathered())
    {
      CommentTaken(lexer, source, spots, i, line, Gathered(), n);
    }

    method Comment(n: nat)
      requires Valid() && i + n <= |source| && 0 < n && lexer(source[i..], line, textStartLine) == Lexeme.Comment(n)
      modifies this
      ensures Valid() && i == old(i) + n
    {
      CommentGoesOn(n);
      var line1 := LineAfter(n);
      SkipComment(n, line1);
    }

    lemma TokenGoesOn(token: Token, n: nat)
      requires Valid() && i + n <= |source| && 0 < n && lexer(source[i..], line, textStartLine) == Emits(token, n)
      ensures var line1 := line + Newlines(source[i..][..n]);
        GoesOn(Flush(Gathered()) + [Spot(token, i, i)], n, line1, Fresh(line1, i + n))
      ensures TokensOf(spots + (Flush(Gathered()) + [Spot(token, i, i)]))
        == (if textBuf == "" then tokens else tokens + [Text(textBuf, textStartLine)]) + [token]
    {
      TokenTaken(lexer, source, spots, i, line, Gathered(), token, n);
    }

    method Token(token: Token, n: nat)
      requires Valid() && i + n <= |source| && 0 < n && lexer(source[i..], line, textStartLine) == Emits(token, n)
      modifies this
      ensures Valid() && i == old(i) + n
    {
      TokenGoesOn(token, n);
      var line1 := LineAfter(n);
      TakeToken(token, n, line1);
    }

    method Char()
      requires Valid() && i < |source| && lexer(source[i..], line, textStartLine) == Plain
      modifies this
      ensures Valid() && i == old(i) + 1
    {
      CharTaken(lexer, source, spots, i, line, Gathered());
      TakeChar(if source[i] == '\n' then line + 1 else line);
    }

    /** One turn of the loop: past one lexeme, or stopped by its error. */
    method Turn() returns (error: Option<ScanError>)
      requires Valid() && i < |source| && Agrees(lexer, names)
      modifies this
      ensures error.None? ==> Valid() && old(i) < i
      ensures error.Some? ==> ScanAll(lexer, source) == Err(error.value)
    {
      var lexeme := Next();
      match lexeme {
        case Fails(e) =>
          return Some(e);
        case Comment(n) =>
          Comment(n);
        case Emits(token, n) =>
          Token(token, n);
        case Plain =>
          Char();
      }
      return None;
    }

    /** Scans the whole source from a new scanner on. */
    method Run() returns (result: Result<seq<Token>, ScanError>)
      requires Valid() && Agrees(lexer, names)
      modifies this
      ensures result == Scanned(ScanAll(lexer, source))
    {
      while i < |source|
        invariant Valid()
        decreases |source| - i
      {
        var error := Turn();
        if error.Some? {
          return Err(error.value);
        }
      }
      assert source[i..] == "";
      ScanEnds(lexer, spots, i, line, Gathered());
      FlushText();
      return Ok(tokens);
    }
  }

  method Tokenize(names: Names, source: string) returns (result: Result<seq<Token>, ScanError>)
    ensures result == Scanned(Spots(names, source))
  {
    var scanner := new Scanner(names, source);
    result := scanner.Run();
  }
}
