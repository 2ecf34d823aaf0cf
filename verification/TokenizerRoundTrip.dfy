/** Printing canonical tokens and scanning the text gives the tokens back. */
module TokenizerRoundTrip {
  import opened Prelude
  import opened ViewText
  import opened Template
  import opened Tokenizer

  // ----- Printing ------------------------------------------------------------------------------------------------

  function Print(token: Token): string {
    match token
    case Text(value, _) => value
    case Escaped(value, _) => "{{ " + (value + " }}")
    case Raw(value, _) => "{!! " + (value + " !!}")
    case At(directive, args, _) => "@" + (NameOf(directive) + PrintArgs(args))
  }

  function PrintArgs(args: Option<string>): string {
    match args
    case None => ""
    case Some(text) => "(" + (text + ")")
  }

  function PrintAll(tokens: seq<Token>): string {
    if tokens == [] then "" else Print(tokens[0]) + PrintAll(tokens[1..])
  }

  // ----- Canonical tokens ------------------------------------------------------------------------------------------

  /** No white space at either end. */
  predicate Tight(s: string) {
    s == "" || (!IsSpace(s[0]) && !IsSpace(s[|s| - 1]))
  }

  /** The open quote after `s`, or `None` if `}}` stands outside quotes or an escape is cut off. */
  function QuoteAfter(s: string, quote: Option<char>): Option<Option<char>> {
    if s == "" then Some(quote)
    else if quote.None? then
      if IsQuote(s[0]) then QuoteAfter(s[1..], Some(s[0]))
      else if "}}" <= s then None
      else QuoteAfter(s[1..], None)
    else if s[0] == '\\' then
      if |s| < 2 then None else QuoteAfter(s[2..], quote)
    else QuoteAfter(s[1..], if s[0] == quote.value then None else quote)
  }

  /** Parentheses outside quotes balance and every quote is closed. */
  predicate Balances(s: string, depth: nat, quote: Option<char>) {
    if s == "" then depth == 1 && quote.None?
    else if quote.Some? then
      if s[0] == '\\' then |s| >= 2 && Balances(s[2..], depth, quote)
      else Balances(s[1..], depth, if s[0] == quote.value then None else quote)
    else if IsQuote(s[0]) then Balances(s[1..], depth, Some(s[0]))
    else if s[0] == '(' then Balances(s[1..], depth + 1, None)
    else if s[0] == ')' then depth > 1 && Balances(s[1..], depth - 1, None)
    else Balances(s[1..], depth, None)
  }

  predicate Lacks(s: string, needle: string)
    requires needle != ""
  {
    IndexOf(s, needle).None?
  }

  predicate CanonicalToken(token: Token) {
    match token
    case Text(value, _) => value != "" && '{' !in value && '@' !in value
    case Escaped(value, _) => Tight(value) && QuoteAfter(value, None) == Some(None)
    case Raw(value, _) => Tight(value) && Lacks(value, "!!}")
    case At(directive, args, _) => !directive.Unknown? && (args.Some? ==> Balances(args.value, 1, None))
  }

  /** What may follow a token: no text after text, and after a bare directive nothing that reads
      as more of its name or as an argument list. */
  predicate MayFollow(token: Token, next: Token) {
    next.Text? ==>
      && !token.Text?
      && (token.At? && token.args.None? ==>
            next.value == "" || (!IsWordChar(next.value[0]) && next.value[0] != '('))
  }

  predicate Canonical(tokens: seq<Token>) {
    tokens == []
    || (CanonicalToken(tokens[0]) && (|tokens| > 1 ==> MayFollow(tokens[0], tokens[1])) && Canonical(tokens[1..]))
  }

  // ----- One printed token is read back ------------------------------------------------------------------------------

  function OnLine(token: Token, line: nat): Token {
    token.(line := line)
  }

  lemma TrimPadded(value: string)
    requires Tight(value)
    ensures Trim(" " + (value + " ")) == value
  {
    var padded := " " + (value + " ");
    assert padded[0] == ' ' && padded[1..] == value + " ";
    if value == "" {
      assert padded[1..] == " " && " "[1..] == "";
      assert TrimStart(" ") == "";
    } else {
      assert (value + " ")[0] == value[0];
      assert TrimStart(padded) == value + " ";
      assert (value + " ")[..|value + " "| - 1] == value;
      assert TrimEnd(value) == value;
    }
  }

  lemma NoEarlyClose(value: string, rest: string)
    requires value != ""
    ensures "}}" <= value + (" }}" + rest) ==> "}}" <= value
  {
    var s := value + (" }}" + rest);
    if |value| == 1 {
      assert s[1] == ' ' && "}}"[1] == '}';
    } else {
      assert s[0] == value[0] && s[1] == value[1];
    }
  }

  lemma NoEarlyRawEnd(value: string, rest: string)
    requires value != ""
    ensures "!!}" <= value + (" !!}" + rest) ==> "!!}" <= value
  {
    var s := value + (" !!}" + rest);
    if |value| < 3 {
      assert s[|value|] == ' ' && "!!}"[|value|] != ' ';
    } else {
      assert s[0] == value[0] && s[1] == value[1] && s[2] == value[2];
    }
  }

  lemma {:induction false} ClosesAfter(value: string, quote: Option<char>, rest: string)
    requires QuoteAfter(value, quote) == Some(None)
    ensures CloseAt(value + (" }}" + rest), quote) == Some(|value| + 1)
  {
    var s := value + (" }}" + rest);
    if value == "" {
      assert s == " }}" + rest && s[1..] == "}}" + rest;
      assert "}}" <= s[1..];
    } else {
      assert s[0] == value[0] && s[1..] == value[1..] + (" }}" + rest);
      if quote.None? {
        if IsQuote(value[0]) {
          ClosesAfter(value[1..], Some(value[0]), rest);
        } else {
          NoEarlyClose(value, rest);
          ClosesAfter(value[1..], None, rest);
        }
      } else if value[0] == '\\' {
        assert s[2..] == value[2..] + (" }}" + rest);
        ClosesAfter(value[2..], quote, rest);
      } else {
        ClosesAfter(value[1..], if value[0] == quote.value then None else quote, rest);
      }
    }
  }

  lemma {:induction false} ParenAfter(args: string, depth: nat, quote: Option<char>, rest: string)
    requires Balances(args, depth, quote)
    ensures ParenAt(args + (")" + rest), depth, quote) == Some(|args|)
  {
    var s := args + (")" + rest);
    if args == "" {
      assert s == ")" + rest;
    } else {
      assert s[0] == args[0] && s[1..] == args[1..] + (")" + rest);
      if quote.Some? {
        if args[0] == '\\' {
          assert s[2..] == args[2..] + (")" + rest);
          ParenAfter(args[2..], depth, quote, rest);
        } else {
          ParenAfter(args[1..], depth, if args[0] == quote.value then None else quote, rest);
        }
      } else if IsQuote(args[0]) {
        ParenAfter(args[1..], depth, Some(args[0]), rest);
      } else if args[0] == '(' {
        ParenAfter(args[1..], depth + 1, None, rest);
      } else if args[0] == ')' {
        ParenAfter(args[1..], depth - 1, None, rest);
      } else {
        ParenAfter(args[1..], depth, None, rest);
      }
    }
  }

  lemma {:induction false} RawEndAfter(value: string, rest: string)
    requires Lacks(value, "!!}")
    ensures IndexOf(value + (" !!}" + rest), "!!}") == Some(|value| + 1)
  {
    var s := value + (" !!}" + rest);
    if value == "" {
      assert s == " !!}" + rest && s[1..] == "!!}" + rest;
      assert s[0] != "!!}"[0];
      assert "!!}" <= s[1..];
    } else {
      assert s[1..] == value[1..] + (" !!}" + rest);
      NoEarlyRawEnd(value, rest);
      RawEndAfter(value[1..], rest);
    }
  }

  lemma {:induction false} WordEnds(name: string, rest: string)
    requires forall i :: 0 <= i < |name| ==> IsWordChar(name[i])
    requires rest == "" || !IsWordChar(rest[0])
    ensures WordLength(name + rest) == |name|
  {
    if name == "" {
      assert name + rest == rest;
    } else {
      assert (name + rest)[1..] == name[1..] + rest;
      WordEnds(name[1..], rest);
    }
  }

  /** A space after `{{` rules out a comment and a raw interpolation. */
  lemma NotOther(names: Names, s: string, line: nat, textLine: nat)
    requires |s| >= 3 && s[0] == '{' && s[1] == '{' && s[2] == ' '
    ensures "{{" <= s && Lex(names, s, line, textLine) == LexEscaped(s, line)
  {
    assert "{{--"[2] == '-' && "{!!"[1] == '!';
    assert !("{{--" <= s) && !("{!!" <= s);
  }

  lemma EscapedParts(value: string, rest: string)
    ensures var s := "{{ " + (value + " }}") + rest;
      && s[0] == '{' && s[1] == '{' && s[2] == ' '
      && s[2..] == " " + (value + (" }}" + rest))
      && s[2..2 + (|value| + 2)] == " " + (value + " ")
  {
    var s := "{{ " + (value + " }}") + rest;
    Assoc("{{ ", value + " }}", rest);
    Assoc(value, " }}", rest);
    assert s[2..] == " " + (value + (" }}" + rest));
    assert s[2..2 + (|value| + 2)] == s[2..][..|value| + 2];
    assert (" " + (value + (" }}" + rest)))[..|value| + 2] == " " + (value + " ");
  }

  lemma PaddedCloses(value: string, rest: string)
    requires QuoteAfter(value, None) == Some(None)
    ensures CloseAt(" " + (value + (" }}" + rest)), None) == Some(|value| + 2)
  {
    var s := " " + (value + (" }}" + rest));
    assert s[0] == ' ' && s[1..] == value + (" }}" + rest);
    assert "}}"[0] == '}';
    ClosesAfter(value, None, rest);
  }

  lemma LexPrintedEscaped(names: Names, value: string, rest: string, line: nat, textLine: nat)
    requires Tight(value) && QuoteAfter(value, None) == Some(None)
    ensures Lex(names, "{{ " + (value + " }}") + rest, line, textLine) == Emits(Escaped(value, line), |value| + 6)
  {
    var s := "{{ " + (value + " }}") + rest;
    EscapedParts(value, rest);
    NotOther(names, s, line, textLine);
    PaddedCloses(value, rest);
    TrimPadded(value);
  }

  lemma LexPrintedRaw(names: Names, value: string, rest: string, line: nat, textLine: nat)
    requires Tight(value) && Lacks(value, "!!}")
    ensures Lex(names, "{!! " + (value + " !!}") + rest, line, textLine) == Emits(Raw(value, line), |value| + 8)
  {
    var s := "{!! " + (value + " !!}") + rest;
    assert s[0] == '{' && s[1] == '!' && s[2] == '!' && s[3] == ' ';
    assert "{!!" <= s;
    assert "{{--"[1] == '{';
    assert s[3..] == " " + (value + (" !!}" + rest));
    assert s[3..][1..] == value + (" !!}" + rest);
    RawEndAfter(value, rest);
    assert s[3..][0] != "!!}"[0];
    assert IndexOf(s[3..], "!!}") == Some(|value| + 2);
    assert s[3..3 + (|value| + 2)] == " " + (value + " ");
    TrimPadded(value);
  }

  lemma DirectiveParts(name: string, args: Option<string>, rest: string)
    ensures var s := "@" + (name + PrintArgs(args)) + rest;
      && s[0] == '@' && s[1..] == name + (PrintArgs(args) + rest)
      && |s| == 1 + |name| + |PrintArgs(args)| + |rest|
      && s[1..1 + |name|] == name && s[1 + |name|..] == PrintArgs(args) + rest
  {
    var s := "@" + (name + PrintArgs(args)) + rest;
    Assoc("@", name + PrintArgs(args), rest);
    Assoc(name, PrintArgs(args), rest);
    assert s == "@" + (name + (PrintArgs(args) + rest));
  }

  lemma GivenParts(text: string, rest: string)
    ensures var s := PrintArgs(Some(text)) + rest;
      s[0] == '(' && s[1..] == text + (")" + rest) && s[1..|text| + 1] == text
  {
    var s := PrintArgs(Some(text)) + rest;
    Assoc("(", text + ")", rest);
    Assoc(text, ")", rest);
    assert s == "(" + (text + (")" + rest));
  }

  /** The argument list of a printed directive. */
  lemma ArgsPrinted(s: string, after: nat, args: Option<string>, rest: string)
    requires after <= |s| && s[after..] == PrintArgs(args) + rest
    requires args.Some? ==> Balances(args.value, 1, None)
    requires args.None? ==> rest == "" || rest[0] != '('
    ensures LexArgs(s, after) == match args case None => NoArgs case Some(text) => Given(text, after + |text| + 2)
  {
    if args.Some? {
      var text, tail := args.value, s[after..];
      GivenParts(text, rest);
      ParenAfter(text, 1, None, rest);
      assert s[after] == tail[0];
      assert ParenAt(tail, 0, None) == Some(|text| + 1);
      assert s[after + 1..after + (|text| + 1)] == tail[1..|text| + 1];
    } else if rest != "" {
      assert s[after] == s[after..][0] == rest[0];
    }
  }

  lemma LexPrintedDirective(names: Names, directive: Directive, args: Option<string>, rest: string, line: nat)
    requires !directive.Unknown? && names(NameOf(directive)) == Some(Word.Directive(directive))
    requires args.Some? ==> Balances(args.value, 1, None)
    requires args.None? ==> rest == "" || (!IsWordChar(rest[0]) && rest[0] != '(')
    ensures var s := "@" + (NameOf(directive) + PrintArgs(args)) + rest;
      s != "" && s[0] == '@'
      && LexDirective(names, s, line) == Emits(At(directive, args, line), 1 + |NameOf(directive)| + |PrintArgs(args)|)
  {
    NamesAreWords(directive);
    LexNamed(names, NameOf(directive), directive, args, rest, line);
  }

  lemma LexNamed(names: Names, name: string, directive: Directive, args: Option<string>, rest: string, line: nat)
    requires name != "" && (forall i :: 0 <= i < |name| ==> IsWordChar(name[i]))
    requires names(name) == Some(Word.Directive(directive))
    requires args.Some? ==> Balances(args.value, 1, None)
    requires args.None? ==> rest == "" || (!IsWordChar(rest[0]) && rest[0] != '(')
    ensures var s := "@" + (name + PrintArgs(args)) + rest;
      s != "" && s[0] == '@'
      && LexDirective(names, s, line) == Emits(At(directive, args, line), 1 + |name| + |PrintArgs(args)|)
  {
    var s := "@" + (name + PrintArgs(args)) + rest;
    DirectiveParts(name, args, rest);
    NameEnds(name, args, rest);
    ArgsPrinted(s, 1 + |name|, args, rest);
  }

  lemma NameEnds(name: string, args: Option<string>, rest: string)
    requires forall i :: 0 <= i < |name| ==> IsWordChar(name[i])
    requires args.None? ==> rest == "" || !IsWordChar(rest[0])
    ensures WordLength(name + (PrintArgs(args) + rest)) == |name|
  {
    if args.Some? {
      assert (PrintArgs(args) + rest)[0] == '(';
    } else {
      assert PrintArgs(args) + rest == rest;
    }
    WordEnds(name, PrintArgs(args) + rest);
  }

  /** A mark that text cannot be taken for. */
  predicate Follows(token: Token, rest: string) {
    token.At? && token.args.None? ==> rest == "" || (!IsWordChar(rest[0]) && rest[0] != '(')
  }

  /** Every directive is found under its name. */
  ghost predicate Knows(names: Names) {
    forall directive: Directive {:trigger NameOf(directive)} ::
      !directive.Unknown? ==> names(NameOf(directive)) == Some(Word.Directive(directive))
  }

  lemma LexPrinted(names: Names, token: Token, rest: string, line: nat, textLine: nat)
    requires Knows(names) && CanonicalToken(token) && !token.Text? && Follows(token, rest)
    ensures Lex(names, Print(token) + rest, line, textLine) == Emits(OnLine(token, line), |Print(token)|)
  {
    match token {
      case Escaped(value, _) => LexPrintedEscaped(names, value, rest, line, textLine);
      case Raw(value, _) => LexPrintedRaw(names, value, rest, line, textLine);
      case At(directive, args, _) =>
        LexPrintedDirective(names, directive, args, rest, line);
        var s := Print(token) + rest;
        assert s[0] == '@';
        assert "{{--"[0] == '{' && "{!!"[0] == '{' && "{{"[0] == '{';
    }
  }

  lemma LexText(names: Names, c: char, rest: string, line: nat, textLine: nat)
    requires c != '{' && c != '@'
    ensures Lex(names, [c] + rest, line, textLine) == Plain
  {
    assert ([c] + rest)[0] == c;
    assert "{{--"[0] == '{' && "{!!"[0] == '{' && "{{"[0] == '{';
  }

  // ----- Whole lists -----------------------------------------------------------------------------

  /** Tokens without their lines. */
  function Erase(tokens: seq<Token>): seq<Token> {
    if tokens == [] then [] else [OnLine(tokens[0], 0)] + Erase(tokens[1..])
  }

  lemma {:induction false} EraseAppend(a: seq<Token>, b: seq<Token>)
    ensures Erase(a + b) == Erase(a) + Erase(b)
  {
    if a == [] {
      assert a + b == b;
    } else {
      assert (a + b)[0] == a[0] && (a + b)[1..] == a[1..] + b;
      EraseAppend(a[1..], b);
      Assoc([OnLine(a[0], 0)], Erase(a[1..]), Erase(b));
    }
  }

  /** The pending text as the token it will become. */
  function Gathered(p: Pending): seq<Token> {
    if p.text == "" then [] else [Text(p.text, 0)]
  }

  /** Pending text and then `tokens`, up to lines; text that comes first joins what is pending. */
  function Expected(p: Pending, tokens: seq<Token>): seq<Token> {
    if tokens != [] && tokens[0].Text? then [Text(p.text + tokens[0].value, 0)] + Erase(tokens[1..])
    else Gathered(p) + Erase(tokens)
  }

  predicate Gives(lexer: Lexer, source: string, pos: nat, line: nat, p: Pending, tokens: seq<Token>)
    requires pos <= |source|
  {
    var result := ScanFrom(lexer, source[pos..], pos, line, p);
    result.Ok? && Erase(TokensOf(result.value)) == Expected(p, tokens)
  }

  lemma GivesEnd(lexer: Lexer, source: string, line: nat, p: Pending)
    ensures Gives(lexer, source, |source|, line, p, [])
  {
    assert source[|source|..] == "";
    FlushTokens(p, Spot(Text("", 0), 0, 0));
    if p.text != "" {
      assert [Text(p.text, p.line)][1..] == [];
    }
    NilRight(Gathered(p));
  }

  lemma ExpectedFresh(line: nat, pos: nat, tokens: seq<Token>)
    ensures Expected(Fresh(line, pos), tokens) == Erase(tokens)
  {
    if tokens != [] && tokens[0].Text? {
      assert "" + tokens[0].value == tokens[0].value;
    } else {
      assert [] + Erase(tokens) == Erase(tokens);
    }
  }

  lemma GivesToken(lexer: Lexer, source: string, pos: nat, line: nat, p: Pending, tokens: seq<Token>, n: nat)
    requires tokens != [] && !tokens[0].Text? && 0 < n && pos + n <= |source|
    requires lexer(source[pos..], line, p.line) == Emits(OnLine(tokens[0], line), n)
    requires var line1 := line + Newlines(source[pos..][..n]);
      Gives(lexer, source, pos + n, line1, Fresh(line1, pos + n), tokens[1..])
    ensures Gives(lexer, source, pos, line, p, tokens)
  {
    var line1 := line + Newlines(source[pos..][..n]);
    var after := ScanFrom(lexer, source[pos + n..], pos + n, line1, Fresh(line1, pos + n));
    var spot := Spot(OnLine(tokens[0], line), pos, pos);
    ScanEmits(lexer, source, pos, line, p, OnLine(tokens[0], line), n);
    ExpectedFresh(line1, pos + n, tokens[1..]);
    ErasedEmission(p, spot, after.value, tokens[0]);
    Assoc(Gathered(p), [OnLine(tokens[0], 0)], Erase(tokens[1..]));
  }

  lemma ErasedEmission(p: Pending, spot: Spot, more: seq<Spot>, token: Token)
    requires OnLine(spot.token, 0) == OnLine(token, 0)
    ensures Erase(TokensOf(Flush(p) + [spot] + more))
      == (Gathered(p) + [OnLine(token, 0)]) + Erase(TokensOf(more))
  {
    TokensOfAppend(Flush(p) + [spot], more);
    FlushTokens(p, spot);
    EraseAppend(TokensOf(Flush(p)) + [spot.token], TokensOf(more));
    EraseFront(p, spot.token);
  }

  lemma EraseFront(p: Pending, token: Token)
    ensures Erase(TokensOf(Flush(p)) + [token]) == Gathered(p) + [OnLine(token, 0)]
  {
    FlushTokens(p, Spot(token, 0, 0));
    assert [token][1..] == [];
    EraseAppend(TokensOf(Flush(p)), [token]);
    if p.text != "" {
      assert [Text(p.text, p.line)][1..] == [];
    }
  }

  /** The tokens left once the first character of a leading text is read. */
  function LessText(tokens: seq<Token>): seq<Token>
    requires tokens != [] && tokens[0].Text? && tokens[0].value != ""
  {
    if |tokens[0].value| == 1 then tokens[1..] else [Text(tokens[0].value[1..], 0)] + tokens[1..]
  }

  lemma LessTextCanonical(tokens: seq<Token>)
    requires Canonical(tokens) && tokens != [] && tokens[0].Text?
    ensures Canonical(LessText(tokens)) && PrintAll(tokens) == [tokens[0].value[0]] + PrintAll(LessText(tokens))
  {
    var value, less := tokens[0].value, LessText(tokens);
    assert value == [value[0]] + value[1..];
    if |value| == 1 {
      assert value[1..] == "";
    } else {
      assert less[1..] == tokens[1..];
      Assoc([value[0]], value[1..], PrintAll(tokens[1..]));
    }
  }

  lemma ExpectedText(p: Pending, pos: nat, tokens: seq<Token>)
    requires tokens != [] && tokens[0].Text? && tokens[0].value != "" && (|tokens| > 1 ==> !tokens[1].Text?)
    ensures Expected(Add(p, tokens[0].value[0], pos), LessText(tokens)) == Expected(p, tokens)
  {
    var value := tokens[0].value;
    if |value| == 1 {
      assert value == [value[0]];
    } else {
      assert value == [value[0]] + value[1..];
      Assoc(p.text, [value[0]], value[1..]);
      assert LessText(tokens)[1..] == tokens[1..];
    }
  }

  lemma GivesChar(lexer: Lexer, source: string, pos: nat, line: nat, p: Pending, tokens: seq<Token>)
    requires tokens != [] && tokens[0].Text? && tokens[0].value != "" && (|tokens| > 1 ==> !tokens[1].Text?)
    requires pos < |source| && source[pos] == tokens[0].value[0]
    requires lexer(source[pos..], line, p.line) == Plain
    requires Gives(lexer, source, pos + 1, line + (if source[pos] == '\n' then 1 else 0), Add(p, source[pos], pos),
      LessText(tokens))
    ensures Gives(lexer, source, pos, line, p, tokens)
  {
    ScanPlain(lexer, source, pos, line, p);
    ExpectedText(p, pos, tokens);
  }

  /** The lexer on the printed tokens: one character of text, or one whole token. */
  lemma LexFirst(names: Names, lexer: Lexer, tokens: seq<Token>, line: nat, textLine: nat)
    requires Knows(names) && Agrees(lexer, names) && Canonical(tokens) && tokens != []
    ensures lexer(PrintAll(tokens), line, textLine)
      == if tokens[0].Text? then Plain else Emits(OnLine(tokens[0], line), |Print(tokens[0])|)
  {
    var first, rest := tokens[0], PrintAll(tokens[1..]);
    assert lexer(PrintAll(tokens), line, textLine) == Lex(names, PrintAll(tokens), line, textLine);
    if first.Text? {
      assert first.value[0] in first.value;
      assert first.value == [first.value[0]] + first.value[1..];
      Assoc([first.value[0]], first.value[1..], rest);
      LexText(names, first.value[0], first.value[1..] + rest, line, textLine);
    } else {
      NextMark(tokens);
      LexPrinted(names, first, rest, line, textLine);
    }
  }

  lemma NextMark(tokens: seq<Token>)
    requires Canonical(tokens) && tokens != []
    ensures Follows(tokens[0], PrintAll(tokens[1..]))
  {
    if |tokens| > 1 {
      var next := tokens[1];
      assert tokens[1..][0] == next;
      assert Print(next) != "" && PrintAll(tokens[1..])[0] == Print(next)[0];
    }
  }

  /** On any line, the front of `s` reads as this token, `n` characters long. */
  ghost predicate EmitsHere(lexer: Lexer, s: string, token: Token, n: nat) {
    0 < n <= |s| && forall line: nat, textLine: nat :: lexer(s, line, textLine) == Emits(OnLine(token, line), n)
  }

  ghost predicate PlainHere(lexer: Lexer, s: string) {
    s != "" && forall line: nat, textLine: nat :: lexer(s, line, textLine) == Plain
  }

  /** From `pos` on the source reads as these tokens, text character by character. */
  ghost predicate Lexes(lexer: Lexer, source: string, pos: nat, tokens: seq<Token>)
    requires pos <= |source|
    decreases |source| - pos
  {
    if tokens == [] then pos == |source|
    else if tokens[0].Text? then
      && tokens[0].value != "" && (|tokens| > 1 ==> !tokens[1].Text?) && PlainHere(lexer, source[pos..]) && source[pos]
        == tokens[0].value[0]
      && Lexes(lexer, source, pos + 1, LessText(tokens))
    else
      exists n: nat :: pos + n <= |source| && EmitsHere(lexer, source[pos..], tokens[0], n)
        && Lexes(lexer, source, pos + n, tokens[1..])
  }

  lemma PrintedReads(names: Names, lexer: Lexer, tokens: seq<Token>)
    requires Knows(names) && Agrees(lexer, names) && Canonical(tokens) && tokens != []
    ensures tokens[0].Text? ==> PlainHere(lexer, PrintAll(tokens))
    ensures !tokens[0].Text? ==> EmitsHere(lexer, PrintAll(tokens), tokens[0], |Print(tokens[0])|)
  {
    PastToken(PrintAll(tokens), 0, tokens);
    forall line: nat, textLine: nat
      ensures lexer(PrintAll(tokens), line, textLine)
        == if tokens[0].Text? then Plain else Emits(OnLine(tokens[0], line), |Print(tokens[0])|)
    {
      LexFirst(names, lexer, tokens, line, textLine);
    }
  }

  lemma {:induction false} PrintedLexes(names: Names, lexer: Lexer, source: string, pos: nat, tokens: seq<Token>)
    requires Knows(names) && Agrees(lexer, names) && Canonical(tokens) && pos <= |source| && source[pos..]
      == PrintAll(tokens)
    ensures Lexes(lexer, source, pos, tokens)
    decreases |source| - pos
  {
    if tokens != [] {
      PrintedReads(names, lexer, tokens);
      if tokens[0].Text? {
        PastChar(source, pos, tokens);
        PrintedLexes(names, lexer, source, pos + 1, LessText(tokens));
      } else {
        PastToken(source, pos, tokens);
        PrintedLexes(names, lexer, source, pos + |Print(tokens[0])|, tokens[1..]);
      }
    }
  }

  /** What the source reads as is what the scan gives. */
  lemma {:induction false} LexesGives(lexer: Lexer, source: string, pos: nat, line: nat, p: Pending, tokens: seq<Token>)
    requires pos <= |source| && Lexes(lexer, source, pos, tokens)
    ensures Gives(lexer, source, pos, line, p, tokens)
    decreases |source| - pos
  {
    if tokens == [] {
      GivesEnd(lexer, source, line, p);
    } else if tokens[0].Text? {
      var line1 := line + (if source[pos] == '\n' then 1 else 0);
      LexesGives(lexer, source, pos + 1, line1, Add(p, source[pos], pos), LessText(tokens));
      GivesChar(lexer, source, pos, line, p, tokens);
    } else {
      var n: nat :| pos + n <= |source| && EmitsHere(lexer, source[pos..], tokens[0], n)
        && Lexes(lexer, source, pos + n, tokens[1..]);
      var line1 := line + Newlines(source[pos..][..n]);
      LexesGives(lexer, source, pos + n, line1, Fresh(line1, pos + n), tokens[1..]);
      GivesToken(lexer, source, pos, line, p, tokens, n);
    }
  }

  lemma PastChar(source: string, pos: nat, tokens: seq<Token>)
    requires pos <= |source| && source[pos..] == PrintAll(tokens) && Canonical(tokens) && tokens != [] &&
      tokens[0].Text?
    ensures pos < |source| && source[pos] == tokens[0].value[0]
    ensures Canonical(LessText(tokens)) && source[pos + 1..] == PrintAll(LessText(tokens))
  {
    LessTextCanonical(tokens);
    assert source[pos] == source[pos..][0] && source[pos + 1..] == source[pos..][1..];
  }

  lemma PastToken(source: string, pos: nat, tokens: seq<Token>)
    requires pos <= |source| && source[pos..] == PrintAll(tokens) && Canonical(tokens) && tokens != []
    ensures var n := |Print(tokens[0])|;
      0 < n && pos + n <= |source| && source[pos + n..] == PrintAll(tokens[1..])
  {
    var n := |Print(tokens[0])|;
    Drop(source, pos, n);
    assert (Print(tokens[0]) + PrintAll(tokens[1..]))[n..] == PrintAll(tokens[1..]);
  }

  lemma LexerForAgrees(names: Names)
    ensures Agrees(LexerFor(names), names)
  {
  }

  /** Scanning what was printed gives back the types, values and arguments of every canonical
      token list. */
  lemma RoundTrip(tokens: seq<Token>)
    requires Canonical(tokens)
    ensures var scanned := Scanned(Spots(FROZEN, PrintAll(tokens)));
      scanned.Ok? && Erase(scanned.value) == Erase(tokens)
  {
    FrozenKnows();
    ReadsBack(FROZEN, tokens);
  }

  lemma FrozenKnows()
    ensures Knows(FROZEN)
  {
    forall directive: Directive | !directive.Unknown?
      ensures FROZEN(NameOf(directive)) == Some(Word.Directive(directive))
    {
      FrozenNames(directive);
    }
  }

  lemma ReadsBack(names: Names, tokens: seq<Token>)
    requires Knows(names) && Canonical(tokens)
    ensures var scanned := Scanned(Spots(names, PrintAll(tokens)));
      scanned.Ok? && Erase(scanned.value) == Erase(tokens)
  {
    var source := PrintAll(tokens);
    LexerForAgrees(names);
    assert source[0..] == source;
    PrintedLexes(names, LexerFor(names), source, 0, tokens);
    LexesGives(LexerFor(names), source, 0, 1, Fresh(1, 0), tokens);
    ExpectedFresh(1, 0, tokens);
  }
}
