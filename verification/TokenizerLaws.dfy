/** What the scanner makes of raw blocks, comments and plain text, what it rejects, and that the
    rest of a source is scanned as a source of its own. */
module TokenizerLaws {
  import opened Prelude
  import opened ViewText
  import opened ViewArguments
  import opened Template
  import opened Tokenizer
  import opened TokenizerRoundTrip

  // ----- The scan of a rest does not depend on where it starts ------------------------------------------

  function ErrorKind(error: ScanError): ScanError {
    error.(line := 0)
  }

  predicate SameLexeme(a: Lexeme, b: Lexeme) {
    match (a, b)
    case (Comment(m), Comment(n)) => m == n
    case (Emits(s, m), Emits(t, n)) => OnLine(s, 0) == OnLine(t, 0) && m == n
    case (Plain, Plain) => true
    case (Fails(d), Fails(e)) => ErrorKind(d) == ErrorKind(e)
    case _ => false
  }

  /** Lines affect only the lines of tokens and errors. */
  lemma HeadsAlike(lexer: Lexer, names: Names, s: string, l: nat, t: nat, m: nat, u: nat)
    requires Agrees(lexer, names)
    ensures SameLexeme(lexer(s, l, t), lexer(s, m, u))
  {
    LexIsLineFree(names, s, l, t, m, u);
  }

  lemma LexIsLineFree(names: Names, s: string, l: nat, t: nat, m: nat, u: nat)
    ensures SameLexeme(Lex(names, s, l, t), Lex(names, s, m, u))
  {
  }

  /** Scans alike up to lines and places: the same tokens, or an error of the same kind. */
  predicate Alike(a: Result<seq<Spot>, ScanError>, b: Result<seq<Spot>, ScanError>) {
    match (a, b)
    case (Ok(x), Ok(y)) => Erase(TokensOf(x)) == Erase(TokensOf(y))
    case (Err(d), Err(e)) => ErrorKind(d) == ErrorKind(e)
    case _ => false
  }

  lemma FlushAlike(p: Pending, q: Pending)
    requires p.text == q.text
    ensures Erase(TokensOf(Flush(p))) == Erase(TokensOf(Flush(q))) == Gathered(p)
  {
    FlushTokens(p, Spot(Text("", 0), 0, 0));
    FlushTokens(q, Spot(Text("", 0), 0, 0));
    if p.text != "" {
      assert [Text(p.text, p.line)][1..] == [] && [Text(q.text, q.line)][1..] == [];
    }
  }

  lemma EmitAlike(p: Pending, q: Pending, a: Spot, b: Spot,
      x: Result<seq<Spot>, ScanError>, y: Result<seq<Spot>, ScanError>)
    requires p.text == q.text && OnLine(a.token, 0) == OnLine(b.token, 0) && Alike(x, y)
    ensures Alike(Onto(Flush(p) + [a], x), Onto(Flush(q) + [b], y))
  {
    if x.Ok? {
      ErasedEmission(p, a, x.value, a.token);
      ErasedEmission(q, b, y.value, a.token);
    }
  }

  lemma EmissionsAlike(lexer: Lexer, s: string, pos: nat, line: nat, p: Pending,
      pos1: nat, line1: nat, q: Pending, n: nat)
    requires s != "" && 0 < n <= |s| && p.text == q.text
    requires lexer(s, line, p.line).Emits? && lexer(s, line, p.line).length == n
    requires SameLexeme(lexer(s, line, p.line), lexer(s, line1, q.line))
    requires var l, m := line + Newlines(s[..n]), line1 + Newlines(s[..n]);
      Alike(ScanFrom(lexer, s[n..], pos + n, l, Fresh(l, pos + n)),
            ScanFrom(lexer, s[n..], pos1 + n, m, Fresh(m, pos1 + n)))
    ensures Alike(ScanFrom(lexer, s, pos, line, p), ScanFrom(lexer, s, pos1, line1, q))
  {
    var l, m := line + Newlines(s[..n]), line1 + Newlines(s[..n]);
    EmitAlike(p, q, Spot(lexer(s, line, p.line).token, pos, pos), Spot(lexer(s, line1, q.line).token, pos1, pos1),
      ScanFrom(lexer, s[n..], pos + n, l, Fresh(l, pos + n)),
      ScanFrom(lexer, s[n..], pos1 + n, m, Fresh(m, pos1 + n)));
  }

  lemma StopsAlike(lexer: Lexer, names: Names, s: string, pos: nat, line: nat, p: Pending,
      pos1: nat, line1: nat, q: Pending)
    requires s == "" || lexer(s, line, p.line).Fails?
    requires Agrees(lexer, names) && p.text == q.text
    ensures Alike(ScanFrom(lexer, s, pos, line, p), ScanFrom(lexer, s, pos1, line1, q))
  {
    if s == "" {
      FlushAlike(p, q);
    } else {
      HeadsAlike(lexer, names, s, line, p.line, line1, q.line);
    }
  }

  lemma {:induction false} CommentsAlike(lexer: Lexer, names: Names, s: string, pos: nat, line: nat, p: Pending,
      pos1: nat, line1: nat, q: Pending)
    requires s != "" && lexer(s, line, p.line).Comment?
    requires Agrees(lexer, names) && p.text == q.text
    ensures Alike(ScanFrom(lexer, s, pos, line, p), ScanFrom(lexer, s, pos1, line1, q))
    decreases |s|, 0
  {
    HeadsAlike(lexer, names, s, line, p.line, line1, q.line);
    var n := lexer(s, line, p.line).length;
    ScansAlike(lexer, names, s[n..], pos + n, line + Newlines(s[..n]), p, pos1 + n, line1 + Newlines(s[..n]), q);
  }

  lemma {:induction false} TokensAlike(lexer: Lexer, names: Names, s: string, pos: nat, line: nat, p: Pending,
      pos1: nat, line1: nat, q: Pending)
    requires s != "" && lexer(s, line, p.line).Emits?
    requires Agrees(lexer, names) && p.text == q.text
    ensures Alike(ScanFrom(lexer, s, pos, line, p), ScanFrom(lexer, s, pos1, line1, q))
    decreases |s|, 0
  {
    HeadsAlike(lexer, names, s, line, p.line, line1, q.line);
    var n := lexer(s, line, p.line).length;
    var l, m := line + Newlines(s[..n]), line1 + Newlines(s[..n]);
    ScansAlike(lexer, names, s[n..], pos + n, l, Fresh(l, pos + n), pos1 + n, m, Fresh(m, pos1 + n));
    EmissionsAlike(lexer, s, pos, line, p, pos1, line1, q, n);
  }

  lemma {:induction false} PlainsAlike(lexer: Lexer, names: Names, s: string, pos: nat, line: nat, p: Pending,
      pos1: nat, line1: nat, q: Pending)
    requires s != "" && lexer(s, line, p.line).Plain?
    requires Agrees(lexer, names) && p.text == q.text
    ensures Alike(ScanFrom(lexer, s, pos, line, p), ScanFrom(lexer, s, pos1, line1, q))
    decreases |s|, 0
  {
    HeadsAlike(lexer, names, s, line, p.line, line1, q.line);
    ScansAlike(lexer, names, s[1..], pos + 1, line + Newlines(s[..1]), Add(p, s[0], pos),
      pos1 + 1, line1 + Newlines(s[..1]), Add(q, s[0], pos1));
  }

  lemma {:induction false} ScansAlike(lexer: Lexer, names: Names, s: string, pos: nat, line: nat, p: Pending,
      pos1: nat, line1: nat, q: Pending)
    requires Agrees(lexer, names) && p.text == q.text
    ensures Alike(ScanFrom(lexer, s, pos, line, p), ScanFrom(lexer, s, pos1, line1, q))
    decreases |s|, 1
  {
    if s == "" || lexer(s, line, p.line).Fails? {
      StopsAlike(lexer, names, s, pos, line, p, pos1, line1, q);
    } else if lexer(s, line, p.line).Comment? {
      CommentsAlike(lexer, names, s, pos, line, p, pos1, line1, q);
    } else if lexer(s, line, p.line).Emits? {
      TokensAlike(lexer, names, s, pos, line, p, pos1, line1, q);
    } else {
      PlainsAlike(lexer, names, s, pos, line, p, pos1, line1, q);
    }
  }

  // ----- The front of a source, and the rest ------------------------------------------------------------------

  /** The tokens of `source`, up to lines, are `front` and then those of `rest`; an error is that
      of `rest`. */
  ghost predicate StartsWith(names: Names, source: string, front: seq<Token>, rest: string) {
    match (Scanned(Spots(names, source)), Scanned(Spots(names, rest)))
    case (Ok(x), Ok(y)) => Erase(x) == front + Erase(y)
    case (Err(d), Err(e)) => ErrorKind(d) == ErrorKind(e)
    case _ => false
  }

  lemma TokenFirst(names: Names, source: string, token: Token, n: nat)
    requires 0 < n <= |source| && Lex(names, source, 1, 1) == Emits(token, n)
    ensures StartsWith(names, source, [OnLine(token, 0)], source[n..])
  {
    var lexer := LexerFor(names);
    LexerForAgrees(names);
    var line1 := 1 + Newlines(source[..n]);
    ScansAlike(lexer, names, source[n..], n, line1, Fresh(line1, n), 0, 1, Fresh(1, 0));
    var rest := ScanFrom(lexer, source[n..], n, line1, Fresh(line1, n));
    if rest.Ok? {
      ErasedEmission(Fresh(1, 0), Spot(token, 0, 0), rest.value, token);
      assert [] + [OnLine(token, 0)] == [OnLine(token, 0)];
    }
  }

  lemma TokenThen(names: Names, source: string, token: Token, n: nat, rest: string)
    requires 0 < n <= |source| && Lex(names, source, 1, 1) == Emits(token, n) && source[n..] == rest
    ensures StartsWith(names, source, [OnLine(token, 0)], rest)
  {
    TokenFirst(names, source, token, n);
  }

  lemma CommentFirst(names: Names, source: string, n: nat)
    requires 0 < n <= |source| && Lex(names, source, 1, 1) == Lexeme.Comment(n)
    ensures StartsWith(names, source, [], source[n..])
  {
    var lexer := LexerFor(names);
    LexerForAgrees(names);
    ScansAlike(lexer, names, source[n..], n, 1 + Newlines(source[..n]), Fresh(1, 0), 0, 1, Fresh(1, 0));
    var scanned := Scanned(Spots(names, source[n..]));
    if scanned.Ok? {
      assert [] + Erase(scanned.value) == Erase(scanned.value);
    }
  }

  lemma FailsFirst(names: Names, source: string, error: ScanError)
    requires source != "" && Lex(names, source, 1, 1) == Fails(error)
    ensures Scanned(Spots(names, source)) == Err(error)
  {
    LexerForAgrees(names);
  }

  // ----- Raw blocks ---------------------------------------------------------------------------------------------

  /** The first place in a text where a needle stands is at `k`. */
  predicate FirstAt(s: string, needle: string, k: nat) {
    k <= |s| && needle <= s[k..] && forall i :: 0 <= i < k ==> !(needle <= s[i..])
  }

  predicate Nowhere(s: string, needle: string) {
    forall i :: 0 <= i <= |s| ==> !(needle <= s[i..])
  }

  lemma {:induction false} IndexOfFirst(s: string, needle: string, k: nat)
    requires needle != "" && FirstAt(s, needle, k)
    ensures IndexOf(s, needle) == Some(k)
  {
    assert s[0..] == s;
    if k > 0 {
      forall i | 0 <= i <= |s| - 1
        ensures s[1..][i..] == s[i + 1..]
      {
      }
      IndexOfFirst(s[1..], needle, k - 1);
    }
  }

  lemma {:induction false} IndexOfNowhere(s: string, needle: string)
    requires needle != "" && Nowhere(s, needle)
    ensures IndexOf(s, needle) == None
  {
    assert s[0..] == s;
    if s != "" {
      forall i | 0 <= i <= |s| - 1
        ensures s[1..][i..] == s[i + 1..]
      {
      }
      IndexOfNowhere(s[1..], needle);
    }
  }

  /** A whole `@endraw`, not the beginning of a longer word, stands first at `k`. */
  predicate FirstEndRaw(s: string, k: nat) {
    k <= |s| && EndsRaw(s[k..]) && forall i :: 0 <= i < k ==> !EndsRaw(s[i..])
  }

  predicate NoEndRaw(s: string) {
    forall i :: 0 <= i <= |s| ==> !EndsRaw(s[i..])
  }

  predicate EndsRaw(s: string) {
    "@endraw" <= s && (|s| > 7 ==> !IsWordChar(s[7]))
  }

  lemma {:induction false} RawCloseIsFirst(s: string, k: nat)
    requires FirstEndRaw(s, k)
    ensures RawCloseAt(s) == Some(k)
  {
    assert s[0..] == s && EndsRaw(s) == EndRawHere(s);
    if k > 0 {
      forall i | 0 <= i <= |s| - 1
        ensures s[1..][i..] == s[i + 1..]
      {
      }
      RawCloseIsFirst(s[1..], k - 1);
    }
  }

  lemma {:induction false} RawCloseNowhere(s: string)
    requires NoEndRaw(s)
    ensures RawCloseAt(s) == None
  {
    assert s[0..] == s && EndsRaw(s) == EndRawHere(s);
    if s != "" {
      forall i | 0 <= i <= |s| - 1
        ensures s[1..][i..] == s[i + 1..]
      {
      }
      RawCloseNowhere(s[1..]);
    }
  }

  /** What stands behind a word and its arguments does not belong to it. */
  predicate Detached(args: Option<string>, rest: string) {
    match args
    case Some(text) => Balances(text, 1, None)
    case None => rest == "" || (!IsWordChar(rest[0]) && rest[0] != '(')
  }

  /** `@`, a word and its arguments in front of something else. */
  function Printed(name: string, args: Option<string>, rest: string): string {
    "@" + (name + PrintArgs(args)) + rest
  }

  function PrintedLength(name: string, args: Option<string>): nat {
    1 + |name| + |PrintArgs(args)|
  }

  lemma PrintedParts(name: string, args: Option<string>, rest: string)
    ensures var s := Printed(name, args, rest);
      && |s| == PrintedLength(name, args) + |rest| && s[0] == '@'
      && s[PrintedLength(name, args)..] == rest
      && s[1..] == name + (PrintArgs(args) + rest) && s[1..1 + |name|] == name
      && s[1 + |name|..] == PrintArgs(args) + rest
  {
    DirectiveParts(name, args, rest);
  }

  lemma WordRead(names: Names, s: string, n: nat, args: Option<string>, after: nat)
    requires s != "" && s[0] == '@' && 0 < n < |s| && WordLength(s[1..]) == n && names(s[1..1 + n]).Some?
    requires after <= |s|
    requires LexArgs(s, 1 + n) == match args case None => NoArgs case Some(text) => Given(text, after)
    requires args.None? ==> after == 1 + n
    ensures Lex(names, s, 1, 1) == LexWord(names(s[1..1 + n]).value, s, args, after, 1)
  {
  }

  /** How a printed word with its arguments is read. */
  lemma LexPrintedWord(names: Names, name: string, args: Option<string>, rest: string)
    requires name != "" && (forall i :: 0 <= i < |name| ==> IsWordChar(name[i])) && names(name).Some?
    requires Detached(args, rest)
    ensures PrintedLength(name, args) <= |Printed(name, args, rest)|
    ensures Lex(names, Printed(name, args, rest), 1, 1)
      == LexWord(names(name).value, Printed(name, args, rest), args, PrintedLength(name, args), 1)
  {
    var s := Printed(name, args, rest);
    PrintedParts(name, args, rest);
    NameEnds(name, args, rest);
    ArgsPrinted(s, 1 + |name|, args, rest);
    WordRead(names, s, |name|, args, PrintedLength(name, args));
  }

  /** A text cut at the end of `front`, and at the end of `front` and `more`. */
  lemma Cuts(s: string, n: nat, front: string, more: string, rest: string)
    requires n <= |s| && s[n..] == front + (more + rest)
    ensures n + |front| + |more| <= |s| && s[n..n + |front|] == front && s[n + |front| + |more|..] == rest
  {
    assert s[n..][..|front|] == front && s[n..][|front| + |more|..] == rest;
  }

  /** A raw block is one text token with exactly what stands between its markers, and the scan
      goes on behind it, whatever the block holds. */
  lemma RawBlock(names: Names, args: Option<string>, body: string, rest: string)
    requires names("raw") == Some(RawOpen) && Detached(args, body + ("@endraw" + rest))
    requires FirstEndRaw(body + ("@endraw" + rest), |body|)
    ensures StartsWith(names, Printed("raw", args, body + ("@endraw" + rest)), [Text(body, 0)], rest)
  {
    var tail := body + ("@endraw" + rest);
    var s, after := Printed("raw", args, tail), PrintedLength("raw", args);
    PrintedParts("raw", args, tail);
    LexPrintedWord(names, "raw", args, tail);
    RawFirst(names, s, args, after, body, rest);
  }

  lemma RawFirst(names: Names, s: string, args: Option<string>, after: nat, body: string, rest: string)
    requires after <= |s| && s[after..] == body + ("@endraw" + rest)
    requires FirstEndRaw(body + ("@endraw" + rest), |body|)
    requires Lex(names, s, 1, 1) == LexWord(RawOpen, s, args, after, 1)
    ensures StartsWith(names, s, [Text(body, 0)], rest)
  {
    RawLexes(s, args, after, body, rest);
    TokenThen(names, s, Text(body, 1), after + |body| + |ENDRAW|, rest);
  }

  lemma RawLexes(s: string, args: Option<string>, after: nat, body: string, rest: string)
    requires after <= |s| && s[after..] == body + ("@endraw" + rest)
    requires FirstEndRaw(body + ("@endraw" + rest), |body|)
    ensures var n := after + |body| + |ENDRAW|;
      n <= |s| && s[n..] == rest && LexWord(RawOpen, s, args, after, 1) == Emits(Text(body, 1), n)
  {
    RawCloseIsFirst(body + ("@endraw" + rest), |body|);
    Cuts(s, after, body, "@endraw", rest);
    RawWord(s, args, after, |body|);
  }

  lemma RawWord(s: string, args: Option<string>, after: nat, k: nat)
    requires after <= |s| && RawCloseAt(s[after..]) == Some(k) && after + k <= |s|
    ensures LexWord(RawOpen, s, args, after, 1) == Emits(Text(s[after..after + k], 1), after + k + |ENDRAW|)
  {
  }

  /** With the words of the template language. */
  lemma StandardRawBlock(args: Option<string>, body: string, rest: string)
    requires Detached(args, body + ("@endraw" + rest)) && FirstEndRaw(body + ("@endraw" + rest), |body|)
    ensures StartsWith(Frozen, Printed("raw", args, body + ("@endraw" + rest)), [Text(body, 0)], rest)
  {
    RawBlock(Frozen, args, body, rest);
  }

  lemma OpenRawBlock(names: Names, args: Option<string>, rest: string)
    requires names("raw") == Some(RawOpen) && Detached(args, rest) && NoEndRaw(rest)
    ensures Scanned(Spots(names, Printed("raw", args, rest))) == Err(UnclosedRawBlock(1))
  {
    PrintedParts("raw", args, rest);
    LexPrintedWord(names, "raw", args, rest);
    RawCloseNowhere(rest);
    FailsFirst(names, Printed("raw", args, rest), UnclosedRawBlock(1));
  }

  lemma StrayEnd(names: Names, args: Option<string>, rest: string)
    requires names("endraw") == Some(RawClose) && Detached(args, rest)
    ensures Scanned(Spots(names, Printed("endraw", args, rest))) == Err(StrayEndRaw(1))
  {
    PrintedParts("endraw", args, rest);
    LexPrintedWord(names, "endraw", args, rest);
    FailsFirst(names, Printed("endraw", args, rest), StrayEndRaw(1));
  }

  /** A raw block that is not closed is rejected, and so is `@endraw` on its own. */
  lemma RawBlockErrors(names: Names, args: Option<string>, rest: string)
    requires names("raw") == Some(RawOpen) && names("endraw") == Some(RawClose) && Detached(args, rest)
    ensures NoEndRaw(rest) ==> Scanned(Spots(names, Printed("raw", args, rest))) == Err(UnclosedRawBlock(1))
    ensures Scanned(Spots(names, Printed("endraw", args, rest))) == Err(StrayEndRaw(1))
  {
    StrayEnd(names, args, rest);
    if NoEndRaw(rest) {
      OpenRawBlock(names, args, rest);
    }
  }

  // ----- Interpolations -----------------------------------------------------------------------------------------

  /** `}}` outside every quote stands first at `k`. */
  predicate FirstClosing(s: string, k: nat) {
    ClosesHere(s, k) && forall i :: 0 <= i < k ==> !ClosesHere(s, i)
  }

  lemma CloseIsFirst(s: string, k: nat)
    requires FirstClosing(s, k)
    ensures CloseAt(s, None) == Some(k)
  {
    assert s[0..] == s;
    CloseAtIsFirst(s, 0, None);
  }

  /** An interpolation is one token with the expression between its marks, without the white space
      around it, and the scan goes on behind it. */
  lemma EscapedLaw(names: Names, a: string, expr: string, b: string, rest: string)
    requires Blank(a) && Snug(expr) && Blank(b) && !("--" <= (a + (expr + b)) + ("}}" + rest))
    requires FirstClosing((a + (expr + b)) + ("}}" + rest), |a + (expr + b)|)
    ensures StartsWith(names, "{{" + ((a + (expr + b)) + ("}}" + rest)), [Escaped(expr, 0)], rest)
  {
    var inner := a + (expr + b);
    var tail := inner + ("}}" + rest);
    CloseIsFirst(tail, |inner|);
    OpenInterpolation(tail);
    TrimTakesBlanks(a, expr, b);
    Cuts("{{" + tail, 2, inner, "}}", rest);
    TokenThen(names, "{{" + tail, Escaped(expr, 1), 2 + |inner| + 2, rest);
  }

  /** The same for an unescaped one, which ends at the first `!!}`, quoted or not. */
  lemma RawLaw(names: Names, a: string, expr: string, b: string, rest: string)
    requires Blank(a) && Snug(expr) && Blank(b)
    requires FirstAt((a + (expr + b)) + ("!!}" + rest), "!!}", |a + (expr + b)|)
    ensures StartsWith(names, "{!!" + ((a + (expr + b)) + ("!!}" + rest)), [Raw(expr, 0)], rest)
  {
    var inner := a + (expr + b);
    TrimTakesBlanks(a, expr, b);
    LexRawIs(names, inner, rest);
    RawMark(inner + ("!!}" + rest));
    Cuts("{!!" + (inner + ("!!}" + rest)), 3, inner, "!!}", rest);
    TokenThen(names, "{!!" + (inner + ("!!}" + rest)), Raw(expr, 1), 3 + |inner| + 3, rest);
  }

  lemma LexRawIs(names: Names, inner: string, rest: string)
    requires FirstAt(inner + ("!!}" + rest), "!!}", |inner|)
    ensures Lex(names, "{!!" + (inner + ("!!}" + rest)), 1, 1) == Emits(Raw(Trim(inner), 1), 3 + |inner| + 3)
  {
    var tail := inner + ("!!}" + rest);
    IndexOfFirst(tail, "!!}", |inner|);
    RawMark(tail);
    Cuts("{!!" + tail, 3, inner, "!!}", rest);
  }

  lemma RawMark(s: string)
    ensures !("{{--" <= "{!!" + s) && "{!!" <= "{!!" + s && ("{!!" + s)[3..] == s
  {
    var t := "{!!" + s;
    assert t[3..] == s && t[1] == '!';
  }

  // ----- Comments, and what is left open ------------------------------------------------------------------------

  /** A comment leaves no token: the scan is that of what follows it. */
  lemma CommentLaw(names: Names, text: string, rest: string)
    requires FirstAt(text + ("--}}" + rest), "--}}", |text|)
    ensures StartsWith(names, "{{--" + (text + ("--}}" + rest)), [], rest)
  {
    var s := "{{--" + (text + ("--}}" + rest));
    CommentParts(text, rest);
    CommentFirst(names, s, 4 + |text| + 4);
  }

  lemma CommentParts(text: string, rest: string)
    requires FirstAt(text + ("--}}" + rest), "--}}", |text|)
    ensures var s := "{{--" + (text + ("--}}" + rest));
      && 4 + |text| + 4 <= |s| && s[4 + |text| + 4..] == rest && "{{--" <= s
      && LexComment(s, 1) == Lexeme.Comment(4 + |text| + 4)
  {
    var s := "{{--" + (text + ("--}}" + rest));
    IndexOfFirst(text + ("--}}" + rest), "--}}", |text|);
    Cuts(s, 4, text, "--}}", rest);
    assert s[4..] == text + ("--}}" + rest);
  }

  lemma OpenComment(names: Names, s: string)
    requires Nowhere(s, "--}}")
    ensures Scanned(Spots(names, "{{--" + s)) == Err(UnclosedComment(1))
  {
    IndexOfNowhere(s, "--}}");
    assert ("{{--" + s)[4..] == s && "{{--" <= "{{--" + s;
    FailsFirst(names, "{{--" + s, UnclosedComment(1));
  }

  lemma OpenRaw(names: Names, s: string)
    requires Nowhere(s, "!!}")
    ensures Scanned(Spots(names, "{!!" + s)) == Err(UnclosedRaw(1))
  {
    IndexOfNowhere(s, "!!}");
    var t := "{!!" + s;
    assert t[3..] == s && "{!!" <= t && t[1] == '!';
    FailsFirst(names, t, UnclosedRaw(1));
  }

  lemma OpenEscaped(names: Names, s: string)
    requires !("--" <= s) && forall i: nat :: !ClosesHere(s, i)
    ensures Scanned(Spots(names, "{{" + s)) == Err(UnclosedEscaped(1))
  {
    NoClose(s);
    OpenInterpolation(s);
    FailsFirst(names, "{{" + s, UnclosedEscaped(1));
  }

  lemma OpenArguments(names: Names, name: string, args: string)
    requires name != "" && (forall i :: 0 <= i < |name| ==> IsWordChar(name[i])) && names(name).Some?
    requires args != "" && args[0] == '(' && forall i: nat :: !BalancesHere(args, i)
    ensures Scanned(Spots(names, "@" + (name + args))) == Err(UnclosedArgs(name, 1))
  {
    NoBalance(args);
    OpenArgs(names, name, args);
    FailsFirst(names, "@" + (name + args), UnclosedArgs(name, 1));
  }

  lemma NoClose(s: string)
    requires forall i: nat :: !ClosesHere(s, i)
    ensures CloseAt(s, None) == None
  {
    assert s[0..] == s;
    CloseAtIsFirst(s, 0, None);
  }

  lemma NoBalance(s: string)
    requires forall i: nat :: !BalancesHere(s, i)
    ensures ParenAt(s, 0, None) == None
  {
    assert s[0..] == s;
    ParenAtIsFirst(s, 0, 0, None);
  }

  lemma DashesBehind(s: string)
    ensures "{{--" <= "{{" + s ==> "--" <= s
  {
    var t := "{{" + s;
    if "{{--" <= t {
      assert t[2] == s[0] && t[3] == s[1];
    }
  }

  lemma OpenInterpolation(s: string)
    requires !("--" <= s)
    ensures !("{{--" <= "{{" + s) && !("{!!" <= "{{" + s) && "{{" <= "{{" + s && ("{{" + s)[2..] == s
  {
    DashesBehind(s);
    var t := "{{" + s;
    assert t[2..] == s && t[1] == '{';
  }

  lemma OpenArgs(names: Names, name: string, args: string)
    requires name != "" && (forall i :: 0 <= i < |name| ==> IsWordChar(name[i])) && names(name).Some?
    requires args != "" && args[0] == '(' && ParenAt(args, 0, None) == None
    ensures Lex(names, "@" + (name + args), 1, 1) == Fails(UnclosedArgs(name, 1))
  {
    var s := "@" + (name + args);
    assert s[1..] == name + args && s[0] == '@';
    WordEnds(name, args);
    assert s[1..1 + |name|] == name && s[1 + |name|..] == args;
  }

  // ----- Plain text -----------------------------------------------------------------------------------------------

  /** An interpolation, a comment or a known word starts here. */
  predicate MarkerHere(names: Names, s: string) {
    "{{" <= s || "{!!" <= s
    || (s != "" && s[0] == '@' && WordLength(s[1..]) > 0 && names(s[1..1 + WordLength(s[1..])]).Some?)
  }

  lemma NoMarkerIsPlain(names: Names, s: string, line: nat, textLine: nat)
    requires !MarkerHere(names, s)
    ensures Lex(names, s, line, textLine) == Plain
  {
    assert "{{--" <= s ==> "{{" <= s;
  }

  predicate NoMarkers(names: Names, s: string) {
    forall i :: 0 <= i < |s| ==> !MarkerHere(names, s[i..])
  }

  lemma NoMarkersBehind(names: Names, s: string)
    requires s != "" && NoMarkers(names, s)
    ensures !MarkerHere(names, s) && NoMarkers(names, s[1..])
  {
    assert s[0..] == s;
    forall i | 0 <= i < |s| - 1
      ensures s[1..][i..] == s[i + 1..]
    {
    }
  }

  /** The one text of a plain source. */
  function AsText(text: string): seq<Token> {
    if text == "" then [] else [Text(text, 0)]
  }

  lemma FlushGives(p: Pending)
    ensures Erase(TokensOf(Flush(p))) == AsText(p.text)
  {
    FlushAlike(p, p);
  }

  /** What is pending and what is left make one text. */
  predicate GivesText(lexer: Lexer, s: string, pos: nat, line: nat, p: Pending) {
    var scanned := ScanFrom(lexer, s, pos, line, p);
    scanned.Ok? && Erase(TokensOf(scanned.value)) == AsText(p.text + s)
  }

  lemma PlainHead(lexer: Lexer, names: Names, s: string, line: nat, textLine: nat)
    requires Agrees(lexer, names) && !MarkerHere(names, s)
    ensures lexer(s, line, textLine) == Plain
  {
    NoMarkerIsPlain(names, s, line, textLine);
  }

  lemma PlainStep(lexer: Lexer, s: string, pos: nat, line: nat, p: Pending)
    requires s != "" && lexer(s, line, p.line) == Plain
    requires GivesText(lexer, s[1..], pos + 1, line + Newlines(s[..1]), Add(p, s[0], pos))
    ensures GivesText(lexer, s, pos, line, p)
  {
    PlainFirst(lexer, s, pos, line, p);
    assert (p.text + [s[0]]) + s[1..] == p.text + s;
  }

  lemma {:induction false} PlainScan(lexer: Lexer, names: Names, s: string, pos: nat, line: nat, p: Pending)
    requires Agrees(lexer, names) && NoMarkers(names, s)
    ensures GivesText(lexer, s, pos, line, p)
    decreases |s|
  {
    if s == "" {
      FlushGives(p);
      assert p.text + s == p.text;
    } else {
      NoMarkersBehind(names, s);
      PlainHead(lexer, names, s, line, p.line);
      PlainScan(lexer, names, s[1..], pos + 1, line + Newlines(s[..1]), Add(p, s[0], pos));
      PlainStep(lexer, s, pos, line, p);
    }
  }

  lemma PlainFirst(lexer: Lexer, s: string, pos: nat, line: nat, p: Pending)
    requires s != "" && lexer(s, line, p.line) == Plain
    ensures ScanFrom(lexer, s, pos, line, p)
      == ScanFrom(lexer, s[1..], pos + 1, line + Newlines(s[..1]), Add(p, s[0], pos))
  {
  }

  /** A source in which no marker starts is one text, unknown `@words` and single braces included. */
  lemma PlainText(names: Names, source: string)
    requires NoMarkers(names, source)
    ensures var scanned := Scanned(Spots(names, source));
      scanned.Ok? && Erase(scanned.value) == AsText(source)
  {
    LexerForAgrees(names);
    PlainScan(LexerFor(names), names, source, 0, 1, Fresh(1, 0));
    assert "" + source == source;
  }

  // ----- The words ------------------------------------------------------------------------------------------------

  /** A word of the table stands under its own name. */
  predicate UnderItsName(name: string) {
    match Frozen(name)
    case None => name != "raw" && name != "endraw"
    case Some(RawOpen) => name == "raw"
    case Some(RawClose) => name == "endraw"
    case Some(Directive(directive)) => name == NameOf(directive) && !directive.Unknown?
  }

  lemma FrozenOnlyBlocks(name: string)
    requires name in {"if", "elseif", "else", "endif", "for", "endfor", "each", "empty", "endeach"}
    ensures UnderItsName(name)
  {
  }

  lemma FrozenOnlyLayouts(name: string)
    requires name in {"extends", "section", "endsection", "set", "yield", "include", "push", "endpush"}
    ensures UnderItsName(name)
  {
  }

  lemma FrozenOnlyHelpers(name: string)
    requires name in {"prepend", "endprepend", "stack", "csrf"}
    ensures UnderItsName(name)
  {
  }

  lemma FrozenOnlyCalls(name: string)
    requires name in {"method", "route"}
    ensures UnderItsName(name)
  {
  }

  lemma FrozenOnlyPieces(name: string)
    requires name in {"asset", "island"}
    ensures UnderItsName(name)
  {
  }

  lemma FrozenOnlyHeads(name: string)
    requires name in {"islands", "css"}
    ensures UnderItsName(name)
  {
  }

  lemma FrozenOnlyTags(name: string)
    requires name in {"escape", "component"}
    ensures UnderItsName(name)
  {
  }

  lemma FrozenOnlyOthers(name: string)
    requires name in {"endcomponent", "raw", "endraw"}
    ensures UnderItsName(name)
  {
  }

  /** What closes a block is named after what opens it. */
  lemma EndWords(closer: Directive)
    requires Ends(closer).Some?
    ensures IsOpener(Ends(closer).value) && NameOf(closer) == "end" + NameOf(Ends(closer).value)
  {
  }

  /** Every opening directive has one that closes it. */
  lemma OpenersEnd(opener: Directive) returns (closer: Directive)
    requires IsOpener(opener)
    ensures Ends(closer) == Some(opener) && NameOf(closer) == "end" + NameOf(opener)
  {
    closer := match opener
      case AtIf => AtEndIf
      case AtFor => AtEndFor
      case AtEach => AtEndEach
      case AtSection => AtEndSection
      case AtPush => AtEndPush
      case AtPrepend => AtEndPrepend
      case _ => AtEndComponent;
  }

  const WORDS := {
    "if", "elseif", "else", "endif", "for", "endfor", "each", "empty", "endeach",
    "extends", "section", "endsection", "set", "yield", "include", "push", "endpush",
    "prepend", "endprepend", "stack", "csrf", "method", "route", "asset", "island",
    "islands", "css", "escape", "component", "endcomponent", "raw", "endraw"}

  /** The words are these, each under its own name, and no others. */
  lemma FrozenOnly(name: string)
    ensures Frozen(name).Some? <==> name in WORDS
    ensures UnderItsName(name)
  {
    if name in {"if", "elseif", "else", "endif", "for", "endfor", "each", "empty", "endeach"} {
      FrozenOnlyBlocks(name);
    } else if name in {"extends", "section", "endsection", "set", "yield", "include", "push", "endpush"} {
      FrozenOnlyLayouts(name);
    } else if name in {"prepend", "endprepend", "stack", "csrf"} {
      FrozenOnlyHelpers(name);
    } else if name in {"method", "route"} {
      FrozenOnlyCalls(name);
    } else if name in {"asset", "island"} {
      FrozenOnlyPieces(name);
    } else if name in {"islands", "css"} {
      FrozenOnlyHeads(name);
    } else if name in {"escape", "component"} {
      FrozenOnlyTags(name);
    } else if name in {"endcomponent", "raw", "endraw"} {
      FrozenOnlyOthers(name);
    }
  }
}
