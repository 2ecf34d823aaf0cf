/** Where tokens come from and which line they report. */
module TokenizerPositions {
  import opened Prelude
  import opened ViewText
  import opened Template
  import opened Tokenizer

  lemma {:induction false} NewlinesAppend(a: string, b: string)
    ensures Newlines(a + b) == Newlines(a) + Newlines(b)
  {
    if a == "" {
      assert a + b == b;
    } else {
      assert (a + b)[0] == a[0] && (a + b)[1..] == a[1..] + b;
      NewlinesAppend(a[1..], b);
    }
  }

  /** A line ends at each line feed and at nothing else. */
  lemma {:induction false} NewlinesAreLineFeeds(s: string)
    ensures Newlines(s) == multiset(s)['\n']
  {
    if s != "" {
      NewlinesAreLineFeeds(s[1..]);
      assert s == [s[0]] + s[1..];
    }
  }

  lemma NewlinesTo(source: string, i: nat, j: nat)
    requires i <= j <= |source|
    ensures Newlines(source[..j]) == Newlines(source[..i]) + Newlines(source[i..j])
  {
    assert source[..j] == source[..i] + source[i..j];
    NewlinesAppend(source[..i], source[i..j]);
  }

  // ----- Comments -----------------------------------------------------------------------------------------------

  predicate IsComment(c: string) {
    |c| >= 8 && "{{--" <= c && IndexOf(c[4..], "--}}") == Some(|c| - 8)
  }

  /** Whole comments, one after the other. */
  predicate Comments(s: string) {
    s == "" || exists n: nat :: n < |s| && Comments(s[..n]) && IsComment(s[n..])
  }

  lemma PrefixOfCut(s: string, n: nat, needle: string)
    requires n <= |s|
    ensures needle <= s[..n] ==> needle <= s
  {
  }

  lemma {:induction false} IndexOfCut(s: string, needle: string)
    requires needle != "" && IndexOf(s, needle).Some?
    ensures var k := IndexOf(s, needle).value;
      k + |needle| <= |s| && IndexOf(s[..k + |needle|], needle) == Some(k)
  {
    IndexOfBounds(s, needle);
    var k := IndexOf(s, needle).value;
    var cut := s[..k + |needle|];
    if needle <= s {
      assert needle <= cut;
    } else {
      IndexOfCut(s[1..], needle);
      assert cut[1..] == s[1..][..k - 1 + |needle|];
      PrefixOfCut(s, k + |needle|, needle);
    }
  }

  lemma OneMoreComment(source: string, from: nat, pos: nat, n: nat)
    requires from <= pos && pos + n <= |source| && n > 0
    requires Comments(source[from..pos]) && IsComment(source[pos..][..n])
    ensures Comments(source[from..pos + n])
  {
    var s := source[from..pos + n];
    assert s[..pos - from] == source[from..pos] && s[pos - from..] == source[pos..][..n];
  }

  // ----- What a lexeme promises ----------------------------------------------------------------------------------

  /** A token reports the line it was read on and starts with its own mark. */
  predicate TokenAt(token: Token, c: char, line: nat) {
    && token.line == line
    && (match token
        case At(_, _, _) => c == '@'
        case Escaped(_, _) => c == '{'
        case Raw(_, _) => c == '{'
        case Text(_, _) => c == '@')
  }

  predicate LexemeOk(lexeme: Lexeme, s: string, line: nat) {
    s != "" ==>
      && Fits(lexeme, s)
      && (lexeme.Emits? ==> TokenAt(lexeme.token, s[0], line))
      && (lexeme.Comment? ==> IsComment(s[..lexeme.length]))
  }

  lemma CommentLexeme(s: string, line: nat)
    requires "{{--" <= s
    ensures LexemeOk(LexComment(s, line), s, line)
  {
    IndexOfBounds(s[4..], "--}}");
    if IndexOf(s[4..], "--}}").Some? {
      IndexOfCut(s[4..], "--}}");
      var k := IndexOf(s[4..], "--}}").value;
      assert s[..8 + k][4..] == s[4..][..k + 4];
    }
  }

  lemma DirectiveLexeme(names: Names, s: string, line: nat)
    requires s != "" && s[0] == '@'
    ensures LexemeOk(LexDirective(names, s, line), s, line)
  {
    LexDirectiveLength(names, s, line);
  }

  lemma LexOk(names: Names, s: string, line: nat, textLine: nat)
    ensures LexemeOk(Lex(names, s, line, textLine), s, line)
  {
    LexLength(names, s, line, textLine);
    if s == "" {
    } else if "{{--" <= s {
      CommentLexeme(s, textLine);
    } else if "{!!" <= s {
      assert s[0] == "{!!"[0];
    } else if "{{" <= s {
      assert s[0] == "{{"[0];
    } else if s[0] == '@' {
      DirectiveLexeme(names, s, line);
    }
  }

  ghost predicate LexesRight(lexer: Lexer) {
    forall s: string, l: nat, t: nat :: LexemeOk(lexer(s, l, t), s, l)
  }

  lemma LexerForRight(names: Names)
    ensures LexesRight(LexerFor(names))
  {
    forall s: string, l: nat, t: nat
      ensures LexemeOk(LexerFor(names)(s, l, t), s, l)
    {
      LexOk(names, s, l, t);
    }
  }

  // ----- Where spots lie ------------------------------------------------------------------------------------------

  /** The character a token starts with: its mark, or for text its own first character. A raw
      block is a text that starts with the `@` of `@raw`. */
  predicate StartsRight(source: string, spot: Spot)
    requires spot.at < |source|
  {
    match spot.token
    case At(_, _, _) => source[spot.at] == '@'
    case Escaped(_, _) => source[spot.at] == '{'
    case Raw(_, _) => source[spot.at] == '{'
    case Text(value, _) => source[spot.at] == '@' || (value != "" && source[spot.at] == value[0])
  }

  predicate SpotOk(source: string, spot: Spot, lo: nat) {
    && lo <= spot.from <= spot.at < |source|
    && spot.token.line == 1 + Newlines(source[..spot.from])
    && Comments(source[spot.from..spot.at])
    && (!spot.token.Text? ==> spot.from == spot.at)
    && StartsRight(source, spot)
  }

  /** Every spot is right, and each lies after the one before. */
  predicate Placed(source: string, spots: seq<Spot>, lo: nat) {
    spots == [] || (SpotOk(source, spots[0], lo) && Placed(source, spots[1..], spots[0].at + 1))
  }

  /** Pending text at `pos`: its run started after `lo`, and only comments came before its first character. */
  predicate PendingOk(source: string, p: Pending, pos: nat, lo: nat) {
    && lo <= p.from <= pos <= |source| && p.line == 1 + Newlines(source[..p.from])
    && (p.text == "" ==> Comments(source[p.from..pos]))
    && (p.text != "" ==>
          p.from <= p.at < pos && source[p.at] == p.text[0] && Comments(source[p.from..p.at]))
  }

  lemma FlushPlaced(source: string, p: Pending, pos: nat, lo: nat, more: seq<Spot>)
    requires PendingOk(source, p, pos, lo) && Placed(source, more, pos)
    ensures Placed(source, Flush(p) + more, lo)
  {
    if p.text == "" {
      assert Flush(p) + more == more;
      PlacedLower(source, more, pos, lo);
    } else {
      var spots := Flush(p) + more;
      assert spots[0] == Flush(p)[0] && spots[1..] == more;
      PlacedLower(source, more, pos, p.at + 1);
    }
  }

  lemma PlacedLower(source: string, spots: seq<Spot>, hi: nat, lo: nat)
    requires Placed(source, spots, hi) && lo <= hi
    ensures Placed(source, spots, lo)
  {
  }

  /** The scan from here on puts its spots in place. */
  predicate ScansRight(lexer: Lexer, source: string, pos: nat, line: nat, p: Pending, lo: nat)
    requires pos <= |source|
  {
    var result := ScanFrom(lexer, source[pos..], pos, line, p);
    result.Ok? ==> Placed(source, result.value, lo)
  }

  lemma AtEnd(lexer: Lexer, source: string, pos: nat, line: nat, p: Pending, lo: nat)
    requires pos == |source| && PendingOk(source, p, pos, lo)
    ensures ScansRight(lexer, source, pos, line, p, lo)
  {
    FlushPlaced(source, p, pos, lo, []);
    NilRight(Flush(p));
  }

  lemma AtComment(lexer: Lexer, source: string, pos: nat, line: nat, p: Pending, lo: nat, n: nat)
    requires pos + n <= |source| && 0 < n && lexer(source[pos..], line, p.line) == Comment(n)
    requires ScansRight(lexer, source, pos + n, line + Newlines(source[pos..][..n]), p, lo)
    ensures ScansRight(lexer, source, pos, line, p, lo)
  {
    ScanComment(lexer, source, pos, line, p, n);
  }

  lemma AtToken(lexer: Lexer, source: string, pos: nat, line: nat, p: Pending, lo: nat, token: Token, n: nat)
    requires pos + n <= |source| && 0 < n && lexer(source[pos..], line, p.line) == Emits(token, n)
    requires PendingOk(source, p, pos, lo) && line == 1 + Newlines(source[..pos]) && TokenAt(token, source[pos], line)
    requires var line1 := line + Newlines(source[pos..][..n]);
      ScansRight(lexer, source, pos + n, line1, Fresh(line1, pos + n), pos + n)
    ensures ScansRight(lexer, source, pos, line, p, lo)
  {
    var line1 := line + Newlines(source[pos..][..n]);
    ScanEmits(lexer, source, pos, line, p, token, n);
    EmitsPlaced(source, pos, line, p, lo, token, n, ScanFrom(lexer, source[pos + n..], pos + n, line1,
      Fresh(line1, pos + n)));
  }

  lemma AtPlain(lexer: Lexer, source: string, pos: nat, line: nat, p: Pending, lo: nat)
    requires pos < |source| && lexer(source[pos..], line, p.line) == Plain
    requires ScansRight(lexer, source, pos + 1, line + Newlines(source[pos..][..1]), Add(p, source[pos], pos), lo)
    ensures ScansRight(lexer, source, pos, line, p, lo)
  {
    ScanPlain(lexer, source, pos, line, p);
    assert source[pos..][..1] == [source[pos]];
    NewlinesOne(source[pos]);
  }

  lemma RightLexeme(lexer: Lexer, s: string, line: nat, textLine: nat)
    requires LexesRight(lexer) && s != ""
    ensures LexemeOk(lexer(s, line, textLine), s, line)
  {
  }

  lemma {:induction false} ScanPlaced(lexer: Lexer, source: string, pos: nat, line: nat, p: Pending, lo: nat)
    requires LexesRight(lexer) && PendingOk(source, p, pos, lo) && line == 1 + Newlines(source[..pos])
    ensures ScansRight(lexer, source, pos, line, p, lo)
    decreases |source| - pos, 1
  {
    if pos == |source| {
      AtEnd(lexer, source, pos, line, p, lo);
    } else {
      RightLexeme(lexer, source[pos..], line, p.line);
      match lexer(source[pos..], line, p.line) {
        case Fails(_) =>
        case Comment(n) =>
          CommentPlaced(source, pos, line, p, lo, n);
          ScanPlaced(lexer, source, pos + n, line + Newlines(source[pos..][..n]), p, lo);
          AtComment(lexer, source, pos, line, p, lo, n);
        case Emits(token, n) => TokenPlaced(lexer, source, pos, line, p, lo, token, n);
        case Plain => CharPlaced(lexer, source, pos, line, p, lo);
      }
    }
  }

  lemma {:induction false} TokenPlaced(lexer: Lexer, source: string, pos: nat, line: nat, p: Pending, lo: nat,
      token: Token, n: nat)
    requires LexesRight(lexer) && PendingOk(source, p, pos, lo) && line == 1 + Newlines(source[..pos])
    requires pos + n <= |source| && 0 < n && lexer(source[pos..], line, p.line) == Emits(token, n)
    requires TokenAt(token, source[pos], line)
    ensures ScansRight(lexer, source, pos, line, p, lo)
    decreases |source| - pos, 0
  {
    var line1 := line + Newlines(source[pos..][..n]);
    LineAfter(source, pos, n);
    assert source[pos + n..pos + n] == "";
    ScanPlaced(lexer, source, pos + n, line1, Fresh(line1, pos + n), pos + n);
    AtToken(lexer, source, pos, line, p, lo, token, n);
  }

  lemma CharReady(source: string, pos: nat, line: nat, p: Pending, lo: nat)
    requires PendingOk(source, p, pos, lo) && line == 1 + Newlines(source[..pos]) && pos < |source|
    ensures PendingOk(source, Add(p, source[pos], pos), pos + 1, lo)
    ensures line + Newlines(source[pos..][..1]) == 1 + Newlines(source[..pos + 1])
  {
    LineAfter(source, pos, 1);
    AddPending(source, p, pos, lo);
  }

  lemma {:induction false} CharPlaced(lexer: Lexer, source: string, pos: nat, line: nat, p: Pending, lo: nat)
    requires LexesRight(lexer) && PendingOk(source, p, pos, lo) && line == 1 + Newlines(source[..pos])
    requires pos < |source| && lexer(source[pos..], line, p.line) == Plain
    ensures ScansRight(lexer, source, pos, line, p, lo)
    decreases |source| - pos, 0
  {
    CharReady(source, pos, line, p, lo);
    ScanPlaced(lexer, source, pos + 1, line + Newlines(source[pos..][..1]), Add(p, source[pos], pos), lo);
    AtPlain(lexer, source, pos, line, p, lo);
  }

  lemma LineAfter(source: string, pos: nat, n: nat)
    requires pos + n <= |source|
    ensures Newlines(source[..pos + n]) == Newlines(source[..pos]) + Newlines(source[pos..][..n])
  {
    assert source[pos..][..n] == source[pos..pos + n];
    NewlinesTo(source, pos, pos + n);
  }

  lemma CommentPlaced(source: string, pos: nat, line: nat, p: Pending, lo: nat, n: nat)
    requires PendingOk(source, p, pos, lo) && line == 1 + Newlines(source[..pos])
    requires 0 < n && pos + n <= |source| && IsComment(source[pos..][..n])
    ensures PendingOk(source, p, pos + n, lo)
    ensures line + Newlines(source[pos..][..n]) == 1 + Newlines(source[..pos + n])
  {
    LineAfter(source, pos, n);
    if p.text == "" {
      OneMoreComment(source, p.from, pos, n);
    }
  }

  lemma AddPending(source: string, p: Pending, pos: nat, lo: nat)
    requires PendingOk(source, p, pos, lo) && pos < |source|
    ensures PendingOk(source, Add(p, source[pos], pos), pos + 1, lo)
  {
  }

  lemma EmitsPlaced(source: string, pos: nat, line: nat, p: Pending, lo: nat, token: Token, n: nat,
      rest: Result<seq<Spot>, ScanError>)
    requires PendingOk(source, p, pos, lo) && line == 1 + Newlines(source[..pos])
    requires 0 < n && pos + n <= |source| && TokenAt(token, source[pos], line)
    requires rest.Ok? ==> Placed(source, rest.value, pos + n)
    ensures var result := Onto(Flush(p) + [Spot(token, pos, pos)], rest);
      result.Ok? ==> Placed(source, result.value, lo)
  {
    if rest.Ok? {
      var spot := Spot(token, pos, pos);
      var more := [spot] + rest.value;
      assert source[pos..pos] == "";
      PlacedLower(source, rest.value, pos + n, pos + 1);
      assert more[0] == spot && more[1..] == rest.value;
      FlushPlaced(source, p, pos, lo, more);
      Assoc(Flush(p), [spot], rest.value);
    }
  }

  // ----- The position laws ---------------------------------------------------------------------------------------

  lemma SourcePlaced(names: Names, source: string)
    requires Spots(names, source).Ok?
    ensures Placed(source, Spots(names, source).value, 0)
  {
    LexerForRight(names);
    assert source[0..] == source && source[..0] == "" && source[0..0] == "";
    ScanPlaced(LexerFor(names), source, 0, 1, Fresh(1, 0), 0);
  }

  lemma {:induction false} PlacedIndex(source: string, spots: seq<Spot>, lo: nat, i: nat)
    requires Placed(source, spots, lo) && i < |spots|
    ensures SpotOk(source, spots[i], lo)
  {
    if i > 0 {
      PlacedIndex(source, spots[1..], spots[0].at + 1, i - 1);
    }
  }

  lemma {:induction false} PlacedOrder(source: string, spots: seq<Spot>, lo: nat, i: nat, j: nat)
    requires Placed(source, spots, lo) && i < j < |spots|
    ensures spots[i].at < spots[j].from
  {
    if i == 0 {
      PlacedIndex(source, spots[1..], spots[0].at + 1, j - 1);
    } else {
      PlacedOrder(source, spots[1..], spots[0].at + 1, i - 1, j - 1);
    }
  }

  lemma {:induction false} TokensOfIndex(spots: seq<Spot>, i: nat)
    requires i < |spots|
    ensures |TokensOf(spots)| == |spots| && TokensOf(spots)[i] == spots[i].token
  {
    if i > 0 {
      TokensOfIndex(spots[1..], i - 1);
    } else if |spots| > 1 {
      TokensOfIndex(spots[1..], 0);
    }
  }

  /** Each token reports one plus the newlines before the place where its run began. An
      interpolation or directive begins there, so it reports its own line. A text reports its own
      line exactly when the comments skipped before its first character hold no newline. */
  lemma TokenLines(names: Names, source: string, i: nat)
    requires Spots(names, source).Ok? && i < |Spots(names, source).value|
    ensures var spot := Spots(names, source).value[i];
      && SpotOk(source, spot, 0)
      && (!spot.token.Text? ==> spot.token.line == 1 + Newlines(source[..spot.at]))
      && (spot.token.line == 1 + Newlines(source[..spot.at]) <==> Newlines(source[spot.from..spot.at]) == 0)
  {
    SourcePlaced(names, source);
    var spots := Spots(names, source).value;
    PlacedIndex(source, spots, 0, i);
    NewlinesTo(source, spots[i].from, spots[i].at);
  }

  /** Reported lines never decrease. */
  lemma LinesNeverDecrease(names: Names, source: string, i: nat, j: nat)
    requires Scanned(Spots(names, source)).Ok? && i < j < |Scanned(Spots(names, source)).value|
    ensures var tokens := Scanned(Spots(names, source)).value;
      tokens[i].line <= tokens[j].line
  {
    var spots := Spots(names, source).value;
    if spots != [] {
      TokensOfIndex(spots, 0);
      TokensOfIndex(spots, i);
      TokensOfIndex(spots, j);
      SourcePlaced(names, source);
      PlacedIndex(source, spots, 0, i);
      PlacedIndex(source, spots, 0, j);
      PlacedOrder(source, spots, 0, i, j);
      NewlinesTo(source, spots[i].from, spots[j].from);
    }
  }

  // ----- A text after a long comment reports the comment's line ------------------------------------------------

  const LATE := "{{--\n--}}x"

  lemma LateComment(line: nat)
    ensures LexComment(LATE, line) == Comment(9)
  {
    var s := LATE[4..];
    assert s == "\n--}}x" && s[1..] == "--}}x";
    assert s[0] != "--}}"[0];
    assert !("--}}" <= s);
    assert "--}}" <= s[1..];
    assert IndexOf(s[1..], "--}}") == Some(0);
    assert IndexOf(s, "--}}") == Some(1);
    assert "{{--" <= LATE;
  }

  lemma LateNewlines()
    ensures Newlines(LATE[..9]) == 1
  {
    assert LATE[..9] == "{{--" + "\n--}}";
    NewlinesAppend("{{--", "\n--}}");
    assert "{{--"[1..] == "{--" && "{--"[1..] == "--" && "--"[1..] == "-" && "-"[1..] == "";
    assert "\n--}}"[1..] == "--}}" && "--}}"[1..] == "-}}" && "-}}"[1..] == "}}" && "}}"[1..] == "}" && "}"[1..] == "";
  }

  lemma LateLexes(names: Names, line: nat, textLine: nat)
    ensures Lex(names, LATE, line, textLine) == Comment(9)
    ensures Lex(names, "x", line, textLine) == Plain
  {
    assert "{{--" <= LATE;
    LateComment(textLine);
    assert "x"[0] != "{{"[0];
  }

  lemma LateScan(lexer: Lexer)
    requires forall line: nat :: lexer(LATE, line, 1) == Comment(9) && lexer("x", line, 1) == Plain
    ensures ScanAll(lexer, LATE) == Ok([Spot(Text("x", 1), 9, 0)])
  {
    assert LATE[0..] == LATE && LATE[9..] == "x" && LATE[10..] == "";
    ScanComment(lexer, LATE, 0, 1, Fresh(1, 0), 9);
    var line := 1 + Newlines(LATE[0..][..9]);
    ScanPlain(lexer, LATE, 9, line, Fresh(1, 0));
    var p := Add(Fresh(1, 0), 'x', 9);
    assert p == Pending("x", 1, 0, 9);
    assert ScanFrom(lexer, LATE[10..], 10, line, p) == Ok(Flush(p));
  }

  /** The text `x` of `LATE` is on line 2 and reported on line 1. */
  lemma LateTextReportsEarlierLine(names: Names)
    ensures Spots(names, LATE) == Ok([Spot(Text("x", 1), 9, 0)])
    ensures LATE[9] == 'x' && 1 + Newlines(LATE[..9]) == 2
  {
    forall line: nat
      ensures LexerFor(names)(LATE, line, 1) == Comment(9) && LexerFor(names)("x", line, 1) == Plain
    {
      LateLexes(names, line, 1);
    }
    LateScan(LexerFor(names));
    LateNewlines();
  }
}
