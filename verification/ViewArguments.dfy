/** What the readers of directive arguments find, said of the text that was written. */
module ViewArguments {
  import opened Prelude
  import opened ViewText

  // ----- White space --------------------------------------------------------------------------------------

  predicate Blank(s: string) {
    forall i :: 0 <= i < |s| ==> IsSpace(s[i])
  }

  /** No white space at either end. */
  predicate Snug(s: string) {
    s != "" ==> !IsSpace(s[0]) && !IsSpace(s[|s| - 1])
  }

  lemma {:induction false} BlankStart(a: string, s: string)
    requires Blank(a)
    ensures TrimStart(a + s) == TrimStart(s)
  {
    if a == "" {
      assert a + s == s;
    } else {
      assert (a + s)[1..] == a[1..] + s;
      BlankStart(a[1..], s);
    }
  }

  lemma {:induction false} BlankEnd(s: string, b: string)
    requires Blank(b)
    ensures TrimEnd(s + b) == TrimEnd(s)
  {
    if b == "" {
      assert s + b == s;
    } else {
      assert (s + b)[..|s + b| - 1] == s + b[..|b| - 1];
      BlankEnd(s, b[..|b| - 1]);
    }
  }

  lemma {:induction false} AllBlank(s: string)
    requires Blank(s)
    ensures TrimStart(s) == "" && TrimEnd(s) == ""
  {
    BlankStart(s, "");
    BlankEnd("", s);
    assert s + "" == s && "" + s == s;
  }

  /** Trimming takes exactly the white space around a text. */
  lemma TrimTakesBlanks(a: string, s: string, b: string)
    requires Blank(a) && Blank(b) && Snug(s)
    ensures Trim(a + (s + b)) == s
  {
    BlankStart(a, s + b);
    if s == "" {
      assert s + b == b;
      AllBlank(b);
    } else {
      assert (s + b)[0] == s[0];
      BlankEnd(s, b);
    }
  }

  /** Every text is its trimmed form with white space around it. */
  lemma {:induction false} TrimStartSplits(s: string) returns (a: string)
    ensures Blank(a) && s == a + TrimStart(s)
    ensures TrimStart(s) != "" ==> !IsSpace(TrimStart(s)[0])
  {
    if s != "" && IsSpace(s[0]) {
      var rest := TrimStartSplits(s[1..]);
      a := [s[0]] + rest;
      assert s == [s[0]] + s[1..];
    } else {
      a := "";
    }
  }

  // ----- `@each` --------------------------------------------------------------------------------------------

  predicate Identifier(x: string) {
    x != "" && IsIdentStart(x[0]) && forall i :: 0 <= i < |x| ==> IsIdentChar(x[i])
  }

  /** `x in c`, with optional white space before and some on either side of `in`. */
  predicate EachClause(args: string, w: string, x: string, a: string, b: string, c: string) {
    && args == w + (x + (a + ("in" + (b + c))))
    && Blank(w) && Identifier(x) && a != "" && Blank(a) && b != "" && Blank(b) && c != ""
  }

  lemma {:induction false} IdentEnds(x: string, s: string)
    requires forall i :: 0 <= i < |x| ==> IsIdentChar(x[i])
    requires s == "" || !IsIdentChar(s[0])
    ensures IdentLength(x + s) == |x|
  {
    if x == "" {
      assert x + s == s;
    } else {
      assert (x + s)[1..] == x[1..] + s;
      IdentEnds(x[1..], s);
    }
  }

  lemma {:induction false} IdentIs(s: string)
    ensures var n := IdentLength(s);
      forall i :: 0 <= i < n ==> IsIdentChar(s[i])
  {
    if s != "" && IsIdentChar(s[0]) {
      IdentIs(s[1..]);
      assert forall i :: 0 < i < IdentLength(s) ==> s[i] == s[1..][i - 1];
    }
  }

  /** What is left of a clause at each stage of the match. */
  lemma ClauseParts(args: string, w: string, x: string, a: string, b: string, c: string)
    requires EachClause(args, w, x, a, b, c)
    ensures var s, keyword := TrimStart(args), "in" + (b + c);
      && s == x + (a + keyword) && IdentLength(s) == |x| && s[..|x|] == x && s[|x|..] == a + keyword
      && TrimStart(s[|x|..]) == keyword && keyword[..2] == "in" && keyword[2..] == b + c
  {
    var keyword := "in" + (b + c);
    BlankStart(w, x + (a + keyword));
    assert !IsSpace(x[0]) && (x + (a + keyword))[0] == x[0];
    assert (a + keyword)[0] == a[0] && !IsIdentChar(a[0]);
    IdentEnds(x, a + keyword);
    BlankStart(a, keyword);
    assert keyword[0] == 'i';
  }

  /** A written clause is read back: the identifier is the item, the rest the collection. */
  lemma EachReadsBack(args: string, w: string, x: string, a: string, b: string, c: string)
    requires EachClause(args, w, x, a, b, c) && !IsSpace(c[0])
    ensures EachMatch(args) == Some((x, c))
  {
    ClauseParts(args, w, x, a, b, c);
    BlankStart(b, c);
  }

  /** Of white space only, the last character is the collection. */
  lemma EachOfBlank(args: string, w: string, x: string, a: string, b: string, c: string)
    requires EachClause(args, w, x, a, b, c) && Blank(c)
    ensures EachMatch(args) == Some((x, c[|c| - 1..]))
  {
    ClauseParts(args, w, x, a, b, c);
    assert Blank(b + c);
    AllBlank(b + c);
    assert (b + c)[|b + c| - 1..] == c[|c| - 1..];
  }

  /** Whatever is read was written: the text is a clause of that item and that collection. */
  lemma EachWasWritten(args: string) returns (w: string, a: string, b: string)
    requires EachMatch(args).Some?
    ensures var (x, c) := EachMatch(args).value;
      EachClause(args, w, x, a, b, c)
  {
    w := TrimStartSplits(args);
    var s := TrimStart(args);
    var n := IdentLength(s);
    IdentIs(s);
    a := TrimStartSplits(s[n..]);
    var keyword := TrimStart(s[n..]);
    var tail := keyword[2..];
    b := TrimStartSplits(tail);
    var coll := TrimStart(tail);
    if coll == "" {
      b := tail[..|tail| - 1];
      assert tail == b + tail[|tail| - 1..];
    }
    var (x, c) := EachMatch(args).value;
    assert keyword == "in" + tail && s == s[..n] + s[n..] && tail == b + c;
  }

  /** Nothing is read exactly if no clause was written. */
  lemma EachNeedsClause(args: string)
    ensures EachMatch(args).Some? <==> exists w, x, a, b, c :: EachClause(args, w, x, a, b, c)
  {
    if EachMatch(args).Some? {
      var w, a, b := EachWasWritten(args);
      var (x, c) := EachMatch(args).value;
      assert EachClause(args, w, x, a, b, c);
    }
    if w, x, a, b, c :| EachClause(args, w, x, a, b, c) {
      ClauseParts(args, w, x, a, b, c);
      BlankStart(b, c);
      var blank := TrimStartSplits(c);
      assert |blank| + |TrimStart(c)| == |c|;
    }
  }

  // ----- Literals ---------------------------------------------------------------------------------------------

  /** A text that does not start with a quote is no literal; one that does not end with the same
      quote is unterminated; what stands between two equal quotes is unescaped, and so is the empty
      text of a single quote character. */
  lemma LiteralLaw(unescape: Unescape, a: string, s: string, b: string)
    requires Blank(a) && Blank(b) && Snug(s)
    ensures var args := a + (s + b);
      var read := EvalStringLiteral(unescape, args);
      && (s == "" || !IsQuote(s[0]) ==> read == Err(NotLiteral(args)))
      && (s != "" && IsQuote(s[0]) && s[|s| - 1] != s[0] ==> read == Err(Unterminated))
      && (|s| == 1 && IsQuote(s[0]) ==>
            match unescape("")
            case None => read == Err(InvalidLiteral)
            case Some(text) => read == Ok(text))
      && (|s| >= 2 && IsQuote(s[0]) && s[|s| - 1] == s[0] ==>
            match unescape(EscapeQuotes(s[1..|s| - 1]))
            case None => read == Err(InvalidLiteral)
            case Some(text) => read == Ok(text))
  {
    TrimTakesBlanks(a, s, b);
  }

  /** Only double quotes are escaped, each by one backslash. */
  lemma {:induction false} EscapesQuotes(a: string, b: string)
    ensures EscapeQuotes(a + b) == EscapeQuotes(a) + EscapeQuotes(b)
    ensures |a| == 1 ==> EscapeQuotes(a) == if a[0] == '"' then "\\\"" else a
  {
    if a == "" {
      assert a + b == b;
    } else {
      assert (a + b)[1..] == a[1..] + b;
      EscapesQuotes(a[1..], b);
    }
  }

  // ----- Lists ------------------------------------------------------------------------------------------------

  /** A quoted name holds no comma that splits. */
  lemma NoCommaInName(name: string, q: char)
    requires IsQuote(q) && PlainIn(name, q)
    ensures Comma(Quoted(name, q)) == -1
  {
    var args := Quoted(name, q);
    assert [q] + name <= args;
    forall k | 0 <= k < |args|
      ensures !TopLevelComma(args, k)
    {
      if k > 0 {
        InsideQuotes(args, name, q, k - 1);
      }
    }
    CommaFromNone(args, 0);
  }

  /** A name on its own: no fallback, no data, and nothing to set. */
  lemma NameAlone(unescape: Unescape, name: string, q: char)
    requires IsQuote(q) && PlainIn(name, q) && unescape(EscapeQuotes(name)) == Some(name)
    ensures SplitYieldArgs(unescape, Quoted(name, q)) == Ok((name, None))
    ensures SplitNameAndObject(unescape, Quoted(name, q)) == Ok((name, "({})"))
    ensures SplitSetArgs(unescape, Quoted(name, q)) == Err(NeedsComma)
  {
    NoCommaInName(name, q);
    QuotedIsLiteral(unescape, name, q);
  }

  /** A name and a fallback come back, with any white space around the fallback. */
  lemma YieldPrinted(unescape: Unescape, name: string, q: char, a: string, fallback: string, p: char, b: string)
    requires IsQuote(q) && PlainIn(name, q) && unescape(EscapeQuotes(name)) == Some(name)
    requires IsQuote(p) && unescape(EscapeQuotes(fallback)) == Some(fallback) && Blank(a) && Blank(b)
    ensures SplitYieldArgs(unescape, Quoted(name, q) + "," + (a + (Quoted(fallback, p) + b)))
      == Ok((name, Some(fallback)))
  {
    var rest := a + (Quoted(fallback, p) + b);
    CommaAfterName(name, q, rest);
    PartsOfPrinted(name, q, rest);
    QuotedIsLiteral(unescape, name, q);
    LiteralLaw(unescape, a, Quoted(fallback, p), b);
    assert Quoted(fallback, p)[1..|Quoted(fallback, p)| - 1] == fallback;
  }

  /** A fallback that is no literal is reported as such. */
  lemma YieldFallbackNeedsLiteral(unescape: Unescape, name: string, q: char, rest: string)
    requires IsQuote(q) && PlainIn(name, q) && unescape(EscapeQuotes(name)) == Some(name)
    requires EvalStringLiteral(unescape, rest).Err?
    ensures SplitYieldArgs(unescape, Quoted(name, q) + "," + rest)
      == Err(InDefault(EvalStringLiteral(unescape, rest).error))
  {
    CommaAfterName(name, q, rest);
    PartsOfPrinted(name, q, rest);
    QuotedIsLiteral(unescape, name, q);
  }

  /** After a comma without anything behind it there is no value, and no data. */
  lemma NothingAfterComma(unescape: Unescape, name: string, q: char, blank: string)
    requires IsQuote(q) && PlainIn(name, q) && unescape(EscapeQuotes(name)) == Some(name) && Blank(blank)
    ensures SplitSetArgs(unescape, Quoted(name, q) + "," + blank) == Err(NeedsValue)
    ensures SplitNameAndObject(unescape, Quoted(name, q) + "," + blank) == Ok((name, "({})"))
  {
    CommaAfterName(name, q, blank);
    PartsOfPrinted(name, q, blank);
    QuotedIsLiteral(unescape, name, q);
    AllBlank(blank);
  }

  // ----- The standard reading -----------------------------------------------------------------------------------

  /** Every directive reads its arguments as it should: there are some unless they are blank, and
      what was printed as a literal, a list or a clause comes back through the reader of its kind. */
  lemma StandardReads(unescape: Unescape, name: string, q: char, value: string, fallback: string, p: char)
    requires IsQuote(q) && PlainIn(name, q) && unescape(EscapeQuotes(name)) == Some(name)
    requires IsQuote(p) && unescape(EscapeQuotes(fallback)) == Some(fallback)
    requires value != "" && Snug(value)
    ensures var syntax := StandardSyntax(unescape);
      && (forall args :: Blank(args) ==> !syntax.filled(args)) && syntax.filled(value)
      && syntax.literal(Quoted(name, q)) == Ok(name)
      && syntax.named(Quoted(name, q)) == Ok((name, "({})"))
      && syntax.named(Quoted(name, q) + "," + value) == Ok((name, "(" + value + ")"))
      && syntax.setting(Quoted(name, q) + "," + value) == Ok((name, value))
      && syntax.yielded(Quoted(name, q)) == Ok((name, None))
      && syntax.yielded(Quoted(name, q) + "," + ("" + (Quoted(fallback, p) + ""))) == Ok((name, Some(fallback)))
      && (forall w, x, a, b :: EachClause(w + (x + (a + ("in" + (b + value)))), w, x, a, b, value) ==>
            syntax.each(w + (x + (a + ("in" + (b + value))))) == Some((x, value)))
  {
    forall args | Blank(args)
      ensures Trim(args) == ""
    {
      AllBlank(args);
    }
    TrimTakesBlanks("", value, "");
    assert "" + (value + "") == value;
    QuotedIsLiteral(unescape, name, q);
    NameAlone(unescape, name, q);
    SplitPrinted(unescape, name, q, value);
    YieldPrinted(unescape, name, q, "", fallback, p, "");
    forall w, x, a, b | EachClause(w + (x + (a + ("in" + (b + value)))), w, x, a, b, value)
      ensures EachMatch(w + (x + (a + ("in" + (b + value))))) == Some((x, value))
    {
      EachReadsBack(w + (x + (a + ("in" + (b + value)))), w, x, a, b, value);
    }
  }
}
