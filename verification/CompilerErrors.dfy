/** Which error the compiler reports: that of the first faulty token, or of the innermost block
    left open, said of the tokens alone. */
module CompilerErrors {
  import opened Prelude
  import opened ViewText
  import opened ViewHost
  import opened Template
  import opened Compiler
  import opened CompilerCorrect

  /** The opening tokens of the blocks still open after a list of tokens, innermost last. */
  function OpenBlocks(tokens: seq<Token>): seq<Token> {
    if tokens == [] then [] else OpenAfter(OpenBlocks(tokens[..|tokens| - 1]), tokens[|tokens| - 1])
  }

  function OpenAfter(open: seq<Token>, token: Token): seq<Token> {
    if !token.At? then open
    else if IsOpener(token.directive) then open + [token]
    else if Ends(token.directive).Some? && open != [] then open[..|open| - 1]
    else open
  }

  predicate InBlock(open: seq<Token>, kind: Directive) {
    open != [] && Is(open[|open| - 1], kind)
  }

  predicate HasExtends(tokens: seq<Token>) {
    exists i :: 0 <= i < |tokens| && Is(tokens[i], AtExtends)
  }

  /** The block a directive has to stand directly in. */
  function Wanted(directive: Directive): Option<Directive> {
    if directive == AtElseIf || directive == AtElse then Some(AtIf)
    else if directive == AtEmpty then Some(AtEach)
    else Ends(directive)
  }

  /** Directives that mean nothing without arguments. */
  predicate NeedsArgs(directive: Directive) {
    directive in {AtIf, AtElseIf, AtFor, AtEach, AtSection, AtPush, AtPrepend, AtComponent, AtExtends, AtSet, AtYield,
      AtInclude, AtStack, AtMethod, AtRoute, AtAsset, AtIsland, AtEscape}
  }

  function ProblemOf<T>(read: Result<T, Problem>): Option<Problem> {
    match read
    case Ok(_) => None
    case Err(problem) => Some(problem)
  }

  /** What is wrong with the arguments of a directive that reads them as a literal or a list. */
  function ReadProblem(host: Host, directive: Directive, args: string): Option<Problem> {
    if directive in {AtSection, AtPush, AtPrepend, AtExtends, AtStack, AtCss} then ProblemOf(host.syntax.literal(args))
    else if directive in {AtComponent, AtInclude, AtIsland} then ProblemOf(host.syntax.named(args))
    else if directive == AtSet then ProblemOf(host.syntax.setting(args))
    else if directive == AtYield then ProblemOf(host.syntax.yielded(args))
    else None
  }

  /** What is wrong with a token behind others. */
  predicate Fault(host: Host, before: seq<Token>, token: Token, reason: Reason) {
    token.At? && FaultIn(host, OpenBlocks(before), HasExtends(before), token, reason)
  }

  /** There is argument text, and not only white space. */
  predicate Filled(host: Host, args: Option<string>) {
    match args
    case None => false
    case Some(text) => host.syntax.filled(text)
  }

  /** What is wrong with a token under the blocks in `open`, `extended` if there was an `@extends`. */
  predicate FaultIn(host: Host, open: seq<Token>, extended: bool, token: Token, reason: Reason)
    requires token.At?
  {
    var directive := token.directive;
    match reason
    case WithoutOpen(name, expected) =>
      name == directive && Wanted(directive) == Some(expected) && !InBlock(open, expected)
    case NeedsArguments(name) =>
      && name == directive && NeedsArgs(directive) && !Filled(host, token.args)
      && (Wanted(directive).Some? ==> InBlock(open, Wanted(directive).value))
    case MultipleExtends => directive == AtExtends && Filled(host, token.args) && extended
    case BadEach(args) =>
      directive == AtEach && token.args == Some(args) && Filled(host, token.args) && host.syntax.each(args) == None
    case BadArguments(name, problem) =>
      && name == directive && Filled(host, token.args)
      && ReadProblem(host, directive, token.args.value) == Some(problem)
      && !(directive == AtExtends && extended)
    case UnknownDirective(name) => name == directive && directive.Unknown?
    case Unclosed(_) => false
    case ParseFailure => false
  }

  ghost predicate Faultless(host: Host, before: seq<Token>, tokens: seq<Token>) {
    forall i, reason :: 0 <= i < |tokens| ==> !Fault(host, before + tokens[..i], tokens[i], reason)
  }

  /** The stack of the pass is that of the open blocks. */
  predicate Tracks(st: Progress, before: seq<Token>) {
    (st.layout.Some? <==> HasExtends(before)) && Marks(st.stack, OpenBlocks(before))
  }

  predicate Marks(stack: seq<Frame>, open: seq<Token>) {
    && |stack| == |open|
    && forall i :: 0 <= i < |open| ==> Is(open[i], stack[i].kind) && stack[i].line == open[i].line
  }

  lemma ExtendsBy(before: seq<Token>, token: Token)
    ensures HasExtends(before + [token]) <==> HasExtends(before) || Is(token, AtExtends)
  {
    var all := before + [token];
    if i :| 0 <= i < |before| && Is(before[i], AtExtends) {
      assert Is(all[i], AtExtends);
    }
    if Is(token, AtExtends) {
      assert Is(all[|before|], AtExtends);
    }
  }

  lemma OpenBy(before: seq<Token>, token: Token)
    ensures OpenBlocks(before + [token]) == OpenAfter(OpenBlocks(before), token)
  {
    assert (before + [token])[..|before|] == before;
  }

  /** A step fails with a reason exactly if that is what is wrong with the token. */
  ghost predicate Reports(host: Host, st: Progress, open: seq<Token>, token: Token)
    requires token.At?
  {
    match Step(host, st, token)
    case Ok(_) => forall reason :: !FaultIn(host, open, st.layout.Some?, token, reason)
    case Err(error) =>
      && error.line == token.line && FaultIn(host, open, st.layout.Some?, token, error.reason)
      && forall reason :: FaultIn(host, open, st.layout.Some?, token, reason) ==> reason == error.reason
  }

  lemma OpeningReports(host: Host, st: Progress, open: seq<Token>, token: Token)
    requires token.At? && IsOpener(token.directive)
    ensures Reports(host, st, open, token)
  {
  }

  lemma MiddleReports(host: Host, st: Progress, open: seq<Token>, token: Token)
    requires Marks(st.stack, open) && token.At? && token.directive in {AtElseIf, AtElse, AtEmpty}
    ensures Reports(host, st, open, token)
  {
  }

  lemma ClosingSteps(host: Host, st: Progress, token: Token)
    requires token.At? && Ends(token.directive).Some?
    ensures var kind := Ends(token.directive).value;
      if TopIs(st.stack, kind) then Step(host, st, token).Ok?
      else Step(host, st, token) == Err(CompileError(WithoutOpen(token.directive, kind), token.line))
  {
  }

  lemma NotOpenHere(host: Host, open: seq<Token>, extended: bool, token: Token, kind: Directive, reason: Reason)
    requires token.At? && Ends(token.directive) == Some(kind)
    ensures FaultIn(host, open, extended, token, reason)
      <==> reason == WithoutOpen(token.directive, kind) && !InBlock(open, kind)
  {
  }

  lemma ClosingReports(host: Host, st: Progress, open: seq<Token>, token: Token)
    requires Marks(st.stack, open) && token.At? && Ends(token.directive).Some?
    ensures Reports(host, st, open, token)
  {
    var kind := Ends(token.directive).value;
    ClosingSteps(host, st, token);
    forall reason
      ensures FaultIn(host, open, st.layout.Some?, token, reason)
        <==> reason == WithoutOpen(token.directive, kind) && !InBlock(open, kind)
    {
      NotOpenHere(host, open, st.layout.Some?, token, kind, reason);
    }
  }

  lemma ExtendReports(host: Host, st: Progress, open: seq<Token>, token: Token)
    requires Is(token, AtExtends)
    ensures Reports(host, st, open, token)
  {
  }

  lemma LeafReports(host: Host, st: Progress, open: seq<Token>, token: Token)
    requires token.At? && !IsOpener(token.directive) && Wanted(token.directive).None? && token.directive != AtExtends
    ensures Reports(host, st, open, token)
  {
  }

  lemma StepReports(host: Host, st: Progress, open: seq<Token>, token: Token)
    requires Marks(st.stack, open) && token.At?
    ensures Reports(host, st, open, token)
  {
    if IsOpener(token.directive) {
      OpeningReports(host, st, open, token);
    } else if token.directive in {AtElseIf, AtElse, AtEmpty} {
      MiddleReports(host, st, open, token);
    } else if Ends(token.directive).Some? {
      ClosingReports(host, st, open, token);
    } else if token.directive == AtExtends {
      ExtendReports(host, st, open, token);
    } else {
      LeafReports(host, st, open, token);
    }
  }

  lemma StepMarks(host: Host, st: Progress, open: seq<Token>, token: Token)
    requires Marks(st.stack, open) && Step(host, st, token).Ok?
    ensures Marks(Step(host, st, token).value.stack, OpenAfter(open, token))
  {
  }

  lemma StepExtends(host: Host, st: Progress, token: Token)
    requires Step(host, st, token).Ok?
    ensures Step(host, st, token).value.layout.Some? <==> st.layout.Some? || Is(token, AtExtends)
  {
  }

  /** A token that is not faulty is accepted, and a faulty one stops the pass. */
  lemma TokenDecides(host: Host, st: Progress, before: seq<Token>, token: Token)
    requires Tracks(st, before)
    ensures forall reason :: Fault(host, before, token, reason) ==>
      Step(host, st, token) == Err(CompileError(reason, token.line))
    ensures (forall reason :: !Fault(host, before, token, reason)) ==>
      Step(host, st, token).Ok? && Tracks(Step(host, st, token).value, before + [token])
  {
    if token.At? {
      StepReports(host, st, OpenBlocks(before), token);
    }
    if Step(host, st, token).Ok? {
      ExtendsBy(before, token);
      OpenBy(before, token);
      StepMarks(host, st, OpenBlocks(before), token);
      StepExtends(host, st, token);
    } else {
      assert Fault(host, before, token, Step(host, st, token).error.reason);
    }
  }

  lemma Shift(before: seq<Token>, tokens: seq<Token>, i: nat)
    requires tokens != [] && i < |tokens[1..]|
    ensures before + [tokens[0]] + tokens[1..][..i] == before + tokens[..i + 1]
  {
    assert [tokens[0]] + tokens[1..][..i] == tokens[..i + 1];
    Assoc(before, [tokens[0]], tokens[1..][..i]);
  }

  lemma FaultlessTail(host: Host, before: seq<Token>, tokens: seq<Token>)
    requires tokens != [] && Faultless(host, before, tokens)
    ensures forall reason :: !Fault(host, before, tokens[0], reason)
    ensures Faultless(host, before + [tokens[0]], tokens[1..])
  {
    assert before + tokens[..0] == before;
    forall i, reason | 0 <= i < |tokens[1..]|
      ensures !Fault(host, before + [tokens[0]] + tokens[1..][..i], tokens[1..][i], reason)
    {
      Shift(before, tokens, i);
    }
  }

  lemma {:induction false} StepsTrack(host: Host, st: Progress, before: seq<Token>, tokens: seq<Token>)
    requires Tracks(st, before) && Faultless(host, before, tokens)
    ensures Steps(host, st, tokens).Ok? && Tracks(Steps(host, st, tokens).value, before + tokens)
    decreases tokens
  {
    if tokens == [] {
      assert before + tokens == before;
    } else {
      var token, rest := tokens[0], tokens[1..];
      FaultlessTail(host, before, tokens);
      TokenDecides(host, st, before, token);
      StepsTrack(host, Step(host, st, token).value, before + [token], rest);
      assert before + [token] + rest == before + tokens;
    }
  }

  lemma FaultStops(host: Host, st: Progress, before: seq<Token>, tokens: seq<Token>, reason: Reason)
    requires Tracks(st, before) && tokens != [] && Fault(host, before, tokens[0], reason)
    ensures Steps(host, st, tokens) == Err(CompileError(reason, tokens[0].line))
  {
    TokenDecides(host, st, before, tokens[0]);
  }

  lemma PrefixTracks(host: Host, tokens: seq<Token>)
    requires Faultless(host, [], tokens)
    ensures Steps(host, START, tokens).Ok? && Tracks(Steps(host, START, tokens).value, tokens)
  {
    StepsTrack(host, START, [], tokens);
    assert [] + tokens == tokens;
  }

  lemma FaultBehind(host: Host, a: seq<Token>, b: seq<Token>, reason: Reason)
    requires Steps(host, START, a).Ok? && Tracks(Steps(host, START, a).value, a)
    requires b != [] && Fault(host, a, b[0], reason)
    ensures Steps(host, START, a + b) == Err(CompileError(reason, b[0].line))
  {
    FaultStops(host, Steps(host, START, a).value, a, b, reason);
    StepsAppend(StepOf(host), host, START, a, b);
  }

  /** The first faulty token decides: its reason, with its line. */
  lemma FirstFault(host: Host, tokens: seq<Token>, k: nat, reason: Reason)
    requires k < |tokens| && Faultless(host, [], tokens[..k]) && Fault(host, tokens[..k], tokens[k], reason)
    ensures Compilation(host, tokens) == Err(CompileError(reason, tokens[k].line))
  {
    PrefixTracks(host, tokens[..k]);
    FaultBehind(host, tokens[..k], tokens[k..], reason);
    assert tokens[..k] + tokens[k..] == tokens;
  }

  /** Without a faulty token the innermost block left open is reported, with the line it was
      opened on; if none is, all that can go wrong is that the emitted code does not load. */
  lemma NoFault(host: Host, tokens: seq<Token>)
    requires Faultless(host, [], tokens)
    ensures var open, compiled := OpenBlocks(tokens), Compilation(host, tokens);
      if open != [] then
        var top := open[|open| - 1];
        top.At? && compiled == Err(CompileError(Unclosed(top.directive), top.line))
      else compiled.Err? ==> compiled == Err(CompileError(ParseFailure, 0))
  {
    PrefixTracks(host, tokens);
  }
}
