/** The template compiler: one pass over the tokens with a stack of open blocks. */
module Compiler {
  import opened Prelude
  import opened ViewText
  import opened ViewHost
  import opened Template
  import opened EmittedJs

  /** An open block: its directive, where it was opened, and what its end needs. */
  datatype Frame = Frame(kind: Directive, line: nat, name: string, props: string, hasEmpty: bool)

  /** What has been emitted, the layout seen so far, and the open blocks, innermost last. */
  datatype Progress = Progress(js: seq<Js>, layout: Option<string>, stack: seq<Frame>)

  const START := Progress([], None, [])

  function Reject(reason: Reason, token: Token): Result<Progress, CompileError> {
    Err(CompileError(reason, token.line))
  }

  function Emit(st: Progress, js: seq<Js>): Progress {
    st.(js := st.js + js)
  }

  // ----- Leaves ----------------------------------------------------------------------------------------------

  function TextLine(token: Token): seq<Js>
    requires !token.At?
  {
    match token
    case Text(value, _) => if value == "" then [] else [Append(TextOf(value))]
    case Escaped(value, _) => [Append(EscapeCall(value))]
    case Raw(value, _) => [Append(RawExpr(value))]
  }

  /** Directives that stand alone and need arguments. */
  predicate TakesArgs(directive: Directive) {
    directive in {AtSet, AtYield, AtInclude, AtStack, AtMethod, AtRoute, AtAsset, AtEscape, AtIsland}
  }

  function Bad(token: Token, problem: Problem): CompileError
    requires token.At?
  {
    CompileError(BadArguments(token.directive, problem), token.line)
  }

  /** The line of a directive that opens and closes nothing. */
  function LeafLine(host: Host, token: Token): Result<seq<Js>, CompileError>
    requires token.At?
  {
    if token.directive == AtCsrf then Ok([Append(HelperCall(Csrf, None))])
    else if token.directive == AtIslands then Ok([Append(HelperCall(IslandsScript, None))])
    else if token.directive == AtCss then
      if !HasArgs(host, token.args) then Ok([Append(HelperCall(CssLink(None), None))])
      else
        (match host.syntax.literal(Args(token))
         case Err(problem) => Err(Bad(token, problem))
         case Ok(entry) => Ok([Append(HelperCall(CssLink(Some(entry)), None))]))
    else if !TakesArgs(token.directive) then Err(CompileError(UnknownDirective(token.directive), token.line))
    else if !HasArgs(host, token.args) then Err(CompileError(NeedsArguments(token.directive), token.line))
    else ArgsLine(host, token)
  }

  function ArgsLine(host: Host, token: Token): Result<seq<Js>, CompileError>
    requires token.At? && TakesArgs(token.directive)
  {
    var args := Args(token);
    match token.directive
    case AtMethod => Ok([Append(HelperCall(Method, Some(args)))])
    case AtRoute => Ok([Append(HelperCall(Route, Some(args)))])
    case AtAsset => Ok([Append(HelperCall(Asset, Some(args)))])
    case AtEscape => Ok([Append(EscapeCall(args))])
    case AtStack =>
      (match host.syntax.literal(args)
       case Err(problem) => Err(Bad(token, problem))
       case Ok(stack) => Ok([Append(StackCall(stack))]))
    case AtSet =>
      (match host.syntax.setting(args)
       case Err(problem) => Err(Bad(token, problem))
       case Ok((section, value)) => Ok([CallSet(section, value)]))
    case AtYield =>
      (match host.syntax.yielded(args)
       case Err(problem) => Err(Bad(token, problem))
       case Ok((section, fallback)) => Ok([Append(YieldCall(section, fallback))]))
    case AtInclude =>
      (match host.syntax.named(args)
       case Err(problem) => Err(Bad(token, problem))
       case Ok((target, data)) => Ok([Append(IncludeCall(target, data))]))
    case AtIsland =>
      (match host.syntax.named(args)
       case Err(problem) => Err(Bad(token, problem))
       case Ok((target, data)) => Ok([Append(IslandCall(target, data))]))
  }

  // ----- Blocks ------------------------------------------------------------------------------------------------

  /** The frame an opening directive pushes. */
  function OpenFrame(host: Host, token: Token): (r: Result<Frame, CompileError>)
    requires token.At? && IsOpener(token.directive)
    ensures r.Ok? ==> r.value.kind == token.directive && !r.value.hasEmpty
  {
    var kind, line, args := token.directive, token.line, Args(token);
    if !HasArgs(host, token.args) then Err(CompileError(NeedsArguments(token.directive), line))
    else
      match kind
      case AtIf => Ok(Frame(kind, line, "", "", false))
      case AtFor => Ok(Frame(kind, line, "", "", false))
      case AtEach =>
        if host.syntax.each(args) == None then Err(CompileError(BadEach(args), line))
          else Ok(Frame(kind, line, "", "", false))
      case AtSection => NamedFrame(token, host.syntax.literal(args))
      case AtPush => NamedFrame(token, host.syntax.literal(args))
      case AtPrepend => NamedFrame(token, host.syntax.literal(args))
      case AtComponent =>
        match host.syntax.named(args)
        case Err(problem) => Err(Bad(token, problem))
        case Ok((target, props)) => Ok(Frame(kind, line, target, props, false))
  }

  function NamedFrame(token: Token, name: Result<string, Problem>): Result<Frame, CompileError>
    requires token.At?
  {
    match name
    case Err(problem) => Err(Bad(token, problem))
    case Ok(target) => Ok(Frame(token.directive, token.line, target, "", false))
  }

  function EachLines(depth: nat, item: string, coll: string): seq<Js> {
    [OpenBlock, ConstEach(depth, coll), OpenIf(EachHasItems(depth)), OpenFor(EachOf(item, depth))]
  }

  /** The lines that open a block under `depth` others. */
  function OpenLines(host: Host, token: Token, depth: nat): seq<Js>
    requires token.At? && (token.directive == AtEach ==> host.syntax.each(Args(token)).Some?)
  {
    match token.directive
    case AtIf => [OpenIf(When(Args(token)))]
    case AtFor => [OpenFor(ForOf(Args(token)))]
    case AtEach => EachLines(depth, host.syntax.each(Args(token)).value.0, host.syntax.each(Args(token)).value.1)
    case _ => [OpenBlock, ConstOuter, ClearOut]
  }

  /** The lines that close a block. */
  function CloseLines(frame: Frame): seq<Js> {
    match frame.kind
    case AtEach => if frame.hasEmpty then [Close, Close] else [Close, Close, Close]
    case AtComponent => [ConstSlot, RestoreOut, Append(ComponentCall(frame.name, frame.props)), Close]
    case AtSection => [CallSection(frame.name), RestoreOut, Close]
    case AtPush => [CallPush(frame.name), RestoreOut, Close]
    case AtPrepend => [CallPrepend(frame.name), RestoreOut, Close]
    case _ => [Close]
  }

  predicate TopIs(stack: seq<Frame>, kind: Directive) {
    stack != [] && stack[|stack| - 1].kind == kind
  }

  /** `@elseif`, `@else` and `@empty`: only the kind of the innermost block is looked at. */
  function Middle(host: Host, st: Progress, token: Token): Result<Progress, CompileError>
    requires token.At?
  {
    var kind := if token.directive == AtEmpty then AtEach else AtIf;
    if !TopIs(st.stack, kind) then Reject(WithoutOpen(token.directive, kind), token)
    else if token.directive == AtElse then Ok(Emit(st, [Close, OpenElse]))
    else if token.directive == AtEmpty then
      var top := |st.stack| - 1;
      Ok(Emit(st, [Close, Close, OpenElse]).(stack := st.stack[top := st.stack[top].(hasEmpty := true)]))
    else if !HasArgs(host, token.args) then Reject(NeedsArguments(token.directive), token)
    else Ok(Emit(st, [Close, OpenElseIf(When(token.args.value))]))
  }

  function Extend(host: Host, st: Progress, token: Token): Result<Progress, CompileError>
    requires token.At?
  {
    if !HasArgs(host, token.args) then Reject(NeedsArguments(token.directive), token)
    else if st.layout.Some? then Reject(MultipleExtends, token)
    else
      match host.syntax.literal(token.args.value)
      case Err(problem) => Err(Bad(token, problem))
      case Ok(target) => Ok(st.(layout := Some(target)))
  }

  function Opening(host: Host, st: Progress, token: Token): Result<Progress, CompileError>
    requires token.At? && IsOpener(token.directive)
  {
    match OpenFrame(host, token)
    case Err(error) => Err(error)
    case Ok(frame) => Ok(Emit(st, OpenLines(host, token, |st.stack|)).(stack := st.stack + [frame]))
  }

  function Closing(st: Progress, token: Token, kind: Directive): Result<Progress, CompileError>
    requires token.At?
  {
    if !TopIs(st.stack, kind) then Reject(WithoutOpen(token.directive, kind), token)
    else
      var top := |st.stack| - 1;
      Ok(Emit(st, CloseLines(st.stack[top])).(stack := st.stack[..top]))
  }

  function Single(host: Host, st: Progress, token: Token): Result<Progress, CompileError> {
    if !token.At? then Ok(Emit(st, TextLine(token)))
    else if token.directive == AtExtends then Extend(host, st, token)
    else
      match LeafLine(host, token)
      case Err(error) => Err(error)
      case Ok(js) => Ok(Emit(st, js))
  }

  /** One token. */
  function Step(host: Host, st: Progress, token: Token): Result<Progress, CompileError> {
    if !token.At? then Single(host, st, token)
    else if IsOpener(token.directive) then Opening(host, st, token)
    else if token.directive in {AtElseIf, AtElse, AtEmpty} then Middle(host, st, token)
    else if Ends(token.directive).Some? then Closing(st, token, Ends(token.directive).value)
    else Single(host, st, token)
  }

  /** What one token does to the pass. */
  type Stepper = (Progress, Token) -> Result<Progress, CompileError>

  function StepsBy(step: Stepper, st: Progress, tokens: seq<Token>): Result<Progress, CompileError>
    decreases tokens
  {
    if tokens == [] then Ok(st)
    else
      match step(st, tokens[0])
      case Err(error) => Err(error)
      case Ok(next) => StepsBy(step, next, tokens[1..])
  }

  function StepOf(host: Host): Stepper {
    (st: Progress, token: Token) => Step(host, st, token)
  }

  /** The tokens one after the other. */
  function Steps(host: Host, st: Progress, tokens: seq<Token>): Result<Progress, CompileError> {
    StepsBy(StepOf(host), st, tokens)
  }

  datatype Compiled = Compiled(layout: Option<string>, code: Code)

  /** The result of the whole pass: every block closed, and the emitted lines load. */
  function Finish(st: Progress): Result<Compiled, CompileError> {
    if st.stack != [] then
      var top := st.stack[|st.stack| - 1];
      Err(CompileError(Unclosed(top.kind), top.line))
    else
      match Parse(st.js)
      case None => Err(CompileError(ParseFailure, 0))
      case Some(code) => Ok(Compiled(st.layout, code))
  }

  function Compilation(host: Host, tokens: seq<Token>): Result<Compiled, CompileError> {
    match Steps(host, START, tokens)
    case Err(error) => Err(error)
    case Ok(st) => Finish(st)
  }

  // ----- The pass as it is written ---------------------------------------------------------------------------------

  function Flatten(lines: seq<seq<Js>>): seq<Js> {
    if lines == [] then [] else Flatten(lines[..|lines| - 1]) + lines[|lines| - 1]
  }

  lemma FourJoin(a: Js, b: Js, c: Js, d: Js)
    ensures [a, b] + [c] + [d] == [a, b, c, d]
  {
  }

  class Emitter {
    var lines: seq<seq<Js>>

    constructor ()
      ensures lines == [] && Body() == []
    {
      lines := [];
    }

    function Body(): seq<Js>
      reads this
    {
      Flatten(lines)
    }

    method Line(js: seq<Js>)
      modifies this
      ensures lines == old(lines) + [js] && Body() == old(Body()) + js
    {
      lines := lines + [js];
    }

    method OpeningLines(host: Host, token: Token, depth: nat)
      requires token.At? && (token.directive == AtEach ==> host.syntax.each(Args(token)).Some?)
      modifies this
      ensures Body() == old(Body()) + OpenLines(host, token, depth)
    {
      if token.directive == AtEach {
        var (item, coll) := host.syntax.each(Args(token)).value;
        OpenEach(depth, item, coll);
      } else {
        Line(OpenLines(host, token, depth));
      }
    }

    method OpenEach(depth: nat, item: string, coll: string)
      modifies this
      ensures Body() == old(Body()) + EachLines(depth, item, coll)
    {
      Three([OpenBlock, ConstEach(depth, coll)], [OpenIf(EachHasItems(depth))], [OpenFor(EachOf(item, depth))]);
      FourJoin(OpenBlock, ConstEach(depth, coll), OpenIf(EachHasItems(depth)), OpenFor(EachOf(item, depth)));
    }

    /** Up to three lines in a row; an empty one is not emitted. */
    method Three(a: seq<Js>, b: seq<Js>, c: seq<Js>)
      modifies this
      ensures Body() == old(Body()) + (a + b + c)
    {
      ghost var before := Body();
      if a != [] {
        Line(a);
      }
      assert Body() == before + a;
      Line(b);
      Line(c);
      Assoc(before, a, b);
      Assoc(before, a + b, c);
    }
  }

  class Pass {
    const host: Host
    const out: Emitter
    var layout: Option<string>
    var stack: seq<Frame>

    constructor (host: Host)
      ensures this.host == host && fresh(out) && AsProgress() == START
    {
      this.host := host;
      layout, stack := None, [];
      out := new Emitter();
    }

    function AsProgress(): Progress
      reads this, out
    {
      Progress(out.Body(), layout, stack)
    }

    /** The pass is where a step function says, or stopped with its error. */
    predicate Did(step: Result<Progress, CompileError>, error: Option<CompileError>)
      reads this, out
    {
      match step
      case Ok(next) => error == None && AsProgress() == next
      case Err(e) => error == Some(e)
    }

    method Fail(reason: Reason, token: Token) returns (error: Option<CompileError>)
      ensures error == Some(CompileError(reason, token.line))
    {
      return Some(CompileError(reason, token.line));
    }

    method Open(token: Token) returns (error: Option<CompileError>)
      requires token.At? && IsOpener(token.directive)
      modifies this, out
      ensures Did(Opening(host, old(AsProgress()), token), error)
    {
      var frame := OpenFrame(host, token);
      if frame.Err? {
        return Some(frame.error);
      }
      out.OpeningLines(host, token, |stack|);
      stack := stack + [frame.value];
      return None;
    }

    method Shut(token: Token, kind: Directive) returns (error: Option<CompileError>)
      requires token.At?
      modifies this, out
      ensures Did(Closing(old(AsProgress()), token, kind), error)
    {
      if !TopIs(stack, kind) {
        error := Fail(WithoutOpen(token.directive, kind), token);
        return;
      }
      var frame := stack[|stack| - 1];
      if frame.kind == AtEach {
        if frame.hasEmpty {
          out.Three([], [Close], [Close]);
        } else {
          out.Three([Close], [Close], [Close]);
        }
      } else {
        out.Line(CloseLines(frame));
      }
      stack := stack[..|stack| - 1];
      return None;
    }

    method Between(token: Token) returns (error: Option<CompileError>)
      requires token.At? && token.directive in {AtElseIf, AtElse, AtEmpty}
      modifies this, out
      ensures Did(Middle(host, old(AsProgress()), token), error)
    {
      var kind := if token.directive == AtEmpty then AtEach else AtIf;
      if !TopIs(stack, kind) {
        error := Fail(WithoutOpen(token.directive, kind), token);
        return;
      }
      if token.directive == AtElseIf {
        if !HasArgs(host, token.args) {
          error := Fail(NeedsArguments(token.directive), token);
          return;
        }
        out.Line([Close, OpenElseIf(When(token.args.value))]);
      } else if token.directive == AtElse {
        out.Line([Close, OpenElse]);
      } else {
        out.Three([], [Close], [Close, OpenElse]);
        stack := stack[|stack| - 1 := stack[|stack| - 1].(hasEmpty := true)];
      }
      return None;
    }

    method Leaf(token: Token) returns (error: Option<CompileError>)
      modifies this, out
      ensures Did(Single(host, old(AsProgress()), token), error)
    {
      if !token.At? {
        if !token.Text? || token.value != "" {
          out.Line(TextLine(token));
        }
        assert AsProgress().js == old(AsProgress()).js + TextLine(token);
        return None;
      }
      if token.directive == AtExtends {
        if !HasArgs(host, token.args) {
          error := Fail(NeedsArguments(token.directive), token);
          return;
        }
        if layout.Some? {
          error := Fail(MultipleExtends, token);
          return;
        }
        var target := host.syntax.literal(token.args.value);
        if target.Err? {
          return Some(Bad(token, target.error));
        }
        layout := Some(target.value);
        return None;
      }
      var leaf := LeafLine(host, token);
      if leaf.Err? {
        return Some(leaf.error);
      }
      out.Line(leaf.value);
      return None;
    }

    method Take(token: Token) returns (error: Option<CompileError>)
      modifies this, out
      ensures Did(Step(host, old(AsProgress()), token), error)
    {
      if token.At? && IsOpener(token.directive) {
        error := Open(token);
      } else if token.At? && token.directive in {AtElseIf, AtElse, AtEmpty} {
        error := Between(token);
      } else if token.At? && Ends(token.directive).Some? {
        error := Shut(token, Ends(token.directive).value);
      } else {
        error := Leaf(token);
      }
    }

    /** Compiles a token list from a new pass on. */
    method Compile(tokens: seq<Token>) returns (result: Result<Compiled, CompileError>)
      requires AsProgress() == START
      modifies this, out
      ensures result == Compilation(host, tokens)
    {
      var i := 0;
      while i < |tokens|
        invariant 0 <= i <= |tokens|
        invariant Steps(host, START, tokens) == Steps(host, AsProgress(), tokens[i..])
      {
        var token := tokens[i];
        var error := Take(token);
        assert tokens[i..][0] == token && tokens[i..][1..] == tokens[i + 1..];
        if error.Some? {
          return Err(error.value);
        }
        i := i + 1;
      }
      if stack != [] {
        var top := stack[|stack| - 1];
        return Err(CompileError(Unclosed(top.kind), top.line));
      }
      var code := Parse(out.Body());
      return if code.Some? then Ok(Compiled(layout, code.value)) else Err(CompileError(ParseFailure, 0));
    }
  }
}
