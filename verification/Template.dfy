/** Templates as trees, the tokens they are written with, and what they mean. */
module Template {
  import opened Prelude
  import opened ViewText
  import opened ViewHost

  datatype Token =
    | Text(value: string, line: nat)
    | Escaped(value: string, line: nat)
    | Raw(value: string, line: nat)
    | At(directive: Directive, args: Option<string>, line: nat)

  /** A node keeps the tokens it is written with. `Wrap` is `@for`, `@section`, `@push`,
      `@prepend` or `@component` up to its end. */
  datatype Node =
    | Leaf(token: Token)
    | IfNode(open: Token, body: Nodes, rest: IfTail)
    | EachNode(open: Token, body: Nodes, close: Token)
    | EachElse(open: Token, body: Nodes, empty: Token, otherwise: Nodes, close: Token)
    | Wrap(open: Token, body: Nodes, close: Token)

  datatype IfTail =
    | EndIf(close: Token)
    | ElseIf(token: Token, body: Nodes, rest: IfTail)
    | Else(token: Token, body: Nodes, close: Token)

  datatype Nodes = NoNodes | Cons(head: Node, tail: Nodes)

  // ----- Written form --------------------------------------------------------------------------------------

  function Tokens(nodes: Nodes): seq<Token> {
    match nodes
    case NoNodes => []
    case Cons(head, tail) => NodeTokens(head) + Tokens(tail)
  }

  function NodeTokens(node: Node): seq<Token> {
    match node
    case Leaf(token) => [token]
    case IfNode(open, body, rest) => [open] + Tokens(body) + TailTokens(rest)
    case EachNode(open, body, close) => [open] + Tokens(body) + [close]
    case EachElse(open, body, empty, otherwise, close) =>
      [open] + Tokens(body) + [empty] + Tokens(otherwise) + [close]
    case Wrap(open, body, close) => [open] + Tokens(body) + [close]
  }

  function TailTokens(tail: IfTail): seq<Token> {
    match tail
    case EndIf(close) => [close]
    case ElseIf(token, body, rest) => [token] + Tokens(body) + TailTokens(rest)
    case Else(token, body, close) => [token] + Tokens(body) + [close]
  }

  // ----- Well-formedness --------------------------------------------------------------------------------------

  predicate Is(token: Token, directive: Directive) {
    token.At? && token.directive == directive
  }

  function Args(token: Token): string
    requires token.At?
  {
    if token.args.Some? then token.args.value else ""
  }

  /** `requireArgs`. */
  predicate HasArgs(host: Host, args: Option<string>) {
    args.Some? && host.syntax.filled(args.value)
  }

  /** The literal argument of a token, if it is one. */
  function Literal(host: Host, token: Token): Option<string>
    requires token.At?
  {
    match host.syntax.literal(Args(token))
    case Ok(text) => Some(text)
    case Err(_) => None
  }

  /** A literal name and an object expression. */
  function NameAndObject(host: Host, token: Token): Option<(string, string)>
    requires token.At?
  {
    match host.syntax.named(Args(token))
    case Ok(parts) => Some(parts)
    case Err(_) => None
  }

  function Setting(host: Host, token: Token): Option<(string, string)>
    requires token.At?
  {
    match host.syntax.setting(Args(token))
    case Ok(parts) => Some(parts)
    case Err(_) => None
  }

  function Yielded(host: Host, token: Token): Option<(string, Option<string>)>
    requires token.At?
  {
    match host.syntax.yielded(Args(token))
    case Ok(parts) => Some(parts)
    case Err(_) => None
  }

  predicate LeafOk(host: Host, token: Token) {
    token.At? ==>
      match token.directive
      case AtCsrf => true
      case AtIslands => true
      case AtCss => HasArgs(host, token.args) ==> Literal(host, token).Some?
      case AtMethod => HasArgs(host, token.args)
      case AtRoute => HasArgs(host, token.args)
      case AtAsset => HasArgs(host, token.args)
      case AtEscape => HasArgs(host, token.args)
      case AtExtends => HasArgs(host, token.args) && Literal(host, token).Some?
      case AtStack => HasArgs(host, token.args) && Literal(host, token).Some?
      case AtInclude => HasArgs(host, token.args) && NameAndObject(host, token).Some?
      case AtIsland => HasArgs(host, token.args) && NameAndObject(host, token).Some?
      case AtSet => HasArgs(host, token.args) && Setting(host, token).Some?
      case AtYield => HasArgs(host, token.args) && Yielded(host, token).Some?
      case _ => false
  }

  /** `@for`, `@section`, `@push`, `@prepend` and `@component` with usable arguments. */
  predicate OpenOk(host: Host, open: Token) {
    && open.At? && HasArgs(host, open.args)
    && (match open.directive
        case AtFor => true
        case AtSection => Literal(host, open).Some?
        case AtPush => Literal(host, open).Some?
        case AtPrepend => Literal(host, open).Some?
        case AtComponent => NameAndObject(host, open).Some?
        case _ => false)
  }

  predicate WrapOk(host: Host, open: Token, close: Token) {
    OpenOk(host, open) && close.At? && Ends(close.directive) == Some(open.directive)
  }

  predicate EachOk(host: Host, open: Token) {
    Is(open, AtEach) && HasArgs(host, open.args) && host.syntax.each(open.args.value).Some?
  }

  predicate WellFormed(host: Host, nodes: Nodes) {
    match nodes
    case NoNodes => true
    case Cons(head, tail) => NodeOk(host, head) && WellFormed(host, tail)
  }

  predicate NodeOk(host: Host, node: Node) {
    match node
    case Leaf(token) => LeafOk(host, token)
    case IfNode(open, body, rest) =>
      Is(open, AtIf) && HasArgs(host, open.args) && WellFormed(host, body) && TailOk(host, rest)
    case EachNode(open, body, close) => EachOk(host, open) && WellFormed(host, body) && Is(close, AtEndEach)
    case EachElse(open, body, empty, otherwise, close) =>
      && EachOk(host, open) && WellFormed(host, body) && Is(empty, AtEmpty) && WellFormed(host, otherwise)
      && Is(close, AtEndEach)
    case Wrap(open, body, close) => WrapOk(host, open, close) && WellFormed(host, body)
  }

  predicate TailOk(host: Host, tail: IfTail) {
    match tail
    case EndIf(close) => Is(close, AtEndIf)
    case ElseIf(token, body, rest) =>
      Is(token, AtElseIf) && HasArgs(host, token.args) && WellFormed(host, body) && TailOk(host, rest)
    case Else(token, body, close) => Is(token, AtElse) && WellFormed(host, body) && Is(close, AtEndIf)
  }

  // ----- Layouts ------------------------------------------------------------------------------------------------

  /** The `@extends` targets in a token list, in order. */
  function Extended(host: Host, tokens: seq<Token>): seq<string> {
    if tokens == [] then [] else Extends(host, tokens[0]) + Extended(host, tokens[1..])
  }

  function Extends(host: Host, token: Token): seq<string> {
    if Is(token, AtExtends) && Literal(host, token).Some? then [Literal(host, token).value] else []
  }

  // ----- Meaning --------------------------------------------------------------------------------------------------

  /** The html of a leaf and the pool after it. */
  function RenderLeaf(host: Host, token: Token, env: Env, pool: Pool): Outcome<string>
    requires LeafOk(host, token)
  {
    match token
    case Text(value, _) => Done(value, pool)
    case Escaped(value, _) => Lift(Called(host, Escape, value, env), pool)
    case Raw(value, _) =>
      (match host.eval(value, env)
       case Err(error) => Threw(error, pool)
       case Ok(v) => Lift(host.rawText(v), pool))
    case At(_, _, _) => RenderDirective(host, token, env, pool)
  }

  function Called(host: Host, helper: Helper, args: string, env: Env): Result<string, string> {
    match host.evalArgs(args, env)
    case Ok(values) => host.helper(helper, values)
    case Err(error) => Err(error)
  }

  function RenderDirective(host: Host, token: Token, env: Env, pool: Pool): Outcome<string>
    requires token.At? && LeafOk(host, token)
  {
    match token.directive
    case AtExtends => Done("", pool)
    case AtCsrf => Lift(host.helper(Csrf, []), pool)
    case AtIslands => Lift(host.helper(IslandsScript, []), pool)
    case AtCss => Lift(host.helper(CssLink(if HasArgs(host, token.args) then Literal(host, token) else None), []), pool)
    case AtMethod => Lift(Called(host, Method, Args(token), env), pool)
    case AtRoute => Lift(Called(host, Route, Args(token), env), pool)
    case AtAsset => Lift(Called(host, Asset, Args(token), env), pool)
    case AtEscape => Lift(Called(host, Escape, Args(token), env), pool)
    case AtStack => Done(Concat(StackOf(pool, Literal(host, token).value)), pool)
    case AtYield =>
      var (section, fallback) := Yielded(host, token).value;
      Done(SectionOr(pool, section, fallback), pool)
    case AtSet =>
      var (section, value) := Setting(host, token).value;
      (match Called(host, Escape, value, env)
       case Err(error) => Threw(error, pool)
       case Ok(text) => Done("", SetSection(pool, section, text)))
    case AtInclude =>
      var (target, data) := NameAndObject(host, token).value;
      (match host.eval(data, env)
       case Err(error) => Threw(error, pool)
       case Ok(v) => host.renderInclude(target, v, pool))
    case AtIsland =>
      var (target, data) := NameAndObject(host, token).value;
      match host.eval(data, env)
      case Err(error) => Threw(error, pool)
      case Ok(v) => Lift(host.island(target, v), pool)
  }

  /** The html of a template under loop variables `env`, and the pool it leaves. */
  function Render(host: Host, nodes: Nodes, env: Env, pool: Pool): Outcome<string>
    requires WellFormed(host, nodes)
    decreases nodes, 0
  {
    match nodes
    case NoNodes => Done("", pool)
    case Cons(head, tail) =>
      match RenderNode(host, head, env, pool)
      case Threw(error, after) => Threw(error, after)
      case Done(html, after) =>
        match Render(host, tail, env, after)
        case Threw(error, after1) => Threw(error, after1)
        case Done(more, after1) => Done(html + more, after1)
  }

  function RenderNode(host: Host, node: Node, env: Env, pool: Pool): Outcome<string>
    requires NodeOk(host, node)
    decreases node, 0
  {
    match node
    case Leaf(token) => RenderLeaf(host, token, env, pool)
    case IfNode(open, body, rest) =>
      (match host.eval(open.args.value, env)
       case Err(error) => Threw(error, pool)
       case Ok(v) => if host.truthy(v) then Render(host, body, env, pool) else RenderTail(host, rest, env, pool))
    case EachNode(open, body, _) =>
      var (item, coll) := host.syntax.each(open.args.value).value;
      (match host.eval(coll, env)
       case Err(error) => Threw(error, pool)
       case Ok(v) => if host.elements(v) == [] then Done("", pool)
         else RenderEach(host, body, item, host.again(v), env, pool))
    case EachElse(open, body, _, otherwise, _) =>
      var (item, coll) := host.syntax.each(open.args.value).value;
      (match host.eval(coll, env)
       case Err(error) => Threw(error, pool)
       case Ok(v) =>
         if host.elements(v) == [] then Render(host, otherwise, env, pool)
         else RenderEach(host, body, item, host.again(v), env, pool))
    case Wrap(open, body, _) =>
      if open.directive == AtFor then
        match host.bindings(open.args.value, env)
        case Err(error) => Threw(error, pool)
        case Ok(turns) => RenderTurns(host, body, turns, env, pool)
      else
        match Render(host, body, env, pool)
        case Threw(error, after) => Threw(error, after)
        case Done(html, after) => Captured(host, open, html, env, after)
  }

  function RenderTail(host: Host, tail: IfTail, env: Env, pool: Pool): Outcome<string>
    requires TailOk(host, tail)
    decreases tail, 0
  {
    match tail
    case EndIf(_) => Done("", pool)
    case Else(_, body, _) => Render(host, body, env, pool)
    case ElseIf(token, body, rest) =>
      match host.eval(token.args.value, env)
      case Err(error) => Threw(error, pool)
      case Ok(v) => if host.truthy(v) then Render(host, body, env, pool) else RenderTail(host, rest, env, pool)
  }

  /** The body once for each binding, in order. */
  function RenderTurns(host: Host, body: Nodes, turns: seq<Env>, env: Env, pool: Pool): Outcome<string>
    requires WellFormed(host, body)
    decreases body, 1 + |turns|
  {
    if turns == [] then Done("", pool)
    else
      match Render(host, body, env + turns[0], pool)
      case Threw(error, after) => Threw(error, after)
      case Done(html, after) =>
        match RenderTurns(host, body, turns[1..], env, after)
        case Threw(error, after1) => Threw(error, after1)
        case Done(more, after1) => Done(html + more, after1)
  }

  /** The body once for each value, in order. */
  function RenderEach(host: Host, body: Nodes, item: string, values: seq<JsValue>, env: Env, pool: Pool)
    : Outcome<string>
    requires WellFormed(host, body)
    decreases body, 1 + |values|
  {
    if values == [] then Done("", pool)
    else
      match Render(host, body, env[item := values[0]], pool)
      case Threw(error, after) => Threw(error, after)
      case Done(html, after) =>
        match RenderEach(host, body, item, values[1..], env, after)
        case Threw(error, after1) => Threw(error, after1)
        case Done(more, after1) => Done(html + more, after1)
  }

  /** What becomes of a captured body: a section or stack entry, or a component's slot. */
  function Captured(host: Host, open: Token, html: string, env: Env, pool: Pool): Outcome<string>
    requires OpenOk(host, open) && open.directive != AtFor
  {
    match open.directive
    case AtSection => Done("", SetSection(pool, Literal(host, open).value, html))
    case AtPush => Done("", PushBody(pool, Literal(host, open).value, html))
    case AtPrepend => Done("", PrependBody(pool, Literal(host, open).value, html))
    case AtComponent =>
      var (name, props) := NameAndObject(host, open).value;
      match host.eval(props, env)
      case Err(error) => Threw(error, pool)
      case Ok(v) => host.renderComponent(name, v, html, pool)
  }
}
