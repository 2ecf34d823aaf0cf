/** The JavaScript a compiled template consists of: its statements line by line, how the engine
    that loads it groups them into blocks, and what running them does. */
module EmittedJs {
  import opened Prelude
  import opened ViewText
  import opened ViewHost

  // ----- Emitted statements ------------------------------------------------------------------------------

  datatype Test = When(expr: string) | EachHasItems(depth: nat)

  datatype Header = ForOf(args: string) | EachOf(item: string, depth: nat)

  /** The right-hand side of a `__out += ...` line. */
  datatype Piece =
    | TextOf(text: string)
    | EscapeCall(args: string)
    | RawExpr(expr: string)
    | YieldCall(name: string, fallback: Option<string>)
    | IncludeCall(name: string, data: string)
    | StackCall(name: string)
    | HelperCall(helper: Helper, given: Option<string>)
    | IslandCall(name: string, props: string)
    | ComponentCall(name: string, props: string)

  /** A statement, or an opening or closing half of a compound one. `} else {` is `Close, OpenElse`. */
  datatype Js =
    | OpenBlock
    | OpenIf(test: Test)
    | OpenElseIf(test: Test)
    | OpenElse
    | OpenFor(header: Header)
    | Close
    | ConstEach(depth: nat, coll: string)
    | ConstOuter
    | ConstSlot
    | ClearOut
    | RestoreOut
    | Append(piece: Piece)
    | CallSection(name: string)
    | CallPush(name: string)
    | CallPrepend(name: string)
    | CallSet(name: string, value: string)

  predicate Opens(js: Js) {
    js.OpenBlock? || js.OpenIf? || js.OpenElseIf? || js.OpenElse? || js.OpenFor?
  }

  predicate Plain(js: Js) {
    !Opens(js) && !js.Close?
  }

  // ----- Grouping into blocks ------------------------------------------------------------------------------

  datatype Stmt =
    | Simple(js: Js)
    | Block(body: Code)
    | If(test: Test, body: Code, otherwise: Code)
    | For(header: Header, body: Code)

  datatype Code = Skip | Seq(head: Stmt, tail: Code)

  /** As many statements as there are before a closing brace or the end. */
  function ParseCode(js: seq<Js>): (r: Option<(Code, seq<Js>)>)
    ensures r.Some? ==> (|r.value.1| <= |js| && (r.value.1 == [] || r.value.1[0].Close?))
    decreases |js|, 1
  {
    if js == [] || js[0].Close? then Some((Skip, js))
    else
      match ParseStmt(js)
      case None => None
      case Some((stmt, rest)) =>
        match ParseCode(rest)
        case None => None
        case Some((code, rest1)) => Some((Seq(stmt, code), rest1))
  }

  function ParseStmt(js: seq<Js>): (r: Option<(Stmt, seq<Js>)>)
    requires js != []
    ensures r.Some? ==> |r.value.1| < |js|
    decreases |js|, 0
  {
    if Plain(js[0]) then Some((Simple(js[0]), js[1..]))
    else
      match js[0]
      case OpenBlock =>
        (match ParseBody(js[1..])
         case None => None
         case Some((body, rest)) => Some((Block(body), rest)))
      case OpenFor(header) =>
        (match ParseBody(js[1..])
         case None => None
         case Some((body, rest)) => Some((For(header, body), rest)))
      case OpenIf(test) => ParseIf(test, js[1..])
      case _ => None
  }

  /** Statements and their closing brace. */
  function ParseBody(js: seq<Js>): (r: Option<(Code, seq<Js>)>)
    ensures r.Some? ==> |r.value.1| < |js|
    decreases |js|, 2
  {
    match ParseCode(js)
    case None => None
    case Some((body, rest)) => if rest == [] then None else Some((body, rest[1..]))
  }

  /** What follows `if (...) {`: the body and at most one `else`, last in the chain. */
  function ParseIf(test: Test, js: seq<Js>): (r: Option<(Stmt, seq<Js>)>)
    ensures r.Some? ==> |r.value.1| < |js|
    decreases |js|, 3
  {
    match ParseBody(js)
    case None => None
    case Some((body, rest)) =>
      if rest != [] && rest[0].OpenElseIf? then
        match ParseIf(rest[0].test, rest[1..])
        case None => None
        case Some((stmt, rest1)) => Some((If(test, body, Seq(stmt, Skip)), rest1))
      else if rest != [] && rest[0].OpenElse? then
        match ParseBody(rest[1..])
        case None => None
        case Some((otherwise, rest1)) => Some((If(test, body, otherwise), rest1))
      else Some((If(test, body, Skip), rest))
  }

  /** Loading the emitted lines as a function body: `None` is a syntax error. */
  function Parse(js: seq<Js>): Option<Code> {
    match ParseCode(js)
    case None => None
    case Some((code, rest)) => if rest == [] then Some(code) else None
  }

  // ----- Running ----------------------------------------------------------------------------------------------

  /** The names in scope: loop variables, and the compiler's own block-scoped constants. */
  datatype Scope = Scope(env: Env, outer: Option<string>, slot: Option<string>, each: map<nat, JsValue>)

  const TOP_SCOPE := Scope(map[], None, None, map[])

  function ArgsThen(host: Host, helper: Helper, args: string, env: Env): Result<string, string> {
    match host.evalArgs(args, env)
    case Err(error) => Err(error)
    case Ok(values) => host.helper(helper, values)
  }

  function PieceText(host: Host, piece: Piece, scope: Scope, pool: Pool): Outcome<string> {
    match piece
    case TextOf(text) => Done(text, pool)
    case EscapeCall(args) => Lift(ArgsThen(host, Escape, args, scope.env), pool)
    case RawExpr(expr) =>
      (match host.eval(expr, scope.env)
       case Err(error) => Threw(error, pool)
       case Ok(v) => Lift(host.rawText(v), pool))
    case YieldCall(name, fallback) => Done(SectionOr(pool, name, fallback), pool)
    case IncludeCall(name, data) =>
      (match host.eval(data, scope.env)
       case Err(error) => Threw(error, pool)
       case Ok(v) => host.renderInclude(name, v, pool))
    case StackCall(name) => Done(Concat(StackOf(pool, name)), pool)
    case HelperCall(helper, given) =>
      Lift(if given.Some? then ArgsThen(host, helper, given.value, scope.env) else host.helper(helper, []), pool)
    case IslandCall(name, props) =>
      (match host.eval(props, scope.env)
       case Err(error) => Threw(error, pool)
       case Ok(v) => Lift(host.island(name, v), pool))
    case ComponentCall(name, props) =>
      match host.eval(props, scope.env)
      case Err(error) => Threw(error, pool)
      case Ok(v) =>
        if scope.slot.None? then Threw("__slot is not defined", pool)
        else host.renderComponent(name, v, scope.slot.value, pool)
  }

  /** One simple statement: the scope and the output buffer after it. */
  function RunSimple(host: Host, js: Js, scope: Scope, out: string, pool: Pool): Outcome<(Scope, string)>
    requires Plain(js)
  {
    match js
    case ConstEach(depth, coll) =>
      (match host.eval(coll, scope.env)
       case Err(error) => Threw(error, pool)
       case Ok(v) => Done((scope.(each := scope.each[depth := v]), out), pool))
    case ConstOuter => Done((scope.(outer := Some(out)), out), pool)
    case ConstSlot => Done((scope.(slot := Some(out)), out), pool)
    case ClearOut => Done((scope, ""), pool)
    case RestoreOut =>
      if scope.outer.None? then Threw("__outer is not defined", pool) else Done((scope, scope.outer.value), pool)
    case Append(piece) =>
      (match PieceText(host, piece, scope, pool)
       case Threw(error, after) => Threw(error, after)
       case Done(text, after) => Done((scope, out + text), after))
    case CallSection(name) => Done((scope, out), SetSection(pool, name, out))
    case CallPush(name) => Done((scope, out), PushBody(pool, name, out))
    case CallPrepend(name) => Done((scope, out), PrependBody(pool, name, out))
    case CallSet(name, value) =>
      match ArgsThen(host, Escape, value, scope.env)
      case Err(error) => Threw(error, pool)
      case Ok(text) => Done((scope, out), SetSection(pool, name, text))
  }

  function TestHolds(host: Host, test: Test, scope: Scope): Result<bool, string> {
    match test
    case When(expr) =>
      (match host.eval(expr, scope.env)
       case Err(error) => Err(error)
       case Ok(v) => Ok(host.truthy(v)))
    case EachHasItems(depth) =>
      if depth in scope.each then Ok(host.elements(scope.each[depth]) != []) else Err("__each is not defined")
  }

  function ItemBindings(item: string, values: seq<JsValue>): seq<Env> {
    seq(|values|, i requires 0 <= i < |values| => map[item := values[i]])
  }

  /** What each turn of a loop binds. */
  function Turns(host: Host, header: Header, scope: Scope): Result<seq<Env>, string> {
    match header
    case ForOf(args) => host.bindings(args, scope.env)
    case EachOf(item, depth) =>
      if depth in scope.each then Ok(ItemBindings(item, host.again(scope.each[depth])))
      else Err("__each is not defined")
  }

  /** A statement list. What it declares is gone after it. */
  function RunCode(host: Host, code: Code, scope: Scope, out: string, pool: Pool): Outcome<string>
    decreases code, 0
  {
    match code
    case Skip => Done(out, pool)
    case Seq(Simple(js), tail) =>
      if !Plain(js) then Threw("syntax error", pool)
      else
        (match RunSimple(host, js, scope, out, pool)
         case Threw(error, after) => Threw(error, after)
         case Done((scope1, out1), after) => RunCode(host, tail, scope1, out1, after))
    case Seq(stmt, tail) =>
      match RunStmt(host, stmt, scope, out, pool)
      case Threw(error, after) => Threw(error, after)
      case Done(out1, after) => RunCode(host, tail, scope, out1, after)
  }

  function RunStmt(host: Host, stmt: Stmt, scope: Scope, out: string, pool: Pool): Outcome<string>
    requires !stmt.Simple?
    decreases stmt, 0
  {
    match stmt
    case Block(body) => RunCode(host, body, scope, out, pool)
    case If(test, body, otherwise) =>
      (match TestHolds(host, test, scope)
       case Err(error) => Threw(error, pool)
       case Ok(holds) => RunCode(host, if holds then body else otherwise, scope, out, pool))
    case For(header, body) =>
      (match Turns(host, header, scope)
       case Err(error) => Threw(error, pool)
       case Ok(turns) => RunLoop(host, body, turns, scope, out, pool))
  }

  function RunLoop(host: Host, body: Code, turns: seq<Env>, scope: Scope, out: string, pool: Pool): Outcome<string>
    decreases body, 1 + |turns|
  {
    if turns == [] then Done(out, pool)
    else
      match RunCode(host, body, scope.(env := scope.env + turns[0]), out, pool)
      case Threw(error, after) => Threw(error, after)
      case Done(out1, after) => RunLoop(host, body, turns[1..], scope, out1, after)
  }
}
