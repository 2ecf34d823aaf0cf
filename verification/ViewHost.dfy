/** What a compiled template works on: values, the section and stack pool, and the host. */
module ViewHost {
  import opened Prelude
  import opened ViewText

  /** A JavaScript value, known only through the host's functions. */
  datatype JsValue = JsValue(handle: nat)

  /** The names an expression can see besides the template data: loop variables. */
  type Env = map<string, JsValue>

  /** The pool one render shares with its includes, components and layouts. */
  datatype Pool = Pool(sections: map<string, string>, stacks: map<string, seq<string>>)

  datatype Helper = Escape | Csrf | Method | Route | Asset | IslandsScript | CssLink(entry: Option<string>)

  /** Evaluation ended with a value, or threw; either way this is the pool it left. */
  datatype Outcome<+T> = Done(value: T, pool: Pool) | Threw(error: string, pool: Pool)

  /** `syntax` is the reading of directive arguments. Template expressions are opaque pure
      functions of the data and the loop variables. `elements` is what `Array.from` takes from a
      value, nothing if it is falsy or not iterable; `again` is what a later `for ... of` over the
      same value visits, which for a one-shot iterator is nothing. Rendering another template is
      a function of its name, its data and the pool. */
  datatype Host = Host(
    syntax: Syntax,
    eval: (string, Env) -> Result<JsValue, string>,
    evalArgs: (string, Env) -> Result<seq<JsValue>, string>,
    truthy: JsValue -> bool,
    bindings: (string, Env) -> Result<seq<Env>, string>,
    elements: JsValue -> seq<JsValue>,
    again: JsValue -> seq<JsValue>,
    rawText: JsValue -> Result<string, string>,
    helper: (Helper, seq<JsValue>) -> Result<string, string>,
    island: (string, JsValue) -> Result<string, string>,
    renderInclude: (string, JsValue, Pool) -> Outcome<string>,
    renderComponent: (string, JsValue, string, Pool) -> Outcome<string>)

  function Lift<T>(r: Result<T, string>, pool: Pool): Outcome<T> {
    match r
    case Ok(value) => Done(value, pool)
    case Err(error) => Threw(error, pool)
  }

  // ----- The pool operations -----------------------------------------------------------------------------

  function SetSection(pool: Pool, name: string, body: string): Pool {
    pool.(sections := pool.sections[name := body])
  }

  function SectionOr(pool: Pool, name: string, fallback: Option<string>): string {
    if name in pool.sections then pool.sections[name]
    else match fallback case Some(text) => text case None => ""
  }

  function StackOf(pool: Pool, name: string): seq<string> {
    if name in pool.stacks then pool.stacks[name] else []
  }

  function PushBody(pool: Pool, name: string, body: string): Pool {
    pool.(stacks := pool.stacks[name := StackOf(pool, name) + [body]])
  }

  function PrependBody(pool: Pool, name: string, body: string): Pool {
    pool.(stacks := pool.stacks[name := [body] + StackOf(pool, name)])
  }

  function Concat(parts: seq<string>): string {
    if parts == [] then "" else Concat(parts[..|parts| - 1]) + parts[|parts| - 1]
  }

  /** The closures of one render context over its shared tables. */
  class RenderContext {
    var sections: map<string, string>
    var stacks: map<string, seq<string>>

    constructor (sections: map<string, string>, stacks: map<string, seq<string>>)
      ensures AsPool() == Pool(sections, stacks)
    {
      this.sections, this.stacks := sections, stacks;
    }

    function AsPool(): Pool
      reads this
    {
      Pool(sections, stacks)
    }

    method Section(name: string, body: string)
      modifies this`sections
      ensures AsPool() == SetSection(old(AsPool()), name, body)
    {
      sections := sections[name := body];
    }

    /** `@set`: the escaped text becomes the section. A throwing escape leaves the tables alone. */
    method SetValue(host: Host, name: string, value: seq<JsValue>) returns (threw: Option<string>)
      modifies this`sections
      ensures match host.helper(Escape, value)
        case Ok(text) => threw == None && AsPool() == SetSection(old(AsPool()), name, text)
        case Err(error) => threw == Some(error) && AsPool() == old(AsPool())
    {
      match host.helper(Escape, value) {
        case Ok(text) =>
          sections := sections[name := text];
          return None;
        case Err(error) =>
          return Some(error);
      }
    }

    method YieldSection(name: string, fallback: Option<string>) returns (text: string)
      ensures text == SectionOr(AsPool(), name, fallback)
    {
      if name in sections {
        return sections[name];
      }
      return match fallback case Some(f) => f case None => "";
    }

    method Push(name: string, body: string)
      modifies this`stacks
      ensures AsPool() == PushBody(old(AsPool()), name, body)
    {
      if name !in stacks {
        stacks := stacks[name := []];
      }
      stacks := stacks[name := stacks[name] + [body]];
      assert stacks == PushBody(old(AsPool()), name, body).stacks;
    }

    method Prepend(name: string, body: string)
      modifies this`stacks
      ensures AsPool() == PrependBody(old(AsPool()), name, body)
    {
      if name !in stacks {
        stacks := stacks[name := []];
      }
      stacks := stacks[name := [body] + stacks[name]];
      assert stacks == PrependBody(old(AsPool()), name, body).stacks;
    }

    method StackText(name: string) returns (text: string)
      ensures text == Concat(StackOf(AsPool(), name))
    {
      var parts := if name in stacks then stacks[name] else [];
      text := "";
      var i := 0;
      while i < |parts|
        invariant 0 <= i <= |parts| && text == Concat(parts[..i])
      {
        assert parts[..i + 1][..i] == parts[..i];
        text := text + parts[i];
        i := i + 1;
      }
      assert parts[..i] == parts;
    }
  }

  // ----- What the pool operations promise -----------------------------------------------------------------

  /** Stacks read in the order of pushes, with prepends before them, the last prepend first;
      other stacks and all sections keep what they had. */
  lemma StackOrder(pool: Pool, name: string, a: string, b: string, other: string)
    ensures StackOf(PushBody(PushBody(pool, name, a), name, b), name) == StackOf(pool, name) + [a, b]
    ensures StackOf(PrependBody(PrependBody(pool, name, a), name, b), name) == [b, a] + StackOf(pool, name)
    ensures PushBody(PrependBody(pool, name, a), name, b) == PrependBody(PushBody(pool, name, b), name, a)
    ensures other != name ==> StackOf(PushBody(pool, name, a), other) == StackOf(pool, other)
    ensures other != name ==> StackOf(PrependBody(pool, name, a), other) == StackOf(pool, other)
  {
    assert StackOf(pool, name) + [a] + [b] == StackOf(pool, name) + [a, b];
    assert [b] + ([a] + StackOf(pool, name)) == [b, a] + StackOf(pool, name);
    assert ([a] + StackOf(pool, name)) + [b] == [a] + (StackOf(pool, name) + [b]);
  }

  /** Bodies are joined first to last. */
  lemma {:induction false} ConcatInOrder(a: seq<string>, b: seq<string>)
    ensures Concat(a + b) == Concat(a) + Concat(b)
    ensures |a| == 1 ==> Concat(a) == a[0]
  {
    if b == [] {
      NilRight(a);
      NilRight(Concat(a));
    } else {
      assert (a + b)[..|a + b| - 1] == a + b[..|b| - 1];
      ConcatInOrder(a, b[..|b| - 1]);
    }
    if |a| == 1 {
      assert a[..0] == [];
    }
  }

  /** The last writer of a section wins, and a fallback shows only while nobody wrote it. */
  lemma SectionLastWins(pool: Pool, name: string, a: string, b: string, fallback: Option<string>)
    ensures SectionOr(SetSection(SetSection(pool, name, a), name, b), name, fallback) == b
    ensures name !in pool.sections ==>
      SectionOr(pool, name, fallback) == (if fallback.Some? then fallback.value else "")
  {
  }
}
