/** Subset boot: the providers a command asked for, with everything they depend on. */
module Providers {
  import opened Prelude

  datatype Provider = Provider(name: string, dependencies: seq<string>, tag: nat)

  datatype ConfigError = Circular(chain: seq<string>) | NotADefault(name: string)

  type Catalog = map<string, Provider>

  /** `new Map` filled in order: the last default of a name wins. */
  function ByName(defaults: seq<Provider>): (catalog: Catalog)
    ensures forall name :: name in catalog ==> catalog[name].name == name && catalog[name] in defaults
    ensures forall p :: p in defaults ==> p.name in catalog
  {
    if defaults == [] then map[]
    else
      var last := defaults[|defaults| - 1];
      ByName(defaults[..|defaults| - 1])[last.name := last]
  }

  /** A later default of the same name replaces an earlier one. */
  lemma {:induction false} LastDefaultWins(defaults: seq<Provider>, i: nat)
    requires i < |defaults| && forall j :: i < j < |defaults| ==> defaults[j].name != defaults[i].name
    ensures ByName(defaults)[defaults[i].name] == defaults[i]
  {
    if i < |defaults| - 1 {
      LastDefaultWins(defaults[..|defaults| - 1], i);
    }
  }

  // ----- Paths along dependencies ----------------------------------------------------------------------------

  /** Each name is a known provider that depends on the next. */
  predicate Path(catalog: Catalog, path: seq<string>) {
    && path != []
    && forall i :: 0 <= i < |path| - 1 ==> path[i] in catalog && path[i + 1] in catalog[path[i]].dependencies
  }

  predicate Connects(catalog: Catalog, path: seq<string>, from: string, to: string) {
    Path(catalog, path) && path[0] == from && path[|path| - 1] == to
  }

  ghost predicate Reaches(catalog: Catalog, from: string, to: string) {
    exists path :: Connects(catalog, path, from, to)
  }

  ghost predicate Reachable(catalog: Catalog, requested: seq<string>, name: string) {
    exists i :: 0 <= i < |requested| && Reaches(catalog, requested[i], name)
  }

  /** A path that ends outside the catalog, or back on one of its own names. */
  predicate DeadEnd(catalog: Catalog, path: seq<string>) {
    Path(catalog, path) && (path[|path| - 1] !in catalog || path[|path| - 1] in path[..|path| - 1])
  }

  /** An unknown name or a cycle can be reached from the request. */
  ghost predicate Unresolvable(catalog: Catalog, requested: seq<string>) {
    exists path :: DeadEnd(catalog, path) && path[0] in requested
  }

  lemma PathExtends(catalog: Catalog, path: seq<string>, next: string)
    requires Path(catalog, path) && path[|path| - 1] in catalog && next in catalog[path[|path| - 1]].dependencies
    ensures Path(catalog, path + [next])
  {
  }

  lemma ReachesSelf(catalog: Catalog, name: string)
    ensures Reaches(catalog, name, name)
  {
    assert Connects(catalog, [name], name, name);
  }

  lemma ReachesThrough(catalog: Catalog, name: string, dep: string, to: string)
    requires name in catalog && dep in catalog[name].dependencies && Reaches(catalog, dep, to)
    ensures Reaches(catalog, name, to)
  {
    var path :| Connects(catalog, path, dep, to);
    assert Connects(catalog, [name] + path, name, to);
  }

  // ----- A selection ----------------------------------------------------------------------------------------------

  function Names(selected: seq<Provider>): (names: seq<string>)
    ensures |names| == |selected| && forall i :: 0 <= i < |names| ==> names[i] == selected[i].name
  {
    if selected == [] then [] else Names(selected[..|selected| - 1]) + [selected[|selected| - 1].name]
  }

  predicate NoRepeats(names: seq<string>) {
    forall i, j :: 0 <= i < j < |names| ==> names[i] != names[j]
  }

  /** Every dependency of the provider at `i` is selected before it. */
  predicate DependenciesBefore(selected: seq<Provider>, i: nat)
    requires i < |selected|
  {
    forall d :: 0 <= d < |selected[i].dependencies| ==> selected[i].dependencies[d] in Names(selected[..i])
  }

  /** Providers of the catalog, each once, each after its dependencies. */
  predicate Ordered(catalog: Catalog, selected: seq<Provider>) {
    && NoRepeats(Names(selected))
    && (forall i :: 0 <= i < |selected| ==> selected[i].name in catalog && catalog[selected[i].name] == selected[i])
    && (forall i :: 0 <= i < |selected| ==> DependenciesBefore(selected, i))
  }

  lemma NamesPrefix(selected: seq<Provider>, more: seq<Provider>, name: string)
    requires selected <= more && name in Names(selected)
    ensures name in Names(more)
  {
    var i :| 0 <= i < |selected| && Names(selected)[i] == name;
    assert Names(more)[i] == name;
  }

  lemma NamesAppend(selected: seq<Provider>, provider: Provider)
    ensures Names(selected + [provider]) == Names(selected) + [provider.name]
  {
    assert (selected + [provider])[..|selected|] == selected;
  }

  lemma NoRepeatsAppend(names: seq<string>, name: string)
    requires NoRepeats(names) && name !in names
    ensures NoRepeats(names + [name])
  {
  }

  lemma StillBefore(selected: seq<Provider>, provider: Provider, i: nat)
    requires i < |selected| && DependenciesBefore(selected, i)
    ensures DependenciesBefore(selected + [provider], i)
  {
    assert (selected + [provider])[..i] == selected[..i];
  }

  lemma OrderedAppend(catalog: Catalog, selected: seq<Provider>, provider: Provider)
    requires Ordered(catalog, selected) && provider.name !in Names(selected)
    requires provider.name in catalog && catalog[provider.name] == provider
    requires forall d :: 0 <= d < |provider.dependencies| ==> provider.dependencies[d] in Names(selected)
    ensures Ordered(catalog, selected + [provider])
  {
    var more := selected + [provider];
    NamesAppend(selected, provider);
    NoRepeatsAppend(Names(selected), provider.name);
    forall i | 0 <= i < |more|
      ensures DependenciesBefore(more, i)
    {
      if i < |selected| {
        StillBefore(selected, provider, i);
      } else {
        assert more[..i] == selected;
      }
    }
  }

  function Position(selected: seq<Provider>, name: string): (i: nat)
    requires name in Names(selected)
    ensures i < |selected| && selected[i].name == name
  {
    if selected[|selected| - 1].name == name then |selected| - 1
    else
      assert exists k :: 0 <= k < |selected| - 1 && Names(selected)[k] == name;
      assert forall k :: 0 <= k < |selected| - 1 ==> Names(selected[..|selected| - 1])[k] == Names(selected)[k];
      Position(selected[..|selected| - 1], name)
  }

  /** Selected names in an order that goes down. */
  predicate Descends(selected: seq<Provider>, path: seq<string>) {
    && (forall i :: 0 <= i < |path| ==> path[i] in Names(selected))
    && forall i, j :: 0 <= i < j < |path| ==> Position(selected, path[j]) < Position(selected, path[i])
  }

  lemma DescendsAppend(selected: seq<Provider>, path: seq<string>, next: string)
    requires path != [] && Descends(selected, path) && next in Names(selected)
    requires Position(selected, next) < Position(selected, path[|path| - 1])
    ensures Descends(selected, path + [next])
  {
    var longer, last := path + [next], |path| - 1;
    forall i, j | 0 <= i < j < |longer|
      ensures Position(selected, longer[j]) < Position(selected, longer[i])
    {
      if j == |path| && i < last {
        assert Position(selected, path[last]) < Position(selected, path[i]);
      }
    }
  }

  /** A dependency of a selected provider is selected, further down. */
  lemma DependencyBelow(catalog: Catalog, selected: seq<Provider>, name: string, dep: string)
    requires Ordered(catalog, selected) && name in Names(selected) && name in catalog
    requires dep in catalog[name].dependencies
    ensures dep in Names(selected) && Position(selected, dep) < Position(selected, name)
  {
    var k := Position(selected, name);
    assert DependenciesBefore(selected, k) && catalog[name] == selected[k];
    EarlierPosition(selected, k, dep);
  }

  lemma PathInit(catalog: Catalog, path: seq<string>)
    requires Path(catalog, path) && |path| > 1
    ensures var init := path[..|path| - 1];
      && Path(catalog, init) && init[0] == path[0] && path == init + [path[|path| - 1]]
      && init[|init| - 1] in catalog && path[|path| - 1] in catalog[init[|init| - 1]].dependencies
  {
    var init := path[..|path| - 1];
    var i := |path| - 2;
    assert path[i] in catalog && path[i + 1] in catalog[path[i]].dependencies;
    assert init[i] == path[i];
  }

  /** Along a path from a selected name the positions go down, so the path stays inside the
      selection and never meets a name twice. */
  lemma {:induction false} PathGoesDown(catalog: Catalog, selected: seq<Provider>, path: seq<string>)
    requires Ordered(catalog, selected) && Path(catalog, path) && path[0] in Names(selected)
    ensures Descends(selected, path)
    decreases path
  {
    if |path| > 1 {
      var init, last := path[..|path| - 1], path[|path| - 1];
      PathInit(catalog, path);
      PathGoesDown(catalog, selected, init);
      DependencyBelow(catalog, selected, init[|init| - 1], last);
      DescendsAppend(selected, init, last);
    }
  }

  lemma EarlierPosition(selected: seq<Provider>, k: nat, name: string)
    requires NoRepeats(Names(selected)) && k <= |selected| && name in Names(selected[..k])
    ensures name in Names(selected) && Position(selected, name) < k
  {
    var i :| 0 <= i < k && Names(selected[..k])[i] == name;
    assert Names(selected)[i] == name;
    assert Names(selected)[Position(selected, name)] == name;
  }

  /** An ordered selection that holds the request has no dead end below it. */
  lemma OrderedResolves(catalog: Catalog, selected: seq<Provider>, requested: seq<string>)
    requires Ordered(catalog, selected) && forall i :: 0 <= i < |requested| ==> requested[i] in Names(selected)
    ensures !Unresolvable(catalog, requested)
    ensures forall name :: Reachable(catalog, requested, name) ==> name in Names(selected)
  {
    forall path | Path(catalog, path) && path[0] in requested
      ensures !DeadEnd(catalog, path) && path[|path| - 1] in Names(selected)
    {
      PathGoesDown(catalog, selected, path);
      var last := path[|path| - 1];
      var k := Position(selected, last);
      assert selected[k].name in catalog;
    }
    forall name | Reachable(catalog, requested, name)
      ensures name in Names(selected)
    {
      var i :| 0 <= i < |requested| && Reaches(catalog, requested[i], name);
      var path :| Connects(catalog, path, requested[i], name);
      assert path[0] in requested;
    }
  }

  // ----- The depth-first visit --------------------------------------------------------------------------------------

  function Elements(names: seq<string>): set<string> {
    set name | name in names
  }

  /** What an error says about the request it came from. */
  ghost predicate Explains(catalog: Catalog, error: ConfigError, start: seq<string>) {
    match error
    case Circular(chain) => start <= chain && DeadEnd(catalog, chain) && chain[|chain| - 1] in chain[..|chain| - 1]
    case NotADefault(name) =>
      name !in catalog && exists path :: start <= path && Path(catalog, path) && path[|path| - 1] == name
  }

  class Selection {
    const catalog: Catalog
    var selected: seq<Provider>

    constructor (catalog: Catalog)
      ensures this.catalog == catalog && selected == []
    {
      this.catalog := catalog;
      selected := [];
    }

    predicate Has(name: string)
      reads this
    {
      name in Names(selected)
    }

    ghost predicate Valid()
      reads this
    {
      && Ordered(catalog, selected)
      && (forall name :: name in catalog ==> catalog[name].name == name)
    }

    /** None of the names being resolved is selected yet. */
    predicate Apart(trail: seq<string>)
      reads this
    {
      forall i :: 0 <= i < |trail| ==> trail[i] !in Names(selected)
    }

    method Visit(name: string, trail: seq<string>) returns (error: Option<ConfigError>)
      requires Valid() && Apart(trail) && Path(catalog, trail + [name])
      requires forall i :: 0 <= i < |trail| ==> trail[i] in catalog
      modifies this`selected
      decreases |catalog.Keys - Elements(trail)|, 1
      ensures error.None? ==> Valid() && Apart(trail) && Has(name) && Gained(catalog, name, old(selected), selected)
      ensures error.Some? ==> Explains(catalog, error.value, trail + [name])
    {
      if Has(name) {
        return None;
      }
      var chain := trail + [name];
      if name in trail {
        assert chain[..|chain| - 1] == trail;
        return Some(Circular(chain));
      }
      if name !in catalog {
        assert chain <= chain && chain[|chain| - 1] == name;
        return Some(NotADefault(name));
      }
      error := VisitDependencies(name, trail);
      if error.Some? {
        return;
      }
      Select(name, trail, old(selected));
      return None;
    }

    method VisitRoot(name: string) returns (error: Option<ConfigError>)
      requires Valid()
      modifies this`selected
      ensures error.None? ==> Valid() && Has(name) && Gained(catalog, name, old(selected), selected)
      ensures error.Some? ==> Explains(catalog, error.value, [name])
    {
      assert [] + [name] == [name];
      error := Visit(name, []);
    }

    /** The loop of a visit. */
    method VisitDependencies(name: string, trail: seq<string>) returns (error: Option<ConfigError>)
      requires Valid() && Apart(trail + [name]) && Path(catalog, trail + [name])
      requires name in catalog && name !in trail && forall i :: 0 <= i < |trail| ==> trail[i] in catalog
      modifies this`selected
      decreases |catalog.Keys - Elements(trail)|, 0
      ensures error.None? ==>
        && Valid() && Apart(trail + [name]) && Gained(catalog, name, old(selected), selected)
        && HoldsAll(selected, catalog[name].dependencies, |catalog[name].dependencies|)
      ensures error.Some? ==> Explains(catalog, error.value, trail + [name])
    {
      var provider, chain := catalog[name], trail + [name];
      OneLess(catalog, name, trail);
      var i := 0;
      while i < |provider.dependencies|
        invariant 0 <= i <= |provider.dependencies|
        invariant Valid() && Apart(chain) && Gained(catalog, name, old(selected), selected)
        invariant HoldsAll(selected, provider.dependencies, i)
      {
        var dep := provider.dependencies[i];
        ghost var before := selected;
        PathExtends(catalog, chain, dep);
        error := Visit(dep, chain);
        if error.Some? {
          ExplainsEarlier(catalog, error.value, chain, dep);
          return;
        }
        DependencyDone(catalog, name, i, old(selected), before, selected);
        i := i + 1;
      }
      return None;
    }

    method Select(name: string, ghost trail: seq<string>, ghost start: seq<Provider>)
      requires Valid() && Apart(trail + [name]) && name in catalog && name !in trail
      requires HoldsAll(selected, catalog[name].dependencies, |catalog[name].dependencies|)
      requires Gained(catalog, name, start, selected)
      modifies this`selected
      ensures Valid() && Apart(trail) && Has(name) && Gained(catalog, name, start, selected)
    {
      assert (trail + [name])[|trail|] == name;
      OrderedAppend(catalog, selected, catalog[name]);
      ReachesSelf(catalog, name);
      ghost var before := selected;
      selected := selected + [catalog[name]];
      assert Names(selected)[|before|] == name;
      forall k | 0 <= k < |trail|
        ensures trail[k] !in Names(selected)
      {
        assert (trail + [name])[k] == trail[k];
      }
    }
  }

  /** What was selected stays, and everything new can be reached from `from`. */
  ghost predicate Gained(catalog: Catalog, from: string, before: seq<Provider>, after: seq<Provider>) {
    before <= after && forall k :: |before| <= k < |after| ==> Reaches(catalog, from, after[k].name)
  }

  predicate HoldsAll(selected: seq<Provider>, names: seq<string>, n: nat)
    requires n <= |names|
  {
    forall d :: 0 <= d < n ==> names[d] in Names(selected)
  }

  lemma GainedThrough(catalog: Catalog, name: string, dep: string, start: seq<Provider>, before: seq<Provider>,
      after: seq<Provider>)
    requires name in catalog && dep in catalog[name].dependencies
    requires Gained(catalog, name, start, before) && Gained(catalog, dep, before, after)
    ensures Gained(catalog, name, start, after)
  {
    forall k | |start| <= k < |after|
      ensures Reaches(catalog, name, after[k].name)
    {
      if k < |before| {
        assert before[k] == after[k];
      } else {
        ReachesThrough(catalog, name, dep, after[k].name);
      }
    }
  }

  lemma StillHolds(before: seq<Provider>, after: seq<Provider>, names: seq<string>, n: nat)
    requires before <= after && n <= |names| && HoldsAll(before, names, n)
    ensures HoldsAll(after, names, n)
  {
    forall d | 0 <= d < n
      ensures names[d] in Names(after)
    {
      NamesPrefix(before, after, names[d]);
    }
  }

  /** One more dependency is selected, and still nothing that cannot be reached from `name`. */
  lemma DependencyDone(catalog: Catalog, name: string, i: nat, start: seq<Provider>, before: seq<Provider>,
      after: seq<Provider>)
    requires name in catalog && i < |catalog[name].dependencies|
    requires Gained(catalog, name, start, before) && HoldsAll(before, catalog[name].dependencies, i)
    requires var dep := catalog[name].dependencies[i];
      Gained(catalog, dep, before, after) && dep in Names(after)
    ensures Gained(catalog, name, start, after) && HoldsAll(after, catalog[name].dependencies, i + 1)
  {
    GainedThrough(catalog, name, catalog[name].dependencies[i], start, before, after);
    StillHolds(before, after, catalog[name].dependencies, i);
  }

  lemma OneLess(catalog: Catalog, name: string, trail: seq<string>)
    requires name in catalog && name !in trail
    ensures |catalog.Keys - Elements(trail + [name])| < |catalog.Keys - Elements(trail)|
  {
    assert name in trail + [name];
    assert name in catalog.Keys - Elements(trail) && name !in catalog.Keys - Elements(trail + [name]);
    SmallerSet(catalog.Keys - Elements(trail + [name]), catalog.Keys - Elements(trail));
  }

  lemma SmallerSet(a: set<string>, b: set<string>)
    requires a < b
    ensures |a| < |b|
  {
    assert b == a + (b - a);
    assert |b - a| > 0;
  }

  lemma ExplainsEarlier(catalog: Catalog, error: ConfigError, start: seq<string>, next: string)
    requires Explains(catalog, error, start + [next])
    ensures Explains(catalog, error, start)
  {
    assert start <= start + [next];
    if error.NotADefault? {
      var path :| start + [next] <= path && Path(catalog, path) && path[|path| - 1] == error.name;
      assert start <= path;
    }
  }

  /** Without a request every default boots, and an empty request boots nothing. Otherwise the
      request succeeds exactly when neither an unknown name nor a cycle can be reached from it;
      then the result is exactly the reachable providers, each once, each after everything it
      depends on. A failure names a chain of dependencies that closes on itself, or a reachable
      name that is no default. */
  method SelectProviders(defaults: seq<Provider>, requested: Option<seq<string>>)
    returns (result: Result<seq<Provider>, ConfigError>)
    ensures requested == None ==> result == Ok(defaults)
    ensures requested == Some([]) ==> result == Ok([])
    ensures requested.Some? && requested.value != [] ==>
      (result.Ok? <==> !Unresolvable(ByName(defaults), requested.value))
    ensures requested.Some? && result.Ok? ==>
      && Ordered(ByName(defaults), result.value)
      && forall name :: name in Names(result.value) <==> Reachable(ByName(defaults), requested.value, name)
    ensures result.Err? ==>
      && requested.Some?
      && exists i :: 0 <= i < |requested.value| && Explains(ByName(defaults), result.error, [requested.value[i]])
  {
    if requested.None? {
      return Ok(defaults);
    }
    if requested.value == [] {
      return Ok([]);
    }
    result := Resolve(ByName(defaults), requested.value);
  }

  method Resolve(catalog: Catalog, requested: seq<string>) returns (result: Result<seq<Provider>, ConfigError>)
    requires forall name :: name in catalog ==> catalog[name].name == name
    ensures result.Ok? <==> !Unresolvable(catalog, requested)
    ensures result.Ok? ==>
      && Ordered(catalog, result.value)
      && forall name :: name in Names(result.value) <==> Reachable(catalog, requested, name)
    ensures result.Err? ==> exists i :: 0 <= i < |requested| && Explains(catalog, result.error, [requested[i]])
  {
    var selection := new Selection(catalog);
    var i := 0;
    while i < |requested|
      invariant 0 <= i <= |requested| && selection.Valid() && selection.catalog == catalog
      invariant SoFar(catalog, requested, selection.selected, i)
    {
      ghost var before := selection.selected;
      var error := selection.VisitRoot(requested[i]);
      if error.Some? {
        FailureIsReal(catalog, requested, i, error.value);
        return Err(error.value);
      }
      NextRequested(catalog, requested, i, before, selection.selected);
      i := i + 1;
    }
    OrderedResolves(catalog, selection.selected, requested);
    SelectedReachable(catalog, requested, selection.selected);
    return Ok(selection.selected);
  }

  /** The first `i` requested names are selected, and nothing that cannot be reached from the request. */
  ghost predicate SoFar(catalog: Catalog, requested: seq<string>, selected: seq<Provider>, i: nat)
    requires i <= |requested|
  {
    HoldsAll(selected, requested, i) && AllReachable(catalog, requested, selected)
  }

  lemma NextRequested(catalog: Catalog, requested: seq<string>, i: nat, before: seq<Provider>, after: seq<Provider>)
    requires i < |requested| && SoFar(catalog, requested, before, i)
    requires Gained(catalog, requested[i], before, after) && requested[i] in Names(after)
    ensures SoFar(catalog, requested, after, i + 1)
  {
    GainedReachable(catalog, requested, i, before, after);
    StillHolds(before, after, requested, i);
  }

  ghost predicate AllReachable(catalog: Catalog, requested: seq<string>, selected: seq<Provider>) {
    forall k :: 0 <= k < |selected| ==> Reachable(catalog, requested, selected[k].name)
  }

  lemma GainedReachable(catalog: Catalog, requested: seq<string>, i: nat, before: seq<Provider>, after: seq<Provider>)
    requires i < |requested| && Gained(catalog, requested[i], before, after) && AllReachable(catalog, requested, before)
    ensures AllReachable(catalog, requested, after)
  {
    forall k | 0 <= k < |after|
      ensures Reachable(catalog, requested, after[k].name)
    {
      if k < |before| {
        assert before[k] == after[k];
      } else {
        assert Reaches(catalog, requested[i], after[k].name);
      }
    }
  }

  lemma SelectedReachable(catalog: Catalog, requested: seq<string>, selected: seq<Provider>)
    requires AllReachable(catalog, requested, selected)
    ensures forall name :: name in Names(selected) ==> Reachable(catalog, requested, name)
  {
    forall name | name in Names(selected)
      ensures Reachable(catalog, requested, name)
    {
      var k :| 0 <= k < |selected| && Names(selected)[k] == name;
      assert selected[k].name == name;
    }
  }

  lemma FailureIsReal(catalog: Catalog, requested: seq<string>, i: nat, error: ConfigError)
    requires i < |requested| && Explains(catalog, error, [requested[i]])
    ensures Unresolvable(catalog, requested)
  {
    if error.NotADefault? {
      var path :| [requested[i]] <= path && Path(catalog, path) && path[|path| - 1] == error.name;
      assert DeadEnd(catalog, path) && path[0] == requested[i];
    } else {
      assert error.chain[0] == requested[i];
    }
  }
}
