/**
 * The table of discovered endpoints against the names of the registered providers,
 * plugins/discovery/discoverer.go and internal/discovery/endpoint.go.
 */
module Discovery {
  import opened Options

  datatype Endpoint = Endpoint(name: string, pluginType: string, config: string)

  /**
   * What the endpoint handler knows of the plugin types: the name of the factory of each, and the names
   * in the configurations from which it builds a provider.
   */
  datatype Plugins = Plugins(factories: map<string, string>, builds: map<(string, string), string>)

  type Table = map<string, seq<Endpoint>>

  /** The name under which the provider of an endpoint is looked for. */
  function ProviderName(plugins: Plugins, ep: Endpoint): string
    requires ep.pluginType in plugins.factories
  {
    plugins.factories[ep.pluginType] + ": " + ep.name
  }

  /** Adding the endpoint registers a provider. */
  predicate Builds(plugins: Plugins, ep: Endpoint) {
    ep.pluginType in plugins.factories && (ep.pluginType, ep.config) in plugins.builds
  }

  /** The name of the provider that is built, which comes from the configuration. */
  function BuiltName(plugins: Plugins, ep: Endpoint): string
    requires Builds(plugins, ep)
  {
    plugins.factories[ep.pluginType] + ": " + plugins.builds[(ep.pluginType, ep.config)]
  }

  /** The configuration has the name of its endpoint. */
  predicate Bridged(plugins: Plugins, ep: Endpoint) {
    Builds(plugins, ep) ==> plugins.builds[(ep.pluginType, ep.config)] == ep.name
  }

  /** The names that deleting the endpoints may unregister. */
  ghost function Names(plugins: Plugins, eps: seq<Endpoint>): set<string> {
    set ep | ep in eps && ep.pluginType in plugins.factories :: ProviderName(plugins, ep)
  }

  /** The names that adding the endpoints registers. */
  ghost function Built(plugins: Plugins, eps: seq<Endpoint>): set<string> {
    set ep | ep in eps && Builds(plugins, ep) :: BuiltName(plugins, ep)
  }

  function At(table: Table, resource: string): seq<Endpoint> {
    if resource in table then table[resource] else []
  }

  ghost function AllBuilt(plugins: Plugins, table: Table): set<string> {
    set resource, name | resource in table && name in Built(plugins, table[resource]) :: name
  }

  /** The registered names are those of the other providers and those of the table's endpoints. */
  ghost predicate Agrees(plugins: Plugins, table: Table, names: set<string>, others: set<string>) {
    names == others + AllBuilt(plugins, table)
  }

  // ---- The steps ---------------------------------------------------------------------------------------

  datatype Step = Discover(resource: string, eps: seq<Endpoint>) | Delete(resource: string) | DiscoverNode(resource: string, ep: Endpoint) | DeleteAll

  function Put(table: Table, resource: string, eps: seq<Endpoint>): Table {
    if eps == [] then table - {resource} else table[resource := eps]
  }

  function TableAfter(table: Table, step: Step): Table {
    match step
    case Discover(resource, eps) => Put(table, resource, eps)
    case Delete(resource) => table - {resource}
    case DiscoverNode(resource, ep) => table[resource := At(table, resource) + [ep]]
    case DeleteAll => map[]
  }

  ghost function AllNames(plugins: Plugins, table: Table): set<string> {
    set resource, name | resource in table && name in Names(plugins, table[resource]) :: name
  }

  ghost function NamesAfter(plugins: Plugins, table: Table, names: set<string>, step: Step): set<string> {
    match step
    case Discover(resource, eps) =>
      if eps == At(table, resource) then names else names - Names(plugins, At(table, resource)) + Built(plugins, eps)
    case Delete(resource) => names - Names(plugins, At(table, resource))
    case DiscoverNode(resource, ep) => names + Built(plugins, [ep])
    case DeleteAll => names - AllNames(plugins, table)
  }

  // ---- One endpoint more -------------------------------------------------------------------------------

  lemma OneBuilt(plugins: Plugins, ep: Endpoint)
    ensures Built(plugins, [ep]) == if Builds(plugins, ep) then {BuiltName(plugins, ep)} else {}
  {
    assert ep in [ep];
  }

  lemma OneName(plugins: Plugins, ep: Endpoint)
    ensures Names(plugins, [ep]) == if ep.pluginType in plugins.factories then {ProviderName(plugins, ep)} else {}
  {
    assert ep in [ep];
  }

  lemma BuiltOneMore(plugins: Plugins, eps: seq<Endpoint>, i: nat)
    requires i < |eps|
    ensures Built(plugins, eps[..i + 1]) == Built(plugins, eps[..i]) + Built(plugins, [eps[i]])
  {
    forall ep ensures ep in eps[..i + 1] <==> ep in eps[..i] || ep in [eps[i]] {
      assert eps[..i + 1] == eps[..i] + [eps[i]];
    }
  }

  lemma NamesOneMore(plugins: Plugins, eps: seq<Endpoint>, i: nat)
    requires i < |eps|
    ensures Names(plugins, eps[..i + 1]) == Names(plugins, eps[..i]) + Names(plugins, [eps[i]])
  {
    forall ep ensures ep in eps[..i + 1] <==> ep in eps[..i] || ep in [eps[i]] {
      assert eps[..i + 1] == eps[..i] + [eps[i]];
    }
  }

  /** The names of the endpoints of some resources. */
  ghost function NamesOf(plugins: Plugins, table: Table, resources: set<string>): set<string> {
    set resource, name | resource in resources && resource in table && name in Names(plugins, table[resource]) :: name
  }

  lemma NamesOfMore(plugins: Plugins, table: Table, resources: set<string>, k: string)
    requires k in table
    ensures NamesOf(plugins, table, resources + {k}) == NamesOf(plugins, table, resources) + Names(plugins, table[k])
  {
    forall name ensures name in NamesOf(plugins, table, resources + {k}) <==> name in NamesOf(plugins, table, resources) + Names(plugins, table[k]) {
      if name in NamesOf(plugins, table, resources + {k}) {
        var r :| r in resources + {k} && r in table && name in Names(plugins, table[r]);
      }
      if name in NamesOf(plugins, table, resources) {
        var r :| r in resources && r in table && name in Names(plugins, table[r]);
        assert r in resources + {k};
      }
    }
  }

  lemma NamesOfAll(plugins: Plugins, table: Table)
    ensures NamesOf(plugins, table, table.Keys) == AllNames(plugins, table)
  {
    forall name ensures name in NamesOf(plugins, table, table.Keys) <==> name in AllNames(plugins, table) {
    }
  }

  lemma TakenOut(table: Table, gone: set<string>, k: string)
    ensures table - gone - {k} == table - (gone + {k})
  {
  }

  lemma AllTakenOut(table: Table, gone: set<string>)
    requires gone <= table.Keys && table - gone == map[]
    ensures gone == table.Keys
  {
    forall k | k in table ensures k in gone {
      assert k !in gone ==> k in table - gone;
    }
  }

  // ---- When a step keeps the agreement -------------------------------------------------------------------

  /** The names of a resource's endpoints are not those of another provider or of another resource's. */
  ghost predicate OwnNames(plugins: Plugins, table: Table, resource: string, others: set<string>) {
    Names(plugins, At(table, resource)) !! others + AllBuilt(plugins, table - {resource})
  }

  /** The providers built for a resource are found under its names, unless something else is to keep them. */
  ghost predicate Found(plugins: Plugins, table: Table, resource: string, others: set<string>) {
    Built(plugins, At(table, resource)) <= Names(plugins, At(table, resource)) + (others + AllBuilt(plugins, table - {resource}))
  }

  /** The built provider is the one that is looked for, if and only if the names are the same. */
  lemma BridgeHolds(plugins: Plugins, ep: Endpoint)
    ensures Bridged(plugins, ep) <==> Built(plugins, [ep]) <= Names(plugins, [ep])
  {
    OneBuilt(plugins, ep);
    OneName(plugins, ep);
    if Builds(plugins, ep) && BuiltName(plugins, ep) == ProviderName(plugins, ep) {
      var prefix := plugins.factories[ep.pluginType] + ": ";
      assert BuiltName(plugins, ep)[|prefix|..] == plugins.builds[(ep.pluginType, ep.config)];
      assert ProviderName(plugins, ep)[|prefix|..] == ep.name;
    }
  }

  lemma BuiltAreNames(plugins: Plugins, eps: seq<Endpoint>)
    requires forall ep :: ep in eps ==> Bridged(plugins, ep)
    ensures Built(plugins, eps) <= Names(plugins, eps)
  {
    forall name | name in Built(plugins, eps) ensures name in Names(plugins, eps) {
      var ep :| ep in eps && Builds(plugins, ep) && BuiltName(plugins, ep) == name;
      assert ProviderName(plugins, ep) == name;
    }
  }

  lemma WithoutOne(plugins: Plugins, table: Table, resource: string)
    ensures AllBuilt(plugins, table) == AllBuilt(plugins, table - {resource}) + Built(plugins, At(table, resource))
  {
    var all := AllBuilt(plugins, table - {resource}) + Built(plugins, At(table, resource));
    forall name ensures name in AllBuilt(plugins, table) <==> name in all {
      if name in AllBuilt(plugins, table) {
        var r :| r in table && name in Built(plugins, table[r]);
        assert r != resource ==> r in table - {resource} && (table - {resource})[r] == table[r];
      }
      if name in AllBuilt(plugins, table - {resource}) {
        var r :| r in table - {resource} && name in Built(plugins, (table - {resource})[r]);
        assert r in table && name in Built(plugins, table[r]);
      }
    }
  }

  lemma WithOne(plugins: Plugins, table: Table, resource: string, eps: seq<Endpoint>)
    ensures AllBuilt(plugins, Put(table, resource, eps)) == AllBuilt(plugins, table - {resource}) + Built(plugins, eps)
  {
    WithoutOne(plugins, Put(table, resource, eps), resource);
    assert Put(table, resource, eps) - {resource} == table - {resource};
  }

  /**
   * Deleting a resource keeps the agreement if and only if its endpoints' names are its own, and every
   * provider that was built for it is found under one of them.
   */
  lemma DeleteKeeps(plugins: Plugins, table: Table, names: set<string>, others: set<string>, resource: string)
    requires Agrees(plugins, table, names, others)
    ensures Agrees(plugins, TableAfter(table, Delete(resource)), NamesAfter(plugins, table, names, Delete(resource)), others)
            <==> OwnNames(plugins, table, resource, others) && Found(plugins, table, resource, others)
  {
    WithoutOne(plugins, table, resource);
    var rest, old1, gone := others + AllBuilt(plugins, table - {resource}), Built(plugins, At(table, resource)), Names(plugins, At(table, resource));
    assert names == rest + old1;
    TakenAway(rest, old1, gone, {});
    assert rest + old1 - gone + {} == rest + old1 - gone && rest + {} == rest && gone + rest + {} == gone + rest;
  }

  /** Taking some names away from a set leaves the wanted ones just when no wanted one goes and no other one stays. */
  lemma TakenAway(rest: set<string>, old1: set<string>, gone: set<string>, more: set<string>)
    ensures rest + old1 - gone + more == rest + more
            <==> (forall name :: name in gone && name in rest ==> name in more) && old1 <= gone + rest + more
  {
    var after := rest + old1 - gone + more;
    if after == rest + more {
      forall name | name in gone && name in rest ensures name in more {
        assert name in after;
      }
      forall name | name in old1 ensures name in gone + rest + more {
        assert name in after || name in gone;
      }
    }
  }

  /** What the old endpoints' names take away comes back if it is wanted, and leaves nothing else behind. */
  ghost predicate Exchanges(plugins: Plugins, table: Table, others: set<string>, resource: string, eps: seq<Endpoint>) {
    var rest, gone := others + AllBuilt(plugins, table - {resource}), Names(plugins, At(table, resource));
    && (forall name :: name in gone && name in rest ==> name in Built(plugins, eps))
    && Built(plugins, At(table, resource)) <= gone + rest + Built(plugins, eps)
  }

  /**
   * Discovering a resource anew keeps the agreement if and only if nothing changed, or each name of an
   * old endpoint that belongs to something else comes back with the new endpoints, and each old provider
   * is found under its endpoint's name, or wanted.
   */
  lemma DiscoverKeeps(plugins: Plugins, table: Table, names: set<string>, others: set<string>, resource: string, eps: seq<Endpoint>)
    requires Agrees(plugins, table, names, others)
    ensures var step := Discover(resource, eps);
      Agrees(plugins, TableAfter(table, step), NamesAfter(plugins, table, names, step), others)
      <==> eps == At(table, resource) || Exchanges(plugins, table, others, resource, eps)
  {
    WithoutOne(plugins, table, resource);
    WithOne(plugins, table, resource, eps);
    var rest, old1, gone := others + AllBuilt(plugins, table - {resource}), Built(plugins, At(table, resource)), Names(plugins, At(table, resource));
    assert names == rest + old1;
    TakenAway(rest, old1, gone, Built(plugins, eps));
    assert rest + Built(plugins, eps) == others + (AllBuilt(plugins, table - {resource}) + Built(plugins, eps));
  }

  lemma DiscoverNodeKeeps(plugins: Plugins, table: Table, names: set<string>, others: set<string>, resource: string, ep: Endpoint)
    requires Agrees(plugins, table, names, others)
    ensures var step := DiscoverNode(resource, ep);
      Agrees(plugins, TableAfter(table, step), NamesAfter(plugins, table, names, step), others)
  {
    var eps := At(table, resource) + [ep];
    WithoutOne(plugins, table, resource);
    WithOne(plugins, table, resource, eps);
    assert Built(plugins, eps) == Built(plugins, At(table, resource)) + Built(plugins, [ep]) by {
      forall name ensures name in Built(plugins, eps) <==> name in Built(plugins, At(table, resource)) + Built(plugins, [ep]) {
        if name in Built(plugins, At(table, resource)) + Built(plugins, [ep]) {
          var e :| (e in At(table, resource) || e in [ep]) && Builds(plugins, e) && name == BuiltName(plugins, e);
          assert e in eps;
        }
      }
    }
  }

  /**
   * Deleting everything leaves just the other providers, if and only if no endpoint bears the name of one
   * and each provider that was built is found.
   */
  lemma DeleteAllKeeps(plugins: Plugins, table: Table, names: set<string>, others: set<string>)
    requires Agrees(plugins, table, names, others)
    ensures Agrees(plugins, TableAfter(table, DeleteAll), NamesAfter(plugins, table, names, DeleteAll), others)
            <==> AllNames(plugins, table) !! others && AllBuilt(plugins, table) <= AllNames(plugins, table) + others
  {
    assert AllBuilt(plugins, map[]) == {};
    var gone, old1 := AllNames(plugins, table), AllBuilt(plugins, table);
    TakenAway(others, old1, gone, {});
    assert others + old1 - gone + {} == names - gone && others + {} == others && gone + others + {} == gone + others;
  }

  const ONE_PLUGIN := Plugins(map["t" := "f"], map[("t", "c") := "e"])
  const SHARED := [Endpoint("e", "t", "c")]

  /** Two resources have an endpoint called "e": deleting one unregisters what the other needs. */
  lemma SharedNameExample()
    ensures var table := map["a" := SHARED, "b" := SHARED];
      && (forall ep :: ep in SHARED ==> Bridged(ONE_PLUGIN, ep))
      && var names := AllBuilt(ONE_PLUGIN, table);
         Agrees(ONE_PLUGIN, table, names, {})
         && !Agrees(ONE_PLUGIN, TableAfter(table, Delete("a")), NamesAfter(ONE_PLUGIN, table, names, Delete("a")), {})
  {
    var table := map["a" := SHARED, "b" := SHARED];
    assert SHARED == [SHARED[0]];
    OneBuilt(ONE_PLUGIN, SHARED[0]);
    OneName(ONE_PLUGIN, SHARED[0]);
    SharedIsNotOwn(ONE_PLUGIN, table, "a", "b", BuiltName(ONE_PLUGIN, SHARED[0]));
    DeleteKeeps(ONE_PLUGIN, table, AllBuilt(ONE_PLUGIN, table), {}, "a");
  }

  lemma SharedIsNotOwn(plugins: Plugins, table: Table, resource: string, resource1: string, name: string)
    requires resource in table && resource1 in table && resource != resource1
    requires name in Names(plugins, table[resource]) && name in Built(plugins, table[resource1])
    ensures !OwnNames(plugins, table, resource, {})
  {
    assert resource1 in table - {resource} && name in Built(plugins, (table - {resource})[resource1]);
    assert name in AllBuilt(plugins, table - {resource});
  }

  // ---- Runs -------------------------------------------------------------------------------------------------

  /** Each name belongs to one resource, and to no other provider, and the configurations have the names of their endpoints. */
  ghost predicate Owned(plugins: Plugins, owner: map<string, string>, others: set<string>, resource: string, eps: seq<Endpoint>) {
    && (forall ep :: ep in eps ==> Bridged(plugins, ep))
    && forall name :: name in Names(plugins, eps) ==> name !in others && name in owner && owner[name] == resource
  }

  ghost predicate StepOwned(plugins: Plugins, owner: map<string, string>, others: set<string>, step: Step) {
    match step
    case Discover(resource, eps) => Owned(plugins, owner, others, resource, eps)
    case DiscoverNode(resource, ep) => Owned(plugins, owner, others, resource, [ep])
    case _ => true
  }

  ghost predicate TableOwned(plugins: Plugins, owner: map<string, string>, others: set<string>, table: Table) {
    forall resource :: resource in table ==> Owned(plugins, owner, others, resource, table[resource])
  }

  ghost function TableRun(steps: seq<Step>, n: nat): Table
    requires n <= |steps|
  {
    if n == 0 then map[] else TableAfter(TableRun(steps, n - 1), steps[n - 1])
  }

  ghost function NamesRun(plugins: Plugins, steps: seq<Step>, n: nat, others: set<string>): set<string>
    requires n <= |steps|
  {
    if n == 0 then others else NamesAfter(plugins, TableRun(steps, n - 1), NamesRun(plugins, steps, n - 1, others), steps[n - 1])
  }

  lemma OwnedAreOwn(plugins: Plugins, owner: map<string, string>, others: set<string>, table: Table, resource: string)
    requires TableOwned(plugins, owner, others, table)
    ensures OwnNames(plugins, table, resource, others)
    ensures Built(plugins, At(table, resource)) <= Names(plugins, At(table, resource))
  {
    assert resource in table ==> Owned(plugins, owner, others, resource, table[resource]);
    BuiltAreNames(plugins, At(table, resource));
    forall name | name in Names(plugins, At(table, resource)) ensures name !in others && name in owner && owner[name] == resource {
      assert Owned(plugins, owner, others, resource, table[resource]);
    }
    forall name | name in AllBuilt(plugins, table - {resource}) ensures name in owner && owner[name] != resource {
      var r :| r in table - {resource} && name in Built(plugins, (table - {resource})[r]);
      assert Owned(plugins, owner, others, r, table[r]);
      BuiltAreNames(plugins, table[r]);
    }
  }

  lemma StepKeepsOwned(plugins: Plugins, owner: map<string, string>, others: set<string>, table: Table, step: Step)
    requires TableOwned(plugins, owner, others, table) && StepOwned(plugins, owner, others, step)
    ensures TableOwned(plugins, owner, others, TableAfter(table, step))
  {
    if step.DiscoverNode? {
      var eps := At(table, step.resource) + [step.ep];
      forall e | e in eps ensures Bridged(plugins, e) {
        assert e in At(table, step.resource) || e in [step.ep];
      }
      forall name | name in Names(plugins, eps) ensures name !in others && name in owner && owner[name] == step.resource {
        var e :| e in eps && e.pluginType in plugins.factories && name == ProviderName(plugins, e);
        if e in At(table, step.resource) {
          assert name in Names(plugins, table[step.resource]);
        } else {
          assert e in [step.ep] && name in Names(plugins, [step.ep]);
        }
      }
    }
  }

  /**
   * After any sequence of steps the registered names are those of the table's endpoints that build,
   * besides those of the other providers, provided that no two resources share an endpoint's name and
   * that each configuration has the name of its endpoint.
   */
  lemma {:induction false} RunAgrees(plugins: Plugins, owner: map<string, string>, others: set<string>, steps: seq<Step>, n: nat)
    requires n <= |steps| && forall i :: 0 <= i < |steps| ==> StepOwned(plugins, owner, others, steps[i])
    ensures Agrees(plugins, TableRun(steps, n), NamesRun(plugins, steps, n, others), others)
    ensures TableOwned(plugins, owner, others, TableRun(steps, n))
  {
    if n > 0 {
      RunAgrees(plugins, owner, others, steps, n - 1);
      var table, names, step := TableRun(steps, n - 1), NamesRun(plugins, steps, n - 1, others), steps[n - 1];
      StepKeepsOwned(plugins, owner, others, table, step);
      StepAgrees(plugins, owner, others, table, names, step);
    }
  }

  lemma StepAgrees(plugins: Plugins, owner: map<string, string>, others: set<string>, table: Table, names: set<string>, step: Step)
    requires Agrees(plugins, table, names, others) && TableOwned(plugins, owner, others, table)
    ensures Agrees(plugins, TableAfter(table, step), NamesAfter(plugins, table, names, step), others)
  {
    match step
    case Discover(resource, eps) =>
      OwnedAreOwn(plugins, owner, others, table, resource);
      DiscoverKeeps(plugins, table, names, others, resource, eps);
    case Delete(resource) =>
      OwnedAreOwn(plugins, owner, others, table, resource);
      DeleteKeeps(plugins, table, names, others, resource);
    case DiscoverNode(resource, ep) =>
      DiscoverNodeKeeps(plugins, table, names, others, resource, ep);
    case DeleteAll =>
      forall name | name in AllNames(plugins, table) ensures name !in others {
        var r :| r in table && name in Names(plugins, table[r]);
        assert Owned(plugins, owner, others, r, table[r]);
      }
      forall name | name in AllBuilt(plugins, table) ensures name in AllNames(plugins, table) {
        var r :| r in table && name in Built(plugins, table[r]);
        OwnedAreOwn(plugins, owner, others, table, r);
      }
      DeleteAllKeeps(plugins, table, names, others);
  }
}
