/** The discoverer and its endpoint handler, which add and delete providers one at a time. */
module Discoverers {
  import opened Options
  import opened SourceManagers
  import opened Discovery

  class Discoverer {
    const plugins: Plugins
    const manager: SourceManager
    var endpoints: Table

    constructor (plugins: Plugins, manager: SourceManager)
      requires manager.Valid()
      ensures Valid() && this.plugins == plugins && this.manager == manager && endpoints == map[]
    {
      this.plugins, this.manager, endpoints := plugins, manager, map[];
    }

    ghost predicate Valid()
      reads this, manager, manager.Repr
    {
      manager.Valid() && this !in manager.Repr
    }

    /** The names of the registered providers. */
    ghost function Registered(): set<string>
      reads manager
    {
      manager.providers.Keys
    }

    /** The handler's Add: a provider is registered if its plugin type is known and it builds. */
    method Add(ep: Endpoint)
      requires Valid()
      modifies manager, manager.Repr
      ensures Valid() && fresh(manager.Repr - old(manager.Repr))
      ensures Registered() == old(Registered()) + Built(plugins, [ep])
      ensures Registered() == old(Registered()) +
        if ep.pluginType in plugins.factories && (ep.pluginType, ep.config) in plugins.builds
        then {plugins.factories[ep.pluginType] + ": " + plugins.builds[(ep.pluginType, ep.config)]} else {}
    {
      OneBuilt(plugins, ep);
      if ep.pluginType in plugins.factories {
        if (ep.pluginType, ep.config) !in plugins.builds {
          return;
        }
        var interval: int := *;
        var sources: seq<string> := *;
        var _ := manager.AddProvider(Provider(BuiltName(plugins, ep), interval, sources));
      }
    }

    /** The handler's Delete: whatever is registered under the endpoint's name is deleted. */
    method DeleteEndpoint(ep: Endpoint)
      requires Valid()
      modifies manager, manager.Repr
      ensures Valid() && manager.Repr == old(manager.Repr)
      ensures Registered() == old(Registered()) - Names(plugins, [ep])
      ensures Registered() == old(Registered()) -
        if ep.pluginType in plugins.factories then {plugins.factories[ep.pluginType] + ": " + ep.name} else {}
    {
      OneName(plugins, ep);
      if ep.pluginType in plugins.factories {
        var _ := manager.DeleteProvider(ProviderName(plugins, ep));
      }
    }

    method AddEach(eps: seq<Endpoint>)
      requires Valid()
      modifies manager, manager.Repr
      ensures Valid() && fresh(manager.Repr - old(manager.Repr))
      ensures Registered() == old(Registered()) + Built(plugins, eps)
    {
      for i := 0 to |eps|
        invariant Valid() && fresh(manager.Repr - old(manager.Repr))
        invariant Registered() == old(Registered()) + Built(plugins, eps[..i])
      {
        BuiltOneMore(plugins, eps, i);
        Add(eps[i]);
      }
      assert eps[..|eps|] == eps;
    }

    method DeleteEach(eps: seq<Endpoint>)
      requires Valid()
      modifies manager, manager.Repr
      ensures Valid() && manager.Repr == old(manager.Repr)
      ensures Registered() == old(Registered()) - Names(plugins, eps)
    {
      for i := 0 to |eps|
        invariant Valid() && manager.Repr == old(manager.Repr)
        invariant Registered() == old(Registered()) - Names(plugins, eps[..i])
      {
        NamesOneMore(plugins, eps, i);
        DeleteEndpoint(eps[i]);
      }
      assert eps[..|eps|] == eps;
    }

    /** internalDiscover, with the endpoints that the creator has made for the resource. */
    method InternalDiscover(resource: string, eps: seq<Endpoint>)
      requires Valid()
      modifies this`endpoints, manager, manager.Repr
      ensures Valid() && fresh(manager.Repr - old(manager.Repr))
      ensures endpoints == TableAfter(old(endpoints), Discover(resource, eps))
      ensures endpoints == if eps == [] then old(endpoints) - {resource} else old(endpoints)[resource := eps]
      ensures Registered() == NamesAfter(plugins, old(endpoints), old(Registered()), Discover(resource, eps))
    {
      var oldEps := At(endpoints, resource);
      endpoints := endpoints - {resource};
      if |eps| > 0 {
        endpoints := endpoints[resource := eps];
      }
      if eps == oldEps {
        return;
      }
      DeleteEach(oldEps);
      AddEach(eps);
    }

    method InternalDelete(resource: string)
      requires Valid()
      modifies this`endpoints, manager, manager.Repr
      ensures Valid() && manager.Repr == old(manager.Repr)
      ensures endpoints == TableAfter(old(endpoints), Delete(resource)) == old(endpoints) - {resource}
      ensures Registered() == NamesAfter(plugins, old(endpoints), old(Registered()), Delete(resource))
    {
      var eps := At(endpoints, resource);
      endpoints := endpoints - {resource};
      DeleteEach(eps);
    }

    /** discoverNodeEndpoint; no endpoint is made when there is not just one node or the rule does not apply. */
    method DiscoverNodeEndpoint(resource: string, ep: Option<Endpoint>)
      requires Valid()
      modifies this`endpoints, manager, manager.Repr
      ensures Valid() && fresh(manager.Repr - old(manager.Repr))
      ensures ep.Some? ==> endpoints == TableAfter(old(endpoints), DiscoverNode(resource, ep.value))
                           && Registered() == NamesAfter(plugins, old(endpoints), old(Registered()), DiscoverNode(resource, ep.value))
      ensures ep.Some? ==> endpoints == old(endpoints)[resource := (if resource in old(endpoints) then old(endpoints)[resource] else []) + [ep.value]]
      ensures ep.None? ==> endpoints == old(endpoints) && Registered() == old(Registered())
    {
      if ep.Some? {
        var eps := [];
        if resource in endpoints {
          eps := endpoints[resource];
        }
        eps := eps + [ep.value];
        endpoints := endpoints[resource := eps];
        Add(ep.value);
      }
    }

    /** DeleteAll, which empties the table while ranging over it in any order. */
    method DeleteEverything()
      requires Valid()
      modifies this`endpoints, manager, manager.Repr
      ensures Valid() && manager.Repr == old(manager.Repr)
      ensures endpoints == TableAfter(old(endpoints), DeleteAll) == map[]
      ensures Registered() == NamesAfter(plugins, old(endpoints), old(Registered()), DeleteAll)
    {
      ghost var table, gone, start := endpoints, {}, Registered();
      NamesOfAll(plugins, table);
      while endpoints != map[]
        invariant Valid() && manager.Repr == old(manager.Repr)
        invariant gone <= table.Keys && endpoints == table - gone
        invariant Registered() == start - NamesOf(plugins, table, gone)
        decreases endpoints.Keys
      {
        var k :| k in endpoints.Keys;
        DeleteResource(k, table, gone, start);
        gone := gone + {k};
      }
      AllTakenOut(table, gone);
    }

    method DeleteResource(k: string, ghost table: Table, ghost gone: set<string>, ghost start: set<string>)
      requires Valid() && k in endpoints && endpoints == table - gone && Registered() == start - NamesOf(plugins, table, gone)
      modifies this`endpoints, manager, manager.Repr
      ensures Valid() && manager.Repr == old(manager.Repr)
      ensures endpoints == table - (gone + {k}) && Registered() == start - NamesOf(plugins, table, gone + {k})
      ensures endpoints.Keys == old(endpoints.Keys) - {k}
    {
      NamesOfMore(plugins, table, gone, k);
      TakenOut(table, gone, k);
      DeleteEach(endpoints[k]);
      endpoints := endpoints - {k};
    }
  }
}
