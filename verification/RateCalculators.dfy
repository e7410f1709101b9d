/** RateCalculator.Process, which writes rates into the sets of a batch and keeps them for the next one. */
module RateCalculators {
  import opened Options
  import opened MapOrders
  import opened ResourceKeys
  import opened MetricSets
  import opened RollUpSums
  import opened Rates

  /** The rates of one disk metric are appended while the values that were there are ranged over. */
  method AddDiskRates(newMs: MetricSet, oldMs: MetricSet, name: string, target: Target, elapsed: int)
    requires newMs != oldMs && elapsed > 0
    modifies newMs`labeledValues
    ensures newMs.labeledValues
            == old(newMs.labeledValues) + DiskRates(old(newMs.labeledValues), |old(newMs.labeledValues)|, oldMs.labeledValues, name, target, elapsed)
  {
    var items := newMs.labeledValues;
    for i := 0 to |items|
      invariant newMs.labeledValues == items + DiskRates(items, i, oldMs.labeledValues, name, target, elapsed)
    {
      var itemNew := items[i];
      var foundOld: Option<LabeledValue> := None;
      if itemNew.name == name {
        foundOld := FindDevice(oldMs, name, Device(itemNew));
      }
      if foundOld.Some? && target.valueType == Float {
        newMs.labeledValues := newMs.labeledValues
          + [LabeledValue(target.name, itemNew.labels, FloatRate(itemNew.value.intValue, foundOld.value.value.intValue, elapsed))];
      }
    }
  }

  method FindDevice(oldMs: MetricSet, name: string, device: string) returns (r: Option<LabeledValue>)
    ensures r == SameDevice(oldMs.labeledValues, name, device, 0)
  {
    r := None;
    for j := 0 to |oldMs.labeledValues|
      invariant r == None && SameDevice(oldMs.labeledValues, name, device, 0) == SameDevice(oldMs.labeledValues, name, device, j)
    {
      if oldMs.labeledValues[j].name == name && Device(oldMs.labeledValues[j]) == device {
        return Some(oldMs.labeledValues[j]);
      }
    }
  }

  method AddRate(newMs: MetricSet, oldMs: MetricSet, name: string, target: Target, elapsed: int)
    requires newMs != oldMs && elapsed > 0
    modifies newMs
    ensures newMs.View() == WithRate(old(newMs.View()), oldMs.View(), name, target, elapsed)
  {
    if IsDisk(name) {
      AddDiskRates(newMs, oldMs, name, target, elapsed);
    } else if name in newMs.values && name in oldMs.values {
      var metricValNew, metricValOld := newMs.values[name].intValue, oldMs.values[name].intValue;
      if name == CPU_USAGE {
        newMs.values := newMs.values[target.name := IntValue(CpuRate(metricValNew, metricValOld, elapsed))];
      } else if target.valueType == Float {
        newMs.values := newMs.values[target.name := FloatRate(metricValNew, metricValOld, elapsed)];
      }
    }
  }

  /** The mapping is ranged over in any order. */
  method AddRates(mapping: Mapping, newMs: MetricSet, oldMs: MetricSet) returns (ghost order: seq<string>)
    requires newMs != oldMs && Continues(oldMs.View(), newMs.View())
    modifies newMs
    ensures Ranges(mapping.Keys, order)
    ensures newMs.View() == WithRates(mapping, old(newMs.View()), oldMs.View(), Elapsed(oldMs.View(), old(newMs.View())), order, |order|)
  {
    var elapsed := newMs.scrapeTime - oldMs.scrapeTime;
    var unvisited := mapping.Keys;
    ghost var v := newMs.View();
    order := [];
    while unvisited != {}
      invariant newMs.View() == WithRates(mapping, v, oldMs.View(), elapsed, order, |order|)
      invariant Visited(order, mapping.Keys, unvisited)
      decreases unvisited
    {
      var name :| name in unvisited;
      VisitedNext(order, mapping.Keys, unvisited, name);
      AddNext(mapping, newMs, oldMs, name, elapsed, v, order);
      order := order + [name];
      unvisited := unvisited - {name};
    }
  }

  method AddNext(mapping: Mapping, newMs: MetricSet, oldMs: MetricSet, name: string, elapsed: int, ghost v: SetView,
                 ghost order: seq<string>)
    requires newMs != oldMs && elapsed > 0 && name in mapping
    requires newMs.View() == WithRates(mapping, v, oldMs.View(), elapsed, order, |order|)
    modifies newMs
    ensures newMs.View() == WithRates(mapping, v, oldMs.View(), elapsed, order + [name], |order + [name]|)
  {
    RatesNext(mapping, v, oldMs.View(), elapsed, order, name);
    AddRate(newMs, oldMs, name, mapping[name], elapsed);
  }

  lemma {:induction false} RatesNext(mapping: Mapping, v: SetView, o: SetView, elapsed: int, order: seq<string>, name: string)
    requires elapsed > 0 && name in mapping
    ensures WithRates(mapping, v, o, elapsed, order + [name], |order + [name]|)
            == WithRate(WithRates(mapping, v, o, elapsed, order, |order|), o, name, mapping[name], elapsed)
  {
    RatesPrefix(mapping, v, o, elapsed, order, name, |order|);
  }

  lemma {:induction false} RatesPrefix(mapping: Mapping, v: SetView, o: SetView, elapsed: int, order: seq<string>, name: string, n: nat)
    requires elapsed > 0 && n <= |order|
    ensures WithRates(mapping, v, o, elapsed, order + [name], n) == WithRates(mapping, v, o, elapsed, order, n)
  {
    if n > 0 {
      RatesPrefix(mapping, v, o, elapsed, order, name, n - 1);
    }
  }

  lemma {:induction false} TimesKept(mapping: Mapping, v: SetView, o: SetView, elapsed: int, order: seq<string>, n: nat)
    requires elapsed > 0 && n <= |order|
    ensures var w := WithRates(mapping, v, o, elapsed, order, n);
      w.scrapeTime == v.scrapeTime && w.collectionStartTime == v.collectionStartTime
  {
    if n > 0 {
      TimesKept(mapping, v, o, elapsed, order, n - 1);
    }
  }

  function CachedAt(cache: map<ResourceKey, SetView>, k: ResourceKey): Option<SetView> {
    if k in cache then Some(cache[k]) else None
  }

  /** The cached objects after the sets of some keys have been visited. */
  function Kept(before: map<ResourceKey, MetricSet>, cache: map<ResourceKey, SetView>, sets: map<ResourceKey, MetricSet>,
                was: map<ResourceKey, SetView>, visited: set<ResourceKey>): map<ResourceKey, MetricSet>
    requires before.Keys == cache.Keys && visited <= sets.Keys == was.Keys
  {
    map k | k in before.Keys + visited :: if k in visited && Replaces(CachedAt(cache, k), was[k]) then sets[k] else before[k]
  }

  lemma KeptNext(before: map<ResourceKey, MetricSet>, cache: map<ResourceKey, SetView>, sets: map<ResourceKey, MetricSet>,
                 was: map<ResourceKey, SetView>, visited: set<ResourceKey>, k: ResourceKey)
    requires before.Keys == cache.Keys && visited <= sets.Keys == was.Keys && k in sets && k !in visited
    ensures Kept(before, cache, sets, was, visited + {k})
            == if Replaces(CachedAt(cache, k), was[k]) then Kept(before, cache, sets, was, visited)[k := sets[k]] else Kept(before, cache, sets, was, visited)
    ensures k in Kept(before, cache, sets, was, visited) <==> k in before
    ensures k in before ==> Kept(before, cache, sets, was, visited)[k] == before[k]
  {
  }

  class RateCalculator {
    const rateMetricsMapping: Mapping
    const cachePruneInterval: int
    var previousMetricSets: map<ResourceKey, MetricSet>
    var lastPruneTime: int

    constructor (rateMetricsMapping: Mapping, now: int)
      ensures this.rateMetricsMapping == rateMetricsMapping && cachePruneInterval == 5 * 60 * 1000000000
      ensures previousMetricSets == map[] && lastPruneTime == now
    {
      this.rateMetricsMapping := rateMetricsMapping;
      cachePruneInterval := 5 * 60 * 1000000000;
      previousMetricSets, lastPruneTime := map[], now;
    }

    /** What the cached sets hold. */
    ghost function Cache(): map<ResourceKey, SetView>
      reads this, previousMetricSets.Values
    {
      map k | k in previousMetricSets :: previousMetricSets[k].View()
    }

    /** The sets of a new batch are none of the cached ones. */
    ghost predicate Ready(batch: Batch)
      reads this, batch
    {
      batch.Valid() && forall k :: k in previousMetricSets ==> previousMetricSets[k] !in batch.Repr
    }

    /** The loop body of Process. */
    method VisitSet(key: ResourceKey, newMs: MetricSet)
      requires key in previousMetricSets ==> previousMetricSets[key] != newMs
      modifies this`previousMetricSets, newMs
      ensures Rated(rateMetricsMapping, CachedAt(old(Cache()), key), old(newMs.View()), newMs.View())
      ensures newMs.scrapeTime == old(newMs.scrapeTime) && newMs.collectionStartTime == old(newMs.collectionStartTime)
      ensures previousMetricSets == if Replaces(CachedAt(old(Cache()), key), old(newMs.View())) then old(previousMetricSets)[key := newMs] else old(previousMetricSets)
    {
      if key !in previousMetricSets {
        previousMetricSets := previousMetricSets[key := newMs];
        return;
      }
      var oldMs := previousMetricSets[key];
      if newMs.scrapeTime <= oldMs.scrapeTime {
        return;
      }
      if newMs.collectionStartTime != oldMs.collectionStartTime {
        previousMetricSets := previousMetricSets[key := newMs];
        return;
      }
      ghost var v := newMs.View();
      ghost var order := AddRates(rateMetricsMapping, newMs, oldMs);
      TimesKept(rateMetricsMapping, v, oldMs.View(), Elapsed(oldMs.View(), v), order, |order|);
      previousMetricSets := previousMetricSets[key := newMs];
    }

    /** The visited sets have their rates, the others are as they were. */
    ghost predicate RatedSoFar(batch: Batch, cache: map<ResourceKey, SetView>, was: map<ResourceKey, SetView>, visited: set<ResourceKey>)
      requires batch.Valid()
      reads batch, batch.Repr
    {
      forall k :: k in batch.sets ==> k in was && RatedAt(CachedAt(cache, k), was[k], batch.sets[k].View(), k in visited)
    }

    ghost predicate RatedAt(cached: Option<SetView>, v: SetView, w: SetView, visited: bool) {
      if visited then Rated(rateMetricsMapping, cached, v, w) && w.scrapeTime == v.scrapeTime && w.collectionStartTime == v.collectionStartTime
      else w == v
    }

    /** The sets that were cached when the batch came are none of its sets, and still hold what they held. */
    ghost predicate OldSetsKept(batch: Batch, before: map<ResourceKey, MetricSet>, cache: map<ResourceKey, SetView>)
      requires before.Keys == cache.Keys
      reads batch, before.Values
    {
      forall k :: k in before ==> before[k] !in batch.Repr && before[k].View() == cache[k]
    }

    method VisitNext(batch: Batch, key: ResourceKey, ghost before: map<ResourceKey, MetricSet>, ghost cache: map<ResourceKey, SetView>,
                     ghost was: map<ResourceKey, SetView>, ghost visited: set<ResourceKey>)
      requires batch.Valid() && key in batch.sets && key !in visited && visited <= batch.sets.Keys == was.Keys
      requires before.Keys == cache.Keys
      requires OldSetsKept(batch, before, cache)
      requires RatedSoFar(batch, cache, was, visited)
      requires previousMetricSets == Kept(before, cache, batch.sets, was, visited)
      modifies this`previousMetricSets, batch.sets[key]
      ensures OldSetsKept(batch, before, cache) && RatedSoFar(batch, cache, was, visited + {key})
      ensures previousMetricSets == Kept(before, cache, batch.sets, was, visited + {key})
    {
      assert RatedAt(CachedAt(cache, key), was[key], batch.sets[key].View(), false);
      ghost var views := batch.Contents();
      VisitKeeping(batch, key, before, cache, was, views, visited);
      RatedNext(batch, cache, was, views, visited, key);
    }

    method VisitKeeping(batch: Batch, key: ResourceKey, ghost before: map<ResourceKey, MetricSet>, ghost cache: map<ResourceKey, SetView>,
                        ghost was: map<ResourceKey, SetView>, ghost views: map<ResourceKey, SetView>, ghost visited: set<ResourceKey>)
      requires batch.Valid() && key in batch.sets && key !in visited && visited <= batch.sets.Keys == was.Keys
      requires before.Keys == cache.Keys && OldSetsKept(batch, before, cache)
      requires batch.sets[key].View() == was[key] && views == batch.Contents()
      requires previousMetricSets == Kept(before, cache, batch.sets, was, visited)
      modifies this`previousMetricSets, batch.sets[key]
      ensures OldSetsKept(batch, before, cache) && RatedAt(CachedAt(cache, key), was[key], batch.sets[key].View(), true)
      ensures forall k :: k in batch.sets && k != key ==> batch.sets[k].View() == views[k]
      ensures previousMetricSets == Kept(before, cache, batch.sets, was, visited + {key})
    {
      VisitOne(batch, key, before, cache, was, visited);
    }

    method VisitOne(batch: Batch, key: ResourceKey, ghost before: map<ResourceKey, MetricSet>, ghost cache: map<ResourceKey, SetView>,
                    ghost was: map<ResourceKey, SetView>, ghost visited: set<ResourceKey>)
      requires batch.Valid() && key in batch.sets && key !in visited && visited <= batch.sets.Keys == was.Keys
      requires before.Keys == cache.Keys && (key in before ==> before[key] !in batch.Repr && before[key].View() == cache[key])
      requires batch.sets[key].View() == was[key]
      requires previousMetricSets == Kept(before, cache, batch.sets, was, visited)
      modifies this`previousMetricSets, batch.sets[key]
      ensures RatedAt(CachedAt(cache, key), was[key], batch.sets[key].View(), true)
      ensures previousMetricSets == Kept(before, cache, batch.sets, was, visited + {key})
    {
      KeptNext(before, cache, batch.sets, was, visited, key);
      assert CachedAt(Cache(), key) == CachedAt(cache, key);
      VisitSet(key, batch.sets[key]);
    }

    lemma RatedNext(batch: Batch, cache: map<ResourceKey, SetView>, was: map<ResourceKey, SetView>, views: map<ResourceKey, SetView>,
                    visited: set<ResourceKey>, key: ResourceKey)
      requires batch.Valid() && views.Keys == batch.sets.Keys == was.Keys && key in batch.sets
      requires forall k :: k in batch.sets && k != key ==> batch.sets[k].View() == views[k]
      requires forall k :: k in batch.sets ==> RatedAt(CachedAt(cache, k), was[k], views[k], k in visited)
      requires RatedAt(CachedAt(cache, key), was[key], batch.sets[key].View(), true)
      ensures RatedSoFar(batch, cache, was, visited + {key})
    {
      forall k | k in batch.sets ensures RatedAt(CachedAt(cache, k), was[k], batch.sets[k].View(), k in visited + {key}) {
        assert RatedAt(CachedAt(cache, k), was[k], views[k], k in visited);
      }
    }

    /** Process up to pruning; the sets are ranged over in any order. */
    method RateSets(batch: Batch)
      requires Ready(batch)
      modifies this`previousMetricSets, batch.Repr
      ensures RatedSoFar(batch, old(Cache()), old(batch.Contents()), batch.sets.Keys)
      ensures previousMetricSets == Kept(old(previousMetricSets), old(Cache()), batch.sets, old(batch.Contents()), batch.sets.Keys)
      ensures forall k :: k in old(previousMetricSets) ==> old(previousMetricSets)[k].View() == old(Cache())[k]
    {
      ghost var before, cache, was := previousMetricSets, Cache(), batch.Contents();
      ghost var visited: set<ResourceKey> := {};
      var unvisited := batch.sets.Keys;
      while unvisited != {}
        invariant visited !! unvisited && visited + unvisited == batch.sets.Keys
        invariant before.Keys == cache.Keys && OldSetsKept(batch, before, cache)
        invariant RatedSoFar(batch, cache, was, visited)
        invariant previousMetricSets == Kept(before, cache, batch.sets, was, visited)
        decreases unvisited
      {
        var key :| key in unvisited;
        VisitNext(batch, key, before, cache, was, visited);
        unvisited := unvisited - {key};
        visited := visited + {key};
      }
    }

    method RateAndKeep(batch: Batch)
      requires Ready(batch)
      modifies this`previousMetricSets, batch.Repr
      ensures RatedSoFar(batch, old(Cache()), old(batch.Contents()), batch.sets.Keys)
      ensures forall k :: CachedAt(Cache(), k) == After(CachedAt(old(Cache()), k), EventOf(batch, k, false))
      ensures forall k :: k in previousMetricSets ==> (k in batch.sets && previousMetricSets[k] == batch.sets[k])
                                                      || (k in old(previousMetricSets) && previousMetricSets[k] == old(previousMetricSets)[k])
      ensures batch.sets.Keys <= previousMetricSets.Keys
    {
      RateSets(batch);
      forall k ensures CachedAt(Cache(), k) == After(CachedAt(old(Cache()), k), EventOf(batch, k, false)) {
        if k in batch.sets {
          assert RatedAt(CachedAt(old(Cache()), k), old(batch.Contents())[k], batch.sets[k].View(), true);
        }
      }
    }

    /** Sets of resources that the batch does not have are forgotten from time to time. */
    method Prune(batch: Batch)
      modifies this`previousMetricSets
      ensures previousMetricSets == old(previousMetricSets) - (old(previousMetricSets).Keys - batch.sets.Keys)
    {
      var unvisited := previousMetricSets.Keys;
      while unvisited != {}
        invariant unvisited <= previousMetricSets.Keys <= old(previousMetricSets.Keys)
        invariant forall k :: k in previousMetricSets ==> previousMetricSets[k] == old(previousMetricSets)[k]
        invariant forall k :: k in old(previousMetricSets) ==> (k in previousMetricSets <==> k in unvisited || k in batch.sets)
        decreases unvisited
      {
        var key :| key in unvisited;
        if key !in batch.sets {
          previousMetricSets := previousMetricSets - {key};
        }
        unvisited := unvisited - {key};
      }
      SameMap(previousMetricSets, old(previousMetricSets) - (old(previousMetricSets).Keys - batch.sets.Keys));
    }

    /** What a batch means for a key: the set that it has now, or nothing. */
    ghost function EventOf(batch: Batch, key: ResourceKey, pruned: bool): Event
      requires batch.Valid()
      reads batch, batch.Repr
    {
      if key in batch.sets then Sample(batch.sets[key].View()) else Absent(pruned)
    }

    method PruneIfDue(batch: Batch, now: int, later: int) returns (pruned: bool)
      modifies this`previousMetricSets, this`lastPruneTime
      ensures pruned <==> old(lastPruneTime) < now - cachePruneInterval
      ensures lastPruneTime == if pruned then later else old(lastPruneTime)
      ensures previousMetricSets == if pruned then old(previousMetricSets) - (old(previousMetricSets).Keys - batch.sets.Keys) else old(previousMetricSets)
      ensures forall k :: CachedAt(Cache(), k) == if pruned && k !in batch.sets then None else CachedAt(old(Cache()), k)
    {
      pruned := lastPruneTime < now - cachePruneInterval;
      if pruned {
        Prune(batch);
        lastPruneTime := later;
      }
    }

    /** Now and later are the times that are read before and after pruning. */
    method Process(batch: Batch, now: int, later: int) returns (pruned: bool)
      requires Ready(batch)
      modifies this`previousMetricSets, this`lastPruneTime, batch.Repr
      ensures pruned <==> old(lastPruneTime) < now - cachePruneInterval
      ensures lastPruneTime == if pruned then later else old(lastPruneTime)
      ensures RatedSoFar(batch, old(Cache()), old(batch.Contents()), batch.sets.Keys)
      ensures forall k :: CachedAt(Cache(), k) == After(CachedAt(old(Cache()), k), EventOf(batch, k, pruned))
      ensures forall k :: k in previousMetricSets ==> (k in batch.sets && previousMetricSets[k] == batch.sets[k])
                                                      || (k in old(previousMetricSets) && previousMetricSets[k] == old(previousMetricSets)[k])
      ensures pruned ==> previousMetricSets.Keys <= batch.sets.Keys
    {
      RateAndKeep(batch);
      ghost var kept := Cache();
      pruned := PruneIfDue(batch, now, later);
      forall k ensures CachedAt(Cache(), k) == After(CachedAt(old(Cache()), k), EventOf(batch, k, pruned)) {
        assert CachedAt(Cache(), k) == if pruned && k !in batch.sets then None else CachedAt(kept, k);
      }
    }
  }
}
