/** SumCountAggregator.Process, which changes the sets of a batch in place. */
module SumCountAggregators {
  import opened Options
  import opened MapOrders
  import opened ResourceKeys
  import opened MetricSets
  import opened RollUps

  /** aggregate: the member's metrics are added to the group's, until two types of one metric meet. */
  method Aggregate(src: MetricSet, dst: MetricSet, names: seq<string>) returns (ok: bool)
    requires src != dst
    modifies dst`values
    ensures var r := SumInto(src.values, old(dst.values), names, |names|);
      ok == r.Some? && (ok ==> dst.values == r.value)
  {
    for i := 0 to |names|
      invariant SumInto(src.values, old(dst.values), names, i) == Some(dst.values)
    {
      var name := names[i];
      if name in src.values {
        var aggregated := src.values[name];
        if name in dst.values {
          aggregated := dst.values[name];
          if aggregated.valueType != src.values[name].valueType {
            SumIntoStaysNone(src.values, old(dst.values), names, i + 1, |names|);
            return false;
          }
          aggregated := Plus(aggregated, src.values[name]);
        }
        dst.values := dst.values[name := aggregated];
      }
    }
    return true;
  }

  lemma {:induction false} SumIntoStaysNone(src: map<string, Value>, dst: map<string, Value>, names: seq<string>, i: nat, n: nat)
    requires i <= n <= |names| && SumInto(src, dst, names, i) == None
    ensures SumInto(src, dst, names, n) == None
    decreases n
  {
    if i < n {
      SumIntoStaysNone(src, dst, names, i, n - 1);
    }
  }

  /** aggregateCount. */
  method AggregateCount(src: MetricSet, dst: MetricSet, name: string)
    requires src != dst
    modifies dst`values
    ensures dst.values == Counted(src.values, old(dst.values), name)
  {
    var count := 0;
    if name in src.values {
      count := count + src.values[name].intValue;
    } else {
      count := 1;
    }
    var total := IntValue(count);
    if name in dst.values {
      total := dst.values[name];
      total := total.(intValue := total.intValue + count);
    }
    dst.values := dst.values[name := total];
  }

  /** The loop body: the member at k is added to its group, whose set is made when it is missing. */
  method VisitSet(batch: Batch, spec: AggregateSpec, k: ResourceKey) returns (ok: bool, made: Option<ResourceKey>)
    requires batch.Valid() && KeysAgree(batch.Contents()) && Sensible(spec) && k in batch.sets
    modifies batch`sets, batch`Repr, batch.Repr
    ensures batch.Valid() && fresh(batch.Repr - old(batch.Repr))
    ensures old(batch.sets.Keys) <= batch.sets.Keys
    ensures var r := Visit(spec, old(batch.Contents()), k);
      ok == r.Some? && (ok ==> batch.Contents() == r.value)
    ensures batch.sets.Keys == old(batch.sets.Keys) + (if made.Some? then {made.value} else {})
    ensures made.Some? ==> made.value !in old(batch.sets) && IsGroupKey(spec.grouping, made.value)
    ensures IsGroupKey(spec.grouping, k) ==> made == None
  {
    ghost var before := batch.Contents();
    var src := batch.sets[k];
    var v := src.View();
    assert KeyAgrees(k, before[k]);
    made := None;
    if !IsPartOfGroup(spec.members, v) {
      return true, None;
    }
    var g := GroupKey(spec.grouping, v);
    if g == None {
      return true, None;
    }
    ok, made := MergeInto(batch, spec, k, g.value);
  }

  /** Group: the batch's set at g, or a new one. */
  method GroupSet(batch: Batch, spec: AggregateSpec, src: MetricSet, g: ResourceKey) returns (dst: MetricSet, made: Option<ResourceKey>)
    ensures g in batch.sets ==> dst == batch.sets[g] && made == None
    ensures g !in batch.sets ==> fresh(dst) && dst.View() == NewGroup(spec.grouping, src.View()) && made == Some(g)
  {
    if g in batch.sets {
      dst, made := batch.sets[g], None;
    } else {
      dst := new MetricSet(NewGroup(spec.grouping, src.View()));
      made := Some(g);
    }
  }

  method AddMember(spec: AggregateSpec, src: MetricSet, dst: MetricSet) returns (ok: bool)
    requires src != dst
    modifies dst`values
    ensures var r := Merged(spec, src.values, old(dst.values));
      ok == r.Some? && (ok ==> dst.View() == old(dst.View()).(values := r.value))
  {
    AggregateCount(src, dst, spec.countMetric);
    ok := Aggregate(src, dst, spec.sumMetrics);
  }

  /** The member at k is added to the group at g. */
  method MergeInto(batch: Batch, spec: AggregateSpec, k: ResourceKey, g: ResourceKey) returns (ok: bool, made: Option<ResourceKey>)
    requires batch.Valid() && k in batch.sets && g != k
    modifies batch`sets, batch`Repr, batch.Repr
    ensures batch.Valid() && fresh(batch.Repr - old(batch.Repr))
    ensures var before := old(batch.Contents());
      var dst := if g in before then before[g] else NewGroup(spec.grouping, before[k]);
      var r := Merged(spec, before[k].values, dst.values);
      ok == r.Some? && (ok ==> batch.Contents() == before[g := dst.(values := r.value)])
    ensures batch.sets.Keys == old(batch.sets.Keys) + (if made.Some? then {made.value} else {})
    ensures made.Some? ==> made.value !in old(batch.sets) && made.value == g
  {
    ghost var before := batch.Contents();
    var dst;
    dst, made := GroupSet(batch, spec, batch.sets[k], g);
    assert forall j :: j in batch.sets && j != g ==> batch.sets[j] != dst;
    ok := AddMember(spec, batch.sets[k], dst);
    if ok {
      OthersKept(batch.Contents(), before, g, dst.View());
      batch.Put(g, dst);
    } else {
      made := None;
    }
  }

  lemma OthersKept(m: map<ResourceKey, SetView>, before: map<ResourceKey, SetView>, g: ResourceKey, v: SetView)
    requires m.Keys == before.Keys && forall j :: j in m && j != g ==> m[j] == before[j]
    ensures m[g := v] == before[g := v]
  {
  }

  method VisitNext(batch: Batch, spec: AggregateSpec, k: ResourceKey,
                   ghost start: map<ResourceKey, SetView>, ghost order: seq<ResourceKey>)
    returns (ok: bool, made: Option<ResourceKey>)
    requires batch.Valid() && KeysAgree(batch.Contents()) && Sensible(spec) && k in batch.sets
    requires Run(spec, start, order, |order|) == Some(batch.Contents())
    modifies batch`sets, batch`Repr, batch.Repr
    ensures batch.Valid() && fresh(batch.Repr - old(batch.Repr))
    ensures ok ==> KeysAgree(batch.Contents())
    ensures Run(spec, start, order + [k], |order + [k]|) == if ok then Some(batch.Contents()) else None
    ensures batch.sets.Keys == old(batch.sets.Keys) + (if made.Some? then {made.value} else {})
    ensures made.Some? ==> made.value !in old(batch.sets) && IsGroupKey(spec.grouping, made.value)
    ensures IsGroupKey(spec.grouping, k) ==> made == None
  {
    ghost var before := batch.Contents();
    VisitKeepsKeys(spec, before, k);
    ok, made := VisitSet(batch, spec, k);
    if ok {
      RunExtends(spec, start, order, k, before, batch.Contents());
    } else {
      RunStops(spec, start, order, k, before);
    }
  }

  /** One aggregation pass. Sets inserted on the way may or may not be visited, as with Go maps. */
  method ProcessSpec(batch: Batch, spec: AggregateSpec) returns (ok: bool, ghost order: seq<ResourceKey>)
    requires batch.Valid() && KeysAgree(batch.Contents()) && Sensible(spec)
    modifies batch`sets, batch`Repr, batch.Repr
    ensures batch.Valid() && fresh(batch.Repr - old(batch.Repr))
    ensures Visits(if ok then old(batch.sets.Keys) else {}, order)
    ensures var r := Run(spec, old(batch.Contents()), order, |order|);
      ok == r.Some? && (ok ==> batch.Contents() == r.value && KeysAgree(r.value))
  {
    order := [];
    var unvisited := batch.sets.Keys;
    var inserted: set<ResourceKey> := {};
    ghost var start := batch.Contents();
    assert Run(spec, start, order, 0) == Some(start);
    while unvisited + inserted != {}
      invariant batch.Valid() && fresh(batch.Repr - old(batch.Repr))
      invariant KeysAgree(batch.Contents())
      invariant Run(spec, start, order, |order|) == Some(batch.Contents())
      invariant Pending(spec.grouping, order, start.Keys, unvisited, inserted, batch.sets.Keys)
      decreases unvisited, inserted
    {
      var k :| k in unvisited + inserted;
      ghost var keys := batch.sets.Keys;
      var made;
      ok, made := VisitNext(batch, spec, k, start, order);
      if !ok {
        VisitedOnce(spec.grouping, order, start.Keys, unvisited, inserted, keys, k);
        order := order + [k];
        return;
      }
      PendingStep(spec.grouping, order, start.Keys, unvisited, inserted, keys, k, made);
      order := order + [k];
      var seen: bool := *;
      inserted := inserted - {k};
      if k in unvisited {
        unvisited := unvisited - {k};
        inserted := if made.Some? && seen then inserted + {made.value} else inserted;
      }
    }
    ok := true;
  }

  method ProcessNext(batch: Batch, specs: seq<AggregateSpec>, i: nat, ghost trail: seq<map<ResourceKey, SetView>>) returns (ok: bool)
    requires batch.Valid() && KeysAgree(batch.Contents()) && i < |specs| && Sensible(specs[i])
    requires Trail(specs, trail) && |trail| == i + 1 && trail[i] == batch.Contents()
    modifies batch`sets, batch`Repr, batch.Repr
    ensures batch.Valid() && fresh(batch.Repr - old(batch.Repr))
    ensures ok ==> Trail(specs, trail + [batch.Contents()]) && KeysAgree(batch.Contents())
  {
    ghost var order;
    ok, order := ProcessSpec(batch, specs[i]);
    if ok {
      PassedIn(specs[i], trail[i], batch.Contents(), order);
      TrailExtends(specs, trail, batch.Contents());
    }
  }

  class SumCountAggregator {
    const specs: seq<AggregateSpec>

    constructor (specs: seq<AggregateSpec>)
      ensures this.specs == specs
    {
      this.specs := specs;
    }

    /** One pass after another; a pass that fails ends the processing. */
    method Process(batch: Batch) returns (ok: bool)
      requires batch.Valid() && KeysAgree(batch.Contents())
      requires forall i :: 0 <= i < |specs| ==> Sensible(specs[i])
      modifies batch`sets, batch`Repr, batch.Repr
      ensures batch.Valid() && fresh(batch.Repr - old(batch.Repr))
      ensures ok ==> PassedAll(specs, old(batch.Contents()), batch.Contents()) && KeysAgree(batch.Contents())
    {
      ghost var trail := [batch.Contents()];
      for i := 0 to |specs|
        invariant batch.Valid() && fresh(batch.Repr - old(batch.Repr)) && KeysAgree(batch.Contents())
        invariant Trail(specs, trail) && |trail| == i + 1 && trail[0] == old(batch.Contents()) && trail[i] == batch.Contents()
      {
        ok := ProcessNext(batch, specs, i, trail);
        if !ok {
          return;
        }
        trail := trail + [batch.Contents()];
      }
      return true;
    }
  }

  lemma {:induction false} PassedIn(spec: AggregateSpec, s: map<ResourceKey, SetView>, s1: map<ResourceKey, SetView>,
                                    order: seq<ResourceKey>)
    requires Visits(s.Keys, order) && Run(spec, s, order, |order|) == Some(s1)
    ensures Passed(spec, s, s1)
  {
  }

  lemma TrailExtends(specs: seq<AggregateSpec>, trail: seq<map<ResourceKey, SetView>>, s1: map<ResourceKey, SetView>)
    requires Trail(specs, trail) && |trail| <= |specs| && Passed(specs[|trail| - 1], trail[|trail| - 1], s1)
    ensures Trail(specs, trail + [s1])
  {
    var next := trail + [s1];
    forall i | 0 <= i < |next| - 1 ensures Step(specs, next, i) {
      if i < |trail| - 1 {
        assert Step(specs, trail, i);
      }
    }
  }

  /** Every key is either visited or still to be visited, and none is visited twice. */
  ghost predicate Pending(g: Grouping, order: seq<ResourceKey>, start: set<ResourceKey>, unvisited: set<ResourceKey>,
                          inserted: set<ResourceKey>, keys: set<ResourceKey>)
  {
    && Once(order)
    && unvisited + inserted <= keys && (forall k :: k in inserted ==> IsGroupKey(g, k))
    && (forall k :: k in order ==> k in keys && k !in unvisited && k !in inserted)
    && (forall k :: k in start ==> k in order || k in unvisited)
  }

  lemma PendingStep(g: Grouping, order: seq<ResourceKey>, start: set<ResourceKey>, unvisited: set<ResourceKey>,
                    inserted: set<ResourceKey>, keys: set<ResourceKey>, k: ResourceKey, made: Option<ResourceKey>)
    requires Pending(g, order, start, unvisited, inserted, keys) && k in unvisited + inserted
    requires made.Some? ==> made.value !in keys && IsGroupKey(g, made.value)
    ensures var keys1 := keys + (if made.Some? then {made.value} else {});
      && Pending(g, order + [k], start, unvisited - {k}, inserted - {k}, keys1)
      && (k !in unvisited ==> Pending(g, order + [k], start, unvisited, inserted - {k}, keys1))
      && (made.Some? ==> Pending(g, order + [k], start, unvisited - {k}, inserted - {k} + {made.value}, keys1))
  {
    forall j | j in start ensures j in order + [k] || j in unvisited - {k} {
      assert j in order || j in unvisited;
    }
  }

  lemma VisitedOnce(g: Grouping, order: seq<ResourceKey>, start: set<ResourceKey>, unvisited: set<ResourceKey>,
                    inserted: set<ResourceKey>, keys: set<ResourceKey>, k: ResourceKey)
    requires Pending(g, order, start, unvisited, inserted, keys) && k in unvisited + inserted
    ensures Visits({}, order + [k])
  {
    PendingStep(g, order, start, unvisited, inserted, keys, k, None);
  }

  lemma {:induction false} RunExtends(spec: AggregateSpec, sets: map<ResourceKey, SetView>, order: seq<ResourceKey>, k: ResourceKey,
                                      before: map<ResourceKey, SetView>, after: map<ResourceKey, SetView>)
    requires Run(spec, sets, order, |order|) == Some(before) && Visit(spec, before, k) == Some(after)
    ensures Run(spec, sets, order + [k], |order + [k]|) == Some(after)
  {
    RunPrefix(spec, sets, order, k, |order|);
  }

  lemma {:induction false} RunStops(spec: AggregateSpec, sets: map<ResourceKey, SetView>, order: seq<ResourceKey>, k: ResourceKey,
                                    before: map<ResourceKey, SetView>)
    requires Run(spec, sets, order, |order|) == Some(before) && Visit(spec, before, k) == None
    ensures Run(spec, sets, order + [k], |order + [k]|) == None
  {
    RunPrefix(spec, sets, order, k, |order|);
  }

  lemma {:induction false} RunPrefix(spec: AggregateSpec, sets: map<ResourceKey, SetView>, order: seq<ResourceKey>, k: ResourceKey, n: nat)
    requires n <= |order|
    ensures Run(spec, sets, order + [k], n) == Run(spec, sets, order, n)
  {
    if n > 0 {
      RunPrefix(spec, sets, order, k, n - 1);
    }
  }
}
