/** Metric sets and batches, internal/metrics/set.go, batch.go, types.go and labels.go. */
module MetricSets {
  import opened MapOrders
  import opened ResourceKeys
  import opened WeightedSums

  datatype ValueType = Int64 | Float

  datatype Value = Value(valueType: ValueType, intValue: int, floatValue: real)

  datatype LabeledValue = LabeledValue(name: string, labels: map<string, string>, value: Value)

  /** What a metric set holds at one moment. */
  datatype SetView = SetView(
    values: map<string, Value>,
    labels: map<string, string>,
    labeledValues: seq<LabeledValue>,
    collectionStartTime: int,
    entityCreateTime: int,
    scrapeTime: int)

  const ZERO_TIME: int := 0

  const TYPE := "type"
  const TYPE_POD := "pod"
  const TYPE_POD_CONTAINER := "pod_container"
  const TYPE_NAMESPACE := "ns"
  const TYPE_CLUSTER := "cluster"
  const NAMESPACE_NAME := "namespace_name"
  const NAMESPACE_ID := "namespace_id"
  const POD_NAME := "pod_name"
  const POD_ID := "pod_id"

  function IntValue(i: int): Value { Value(Int64, i, 0.0) }

  /** Reading a Go map of strings: the entry, or the empty string. */
  function Get(labels: map<string, string>, key: string): string {
    if key in labels then labels[key] else ""
  }

  function TypeOf(v: SetView): string { Get(v.labels, TYPE) }

  function NewView(values: map<string, Value>, labels: map<string, string>): SetView {
    SetView(values, labels, [], ZERO_TIME, ZERO_TIME, ZERO_TIME)
  }

  /** The labels that go with a metric, FindLabels: those of the set win over those of the value. */
  function FindLabels(v: SetView, name: string): map<string, string> {
    if name in v.values then v.labels else LabelsFrom(v, name, 0)
  }

  function LabelsFrom(v: SetView, name: string, i: nat): map<string, string>
    requires i <= |v.labeledValues|
    decreases |v.labeledValues| - i
  {
    if i == |v.labeledValues| then map[]
    else if v.labeledValues[i].name == name then v.labeledValues[i].labels + v.labels
    else LabelsFrom(v, name, i + 1)
  }

  class MetricSet {
    var values: map<string, Value>
    var labels: map<string, string>
    var labeledValues: seq<LabeledValue>
    var collectionStartTime: int
    var entityCreateTime: int
    var scrapeTime: int

    constructor (v: SetView)
      ensures View() == v
    {
      values, labels, labeledValues := v.values, v.labels, v.labeledValues;
      collectionStartTime, entityCreateTime, scrapeTime := v.collectionStartTime, v.entityCreateTime, v.scrapeTime;
    }

    function View(): SetView
      reads this
    {
      SetView(values, labels, labeledValues, collectionStartTime, entityCreateTime, scrapeTime)
    }
  }

  /** No set stands under two keys. */
  ghost predicate Separate(sets: map<ResourceKey, MetricSet>) {
    forall j, k :: j in sets && k in sets && sets[j] == sets[k] ==> j == k
  }

  lemma SameMap<V>(m: map<ResourceKey, V>, m1: map<ResourceKey, V>)
    requires forall k :: (k in m <==> k in m1) && (k in m ==> m[k] == m1[k])
    ensures m == m1
  {
  }

  /** A map that differs from another at one key only is its update. */
  lemma IsUpdate<V>(m: map<ResourceKey, V>, m1: map<ResourceKey, V>, k: ResourceKey, v: V)
    requires m1.Keys == m.Keys + {k} && m1[k] == v && forall j :: j in m && j != k ==> m1[j] == m[j]
    ensures m1 == m[k := v]
  {
  }

  class Batch {
    var sets: map<ResourceKey, MetricSet>
    var timestamp: int
    ghost var Repr: set<MetricSet>

    constructor (sets: map<ResourceKey, MetricSet>, timestamp: int)
      requires Separate(sets)
      ensures Valid() && Repr == sets.Values
      ensures this.sets == sets && this.timestamp == timestamp
      ensures sets == map[] ==> Contents() == map[]
    {
      this.sets, this.timestamp := sets, timestamp;
      Repr := sets.Values;
    }

    ghost predicate Valid()
      reads this
    {
      Separate(sets) && forall k :: k in sets ==> sets[k] in Repr
    }

    ghost function Contents(): map<ResourceKey, SetView>
      requires Valid()
      reads this, Repr
    {
      map k | k in sets :: sets[k].View()
    }

    /** batch.Sets[k] = set, for a set that stands under no other key. */
    method Put(k: ResourceKey, set0: MetricSet)
      requires Valid() && forall j :: j in sets && sets[j] == set0 ==> j == k
      modifies `sets, `Repr
      ensures Valid() && Repr == old(Repr) + {set0} && sets == old(sets)[k := set0]
      ensures Contents() == old(Contents())[k := set0.View()]
    {
      ghost var before := Contents();
      sets := sets[k := set0];
      Repr := Repr + {set0};
      assert forall j :: j in before && j != k ==> sets[j].View() == before[j];
      IsUpdate(before, Contents(), k, set0.View());
    }

    /** for k, v := range newSets { batch.Sets[k] = v } */
    method PutAll(newSets: Batch)
      requires Disjoint(this, newSets)
      modifies `sets, `Repr
      ensures Valid() && Repr == old(Repr) + newSets.Repr
      ensures Contents() == old(Contents()) + newSets.Contents()
    {
      var unvisited := newSets.sets.Keys;
      ghost var b := Contents();
      while unvisited != {}
        invariant unvisited <= newSets.sets.Keys && Valid() && Repr <= old(Repr) + newSets.Repr
        invariant sets == old(sets) + (newSets.sets - unvisited)
        decreases unvisited
      {
        var k :| k in unvisited;
        OneMore(old(sets), newSets.sets, unvisited, k);
        Put(k, newSets.sets[k]);
        unvisited := unvisited - {k};
      }
      Repr := old(Repr) + newSets.Repr;
      assert sets == old(sets) + newSets.sets;
      ContentsTogether(newSets, old(sets), b);
    }

    lemma ContentsTogether(newSets: Batch, were: map<ResourceKey, MetricSet>, b: map<ResourceKey, SetView>)
      requires Valid() && newSets.Valid() && sets == were + newSets.sets
      requires b.Keys == were.Keys && forall k :: k in were ==> were[k].View() == b[k]
      ensures Contents() == b + newSets.Contents()
    {
      SameMap(Contents(), b + newSets.Contents());
    }
  }

  lemma OneMore(a: map<ResourceKey, MetricSet>, b: map<ResourceKey, MetricSet>, rest: set<ResourceKey>, k: ResourceKey)
    requires k in rest && k in b
    ensures a + (b - (rest - {k})) == (a + (b - rest))[k := b[k]]
  {
  }

  /** Two batches that share no set. */
  ghost predicate Disjoint(batch: Batch, other: Batch)
    reads batch, other
  {
    batch != other && batch.Valid() && other.Valid() && batch.Repr !! other.Repr
  }

  // ---- Sums -----------------------------------------------------------------------------------------

  /** What a value amounts to, whichever of its fields holds it. */
  function Amount(v: Value): real {
    if v.valueType == Int64 then v.intValue as real else v.floatValue
  }

  function AmountOf(v: SetView, name: string): real {
    if name in v.values then Amount(v.values[name]) else 0.0
  }

  ghost function Itself(k: ResourceKey, c: real): real { c }

  /** The sum of the entries of a map from keys. */
  ghost function Total(m: map<ResourceKey, real>): real {
    WeightedSum(m, Itself)
  }

  lemma TotalInsert(m: map<ResourceKey, real>, k: ResourceKey, c: real)
    requires k !in m
    ensures Total(m[k := c]) == Total(m) + c
  {
    WeightedSumRemove(m[k := c], Itself, k);
    assert m[k := c] - {k} == m;
  }
}
