/**
 * Summing sets into the sets of their groups, plugins/processors/sum_count_aggregator.go and helper.go,
 * with the groups of namespace_aggregator.go and cluster_aggregator.go.
 */
module RollUps {
  import opened Options
  import opened MapOrders
  import opened ResourceKeys
  import opened MetricSets
  import opened WeightedSums

  datatype Membership = AggregatablePod | AggregatablePodContainer | Namespaces

  datatype Grouping = ByNamespace | WholeCluster

  datatype AggregateSpec = AggregateSpec(sumMetrics: seq<string>, countMetric: string, members: Membership, grouping: Grouping)

  const POD_PHASE := "status/phase"
  const CONTAINER_STATUS := "status"
  const POD_COUNT := "pod/count"
  const POD_CONTAINER_COUNT := "pod_container/count"
  const RUNNING := "Running"

  predicate IsPartOfGroup(m: Membership, v: SetView) {
    match m
    case AggregatablePod => TypeOf(v) == TYPE_POD && Get(FindLabels(v, POD_PHASE), "phase") == RUNNING
    case AggregatablePodContainer => TypeOf(v) == TYPE_POD_CONTAINER && Get(FindLabels(v, CONTAINER_STATUS), "state") != "terminated"
    case Namespaces => TypeOf(v) == TYPE_NAMESPACE
  }

  // ---- Who the members are, said of a set's own labels and values -------------------------------------

  /** Of the labelled values, the one at i is the first of a metric. */
  ghost predicate FirstOf(values: seq<LabeledValue>, metric: string, i: int) {
    0 <= i < |values| && values[i].name == metric && forall j :: 0 <= j < i ==> values[j].name != metric
  }

  /**
   * A metric of the set goes with a label of this value: the metric has a plain value and the set has the
   * label, or the first labelled value of the metric has it, where a label of the set comes before its own.
   */
  ghost predicate Shows(v: SetView, metric: string, name: string, value: string) {
    if name in v.labels
    then v.labels[name] == value && (metric in v.values || exists i :: FirstOf(v.labeledValues, metric, i))
    else metric !in v.values && exists i :: FirstOf(v.labeledValues, metric, i) && HasLabel(v.labeledValues[i].labels, name, value)
  }

  predicate HasLabel(labels: map<string, string>, name: string, value: string) {
    name in labels && labels[name] == value
  }

  ghost predicate RunningPod(v: SetView) {
    HasLabel(v.labels, "type", "pod") && Shows(v, "status/phase", "phase", "Running")
  }

  /** The count of containers leaves out those that a label "state" says have terminated. */
  ghost predicate LiveContainer(v: SetView) {
    HasLabel(v.labels, "type", "pod_container") && !Shows(v, "status", "state", "terminated")
  }

  lemma {:induction false} LabelsFromFirst(v: SetView, metric: string, i: nat, k: int)
    requires i <= |v.labeledValues| && forall j :: 0 <= j < i ==> v.labeledValues[j].name != metric
    requires FirstOf(v.labeledValues, metric, k) || (k == |v.labeledValues| && forall j :: 0 <= j < |v.labeledValues| ==> v.labeledValues[j].name != metric)
    ensures LabelsFrom(v, metric, i) == if k < |v.labeledValues| then v.labeledValues[k].labels + v.labels else map[]
    decreases |v.labeledValues| - i
  {
    if i < |v.labeledValues| && v.labeledValues[i].name != metric {
      LabelsFromFirst(v, metric, i + 1, k);
    }
  }

  lemma {:induction false} FirstIndex(values: seq<LabeledValue>, metric: string, n: nat) returns (k: int)
    requires n <= |values| && forall j :: 0 <= j < n ==> values[j].name != metric
    ensures FirstOf(values, metric, k) || (k == |values| && forall j :: 0 <= j < |values| ==> values[j].name != metric)
    decreases |values| - n
  {
    if n == |values| || values[n].name == metric {
      k := n;
    } else {
      k := FirstIndex(values, metric, n + 1);
    }
  }

  lemma FoundShows(v: SetView, metric: string, name: string, value: string)
    requires value != ""
    ensures Get(FindLabels(v, metric), name) == value <==> Shows(v, metric, name, value)
  {
    var k := FirstIndex(v.labeledValues, metric, 0);
    LabelsFromFirst(v, metric, 0, k);
    if k < |v.labeledValues| {
      assert forall i :: FirstOf(v.labeledValues, metric, i) ==> i == k;
    }
  }

  /** These are the members of the groups. */
  lemma MembersAre(v: SetView)
    ensures IsPartOfGroup(AggregatablePod, v) <==> RunningPod(v)
    ensures IsPartOfGroup(AggregatablePodContainer, v) <==> LiveContainer(v)
    ensures IsPartOfGroup(Namespaces, v) <==> HasLabel(v.labels, "type", "ns")
  {
    FoundShows(v, "status/phase", "phase", "Running");
    FoundShows(v, "status", "state", "terminated");
  }

  /** The key of the group that a member belongs to; a pod or container without a namespace has none. */
  function GroupKey(g: Grouping, v: SetView): Option<ResourceKey> {
    match g
    case ByNamespace => if NAMESPACE_NAME in v.labels then Some(NamespaceKey(v.labels[NAMESPACE_NAME])) else None
    case WholeCluster => Some(ClusterKey)
  }

  /** The set made for a group on its first member. */
  function NewGroup(g: Grouping, v: SetView): SetView {
    match g
    case ByNamespace =>
      NewView(map[], map[TYPE := TYPE_NAMESPACE, NAMESPACE_NAME := Get(v.labels, NAMESPACE_NAME), NAMESPACE_ID := Get(v.labels, NAMESPACE_ID)])
    case WholeCluster => NewView(map[], map[TYPE := TYPE_CLUSTER])
  }

  predicate IsGroupKey(g: Grouping, k: ResourceKey) {
    match g
    case ByNamespace => k.NamespaceKey?
    case WholeCluster => k.ClusterKey?
  }

  /** Pods and containers are grouped by namespace, namespaces into the cluster. */
  predicate Sensible(spec: AggregateSpec) {
    spec.members == Namespaces <==> spec.grouping == WholeCluster
  }

  /** Every source gives a set of these types the key that goes with it. */
  predicate KeysAgree(sets: map<ResourceKey, SetView>) {
    forall k :: k in sets ==> KeyAgrees(k, sets[k])
  }

  predicate KeyAgrees(k: ResourceKey, v: SetView) {
    && (k.PodKey? <==> TypeOf(v) == TYPE_POD)
    && (k.PodContainerKey? <==> TypeOf(v) == TYPE_POD_CONTAINER)
    && (k.NamespaceKey? <==> TypeOf(v) == TYPE_NAMESPACE)
    && (k.ClusterKey? <==> TypeOf(v) == TYPE_CLUSTER)
  }

  // ---- What one member adds to its group --------------------------------------------------------

  /** a += b, on the field that a's type selects. */
  function Plus(a: Value, b: Value): Value {
    if a.valueType == Int64 then a.(intValue := a.intValue + b.intValue) else a.(floatValue := a.floatValue + b.floatValue)
  }

  /** The group's values after the first n metrics; None when two types of one metric meet. */
  function SumInto(src: map<string, Value>, dst: map<string, Value>, names: seq<string>, n: nat): Option<map<string, Value>>
    requires n <= |names|
  {
    if n == 0 then Some(dst)
    else
      match SumInto(src, dst, names, n - 1)
      case None => None
      case Some(d) => SumOne(src, d, names[n - 1])
  }

  function SumOne(src: map<string, Value>, d: map<string, Value>, name: string): Option<map<string, Value>> {
    if name !in src then Some(d)
    else if name !in d then Some(d[name := src[name]])
    else if d[name].valueType != src[name].valueType then None
    else Some(d[name := Plus(d[name], src[name])])
  }

  /** How many resources a member stands for: its own count, or one. */
  function CountIn(src: map<string, Value>, name: string): int {
    if name in src then src[name].intValue else 1
  }

  function Counted(src: map<string, Value>, dst: map<string, Value>, name: string): map<string, Value> {
    if name in dst then dst[name := dst[name].(intValue := dst[name].intValue + CountIn(src, name))]
    else dst[name := IntValue(CountIn(src, name))]
  }

  function Merged(spec: AggregateSpec, src: map<string, Value>, dst: map<string, Value>): Option<map<string, Value>> {
    SumInto(src, Counted(src, dst, spec.countMetric), spec.sumMetrics, |spec.sumMetrics|)
  }

  // ---- One pass over a batch ---------------------------------------------------------------------

  /** Visiting the set at k. */
  function Visit(spec: AggregateSpec, sets: map<ResourceKey, SetView>, k: ResourceKey): Option<map<ResourceKey, SetView>> {
    if k !in sets || !IsPartOfGroup(spec.members, sets[k]) then Some(sets)
    else
      match GroupKey(spec.grouping, sets[k])
      case None => Some(sets)
      case Some(g) =>
        var dst := if g in sets then sets[g] else NewGroup(spec.grouping, sets[k]);
        match Merged(spec, sets[k].values, dst.values)
        case None => None
        case Some(values) => Some(sets[g := dst.(values := values)])
  }

  /** The batch after visiting the first n keys of an order; None when a visit fails. */
  ghost function Run(spec: AggregateSpec, sets: map<ResourceKey, SetView>, order: seq<ResourceKey>,
                     n: nat): Option<map<ResourceKey, SetView>>
    requires n <= |order|
  {
    if n == 0 then Some(sets)
    else
      match Run(spec, sets, order, n - 1)
      case None => None
      case Some(s) => Visit(spec, s, order[n - 1])
  }

  /**
   * The orders in which a Go map with these keys may be ranged over: every key once, and some keys
   * inserted on the way.
   */
  ghost predicate Visits(keys: set<ResourceKey>, order: seq<ResourceKey>) {
    Once(order) && forall k :: k in keys ==> k in order
  }

  /** s1 is what one pass may make of s, in some order. */
  ghost predicate Passed(spec: AggregateSpec, s: map<ResourceKey, SetView>, s1: map<ResourceKey, SetView>) {
    exists order :: Visits(s.Keys, order) && Run(spec, s, order, |order|) == Some(s1)
  }

  /** The batches between successive passes. */
  ghost predicate Trail(specs: seq<AggregateSpec>, trail: seq<map<ResourceKey, SetView>>) {
    && 0 < |trail| <= |specs| + 1
    && forall i :: 0 <= i < |trail| - 1 ==> Step(specs, trail, i)
  }

  ghost predicate Step(specs: seq<AggregateSpec>, trail: seq<map<ResourceKey, SetView>>, i: nat) {
    i < |specs| && i + 1 < |trail| && Passed(specs[i], trail[i], trail[i + 1])
  }

  /** s1 is what all the passes may make of s. */
  ghost predicate PassedAll(specs: seq<AggregateSpec>, s: map<ResourceKey, SetView>, s1: map<ResourceKey, SetView>) {
    exists trail :: Trail(specs, trail) && |trail| == |specs| + 1 && trail[0] == s && trail[|specs|] == s1
  }

  /** A visit keeps the sets of member types and adds at most the group's key. */
  lemma VisitKeepsKeys(spec: AggregateSpec, sets: map<ResourceKey, SetView>, k: ResourceKey)
    requires KeysAgree(sets) && Sensible(spec)
    ensures var r := Visit(spec, sets, k);
      r.Some? ==> KeysAgree(r.value) && sets.Keys <= r.value.Keys
                  && (forall j :: j in r.value && (j !in sets || r.value[j] != sets[j]) ==> IsGroupKey(spec.grouping, j))
                  && (IsGroupKey(spec.grouping, k) ==> r.value == sets)
  {
  }
}
