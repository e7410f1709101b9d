/** The namespace roll-up followed by the cluster roll-up, cmd/wavefront-collector/main.go. */
module ClusterSums {
  import opened Options
  import opened MapOrders
  import opened ResourceKeys
  import opened MetricSets
  import opened RollUps
  import opened RollUpSums
  import opened WeightedSums

  function PodsByNamespace(metrics: seq<string>): AggregateSpec {
    AggregateSpec(metrics, POD_COUNT, AggregatablePod, ByNamespace)
  }

  function ContainersByNamespace(): AggregateSpec {
    AggregateSpec([], POD_CONTAINER_COUNT, AggregatablePodContainer, ByNamespace)
  }

  function NamespacesOfCluster(metrics: seq<string>): AggregateSpec {
    AggregateSpec(metrics, POD_COUNT, Namespaces, WholeCluster)
  }

  function ContainersOfCluster(): AggregateSpec {
    AggregateSpec([], POD_CONTAINER_COUNT, Namespaces, WholeCluster)
  }

  /** The passes of NewNamespaceAggregator and of NewClusterAggregator. */
  function NamespacePasses(metrics: seq<string>): seq<AggregateSpec> {
    [PodsByNamespace(metrics), ContainersByNamespace()]
  }

  function ClusterPasses(metrics: seq<string>): seq<AggregateSpec> {
    [NamespacesOfCluster(metrics), ContainersOfCluster()]
  }

  // ---- Sums over fibers ---------------------------------------------------------------------------

  /** The entries of m that belong to g. */
  function Fiber(m: map<ResourceKey, real>, of: map<ResourceKey, ResourceKey>, g: ResourceKey): map<ResourceKey, real> {
    map k | k in m && k in of && of[k] == g :: m[k]
  }

  ghost function FiberTotals(m: map<ResourceKey, real>, of: map<ResourceKey, ResourceKey>,
                             groups: set<ResourceKey>): map<ResourceKey, real> {
    map g | g in groups :: Total(Fiber(m, of, g))
  }

  lemma TotalAdd(m: map<ResourceKey, real>, k: ResourceKey, c: real)
    ensures Total(Deposit(m, k, c)) == Total(m) + c
  {
    assert Additive(Itself);
    WeightedSumDeposit(m, Itself, k, c);
  }

  /** Summing group by group gives the whole sum. */
  lemma {:induction false} FibersSum(m: map<ResourceKey, real>, of: map<ResourceKey, ResourceKey>, groups: set<ResourceKey>)
    requires forall k :: k in m ==> k in of && of[k] in groups
    ensures Total(FiberTotals(m, of, groups)) == Total(m)
    decreases |m|
  {
    if m == map[] {
      assert forall g :: Fiber(m, of, g) == map[];
      Zeros(FiberTotals(m, of, groups));
    } else {
      var k :| k in m;
      var m1 := m - {k};
      FibersSum(m1, of, groups);
      assert m == m1[k := m[k]];
      TotalInsert(m1, k, m[k]);
      FiberInsert(m1, of, groups, k, m[k]);
      TotalAdd(FiberTotals(m1, of, groups), of[k], m[k]);
    }
  }

  lemma FiberInsert(m: map<ResourceKey, real>, of: map<ResourceKey, ResourceKey>, groups: set<ResourceKey>, k: ResourceKey, c: real)
    requires k !in m && k in of && of[k] in groups
    ensures FiberTotals(m[k := c], of, groups) == Deposit(FiberTotals(m, of, groups), of[k], c)
  {
    var before, after := FiberTotals(m, of, groups), FiberTotals(m[k := c], of, groups);
    forall g | g in groups ensures after[g] == Deposit(before, of[k], c)[g] {
      FiberInsertAt(m, of, g, k, c);
    }
    SameMap(after, Deposit(before, of[k], c));
  }

  lemma FiberInsertAt(m: map<ResourceKey, real>, of: map<ResourceKey, ResourceKey>, g: ResourceKey, k: ResourceKey, c: real)
    requires k !in m && k in of
    ensures Total(Fiber(m[k := c], of, g)) == Total(Fiber(m, of, g)) + if g == of[k] then c else 0.0
  {
    var f, f1 := Fiber(m, of, g), Fiber(m[k := c], of, g);
    if g == of[k] {
      SameMap(f1, f[k := c]);
      TotalInsert(f, k, c);
    } else {
      SameMap(f1, f);
    }
  }

  lemma {:induction false} Zeros(m: map<ResourceKey, real>)
    requires forall k :: k in m ==> m[k] == 0.0
    ensures Total(m) == 0.0
    decreases |m|
  {
    if m != map[] {
      var k :| k in m;
      Zeros(m - {k});
      assert m == (m - {k})[k := 0.0];
      TotalInsert(m - {k}, k, 0.0);
    }
  }

  /** One more for each of some keys that had nothing. */
  lemma {:induction false} OnesSum(m: map<ResourceKey, real>, ones: set<ResourceKey>)
    requires forall k :: k in ones ==> k in m && m[k] == 0.0
    ensures Total(m + map k | k in ones :: 1.0) == Total(m) + |ones| as real
    decreases |ones|
  {
    if ones == {} {
      assert m + (map k | k in ones :: 1.0) == m;
    } else {
      var k :| k in ones;
      var rest := ones - {k};
      OnesSum(m, rest);
      var m1 := m + map j | j in rest :: 1.0;
      assert m + (map j | j in ones :: 1.0) == Deposit(m1, k, 1.0);
      TotalAdd(m1, k, 1.0);
    }
  }

  // ---- A pass for a metric, then one that only counts ------------------------------------------------

  /** The account of the first pass for group g, in a batch that later passes may have changed. */
  ghost predicate Settled(spec: AggregateSpec, s: Sets, s2: Sets, g: ResourceKey) {
    && (forall m :: m in spec.sumMetrics ==> MetricGrown(spec, s, s.Keys, s2, g, m))
    && IntIn(ValuesAt(s2, g), spec.countMetric) as real == IntIn(ValuesAt(s, g), spec.countMetric) as real + Total(Counts(spec, s, s.Keys, g))
    && (spec.countMetric in ValuesAt(s2, g) <==> spec.countMetric in ValuesAt(s, g) || exists k :: JoinerIn(spec, s, s.Keys, g, k))
  }

  lemma SecondPassKeeps(first: AggregateSpec, second: AggregateSpec, s: Sets, s1: Sets, s2: Sets, g: ResourceKey)
    requires Grown(first, s, s.Keys, s1) && Grown(second, s1, s1.Keys, s2)
    requires IsGroupKey(first.grouping, g) && IsGroupKey(second.grouping, g)
    requires second.sumMetrics == [] && second.countMetric !in first.sumMetrics && second.countMetric != first.countMetric
    ensures Settled(first, s, s2, g)
  {
    assert GroupGrown(first, s, s.Keys, s1, g);
    assert GroupGrown(second, s1, s1.Keys, s2, g);
    assert Others(second, ValuesAt(s1, g), ValuesAt(s2, g));
    forall m | m in first.sumMetrics ensures MetricGrown(first, s, s.Keys, s2, g, m) {
      assert MetricGrown(first, s, s.Keys, s1, g, m);
    }
  }

  // ---- Namespaces ------------------------------------------------------------------------------------

  predicate Fresh(s: Sets) {
    forall k :: k in s ==> !k.NamespaceKey? && !k.ClusterKey?
  }

  predicate MetricsOk(metrics: seq<string>) {
    Once(metrics) && POD_COUNT !in metrics && POD_CONTAINER_COUNT !in metrics
  }

  /** A running pod with a namespace label. */
  ghost predicate Placed(v: SetView) {
    RunningPod(v) && "namespace_name" in v.labels
  }

  ghost function PodAmounts(s: Sets, m: string): map<ResourceKey, real> {
    map k | k in s && Placed(s[k]) :: AmountOf(s[k], m)
  }

  /** What each pod counts for: its own count, or one. */
  ghost function PodCounts(s: Sets): map<ResourceKey, real> {
    map k | k in s && Placed(s[k]) :: (if "pod/count" in s[k].values then s[k].values["pod/count"].intValue else 1) as real
  }

  ghost function NamespaceOf(s: Sets): map<ResourceKey, ResourceKey> {
    map k | k in s && Placed(s[k]) :: NamespaceKey(s[k].labels["namespace_name"])
  }

  lemma PlacedJoins(metrics: seq<string>, v: SetView, g: ResourceKey)
    ensures Joins(PodsByNamespace(metrics), v, g) <==> Placed(v) && NamespaceKey(v.labels["namespace_name"]) == g
  {
    MembersAre(v);
  }

  ghost predicate HasPod(s: Sets, g: ResourceKey) {
    exists k :: k in s && Placed(s[k]) && NamespaceOf(s)[k] == g
  }

  lemma PodJoins(metrics: seq<string>, s: Sets, g: ResourceKey)
    ensures forall k :: JoinerIn(PodsByNamespace(metrics), s, s.Keys, g, k) <==> k in s && Placed(s[k]) && NamespaceOf(s)[k] == g
  {
    forall k ensures JoinerIn(PodsByNamespace(metrics), s, s.Keys, g, k) <==> k in s && Placed(s[k]) && NamespaceOf(s)[k] == g {
      if k in s {
        PlacedJoins(metrics, s[k], g);
      }
    }
  }

  lemma SharesAreFibers(metrics: seq<string>, s: Sets, g: ResourceKey, m: string)
    ensures Share(PodsByNamespace(metrics), s, s.Keys, g, m) == Fiber(PodAmounts(s, m), NamespaceOf(s), g)
  {
    PodJoins(metrics, s, g);
    SameMap(Share(PodsByNamespace(metrics), s, s.Keys, g, m), Fiber(PodAmounts(s, m), NamespaceOf(s), g));
  }

  lemma CountsAreFibers(metrics: seq<string>, s: Sets, g: ResourceKey)
    ensures Counts(PodsByNamespace(metrics), s, s.Keys, g) == Fiber(PodCounts(s), NamespaceOf(s), g)
  {
    PodJoins(metrics, s, g);
    SameMap(Counts(PodsByNamespace(metrics), s, s.Keys, g), Fiber(PodCounts(s), NamespaceOf(s), g));
  }

  /** What both namespace passes leave under the key of a namespace. */
  ghost predicate NamespaceSums(metrics: seq<string>, s0: Sets, s2: Sets, g: ResourceKey) {
    && (HasPod(s0, g) ==> g in s2)
    && (forall m :: m in metrics ==> NamespaceSum(s0, s2, g, m))
    && (POD_COUNT in ValuesAt(s2, g) <==> HasPod(s0, g))
    && IntIn(ValuesAt(s2, g), POD_COUNT) as real == Total(Fiber(PodCounts(s0), NamespaceOf(s0), g))
  }

  ghost predicate NamespaceSum(s0: Sets, s2: Sets, g: ResourceKey, m: string) {
    && AmountIn(ValuesAt(s2, g), m) == Total(Fiber(PodAmounts(s0, m), NamespaceOf(s0), g))
    && (m in ValuesAt(s2, g) <==> exists k :: k in s0 && Placed(s0[k]) && NamespaceOf(s0)[k] == g && m in s0[k].values)
  }

  /** Each namespace has the sums over its running pods, and their counts. */
  lemma NamespacesConserve(metrics: seq<string>, s0: Sets, s1: Sets, s2: Sets, g: ResourceKey)
    requires MetricsOk(metrics) && Fresh(s0) && g.NamespaceKey?
    requires Grown(PodsByNamespace(metrics), s0, s0.Keys, s1) && Grown(ContainersByNamespace(), s1, s1.Keys, s2)
    ensures NamespaceSums(metrics, s0, s2, g)
  {
    SecondPassKeeps(PodsByNamespace(metrics), ContainersByNamespace(), s0, s1, s2, g);
    NamespaceCount(metrics, s0, s2, g);
    if HasPod(s0, g) {
      NamespaceThere(metrics, s0, s1, s2, g);
    }
    forall m | m in metrics ensures NamespaceSum(s0, s2, g, m) {
      assert MetricGrown(PodsByNamespace(metrics), s0, s0.Keys, s2, g, m);
      MetricOfNamespace(metrics, s0, s2, g, m);
    }
  }

  lemma NamespaceCount(metrics: seq<string>, s0: Sets, s2: Sets, g: ResourceKey)
    requires Fresh(s0) && g.NamespaceKey? && Settled(PodsByNamespace(metrics), s0, s2, g)
    ensures POD_COUNT in ValuesAt(s2, g) <==> HasPod(s0, g)
    ensures IntIn(ValuesAt(s2, g), POD_COUNT) as real == Total(Fiber(PodCounts(s0), NamespaceOf(s0), g))
  {
    PodJoins(metrics, s0, g);
    CountsAreFibers(metrics, s0, g);
  }

  lemma NamespaceThere(metrics: seq<string>, s0: Sets, s1: Sets, s2: Sets, g: ResourceKey)
    requires g.NamespaceKey? && HasPod(s0, g)
    requires Grown(PodsByNamespace(metrics), s0, s0.Keys, s1) && Grown(ContainersByNamespace(), s1, s1.Keys, s2)
    ensures g in s2
  {
    PodJoins(metrics, s0, g);
    assert GroupGrown(PodsByNamespace(metrics), s0, s0.Keys, s1, g);
  }

  lemma MetricOfNamespace(metrics: seq<string>, s0: Sets, s2: Sets, g: ResourceKey, m: string)
    requires g !in s0 && MetricGrown(PodsByNamespace(metrics), s0, s0.Keys, s2, g, m)
    ensures NamespaceSum(s0, s2, g, m)
  {
    PodJoins(metrics, s0, g);
    SharesAreFibers(metrics, s0, g, m);
  }

  // ---- The cluster -------------------------------------------------------------------------------------

  ghost function NamespacesIn(s: Sets): set<ResourceKey> {
    set k | k in s && k.NamespaceKey?
  }

  lemma ClusterJoins(metrics: seq<string>, s: Sets)
    requires KeysAgree(s)
    ensures forall k :: JoinerIn(NamespacesOfCluster(metrics), s, s.Keys, ClusterKey, k) <==> k in NamespacesIn(s)
  {
    assert forall k :: k in s ==> KeyAgrees(k, s[k]);
  }

  /** What the cluster holds of one metric after all four passes. */
  lemma ClusterSum(metrics: seq<string>, s0: Sets, s2: Sets, s4: Sets, m: string)
    requires m in metrics && KeysAgree(s2) && ClusterKey !in s2
    requires forall g: ResourceKey :: g.NamespaceKey? ==> NamespaceSums(metrics, s0, s2, g)
    requires Settled(NamespacesOfCluster(metrics), s2, s4, ClusterKey)
    ensures AmountIn(ValuesAt(s4, ClusterKey), m) == Total(PodAmounts(s0, m))
    ensures m in ValuesAt(s4, ClusterKey) <==> exists k :: k in s0 && Placed(s0[k]) && m in s0[k].values
  {
    assert MetricGrown(NamespacesOfCluster(metrics), s2, s2.Keys, s4, ClusterKey, m);
    ClusterShare(metrics, s0, s2, m);
    PodsPlaced(metrics, s0, s2);
    FibersSum(PodAmounts(s0, m), NamespaceOf(s0), NamespacesIn(s2));
    MetricAtCluster(metrics, s0, s2, m);
  }

  lemma ClusterShare(metrics: seq<string>, s0: Sets, s2: Sets, m: string)
    requires m in metrics && KeysAgree(s2)
    requires forall g: ResourceKey :: g.NamespaceKey? ==> NamespaceSums(metrics, s0, s2, g)
    ensures Share(NamespacesOfCluster(metrics), s2, s2.Keys, ClusterKey, m) == FiberTotals(PodAmounts(s0, m), NamespaceOf(s0), NamespacesIn(s2))
  {
    ClusterJoins(metrics, s2);
    forall g | g in NamespacesIn(s2) ensures AmountOf(s2[g], m) == Total(Fiber(PodAmounts(s0, m), NamespaceOf(s0), g)) {
      assert NamespaceSums(metrics, s0, s2, g) && NamespaceSum(s0, s2, g, m);
    }
  }

  lemma PodsPlaced(metrics: seq<string>, s0: Sets, s2: Sets)
    requires forall g: ResourceKey :: g.NamespaceKey? ==> NamespaceSums(metrics, s0, s2, g)
    ensures forall k :: k in NamespaceOf(s0) ==> NamespaceOf(s0)[k] in NamespacesIn(s2)
  {
    forall k | k in NamespaceOf(s0) ensures NamespaceOf(s0)[k] in NamespacesIn(s2) {
      assert NamespaceSums(metrics, s0, s2, NamespaceOf(s0)[k]);
      assert HasPod(s0, NamespaceOf(s0)[k]);
    }
  }

  lemma MetricAtCluster(metrics: seq<string>, s0: Sets, s2: Sets, m: string)
    requires m in metrics && KeysAgree(s2)
    requires forall g: ResourceKey :: g.NamespaceKey? ==> NamespaceSums(metrics, s0, s2, g)
    ensures (exists g :: JoinerIn(NamespacesOfCluster(metrics), s2, s2.Keys, ClusterKey, g) && m in s2[g].values)
            <==> exists k :: k in s0 && Placed(s0[k]) && m in s0[k].values
  {
    ClusterJoins(metrics, s2);
    PodsPlaced(metrics, s0, s2);
    forall g | g in NamespacesIn(s2) && m in s2[g].values ensures exists k :: k in s0 && Placed(s0[k]) && m in s0[k].values {
      assert NamespaceSums(metrics, s0, s2, g) && NamespaceSum(s0, s2, g, m);
    }
    forall k | k in s0 && Placed(s0[k]) && m in s0[k].values ensures exists g :: g in NamespacesIn(s2) && m in s2[g].values {
      var g := NamespaceOf(s0)[k];
      assert NamespaceSums(metrics, s0, s2, g) && NamespaceSum(s0, s2, g, m);
      assert g in NamespacesIn(s2);
    }
  }

  /** Namespaces that have no count of pods. */
  ghost function Uncounted(s0: Sets, s2: Sets): set<ResourceKey> {
    set g | g in NamespacesIn(s2) && !HasPod(s0, g)
  }

  /** The cluster's count of pods is that of its namespaces, each of those without one counting as one pod. */
  lemma ClusterCount(metrics: seq<string>, s0: Sets, s2: Sets, s4: Sets)
    requires KeysAgree(s2) && ClusterKey !in s2
    requires forall g: ResourceKey :: g.NamespaceKey? ==> NamespaceSums(metrics, s0, s2, g)
    requires Settled(NamespacesOfCluster(metrics), s2, s4, ClusterKey)
    ensures IntIn(ValuesAt(s4, ClusterKey), POD_COUNT) as real == Total(PodCounts(s0)) + |Uncounted(s0, s2)| as real
  {
    var groups, podless := NamespacesIn(s2), Uncounted(s0, s2);
    var totals := FiberTotals(PodCounts(s0), NamespaceOf(s0), groups);
    PodsPlaced(metrics, s0, s2);
    FibersSum(PodCounts(s0), NamespaceOf(s0), groups);
    forall g | g in podless ensures totals[g] == 0.0 {
      assert NamespaceSums(metrics, s0, s2, g);
      assert Fiber(PodCounts(s0), NamespaceOf(s0), g) == map[];
    }
    OnesSum(totals, podless);
    ClusterCounts(metrics, s0, s2);
  }

  lemma ClusterCounts(metrics: seq<string>, s0: Sets, s2: Sets)
    requires KeysAgree(s2)
    requires forall g: ResourceKey :: g.NamespaceKey? ==> NamespaceSums(metrics, s0, s2, g)
    ensures Counts(NamespacesOfCluster(metrics), s2, s2.Keys, ClusterKey)
            == FiberTotals(PodCounts(s0), NamespaceOf(s0), NamespacesIn(s2)) + map g | g in Uncounted(s0, s2) :: 1.0
  {
    ClusterJoins(metrics, s2);
    forall g | g in NamespacesIn(s2)
      ensures CountIn(s2[g].values, POD_COUNT) as real
              == if HasPod(s0, g) then Total(Fiber(PodCounts(s0), NamespaceOf(s0), g)) else 1.0
    {
      assert NamespaceSums(metrics, s0, s2, g);
    }
    SameMap(Counts(NamespacesOfCluster(metrics), s2, s2.Keys, ClusterKey),
                FiberTotals(PodCounts(s0), NamespaceOf(s0), NamespacesIn(s2)) + map g | g in Uncounted(s0, s2) :: 1.0);
  }

  ghost predicate PlacedContainer(v: SetView) {
    LiveContainer(v) && "namespace_name" in v.labels
  }

  ghost function ContainerNamespace(v: SetView): ResourceKey
    requires PlacedContainer(v)
  {
    NamespaceKey(v.labels["namespace_name"])
  }

  lemma ContainerJoins(v: SetView, g: ResourceKey)
    ensures Joins(ContainersByNamespace(), v, g) <==> PlacedContainer(v) && ContainerNamespace(v) == g
  {
    MembersAre(v);
  }

  /** The namespaces of the batch that have containers but no running pod. */
  ghost function PodlessNamespaces(s: Sets): set<ResourceKey> {
    set k | k in s && PlacedContainer(s[k]) && !HasPod(s, ContainerNamespace(s[k])) :: ContainerNamespace(s[k])
  }

  /** Those are the namespaces that only a container has brought in, and that have no count of pods. */
  lemma PodlessAreUncounted(metrics: seq<string>, s0: Sets, s1: Sets, s2: Sets)
    requires Fresh(s0) && KeysAgree(s0) && KeysAgree(s1)
    requires Grown(PodsByNamespace(metrics), s0, s0.Keys, s1) && Grown(ContainersByNamespace(), s1, s1.Keys, s2)
    ensures Uncounted(s0, s2) == PodlessNamespaces(s0)
  {
    forall g ensures g in Uncounted(s0, s2) <==> g in PodlessNamespaces(s0) {
      if g.NamespaceKey? && !HasPod(s0, g) {
        BroughtInByContainer(metrics, s0, s1, s2, g);
      }
    }
  }

  lemma BroughtInByContainer(metrics: seq<string>, s0: Sets, s1: Sets, s2: Sets, g: ResourceKey)
    requires Fresh(s0) && KeysAgree(s0) && KeysAgree(s1) && g.NamespaceKey? && !HasPod(s0, g)
    requires Grown(PodsByNamespace(metrics), s0, s0.Keys, s1) && Grown(ContainersByNamespace(), s1, s1.Keys, s2)
    ensures g in s2 <==> HasContainer(s0, g)
  {
    PodJoins(metrics, s0, g);
    assert GroupGrown(PodsByNamespace(metrics), s0, s0.Keys, s1, g) && GroupGrown(ContainersByNamespace(), s1, s1.Keys, s2, g);
    ContainersJoin(metrics, s0, s1, g);
  }

  // ---- Counts of containers ----------------------------------------------------------------------------

  ghost predicate HasContainer(s: Sets, g: ResourceKey) {
    exists k :: k in s && PlacedContainer(s[k]) && ContainerNamespace(s[k]) == g
  }

  ghost function ContainerCounts(s: Sets): map<ResourceKey, real> {
    map k | k in s && PlacedContainer(s[k]) :: (if "pod_container/count" in s[k].values then s[k].values["pod_container/count"].intValue else 1) as real
  }

  ghost function ContainerNamespaces(s: Sets): map<ResourceKey, ResourceKey> {
    map k | k in s && PlacedContainer(s[k]) :: ContainerNamespace(s[k])
  }

  lemma ContainersJoin(metrics: seq<string>, s0: Sets, s1: Sets, g: ResourceKey)
    requires Fresh(s0) && KeysAgree(s0) && KeysAgree(s1) && g.NamespaceKey? && Untouched(PodsByNamespace(metrics), s0, s1)
    ensures forall k :: JoinerIn(ContainersByNamespace(), s1, s1.Keys, g, k) <==> k in s0 && PlacedContainer(s0[k]) && ContainerNamespace(s0[k]) == g
    ensures forall k :: JoinerIn(ContainersByNamespace(), s1, s1.Keys, g, k) ==> s1[k] == s0[k]
  {
    forall k
      ensures JoinerIn(ContainersByNamespace(), s1, s1.Keys, g, k) <==> k in s0 && PlacedContainer(s0[k]) && ContainerNamespace(s0[k]) == g
      ensures JoinerIn(ContainersByNamespace(), s1, s1.Keys, g, k) ==> s1[k] == s0[k]
    {
      assert k in s0 ==> KeyAgrees(k, s0[k]);
      assert k in s1 ==> KeyAgrees(k, s1[k]);
      if k in s0 {
        ContainerJoins(s0[k], g);
      }
    }
  }

  /** What both namespace passes leave of the containers of a namespace. */
  ghost predicate NamespaceContainers(s0: Sets, s2: Sets, g: ResourceKey) {
    && (HasContainer(s0, g) ==> g in s2)
    && ("pod_container/count" in ValuesAt(s2, g) <==> HasContainer(s0, g))
    && IntIn(ValuesAt(s2, g), "pod_container/count") as real == Total(Fiber(ContainerCounts(s0), ContainerNamespaces(s0), g))
  }

  lemma NamespaceCountsContainers(metrics: seq<string>, s0: Sets, s1: Sets, s2: Sets, g: ResourceKey)
    requires MetricsOk(metrics) && Fresh(s0) && KeysAgree(s0) && KeysAgree(s1) && g.NamespaceKey?
    requires Grown(PodsByNamespace(metrics), s0, s0.Keys, s1) && Grown(ContainersByNamespace(), s1, s1.Keys, s2)
    ensures NamespaceContainers(s0, s2, g)
  {
    assert GroupGrown(PodsByNamespace(metrics), s0, s0.Keys, s1, g) && GroupGrown(ContainersByNamespace(), s1, s1.Keys, s2, g);
    assert Others(PodsByNamespace(metrics), ValuesAt(s0, g), ValuesAt(s1, g));
    assert POD_CONTAINER_COUNT !in ValuesAt(s1, g) by { OtherCount(metrics, s0, s1, g); }
    ContainersJoin(metrics, s0, s1, g);
    ContainerFibers(s0, s1, g);
  }

  lemma ContainerFibers(s0: Sets, s1: Sets, g: ResourceKey)
    requires forall k :: JoinerIn(ContainersByNamespace(), s1, s1.Keys, g, k) <==> k in s0 && PlacedContainer(s0[k]) && ContainerNamespace(s0[k]) == g
    requires forall k :: JoinerIn(ContainersByNamespace(), s1, s1.Keys, g, k) ==> s1[k] == s0[k]
    ensures Counts(ContainersByNamespace(), s1, s1.Keys, g) == Fiber(ContainerCounts(s0), ContainerNamespaces(s0), g)
  {
    SameMap(Counts(ContainersByNamespace(), s1, s1.Keys, g), Fiber(ContainerCounts(s0), ContainerNamespaces(s0), g));
  }

  lemma OtherCount(metrics: seq<string>, s0: Sets, s1: Sets, g: ResourceKey)
    requires MetricsOk(metrics) && g !in s0 && Others(PodsByNamespace(metrics), ValuesAt(s0, g), ValuesAt(s1, g))
    ensures POD_CONTAINER_COUNT !in ValuesAt(s1, g)
  {
    assert |POD_CONTAINER_COUNT| != |POD_COUNT|;
  }

  /** Namespaces that have no count of containers. */
  ghost function Containerless(s0: Sets, s2: Sets): set<ResourceKey> {
    set g | g in NamespacesIn(s2) && !HasContainer(s0, g)
  }

  /** The namespaces of the batch that have running pods but no containers. */
  ghost function ContainerlessNamespaces(s: Sets): set<ResourceKey> {
    set k | k in s && Placed(s[k]) && !HasContainer(s, NamespaceOf(s)[k]) :: NamespaceOf(s)[k]
  }

  lemma ContainerlessHavePods(metrics: seq<string>, s0: Sets, s1: Sets, s2: Sets)
    requires Fresh(s0) && KeysAgree(s0) && KeysAgree(s1)
    requires Grown(PodsByNamespace(metrics), s0, s0.Keys, s1) && Grown(ContainersByNamespace(), s1, s1.Keys, s2)
    ensures Containerless(s0, s2) == ContainerlessNamespaces(s0)
  {
    forall g ensures g in Containerless(s0, s2) <==> g in ContainerlessNamespaces(s0) {
      if g.NamespaceKey? && !HasPod(s0, g) {
        BroughtInByContainer(metrics, s0, s1, s2, g);
      } else if g.NamespaceKey? {
        NamespaceThere(metrics, s0, s1, s2, g);
      }
    }
  }

  /** The cluster's count of containers is that of its namespaces, each of those without one counting as one. */
  lemma ClusterContainerCount(metrics: seq<string>, s0: Sets, s2: Sets, s3: Sets, s4: Sets)
    requires MetricsOk(metrics) && KeysAgree(s2) && KeysAgree(s3) && ClusterKey !in s2
    requires forall g: ResourceKey :: g.NamespaceKey? ==> NamespaceContainers(s0, s2, g)
    requires Grown(NamespacesOfCluster(metrics), s2, s2.Keys, s3) && Grown(ContainersOfCluster(), s3, s3.Keys, s4)
    ensures IntIn(ValuesAt(s4, ClusterKey), "pod_container/count") as real == Total(ContainerCounts(s0)) + |Containerless(s0, s2)| as real
  {
    var groups, none := NamespacesIn(s2), Containerless(s0, s2);
    var totals := FiberTotals(ContainerCounts(s0), ContainerNamespaces(s0), groups);
    ContainersPlaced(s0, s2);
    FibersSum(ContainerCounts(s0), ContainerNamespaces(s0), groups);
    forall g | g in none ensures totals[g] == 0.0 {
      assert NamespaceContainers(s0, s2, g);
      assert Fiber(ContainerCounts(s0), ContainerNamespaces(s0), g) == map[];
    }
    OnesSum(totals, none);
    ClusterCountsContainers(metrics, s0, s2, s3);
    ContainersAtCluster(metrics, s2, s3, s4);
  }

  lemma ContainersPlaced(s0: Sets, s2: Sets)
    requires forall g: ResourceKey :: g.NamespaceKey? ==> NamespaceContainers(s0, s2, g)
    ensures forall k :: k in ContainerNamespaces(s0) ==> ContainerNamespaces(s0)[k] in NamespacesIn(s2)
  {
    forall k | k in ContainerNamespaces(s0) ensures ContainerNamespaces(s0)[k] in NamespacesIn(s2) {
      assert NamespaceContainers(s0, s2, ContainerNamespaces(s0)[k]);
      assert HasContainer(s0, ContainerNamespaces(s0)[k]);
    }
  }

  lemma ContainersAtCluster(metrics: seq<string>, s2: Sets, s3: Sets, s4: Sets)
    requires MetricsOk(metrics) && ClusterKey !in s2
    requires Grown(NamespacesOfCluster(metrics), s2, s2.Keys, s3) && Grown(ContainersOfCluster(), s3, s3.Keys, s4)
    ensures IntIn(ValuesAt(s4, ClusterKey), "pod_container/count") as real == Total(Counts(ContainersOfCluster(), s3, s3.Keys, ClusterKey))
  {
    assert GroupGrown(NamespacesOfCluster(metrics), s2, s2.Keys, s3, ClusterKey) && GroupGrown(ContainersOfCluster(), s3, s3.Keys, s4, ClusterKey);
    assert Others(NamespacesOfCluster(metrics), ValuesAt(s2, ClusterKey), ValuesAt(s3, ClusterKey));
    assert |POD_CONTAINER_COUNT| != |POD_COUNT|;
    assert POD_CONTAINER_COUNT !in ValuesAt(s3, ClusterKey);
  }

  lemma ClusterCountsContainers(metrics: seq<string>, s0: Sets, s2: Sets, s3: Sets)
    requires KeysAgree(s2) && KeysAgree(s3) && Untouched(NamespacesOfCluster(metrics), s2, s3)
    requires forall g: ResourceKey :: g.NamespaceKey? ==> NamespaceContainers(s0, s2, g)
    ensures Counts(ContainersOfCluster(), s3, s3.Keys, ClusterKey)
            == FiberTotals(ContainerCounts(s0), ContainerNamespaces(s0), NamespacesIn(s2)) + map g | g in Containerless(s0, s2) :: 1.0
  {
    var counts := Counts(ContainersOfCluster(), s3, s3.Keys, ClusterKey);
    NamespacesJoin(metrics, s2, s3);
    forall g | g in NamespacesIn(s2)
      ensures CountIn(s2[g].values, POD_CONTAINER_COUNT) as real
              == if HasContainer(s0, g) then Total(Fiber(ContainerCounts(s0), ContainerNamespaces(s0), g)) else 1.0
    {
      assert NamespaceContainers(s0, s2, g);
    }
    SameMap(counts, FiberTotals(ContainerCounts(s0), ContainerNamespaces(s0), NamespacesIn(s2)) + map g | g in Containerless(s0, s2) :: 1.0);
  }

  lemma NamespacesJoin(metrics: seq<string>, s2: Sets, s3: Sets)
    requires KeysAgree(s2) && KeysAgree(s3) && Untouched(NamespacesOfCluster(metrics), s2, s3)
    ensures forall k :: JoinerIn(ContainersOfCluster(), s3, s3.Keys, ClusterKey, k) <==> k in NamespacesIn(s2)
    ensures forall k :: k in NamespacesIn(s2) ==> k in s3 && s3[k] == s2[k]
  {
    forall k ensures JoinerIn(ContainersOfCluster(), s3, s3.Keys, ClusterKey, k) <==> k in NamespacesIn(s2) {
      assert k in s2 ==> KeyAgrees(k, s2[k]);
      assert k in s3 ==> KeyAgrees(k, s3[k]);
    }
  }

  // ---- All four passes ---------------------------------------------------------------------------------

  /**
   * Roll-up conserves sums. From a batch without namespace or cluster sets and with one value type for a
   * metric, in whatever order the sets are visited: each namespace gets the sums over its running pods,
   * the cluster those over all running pods that have a namespace label, and nothing is created or lost
   * on the way. The cluster's pod count exceeds that of the running pods by one for each namespace that
   * has containers but no running pod.
   */
  lemma RollUpConserves(metrics: seq<string>, ty: map<string, ValueType>, s0: Sets, s2: Sets, s4: Sets)
    requires MetricsOk(metrics) && Fresh(s0) && KeysAgree(s0) && AllTyped(s0, metrics, ty)
    requires PassedAll(NamespacePasses(metrics), s0, s2) && PassedAll(ClusterPasses(metrics), s2, s4)
    ensures forall g: ResourceKey :: g.NamespaceKey? ==> NamespaceSums(metrics, s0, s2, g)
    ensures forall m :: m in metrics ==> AmountIn(ValuesAt(s4, ClusterKey), m) == Total(PodAmounts(s0, m))
    ensures forall m :: m in metrics ==> (m in ValuesAt(s4, ClusterKey) <==> exists k :: k in s0 && Placed(s0[k]) && m in s0[k].values)
    ensures IntIn(ValuesAt(s4, ClusterKey), POD_COUNT) as real == Total(PodCounts(s0)) + |PodlessNamespaces(s0)| as real
    ensures forall k :: k in s0 ==> k in s4 && s4[k] == s0[k]
  {
    var s1 := PassedBetween(PodsByNamespace(metrics), ContainersByNamespace(), s0, s2);
    var s3 := PassedBetween(NamespacesOfCluster(metrics), ContainersOfCluster(), s2, s4);
    NamespacePassesGrow(metrics, ty, s0, s1, s2);
    ClusterPassesGrow(metrics, ty, s2, s3, s4);
    forall g: ResourceKey | g.NamespaceKey? ensures NamespaceSums(metrics, s0, s2, g) {
      NamespacesConserve(metrics, s0, s1, s2, g);
    }
    SecondPassKeeps(NamespacesOfCluster(metrics), ContainersOfCluster(), s2, s3, s4, ClusterKey);
    forall m | m in metrics
      ensures AmountIn(ValuesAt(s4, ClusterKey), m) == Total(PodAmounts(s0, m))
      ensures m in ValuesAt(s4, ClusterKey) <==> exists k :: k in s0 && Placed(s0[k]) && m in s0[k].values
    {
      ClusterSum(metrics, s0, s2, s4, m);
    }
    ClusterCount(metrics, s0, s2, s4);
    PodlessAreUncounted(metrics, s0, s1, s2);
  }

  /**
   * Nor are containers lost: each namespace counts its own, and the cluster those of all containers that
   * have a namespace label, with one more for each namespace that has running pods but no containers.
   */
  lemma RollUpCountsContainers(metrics: seq<string>, ty: map<string, ValueType>, s0: Sets, s2: Sets, s4: Sets)
    requires MetricsOk(metrics) && Fresh(s0) && KeysAgree(s0) && AllTyped(s0, metrics, ty)
    requires PassedAll(NamespacePasses(metrics), s0, s2) && PassedAll(ClusterPasses(metrics), s2, s4)
    ensures forall g: ResourceKey :: g.NamespaceKey? ==> NamespaceContainers(s0, s2, g)
    ensures IntIn(ValuesAt(s4, ClusterKey), "pod_container/count") as real == Total(ContainerCounts(s0)) + |ContainerlessNamespaces(s0)| as real
  {
    var s1 := PassedBetween(PodsByNamespace(metrics), ContainersByNamespace(), s0, s2);
    var s3 := PassedBetween(NamespacesOfCluster(metrics), ContainersOfCluster(), s2, s4);
    NamespacePassesGrow(metrics, ty, s0, s1, s2);
    ClusterPassesGrow(metrics, ty, s2, s3, s4);
    forall g: ResourceKey | g.NamespaceKey? ensures NamespaceContainers(s0, s2, g) {
      NamespaceCountsContainers(metrics, s0, s1, s2, g);
    }
    ClusterContainerCount(metrics, s0, s2, s3, s4);
    ContainerlessHavePods(metrics, s0, s1, s2);
  }

  // ---- The sets that are made ------------------------------------------------------------------------------

  /** A namespace's set has the labels of its kind, its own name, and the id that a member gave it. */
  ghost predicate LabelledFor(g: ResourceKey, labels: map<string, string>, member: SetView) {
    if g.NamespaceKey? then
      labels == map["type" := "ns", "namespace_name" := g.namespace,
                    "namespace_id" := if "namespace_id" in member.labels then member.labels["namespace_id"] else ""]
    else g == ClusterKey && labels == map["type" := "cluster"]
  }

  ghost predicate MadeFor(g: ResourceKey, v: SetView, member: SetView) {
    && LabelledFor(g, v.labels, member)
    && v.labeledValues == [] && v.collectionStartTime == 0 && v.entityCreateTime == 0 && v.scrapeTime == 0
  }

  ghost predicate MadeSoFar(spec: AggregateSpec, s0: Sets, s: Sets) {
    forall g :: g in s && g !in s0 ==> MadeBySome(spec, s0, g, s[g])
  }

  ghost predicate MadeBySome(spec: AggregateSpec, s0: Sets, g: ResourceKey, v: SetView) {
    exists k :: k in s0 && Joins(spec, s0[k], g) && MadeFor(g, v, s0[k])
  }

  lemma NewGroupIs(spec: AggregateSpec, member: SetView, g: ResourceKey, values: Values)
    requires Joins(spec, member, g)
    ensures MadeFor(g, NewGroup(spec.grouping, member).(values := values), member)
  {
  }

  lemma {:induction false} GroupsMade(spec: AggregateSpec, s0: Sets, order: seq<ResourceKey>, n: nat, s: Sets)
    requires Sensible(spec) && KeysAgree(s0) && n <= |order| && Run(spec, s0, order, n) == Some(s)
    ensures KeysAgree(s) && MadeSoFar(spec, s0, s)
    ensures forall k :: !IsGroupKey(spec.grouping, k) ==> (k in s <==> k in s0) && (k in s ==> s[k] == s0[k])
  {
    if n > 0 {
      var was := Run(spec, s0, order, n - 1).value;
      GroupsMade(spec, s0, order, n - 1, was);
      VisitKeepsKeys(spec, was, order[n - 1]);
      VisitMakes(spec, s0, was, order[n - 1], s);
    }
  }

  lemma VisitMakes(spec: AggregateSpec, s0: Sets, was: Sets, k: ResourceKey, s: Sets)
    requires Sensible(spec) && KeysAgree(was) && MadeSoFar(spec, s0, was) && Visit(spec, was, k) == Some(s)
    requires forall j :: !IsGroupKey(spec.grouping, j) ==> (j in was <==> j in s0) && (j in was ==> was[j] == s0[j])
    ensures MadeSoFar(spec, s0, s)
  {
    if k in was && IsPartOfGroup(spec.members, was[k]) && GroupKey(spec.grouping, was[k]).Some? {
      var g := GroupKey(spec.grouping, was[k]).value;
      assert KeyAgrees(k, was[k]) && !IsGroupKey(spec.grouping, k);
      assert Joins(spec, s0[k], g);
      forall h | h in s && h !in s0 ensures MadeBySome(spec, s0, h, s[h]) {
        if h in was {
          assert MadeBySome(spec, s0, h, was[h]);
        } else {
          NewGroupIs(spec, s0[k], g, s[g].values);
        }
      }
    }
  }

  lemma PassMakes(spec: AggregateSpec, s: Sets, s1: Sets)
    requires Sensible(spec) && KeysAgree(s) && Passed(spec, s, s1)
    ensures KeysAgree(s1) && MadeSoFar(spec, s, s1)
    ensures forall k :: !IsGroupKey(spec.grouping, k) ==> (k in s <==> k in s1) && (k in s ==> s1[k] == s[k])
  {
    var order :| Visits(s.Keys, order) && Run(spec, s, order, |order|) == Some(s1);
    GroupsMade(spec, s, order, |order|, s1);
  }

  ghost predicate NamespaceLabelled(s0: Sets, g: ResourceKey, labels: map<string, string>) {
    exists k :: k in s0 && (Placed(s0[k]) || PlacedContainer(s0[k])) && NamespaceKey(s0[k].labels["namespace_name"]) == g && LabelledFor(g, labels, s0[k])
  }

  /** Each namespace that comes out is labelled as one, with the id that one of its pods or containers has. */
  lemma NamespacesAreLabelled(metrics: seq<string>, ty: map<string, ValueType>, s0: Sets, s2: Sets, g: ResourceKey)
    requires MetricsOk(metrics) && Fresh(s0) && KeysAgree(s0) && AllTyped(s0, metrics, ty)
    requires PassedAll(NamespacePasses(metrics), s0, s2) && g.NamespaceKey? && g in s2
    ensures NamespaceLabelled(s0, g, s2[g].labels)
  {
    var s1 := PassedBetween(PodsByNamespace(metrics), ContainersByNamespace(), s0, s2);
    NamespacePassesGrow(metrics, ty, s0, s1, s2);
    PassMakes(PodsByNamespace(metrics), s0, s1);
    PassMakes(ContainersByNamespace(), s1, s2);
    if g in s1 {
      PodLabels(metrics, s0, g, s1[g]);
    } else {
      ContainerLabels(s0, s1, g, s2[g]);
    }
  }

  lemma PodLabels(metrics: seq<string>, s0: Sets, g: ResourceKey, v: SetView)
    requires MadeBySome(PodsByNamespace(metrics), s0, g, v)
    ensures NamespaceLabelled(s0, g, v.labels)
  {
    var k :| k in s0 && Joins(PodsByNamespace(metrics), s0[k], g) && MadeFor(g, v, s0[k]);
    PlacedJoins(metrics, s0[k], g);
  }

  lemma ContainerLabels(s0: Sets, s1: Sets, g: ResourceKey, v: SetView)
    requires KeysAgree(s1) && MadeBySome(ContainersByNamespace(), s1, g, v)
    requires forall k :: k in s1 && !k.NamespaceKey? ==> k in s0 && s1[k] == s0[k]
    ensures NamespaceLabelled(s0, g, v.labels)
  {
    var k :| k in s1 && Joins(ContainersByNamespace(), s1[k], g) && MadeFor(g, v, s1[k]);
    assert KeyAgrees(k, s1[k]);
    ContainerJoins(s1[k], g);
  }

  lemma ClusterIsLabelled(metrics: seq<string>, ty: map<string, ValueType>, s2: Sets, s4: Sets)
    requires MetricsOk(metrics) && KeysAgree(s2) && ClusterKey !in s2 && AllTyped(s2, metrics, ty)
    requires PassedAll(ClusterPasses(metrics), s2, s4) && ClusterKey in s4
    ensures s4[ClusterKey].labels == map["type" := "cluster"]
  {
    var s3 := PassedBetween(NamespacesOfCluster(metrics), ContainersOfCluster(), s2, s4);
    ClusterPassesGrow(metrics, ty, s2, s3, s4);
    PassMakes(NamespacesOfCluster(metrics), s2, s3);
    PassMakes(ContainersOfCluster(), s3, s4);
    if ClusterKey in s3 {
      assert MadeBySome(NamespacesOfCluster(metrics), s2, ClusterKey, s3[ClusterKey]);
    } else {
      assert MadeBySome(ContainersOfCluster(), s3, ClusterKey, s4[ClusterKey]);
    }
  }

  /** A well-typed batch gets through both roll-ups. */
  lemma RollUpSucceeds(metrics: seq<string>, ty: map<string, ValueType>, s0: Sets) returns (s2: Sets, s4: Sets)
    requires MetricsOk(metrics) && Fresh(s0) && KeysAgree(s0) && AllTyped(s0, metrics, ty)
    ensures PassedAll(NamespacePasses(metrics), s0, s2) && PassedAll(ClusterPasses(metrics), s2, s4)
  {
    var s1 := SomePass(PodsByNamespace(metrics), s0, ty);
    NoneTyped(s1, [], ty);
    s2 := SomePass(ContainersByNamespace(), s1, ty);
    NamespacePassesGrow(metrics, ty, s0, s1, s2);
    var s3 := SomePass(NamespacesOfCluster(metrics), s2, ty);
    NoneTyped(s3, [], ty);
    s4 := SomePass(ContainersOfCluster(), s3, ty);
    BothPassed(PodsByNamespace(metrics), ContainersByNamespace(), s0, s1, s2);
    BothPassed(NamespacesOfCluster(metrics), ContainersOfCluster(), s2, s3, s4);
  }

  lemma SomePass(spec: AggregateSpec, s: Sets, ty: map<string, ValueType>) returns (s1: Sets)
    requires SpecOk(spec) && KeysAgree(s) && AllTyped(s, spec.sumMetrics, ty)
    ensures Passed(spec, s, s1) && KeysAgree(s1)
  {
    var order := SomeOrder(s.Keys);
    PassConserves(spec, s, order, ty);
    s1 := Run(spec, s, order, |order|).value;
  }

  lemma BothPassed(first: AggregateSpec, second: AggregateSpec, s: Sets, s1: Sets, s2: Sets)
    requires Passed(first, s, s1) && Passed(second, s1, s2)
    ensures PassedAll([first, second], s, s2)
  {
    var specs, trail := [first, second], [s, s1, s2];
    assert Step(specs, trail, 0) && Step(specs, trail, 1);
    assert Trail(specs, trail);
  }

  /** A container of namespace "n" without a pod. */
  function ContainerAlone(): Sets {
    map[PodContainerKey("n", "p", "c") := NewView(map[], map[TYPE := TYPE_POD_CONTAINER, NAMESPACE_NAME := "n"])]
  }

  /** It has no pod, and comes out of the roll-up with a cluster of one pod. */
  lemma PodlessExample()
    ensures exists s2, s4 ::
      && PassedAll(NamespacePasses([]), ContainerAlone(), s2) && PassedAll(ClusterPasses([]), s2, s4)
      && PodCounts(ContainerAlone()) == map[] && IntIn(ValuesAt(s4, ClusterKey), POD_COUNT) == 1
  {
    var s, k := ContainerAlone(), PodContainerKey("n", "p", "c");
    NoneTyped(s, [], map[]);
    var s2, s4 := RollUpSucceeds([], map[], s);
    RollUpConserves([], map[], s, s2, s4);
    assert PodCounts(s) == map[];
    assert PlacedContainer(s[k]) && ContainerNamespace(s[k]) == NamespaceKey("n");
    assert PodlessNamespaces(s) == {NamespaceKey("n")};
  }

  lemma PassedBetween(first: AggregateSpec, second: AggregateSpec, s: Sets, s2: Sets) returns (s1: Sets)
    requires PassedAll([first, second], s, s2)
    ensures Passed(first, s, s1) && Passed(second, s1, s2)
  {
    var specs := [first, second];
    var trail :| Trail(specs, trail) && |trail| == |specs| + 1 && trail[0] == s && trail[|specs|] == s2;
    assert Step(specs, trail, 0) && Step(specs, trail, 1);
    s1 := trail[1];
  }

  lemma NamespacePassesGrow(metrics: seq<string>, ty: map<string, ValueType>, s0: Sets, s1: Sets, s2: Sets)
    requires MetricsOk(metrics) && Fresh(s0) && KeysAgree(s0) && AllTyped(s0, metrics, ty)
    requires Passed(PodsByNamespace(metrics), s0, s1) && Passed(ContainersByNamespace(), s1, s2)
    ensures Grown(PodsByNamespace(metrics), s0, s0.Keys, s1) && Grown(ContainersByNamespace(), s1, s1.Keys, s2)
    ensures KeysAgree(s1) && KeysAgree(s2) && ClusterKey !in s2 && AllTyped(s2, metrics, ty)
    ensures forall k :: k in s0 ==> k in s2 && s2[k] == s0[k]
  {
    TwoPasses(PodsByNamespace(metrics), ContainersByNamespace(), s0, s1, s2, ty);
  }

  lemma ClusterPassesGrow(metrics: seq<string>, ty: map<string, ValueType>, s2: Sets, s3: Sets, s4: Sets)
    requires MetricsOk(metrics) && KeysAgree(s2) && ClusterKey !in s2 && AllTyped(s2, metrics, ty)
    requires Passed(NamespacesOfCluster(metrics), s2, s3) && Passed(ContainersOfCluster(), s3, s4)
    ensures Grown(NamespacesOfCluster(metrics), s2, s2.Keys, s3) && Grown(ContainersOfCluster(), s3, s3.Keys, s4) && KeysAgree(s3)
    ensures forall k :: k in s2 ==> k in s4 && s4[k] == s2[k]
  {
    TwoPasses(NamespacesOfCluster(metrics), ContainersOfCluster(), s2, s3, s4, ty);
  }

  lemma TwoPasses(first: AggregateSpec, second: AggregateSpec, s: Sets, s1: Sets, s2: Sets, ty: map<string, ValueType>)
    requires SpecOk(first) && KeysAgree(s) && AllTyped(s, first.sumMetrics, ty) && Passed(first, s, s1) && Passed(second, s1, s2)
    requires SpecOk(second) && second.sumMetrics == [] && second.countMetric !in first.sumMetrics && first.grouping == second.grouping
    ensures Grown(first, s, s.Keys, s1) && Grown(second, s1, s1.Keys, s2) && KeysAgree(s1) && KeysAgree(s2) && AllTyped(s2, first.sumMetrics, ty)
    ensures forall k :: !IsGroupKey(first.grouping, k) ==> (k in s <==> k in s2) && (k in s ==> s2[k] == s[k])
  {
    Pass(first, s, s1, ty);
    NoneTyped(s1, second.sumMetrics, ty);
    Pass(second, s1, s2, ty);
    SecondTyped(second, s1, s2, first.sumMetrics, ty);
    OthersUntouched(first, second, s, s1, s2);
  }

  lemma NoneTyped(s: Sets, none: seq<string>, ty: map<string, ValueType>)
    requires none == []
    ensures AllTyped(s, none, ty)
  {
  }

  /** Two passes leave what is no group as it is. */
  lemma OthersUntouched(first: AggregateSpec, second: AggregateSpec, s: Sets, s1: Sets, s2: Sets)
    requires first.grouping == second.grouping && Untouched(first, s, s1) && Untouched(second, s1, s2)
    ensures forall k :: !IsGroupKey(first.grouping, k) ==> (k in s <==> k in s2) && (k in s ==> s2[k] == s[k])
  {
  }

  lemma Pass(spec: AggregateSpec, s: Sets, s1: Sets, ty: map<string, ValueType>)
    requires SpecOk(spec) && KeysAgree(s) && AllTyped(s, spec.sumMetrics, ty) && Passed(spec, s, s1)
    ensures Grown(spec, s, s.Keys, s1) && KeysAgree(s1) && AllTyped(s1, spec.sumMetrics, ty)
  {
    var order :| Visits(s.Keys, order) && Run(spec, s, order, |order|) == Some(s1);
    PassConserves(spec, s, order, ty);
  }

  /** A pass that only counts leaves other metrics as they are. */
  lemma SecondTyped(spec: AggregateSpec, s1: Sets, s2: Sets, metrics: seq<string>, ty: map<string, ValueType>)
    requires spec.sumMetrics == [] && spec.countMetric !in metrics && AllTyped(s1, metrics, ty)
    requires Grown(spec, s1, s1.Keys, s2)
    ensures AllTyped(s2, metrics, ty)
  {
    forall k | k in s2 ensures Typed(s2[k].values, metrics, ty) {
      if IsGroupKey(spec.grouping, k) {
        assert GroupGrown(spec, s1, s1.Keys, s2, k);
        assert Typed(ValuesAt(s1, k), metrics, ty);
      }
    }
  }
}
