/** Summing containers into pods that lack a metric, plugins/processors/pod_aggregator.go. */
module PodSums {
  import opened Options
  import opened MapOrders
  import opened ResourceKeys
  import opened MetricSets
  import opened RollUps
  import opened RollUpSums
  import opened WeightedSums

  const HOSTNAME := "hostname"
  const HOST_ID := "host_id"

  const LABELS_TO_POPULATE: set<string> := {POD_ID, POD_NAME, NAMESPACE_NAME, NAMESPACE_ID, HOSTNAME, HOST_ID}

  /** The set made for a pod that the batch lacks. */
  function NewPod(labels: map<string, string>): SetView {
    NewView(map[], (map l | l in labels && l in LABELS_TO_POPULATE :: labels[l])[TYPE := TYPE_POD])
  }

  /** The pod that a container belongs to, if its labels tell. */
  function PodOf(v: SetView): Option<ResourceKey> {
    if TypeOf(v) == TYPE_POD_CONTAINER && POD_NAME in v.labels && NAMESPACE_NAME in v.labels
    then Some(PodKey(v.labels[NAMESPACE_NAME], v.labels[POD_NAME]))
    else None
  }

  /** The key under which requireAggregate remembers that a pod lacked a metric. */
  function Tag(pod: ResourceKey, m: string): string { Text(pod) + m }

  /** One metric of a container, met by the pod's values. */
  function AbsorbOne(pod: Values, required: bool, m: string, val: Value): Value {
    if m !in pod then val
    else if required && pod[m].valueType == val.valueType then Plus(pod[m], val)
    else pod[m]
  }

  predicate Taken(src: Values, skipped: set<string>, m: string) {
    m in src && m !in skipped
  }

  /** The pod's values after all metrics of a container. */
  function Absorb(pk: ResourceKey, pod: Values, src: Values, skipped: set<string>, required: set<string>): Values {
    map m | m in pod.Keys + src.Keys && (m in pod || Taken(src, skipped, m)) ::
      if Taken(src, skipped, m) then AbsorbOne(pod, Tag(pk, m) in required, m, src[m]) else pod[m]
  }

  function Lacked(pk: ResourceKey, pod: Values, src: Values, skipped: set<string>): set<string> {
    set m | m in src && m !in skipped && m !in pod :: Tag(pk, m)
  }

  datatype State = State(sets: Sets, required: set<string>)

  function PodAt(sets: Sets, pk: ResourceKey, labels: map<string, string>): SetView {
    if pk in sets then sets[pk] else NewPod(labels)
  }

  /** Visiting the set at k; pods of the batch and new pods stand in one map here. */
  function VisitPods(skipped: set<string>, st: State, k: ResourceKey): State {
    if k !in st.sets then st
    else
      var v := st.sets[k];
      match PodOf(v)
      case None => st
      case Some(pk) =>
        var pod := PodAt(st.sets, pk, v.labels);
        State(st.sets[pk := pod.(values := Absorb(pk, pod.values, v.values, skipped, st.required))],
              st.required + Lacked(pk, pod.values, v.values, skipped))
  }

  function RunPods(skipped: set<string>, sets: Sets, order: seq<ResourceKey>, n: nat): State
    requires n <= |order|
  {
    if n == 0 then State(sets, {}) else VisitPods(skipped, RunPods(skipped, sets, order, n - 1), order[n - 1])
  }

  // ---- What the pods get --------------------------------------------------------------------------

  predicate ContainerIn(s: Sets, seen: set<ResourceKey>, pk: ResourceKey, k: ResourceKey) {
    k in seen && k in s && PodOf(s[k]) == Some(pk)
  }

  predicate Supplies(s: Sets, seen: set<ResourceKey>, skipped: set<string>, pk: ResourceKey, m: string, k: ResourceKey) {
    ContainerIn(s, seen, pk, k) && Taken(s[k].values, skipped, m)
  }

  /** The amounts of a metric in a pod's containers among the visited keys. */
  ghost function ContainerAmounts(s: Sets, seen: set<ResourceKey>, skipped: set<string>, pk: ResourceKey,
                                  m: string): map<ResourceKey, real> {
    map k | k in seen && Supplies(s, seen, skipped, pk, m, k) :: AmountOf(s[k], m)
  }

  /** The containers of the pod agree on the type of the metric. */
  ghost predicate MetricTyped(s: Sets, skipped: set<string>, pk: ResourceKey, m: string, t: ValueType) {
    forall k :: Supplies(s, s.Keys, skipped, pk, m, k) ==> s[k].values[m].valueType == t
  }

  /** The container at k supplies m, and its pod has m already. */
  predicate Own(s: Sets, skipped: set<string>, k: ResourceKey, m: string) {
    k in s && PodOf(s[k]).Some? && Taken(s[k].values, skipped, m) && m in ValuesAt(s, PodOf(s[k]).value)
  }

  predicate Missing(s: Sets, skipped: set<string>, k: ResourceKey, m: string) {
    k in s && PodOf(s[k]).Some? && Taken(s[k].values, skipped, m) && m !in ValuesAt(s, PodOf(s[k]).value)
  }

  function TagOf(s: Sets, k: ResourceKey, m: string): string {
    if k in s && PodOf(s[k]).Some? then Tag(PodOf(s[k]).value, m) else ""
  }

  /** A visited container has found its pod without a metric, and left this tag. */
  ghost predicate Marked(s: Sets, seen: set<ResourceKey>, skipped: set<string>, tag: string) {
    exists k, m :: k in seen && Missing(s, skipped, k, m) && TagOf(s, k, m) == tag
  }

  /** Pods come in with their containers; nothing else does, and nothing but pods' values changes. */
  ghost predicate KeysKept(s0: Sets, seen: set<ResourceKey>, s: Sets) {
    && (forall k :: k in s <==> k in s0 || (k.PodKey? && exists j :: ContainerIn(s0, seen, k, j)))
    && (forall k :: k in s0 ==> s[k] == s0[k].(values := s[k].values))
    && (forall k :: k in s0 && !k.PodKey? ==> s[k] == s0[k])
    && (forall k :: k in s && k.PodKey? ==> TypeOf(s[k]) == TYPE_POD)
  }

  /** A pod has the metrics that it had and those that its visited containers supply. */
  ghost predicate MetricThere(s0: Sets, seen: set<ResourceKey>, skipped: set<string>, s: Sets, pk: ResourceKey, m: string) {
    m in ValuesAt(s, pk) <==> m in ValuesAt(s0, pk) || exists k :: Supplies(s0, seen, skipped, pk, m, k)
  }

  /** What visiting the keys of seen, in whatever order, has made of the batch and the tags. */
  ghost predicate Account(s0: Sets, seen: set<ResourceKey>, skipped: set<string>, st: State) {
    && KeysKept(s0, seen, st.sets)
    && (forall t :: t in st.required <==> Marked(s0, seen, skipped, t))
    && (forall pk: ResourceKey, m :: pk.PodKey? ==> MetricThere(s0, seen, skipped, st.sets, pk, m))
  }

  lemma TagInjective(pk: ResourceKey, m: string, m1: string)
    requires Tag(pk, m) == Tag(pk, m1)
    ensures m == m1
  {
    Cancel(Text(pk), m, m1);
  }

  lemma NothingVisited(s0: Sets, skipped: set<string>)
    requires KeysAgree(s0)
    ensures Account(s0, {}, skipped, State(s0, {}))
  {
    forall k | k in s0 && k.PodKey? ensures TypeOf(s0[k]) == TYPE_POD {
      assert KeyAgrees(k, s0[k]);
    }
  }

  lemma KeysStay(s0: Sets, seen: set<ResourceKey>, s: Sets, k: ResourceKey, pk: ResourceKey, pod: SetView, values: Values)
    requires KeysKept(s0, seen, s) && k in s0 && PodOf(s0[k]) == Some(pk) && TypeOf(pod) == TYPE_POD
    requires pk in s ==> pod == s[pk]
    ensures KeysKept(s0, seen + {k}, s[pk := pod.(values := values)])
  {
    KeysCome(s0, seen, s, k, pk);
    var s1 := s[pk := pod.(values := values)];
    assert s1.Keys == s.Keys + {pk};
  }

  lemma KeysCome(s0: Sets, seen: set<ResourceKey>, s: Sets, k: ResourceKey, pk: ResourceKey)
    requires KeysKept(s0, seen, s) && k in s0 && PodOf(s0[k]) == Some(pk)
    ensures forall j :: j in s.Keys + {pk} <==> j in s0 || (j.PodKey? && exists i :: ContainerIn(s0, seen + {k}, j, i))
  {
    forall j ensures j in s.Keys + {pk} <==> j in s0 || (j.PodKey? && exists i :: ContainerIn(s0, seen + {k}, j, i)) {
      ContainersSeen(s0, seen, k, pk, j);
    }
  }

  lemma ContainersSeen(s0: Sets, seen: set<ResourceKey>, k: ResourceKey, pk: ResourceKey, j: ResourceKey)
    requires k in s0 && PodOf(s0[k]) == Some(pk)
    ensures (exists i :: ContainerIn(s0, seen + {k}, j, i)) <==> j == pk || exists i :: ContainerIn(s0, seen, j, i)
  {
    assert j == pk ==> ContainerIn(s0, seen + {k}, j, k);
    assert forall i :: ContainerIn(s0, seen + {k}, j, i) <==> ContainerIn(s0, seen, j, i) || (i == k && j == pk);
  }

  /** Visiting what is no container changes nothing. */
  lemma NoContainer(s0: Sets, seen: set<ResourceKey>, skipped: set<string>, st: State, k: ResourceKey)
    requires Account(s0, seen, skipped, st) && (k in s0 ==> PodOf(s0[k]) == None)
    ensures Account(s0, seen + {k}, skipped, st)
  {
    assert forall j, i :: ContainerIn(s0, seen + {k}, j, i) <==> ContainerIn(s0, seen, j, i);
    forall pk: ResourceKey, m | pk.PodKey? ensures MetricThere(s0, seen + {k}, skipped, st.sets, pk, m) {
      assert MetricThere(s0, seen, skipped, st.sets, pk, m);
      assert forall j :: Supplies(s0, seen + {k}, skipped, pk, m, j) <==> Supplies(s0, seen, skipped, pk, m, j);
    }
    forall t ensures Marked(s0, seen + {k}, skipped, t) <==> Marked(s0, seen, skipped, t) {
      assert forall j, m :: j in seen + {k} && Missing(s0, skipped, j, m) ==> j in seen;
    }
  }

  /** The tags that a container leaves are those of all the metrics that its pod lacked at first. */
  lemma MarksGrow(s0: Sets, seen: set<ResourceKey>, skipped: set<string>, st: State, pk: ResourceKey, k: ResourceKey, t: string)
    requires Account(s0, seen, skipped, st) && k in s0 && PodOf(s0[k]) == Some(pk)
    ensures t in st.required + Lacked(pk, ValuesAt(st.sets, pk), s0[k].values, skipped) <==> Marked(s0, seen + {k}, skipped, t)
  {
    var lacked := Lacked(pk, ValuesAt(st.sets, pk), s0[k].values, skipped);
    if t in lacked {
      var m :| m in s0[k].values && m !in skipped && m !in ValuesAt(st.sets, pk) && Tag(pk, m) == t;
      assert MetricThere(s0, seen, skipped, st.sets, pk, m);
      assert Missing(s0, skipped, k, m) && TagOf(s0, k, m) == t;
    }
    if Marked(s0, seen + {k}, skipped, t) {
      var j, m :| j in seen + {k} && Missing(s0, skipped, j, m) && TagOf(s0, j, m) == t;
      assert j in seen ==> Marked(s0, seen, skipped, t);
      if j == k && m in ValuesAt(st.sets, pk) {
        SuppliedIsMarked(s0, seen, skipped, st, pk, m);
      }
    }
  }

  /** A metric that a pod has got was missing when it came. */
  lemma SuppliedIsMarked(s0: Sets, seen: set<ResourceKey>, skipped: set<string>, st: State, pk: ResourceKey, m: string)
    requires Account(s0, seen, skipped, st) && pk.PodKey? && m !in ValuesAt(s0, pk) && m in ValuesAt(st.sets, pk)
    ensures Marked(s0, seen, skipped, Tag(pk, m))
  {
    assert MetricThere(s0, seen, skipped, st.sets, pk, m);
    var k :| Supplies(s0, seen, skipped, pk, m, k);
    assert Missing(s0, skipped, k, m) && TagOf(s0, k, m) == Tag(pk, m);
  }

  lemma VisitCounts(s0: Sets, seen: set<ResourceKey>, seen1: set<ResourceKey>, skipped: set<string>, st: State, k: ResourceKey)
    requires KeysAgree(s0) && Account(s0, seen, skipped, st) && k in s0 && k !in seen && seen1 == seen + {k}
    ensures Account(s0, seen1, skipped, VisitPods(skipped, st, k))
  {
    assert KeyAgrees(k, s0[k]);
    assert st.sets[k] == s0[k] || PodOf(s0[k]) == None == PodOf(st.sets[k]);
    if PodOf(s0[k]).Some? {
      ContainerCounts(s0, seen, skipped, st, k, PodOf(s0[k]).value);
    } else {
      NoContainer(s0, seen, skipped, st, k);
    }
  }

  lemma ContainerCounts(s0: Sets, seen: set<ResourceKey>, skipped: set<string>, st: State, k: ResourceKey, pk: ResourceKey)
    requires Account(s0, seen, skipped, st) && k in s0 && k !in seen && PodOf(s0[k]) == Some(pk) && k in st.sets && st.sets[k] == s0[k]
    ensures Account(s0, seen + {k}, skipped, VisitPods(skipped, st, k))
  {
    var pod, st1 := PodAt(st.sets, pk, s0[k].labels), VisitPods(skipped, st, k);
    assert pod.values == ValuesAt(st.sets, pk);
    KeysStay(s0, seen, st.sets, k, pk, pod, st1.sets[pk].values);
    forall t ensures t in st1.required <==> Marked(s0, seen + {k}, skipped, t) {
      MarksGrow(s0, seen, skipped, st, pk, k, t);
    }
    forall p: ResourceKey, m | p.PodKey? ensures MetricThere(s0, seen + {k}, skipped, st1.sets, p, m) {
      assert MetricThere(s0, seen, skipped, st.sets, p, m);
      MetricComes(s0, seen, skipped, st.sets, st1.sets, k, pk, p, m);
    }
  }

  lemma MetricComes(s0: Sets, seen: set<ResourceKey>, skipped: set<string>, s: Sets, s1: Sets, k: ResourceKey, pk: ResourceKey,
                    p: ResourceKey, m: string)
    requires MetricThere(s0, seen, skipped, s, p, m) && k in s0 && PodOf(s0[k]) == Some(pk)
    requires m in ValuesAt(s1, p) <==> m in ValuesAt(s, p) || (p == pk && Taken(s0[k].values, skipped, m))
    ensures MetricThere(s0, seen + {k}, skipped, s1, p, m)
  {
    assert forall j :: Supplies(s0, seen + {k}, skipped, p, m, j) <==>
                       Supplies(s0, seen, skipped, p, m, j) || (j == k && p == pk && Taken(s0[k].values, skipped, m));
    if p == pk && Taken(s0[k].values, skipped, m) {
      assert Supplies(s0, seen + {k}, skipped, p, m, k);
    }
  }

  lemma {:induction false} RunCounts(s0: Sets, order: seq<ResourceKey>, n: nat, skipped: set<string>)
    requires KeysAgree(s0) && Ranges(s0.Keys, order) && n <= |order|
    ensures Account(s0, SeenIn(order, n), skipped, RunPods(skipped, s0, order, n))
  {
    if n == 0 {
      NothingVisited(s0, skipped);
    } else {
      RunCounts(s0, order, n - 1, skipped);
      CountsNext(s0, order, n, skipped);
    }
  }

  lemma {:induction false} CountsNext(s0: Sets, order: seq<ResourceKey>, n: nat, skipped: set<string>)
    requires KeysAgree(s0) && Ranges(s0.Keys, order) && 0 < n <= |order|
    requires Account(s0, SeenIn(order, n - 1), skipped, RunPods(skipped, s0, order, n - 1))
    ensures Account(s0, SeenIn(order, n), skipped, RunPods(skipped, s0, order, n))
  {
    SeenNext(order, n);
    VisitCounts(s0, SeenIn(order, n - 1), SeenIn(order, n), skipped, RunPods(skipped, s0, order, n - 1), order[n - 1]);
  }

  /** Whatever the order: pods come in with their containers and get the metrics they lack; nothing else changes. */
  lemma {:induction false} PodsMade(s0: Sets, order: seq<ResourceKey>, skipped: set<string>)
    requires KeysAgree(s0) && Ranges(s0.Keys, order)
    ensures var s := RunPods(skipped, s0, order, |order|).sets;
      && KeysKept(s0, s0.Keys, s)
      && forall pk: ResourceKey, m :: pk.PodKey? ==> MetricThere(s0, s0.Keys, skipped, s, pk, m)
  {
    RunCounts(s0, order, |order|, skipped);
    SeenAllKeys(s0.Keys, order);
  }

  /** What supplies a metric to a pod is a container labelled with the pod's names that has it, unless it is skipped. */
  lemma SuppliersAre(s: Sets, seen: set<ResourceKey>, skipped: set<string>, ns: string, pod: string, m: string, k: ResourceKey)
    ensures Supplies(s, seen, skipped, PodKey(ns, pod), m, k) <==>
      && k in seen && k in s && m in s[k].values && m !in skipped
      && HasLabel(s[k].labels, "type", "pod_container") && HasLabel(s[k].labels, "namespace_name", ns) && HasLabel(s[k].labels, "pod_name", pod)
  {
  }

  /** A pod that was made has these labels of its container and no others, and nothing but values besides. */
  ghost predicate PodLabelledBy(v: SetView, container: map<string, string>) {
    && v.labeledValues == [] && v.collectionStartTime == 0 && v.entityCreateTime == 0 && v.scrapeTime == 0
    && HasLabel(v.labels, "type", "pod")
    && forall name :: name != "type" ==>
         (name in v.labels <==> name in container && name in {"pod_id", "pod_name", "namespace_name", "namespace_id", "hostname", "host_id"})
         && (name in v.labels ==> v.labels[name] == container[name])
  }

  lemma NewPodLabelled(labels: map<string, string>, values: Values)
    ensures PodLabelledBy(NewPod(labels).(values := values), labels)
  {
    assert forall l :: l in LABELS_TO_POPULATE ==> l != "type" by {
      assert |"type"| == 4;
    }
  }

  ghost predicate LabelledBySome(s0: Sets, pk: ResourceKey, v: SetView) {
    exists k :: ContainerIn(s0, s0.Keys, pk, k) && PodLabelledBy(v, s0[k].labels)
  }

  /** Each pod that comes in is labelled by a container of its own. */
  lemma {:induction false} NewPodsLabelled(s0: Sets, order: seq<ResourceKey>, n: nat, skipped: set<string>, pk: ResourceKey)
    requires KeysAgree(s0) && Ranges(s0.Keys, order) && n <= |order| && pk.PodKey? && pk !in s0
    ensures LabelledIn(s0, pk, RunPods(skipped, s0, order, n))
  {
    if n > 0 {
      NewPodsLabelled(s0, order, n - 1, skipped, pk);
      LabelsNext(s0, order, n, skipped, pk);
    }
  }

  lemma {:induction false} LabelsNext(s0: Sets, order: seq<ResourceKey>, n: nat, skipped: set<string>, pk: ResourceKey)
    requires KeysAgree(s0) && Ranges(s0.Keys, order) && 0 < n <= |order| && pk.PodKey? && pk !in s0
    requires LabelledIn(s0, pk, RunPods(skipped, s0, order, n - 1))
    ensures LabelledIn(s0, pk, RunPods(skipped, s0, order, n))
  {
    SeenNext(order, n);
    RunCounts(s0, order, n - 1, skipped);
    VisitLabels(s0, SeenIn(order, n - 1), skipped, RunPods(skipped, s0, order, n - 1), order[n - 1], pk);
  }

  ghost predicate LabelledIn(s0: Sets, pk: ResourceKey, st: State) {
    pk in st.sets ==> LabelledBySome(s0, pk, st.sets[pk])
  }

  lemma VisitLabels(s0: Sets, seen: set<ResourceKey>, skipped: set<string>, st: State, k: ResourceKey, pk: ResourceKey)
    requires KeysAgree(s0) && Account(s0, seen, skipped, st) && k in s0 && pk.PodKey? && pk !in s0
    requires LabelledIn(s0, pk, st)
    ensures LabelledIn(s0, pk, VisitPods(skipped, st, k))
  {
    assert KeyAgrees(k, s0[k]);
    assert st.sets[k] == s0[k] || PodOf(s0[k]) == None == PodOf(st.sets[k]);
    var s1 := VisitPods(skipped, st, k).sets;
    if PodOf(s0[k]) == Some(pk) {
      if pk !in st.sets {
        NewPodLabelled(s0[k].labels, s1[pk].values);
        assert ContainerIn(s0, s0.Keys, pk, k);
      } else {
        var j :| ContainerIn(s0, s0.Keys, pk, j) && PodLabelledBy(st.sets[pk], s0[j].labels);
        assert PodLabelledBy(s1[pk], s0[j].labels);
      }
    }
  }

  // ---- Metrics that a pod lacks ----------------------------------------------------------------------

  /** The amounts of one type. */
  ghost function TypedAmounts(s: Sets, seen: set<ResourceKey>, skipped: set<string>, pk: ResourceKey, m: string,
                              t: ValueType): map<ResourceKey, real> {
    map k | k in seen && SuppliesTyped(s, seen, skipped, pk, m, t, k) :: AmountOf(s[k], m)
  }

  predicate SuppliesTyped(s: Sets, seen: set<ResourceKey>, skipped: set<string>, pk: ResourceKey, m: string, t: ValueType, k: ResourceKey) {
    Supplies(s, seen, skipped, pk, m, k) && s[k].values[m].valueType == t
  }

  /** What visiting the keys of seen has made of a metric that the pod lacked: it sums the amounts of its own type. */
  ghost predicate MetricSummed(s0: Sets, seen: set<ResourceKey>, skipped: set<string>, now: Values, pk: ResourceKey, m: string) {
    && (m in now <==> exists k :: Supplies(s0, seen, skipped, pk, m, k))
    && (m in now ==> Amount(now[m]) == Total(TypedAmounts(s0, seen, skipped, pk, m, now[m].valueType)))
  }

  lemma AmountsGrow(s0: Sets, seen: set<ResourceKey>, skipped: set<string>, pk: ResourceKey, m: string, t: ValueType, k: ResourceKey)
    requires k !in seen
    ensures Total(TypedAmounts(s0, seen + {k}, skipped, pk, m, t)) ==
      Total(TypedAmounts(s0, seen, skipped, pk, m, t)) + if SuppliesTyped(s0, {k}, skipped, pk, m, t, k) then AmountOf(s0[k], m) else 0.0
  {
    var before, after := TypedAmounts(s0, seen, skipped, pk, m, t), TypedAmounts(s0, seen + {k}, skipped, pk, m, t);
    assert forall j :: j in after <==> j in before || (j == k && SuppliesTyped(s0, {k}, skipped, pk, m, t, k));
    if SuppliesTyped(s0, {k}, skipped, pk, m, t, k) {
      SameMap(after, before[k := AmountOf(s0[k], m)]);
      TotalInsert(before, k, AmountOf(s0[k], m));
    } else {
      SameMap(after, before);
    }
  }

  /** Only what supplies the metric to the pod changes it there. */
  ghost predicate Met(s0: Sets, seen: set<ResourceKey>, skipped: set<string>, was: Values, now: Values, k: ResourceKey,
                      pk: ResourceKey, m: string) {
    if Supplies(s0, s0.Keys, skipped, pk, m, k)
    then m in now && now[m] == AbsorbOne(was, Marked(s0, seen, skipped, Tag(pk, m)), m, s0[k].values[m])
    else (m in now <==> m in was) && (m in now ==> now[m] == was[m])
  }

  lemma VisitMeets(s0: Sets, seen: set<ResourceKey>, skipped: set<string>, st: State, k: ResourceKey, pk: ResourceKey, m: string)
    requires KeysAgree(s0) && Account(s0, seen, skipped, st) && k in s0 && pk.PodKey?
    ensures Met(s0, seen, skipped, ValuesAt(st.sets, pk), ValuesAt(VisitPods(skipped, st, k).sets, pk), k, pk, m)
  {
    assert KeyAgrees(k, s0[k]);
    assert st.sets[k] == s0[k] || PodOf(s0[k]) == None == PodOf(st.sets[k]);
  }

  lemma RunMeets(s0: Sets, order: seq<ResourceKey>, n: nat, skipped: set<string>, pk: ResourceKey, m: string)
    requires KeysAgree(s0) && Ranges(s0.Keys, order) && n < |order| && pk.PodKey?
    ensures var was, now := ValuesAt(RunPods(skipped, s0, order, n).sets, pk), ValuesAt(RunPods(skipped, s0, order, n + 1).sets, pk);
      && Met(s0, SeenIn(order, n), skipped, was, now, order[n], pk, m)
      && (m !in ValuesAt(s0, pk) && m in was ==> Marked(s0, SeenIn(order, n), skipped, Tag(pk, m)))
  {
    RunCounts(s0, order, n, skipped);
    var st := RunPods(skipped, s0, order, n);
    VisitMeets(s0, SeenIn(order, n), skipped, st, order[n], pk, m);
    if m !in ValuesAt(s0, pk) && m in ValuesAt(st.sets, pk) {
      SuppliedIsMarked(s0, SeenIn(order, n), skipped, st, pk, m);
    }
  }

  lemma SumsGrow(s0: Sets, seen: set<ResourceKey>, seen1: set<ResourceKey>, skipped: set<string>, was: Values, now: Values, k: ResourceKey,
                 pk: ResourceKey, m: string)
    requires k in s0 && k !in seen && seen1 == seen + {k}
    requires Met(s0, seen, skipped, was, now, k, pk, m) && (m in was ==> Marked(s0, seen, skipped, Tag(pk, m)))
    requires MetricSummed(s0, seen, skipped, was, pk, m)
    ensures MetricSummed(s0, seen1, skipped, now, pk, m)
  {
    assert forall j :: Supplies(s0, seen1, skipped, pk, m, j) <==> Supplies(s0, seen, skipped, pk, m, j) || (j == k && Supplies(s0, {k}, skipped, pk, m, k));
    assert Supplies(s0, {k}, skipped, pk, m, k) <==> Supplies(s0, s0.Keys, skipped, pk, m, k);
    if m in now {
      AmountsGrow(s0, seen, skipped, pk, m, now[m].valueType, k);
      if m in was {
        assert now[m].valueType == was[m].valueType;
      } else {
        assert TypedAmounts(s0, seen, skipped, pk, m, now[m].valueType) == map[];
        assert Supplies(s0, seen1, skipped, pk, m, k);
      }
    }
  }

  lemma {:induction false} RunSums(s0: Sets, order: seq<ResourceKey>, n: nat, skipped: set<string>, pk: ResourceKey, m: string)
    requires KeysAgree(s0) && Ranges(s0.Keys, order) && n <= |order| && pk.PodKey? && m !in ValuesAt(s0, pk)
    ensures MetricSummed(s0, SeenIn(order, n), skipped, ValuesAt(RunPods(skipped, s0, order, n).sets, pk), pk, m)
  {
    if n > 0 {
      RunSums(s0, order, n - 1, skipped, pk, m);
      RunMeets(s0, order, n - 1, skipped, pk, m);
      SeenNext(order, n);
      SumsGrow(s0, SeenIn(order, n - 1), SeenIn(order, n), skipped, ValuesAt(RunPods(skipped, s0, order, n - 1).sets, pk),
               ValuesAt(RunPods(skipped, s0, order, n).sets, pk), order[n - 1], pk, m);
    }
  }

  /**
   * Whatever the order, and whatever tags are equal: a metric that a pod lacks comes from its containers,
   * and is the sum over those of them that have it with one and the same type.
   */
  lemma {:induction false} LackedSums(s0: Sets, order: seq<ResourceKey>, skipped: set<string>, pk: ResourceKey, m: string)
    requires KeysAgree(s0) && Ranges(s0.Keys, order) && pk.PodKey? && m !in ValuesAt(s0, pk)
    ensures MetricSummed(s0, s0.Keys, skipped, ValuesAt(RunPods(skipped, s0, order, |order|).sets, pk), pk, m)
  {
    RunSums(s0, order, |order|, skipped, pk, m);
    SeenAllKeys(s0.Keys, order);
  }

  /** When the containers agree on the type, that is the sum over all of them. */
  lemma {:induction false} PodsSum(s0: Sets, order: seq<ResourceKey>, skipped: set<string>, pk: ResourceKey, m: string, t: ValueType)
    requires KeysAgree(s0) && Ranges(s0.Keys, order) && pk.PodKey? && m !in ValuesAt(s0, pk) && MetricTyped(s0, skipped, pk, m, t)
    ensures var now := ValuesAt(RunPods(skipped, s0, order, |order|).sets, pk);
      && (m in now <==> exists k :: Supplies(s0, s0.Keys, skipped, pk, m, k))
      && AmountIn(now, m) == Total(ContainerAmounts(s0, s0.Keys, skipped, pk, m))
      && (m in now ==> now[m].valueType == t)
  {
    var now := ValuesAt(RunPods(skipped, s0, order, |order|).sets, pk);
    LackedSums(s0, order, skipped, pk, m);
    AllTheSame(s0, skipped, pk, m, t);
    TypeSupplied(s0, order, |order|, skipped, pk, m);
    if m !in now {
      assert ContainerAmounts(s0, s0.Keys, skipped, pk, m) == map[];
    }
  }

  lemma AllTheSame(s0: Sets, skipped: set<string>, pk: ResourceKey, m: string, t: ValueType)
    requires MetricTyped(s0, skipped, pk, m, t)
    ensures TypedAmounts(s0, s0.Keys, skipped, pk, m, t) == ContainerAmounts(s0, s0.Keys, skipped, pk, m)
  {
    SameMap(TypedAmounts(s0, s0.Keys, skipped, pk, m, t), ContainerAmounts(s0, s0.Keys, skipped, pk, m));
  }

  /** The type is that of a container's value. */
  lemma {:induction false} TypeSupplied(s0: Sets, order: seq<ResourceKey>, n: nat, skipped: set<string>, pk: ResourceKey, m: string)
    requires KeysAgree(s0) && Ranges(s0.Keys, order) && n <= |order| && pk.PodKey? && m !in ValuesAt(s0, pk)
    ensures var now := ValuesAt(RunPods(skipped, s0, order, n).sets, pk);
      m in now ==> exists k :: SuppliesTyped(s0, s0.Keys, skipped, pk, m, now[m].valueType, k)
  {
    if n > 0 {
      TypeSupplied(s0, order, n - 1, skipped, pk, m);
      RunMeets(s0, order, n - 1, skipped, pk, m);
      TypeStays(s0, SeenIn(order, n - 1), skipped, ValuesAt(RunPods(skipped, s0, order, n - 1).sets, pk),
                ValuesAt(RunPods(skipped, s0, order, n).sets, pk), order[n - 1], pk, m);
    }
  }

  lemma TypeStays(s0: Sets, seen: set<ResourceKey>, skipped: set<string>, was: Values, now: Values, k: ResourceKey, pk: ResourceKey,
                  m: string)
    requires Met(s0, seen, skipped, was, now, k, pk, m)
    requires m in was ==> exists j :: SuppliesTyped(s0, s0.Keys, skipped, pk, m, was[m].valueType, j)
    ensures m in now ==> exists j :: SuppliesTyped(s0, s0.Keys, skipped, pk, m, now[m].valueType, j)
  {
    if m in now && m !in was {
      assert SuppliesTyped(s0, s0.Keys, skipped, pk, m, now[m].valueType, k);
    }
  }

  /** The container that is visited first decides the type. */
  lemma {:induction false} FirstDecides(s0: Sets, order: seq<ResourceKey>, n: nat, skipped: set<string>, pk: ResourceKey, m: string)
    requires KeysAgree(s0) && Ranges(s0.Keys, order) && 0 < n <= |order| && pk.PodKey? && m !in ValuesAt(s0, pk)
    requires Supplies(s0, s0.Keys, skipped, pk, m, order[0])
    ensures var now := ValuesAt(RunPods(skipped, s0, order, n).sets, pk);
      m in now && now[m].valueType == s0[order[0]].values[m].valueType
  {
    RunMeets(s0, order, n - 1, skipped, pk, m);
    if n == 1 {
      assert RunPods(skipped, s0, order, 0) == State(s0, {});
    } else {
      FirstDecides(s0, order, n - 1, skipped, pk, m);
    }
  }

  /**
   * In every order the pod gets the sum over all its containers, if and only if the amounts of each type
   * that occurs make up that sum.
   */
  lemma {:induction false} PodsSumInAnyOrder(s0: Sets, skipped: set<string>, pk: ResourceKey, m: string)
    requires KeysAgree(s0) && pk.PodKey? && m !in ValuesAt(s0, pk)
    ensures (forall k, t :: SuppliesTyped(s0, s0.Keys, skipped, pk, m, t, k) ==>
                 Total(TypedAmounts(s0, s0.Keys, skipped, pk, m, t)) == Total(ContainerAmounts(s0, s0.Keys, skipped, pk, m)))
            <==> forall order :: Ranges(s0.Keys, order) ==> SumOfAll(s0, skipped, order, pk, m)
  {
    if forall k, t :: SuppliesTyped(s0, s0.Keys, skipped, pk, m, t, k) ==>
         Total(TypedAmounts(s0, s0.Keys, skipped, pk, m, t)) == Total(ContainerAmounts(s0, s0.Keys, skipped, pk, m))
    {
      forall order | Ranges(s0.Keys, order) ensures SumOfAll(s0, skipped, order, pk, m) {
        LackedSums(s0, order, skipped, pk, m);
        TypeSupplied(s0, order, |order|, skipped, pk, m);
        if m !in ValuesAt(RunPods(skipped, s0, order, |order|).sets, pk) {
          assert ContainerAmounts(s0, s0.Keys, skipped, pk, m) == map[];
        }
      }
    } else {
      var k, t :| SuppliesTyped(s0, s0.Keys, skipped, pk, m, t, k) &&
                  Total(TypedAmounts(s0, s0.Keys, skipped, pk, m, t)) != Total(ContainerAmounts(s0, s0.Keys, skipped, pk, m));
      var order := StartingWith(s0.Keys, k);
      LackedSums(s0, order, skipped, pk, m);
      FirstDecides(s0, order, |order|, skipped, pk, m);
      assert !SumOfAll(s0, skipped, order, pk, m);
    }
  }

  ghost predicate SumOfAll(s0: Sets, skipped: set<string>, order: seq<ResourceKey>, pk: ResourceKey, m: string)
    requires Ranges(s0.Keys, order)
  {
    AmountIn(ValuesAt(RunPods(skipped, s0, order, |order|).sets, pk), m) == Total(ContainerAmounts(s0, s0.Keys, skipped, pk, m))
  }

  // ---- Metrics that a pod has --------------------------------------------------------------------------

  /**
   * A value that a pod has, after n visits: what a container supplies is added once the tag of the metric
   * has been left, which can only be by a container of another pod.
   */
  ghost function OwnAfter(s0: Sets, skipped: set<string>, order: seq<ResourceKey>, n: nat, pk: ResourceKey, m: string): (v: Value)
    requires n <= |order| && m in ValuesAt(s0, pk)
    ensures v.valueType == ValuesAt(s0, pk)[m].valueType
  {
    if n == 0 then ValuesAt(s0, pk)[m]
    else
      OwnStep(s0, skipped, SeenIn(order, n - 1), order[n - 1], pk, m, OwnAfter(s0, skipped, order, n - 1, pk, m))
  }

  ghost function OwnStep(s0: Sets, skipped: set<string>, seen: set<ResourceKey>, k: ResourceKey, pk: ResourceKey, m: string,
                         v: Value): (w: Value)
    ensures w.valueType == v.valueType
  {
    if Supplies(s0, s0.Keys, skipped, pk, m, k) && Marked(s0, seen, skipped, Tag(pk, m)) && v.valueType == s0[k].values[m].valueType
    then Plus(v, s0[k].values[m])
    else v
  }

  lemma {:induction false} OwnValues(s0: Sets, order: seq<ResourceKey>, n: nat, skipped: set<string>, pk: ResourceKey, m: string)
    requires KeysAgree(s0) && Ranges(s0.Keys, order) && n <= |order| && pk.PodKey? && m in ValuesAt(s0, pk)
    ensures var now := ValuesAt(RunPods(skipped, s0, order, n).sets, pk);
      m in now && now[m] == OwnAfter(s0, skipped, order, n, pk, m)
  {
    if n > 0 {
      OwnValues(s0, order, n - 1, skipped, pk, m);
      RunMeets(s0, order, n - 1, skipped, pk, m);
      OwnMet(s0, SeenIn(order, n - 1), skipped, ValuesAt(RunPods(skipped, s0, order, n - 1).sets, pk),
             ValuesAt(RunPods(skipped, s0, order, n).sets, pk), order[n - 1], pk, m);
    }
  }

  lemma OwnMet(s0: Sets, seen: set<ResourceKey>, skipped: set<string>, was: Values, now: Values, k: ResourceKey, pk: ResourceKey, m: string)
    requires Met(s0, seen, skipped, was, now, k, pk, m) && m in was
    ensures m in now && now[m] == OwnStep(s0, skipped, seen, k, pk, m, was[m])
  {
  }

  /** Where tags are equal, what a container would be added to its pod's own value is nothing, or of another type. */
  ghost predicate Harmless(s: Sets, skipped: set<string>) {
    forall k, m, k1, m1 :: Own(s, skipped, k, m) && Missing(s, skipped, k1, m1) && TagOf(s, k, m) == TagOf(s, k1, m1)
      ==> ValuesAt(s, PodOf(s[k]).value)[m].valueType != s[k].values[m].valueType || AmountOf(s[k], m) == 0.0
  }

  ghost predicate OwnKept(s0: Sets, s: Sets) {
    forall pk: ResourceKey, m :: pk.PodKey? && m in ValuesAt(s0, pk) ==> m in ValuesAt(s, pk) && ValuesAt(s, pk)[m] == ValuesAt(s0, pk)[m]
  }

  /** Pods keep the values that they have in every order, if and only if equal tags are harmless. */
  lemma {:induction false} PodsKeepTheirOwn(s0: Sets, skipped: set<string>)
    requires KeysAgree(s0)
    ensures Harmless(s0, skipped) <==> forall order :: Ranges(s0.Keys, order) ==> OwnKept(s0, RunPods(skipped, s0, order, |order|).sets)
  {
    if Harmless(s0, skipped) {
      forall order | Ranges(s0.Keys, order) ensures OwnKept(s0, RunPods(skipped, s0, order, |order|).sets) {
        forall pk: ResourceKey, m | pk.PodKey? && m in ValuesAt(s0, pk)
          ensures var now := ValuesAt(RunPods(skipped, s0, order, |order|).sets, pk); m in now && now[m] == ValuesAt(s0, pk)[m]
        {
          OwnValues(s0, order, |order|, skipped, pk, m);
          OwnUnharmed(s0, skipped, order, |order|, pk, m);
        }
      }
    } else {
      var k, m, k1, m1 :| Own(s0, skipped, k, m) && Missing(s0, skipped, k1, m1) && TagOf(s0, k, m) == TagOf(s0, k1, m1)
        && ValuesAt(s0, PodOf(s0[k]).value)[m].valueType == s0[k].values[m].valueType && AmountOf(s0[k], m) != 0.0;
      var order := ClashChangesOwn(s0, skipped, k, m, k1, m1);
      assert !OwnKept(s0, RunPods(skipped, s0, order, |order|).sets);
    }
  }

  lemma {:induction false} OwnUnharmed(s0: Sets, skipped: set<string>, order: seq<ResourceKey>, n: nat, pk: ResourceKey, m: string)
    requires Harmless(s0, skipped) && Ranges(s0.Keys, order) && n <= |order| && m in ValuesAt(s0, pk)
    ensures OwnAfter(s0, skipped, order, n, pk, m) == ValuesAt(s0, pk)[m]
  {
    if n > 0 {
      OwnUnharmed(s0, skipped, order, n - 1, pk, m);
      var k := order[n - 1];
      if Supplies(s0, s0.Keys, skipped, pk, m, k) && Marked(s0, SeenIn(order, n - 1), skipped, Tag(pk, m)) {
        NoHarm(s0, skipped, SeenIn(order, n - 1), k, pk, m);
      }
    }
  }

  lemma NoHarm(s0: Sets, skipped: set<string>, seen: set<ResourceKey>, k: ResourceKey, pk: ResourceKey, m: string)
    requires Harmless(s0, skipped) && m in ValuesAt(s0, pk)
    requires Supplies(s0, s0.Keys, skipped, pk, m, k) && Marked(s0, seen, skipped, Tag(pk, m))
    ensures var was, val := ValuesAt(s0, pk)[m], s0[k].values[m]; was.valueType != val.valueType || Plus(was, val) == was
  {
    var k1, m1 :| k1 in seen && Missing(s0, skipped, k1, m1) && TagOf(s0, k1, m1) == Tag(pk, m);
    assert Own(s0, skipped, k, m) && TagOf(s0, k, m) == Tag(pk, m);
  }

  /**
   * With two equal tags there is an order in which a pod's own value changes: the other containers of the
   * pod first, then the one of the pod that lacks its metric, then the one that supplies this value.
   */
  lemma ClashChangesOwn(s0: Sets, skipped: set<string>, k: ResourceKey, m: string, k1: ResourceKey,
                        m1: string) returns (order: seq<ResourceKey>)
    requires KeysAgree(s0) && Own(s0, skipped, k, m) && Missing(s0, skipped, k1, m1) && TagOf(s0, k, m) == TagOf(s0, k1, m1)
    requires ValuesAt(s0, PodOf(s0[k]).value)[m].valueType == s0[k].values[m].valueType
    ensures Ranges(s0.Keys, order)
    ensures var pk := PodOf(s0[k]).value;
      var now := ValuesAt(RunPods(skipped, s0, order, |order|).sets, pk);
      m in now && now[m] == Plus(ValuesAt(s0, pk)[m], s0[k].values[m])
  {
    var pk := PodOf(s0[k]).value;
    if PodOf(s0[k1]) == Some(pk) {
      TagInjective(pk, m, m1);
    }
    var n: nat;
    order, n := ClashOrder(s0, pk, k, k1);
    OwnClashed(s0, skipped, order, n, pk, m, k, k1, m1);
    OwnValues(s0, order, |order|, skipped, pk, m);
  }

  lemma {:induction false} OwnClashed(s0: Sets, skipped: set<string>, order: seq<ResourceKey>, n: nat, pk: ResourceKey, m: string,
                                      k: ResourceKey, k1: ResourceKey, m1: string)
    requires m in ValuesAt(s0, pk) && n + 2 <= |order| && order[n] == k1 && order[n + 1] == k && !ContainerIn(s0, s0.Keys, pk, k1)
    requires forall i :: 0 <= i < n ==> ContainerIn(s0, s0.Keys, pk, order[i])
    requires forall i :: n + 2 <= i < |order| ==> !ContainerIn(s0, s0.Keys, pk, order[i])
    requires Supplies(s0, s0.Keys, skipped, pk, m, k) && Missing(s0, skipped, k1, m1) && Tag(pk, m) == TagOf(s0, k1, m1)
    requires ValuesAt(s0, pk)[m].valueType == s0[k].values[m].valueType
    ensures OwnAfter(s0, skipped, order, |order|, pk, m) == Plus(ValuesAt(s0, pk)[m], s0[k].values[m])
  {
    OwnUnmarked(s0, skipped, order, n, pk, m);
    OwnAdded(s0, skipped, order, n, pk, m, k, k1, m1);
    OwnStays(s0, skipped, order, n + 2, |order|, pk, m);
  }

  lemma OwnAdded(s0: Sets, skipped: set<string>, order: seq<ResourceKey>, n: nat, pk: ResourceKey, m: string, k: ResourceKey,
                 k1: ResourceKey, m1: string)
    requires m in ValuesAt(s0, pk) && n + 2 <= |order| && order[n] == k1 && order[n + 1] == k
    requires Supplies(s0, s0.Keys, skipped, pk, m, k) && Missing(s0, skipped, k1, m1) && Tag(pk, m) == TagOf(s0, k1, m1)
    requires OwnAfter(s0, skipped, order, n + 1, pk, m) == ValuesAt(s0, pk)[m] && ValuesAt(s0, pk)[m].valueType == s0[k].values[m].valueType
    ensures OwnAfter(s0, skipped, order, n + 2, pk, m) == Plus(ValuesAt(s0, pk)[m], s0[k].values[m])
  {
    SeenHas(order, n + 1, k1);
    assert Marked(s0, SeenIn(order, n + 1), skipped, Tag(pk, m));
  }

  lemma ClashOrder(s0: Sets, pk: ResourceKey, k: ResourceKey, k1: ResourceKey) returns (order: seq<ResourceKey>, n: nat)
    requires k in s0 && k1 in s0 && PodOf(s0[k]) == Some(pk) && PodOf(s0[k1]) != Some(pk)
    ensures Ranges(s0.Keys, order) && n + 2 <= |order| && order[n] == k1 && order[n + 1] == k
    ensures forall i :: 0 <= i < n ==> ContainerIn(s0, s0.Keys, pk, order[i])
    ensures forall i :: n + 2 <= i < |order| ==> !ContainerIn(s0, s0.Keys, pk, order[i])
  {
    var same := set j | j in s0 && PodOf(s0[j]) == Some(pk) && j != k;
    var rest := s0.Keys - same - {k, k1};
    var a := SomeOrder(same);
    var b := SomeOrder(rest);
    assert Ranges({k1, k}, [k1, k]);
    OneAfterTheOther({k1, k}, [k1, k], rest, b);
    OneAfterTheOther(same, a, {k1, k} + rest, [k1, k] + b);
    assert same + ({k1, k} + rest) == s0.Keys;
    order, n := a + ([k1, k] + b), |a|;
    forall i | n + 2 <= i < |order| ensures !ContainerIn(s0, s0.Keys, pk, order[i]) {
      assert order[i] == b[i - n - 2] && order[i] in rest;
    }
    forall i | 0 <= i < n ensures ContainerIn(s0, s0.Keys, pk, order[i]) {
      assert order[i] == a[i] && order[i] in same;
    }
  }

  /** The containers of the pod itself do not leave the tag of a metric that it has. */
  lemma {:induction false} OwnUnmarked(s0: Sets, skipped: set<string>, order: seq<ResourceKey>, n: nat, pk: ResourceKey, m: string)
    requires n < |order| && m in ValuesAt(s0, pk) && !ContainerIn(s0, s0.Keys, pk, order[n])
    requires forall i :: 0 <= i < n ==> ContainerIn(s0, s0.Keys, pk, order[i])
    ensures OwnAfter(s0, skipped, order, n + 1, pk, m) == ValuesAt(s0, pk)[m]
  {
    OwnUnmarkedTo(s0, skipped, order, n, pk, m);
  }

  lemma {:induction false} OwnUnmarkedTo(s0: Sets, skipped: set<string>, order: seq<ResourceKey>, n: nat, pk: ResourceKey, m: string)
    requires n <= |order| && m in ValuesAt(s0, pk) && forall i :: 0 <= i < n ==> ContainerIn(s0, s0.Keys, pk, order[i])
    ensures OwnAfter(s0, skipped, order, n, pk, m) == ValuesAt(s0, pk)[m]
  {
    if n > 0 {
      OwnUnmarkedTo(s0, skipped, order, n - 1, pk, m);
      forall j, m1 | j in SeenIn(order, n - 1) && Missing(s0, skipped, j, m1) ensures TagOf(s0, j, m1) != Tag(pk, m) {
        SeenHas(order, n - 1, j);
        assert PodOf(s0[j]) == Some(pk);
        if Tag(pk, m1) == Tag(pk, m) {
          TagInjective(pk, m1, m);
        }
      }
      assert !Marked(s0, SeenIn(order, n - 1), skipped, Tag(pk, m));
    }
  }

  lemma {:induction false} OwnStays(s0: Sets, skipped: set<string>, order: seq<ResourceKey>, i: nat, n: nat, pk: ResourceKey, m: string)
    requires i <= n <= |order| && m in ValuesAt(s0, pk) && forall j :: i <= j < |order| ==> !ContainerIn(s0, s0.Keys, pk, order[j])
    ensures OwnAfter(s0, skipped, order, n, pk, m) == OwnAfter(s0, skipped, order, i, pk, m)
    decreases n
  {
    if i < n {
      OwnStays(s0, skipped, order, i, n - 1, pk, m);
    }
  }

  /** Metric "x" of pod "ab" and metric "bx" of pod "a", which has a five of its own. */
  function ClashBatch(): Sets {
    var v := map["x" := IntValue(1), "bx" := IntValue(1)];
    map[
      PodKey("n", "a") := NewView(map["bx" := IntValue(5)], map[TYPE := TYPE_POD]),
      PodContainerKey("n", "a", "c") := NewView(v, map[TYPE := TYPE_POD_CONTAINER, POD_NAME := "a", NAMESPACE_NAME := "n"]),
      PodContainerKey("n", "ab", "c") := NewView(v, map[TYPE := TYPE_POD_CONTAINER, POD_NAME := "ab", NAMESPACE_NAME := "n"])]
  }

  /** In some order the pod's own five becomes a six. */
  lemma ClashExample()
    ensures var s, pk := ClashBatch(), PodKey("n", "a");
      && KeysAgree(s) && (forall k :: k in s ==> NamesOk(k)) && ValuesAt(s, pk) == map["bx" := IntValue(5)]
      && exists order :: Ranges(s.Keys, order) && "bx" in ValuesAt(RunPods({}, s, order, |order|).sets, pk)
                         && ValuesAt(RunPods({}, s, order, |order|).sets, pk)["bx"] == IntValue(6)
  {
    var s := ClashBatch();
    var k, k1 := PodContainerKey("n", "a", "c"), PodContainerKey("n", "ab", "c");
    assert PodOf(s[k]) == Some(PodKey("n", "a")) && PodOf(s[k1]) == Some(PodKey("n", "ab"));
    assert Own(s, {}, k, "bx") && Missing(s, {}, k1, "x");
    assert Text(PodKey("n", "a")) + "bx" == Text(PodKey("n", "ab")) + "x";
    assert TagOf(s, k, "bx") == TagOf(s, k1, "x");
    assert KeysAgree(s);
    var order := ClashChangesOwn(s, {}, k, "bx", k1, "x");
  }
}
