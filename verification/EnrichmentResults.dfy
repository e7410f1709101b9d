/** What an enriched batch can be relied on for, and what the pod aggregator makes of it. */
module EnrichmentResults {
  import opened Options
  import opened MapOrders
  import opened ResourceKeys
  import opened MetricSets
  import opened RollUps
  import opened RollUpSums
  import opened PodSums
  import opened PodEnrichment
  import opened EnrichmentConfluence
  import opened WeightedSums

  /** No set of an unknown pod survives or is made. */
  lemma PodsAreKnown(s: Sets, lister: PodLister, clock: Clock, out: Sets, k: ResourceKey)
    requires IsEnriched(s, lister, clock, out) && k in out && (k.PodKey? || k.PodContainerKey?)
    ensures PodAtKey(lister, k).Some?
  {
    assert EnrichedAt(s, lister, clock, out, k);
  }

  /** Every container has its pod. */
  lemma ContainersHavePods(s: Sets, lister: PodLister, clock: Clock, out: Sets, k: ResourceKey)
    requires IsEnriched(s, lister, clock, out) && k in out && k.PodContainerKey?
    ensures PodPart(k) in out
  {
    assert EnrichedAt(s, lister, clock, out, k) && EnrichedAt(s, lister, clock, out, PodPart(k));
    if k in s {
      assert Reports(s, s.Keys, PodPart(k), k);
    }
  }

  /** Every running pod that is present has a set for each container of its specification. */
  lemma RunningPodsAreComplete(s: Sets, lister: PodLister, clock: Clock, out: Sets, pk: ResourceKey, pod: Pod, i: nat)
    requires IsEnriched(s, lister, clock, out) && ListerOk(lister) && pk.PodKey? && pk in out
    requires PodAtKey(lister, pk) == Some(pod) && pod.phase == "Running" && i < |pod.containers|
    ensures Key(pod, pod.containers[i].name) in out
  {
    var k := Key(pod, pod.containers[i].name);
    assert EnrichedAt(s, lister, clock, out, pk) && EnrichedAt(s, lister, clock, out, k);
    SpecOfNone(pod, k, 0);
  }

  /** The labelled values that a set was reported with. */
  function Given(s: Sets, k: ResourceKey): seq<LabeledValue> {
    if k in s then s[k].labeledValues else []
  }

  /** A running pod gains its phase exactly once. */
  lemma PhaseOnce(s: Sets, lister: PodLister, clock: Clock, out: Sets, pk: ResourceKey, pod: Pod)
    requires IsEnriched(s, lister, clock, out) && pk.PodKey? && pk in out
    requires PodAtKey(lister, pk) == Some(pod) && pod.phase == "Running"
    ensures out[pk].labeledValues == Given(s, pk) + [LabeledValue("status/phase", map["phase" := "Running"], Value(Int64, 2, 0.0))]
  {
    assert EnrichedAt(s, lister, clock, out, pk);
  }

  /** The state of a container: that of its last termination while that is no older than the collection before. */
  ghost function Current(clock: Clock, s: ContainerStatus): ContainerState {
    if s.lastTerminationState.TerminatedState? && clock.now - clock.interval <= s.lastTerminationState.finishedAt then s.lastTerminationState
    else s.state
  }

  /** A state is told by a number and by labels; a reason, if there is one, comes with an exit code. */
  ghost predicate ShowsState(shown: LabeledValue, state: ContainerState) {
    && shown.name == "status" && shown.value.valueType == Int64
    && shown.value.intValue == (if state.UnknownState? then 0 else if state.RunningState? then 1 else if state.WaitingState? then 2 else 3)
    && shown.labels ==
      match state
      case UnknownState => map[]
      case RunningState => map["status" := "running"]
      case WaitingState(reason) =>
        if reason == "" then map["status" := "waiting"] else map["status" := "waiting", "reason" := reason, "exit_code" := "0"]
      case TerminatedState(reason, exitCode, _) =>
        if reason == "" then map["status" := "terminated"] else map["status" := "terminated", "reason" := reason, "exit_code" := exitCode]
  }

  lemma StateIsShown(clock: Clock, s: ContainerStatus)
    ensures ShowsState(StatusValue(clock, s), Current(clock, s))
  {
  }

  predicate DistinctStatuses(pod: Pod) {
    forall i, j :: 0 <= i < j < |pod.statuses| ==> pod.statuses[i].name != pod.statuses[j].name
  }

  lemma {:induction false} StatusFound(pod: Pod, k: ResourceKey, j: nat, i: nat)
    requires DistinctStatuses(pod) && j <= i < |pod.statuses| && Key(pod, pod.statuses[i].name) == k
    ensures StatusOf(pod, k, j) == Some(pod.statuses[i])
    decreases i - j
  {
    if j < i {
      StatusFound(pod, k, j + 1, i);
    }
  }

  lemma {:induction false} OneStatusValue(pod: Pod, k: ResourceKey, clock: Clock, n: nat, i: nat)
    requires DistinctStatuses(pod) && n <= |pod.statuses| && i < |pod.statuses| && Key(pod, pod.statuses[i].name) == k
    ensures StatusValues(pod, k, clock, n) == if i < n then [StatusValue(clock, pod.statuses[i])] else []
  {
    if n > 0 {
      OneStatusValue(pod, k, clock, n - 1, i);
      var value := if Key(pod, pod.statuses[n - 1].name) == k then [StatusValue(clock, pod.statuses[n - 1])] else [];
      assert StatusValues(pod, k, clock, n) == StatusValues(pod, k, clock, n - 1) + value;
      if n - 1 != i {
        assert pod.statuses[n - 1].name != pod.statuses[i].name;
        assert StatusValues(pod, k, clock, n - 1) + [] == StatusValues(pod, k, clock, n - 1);
      }
    }
  }

  /** A container with a status gains exactly one status value, whether it was reported or not. */
  lemma StatusOnce(s: Sets, lister: PodLister, clock: Clock, out: Sets, k: ResourceKey, pod: Pod, i: nat)
    requires IsEnriched(s, lister, clock, out) && k.PodContainerKey? && k in out
    requires PodAtKey(lister, k) == Some(pod) && DistinctStatuses(pod)
    requires i < |pod.statuses| && Key(pod, pod.statuses[i].name) == k
    ensures out[k].labeledValues == Given(s, k) + [StatusValue(clock, pod.statuses[i])]
    ensures ShowsState(out[k].labeledValues[|Given(s, k)|], Current(clock, pod.statuses[i]))
  {
    StateIsShown(clock, pod.statuses[i]);
    assert EnrichedAt(s, lister, clock, out, k);
    StatusFound(pod, k, 0, i);
    OneStatusValue(pod, k, clock, |pod.statuses|, i);
    if k !in s {
      SpecHasKey(pod, k, 0);
    }
  }

  // ---- Requests and limits, summed into the pod ---------------------------------------------------------

  const RESOURCE_METRICS: set<string> :=
    {"cpu/request", "memory/request", "ephemeral_storage/request", "cpu/limit", "memory/limit", "ephemeral_storage/limit"}

  /**
   * What the specification of a container says about one of the six metrics: thousandths of a CPU, bytes of
   * memory or of storage, and nothing where it does not say.
   */
  function SpecifiedAmount(c: Container, m: string): int {
    if m == "cpu/request" then (if "cpu" in c.requests then c.requests["cpu"].milliValue else 0)
    else if m == "memory/request" then (if "memory" in c.requests then c.requests["memory"].value else 0)
    else if m == "ephemeral_storage/request" then (if "ephemeral-storage" in c.requests then c.requests["ephemeral-storage"].value else 0)
    else if m == "cpu/limit" then (if "cpu" in c.limits then c.limits["cpu"].milliValue else 0)
    else if m == "memory/limit" then (if "memory" in c.limits then c.limits["memory"].value else 0)
    else if "ephemeral-storage" in c.limits then c.limits["ephemeral-storage"].value
    else 0
  }

  function Specified(c: Container, m: string): Value { IntValue(SpecifiedAmount(c, m)) }

  function SpecifiedTotal(pod: Pod, m: string, n: nat): int
    requires n <= |pod.containers|
  {
    if n == 0 then 0 else SpecifiedTotal(pod, m, n - 1) + SpecifiedAmount(pod.containers[n - 1], m)
  }

  /** The six metrics of an enriched container are those of its specification. */
  lemma ResourcesSpecified(values: Values, c: Container, m: string)
    requires RequestsOk(c.requests) && m in RESOURCE_METRICS
    ensures m in WithResources(values, c) && WithResources(values, c)[m] == Specified(c, m)
    ensures WithResources(values, c)[m].valueType == Int64 && WithResources(values, c)[m].intValue == SpecifiedAmount(c, m)
  {
    RequestNames();
    if m == CPU_REQUEST {
      OneRequest(values, c, CPU, m);
    } else if m == MEMORY_REQUEST {
      OneRequest(values, c, MEMORY, m);
    } else if m == STORAGE_REQUEST {
      OneRequest(values, c, EPHEMERAL_STORAGE, m);
    } else {
      OneLimit(values, c, m);
    }
  }

  function Request(requests: map<string, Quantity>, resource: string): Value {
    if resource in requests then Reading(resource, requests[resource]) else IntValue(0)
  }

  lemma OneLimit(values: Values, c: Container, m: string)
    requires m in {CPU_LIMIT, MEMORY_LIMIT, STORAGE_LIMIT}
    ensures m in WithResources(values, c) && WithResources(values, c)[m] == Specified(c, m)
  {
    assert m in LimitValues(c.limits) && LimitValues(c.limits)[m] == Specified(c, m);
  }

  lemma RequestNames()
    ensures RequestName(CPU) == CPU_REQUEST && RequestName(MEMORY) == MEMORY_REQUEST && RequestName(EPHEMERAL_STORAGE) == STORAGE_REQUEST
  {
  }

  lemma OneRequest(values: Values, c: Container, resource: string, m: string)
    requires RequestsOk(c.requests) && resource in {CPU, MEMORY, EPHEMERAL_STORAGE} && m == RequestName(resource)
    ensures m in WithResources(values, c) && WithResources(values, c)[m] == Request(c.requests, resource)
  {
    RequestNames();
    NoLimit(c.limits, m);
    if resource in c.requests {
      RequestValue(c.requests, resource);
      assert m !in NotRequested(c.requests);
    } else {
      assert m in NotRequested(c.requests) && NotRequested(c.requests)[m] == IntValue(0);
    }
  }

  lemma NoLimit(limits: map<string, Quantity>, m: string)
    requires m in {CPU_REQUEST, MEMORY_REQUEST, STORAGE_REQUEST}
    ensures m !in LimitValues(limits)
  {
  }

  /** The keys of the first n containers, with their specified amounts. */
  function SpecifiedAmounts(pod: Pod, m: string, n: nat): map<ResourceKey, real>
    requires n <= |pod.containers|
  {
    if n == 0 then map[]
    else SpecifiedAmounts(pod, m, n - 1)[Key(pod, pod.containers[n - 1].name) := Amount(Specified(pod.containers[n - 1], m))]
  }

  predicate DistinctContainers(pod: Pod) {
    forall i, j :: 0 <= i < j < |pod.containers| ==> pod.containers[i].name != pod.containers[j].name
  }

  lemma {:induction false} SpecifiedAt(pod: Pod, m: string, n: nat, k: ResourceKey)
    requires n <= |pod.containers| && DistinctContainers(pod)
    ensures k in SpecifiedAmounts(pod, m, n) <==> exists i :: 0 <= i < n && Key(pod, pod.containers[i].name) == k
    ensures forall i :: 0 <= i < n && Key(pod, pod.containers[i].name) == k ==> SpecifiedAmounts(pod, m, n)[k] == Amount(Specified(pod.containers[i], m))
  {
    if n > 0 {
      SpecifiedAt(pod, m, n - 1, k);
    }
  }

  lemma {:induction false} SpecifiedSum(pod: Pod, m: string, n: nat)
    requires n <= |pod.containers| && DistinctContainers(pod)
    ensures Total(SpecifiedAmounts(pod, m, n)) == SpecifiedTotal(pod, m, n) as real
  {
    if n > 0 {
      SpecifiedSum(pod, m, n - 1);
      SpecifiedAt(pod, m, n - 1, Key(pod, pod.containers[n - 1].name));
      TotalInsert(SpecifiedAmounts(pod, m, n - 1), Key(pod, pod.containers[n - 1].name), Amount(Specified(pod.containers[n - 1], m)));
    }
  }

  /** An enriched container of a running pod holds what is specified, and no other container holds the metric. */
  lemma {:induction false} EnrichedAmount(s: Sets, lister: PodLister, clock: Clock, out: Sets, pod: Pod, m: string, k: ResourceKey)
    requires IsEnriched(s, lister, clock, out) && k in out && k.PodContainerKey? && PodAtKey(lister, k) == Some(pod)
    requires forall i :: 0 <= i < |pod.containers| ==> RequestsOk(pod.containers[i].requests)
    requires m in RESOURCE_METRICS && (k in s && SpecOf(pod, k, 0) == None ==> m !in s[k].values)
    ensures m in out[k].values <==> SpecOf(pod, k, 0).Some?
    ensures SpecOf(pod, k, 0).Some? ==> out[k].values[m] == Specified(SpecOf(pod, k, 0).value, m)
  {
    assert EnrichedAt(s, lister, clock, out, k);
    if SpecOf(pod, k, 0).Some? {
      SpecHasKey(pod, k, 0);
    }
    if k in s {
      ReportedAmount(s[k], pod, clock, m, k);
    } else {
      ResourcesSpecified(map[], SpecOf(pod, k, 0).value, m);
    }
  }

  lemma {:induction false} ReportedAmount(v: SetView, pod: Pod, clock: Clock, m: string, k: ResourceKey)
    requires m in RESOURCE_METRICS && (SpecOf(pod, k, 0).Some? ==> RequestsOk(SpecOf(pod, k, 0).value.requests))
    ensures var w := ContainerInfo(k, v, pod, clock);
      if SpecOf(pod, k, 0).Some? then m in w.values && w.values[m] == Specified(SpecOf(pod, k, 0).value, m)
      else m in w.values <==> m in v.values
  {
    NotRestartCount(m);
    if SpecOf(pod, k, 0).Some? {
      ResourcesSpecified(v.values, SpecOf(pod, k, 0).value, m);
    }
  }

  lemma NotRestartCount(m: string)
    requires m in RESOURCE_METRICS
    ensures m != RESTART_COUNT
  {
    assert RESTART_COUNT[0] == 'r';
  }

  // ---- Labels of an enriched batch ----------------------------------------------------------------------

  lemma PodInfoLabels(v: SetView, pod: Pod, l: string)
    requires |l| != |LABELS| && |l| != |POD_ID|
    ensures var w := PodInfo(v, pod);
      (l in w.labels <==> l in v.labels) && (l in w.labels ==> w.labels[l] == v.labels[l])
  {
  }

  /** Enough about the labels of a set to know its type and its pod. */
  predicate Identified(v: SetView, k: ResourceKey) {
    KeyAgrees(k, v) && (k.PodKey? || k.PodContainerKey? ==> LabelledAs(v, PodPart(k)))
  }

  lemma PodInfoIdentified(v: SetView, pod: Pod, k: ResourceKey)
    requires Identified(v, k)
    ensures Identified(PodInfo(v, pod), k)
  {
    PodInfoLabels(v, pod, TYPE);
    PodInfoLabels(v, pod, NAMESPACE_NAME);
    PodInfoLabels(v, pod, POD_NAME);
  }

  lemma ContainerInfoIdentified(v: SetView, pod: Pod, clock: Clock, k: ResourceKey)
    requires Identified(v, k)
    ensures Identified(ContainerInfo(k, v, pod, clock), k)
  {
    LabelsKept(k, v, pod, clock);
  }

  lemma PodStubIdentified(v: SetView, pod: Pod, pk: ResourceKey)
    requires pk.PodKey? && LabelledAs(v, pk)
    ensures Identified(PodStub(v.labels, pod), pk)
  {
    var labels := map[TYPE := TYPE_POD, NAMESPACE_NAME := Get(v.labels, NAMESPACE_NAME), POD_NAME := Get(v.labels, POD_NAME)];
    NodeLabelsElsewhere(v.labels);
    assert PodStub(v.labels, pod).labels == labels + NodeLabels(v.labels);
  }

  lemma NodeLabelsElsewhere(labels: map<string, string>)
    ensures TYPE !in NodeLabels(labels) && NAMESPACE_NAME !in NodeLabels(labels) && POD_NAME !in NodeLabels(labels)
  {
  }

  lemma ContainerStubIdentified(podMs: SetView, pod: Pod, c: Container)
    ensures Identified(ContainerStub(podMs, pod, c), Key(pod, c.name))
  {
    NodeLabelsElsewhere(podMs.labels);
    var v := ContainerStub(podMs, pod, c);
    assert TYPE in v.labels && v.labels[TYPE] == TYPE_POD_CONTAINER;
    assert NAMESPACE_NAME in v.labels && v.labels[NAMESPACE_NAME] == pod.namespace;
    assert POD_NAME in v.labels && v.labels[POD_NAME] == pod.name;
  }

  /** The sets of an enriched batch agree with their keys, as those of the batch did. */
  lemma EnrichedAgrees(s: Sets, lister: PodLister, clock: Clock, out: Sets)
    requires LabelsAgree(s) && ListerOk(lister) && IsEnriched(s, lister, clock, out)
    ensures LabelsAgree(out)
  {
    forall k | k in out ensures Identified(out[k], k) {
      assert EnrichedAt(s, lister, clock, out, k);
      if k in s {
        KeptIdentified(s, lister, clock, k);
      } else {
        NewIdentified(s, lister, clock, out, k);
      }
    }
  }

  lemma KeptIdentified(s: Sets, lister: PodLister, clock: Clock, k: ResourceKey)
    requires LabelsAgree(s) && k in s && Done(s, lister, clock, k).Some?
    ensures Identified(Done(s, lister, clock, k).value, k)
  {
    assert Identified(s[k], k);
    if k.PodKey? {
      PodInfoIdentified(s[k], PodAtKey(lister, k).value, k);
    } else if k.PodContainerKey? {
      ContainerInfoIdentified(s[k], PodAtKey(lister, k).value, clock, k);
    }
  }

  lemma NewIdentified(s: Sets, lister: PodLister, clock: Clock, out: Sets, k: ResourceKey)
    requires LabelsAgree(s) && ListerOk(lister) && k in out && PodAtKey(lister, k).Some? && NewViewIs(s, lister, clock, out, k)
    requires k.PodKey? || k.PodContainerKey?
    ensures Identified(out[k], k)
  {
    var pod := PodAtKey(lister, k).value;
    if k.PodKey? {
      var j :| Reports(s, s.Keys, k, j) && out[k] == PodFrom(s[j], pod);
      PodStubIdentified(s[j], pod, k);
      PodInfoIdentified(PodStub(s[j].labels, pod), pod, k);
    } else {
      var c, pk := SpecOf(pod, k, 0).value, PodPart(k);
      SpecHasKey(pod, k, 0);
      ContainerStubIdentified(if pk in s then PodInfo(s[pk], pod) else out[pk], pod, c);
    }
  }

  // ---- The result of both processors ------------------------------------------------------------------------

  lemma ContainersOfPod(out: Sets, pk: ResourceKey, k: ResourceKey)
    requires LabelsAgree(out) && pk.PodKey? && k in out
    ensures PodOf(out[k]) == Some(pk) <==> k.PodContainerKey? && PodPart(k) == pk
  {
    assert KeyAgrees(k, out[k]);
    assert k.PodContainerKey? ==> LabelledAs(out[k], PodPart(k));
  }

  predicate PodReady(s: Sets, lister: PodLister, pk: ResourceKey, pod: Pod, m: string) {
    && pk.PodKey? && PodAtKey(lister, pk) == Some(pod) && pod.phase == "Running" && |pod.containers| > 0
    && DistinctContainers(pod) && (forall i :: 0 <= i < |pod.containers| ==> RequestsOk(pod.containers[i].requests))
    && m in RESOURCE_METRICS && m !in ValuesAt(s, pk)
    && (forall k :: k in s && k.PodContainerKey? && PodPart(k) == pk && SpecOf(pod, k, 0) == None ==> m !in s[k].values)
  }

  /** The containers of the pod supply just what their specification says. */
  lemma {:induction false} AmountsAreSpecified(s: Sets, lister: PodLister, clock: Clock, out: Sets, skipped: set<string>,
                                               pk: ResourceKey, pod: Pod, m: string)
    requires LabelsAgree(out) && ListerOk(lister) && IsEnriched(s, lister, clock, out) && PodReady(s, lister, pk, pod, m)
    requires m !in skipped && pk in out
    ensures ContainerAmounts(out, out.Keys, skipped, pk, m) == SpecifiedAmounts(pod, m, |pod.containers|)
    ensures MetricTyped(out, skipped, pk, m, Int64)
  {
    var a, b := ContainerAmounts(out, out.Keys, skipped, pk, m), SpecifiedAmounts(pod, m, |pod.containers|);
    forall k ensures (k in a <==> k in b) && (k in a ==> a[k] == b[k]) {
      AmountIsSpecified(s, lister, clock, out, skipped, pk, pod, m, k);
    }
    SameMap(a, b);
    forall k | Supplies(out, out.Keys, skipped, pk, m, k) ensures out[k].values[m].valueType == Int64 {
      AmountIsSpecified(s, lister, clock, out, skipped, pk, pod, m, k);
    }
  }

  lemma {:induction false} AmountIsSpecified(s: Sets, lister: PodLister, clock: Clock, out: Sets, skipped: set<string>, pk: ResourceKey,
                                             pod: Pod, m: string, k: ResourceKey)
    requires LabelsAgree(out) && ListerOk(lister) && IsEnriched(s, lister, clock, out) && PodReady(s, lister, pk, pod, m)
    requires m !in skipped && pk in out
    ensures Supplies(out, out.Keys, skipped, pk, m, k) <==> k in SpecifiedAmounts(pod, m, |pod.containers|)
    ensures Supplies(out, out.Keys, skipped, pk, m, k) ==>
      AmountOf(out[k], m) == SpecifiedAmounts(pod, m, |pod.containers|)[k] && out[k].values[m].valueType == Int64
  {
    SpecifiedAt(pod, m, |pod.containers|, k);
    SpecOfNone(pod, k, 0);
    if SpecOf(pod, k, 0).Some? {
      SpecIsAt(pod, k, 0);
      var i :| 0 <= i < |pod.containers| && pod.containers[i] == SpecOf(pod, k, 0).value && Key(pod, pod.containers[i].name) == k;
      RunningPodsAreComplete(s, lister, clock, out, pk, pod, i);
    }
    if k in out {
      ContainersOfPod(out, pk, k);
      if k.PodContainerKey? && PodPart(k) == pk {
        EnrichedAmount(s, lister, clock, out, pod, m, k);
      }
    }
  }

  lemma {:induction false} SpecIsAt(pod: Pod, k: ResourceKey, j: nat)
    requires j <= |pod.containers| && SpecOf(pod, k, j).Some?
    ensures exists i :: j <= i < |pod.containers| && pod.containers[i] == SpecOf(pod, k, j).value && Key(pod, pod.containers[i].name) == k
    decreases |pod.containers| - j
  {
    if Key(pod, pod.containers[j].name) != k {
      SpecIsAt(pod, k, j + 1);
    }
  }

  /**
   * After the enricher and the pod aggregator, each request and limit of a running pod that was reported
   * without it is the sum over all containers of its specification: whichever of them were reported, in
   * whatever order either processor visits the sets, and whatever else is in the batch.
   */
  lemma {:induction false} PodsHoldTheirResources(s: Sets, lister: PodLister, clock: Clock, order: seq<ResourceKey>, out: Sets,
                                                  order1: seq<ResourceKey>,
                                                  skipped: set<string>, pk: ResourceKey, pod: Pod, m: string)
    requires LabelsAgree(s) && ListerOk(lister) && Ranges(s.Keys, order)
    requires PodReady(s, lister, pk, pod, m) && m !in skipped && (pk in s || Reported(s, s.Keys, pk))
    requires out == EnrichedIn(lister, clock, s, order) && Ranges(out.Keys, order1)
    ensures var now := ValuesAt(RunPods(skipped, out, order1, |order1|).sets, pk);
      m in now && now[m].valueType == Int64 && now[m].intValue == SpecifiedTotal(pod, m, |pod.containers|)
  {
    RunEnriches(s, lister, clock, order);
    EnrichedSupplies(s, lister, clock, out, skipped, pk, pod, m);
    PodsSum(out, order1, skipped, pk, m, Int64);
  }

  lemma {:induction false} EnrichedSupplies(s: Sets, lister: PodLister, clock: Clock, out: Sets, skipped: set<string>,
                                            pk: ResourceKey, pod: Pod, m: string)
    requires LabelsAgree(s) && ListerOk(lister) && IsEnriched(s, lister, clock, out) && PodReady(s, lister, pk, pod, m)
    requires m !in skipped && (pk in s || Reported(s, s.Keys, pk))
    ensures KeysAgree(out) && m !in ValuesAt(out, pk) && MetricTyped(out, skipped, pk, m, Int64)
    ensures Total(ContainerAmounts(out, out.Keys, skipped, pk, m)) == SpecifiedTotal(pod, m, |pod.containers|) as real
    ensures exists k :: Supplies(out, out.Keys, skipped, pk, m, k)
  {
    EnrichedAgrees(s, lister, clock, out);
    PodKeepsValues(s, lister, clock, out, pk, pod, m);
    AmountsAreSpecified(s, lister, clock, out, skipped, pk, pod, m);
    SummedIsSpecified(out, skipped, pk, pod, m);
  }

  lemma {:induction false} SummedIsSpecified(out: Sets, skipped: set<string>, pk: ResourceKey, pod: Pod, m: string)
    requires |pod.containers| > 0 && DistinctContainers(pod)
    requires ContainerAmounts(out, out.Keys, skipped, pk, m) == SpecifiedAmounts(pod, m, |pod.containers|)
    ensures Total(ContainerAmounts(out, out.Keys, skipped, pk, m)) == SpecifiedTotal(pod, m, |pod.containers|) as real
    ensures exists k :: Supplies(out, out.Keys, skipped, pk, m, k)
  {
    SpecifiedSum(pod, m, |pod.containers|);
    var k := Key(pod, pod.containers[0].name);
    SpecifiedAt(pod, m, |pod.containers|, k);
    assert k in ContainerAmounts(out, out.Keys, skipped, pk, m);
    assert Supplies(out, out.Keys, skipped, pk, m, k);
  }

  lemma PodKeepsValues(s: Sets, lister: PodLister, clock: Clock, out: Sets, pk: ResourceKey, pod: Pod, m: string)
    requires IsEnriched(s, lister, clock, out) && PodReady(s, lister, pk, pod, m) && (pk in s || Reported(s, s.Keys, pk))
    ensures pk in out && m !in ValuesAt(out, pk)
  {
    assert EnrichedAt(s, lister, clock, out, pk);
  }

  // ---- Counting containers ---------------------------------------------------------------------------------

  const STATE := "state"

  predicate HasLabeledFrom(v: SetView, name: string, i: nat) {
    exists j :: i <= j < |v.labeledValues| && v.labeledValues[j].name == name
  }

  /** The set comes with a status of its own. */
  predicate HasStatus(v: SetView) {
    "status" in v.values || HasLabeledFrom(v, "status", 0)
  }

  /** More labeled values, none of which has the label, only tell what the set's own labels do. */
  lemma {:induction false} StateFound(v: SetView, w: SetView, more: seq<LabeledValue>, i: nat)
    requires w.labeledValues == v.labeledValues + more && i <= |v.labeledValues|
    requires (STATE in w.labels <==> STATE in v.labels) && Get(w.labels, STATE) == Get(v.labels, STATE)
    requires forall j :: 0 <= j < |more| ==> STATE !in more[j].labels
    ensures Get(LabelsFrom(w, CONTAINER_STATUS, i), STATE) ==
      if HasLabeledFrom(v, CONTAINER_STATUS, i) then Get(LabelsFrom(v, CONTAINER_STATUS, i), STATE)
      else if exists j :: 0 <= j < |more| && more[j].name == CONTAINER_STATUS then Get(v.labels, STATE)
      else ""
    decreases |v.labeledValues| - i
  {
    if i < |v.labeledValues| {
      assert w.labeledValues[i] == v.labeledValues[i];
      if v.labeledValues[i].name != CONTAINER_STATUS {
        StateFound(v, w, more, i + 1);
      }
    } else {
      StateFoundLater(v, w, more, i);
    }
  }

  lemma {:induction false} StateFoundLater(v: SetView, w: SetView, more: seq<LabeledValue>, i: nat)
    requires w.labeledValues == v.labeledValues + more && |v.labeledValues| <= i <= |w.labeledValues|
    requires (STATE in w.labels <==> STATE in v.labels) && Get(w.labels, STATE) == Get(v.labels, STATE)
    requires forall j :: 0 <= j < |more| ==> STATE !in more[j].labels
    ensures Get(LabelsFrom(w, CONTAINER_STATUS, i), STATE) ==
      if exists j :: i - |v.labeledValues| <= j < |more| && more[j].name == CONTAINER_STATUS then Get(v.labels, STATE) else ""
    decreases |w.labeledValues| - i
  {
    if i < |w.labeledValues| {
      assert w.labeledValues[i] == more[i - |v.labeledValues|];
      if w.labeledValues[i].name != CONTAINER_STATUS {
        StateFoundLater(v, w, more, i + 1);
      }
    }
  }

  lemma RequestsAreLong(requests: map<string, Quantity>, name: string)
    requires name in RequestValues(requests) || name in NotRequested(requests)
    ensures |name| > |CONTAINER_STATUS|
  {
    if name in RequestValues(requests) {
      var r :| r in requests && RequestName(r) == name;
    }
  }

  lemma LimitsAreLong(limits: map<string, Quantity>, name: string)
    requires name in LimitValues(limits)
    ensures |name| > |CONTAINER_STATUS|
  {
  }

  lemma StatusIsNoResource(values: Values, c: Container)
    ensures CONTAINER_STATUS in WithResources(values, c) <==> CONTAINER_STATUS in values
  {
    forall name | name in RequestValues(c.requests) || name in NotRequested(c.requests) ensures name != CONTAINER_STATUS {
      RequestsAreLong(c.requests, name);
    }
    forall name | name in LimitValues(c.limits) ensures name != CONTAINER_STATUS {
      LimitsAreLong(c.limits, name);
    }
  }

  lemma StateTagsNames(s: ContainerState)
    ensures STATE !in StateTags(s)
  {
    assert |"status"| != |STATE| && |"reason"| != |STATE| && |"exit_code"| != |STATE|;
  }

  /** The container is one of those that a namespace counts. */
  ghost predicate Counts(v: SetView) { LiveContainer(v) }

  /**
   * The count of containers is meant to leave out those that have terminated, and looks for that in a
   * label "state" of the status. The enricher writes the state under "status". So whether a container that
   * was reported without a status counts, once it has one, depends on a label that it came with, and not on
   * the state; and one that was reported with a status counts as it did before.
   */
  lemma {:induction false} ContainersCount(k: ResourceKey, v: SetView, pod: Pod, clock: Clock)
    ensures Counts(ContainerInfo(k, v, pod, clock)) <==>
      if HasStatus(v) || StatusOf(pod, k, 0) == None then Counts(v) else HasLabel(v.labels, "type", "pod_container") && !HasLabel(v.labels, "state", "terminated")
  {
    MembersAre(v);
    MembersAre(ContainerInfo(k, v, pod, clock));
    var w, status := ContainerInfo(k, v, pod, clock), StatusOf(pod, k, 0);
    var more := if status == None then [] else [StatusValue(clock, status.value)];
    LabelsKept(k, v, pod, clock);
    LabelKept(k, v, pod, clock, STATE);
    StatusValueStays(k, v, pod, clock);
    assert w.labeledValues == v.labeledValues + more;
    if status.Some? {
      StateTagsNames(FindContainerState(clock, status.value));
      assert more[0].name == CONTAINER_STATUS;
    }
    StateFound(v, w, more, 0);
    StateFound(v, v, [], 0);
  }

  lemma StatusValueStays(k: ResourceKey, v: SetView, pod: Pod, clock: Clock)
    ensures CONTAINER_STATUS in ContainerInfo(k, v, pod, clock).values <==> CONTAINER_STATUS in v.values
  {
    assert |RESTART_COUNT| != |CONTAINER_STATUS|;
    if SpecOf(pod, k, 0).Some? {
      StatusIsNoResource(v.values, SpecOf(pod, k, 0).value);
    }
    assert ContainerInfo(k, v, pod, clock) == WithPodLabels(WithStatus(WithSpec(v, SpecOf(pod, k, 0)), pod, StatusOf(pod, k, 0), clock), pod);
  }

  lemma {:induction false} StatusValuesHaveNoState(pod: Pod, k: ResourceKey, clock: Clock, n: nat)
    requires n <= |pod.statuses|
    ensures forall j :: 0 <= j < |StatusValues(pod, k, clock, n)| ==> STATE !in StatusValues(pod, k, clock, n)[j].labels
  {
    if n > 0 {
      StatusValuesHaveNoState(pod, k, clock, n - 1);
      StateTagsNames(FindContainerState(clock, pod.statuses[n - 1]));
    }
  }

  /** A container that the enricher makes counts, whatever its state. */
  lemma StubsCount(podMs: SetView, pod: Pod, c: Container, clock: Clock)
    ensures Counts(FullStub(podMs, pod, c, clock))
  {
    MembersAre(FullStub(podMs, pod, c, clock));
    var w, v := FullStub(podMs, pod, c, clock), ContainerStub(podMs, pod, c);
    var more := StatusValues(pod, Key(pod, c.name), clock, |pod.statuses|);
    StubLabels(podMs, pod, c);
    StatusIsNoResource(map[], c);
    StatusValuesHaveNoState(pod, Key(pod, c.name), clock, |pod.statuses|);
    assert w.labeledValues == v.labeledValues + more;
    StateFound(v, w, more, 0);
  }

  lemma StubLabels(podMs: SetView, pod: Pod, c: Container)
    ensures TypeOf(ContainerStub(podMs, pod, c)) == TYPE_POD_CONTAINER && STATE !in ContainerStub(podMs, pod, c).labels
  {
    ContainerStubIdentified(podMs, pod, c);
    var labels := map[TYPE := TYPE_POD_CONTAINER, NAMESPACE_NAME := pod.namespace, POD_NAME := pod.name,
                      CONTAINER_NAME := c.name, CONTAINER_BASE_IMAGE := c.image, POD_ID := pod.uid];
    NoStateLabel(labels, NodeLabels(podMs.labels));
    assert ContainerStub(podMs, pod, c).labels == (labels + NodeLabels(podMs.labels))[LABELS := pod.labelText];
  }

  lemma NoStateLabel(labels: map<string, string>, more: map<string, string>)
    requires labels.Keys == {TYPE, NAMESPACE_NAME, POD_NAME, CONTAINER_NAME, CONTAINER_BASE_IMAGE, POD_ID} && more.Keys == {NODENAME, HOSTNAME, HOST_ID}
    ensures STATE !in labels && STATE !in more && STATE != LABELS
  {
    assert |NAMESPACE_NAME| != |STATE| && |POD_NAME| != |STATE| && |CONTAINER_NAME| != |STATE| && |CONTAINER_BASE_IMAGE| != |STATE|;
    assert |POD_ID| != |STATE| && |TYPE| != |STATE| && |LABELS| != |STATE|;
    assert |NODENAME| != |STATE| && |HOSTNAME| != |STATE| && |HOST_ID| != |STATE|;
  }

  function DonePod(): Pod {
    var done := TerminatedState("Completed", "0", 1);
    Pod("n", "p", "u", "", RUNNING, None, [Container("c", "i", map[], map[])], [ContainerStatus("c", 0, done, UnknownState)])
  }

  /** A container that has terminated counts, reported or not. */
  lemma TerminatedContainersCount(podMs: SetView, clock: Clock)
    ensures var pod, labels := DonePod(), map[TYPE := TYPE_POD_CONTAINER, NAMESPACE_NAME := "n", POD_NAME := "p"];
      var w, stub := ContainerInfo(PodContainerKey("n", "p", "c"), NewView(map[], labels), pod, clock), FullStub(podMs, pod, pod.containers[0], clock);
      && FindContainerState(clock, pod.statuses[0]).TerminatedState?
      && w.labeledValues == stub.labeledValues == [StatusValue(clock, pod.statuses[0])]
      && Counts(w) && Counts(stub)
  {
    var pod, k := DonePod(), PodContainerKey("n", "p", "c");
    var v := NewView(map[], map[TYPE := TYPE_POD_CONTAINER, NAMESPACE_NAME := "n", POD_NAME := "p"]);
    ContainersCount(k, v, pod, clock);
    StubsCount(podMs, pod, pod.containers[0], clock);
    assert |TYPE| != 5 && |NAMESPACE_NAME| != 5 && |POD_NAME| != 5;
    assert STATE !in v.labels;
    assert StatusOf(pod, k, 0) == Some(pod.statuses[0]);
    assert StatusValues(pod, k, clock, 0) == [];
    assert StatusValues(pod, k, clock, 1) == [StatusValue(clock, pod.statuses[0])];
  }
}
