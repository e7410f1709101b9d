/** PodBasedEnricher.Process, which changes the sets of a batch in place and drops some while ranging over them. */
module PodBasedEnrichers {
  import opened Options
  import opened MapOrders
  import opened ResourceKeys
  import opened MetricSets
  import opened RollUps
  import opened RollUpSums
  import opened PodSums
  import opened PodAggregators
  import opened PodEnrichment

  function Part(requests: map<string, Quantity>, unvisited: set<string>): map<string, Quantity> {
    map r | r in requests && r !in unvisited :: requests[r]
  }

  lemma RequestAdded(requests: map<string, Quantity>, unvisited: set<string>, r: string)
    requires RequestsOk(requests) && r in requests && r in unvisited
    ensures RequestValues(Part(requests, unvisited - {r})) == RequestValues(Part(requests, unvisited))[RequestName(r) := Reading(r, requests[r])]
  {
    var p, p1 := Part(requests, unvisited), Part(requests, unvisited - {r});
    forall name ensures (name in RequestValues(p1) <==> name in RequestValues(p)[RequestName(r) := Reading(r, requests[r])])
      && (name in RequestValues(p1) ==> RequestValues(p1)[name] == RequestValues(p)[RequestName(r) := Reading(r, requests[r])][name])
    {
      if name == RequestName(r) {
        RequestValue(p1, r);
      } else if name in RequestValues(p1) {
        var s :| s in p1 && RequestName(s) == name;
        RequestValue(p1, s);
        RequestValue(p, s);
      }
    }
  }

  lemma RequestStep(was: Values, now: Values, requests: map<string, Quantity>, unvisited: set<string>, r: string)
    requires RequestsOk(requests) && r in requests && r in unvisited && now == was + RequestValues(Part(requests, unvisited))
    ensures now[RequestName(r) := Reading(r, requests[r])] == was + RequestValues(Part(requests, unvisited - {r}))
  {
    RequestAdded(requests, unvisited, r);
  }

  /** updateContainerResourcesAndLimits. */
  method UpdateResources(ms: MetricSet, c: Container)
    requires RequestsOk(c.requests)
    modifies ms`values
    ensures ms.View() == old(ms.View()).(values := WithResources(old(ms.values), c))
  {
    AddRequests(ms, c.requests);
    AddDefaults(ms, c.requests);
    AddLimits(ms, c.limits);
  }

  /** The requests are ranged over in any order. */
  method AddRequests(ms: MetricSet, requests: map<string, Quantity>)
    requires RequestsOk(requests)
    modifies ms`values
    ensures ms.values == old(ms.values) + RequestValues(requests)
  {
    var unvisited := requests.Keys;
    assert Part(requests, unvisited) == map[];
    while unvisited != {}
      invariant unvisited <= requests.Keys
      invariant ms.values == old(ms.values) + RequestValues(Part(requests, unvisited))
      decreases unvisited
    {
      var r :| r in unvisited;
      RequestStep(old(ms.values), ms.values, requests, unvisited, r);
      ms.values := ms.values[RequestName(r) := Reading(r, requests[r])];
      unvisited := unvisited - {r};
    }
    assert Part(requests, {}) == requests;
  }

  method AddDefaults(ms: MetricSet, requests: map<string, Quantity>)
    modifies ms`values
    ensures ms.values == old(ms.values) + NotRequested(requests)
  {
    var v0 := ms.values;
    if CPU !in requests {
      ms.values := ms.values[CPU_REQUEST := IntValue(0)];
    }
    var v1 := ms.values;
    if MEMORY !in requests {
      ms.values := ms.values[MEMORY_REQUEST := IntValue(0)];
    }
    var v2 := ms.values;
    if EPHEMERAL_STORAGE !in requests {
      ms.values := ms.values[STORAGE_REQUEST := IntValue(0)];
    }
    AddedOne(v0, v1, CPU in requests, CPU_REQUEST);
    AddedOne(v1, v2, MEMORY in requests, MEMORY_REQUEST);
    AddedOne(v2, ms.values, EPHEMERAL_STORAGE in requests, STORAGE_REQUEST);
    AddedThree(v0, Zero(CPU in requests, CPU_REQUEST), Zero(MEMORY in requests, MEMORY_REQUEST), Zero(EPHEMERAL_STORAGE in requests, STORAGE_REQUEST));
  }

  function Zero(requested: bool, name: string): Values {
    if requested then map[] else map[name := IntValue(0)]
  }

  lemma AddedOne(v: Values, v1: Values, requested: bool, name: string)
    requires v1 == if requested then v else v[name := IntValue(0)]
    ensures v1 == v + Zero(requested, name)
  {
  }

  lemma AddedThree(v: Values, a: Values, b: Values, c: Values)
    ensures v + a + b + c == v + (a + b + c)
  {
  }

  method AddLimits(ms: MetricSet, limits: map<string, Quantity>)
    modifies ms`values
    ensures ms.values == old(ms.values) + LimitValues(limits)
  {
    var cpu, memory, storage := Limit(limits, CPU), Limit(limits, MEMORY), Limit(limits, EPHEMERAL_STORAGE);
    LimitsAdded(ms.values, CPU_LIMIT, MEMORY_LIMIT, STORAGE_LIMIT, cpu, memory, storage);
    ms.values := ms.values[CPU_LIMIT := cpu];
    ms.values := ms.values[MEMORY_LIMIT := memory];
    ms.values := ms.values[STORAGE_LIMIT := storage];
  }

  lemma LimitsAdded(v: Values, a: string, b: string, c: string, x: Value, y: Value, z: Value)
    ensures v[a := x][b := y][c := z] == v + map[a := x, b := y, c := z]
  {
  }

  ghost predicate PodsOk(lister: PodLister) {
    forall id :: id in lister ==> PodOk(lister[id])
  }

  predicate PodOk(pod: Pod) {
    forall i :: 0 <= i < |pod.containers| ==> RequestsOk(pod.containers[i].requests)
  }

  // ---- Containers -----------------------------------------------------------------------------------------

  /** addContainerInfo, on the container's own set. */
  method AddContainerFields(k: ResourceKey, ms: MetricSet, pod: Pod, clock: Clock)
    requires PodOk(pod)
    modifies ms
    ensures ms.View() == ContainerInfo(k, old(ms.View()), pod, clock)
  {
    ApplySpec(k, ms, pod);
    ApplyStatus(k, ms, pod, clock);
    ms.labels := ms.labels[POD_ID := pod.uid];
    ms.labels := ms.labels[LABELS := pod.labelText];
  }

  method ApplySpec(k: ResourceKey, ms: MetricSet, pod: Pod)
    requires PodOk(pod)
    modifies ms
    ensures ms.View() == WithSpec(old(ms.View()), SpecOf(pod, k, 0))
  {
    for i := 0 to |pod.containers|
      invariant ms.View() == old(ms.View()) && SpecOf(pod, k, 0) == SpecOf(pod, k, i)
    {
      var container := pod.containers[i];
      if k == Key(pod, container.name) {
        UpdateResources(ms, container);
        if CONTAINER_BASE_IMAGE !in ms.labels {
          ms.labels := ms.labels[CONTAINER_BASE_IMAGE := container.image];
        }
        break;
      }
    }
  }

  method ApplyStatus(k: ResourceKey, ms: MetricSet, pod: Pod, clock: Clock)
    modifies ms
    ensures ms.View() == WithStatus(old(ms.View()), pod, StatusOf(pod, k, 0), clock)
  {
    for i := 0 to |pod.statuses|
      invariant ms.View() == old(ms.View()) && StatusOf(pod, k, 0) == StatusOf(pod, k, i)
    {
      var status := pod.statuses[i];
      if k == Key(pod, status.name) {
        ms.values := ms.values[RESTART_COUNT := IntValue(status.restartCount)];
        if pod.startTime.Some? {
          ms.entityCreateTime := pod.startTime.value;
        }
        ms.labeledValues := ms.labeledValues + [StatusValue(clock, status)];
        break;
      }
    }
  }

  // ---- Pods -----------------------------------------------------------------------------------------------

  /** addPodInfo, on the pod's own set. */
  method AddPodFields(podMs: MetricSet, pod: Pod)
    modifies podMs
    ensures podMs.View() == PodInfo(old(podMs.View()), pod)
  {
    if pod.phase != RUNNING {
      return;
    }
    podMs.labels := podMs.labels[POD_ID := pod.uid];
    if pod.startTime.Some? {
      podMs.entityCreateTime := pod.startTime.value;
    }
    podMs.labels := podMs.labels[LABELS := pod.labelText];
    podMs.labeledValues := podMs.labeledValues + [PhaseValue(pod)];
  }

  method NewStub(podMs: MetricSet, pod: Pod, c: Container) returns (ms: MetricSet)
    requires RequestsOk(c.requests)
    ensures fresh(ms) && ms.View() == ContainerStub(podMs.View(), pod, c)
  {
    var labels := map[TYPE := TYPE_POD_CONTAINER, NAMESPACE_NAME := pod.namespace, POD_NAME := pod.name,
                      CONTAINER_NAME := c.name, CONTAINER_BASE_IMAGE := c.image, POD_ID := pod.uid] + NodeLabels(podMs.labels);
    ms := new MetricSet(NewView(map[], labels[LABELS := pod.labelText]).(entityCreateTime := podMs.collectionStartTime));
    UpdateResources(ms, c);
  }

  /** The containers of the specification that neither the batch nor the new sets hold. */
  method AddStubs(batch: Batch, newMs: Batch, podMs: MetricSet, pod: Pod)
    requires newMs.Valid() && batch != newMs && PodOk(pod)
    modifies newMs`sets, newMs`Repr
    ensures newMs.Valid() && fresh(newMs.Repr - old(newMs.Repr))
    ensures newMs.Contents() == WithStubs(batch.sets.Keys, old(newMs.Contents()), StubFor(podMs.View(), pod), pod, |pod.containers|)
  {
    ghost var reported, stub, trail := batch.sets.Keys, StubFor(podMs.View(), pod), [newMs.Contents()];
    for i := 0 to |pod.containers|
      invariant newMs.Valid() && fresh(newMs.Repr - old(newMs.Repr))
      invariant batch.sets.Keys == reported && StubFor(podMs.View(), pod) == stub
      invariant StubTrail(reported, stub, pod, trail) && |trail| == i + 1 && trail[0] == old(newMs.Contents()) && trail[i] == newMs.Contents()
    {
      AddStub(batch, newMs, podMs, pod, i, reported, stub, trail);
      trail := trail + [newMs.Contents()];
    }
    TrailMakesStubs(reported, stub, pod, trail, |pod.containers|);
  }

  /** The new sets between the steps of the loop. */
  ghost predicate StubTrail(reported: set<ResourceKey>, stub: Container -> SetView, pod: Pod, trail: seq<Sets>) {
    0 < |trail| <= |pod.containers| + 1 && forall j :: 0 <= j < |trail| - 1 ==> StubStep(reported, stub, pod, trail, j)
  }

  ghost predicate StubStep(reported: set<ResourceKey>, stub: Container -> SetView, pod: Pod, trail: seq<Sets>, j: nat) {
    && j < |pod.containers| && j + 1 < |trail|
    && var c, m := pod.containers[j], trail[j];
       var k := Key(pod, c.name);
       trail[j + 1] == if k in reported || k in m then m else m[k := stub(c)]
  }

  lemma {:induction false} TrailMakesStubs(reported: set<ResourceKey>, stub: Container -> SetView, pod: Pod, trail: seq<Sets>, n: nat)
    requires StubTrail(reported, stub, pod, trail) && n < |trail|
    ensures trail[n] == WithStubs(reported, trail[0], stub, pod, n)
  {
    if n > 0 {
      TrailMakesStubs(reported, stub, pod, trail, n - 1);
      assert StubStep(reported, stub, pod, trail, n - 1);
    }
  }

  method PutStub(newMs: Batch, podMs: MetricSet, pod: Pod, container: Container, key: ResourceKey)
    requires newMs.Valid() && RequestsOk(container.requests) && key !in newMs.sets
    modifies newMs`sets, newMs`Repr
    ensures newMs.Valid() && fresh(newMs.Repr - old(newMs.Repr))
    ensures newMs.Contents() == old(newMs.Contents())[key := ContainerStub(podMs.View(), pod, container)]
  {
    var ms := NewStub(podMs, pod, container);
    newMs.Put(key, ms);
  }

  method AddStub(batch: Batch, newMs: Batch, podMs: MetricSet, pod: Pod, i: nat,
                 ghost reported: set<ResourceKey>, ghost stub: Container -> SetView, ghost trail: seq<Sets>)
    requires newMs.Valid() && batch != newMs && i < |pod.containers| && RequestsOk(pod.containers[i].requests)
    requires batch.sets.Keys == reported && StubFor(podMs.View(), pod) == stub
    requires StubTrail(reported, stub, pod, trail) && |trail| == i + 1 && trail[i] == newMs.Contents()
    modifies newMs`sets, newMs`Repr
    ensures newMs.Valid() && fresh(newMs.Repr - old(newMs.Repr))
    ensures StubTrail(reported, stub, pod, trail + [newMs.Contents()])
  {
    var container := pod.containers[i];
    var key := Key(pod, container.name);
    ghost var m := newMs.Contents();
    if key !in batch.sets && key !in newMs.sets {
      PutStub(newMs, podMs, pod, container, key);
    }
    StubTrailNext(reported, stub, pod, trail, i, newMs.Contents());
  }

  lemma StubTrailNext(reported: set<ResourceKey>, stub: Container -> SetView, pod: Pod, trail: seq<Sets>, i: nat, m: Sets)
    requires StubTrail(reported, stub, pod, trail) && |trail| == i + 1 && i < |pod.containers|
    requires var k := Key(pod, pod.containers[i].name);
      m == if k in reported || k in trail[i] then trail[i] else trail[i][k := stub(pod.containers[i])]
    ensures StubTrail(reported, stub, pod, trail + [m])
  {
    forall j | 0 <= j < |trail + [m]| - 1 ensures StubStep(reported, stub, pod, trail + [m], j) {
      assert j < i ==> StubStep(reported, stub, pod, trail, j);
    }
  }

  /** updateContainerStatus. */
  method UpdateStatuses(newMs: Batch, pod: Pod, clock: Clock)
    requires newMs.Valid()
    modifies newMs.Repr
    ensures newMs.Valid() && newMs.Contents() == WithStatuses(old(newMs.Contents()), pod, clock, |pod.statuses|)
  {
    ghost var before := newMs.Contents();
    for i := 0 to |pod.statuses|
      invariant newMs.Contents() == WithStatuses(before, pod, clock, i)
    {
      var key := Key(pod, pod.statuses[i].name);
      if key in newMs.sets {
        AppendStatus(newMs, key, StatusValue(clock, pod.statuses[i]));
      }
    }
  }

  method AppendStatus(newMs: Batch, key: ResourceKey, value: LabeledValue)
    requires newMs.Valid() && key in newMs.sets
    modifies newMs.Repr
    ensures newMs.Contents() == old(newMs.Contents())[key := old(newMs.Contents())[key].(labeledValues := old(newMs.Contents())[key].labeledValues + [value])]
  {
    ghost var before := newMs.Contents();
    var ms := newMs.sets[key];
    ms.labeledValues := ms.labeledValues + [value];
    IsUpdate(before, newMs.Contents(), key, ms.View());
  }

  // ---- The batch ------------------------------------------------------------------------------------------

  /** addPodInfo, on the new sets. */
  method AddPodStubs(batch: Batch, newMs: Batch, podMs: MetricSet, pod: Pod, clock: Clock)
    requires newMs.Valid() && batch != newMs && PodOk(pod)
    modifies newMs`sets, newMs`Repr, newMs.Repr
    ensures newMs.Valid() && fresh(newMs.Repr - old(newMs.Repr))
    ensures newMs.Contents() == PodStubs(batch.sets.Keys, old(newMs.Contents()), old(podMs.View()), pod, clock)
  {
    if pod.phase != RUNNING {
      return;
    }
    AddStubs(batch, newMs, podMs, pod);
    UpdateStatuses(newMs, pod, clock);
  }

  method EnrichOwnPod(batch: Batch, k: ResourceKey, pod: Pod)
    requires batch.Valid() && k in batch.sets
    modifies batch.Repr
    ensures batch.Contents() == old(batch.Contents())[k := PodInfo(old(batch.Contents())[k], pod)]
  {
    ghost var b := batch.Contents();
    AddPodFields(batch.sets[k], pod);
    IsUpdate(b, batch.Contents(), k, batch.sets[k].View());
  }

  method EnrichOwnContainer(batch: Batch, k: ResourceKey, pod: Pod, clock: Clock)
    requires batch.Valid() && k in batch.sets && PodOk(pod)
    modifies batch.Repr
    ensures batch.Contents() == old(batch.Contents())[k := ContainerInfo(k, old(batch.Contents())[k], pod, clock)]
  {
    ghost var b := batch.Contents();
    AddContainerFields(k, batch.sets[k], pod, clock);
    IsUpdate(b, batch.Contents(), k, batch.sets[k].View());
  }

  method EnrichPodSet(batch: Batch, newMs: Batch, k: ResourceKey, pod: Pod, clock: Clock)
    requires Disjoint(batch, newMs) && k in batch.sets && PodOk(pod)
    modifies batch.Repr, newMs`sets, newMs`Repr, newMs.Repr
    ensures Disjoint(batch, newMs) && fresh(newMs.Repr - old(newMs.Repr))
    ensures Enriching(batch.Contents(), newMs.Contents()) == EnrichPod(clock, Enriching(old(batch.Contents()), old(newMs.Contents())), k, pod)
  {
    EnrichOwnPod(batch, k, pod);
    assert batch.sets[k].View() == batch.Contents()[k];
    AddStubsOf(batch, newMs, batch.sets[k], pod, clock);
  }

  method AddStubsOf(batch: Batch, newMs: Batch, podMs: MetricSet, pod: Pod, clock: Clock)
    requires Disjoint(batch, newMs) && PodOk(pod)
    modifies newMs`sets, newMs`Repr, newMs.Repr
    ensures Disjoint(batch, newMs) && fresh(newMs.Repr - old(newMs.Repr)) && batch.Contents() == old(batch.Contents())
    ensures newMs.Contents() == PodStubs(batch.Contents().Keys, old(newMs.Contents()), old(podMs.View()), pod, clock)
  {
    ghost var b := batch.Contents();
    assert b.Keys == batch.sets.Keys;
    AddPodStubs(batch, newMs, podMs, pod, clock);
    assert batch.Contents() == b;
  }

  method EnrichContainerSet(batch: Batch, newMs: Batch, k: ResourceKey, pod: Pod, clock: Clock)
    requires Disjoint(batch, newMs) && k in batch.sets && PodOk(pod)
    modifies batch.Repr, newMs`sets, newMs`Repr, newMs.Repr
    ensures Disjoint(batch, newMs) && fresh(newMs.Repr - old(newMs.Repr))
    ensures Enriching(batch.Contents(), newMs.Contents()) == EnrichContainer(clock, Enriching(old(batch.Contents()), old(newMs.Contents())), k, pod)
  {
    EnrichOwnContainer(batch, k, pod, clock);
    assert batch.sets[k].View() == batch.Contents()[k];
    AddPodOf(batch, newMs, batch.sets[k].View(), pod, clock);
  }

  /** The pod of a reported container, unless the batch or the new sets hold it. */
  method AddPodOf(batch: Batch, newMs: Batch, v: SetView, pod: Pod, clock: Clock)
    requires Disjoint(batch, newMs) && PodOk(pod)
    modifies newMs`sets, newMs`Repr, newMs.Repr
    ensures Disjoint(batch, newMs) && fresh(newMs.Repr - old(newMs.Repr)) && batch.Contents() == old(batch.Contents())
    ensures var pk, n, podMs := PodKeyOf(v), old(newMs.Contents()), PodInfo(PodStub(v.labels, pod), pod);
      newMs.Contents() == if pk in batch.Contents() || pk in n then n else PodStubs(batch.Contents().Keys, n[pk := podMs], podMs, pod, clock)
  {
    ghost var b := batch.Contents();
    assert b.Keys == batch.sets.Keys;
    var podKey := PodKeyOf(v);
    if podKey !in batch.sets && podKey !in newMs.sets {
      AddMissingPod(batch, newMs, podKey, v.labels, pod, clock);
      assert batch.Contents() == b;
    }
  }

  /** A stub for the pod of a reported container, and stubs for its other containers. */
  method AddMissingPod(batch: Batch, newMs: Batch, podKey: ResourceKey, labels: map<string, string>, pod: Pod, clock: Clock)
    requires newMs.Valid() && batch != newMs && podKey !in newMs.sets && PodOk(pod)
    modifies newMs`sets, newMs`Repr, newMs.Repr
    ensures newMs.Valid() && fresh(newMs.Repr - old(newMs.Repr))
    ensures var podMs := PodInfo(PodStub(labels, pod), pod);
      newMs.Contents() == PodStubs(batch.sets.Keys, old(newMs.Contents())[podKey := podMs], podMs, pod, clock)
  {
    var podMs := new MetricSet(PodStub(labels, pod));
    AddPodFields(podMs, pod);
    newMs.Put(podKey, podMs);
    AddPodStubs(batch, newMs, podMs, pod, clock);
  }

  method GetPod(lister: PodLister, ns: string, name: string) returns (pod: Option<Pod>)
    ensures pod == if (ns, name) in lister then Some(lister[(ns, name)]) else None
  {
    pod := if (ns, name) in lister then Some(lister[(ns, name)]) else None;
  }

  method Delete(batch: Batch, k: ResourceKey)
    requires batch.Valid()
    modifies batch`sets
    ensures batch.Valid() && batch.sets == old(batch.sets) - {k} && batch.Contents() == old(batch.Contents()) - {k}
  {
    batch.sets := batch.sets - {k};
  }

  /** The loop body of Process. */
  method VisitSet(batch: Batch, newMs: Batch, k: ResourceKey, lister: PodLister, clock: Clock)
    requires Disjoint(batch, newMs) && k in batch.sets && PodsOk(lister)
    modifies batch`sets, batch.Repr, newMs`sets, newMs`Repr, newMs.Repr
    ensures Disjoint(batch, newMs) && fresh(newMs.Repr - old(newMs.Repr)) && old(batch.sets.Keys) - {k} <= batch.sets.Keys <= old(batch.sets.Keys)
    ensures Enriching(batch.Contents(), newMs.Contents()) == Enrich(lister, clock, Enriching(old(batch.Contents()), old(newMs.Contents())), k)
  {
    var v := batch.sets[k].View();
    ghost var st := Enriching(batch.Contents(), newMs.Contents());
    assert v == st.sets[k];
    if TypeOf(v) == TYPE_POD || TypeOf(v) == TYPE_POD_CONTAINER {
      var pod := GetPod(lister, Get(v.labels, NAMESPACE_NAME), Get(v.labels, POD_NAME));
      if pod == None {
        Delete(batch, k);
      } else {
        EnrichKnown(batch, newMs, k, lister, clock, pod.value);
      }
    }
  }

  method EnrichKnown(batch: Batch, newMs: Batch, k: ResourceKey, ghost lister: PodLister, clock: Clock, pod: Pod)
    requires Disjoint(batch, newMs) && k in batch.sets && PodsOk(lister) && PodFor(lister, batch.sets[k].View()) == Some(pod)
    requires TypeOf(batch.sets[k].View()) == TYPE_POD || TypeOf(batch.sets[k].View()) == TYPE_POD_CONTAINER
    modifies batch.Repr, newMs`sets, newMs`Repr, newMs.Repr
    ensures Disjoint(batch, newMs) && fresh(newMs.Repr - old(newMs.Repr))
    ensures Enriching(batch.Contents(), newMs.Contents()) == Enrich(lister, clock, Enriching(old(batch.Contents()), old(newMs.Contents())), k)
  {
    ghost var st := Enriching(batch.Contents(), newMs.Contents());
    if TypeOf(batch.sets[k].View()) == TYPE_POD {
      assert Enrich(lister, clock, st, k) == EnrichPod(clock, st, k, pod);
      EnrichPodSet(batch, newMs, k, pod, clock);
    } else {
      assert Enrich(lister, clock, st, k) == EnrichContainer(clock, st, k, pod);
      EnrichContainerSet(batch, newMs, k, pod, clock);
    }
  }

  method VisitNext(batch: Batch, newMs: Batch, k: ResourceKey, lister: PodLister, clock: Clock, ghost start: Sets,
                   ghost order: seq<ResourceKey>)
    requires Disjoint(batch, newMs) && k in batch.sets && PodsOk(lister)
    requires RunEnrich(lister, clock, start, order, |order|) == Enriching(batch.Contents(), newMs.Contents())
    modifies batch`sets, batch.Repr, newMs`sets, newMs`Repr, newMs.Repr
    ensures Disjoint(batch, newMs) && fresh(newMs.Repr - old(newMs.Repr)) && old(batch.sets.Keys) - {k} <= batch.sets.Keys <= old(batch.sets.Keys)
    ensures RunEnrich(lister, clock, start, order + [k], |order + [k]|) == Enriching(batch.Contents(), newMs.Contents())
  {
    RunPrefix(lister, clock, start, order, k, |order|);
    VisitSet(batch, newMs, k, lister, clock);
  }

  lemma {:induction false} RunPrefix(lister: PodLister, clock: Clock, start: Sets, order: seq<ResourceKey>, k: ResourceKey, n: nat)
    requires n <= |order|
    ensures RunEnrich(lister, clock, start, order + [k], n) == RunEnrich(lister, clock, start, order, n)
  {
    if n > 0 {
      RunPrefix(lister, clock, start, order, k, n - 1);
    }
  }

  /** The loop of Process over the batch's sets, which loses some of them on the way. */
  method EnrichSets(batch: Batch, newMs: Batch, lister: PodLister, clock: Clock, ghost start: Sets) returns (ghost order: seq<ResourceKey>)
    requires Disjoint(batch, newMs) && PodsOk(lister) && batch.Contents() == start && newMs.Contents() == map[]
    modifies batch`sets, batch.Repr, newMs`sets, newMs`Repr, newMs.Repr
    ensures Disjoint(batch, newMs) && fresh(newMs.Repr - old(newMs.Repr))
    ensures Ranges(old(batch.sets.Keys), order)
    ensures batch.Contents() + newMs.Contents() == EnrichedIn(lister, clock, start, order)
  {
    var unvisited := batch.sets.Keys;
    order := [];
    while unvisited != {}
      invariant Disjoint(batch, newMs) && fresh(newMs.Repr - old(newMs.Repr)) && unvisited <= batch.sets.Keys
      invariant RunEnrich(lister, clock, start, order, |order|) == Enriching(batch.Contents(), newMs.Contents())
      invariant Visited(order, old(batch.sets.Keys), unvisited)
      decreases unvisited
    {
      var k :| k in unvisited;
      VisitNext(batch, newMs, k, lister, clock, start, order);
      VisitedNext(order, old(batch.sets.Keys), unvisited, k);
      order := order + [k];
      unvisited := unvisited - {k};
    }
    AllVisited(order, old(batch.sets.Keys));
  }

  /** And what follows it: the new sets are put into the batch. */
  method EnrichAndPut(batch: Batch, newMs: Batch, lister: PodLister, clock: Clock,
                      ghost start: Sets) returns (ghost order: seq<ResourceKey>)
    requires Disjoint(batch, newMs) && PodsOk(lister) && batch.Contents() == start && newMs.Contents() == map[]
    modifies batch`sets, batch`Repr, batch.Repr, newMs`sets, newMs`Repr, newMs.Repr
    ensures batch.Valid() && fresh(batch.Repr - old(batch.Repr) - old(newMs.Repr))
    ensures Ranges(old(batch.sets.Keys), order)
    ensures batch.Contents() == EnrichedIn(lister, clock, start, order)
  {
    order := EnrichSets(batch, newMs, lister, clock, start);
    batch.PutAll(newMs);
  }

  class PodBasedEnricher {
    const podLister: PodLister
    const collectionInterval: int

    constructor (podLister: PodLister, collectionInterval: int)
      ensures this.podLister == podLister && this.collectionInterval == collectionInterval
    {
      this.podLister, this.collectionInterval := podLister, collectionInterval;
    }

    method Process(batch: Batch) returns (ghost order: seq<ResourceKey>)
      requires batch.Valid() && PodsOk(podLister)
      modifies batch`sets, batch`Repr, batch.Repr
      ensures batch.Valid() && fresh(batch.Repr - old(batch.Repr))
      ensures Ranges(old(batch.sets.Keys), order)
      ensures batch.Contents() == EnrichedIn(podLister, Clock(old(batch.timestamp), collectionInterval), old(batch.Contents()), order)
    {
      ghost var start := batch.Contents();
      var clock := Clock(batch.timestamp, collectionInterval);
      var newMs := new Batch(map[], batch.timestamp);
      order := EnrichAndPut(batch, newMs, podLister, clock, start);
    }
  }
}
