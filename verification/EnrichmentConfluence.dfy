/** The enriched batch does not depend on the order in which its sets are visited. */
module EnrichmentConfluence {
  import opened Options
  import opened MapOrders
  import opened ResourceKeys
  import opened MetricSets
  import opened RollUps
  import opened RollUpSums
  import opened PodSums
  import opened PodEnrichment

  // ---- The stubs of one pod -------------------------------------------------------------------------

  predicate OfPod(pod: Pod, k: ResourceKey) {
    k.PodContainerKey? && k.namespace == pod.namespace && k.podName == pod.name
  }

  lemma {:induction false} SpecOfFirst(pod: Pod, k: ResourceKey, j: nat, i: nat)
    requires j <= i < |pod.containers| && Key(pod, pod.containers[i].name) == k
    requires forall h :: j <= h < i ==> Key(pod, pod.containers[h].name) != k
    ensures SpecOf(pod, k, j) == Some(pod.containers[i])
    decreases i - j
  {
    if j < i {
      SpecOfFirst(pod, k, j + 1, i);
    }
  }

  lemma {:induction false} SpecOfNone(pod: Pod, k: ResourceKey, j: nat)
    requires j <= |pod.containers|
    ensures SpecOf(pod, k, j).Some? <==> exists h :: j <= h < |pod.containers| && Key(pod, pod.containers[h].name) == k
    decreases |pod.containers| - j
  {
    if j < |pod.containers| {
      SpecOfNone(pod, k, j + 1);
    }
  }

  /** The key of one of the first n containers that was not reported. */
  ghost predicate Stubbed(reported: set<ResourceKey>, pod: Pod, k: ResourceKey, n: nat)
    requires n <= |pod.containers|
  {
    k !in reported && exists h :: 0 <= h < n && Key(pod, pod.containers[h].name) == k
  }

  /** What the first n containers bring in under k. */
  ghost predicate StubAt(reported: set<ResourceKey>, newMs: Sets, stub: Container -> SetView, pod: Pod, n: nat, k: ResourceKey, m: Sets)
    requires n <= |pod.containers|
  {
    && (k in m <==> k in newMs || Stubbed(reported, pod, k, n))
    && (k in newMs ==> m[k] == newMs[k])
    && (Stubbed(reported, pod, k, n) ==> SpecOf(pod, k, 0).Some? && m[k] == stub(SpecOf(pod, k, 0).value))
  }

  lemma {:induction false} StubsMade(reported: set<ResourceKey>, newMs: Sets, stub: Container -> SetView, pod: Pod, n: nat, k: ResourceKey)
    requires n <= |pod.containers| && (OfPod(pod, k) ==> k !in newMs)
    ensures StubAt(reported, newMs, stub, pod, n, k, WithStubs(reported, newMs, stub, pod, n))
  {
    if n > 0 {
      StubsMade(reported, newMs, stub, pod, n - 1, k);
      StubNext(reported, newMs, stub, pod, n, k, WithStubs(reported, newMs, stub, pod, n - 1));
    }
  }

  lemma StubNext(reported: set<ResourceKey>, newMs: Sets, stub: Container -> SetView, pod: Pod, n: nat, k: ResourceKey, m: Sets)
    requires 0 < n <= |pod.containers| && (OfPod(pod, k) ==> k !in newMs) && StubAt(reported, newMs, stub, pod, n - 1, k, m)
    ensures var c := pod.containers[n - 1];
      var j := Key(pod, c.name);
      StubAt(reported, newMs, stub, pod, n, k, if j in reported || j in m then m else m[j := stub(c)])
  {
    var c := pod.containers[n - 1];
    if Key(pod, c.name) == k {
      StubNextHere(reported, newMs, stub, pod, n, k, m);
    } else {
      StubNextElsewhere(reported, newMs, stub, pod, n, k, m, Key(pod, c.name), stub(c));
    }
  }

  lemma StubNextElsewhere(reported: set<ResourceKey>, newMs: Sets, stub: Container -> SetView, pod: Pod, n: nat, k: ResourceKey, m: Sets,
                          j: ResourceKey, v: SetView)
    requires 0 < n <= |pod.containers| && StubAt(reported, newMs, stub, pod, n - 1, k, m)
    requires Key(pod, pod.containers[n - 1].name) == j != k
    ensures StubAt(reported, newMs, stub, pod, n, k, m) && StubAt(reported, newMs, stub, pod, n, k, m[j := v])
  {
    StubbedBefore(reported, pod, k, n);
  }

  lemma StubNextHere(reported: set<ResourceKey>, newMs: Sets, stub: Container -> SetView, pod: Pod, n: nat, k: ResourceKey, m: Sets)
    requires 0 < n <= |pod.containers| && StubAt(reported, newMs, stub, pod, n - 1, k, m) && k !in newMs
    requires Key(pod, pod.containers[n - 1].name) == k
    ensures StubAt(reported, newMs, stub, pod, n, k, if k in reported || k in m then m else m[k := stub(pod.containers[n - 1])])
  {
    assert k !in reported ==> Stubbed(reported, pod, k, n);
    if k !in reported && !Stubbed(reported, pod, k, n - 1) {
      SpecOfFirst(pod, k, 0, n - 1);
    }
  }

  lemma StubbedBefore(reported: set<ResourceKey>, pod: Pod, k: ResourceKey, n: nat)
    requires 0 < n <= |pod.containers| && Key(pod, pod.containers[n - 1].name) != k
    ensures Stubbed(reported, pod, k, n) <==> Stubbed(reported, pod, k, n - 1)
  {
  }

  /** The status values that the first n statuses give to the container at k. */
  function StatusValues(pod: Pod, k: ResourceKey, clock: Clock, n: nat): seq<LabeledValue>
    requires n <= |pod.statuses|
  {
    if n == 0 then []
    else
      var s := pod.statuses[n - 1];
      StatusValues(pod, k, clock, n - 1) + if Key(pod, s.name) == k then [StatusValue(clock, s)] else []
  }

  lemma {:induction false} NoStatusValues(pod: Pod, k: ResourceKey, clock: Clock, n: nat)
    requires n <= |pod.statuses| && !OfPod(pod, k)
    ensures StatusValues(pod, k, clock, n) == []
  {
    if n > 0 {
      NoStatusValues(pod, k, clock, n - 1);
    }
  }

  lemma {:induction false} StatusesAdded(newMs: Sets, pod: Pod, clock: Clock, n: nat, k: ResourceKey)
    requires n <= |pod.statuses|
    ensures var m := WithStatuses(newMs, pod, clock, n);
      && (k in m <==> k in newMs)
      && (k in newMs ==> m[k] == newMs[k].(labeledValues := newMs[k].labeledValues + StatusValues(pod, k, clock, n)))
  {
    if n == 0 {
      assert k in newMs ==> newMs[k].labeledValues + [] == newMs[k].labeledValues;
    } else {
      StatusesAdded(newMs, pod, clock, n - 1, k);
      if k in newMs {
        var before := newMs[k].labeledValues;
        var values := StatusValues(pod, k, clock, n - 1);
        assert before + values + [StatusValue(clock, pod.statuses[n - 1])] == before + (values + [StatusValue(clock, pod.statuses[n - 1])]);
        assert values + [] == values;
      }
    }
  }

  /** A stub as it is when its pod has been dealt with. */
  ghost function FullStub(podMs: SetView, pod: Pod, c: Container, clock: Clock): SetView {
    ContainerStub(podMs, pod, c).(labeledValues := StatusValues(pod, Key(pod, c.name), clock, |pod.statuses|))
  }

  /** What addPodInfo does to the new sets, key by key. */
  lemma {:induction false} StubsOfPod(reported: set<ResourceKey>, newMs: Sets, podMs: SetView, pod: Pod, clock: Clock, k: ResourceKey)
    requires pod.phase == RUNNING && (OfPod(pod, k) ==> k !in newMs)
    ensures var r := PodStubs(reported, newMs, podMs, pod, clock);
      && (k in r <==> k in newMs || (k !in reported && SpecOf(pod, k, 0).Some?))
      && (k in newMs ==> r[k] == newMs[k])
      && (k !in newMs && k !in reported && SpecOf(pod, k, 0).Some? ==> r[k] == FullStub(podMs, pod, SpecOf(pod, k, 0).value, clock))
  {
    StubsMade(reported, newMs, StubFor(podMs, pod), pod, |pod.containers|, k);
    StatusesAdded(WithStubs(reported, newMs, StubFor(podMs, pod), pod, |pod.containers|), pod, clock, |pod.statuses|, k);
    SpecOfNone(pod, k, 0);
    if k in newMs {
      NoStatusValues(pod, k, clock, |pod.statuses|);
      assert newMs[k].labeledValues + [] == newMs[k].labeledValues;
    } else if k !in reported && SpecOf(pod, k, 0).Some? {
      SpecHasKey(pod, k, 0);
      var values := StatusValues(pod, k, clock, |pod.statuses|);
      assert [] + values == values;
    }
  }

  lemma {:induction false} SpecHasKey(pod: Pod, k: ResourceKey, j: nat)
    requires j <= |pod.containers| && SpecOf(pod, k, j).Some?
    ensures Key(pod, SpecOf(pod, k, j).value.name) == k && SpecOf(pod, k, j).value in pod.containers
    decreases |pod.containers| - j
  {
    if Key(pod, pod.containers[j].name) != k {
      SpecHasKey(pod, k, j + 1);
    }
  }

  // ---- The whole batch --------------------------------------------------------------------------------

  /** The pod that a pod or container key names. */
  function PodPart(k: ResourceKey): ResourceKey {
    match k
    case PodContainerKey(ns, p, _) => PodKey(ns, p)
    case _ => k
  }

  /** The sets of pods and containers are labelled with the names that are in their keys. */
  predicate LabelsAgree(s: Sets) {
    KeysAgree(s) && forall k :: k in s && (k.PodKey? || k.PodContainerKey?) ==> LabelledAs(s[k], PodPart(k))
  }

  predicate LabelledAs(v: SetView, pk: ResourceKey) {
    NAMESPACE_NAME in v.labels && POD_NAME in v.labels && PodKeyOf(v) == pk
  }

  /** The lister gives the pod that was asked for. */
  predicate ListerOk(lister: PodLister) {
    forall id :: id in lister ==> lister[id].namespace == id.0 && lister[id].name == id.1
  }

  function PodAtKey(lister: PodLister, k: ResourceKey): Option<Pod> {
    match k
    case PodKey(ns, p) => if (ns, p) in lister then Some(lister[(ns, p)]) else None
    case PodContainerKey(ns, p, _) => if (ns, p) in lister then Some(lister[(ns, p)]) else None
    case _ => None
  }

  /** The reported containers of a known pod that has no set of its own come from one node. */
  ghost predicate OneNode(s: Sets, lister: PodLister) {
    forall pk, j, k :: Reports(s, s.Keys, pk, j) && Reports(s, s.Keys, pk, k) && pk !in s && PodAtKey(lister, pk).Some?
                       ==> NodeLabels(s[j].labels) == NodeLabels(s[k].labels)
  }

  predicate Reports(s: Sets, seen: set<ResourceKey>, pk: ResourceKey, j: ResourceKey) {
    j in seen && j in s && j.PodContainerKey? && PodPart(j) == pk
  }

  ghost predicate Reported(s: Sets, seen: set<ResourceKey>, pk: ResourceKey) {
    exists j :: Reports(s, seen, pk, j)
  }

  /** The pod has been dealt with: its own set was visited or, when it has none, one of its containers'. */
  ghost predicate Introduced(s: Sets, seen: set<ResourceKey>, pk: ResourceKey) {
    if pk in s then pk in seen else Reported(s, seen, pk)
  }

  /** What a visited set becomes, if it stays. */
  ghost function Done(s: Sets, lister: PodLister, clock: Clock, k: ResourceKey): Option<SetView>
    requires k in s
  {
    if !k.PodKey? && !k.PodContainerKey? then Some(s[k])
    else
      match PodAtKey(lister, k)
      case None => None
      case Some(pod) => Some(if k.PodKey? then PodInfo(s[k], pod) else ContainerInfo(k, s[k], pod, clock))
  }

  /** The set of a pod that was made for a container, as the enricher leaves it. */
  function PodFrom(v: SetView, pod: Pod): SetView {
    PodInfo(PodStub(v.labels, pod), pod)
  }

  ghost predicate IsNewPod(s: Sets, lister: PodLister, seen: set<ResourceKey>, k: ResourceKey) {
    k.PodKey? && k !in s && PodAtKey(lister, k).Some? && Reported(s, seen, k)
  }

  ghost predicate IsNewContainer(s: Sets, lister: PodLister, seen: set<ResourceKey>, k: ResourceKey) {
    && k.PodContainerKey? && k !in s && PodAtKey(lister, k).Some? && Introduced(s, seen, PodPart(k))
    && var pod := PodAtKey(lister, k).value;
       pod.phase == RUNNING && SpecOf(pod, k, 0).Some?
  }

  /** A new pod is made from one of its containers, and a new container from the set of its pod. */
  ghost predicate NewViewIs(s: Sets, lister: PodLister, clock: Clock, newMs: Sets, k: ResourceKey)
    requires k in newMs && PodAtKey(lister, k).Some?
  {
    var pod, pk := PodAtKey(lister, k).value, PodPart(k);
    if k.PodKey? then exists j :: Reports(s, s.Keys, k, j) && newMs[k] == PodFrom(s[j], pod)
    else
      && SpecOf(pod, k, 0).Some? && (pk in s || pk in newMs)
      && newMs[k] == FullStub(if pk in s then PodInfo(s[pk], pod) else newMs[pk], pod, SpecOf(pod, k, 0).value, clock)
  }

  /** The state of the enricher after the keys of seen, in no particular order. */
  ghost predicate SoFar(s: Sets, lister: PodLister, clock: Clock, seen: set<ResourceKey>, st: Enriching) {
    && (forall k :: SetSoFar(s, lister, clock, seen, st.sets, k))
    && (forall k :: NewSoFar(s, lister, clock, seen, st.newMs, k))
  }

  ghost predicate SetSoFar(s: Sets, lister: PodLister, clock: Clock, seen: set<ResourceKey>, sets: Sets, k: ResourceKey) {
    if k !in s then k !in sets
    else if k !in seen then k in sets && sets[k] == s[k]
    else
      match Done(s, lister, clock, k)
      case None => k !in sets
      case Some(v) => k in sets && sets[k] == v
  }

  ghost predicate NewSoFar(s: Sets, lister: PodLister, clock: Clock, seen: set<ResourceKey>, newMs: Sets, k: ResourceKey) {
    && (k in newMs <==> IsNewPod(s, lister, seen, k) || IsNewContainer(s, lister, seen, k))
    && (k in newMs ==> NewViewIs(s, lister, clock, newMs, k))
  }

  // ---- One visit ----------------------------------------------------------------------------------------

  lemma PodForKey(s: Sets, lister: PodLister, k: ResourceKey)
    requires LabelsAgree(s) && k in s && (k.PodKey? || k.PodContainerKey?)
    ensures PodFor(lister, s[k]) == PodAtKey(lister, k) == PodAtKey(lister, PodPart(k)) && PodKeyOf(s[k]) == PodPart(k)
    ensures TypeOf(s[k]) == (if k.PodKey? then TYPE_POD else TYPE_POD_CONTAINER)
  {
    assert KeyAgrees(k, s[k]) && LabelledAs(s[k], PodPart(k));
  }

  /** Visiting a set of another type, or one whose pod is unknown, makes no new set. */
  lemma NothingNew(s: Sets, lister: PodLister, clock: Clock, seen: set<ResourceKey>, newMs: Sets, k: ResourceKey, j: ResourceKey)
    requires NewSoFar(s, lister, clock, seen, newMs, j) && PodAtKey(lister, k) == None
    ensures NewSoFar(s, lister, clock, seen + {k}, newMs, j)
  {
    OtherPod(s, lister, seen, k, j);
  }

  lemma OtherPod(s: Sets, lister: PodLister, seen: set<ResourceKey>, k: ResourceKey, j: ResourceKey)
    requires PodPart(j) != PodPart(k) || PodAtKey(lister, k) == None
    ensures IsNewPod(s, lister, seen + {k}, j) <==> IsNewPod(s, lister, seen, j)
    ensures IsNewContainer(s, lister, seen + {k}, j) <==> IsNewContainer(s, lister, seen, j)
  {
    if PodPart(j) != PodPart(k) {
      assert forall i :: Reports(s, seen + {k}, PodPart(j), i) <==> Reports(s, seen, PodPart(j), i);
      assert Reported(s, seen + {k}, PodPart(j)) <==> Reported(s, seen, PodPart(j));
    }
  }

  /** The batch's sets: the visited one is done, the others are as they were. */
  lemma OneDone(s: Sets, lister: PodLister, clock: Clock, seen: set<ResourceKey>, sets: Sets, k: ResourceKey, j: ResourceKey)
    requires SetSoFar(s, lister, clock, seen, sets, j) && k in s && k !in seen
    ensures var done := Done(s, lister, clock, k);
      SetSoFar(s, lister, clock, seen + {k}, if done.Some? then sets[k := done.value] else sets - {k}, j)
  {
  }

  /** The keys of a known pod's containers stay in the batch. */
  lemma ContainersStay(s: Sets, lister: PodLister, clock: Clock, seen: set<ResourceKey>, sets: Sets, j: ResourceKey)
    requires SetSoFar(s, lister, clock, seen, sets, j) && PodAtKey(lister, j).Some?
    ensures j in sets <==> j in s
  {
  }

  /** The pod's own set is visited: its missing containers come in. */
  lemma PodNews(s: Sets, lister: PodLister, clock: Clock, seen: set<ResourceKey>, st: Enriching, k: ResourceKey, pod: Pod, j: ResourceKey)
    requires SetSoFar(s, lister, clock, seen, st.sets, j) && NewSoFar(s, lister, clock, seen, st.newMs, j)
    requires k.PodKey? && k in s && k !in seen && ListerOk(lister) && PodAtKey(lister, k) == Some(pod)
    ensures NewSoFar(s, lister, clock, seen + {k}, PodStubs(st.sets.Keys, st.newMs, PodInfo(s[k], pod), pod, clock), j)
  {
    var v := PodInfo(s[k], pod);
    if pod.phase == RUNNING {
      StubsOfPod(st.sets.Keys, st.newMs, v, pod, clock, j);
      StubsOfPod(st.sets.Keys, st.newMs, v, pod, clock, PodPart(j));
      if SpecOf(pod, j, 0).Some? {
        SpecOnlyOwn(pod, j, 0);
      }
    }
    if PodPart(j) == k {
      if j.PodContainerKey? {
        ContainersStay(s, lister, clock, seen, st.sets, j);
      }
    } else {
      OtherPod(s, lister, seen, k, j);
    }
  }

  lemma {:induction false} SpecOnlyOwn(pod: Pod, k: ResourceKey, j: nat)
    requires j <= |pod.containers| && SpecOf(pod, k, j).Some?
    ensures OfPod(pod, k)
    decreases |pod.containers| - j
  {
    SpecHasKey(pod, k, j);
  }

  /** Of the labels of a container, only its image, the pod's id and the copied labels change. */
  lemma LabelKept(k: ResourceKey, v: SetView, pod: Pod, clock: Clock, l: string)
    requires |l| != |CONTAINER_BASE_IMAGE| && |l| != |POD_ID|
    ensures var w := ContainerInfo(k, v, pod, clock);
      (l in w.labels <==> l in v.labels) && (l in w.labels ==> w.labels[l] == v.labels[l])
  {
  }

  lemma LabelsKept(k: ResourceKey, v: SetView, pod: Pod, clock: Clock)
    ensures var w := ContainerInfo(k, v, pod, clock);
      && PodKeyOf(w) == PodKeyOf(v) && PodStub(w.labels, pod) == PodStub(v.labels, pod) && TypeOf(w) == TypeOf(v)
      && (NAMESPACE_NAME in w.labels <==> NAMESPACE_NAME in v.labels) && (POD_NAME in w.labels <==> POD_NAME in v.labels)
  {
    var w := ContainerInfo(k, v, pod, clock);
    LabelKept(k, v, pod, clock, NAMESPACE_NAME);
    LabelKept(k, v, pod, clock, POD_NAME);
    LabelKept(k, v, pod, clock, NODENAME);
    LabelKept(k, v, pod, clock, HOSTNAME);
    LabelKept(k, v, pod, clock, HOST_ID);
    LabelKept(k, v, pod, clock, TYPE);
    SameStubLabels(w.labels, v.labels, pod);
  }

  lemma SameStubLabels(labels: map<string, string>, labels1: map<string, string>, pod: Pod)
    requires Get(labels, NAMESPACE_NAME) == Get(labels1, NAMESPACE_NAME) && Get(labels, POD_NAME) == Get(labels1, POD_NAME)
    requires NodeLabels(labels) == NodeLabels(labels1)
    ensures PodStub(labels, pod) == PodStub(labels1, pod)
  {
  }

  /** Two containers make the same set for their pod if and only if they come from one node. */
  lemma SameStub(s: Sets, pk: ResourceKey, pod: Pod, j: ResourceKey, k: ResourceKey)
    requires LabelsAgree(s) && Reports(s, s.Keys, pk, j) && Reports(s, s.Keys, pk, k)
    ensures PodFrom(s[j], pod) == PodFrom(s[k], pod) <==> NodeLabels(s[j].labels) == NodeLabels(s[k].labels)
  {
    assert LabelledAs(s[j], PodPart(j)) && LabelledAs(s[k], PodPart(k));
    NodeLabelsCarried(s[j], pod);
    NodeLabelsCarried(s[k], pod);
    if NodeLabels(s[j].labels) == NodeLabels(s[k].labels) {
      SameStubLabels(s[j].labels, s[k].labels, pod);
    }
  }

  /** The set of a pod tells the node of the container that it was made for. */
  lemma NodeLabelsCarried(v: SetView, pod: Pod)
    ensures NodeLabels(PodFrom(v, pod).labels) == NodeLabels(v.labels)
  {
    var w := PodStub(v.labels, pod);
    assert NodeLabels(w.labels) == NodeLabels(v.labels);
    assert |NODENAME| != |LABELS| && |NODENAME| != |POD_ID| && |HOSTNAME| != |LABELS| && |HOSTNAME| != |POD_ID|;
    assert |HOST_ID| != |LABELS| && |HOST_ID| != |POD_ID|;
  }

  /** A container of a pod that has been dealt with is visited. */
  lemma ContainerNoNews(s: Sets, lister: PodLister, clock: Clock, seen: set<ResourceKey>, newMs: Sets, k: ResourceKey, j: ResourceKey)
    requires NewSoFar(s, lister, clock, seen, newMs, j) && k.PodContainerKey? && k in s
    requires PodPart(k) in s || Reported(s, seen, PodPart(k))
    ensures NewSoFar(s, lister, clock, seen + {k}, newMs, j)
  {
    if PodPart(j) == PodPart(k) {
      assert forall i :: Reports(s, seen, PodPart(j), i) ==> Reports(s, seen + {k}, PodPart(j), i);
    } else {
      OtherPod(s, lister, seen, k, j);
    }
  }

  /** The first container of a pod that has no set is visited: the pod and its other containers come in. */
  lemma ContainerNews(s: Sets, lister: PodLister, clock: Clock, seen: set<ResourceKey>, sets: Sets, newMs: Sets,
                      k: ResourceKey, pod: Pod, podMs: SetView, j: ResourceKey)
    requires SetSoFar(s, lister, clock, seen + {k}, sets, j) && NewSoFar(s, lister, clock, seen, newMs, j)
    requires k.PodContainerKey? && k in s && k !in seen && ListerOk(lister) && PodAtKey(lister, k) == Some(pod)
    requires PodPart(k) !in s && !Reported(s, seen, PodPart(k)) && podMs == PodFrom(s[k], pod)
    ensures NewSoFar(s, lister, clock, seen + {k}, PodStubs(sets.Keys, newMs[PodPart(k) := podMs], podMs, pod, clock), j)
  {
    var pk := PodPart(k);
    if pod.phase == RUNNING {
      StubsOfPod(sets.Keys, newMs[pk := podMs], podMs, pod, clock, j);
      StubsOfPod(sets.Keys, newMs[pk := podMs], podMs, pod, clock, PodPart(j));
      if SpecOf(pod, j, 0).Some? {
        SpecOnlyOwn(pod, j, 0);
      }
    }
    if PodPart(j) == pk {
      assert Reports(s, seen + {k}, pk, k);
      if j.PodContainerKey? {
        ContainersStay(s, lister, clock, seen + {k}, sets, j);
      }
    } else {
      OtherPod(s, lister, seen, k, j);
    }
  }

  /** One visit keeps the account. */
  lemma VisitKeeps(s: Sets, lister: PodLister, clock: Clock, seen: set<ResourceKey>, st: Enriching, k: ResourceKey)
    requires LabelsAgree(s) && ListerOk(lister) && k in s && k !in seen
    requires SoFar(s, lister, clock, seen, st)
    ensures SoFar(s, lister, clock, seen + {k}, Enrich(lister, clock, st, k))
  {
    assert SetSoFar(s, lister, clock, seen, st.sets, k);
    assert KeyAgrees(k, s[k]);
    if !k.PodKey? && !k.PodContainerKey? {
      UnknownVisited(s, lister, clock, seen, st, k, st.sets[k := s[k]]);
      assert st.sets[k := s[k]] == st.sets;
    } else {
      PodForKey(s, lister, k);
      if PodAtKey(lister, k) == None {
        UnknownVisited(s, lister, clock, seen, st, k, st.sets - {k});
      } else if k.PodKey? {
        PodVisited(s, lister, clock, seen, st, k, PodAtKey(lister, k).value);
      } else {
        ContainerVisited(s, lister, clock, seen, st, k, PodAtKey(lister, k).value);
      }
    }
  }

  lemma AllDone(s: Sets, lister: PodLister, clock: Clock, seen: set<ResourceKey>, st: Enriching, k: ResourceKey, sets: Sets)
    requires SoFar(s, lister, clock, seen, st) && k in s && k !in seen
    requires var done := Done(s, lister, clock, k); sets == if done.Some? then st.sets[k := done.value] else st.sets - {k}
    ensures forall j :: SetSoFar(s, lister, clock, seen + {k}, sets, j)
  {
    forall j ensures SetSoFar(s, lister, clock, seen + {k}, sets, j) {
      assert SetSoFar(s, lister, clock, seen, st.sets, j);
      OneDone(s, lister, clock, seen, st.sets, k, j);
    }
  }

  lemma UnknownVisited(s: Sets, lister: PodLister, clock: Clock, seen: set<ResourceKey>, st: Enriching, k: ResourceKey, sets: Sets)
    requires SoFar(s, lister, clock, seen, st) && k in s && k !in seen && PodAtKey(lister, k) == None
    requires var done := Done(s, lister, clock, k); sets == if done.Some? then st.sets[k := done.value] else st.sets - {k}
    ensures SoFar(s, lister, clock, seen + {k}, Enriching(sets, st.newMs))
  {
    AllDone(s, lister, clock, seen, st, k, sets);
    forall j ensures NewSoFar(s, lister, clock, seen + {k}, st.newMs, j) {
      NothingNew(s, lister, clock, seen, st.newMs, k, j);
    }
  }

  lemma PodVisited(s: Sets, lister: PodLister, clock: Clock, seen: set<ResourceKey>, st: Enriching, k: ResourceKey, pod: Pod)
    requires SoFar(s, lister, clock, seen, st) && k in s && k !in seen && k.PodKey? && ListerOk(lister) && PodAtKey(lister, k) == Some(pod)
    requires k in st.sets
    ensures SoFar(s, lister, clock, seen + {k}, EnrichPod(clock, st, k, pod))
  {
    assert SetSoFar(s, lister, clock, seen, st.sets, k);
    var st1 := EnrichPod(clock, st, k, pod);
    AllDone(s, lister, clock, seen, st, k, st1.sets);
    forall j ensures NewSoFar(s, lister, clock, seen + {k}, st1.newMs, j) {
      assert SetSoFar(s, lister, clock, seen, st.sets, j) && NewSoFar(s, lister, clock, seen, st.newMs, j);
      PodNews(s, lister, clock, seen, st, k, pod, j);
    }
  }

  lemma ContainerVisited(s: Sets, lister: PodLister, clock: Clock, seen: set<ResourceKey>, st: Enriching, k: ResourceKey, pod: Pod)
    requires LabelsAgree(s) && ListerOk(lister) && k in s && k !in seen
    requires SoFar(s, lister, clock, seen, st) && k.PodContainerKey? && PodAtKey(lister, k) == Some(pod) && k in st.sets
    ensures SoFar(s, lister, clock, seen + {k}, EnrichContainer(clock, st, k, pod))
  {
    var pk, st1 := PodPart(k), EnrichContainer(clock, st, k, pod);
    assert SetSoFar(s, lister, clock, seen, st.sets, k) && SetSoFar(s, lister, clock, seen, st.sets, pk);
    assert NewSoFar(s, lister, clock, seen, st.newMs, pk);
    PodForKey(s, lister, k);
    LabelsKept(k, s[k], pod, clock);
    AllDone(s, lister, clock, seen, st, k, st1.sets);
    forall j ensures NewSoFar(s, lister, clock, seen + {k}, st1.newMs, j) {
      assert SetSoFar(s, lister, clock, seen + {k}, st1.sets, j) && NewSoFar(s, lister, clock, seen, st.newMs, j);
      if pk in s || Reported(s, seen, pk) {
        ContainerNoNews(s, lister, clock, seen, st.newMs, k, j);
      } else {
        ContainerNews(s, lister, clock, seen, st1.sets, st.newMs, k, pod, PodFrom(s[k], pod), j);
      }
    }
  }

  lemma {:induction false} RunKeeps(s: Sets, lister: PodLister, clock: Clock, order: seq<ResourceKey>, n: nat)
    requires LabelsAgree(s) && ListerOk(lister) && Ranges(s.Keys, order) && n <= |order|
    ensures SoFar(s, lister, clock, SeenIn(order, n), RunEnrich(lister, clock, s, order, n))
  {
    if n == 0 {
      NothingSeen(s, lister, clock);
    } else {
      RunKeeps(s, lister, clock, order, n - 1);
      SeenNext(order, n);
      VisitKeeps(s, lister, clock, SeenIn(order, n - 1), RunEnrich(lister, clock, s, order, n - 1), order[n - 1]);
    }
  }

  lemma NothingSeen(s: Sets, lister: PodLister, clock: Clock)
    ensures SoFar(s, lister, clock, {}, Enriching(s, map[]))
  {
  }

  /** The enriched batch, key by key, without mention of an order. */
  ghost predicate IsEnriched(s: Sets, lister: PodLister, clock: Clock, out: Sets) {
    forall k :: EnrichedAt(s, lister, clock, out, k)
  }

  ghost predicate EnrichedAt(s: Sets, lister: PodLister, clock: Clock, out: Sets, k: ResourceKey) {
    if k in s then
      match Done(s, lister, clock, k)
      case None => k !in out
      case Some(v) => k in out && out[k] == v
    else
      && (k in out <==> IsNewPod(s, lister, s.Keys, k) || IsNewContainer(s, lister, s.Keys, k))
      && (k in out ==> NewViewIs(s, lister, clock, out, k))
  }

  lemma RunEnriches(s: Sets, lister: PodLister, clock: Clock, order: seq<ResourceKey>)
    requires LabelsAgree(s) && ListerOk(lister) && Ranges(s.Keys, order)
    ensures IsEnriched(s, lister, clock, EnrichedIn(lister, clock, s, order))
  {
    RunKeeps(s, lister, clock, order, |order|);
    SeenAllKeys(s.Keys, order);
    var st := RunEnrich(lister, clock, s, order, |order|);
    forall k ensures EnrichedAt(s, lister, clock, st.sets + st.newMs, k) {
      assert SetSoFar(s, lister, clock, s.Keys, st.sets, k) && NewSoFar(s, lister, clock, s.Keys, st.newMs, k);
    }
  }

  /** Every visiting order gives the same enriched batch, if and only if it does not matter which container makes a pod. */
  lemma Confluent(s: Sets, lister: PodLister, clock: Clock)
    requires LabelsAgree(s) && ListerOk(lister)
    ensures OneNode(s, lister) <==> forall order, order1 :: Ranges(s.Keys, order) && Ranges(s.Keys, order1)
                                      ==> EnrichedIn(lister, clock, s, order) == EnrichedIn(lister, clock, s, order1)
  {
    if OneNode(s, lister) {
      forall order, order1 | Ranges(s.Keys, order) && Ranges(s.Keys, order1)
        ensures EnrichedIn(lister, clock, s, order) == EnrichedIn(lister, clock, s, order1)
      {
        RunEnriches(s, lister, clock, order);
        RunEnriches(s, lister, clock, order1);
        SameEnriched(s, lister, clock, EnrichedIn(lister, clock, s, order), EnrichedIn(lister, clock, s, order1));
      }
    } else {
      var pk, j, k :| Reports(s, s.Keys, pk, j) && Reports(s, s.Keys, pk, k) && pk !in s && PodAtKey(lister, pk).Some?
                      && NodeLabels(s[j].labels) != NodeLabels(s[k].labels);
      var order := StartingWith(s.Keys, j);
      var order1 := StartingWith(s.Keys, k);
      FirstMakesPod(s, lister, clock, order, pk);
      FirstMakesPod(s, lister, clock, order1, pk);
      SameStub(s, pk, PodAtKey(lister, pk).value, j, k);
    }
  }

  /** A pod that was not reported is made from the container that is visited first, and stays. */
  lemma FirstMakesPod(s: Sets, lister: PodLister, clock: Clock, order: seq<ResourceKey>, pk: ResourceKey)
    requires LabelsAgree(s) && ListerOk(lister) && Ranges(s.Keys, order) && order != []
    requires Reports(s, s.Keys, pk, order[0]) && pk !in s && PodAtKey(lister, pk).Some?
    ensures var out := EnrichedIn(lister, clock, s, order);
      pk in out && out[pk] == PodFrom(s[order[0]], PodAtKey(lister, pk).value)
  {
    MadeFromFirst(s, lister, clock, order, |order|, pk);
  }

  lemma {:induction false} MadeFromFirst(s: Sets, lister: PodLister, clock: Clock, order: seq<ResourceKey>, n: nat, pk: ResourceKey)
    requires LabelsAgree(s) && ListerOk(lister) && Ranges(s.Keys, order) && 0 < n <= |order|
    requires Reports(s, s.Keys, pk, order[0]) && pk !in s && PodAtKey(lister, pk).Some?
    ensures var newMs := RunEnrich(lister, clock, s, order, n).newMs;
      pk in newMs && newMs[pk] == PodFrom(s[order[0]], PodAtKey(lister, pk).value)
  {
    if n == 1 {
      assert RunEnrich(lister, clock, s, order, 0) == Enriching(s, map[]);
      FirstVisit(s, lister, clock, order[0]);
    } else {
      MadeFromFirst(s, lister, clock, order, n - 1, pk);
      NewPodStays(lister, clock, RunEnrich(lister, clock, s, order, n - 1), order[n - 1], pk);
    }
  }

  lemma FirstVisit(s: Sets, lister: PodLister, clock: Clock, k: ResourceKey)
    requires LabelsAgree(s) && k in s && k.PodContainerKey? && PodPart(k) !in s && PodAtKey(lister, k).Some?
    ensures var newMs := Enrich(lister, clock, Enriching(s, map[]), k).newMs;
      PodPart(k) in newMs && newMs[PodPart(k)] == PodFrom(s[k], PodAtKey(lister, k).value)
  {
    var pod := PodAtKey(lister, k).value;
    PodForKey(s, lister, k);
    LabelsKept(k, s[k], pod, clock);
    var st := Enriching(s, map[]);
    assert Enrich(lister, clock, st, k) == EnrichContainer(clock, st, k, pod);
    var podMs := PodFrom(s[k], pod);
    PodKept(s.Keys + {k}, map[PodPart(k) := podMs], podMs, pod, clock, PodPart(k));
    assert s[k := ContainerInfo(k, s[k], pod, clock)].Keys == s.Keys + {k};
  }

  lemma PodKept(reported: set<ResourceKey>, newMs: Sets, podMs: SetView, pod: Pod, clock: Clock, pk: ResourceKey)
    requires pk.PodKey? && pk in newMs
    ensures var r := PodStubs(reported, newMs, podMs, pod, clock);
      pk in r && r[pk] == newMs[pk]
  {
    if pod.phase == RUNNING {
      StubsOfPod(reported, newMs, podMs, pod, clock, pk);
    }
  }

  /** No visit changes a pod among the new sets. */
  lemma NewPodStays(lister: PodLister, clock: Clock, st: Enriching, k: ResourceKey, pk: ResourceKey)
    requires pk.PodKey? && pk in st.newMs
    ensures var newMs := Enrich(lister, clock, st, k).newMs;
      pk in newMs && newMs[pk] == st.newMs[pk]
  {
    if k in st.sets && PodFor(lister, st.sets[k]).Some? {
      var v, pod := st.sets[k], PodFor(lister, st.sets[k]).value;
      if TypeOf(v) == TYPE_POD {
        PodKept(st.sets.Keys, st.newMs, PodInfo(v, pod), pod, clock, pk);
      } else if TypeOf(v) == TYPE_POD_CONTAINER {
        var w := ContainerInfo(k, v, pod, clock);
        var sets, j := st.sets[k := w], PodKeyOf(w);
        if j !in sets && j !in st.newMs {
          PodKept(sets.Keys, st.newMs[j := PodFrom(w, pod)], PodFrom(w, pod), pod, clock, pk);
        }
      }
    }
  }

  lemma SameEnriched(s: Sets, lister: PodLister, clock: Clock, out: Sets, out1: Sets)
    requires LabelsAgree(s) && OneNode(s, lister) && IsEnriched(s, lister, clock, out) && IsEnriched(s, lister, clock, out1)
    ensures out == out1
  {
    forall k ensures (k in out <==> k in out1) && (k in out ==> out[k] == out1[k]) {
      assert EnrichedAt(s, lister, clock, out, k) && EnrichedAt(s, lister, clock, out1, k);
      var pk := PodPart(k);
      if pk !in s {
        assert EnrichedAt(s, lister, clock, out, pk) && EnrichedAt(s, lister, clock, out1, pk);
        if pk in out && pk.PodKey? {
          SamePod(s, lister, clock, out, out1, pk);
        }
      }
    }
    SameMap(out, out1);
  }

  lemma SamePod(s: Sets, lister: PodLister, clock: Clock, out: Sets, out1: Sets, pk: ResourceKey)
    requires LabelsAgree(s) && OneNode(s, lister) && pk.PodKey? && pk !in s && pk in out
    requires EnrichedAt(s, lister, clock, out, pk) && EnrichedAt(s, lister, clock, out1, pk)
    ensures pk in out1 && out[pk] == out1[pk]
  {
    var pod := PodAtKey(lister, pk).value;
    var j :| Reports(s, s.Keys, pk, j) && out[pk] == PodFrom(s[j], pod);
    var k :| Reports(s, s.Keys, pk, k) && out1[pk] == PodFrom(s[k], pod);
    SameStub(s, pk, pod, j, k);
  }
}
