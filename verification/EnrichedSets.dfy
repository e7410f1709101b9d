/** What stands in each set of an enriched batch, and which of its pods are summed. */
module EnrichedSets {
  import opened Options
  import opened ResourceKeys
  import opened MetricSets
  import opened RollUps
  import opened RollUpSums
  import opened PodEnrichment
  import opened EnrichmentConfluence
  import opened EnrichmentResults
  import opened ClusterSums

  function LabelOr(labels: map<string, string>, name: string): string {
    if name in labels then labels[name] else ""
  }

  // ---- Pods ---------------------------------------------------------------------------------------------

  /** A running pod gains its id, its labels, its start time and one phase value; another pod gains nothing. */
  ghost predicate PodShown(v: SetView, pod: Pod, w: SetView) {
    if pod.phase == "Running" then
      && w.values == v.values && w.labels == v.labels["pod_id" := pod.uid]["labels" := pod.labelText]
      && w.labeledValues == v.labeledValues + [LabeledValue("status/phase", map["phase" := "Running"], Value(Int64, 2, 0.0))]
      && w.entityCreateTime == (if pod.startTime.Some? then pod.startTime.value else v.entityCreateTime)
      && w.collectionStartTime == v.collectionStartTime && w.scrapeTime == v.scrapeTime
    else w == v
  }

  lemma ReportedPod(s: Sets, lister: PodLister, clock: Clock, out: Sets, pk: ResourceKey, pod: Pod)
    requires IsEnriched(s, lister, clock, out) && pk in s && pk.PodKey? && PodAtKey(lister, pk) == Some(pod)
    ensures pk in out && PodShown(s[pk], pod, out[pk])
  {
    assert EnrichedAt(s, lister, clock, out, pk);
  }

  /** The set of a pod as one of its containers has it made: where it is, and when the pod was started. */
  ghost predicate StartsAs(v: SetView, container: map<string, string>, pod: Pod) {
    && v.values == map[] && v.labeledValues == [] && v.collectionStartTime == 0 && v.scrapeTime == 0
    && v.entityCreateTime == (if pod.startTime.Some? then pod.startTime.value else 0)
    && v.labels == map["type" := "pod", "namespace_name" := pod.namespace, "pod_name" := pod.name] + Whereabouts(container)
  }

  /** The labels that tell where a set comes from. */
  function Whereabouts(labels: map<string, string>): map<string, string> {
    map["nodename" := LabelOr(labels, "nodename"), "hostname" := LabelOr(labels, "hostname"), "host_id" := LabelOr(labels, "host_id")]
  }

  lemma StubStarts(v: SetView, pod: Pod)
    requires LabelOr(v.labels, "namespace_name") == pod.namespace && LabelOr(v.labels, "pod_name") == pod.name
    ensures StartsAs(PodStub(v.labels, pod), v.labels, pod)
  {
    assert NodeLabels(v.labels) == Whereabouts(v.labels);
  }

  /** A pod that was not reported is there exactly if it is known and a container of it was reported. */
  lemma NewPod(s: Sets, lister: PodLister, clock: Clock, out: Sets, pk: ResourceKey, pod: Pod)
    requires LabelsAgree(s) && ListerOk(lister) && IsEnriched(s, lister, clock, out)
    requires pk !in s && pk.PodKey? && PodAtKey(lister, pk) == Some(pod)
    ensures pk in out <==> Reported(s, s.Keys, pk)
    ensures pk in out ==> exists j, v :: Reports(s, s.Keys, pk, j) && StartsAs(v, s[j].labels, pod) && PodShown(v, pod, out[pk])
  {
    assert EnrichedAt(s, lister, clock, out, pk);
    if pk in out {
      var j :| Reports(s, s.Keys, pk, j) && out[pk] == PodFrom(s[j], pod);
      assert LabelledAs(s[j], pk);
      StubStarts(s[j], pod);
      assert PodShown(PodStub(s[j].labels, pod), pod, out[pk]);
    }
  }

  // ---- Which pods are summed --------------------------------------------------------------------------

  /** The set comes with a phase of its own. */
  ghost predicate HasPhase(v: SetView) {
    "status/phase" in v.values || exists i :: 0 <= i < |v.labeledValues| && v.labeledValues[i].name == "status/phase"
  }

  lemma {:induction false} FirstExists(values: seq<LabeledValue>, metric: string, i: nat)
    requires i < |values| && values[i].name == metric
    ensures exists k :: k <= i && FirstOf(values, metric, k)
  {
    var k := FirstIndex(values, metric, 0);
    assert k <= i;
  }

  lemma PhaseAdded(v: SetView, pod: Pod, w: SetView)
    requires pod.phase == "Running" && PodShown(v, pod, w) && !HasPhase(v)
    ensures Shows(w, "status/phase", "phase", "Running") <==> "phase" in v.labels ==> v.labels["phase"] == "Running"
  {
    var last := |v.labeledValues|;
    assert w.labeledValues[last].name == "status/phase";
    assert forall i :: 0 <= i < last ==> w.labeledValues[i] == v.labeledValues[i];
    assert FirstOf(w.labeledValues, "status/phase", last);
    assert forall i :: FirstOf(w.labeledValues, "status/phase", i) ==> i == last;
    OtherLabels(v.labels, pod.uid, pod.labelText, "phase");
  }

  lemma OtherLabels(labels: map<string, string>, uid: string, text: string, name: string)
    requires |name| == 4 || |name| == 5 || name == "namespace_name" || name == "pod_name"
    ensures var more := labels["pod_id" := uid]["labels" := text];
      (name in more <==> name in labels) && (name in labels ==> more[name] == labels[name])
  {
    assert |"pod_id"| == 6 && |"labels"| == 6;
  }

  lemma PhaseKept(v: SetView, pod: Pod, w: SetView)
    requires pod.phase == "Running" && PodShown(v, pod, w) && HasPhase(v)
    ensures Shows(w, "status/phase", "phase", "Running") <==> Shows(v, "status/phase", "phase", "Running")
  {
    OtherLabels(v.labels, pod.uid, pod.labelText, "phase");
    if "status/phase" !in v.values {
      var k := FirstIndex(v.labeledValues, "status/phase", 0);
      assert FirstOf(v.labeledValues, "status/phase", k);
      assert forall i :: 0 <= i < |v.labeledValues| ==> w.labeledValues[i] == v.labeledValues[i];
      assert FirstOf(w.labeledValues, "status/phase", k);
      assert forall i :: FirstOf(w.labeledValues, "status/phase", i) ==> i == k;
    }
  }

  /**
   * A pod that was reported with a phase runs as far as the sums go if it did so before. One that was
   * reported without runs once enriched exactly if the lister has it running, unless a label "phase" of
   * the set itself says otherwise: pods that are pending or have failed are not summed.
   */
  lemma EnrichedPodRuns(s: Sets, lister: PodLister, clock: Clock, out: Sets, pk: ResourceKey, pod: Pod)
    requires LabelsAgree(s) && IsEnriched(s, lister, clock, out) && pk in s && pk.PodKey? && PodAtKey(lister, pk) == Some(pod)
    ensures pk in out
    ensures Placed(out[pk]) <==>
      if HasPhase(s[pk]) then RunningPod(s[pk])
      else pod.phase == "Running" && ("phase" in s[pk].labels ==> s[pk].labels["phase"] == "Running")
  {
    var v := s[pk];
    ReportedPod(s, lister, clock, out, pk, pod);
    assert KeyAgrees(pk, v) && LabelledAs(v, pk);
    OtherLabels(v.labels, pod.uid, pod.labelText, "type");
    OtherLabels(v.labels, pod.uid, pod.labelText, "namespace_name");
    if pod.phase != "Running" {
      if !HasPhase(v) {
        NoPhaseShown(v);
      }
    } else if HasPhase(v) {
      PhaseKept(v, pod, out[pk]);
    } else {
      PhaseAdded(v, pod, out[pk]);
    }
  }

  lemma NoPhaseShown(v: SetView)
    requires !HasPhase(v)
    ensures !RunningPod(v)
  {
  }

  /** A pod that the enricher makes is summed exactly if the lister has it running. */
  lemma NewPodRuns(s: Sets, lister: PodLister, clock: Clock, out: Sets, pk: ResourceKey, pod: Pod)
    requires LabelsAgree(s) && ListerOk(lister) && IsEnriched(s, lister, clock, out)
    requires pk !in s && pk in out && pk.PodKey? && PodAtKey(lister, pk) == Some(pod)
    ensures Placed(out[pk]) <==> pod.phase == "Running"
  {
    NewPod(s, lister, clock, out, pk, pod);
    var j, v :| Reports(s, s.Keys, pk, j) && StartsAs(v, s[j].labels, pod) && PodShown(v, pod, out[pk]);
    NoPhaseLabel(v, s[j].labels, pod);
    assert !HasPhase(v);
    OtherLabels(v.labels, pod.uid, pod.labelText, "type");
    OtherLabels(v.labels, pod.uid, pod.labelText, "namespace_name");
    if pod.phase == "Running" {
      PhaseAdded(v, pod, out[pk]);
    }
  }

  lemma NoPhaseLabel(v: SetView, container: map<string, string>, pod: Pod)
    requires StartsAs(v, container, pod)
    ensures "phase" !in v.labels
  {
    assert |"type"| != 5 && |"namespace_name"| != 5 && |"pod_name"| != 5 && |"nodename"| != 5 && |"hostname"| != 5 && |"host_id"| != 5;
  }

  // ---- Containers -----------------------------------------------------------------------------------------

  /** The first container of the specification with a name, or -1. */
  ghost predicate SpecAt(pod: Pod, name: string, i: int) {
    && -1 <= i < |pod.containers| && (i >= 0 ==> pod.containers[i].name == name)
    && forall h :: 0 <= h < (if i >= 0 then i else |pod.containers|) ==> pod.containers[h].name != name
  }

  /** The first status with a name, or -1. */
  ghost predicate StatusAt(pod: Pod, name: string, i: int) {
    && -1 <= i < |pod.statuses| && (i >= 0 ==> pod.statuses[i].name == name)
    && forall h :: 0 <= h < (if i >= 0 then i else |pod.statuses|) ==> pod.statuses[h].name != name
  }

  lemma {:induction false} SpecOfIs(pod: Pod, k: ResourceKey, i: int, n: nat)
    requires OfPod(pod, k) && SpecAt(pod, k.containerName, i) && n <= |pod.containers| && (i >= 0 ==> n <= i)
    ensures SpecOf(pod, k, n) == if i >= 0 then Some(pod.containers[i]) else None
    decreases |pod.containers| - n
  {
    if n < |pod.containers| && n != i {
      SpecOfIs(pod, k, i, n + 1);
    }
  }

  lemma {:induction false} StatusOfIs(pod: Pod, k: ResourceKey, i: int, n: nat)
    requires OfPod(pod, k) && StatusAt(pod, k.containerName, i) && n <= |pod.statuses| && (i >= 0 ==> n <= i)
    ensures StatusOf(pod, k, n) == if i >= 0 then Some(pod.statuses[i]) else None
    decreases |pod.statuses| - n
  {
    if n < |pod.statuses| && n != i {
      StatusOfIs(pod, k, i, n + 1);
    }
  }

  /** The labels that a container was reported with, its image if that was not among them, and its pod's id and labels. */
  ghost predicate ContainerLabelled(v: SetView, pod: Pod, i: int, w: SetView)
    requires i < |pod.containers|
  {
    var labels := if i >= 0 && "container_base_image" !in v.labels then v.labels["container_base_image" := pod.containers[i].image] else v.labels;
    w.labels == labels["pod_id" := pod.uid]["labels" := pod.labelText]
  }

  /** With a status come its number of restarts, the start time of the pod, and one value for its state. */
  ghost predicate StatusAdded(v: SetView, pod: Pod, clock: Clock, j: int, w: SetView)
    requires j < |pod.statuses|
  {
    if j == -1 then w.labeledValues == v.labeledValues && w.entityCreateTime == v.entityCreateTime
    else
      && j >= 0 && "restart_count" in w.values && w.values["restart_count"] == Value(Int64, pod.statuses[j].restartCount, 0.0)
      && w.entityCreateTime == (if pod.startTime.Some? then pod.startTime.value else v.entityCreateTime)
      && |w.labeledValues| == |v.labeledValues| + 1 && v.labeledValues <= w.labeledValues
      && ShowsState(w.labeledValues[|v.labeledValues|], Current(clock, pod.statuses[j]))
  }

  /** The values of the six metrics are as specified, the others are those reported but for requests of other resources. */
  ghost predicate ValuesAdded(v: SetView, pod: Pod, i: int, w: SetView)
    requires i < |pod.containers|
  {
    && (i >= 0 && RequestsOk(pod.containers[i].requests) ==>
          forall m :: m in RESOURCE_METRICS ==> m in w.values && w.values[m] == Value(Int64, SpecifiedAmount(pod.containers[i], m), 0.0))
    && forall m :: m != "restart_count" && (i >= 0 ==> m !in RESOURCE_METRICS && !RequestOf(pod.containers[i], m)) ==>
         (m in w.values <==> m in v.values) && (m in w.values ==> w.values[m] == v.values[m])
  }

  ghost predicate RequestOf(c: Container, m: string) {
    exists r :: r in c.requests && m == r + "/request"
  }

  /** A reported container of a known pod, whose first container and status of that name are at i and j. */
  lemma {:induction false} ReportedContainer(s: Sets, lister: PodLister, clock: Clock, out: Sets, k: ResourceKey, pod: Pod, i: int, j: int)
    requires IsEnriched(s, lister, clock, out) && ListerOk(lister) && k in s && k.PodContainerKey? && PodAtKey(lister, k) == Some(pod)
    requires SpecAt(pod, k.containerName, i) && StatusAt(pod, k.containerName, j)
    ensures k in out && out[k].collectionStartTime == s[k].collectionStartTime && out[k].scrapeTime == s[k].scrapeTime
    ensures ContainerLabelled(s[k], pod, i, out[k]) && StatusAdded(s[k], pod, clock, j, out[k]) && ValuesAdded(s[k], pod, i, out[k])
  {
    assert EnrichedAt(s, lister, clock, out, k);
    SpecOfIs(pod, k, i, 0);
    StatusOfIs(pod, k, j, 0);
    assert out[k] == ContainerInfo(k, s[k], pod, clock);
    InfoLabels(k, s[k], pod, clock, i, j);
    InfoStatus(k, s[k], pod, clock, i, j);
    InfoValues(k, s[k], pod, clock, i, j);
  }

  lemma InfoLabels(k: ResourceKey, v: SetView, pod: Pod, clock: Clock, i: int, j: int)
    requires i < |pod.containers| && SpecOf(pod, k, 0) == if i >= 0 then Some(pod.containers[i]) else None
    requires j < |pod.statuses| && StatusOf(pod, k, 0) == if j >= 0 then Some(pod.statuses[j]) else None
    ensures var w := ContainerInfo(k, v, pod, clock);
      ContainerLabelled(v, pod, i, w) && w.collectionStartTime == v.collectionStartTime && w.scrapeTime == v.scrapeTime
  {
  }

  lemma InfoStatus(k: ResourceKey, v: SetView, pod: Pod, clock: Clock, i: int, j: int)
    requires -1 <= j < |pod.statuses| && StatusOf(pod, k, 0) == if j >= 0 then Some(pod.statuses[j]) else None
    ensures StatusAdded(v, pod, clock, j, ContainerInfo(k, v, pod, clock))
  {
    if j >= 0 {
      StateIsShown(clock, pod.statuses[j]);
    }
  }

  lemma InfoValues(k: ResourceKey, v: SetView, pod: Pod, clock: Clock, i: int, j: int)
    requires i < |pod.containers| && SpecOf(pod, k, 0) == if i >= 0 then Some(pod.containers[i]) else None
    ensures ValuesAdded(v, pod, i, ContainerInfo(k, v, pod, clock))
  {
    var w := ContainerInfo(k, v, pod, clock);
    if i >= 0 && RequestsOk(pod.containers[i].requests) {
      forall m | m in RESOURCE_METRICS ensures m in w.values && w.values[m] == Value(Int64, SpecifiedAmount(pod.containers[i], m), 0.0) {
        ReportedAmount(v, pod, clock, m, k);
      }
    }
    forall m | m != "restart_count" && (i >= 0 ==> m !in RESOURCE_METRICS && !RequestOf(pod.containers[i], m))
      ensures (m in w.values <==> m in v.values) && (m in w.values ==> w.values[m] == v.values[m])
    {
      if i >= 0 {
        NoResource(v.values, pod.containers[i], m);
      }
    }
  }

  lemma NoResource(values: Values, c: Container, m: string)
    requires m !in RESOURCE_METRICS && !RequestOf(c, m)
    ensures m !in RequestValues(c.requests) && m !in NotRequested(c.requests) && m !in LimitValues(c.limits)
  {
    if m in RequestValues(c.requests) {
      var r :| r in c.requests && RequestName(r) == m;
      RequestNames();
    }
  }

  /** A container that was not reported: the labels of its pod and node, its specification, and its statuses. */
  ghost predicate ContainerStarts(w: SetView, pod: Pod, c: Container, podMs: SetView) {
    && w.labels == (map["type" := "pod_container", "namespace_name" := pod.namespace, "pod_name" := pod.name,
                        "container_name" := c.name, "container_base_image" := c.image, "pod_id" := pod.uid]
                    + Whereabouts(podMs.labels))["labels" := pod.labelText]
    && w.entityCreateTime == podMs.collectionStartTime && w.collectionStartTime == 0 && w.scrapeTime == 0
    && (RequestsOk(c.requests) ==>
          forall m :: m in RESOURCE_METRICS ==> m in w.values && w.values[m] == Value(Int64, SpecifiedAmount(c, m), 0.0))
    && forall m :: m in w.values ==> m in RESOURCE_METRICS || RequestOf(c, m)
  }

  /** It is made from the first container of its name, with the set of its pod as that comes out. */
  lemma {:induction false} NewContainer(s: Sets, lister: PodLister, clock: Clock, out: Sets, k: ResourceKey, pod: Pod, i: int)
    requires IsEnriched(s, lister, clock, out) && ListerOk(lister) && k !in s && k in out && k.PodContainerKey?
    requires PodAtKey(lister, k) == Some(pod) && SpecAt(pod, k.containerName, i)
    ensures pod.phase == "Running" && i >= 0 && PodPart(k) in out && ContainerStarts(out[k], pod, pod.containers[i], out[PodPart(k)])
  {
    assert EnrichedAt(s, lister, clock, out, k) && EnrichedAt(s, lister, clock, out, PodPart(k));
    SpecOfIs(pod, k, i, 0);
    StubShows(out[PodPart(k)], pod, pod.containers[i], clock);
  }

  lemma StubShows(podMs: SetView, pod: Pod, c: Container, clock: Clock)
    ensures ContainerStarts(FullStub(podMs, pod, c, clock), pod, c, podMs)
  {
    assert NodeLabels(podMs.labels) == Whereabouts(podMs.labels);
    var w := FullStub(podMs, pod, c, clock);
    if RequestsOk(c.requests) {
      forall m | m in RESOURCE_METRICS ensures m in w.values && w.values[m] == Value(Int64, SpecifiedAmount(c, m), 0.0) {
        ResourcesSpecified(map[], c, m);
      }
    }
    forall m | m in w.values ensures m in RESOURCE_METRICS || RequestOf(c, m) {
      if m !in RESOURCE_METRICS && !RequestOf(c, m) {
        NoResource(map[], c, m);
      }
    }
  }
}
