/** What the pod-based enricher makes of a batch, plugins/processors/pod_based_enricher.go. */
module PodEnrichment {
  import opened Options
  import opened MapOrders
  import opened ResourceKeys
  import opened MetricSets
  import opened RollUps
  import opened RollUpSums
  import opened PodSums

  /** A resource quantity by its two readings, MilliValue and Value. */
  datatype Quantity = Quantity(milliValue: int, value: int)

  datatype Container = Container(name: string, image: string, requests: map<string, Quantity>, limits: map<string, Quantity>)

  datatype ContainerState = UnknownState | RunningState | WaitingState(reason: string) | TerminatedState(reason: string, exitCode: string, finishedAt: int)

  datatype ContainerStatus = ContainerStatus(name: string, restartCount: int, state: ContainerState, lastTerminationState: ContainerState)

  /** A pod as the lister gives it; labelText is what the label copier writes for its labels. */
  datatype Pod = Pod(
    namespace: string,
    name: string,
    uid: string,
    labelText: string,
    phase: string,
    startTime: Option<int>,
    containers: seq<Container>,
    statuses: seq<ContainerStatus>)

  /** The time of the batch and the time of the collection before it. */
  datatype Clock = Clock(now: int, interval: int)

  type PodLister = map<(string, string), Pod>

  const CPU := "cpu"
  const MEMORY := "memory"
  const EPHEMERAL_STORAGE := "ephemeral-storage"
  const CPU_REQUEST := "cpu/request"
  const MEMORY_REQUEST := "memory/request"
  const STORAGE_REQUEST := "ephemeral_storage/request"
  const CPU_LIMIT := "cpu/limit"
  const MEMORY_LIMIT := "memory/limit"
  const STORAGE_LIMIT := "ephemeral_storage/limit"
  const RESTART_COUNT := "restart_count"
  const CONTAINER_BASE_IMAGE := "container_base_image"
  const CONTAINER_NAME := "container_name"
  const LABELS := "labels"
  const NODENAME := "nodename"
  const POD_PHASE_RUNNING := 2

  // ---- Requests and limits --------------------------------------------------------------------------

  /** The metric of a requested resource: its name, with one exception, followed by "/request". */
  function RequestName(resource: string): string {
    (if resource == EPHEMERAL_STORAGE then "ephemeral_storage" else resource) + "/request"
  }

  /** CPU is read in thousandths. */
  function Reading(resource: string, q: Quantity): Value {
    IntValue(if resource == CPU then q.milliValue else q.value)
  }

  /** Kubernetes knows no resource of this name; it would share a metric with ephemeral-storage. */
  predicate RequestsOk(requests: map<string, Quantity>) {
    "ephemeral_storage" !in requests
  }

  lemma RequestNameInjective(requests: map<string, Quantity>, r: string, s: string)
    requires RequestsOk(requests) && r in requests && s in requests && RequestName(r) == RequestName(s)
    ensures r == s
  {
    var a := if r == EPHEMERAL_STORAGE then "ephemeral_storage" else r;
    var b := if s == EPHEMERAL_STORAGE then "ephemeral_storage" else s;
    assert |a| == |b|;
    assert a == (a + "/request")[..|a|] && b == (b + "/request")[..|a|];
  }

  ghost function ReadingOf(requests: map<string, Quantity>, name: string): Value
    requires exists r :: r in requests && RequestName(r) == name
  {
    var r :| r in requests && RequestName(r) == name;
    Reading(r, requests[r])
  }

  ghost function RequestValues(requests: map<string, Quantity>): Values {
    map name | name in (set r | r in requests :: RequestName(r)) :: ReadingOf(requests, name)
  }

  lemma RequestValue(requests: map<string, Quantity>, r: string)
    requires RequestsOk(requests) && r in requests
    ensures RequestName(r) in RequestValues(requests) && RequestValues(requests)[RequestName(r)] == Reading(r, requests[r])
    ensures RequestName(r) == if r == "ephemeral-storage" then "ephemeral_storage/request" else r + "/request"
    ensures var v := RequestValues(requests)[RequestName(r)];
      v.valueType == Int64 && v.intValue == if r == "cpu" then requests[r].milliValue else requests[r].value
  {
    forall s | s in requests && RequestName(s) == RequestName(r) ensures s == r {
      RequestNameInjective(requests, r, s);
    }
  }

  /** The named resources count as nothing where they are not requested. */
  function NotRequested(requests: map<string, Quantity>): Values {
    (if CPU in requests then map[] else map[CPU_REQUEST := IntValue(0)])
    + (if MEMORY in requests then map[] else map[MEMORY_REQUEST := IntValue(0)])
    + (if EPHEMERAL_STORAGE in requests then map[] else map[STORAGE_REQUEST := IntValue(0)])
  }

  function Limit(limits: map<string, Quantity>, resource: string): Value {
    if resource in limits then Reading(resource, limits[resource]) else IntValue(0)
  }

  function LimitValues(limits: map<string, Quantity>): Values {
    map[CPU_LIMIT := Limit(limits, CPU), MEMORY_LIMIT := Limit(limits, MEMORY), STORAGE_LIMIT := Limit(limits, EPHEMERAL_STORAGE)]
  }

  /** updateContainerResourcesAndLimits. */
  ghost function WithResources(values: Values, c: Container): Values {
    values + RequestValues(c.requests) + NotRequested(c.requests) + LimitValues(c.limits)
  }

  // ---- Statuses -----------------------------------------------------------------------------------------

  function StateTags(s: ContainerState): map<string, string> {
    match s
    case UnknownState => map[]
    case RunningState => map["status" := "running"]
    case WaitingState(reason) => map["status" := "waiting"] + Reason(reason, "0")
    case TerminatedState(reason, exitCode, _) => map["status" := "terminated"] + Reason(reason, exitCode)
  }

  function Reason(reason: string, exitCode: string): map<string, string> {
    if reason == "" then map[] else map["reason" := reason, "exit_code" := exitCode]
  }

  function StateNumber(s: ContainerState): int {
    match s
    case UnknownState => 0
    case RunningState => 1
    case WaitingState(_) => 2
    case TerminatedState(_, _, _) => 3
  }

  /** The last termination counts while it is younger than the last collection. */
  function FindContainerState(clock: Clock, s: ContainerStatus): ContainerState {
    if !s.lastTerminationState.TerminatedState? || clock.now - clock.interval > s.lastTerminationState.finishedAt
    then s.state
    else s.lastTerminationState
  }

  function StatusValue(clock: Clock, s: ContainerStatus): LabeledValue {
    var state := FindContainerState(clock, s);
    LabeledValue(CONTAINER_STATUS, StateTags(state), IntValue(StateNumber(state)))
  }

  function PhaseValue(pod: Pod): LabeledValue {
    LabeledValue(POD_PHASE, map["phase" := pod.phase], IntValue(POD_PHASE_RUNNING))
  }

  // ---- One set -------------------------------------------------------------------------------------------

  function Key(pod: Pod, name: string): ResourceKey { PodContainerKey(pod.namespace, pod.name, name) }

  /** The first container of the specification under this key. */
  function SpecOf(pod: Pod, k: ResourceKey, i: nat): Option<Container>
    requires i <= |pod.containers|
    decreases |pod.containers| - i
  {
    if i == |pod.containers| then None
    else if Key(pod, pod.containers[i].name) == k then Some(pod.containers[i])
    else SpecOf(pod, k, i + 1)
  }

  function StatusOf(pod: Pod, k: ResourceKey, i: nat): Option<ContainerStatus>
    requires i <= |pod.statuses|
    decreases |pod.statuses| - i
  {
    if i == |pod.statuses| then None
    else if Key(pod, pod.statuses[i].name) == k then Some(pod.statuses[i])
    else StatusOf(pod, k, i + 1)
  }

  ghost function WithSpec(v: SetView, spec: Option<Container>): SetView {
    match spec
    case None => v
    case Some(c) =>
      v.(values := WithResources(v.values, c),
         labels := if CONTAINER_BASE_IMAGE in v.labels then v.labels else v.labels[CONTAINER_BASE_IMAGE := c.image])
  }

  function WithStart(v: SetView, pod: Pod): SetView {
    if pod.startTime.Some? then v.(entityCreateTime := pod.startTime.value) else v
  }

  function WithStatus(v: SetView, pod: Pod, status: Option<ContainerStatus>, clock: Clock): SetView {
    match status
    case None => v
    case Some(s) =>
      WithStart(v, pod).(values := v.values[RESTART_COUNT := IntValue(s.restartCount)], labeledValues := v.labeledValues + [StatusValue(clock, s)])
  }

  function WithPodLabels(v: SetView, pod: Pod): SetView {
    v.(labels := v.labels[POD_ID := pod.uid][LABELS := pod.labelText])
  }

  /** addContainerInfo, as far as the container's own set goes. */
  ghost function ContainerInfo(k: ResourceKey, v: SetView, pod: Pod, clock: Clock): SetView {
    WithPodLabels(WithStatus(WithSpec(v, SpecOf(pod, k, 0)), pod, StatusOf(pod, k, 0), clock), pod)
  }

  /** addPodInfo, as far as the pod's own set goes. */
  function PodInfo(v: SetView, pod: Pod): SetView {
    if pod.phase != RUNNING then v
    else
      var w := WithPodLabels(WithStart(v, pod), pod);
      w.(labeledValues := w.labeledValues + [PhaseValue(pod)])
  }

  /** The labels that tell where a set comes from. */
  function NodeLabels(labels: map<string, string>): map<string, string> {
    map[NODENAME := Get(labels, NODENAME), HOSTNAME := Get(labels, HOSTNAME), HOST_ID := Get(labels, HOST_ID)]
  }

  /** The set made for a pod of which only containers were reported. */
  function PodStub(labels: map<string, string>, pod: Pod): SetView {
    WithStart(NewView(map[], map[TYPE := TYPE_POD, NAMESPACE_NAME := Get(labels, NAMESPACE_NAME), POD_NAME := Get(labels, POD_NAME)] + NodeLabels(labels)), pod)
  }

  /** The set made for a container that was not reported. */
  ghost function ContainerStub(podMs: SetView, pod: Pod, c: Container): SetView {
    var labels := map[TYPE := TYPE_POD_CONTAINER, NAMESPACE_NAME := pod.namespace, POD_NAME := pod.name,
                      CONTAINER_NAME := c.name, CONTAINER_BASE_IMAGE := c.image, POD_ID := pod.uid] + NodeLabels(podMs.labels);
    NewView(WithResources(map[], c), labels[LABELS := pod.labelText]).(entityCreateTime := podMs.collectionStartTime)
  }

  ghost function StubFor(podMs: SetView, pod: Pod): Container -> SetView {
    c => ContainerStub(podMs, pod, c)
  }

  // ---- The sets made beside the batch -----------------------------------------------------------------

  /** Stubs for the first n containers of the pod, those that neither the batch nor the new sets hold. */
  ghost function WithStubs(reported: set<ResourceKey>, newMs: Sets, stub: Container -> SetView, pod: Pod, n: nat): Sets
    requires n <= |pod.containers|
  {
    if n == 0 then newMs
    else
      var m, c := WithStubs(reported, newMs, stub, pod, n - 1), pod.containers[n - 1];
      var k := Key(pod, c.name);
      if k in reported || k in m then m else m[k := stub(c)]
  }

  function AddStatus(v: SetView, s: ContainerStatus, clock: Clock): SetView {
    v.(labeledValues := v.labeledValues + [StatusValue(clock, s)])
  }

  /** updateContainerStatus, for the first n statuses. */
  function WithStatuses(newMs: Sets, pod: Pod, clock: Clock, n: nat): Sets
    requires n <= |pod.statuses|
  {
    if n == 0 then newMs
    else
      var m, s := WithStatuses(newMs, pod, clock, n - 1), pod.statuses[n - 1];
      var k := Key(pod, s.name);
      if k in m then m[k := AddStatus(m[k], s, clock)] else m
  }

  /** addPodInfo, as far as the new sets go; podMs is the pod's set as that function leaves it. */
  ghost function PodStubs(reported: set<ResourceKey>, newMs: Sets, podMs: SetView, pod: Pod, clock: Clock): Sets {
    if pod.phase != RUNNING then newMs
    else WithStatuses(WithStubs(reported, newMs, StubFor(podMs, pod), pod, |pod.containers|), pod, clock, |pod.statuses|)
  }

  // ---- The batch -------------------------------------------------------------------------------------------

  datatype Enriching = Enriching(sets: Sets, newMs: Sets)

  function PodKeyOf(v: SetView): ResourceKey { PodKey(Get(v.labels, NAMESPACE_NAME), Get(v.labels, POD_NAME)) }

  function PodFor(lister: PodLister, v: SetView): Option<Pod> {
    var id := (Get(v.labels, NAMESPACE_NAME), Get(v.labels, POD_NAME));
    if id in lister then Some(lister[id]) else None
  }

  /** Visiting the set at k. */
  ghost function Enrich(lister: PodLister, clock: Clock, st: Enriching, k: ResourceKey): Enriching {
    if k !in st.sets then st
    else
      var v := st.sets[k];
      if TypeOf(v) == TYPE_POD then
        match PodFor(lister, v)
        case None => st.(sets := st.sets - {k})
        case Some(pod) => EnrichPod(clock, st, k, pod)
      else if TypeOf(v) == TYPE_POD_CONTAINER then
        match PodFor(lister, v)
        case None => st.(sets := st.sets - {k})
        case Some(pod) => EnrichContainer(clock, st, k, pod)
      else st
  }

  ghost function EnrichPod(clock: Clock, st: Enriching, k: ResourceKey, pod: Pod): Enriching
    requires k in st.sets
  {
    var v := PodInfo(st.sets[k], pod);
    Enriching(st.sets[k := v], PodStubs(st.sets.Keys, st.newMs, v, pod, clock))
  }

  ghost function EnrichContainer(clock: Clock, st: Enriching, k: ResourceKey, pod: Pod): Enriching
    requires k in st.sets
  {
    var v := ContainerInfo(k, st.sets[k], pod, clock);
    var pk := PodKeyOf(v);
    var sets := st.sets[k := v];
    if pk in sets || pk in st.newMs then Enriching(sets, st.newMs)
    else
      var podMs := PodInfo(PodStub(v.labels, pod), pod);
      Enriching(sets, PodStubs(sets.Keys, st.newMs[pk := podMs], podMs, pod, clock))
  }

  ghost function RunEnrich(lister: PodLister, clock: Clock, s0: Sets, order: seq<ResourceKey>, n: nat): Enriching
    requires n <= |order|
  {
    if n == 0 then Enriching(s0, map[]) else Enrich(lister, clock, RunEnrich(lister, clock, s0, order, n - 1), order[n - 1])
  }

  /** The batch after visiting all keys of an order: the sets that are left, and the new ones. */
  ghost function EnrichedIn(lister: PodLister, clock: Clock, s0: Sets, order: seq<ResourceKey>): Sets {
    var st := RunEnrich(lister, clock, s0, order, |order|);
    st.sets + st.newMs
  }
}
