# Verified model of the collector's metric pipeline

Each flush of the Wavefront collector for Kubernetes combines the batches that its sources have scraped,
turns counters and histograms into rates, fills in the pods and containers that were not reported, rolls
sums up from container to pod, namespace and cluster, and cleans and prints the tags. Beside it, sources
are registered and dropped as endpoints are discovered, and a test proxy parses the lines that were sent.
This project models those parts in Dafny and proves what they promise. `dafny verify dfyconfig.toml` checks
everything.

How the model is laid out, and what it assumes:

* **Histograms** (`WeightedSums`, `Buckets`, `Smoothing`, `CentroidLists`, `Distributions`, `Frequencies`,
  `DistributionRates`, `DistributionRateCalculators`). Counts are `real`, bounds are `real` or +Inf.
  Distributions, tags maps and centroid slices are objects, so that sharing is part of what is proved. The
  flush compacts an array in place; it is proved against a function on values, and the claims over runs of
  flushes are about that function.
* **Enrichment and roll-up** (`ResourceKeys`, `MapOrders`, `MetricSets`, `RollUps`, `SumCountAggregators`,
  `RollUpSums`, `ClusterSums`, `PodSums`, `PodAggregators`, `PodEnrichment`, `EnrichmentConfluence`,
  `EnrichmentResults`, `EnrichedSets`, `PodBasedEnrichers`). Sets are objects in the map of a batch. Go ranges over maps in
  any order: each method picks keys arbitrarily, reports the order it took as a ghost result, and is proved
  equal to a function of that order; the lemmas then hold for all orders. A set that is inserted on the way
  may be visited or not. Keys agree with the type and name labels of their sets, as every source makes them,
  and no set stands under two keys. The pod lister is a fixed map.
* **Registries** (`SourceManagers`, `Discovery`, `Discoverers`). Every public operation is an atomic step;
  quit channels are objects that must not be closed twice. Whether a provider builds, and under which name,
  is a fixed property of the configuration. A provider that is deleted names its sources anew, whatever they
  are by then.
* **The metric grammar** (`Peg`, `MetricGrammar`, `MetricParser`, `ParseActions`, `Reading`, `MetricLines`,
  `TagLines`, `LineRoundTrip`, `ParseMetrics`, `HistogramLines`, `AcceptedLines`). The grammar in the comments
  of the generated parser is a value with a meaning, and each rule closure is a method that changes a position
  and a token list. Lines are sequences of runes, with the end symbol appended.
* **Rates** (`Rates`, `RateCalculators`). Times are integers of nanoseconds that are passed in. Between two
  flushes the cached sets are assumed to keep their times and their cumulative values.
* **Tags, chunks and labels** (`StringOrder`, `TagCleaning`, `TagCleaners`, `MetricReaders`, `LabelTexts`).
  The two regular expressions are arbitrary predicates on names. A character of a string stands for one
  byte here, as Go counts and compares them.

What the proofs turned up about the code:

* `smoothCentroids` indexes before the first bucket if and only if there are several buckets, the first is
  +Inf, and it is not empty (`Smoothing.SmoothFails`). For sorted buckets that means that all are +Inf
  (`Distributions.FrequencyFails`), as with the two of `Distributions.TwoInfiniteBuckets`.
* The enriched batch is the same for every visiting order if and only if, for each known pod without a set of
  its own, the reported containers come from one node: the first one visited gives the pod its node labels
  (`EnrichmentConfluence.Confluent`).
* The count of containers looks for terminated ones in a label `state`; the enricher writes the state to
  `status`, so whether a container counts does not depend on its state (`EnrichmentResults.ContainersCount`,
  `StubsCount`, and a terminated one in `TerminatedContainersCount`).
* The cluster's pod count is one too high for every namespace that has containers but no running pod
  (`ClusterSums.RollUpConserves`; `ClusterSums.PodlessExample` has one container and a count of one pod), and its
  count of containers for every namespace that has running pods but no containers
  (`ClusterSums.RollUpCountsContainers`).
* The pod aggregator joins pod key and metric name without a separator. Pods keep their own values in every
  order if and only if, wherever two such texts are equal, what would be added is zero or of another type
  (`PodSums.PodsKeepTheirOwn`); `PodSums.ClashExample` turns a five into a six. What a pod lacks is summed
  whatever texts are equal, except for containers that give the metric another type
  (`PodSums.PodsSumInAnyOrder`).
* Removing tags for a request of none still removes one, so a metric can end one tag below the capacity
  (`TagCleaners.TagCleaner.CleanTags`). Deduplication leaves one name for each long value in every order if and
  only if an empty name shares no long value (`TagCleaning.OneNameInAnyOrder`), and the same tags in every
  order if and only if, besides, each shared long value has a name that is neither alpha nor beta
  (`TagCleaning.OrderDoesNotMatter`).
* A metric line without a timestamp whose first tag name starts with ten digits does not parse
  (`ParseMetrics.RoundTrip`, `ParseMetrics.AmbiguousExample`).
* Deleting a resource unregisters the providers of any other resource that shares an endpoint name, and
  leaves behind a provider whose configuration has another name than its endpoint (`Discovery.DeleteKeeps`
  says exactly when; `Discovery.SharedNameExample`).
* A provider is asked for its sources again when it is deleted; those that it does not name then are not
  cleaned up (`SourceManagers.CleanedAsRegistered`, `SourceManagers.LeftBehind`).

## Model

| member | source | states |
|---|---|---|
| Buckets.AccumulateInvertsDerive | internal/wf/distribution.go:138-153 | running totals and differences across buckets undo each other, in both directions |
| Buckets.DeriveCentroids | internal/wf/distribution.go:138-153 | the differenced buckets are a new slice; the argument is left alone |
| Buckets.CentroidRate | internal/wf/distribution.go:276-291 | a result exactly when the samples have the same bounds, no count fell and time moved on; then the change per minute of each bucket |
| Buckets.RateTimesMinutes | internal/wf/distribution.go:285-288 | rate times elapsed minutes is the change of the count, a minute being 60000000000 nanoseconds, and bounds stay |
| Buckets.DeriveCommutesWithRate | internal/wf/distribution.go:138-153 | differencing across buckets commutes with taking the rate over time |
| Smoothing.SmallestCountAboveZero | internal/wf/distribution.go:128-136 | the least positive count, attained by a bucket, or the largest number when there is none |
| Smoothing.AmplificationRaises | internal/wf/distribution.go:92 | the factor is the one number that raises the least positive count to one, or leaves it where it is one or more, or is one where no count is positive |
| Smoothing.PositiveBucketsNeedNoClamp | internal/wf/distribution.go:92-100 | after amplification every positive bucket holds at least one, so the clamp only acts on negative ones |
| Smoothing.SplitOfCount | internal/wf/distribution.go:108-115 | quarter, half and rest are natural numbers, sum to the truncated count, and the rest exceeds the quarter by at most two |
| Smoothing.CountsWeighSpread | internal/wf/distribution.go:93-116 | for every additive weight the map of counts weighs what the buckets put in, however deposits collide |
| Smoothing.SpreadSumOfMass | internal/wf/distribution.go:93-116 | the buckets put in the sum of the truncated, clamped, amplified counts |
| Smoothing.CountsAreNatural | internal/wf/distribution.go:108-115 | every entry is a non-negative integer |
| Smoothing.CountsAreFedByBuckets | internal/wf/distribution.go:97-115 | an entry exists exactly for the lower bound, midpoint and upper bound of counted buckets |
| Smoothing.SmoothFails | internal/wf/distribution.go:93-118 | for every input: the index before the first bucket is read if and only if there are several buckets and the first is +Inf and not empty; otherwise the counts come out |
| Smoothing.StrictBoundsAreSafe | internal/wf/distribution.go:97-107 | with strictly increasing bounds no index is out of range and every point used is finite |
| Smoothing.MomentBias | internal/wf/distribution.go:93-116 | the first moment is never below the midpoint estimate and at most one width per counted bucket above |
| CentroidLists.SortSorts | internal/wf/distribution.go:40-42 | sorting yields a sorted permutation |
| CentroidLists.SortByValue | internal/wf/distribution.go:39-42 | the constructor's argument is rearranged in place |
| CentroidLists.CentroidMapToSlice | internal/wf/distribution.go:120-126 | for any map order, a listing of the map's entries, each once |
| CentroidLists.SortedListingUnique | internal/wf/distribution.go:39-42 | two sorted listings of one map are equal, so the map order does not show |
| Distributions.Distribution.constructor | internal/wf/distribution.go:39-51 | the object keeps both references and the centroids are sorted |
| Distributions.Distribution.Clone | internal/wf/distribution.go:53-69 | same name, source, kind, tag entries and time, sorted centroids, and no object shared with anything |
| Distributions.Distribution.SameSeries | internal/wf/distribution.go:242-261 | two distributions have the same key exactly if kind, name, source and tag entries are equal |
| Distributions.Distribution.Rate | internal/wf/distribution.go:265-274 | a rate exactly for comparable samples of one series, under the same name and source; it shares the tags map but not the centroids |
| Distributions.Distribution.ToFrequency | internal/wf/distribution.go:75-86 | cumulative ones become a new sorted listing of the smoothed counts under the same name, source and tags, or fail exactly when a first bucket of several is +Inf and not empty; others are returned as they are |
| Distributions.SmoothCentroids | internal/wf/distribution.go:88-118 | a listing of the smoothed counts, or the failure of an index out of range |
| Distributions.FrequencyFails | internal/wf/distribution.go:75-107 | for sorted buckets it fails exactly when there are several, all +Inf, and the first is not empty |
| Distributions.TwoInfiniteBuckets | internal/wf/distribution.go:103-104 | two such buckets |
| Frequencies.FrequencyConservesMass | internal/wf/distribution.go:75-126 | unless it fails, the result is unique, strictly sorted, natural, and its total is the truncated sum of what the cumulative buckets hold once the least is raised to one |
| Frequencies.FrequenciesAre | internal/wf/distribution.go:75-126 | which bounds the result has and the count on each, said of the cumulative buckets alone: a quarter on the bound before, half between, the rest on the own bound, +Inf taken for the bound before |
| Frequencies.FrequencyBiasIsBounded | internal/wf/distribution.go:75-126 | all bounds are finite and the first moment is within one width per bucket that counts, upwards, of what it is with each bucket in its middle |
| DistributionRates.FlushEmitsOwed | plugins/processors/distribution_rate_calculator.go:29-52 | per series a flush emits the rate of the first sample against the cached one, once, and nothing for duplicates |
| DistributionRates.FlushCachesFirst | plugins/processors/distribution_rate_calculator.go:46-48 | afterwards the cache holds the first sample of each series in the batch, and what it held for the others |
| DistributionRates.OthersPassThrough | plugins/processors/distribution_rate_calculator.go:34-37 | metrics that are no distributions pass through in order |
| DistributionRates.EmitStep | plugins/processors/distribution_rate_calculator.go:38-49 | the cache entry that is read is the one from before the flush |
| DistributionRates.RatesTelescope | plugins/processors/distribution_rate_calculator.go:29-52 | over any run in which every sample yields a rate, rates times minutes add up per bucket to last minus first count |
| DistributionRateCalculators.DistributionRateCalculator.Observe | plugins/processors/distribution_rate_calculator.go:33-50 | the closure's result, cache and seen set, with nothing shared between the result and the cache |
| DistributionRateCalculators.DistributionRateCalculator.Process | plugins/processors/distribution_rate_calculator.go:29-66 | the array is compacted in place to the emitted metrics in order, unread elements are not overwritten, the rest is cleared |
| DistributionRateCalculators.DistributionRateCalculator.Tamper | plugins/processors/distribution_rate_calculator.go:46-49 | changing tags, source and centroids of whatever is separate from the cache leaves the cache and its keys as they are |
| ResourceKeys.TextInjective | internal/metrics/resource_key.go:33-63 | keys made of slash-free names have different texts |
| SumCountAggregators.Aggregate | plugins/processors/helper.go:26-51 | the group's values after adding the member's, or failure as soon as two types of a metric meet |
| SumCountAggregators.AggregateCount | plugins/processors/helper.go:56-73 | the member's own count, or one, is added to the group's |
| SumCountAggregators.VisitSet | plugins/processors/sum_count_aggregator.go:32-44 | one round of the loop changes just the member's group, which is made when missing |
| SumCountAggregators.ProcessSpec | plugins/processors/sum_count_aggregator.go:32-45 | for any order, with inserted sets visited or not, the batch is what that order's run makes of it |
| SumCountAggregators.SumCountAggregator.Process | plugins/processors/sum_count_aggregator.go:30-48 | the passes run one after another and a failing one ends the processing |
| RollUps.VisitKeepsKeys | plugins/processors/sum_count_aggregator.go:32-45 | keys stay in agreement with types, only group keys change, and visiting a group does nothing |
| RollUps.MembersAre | plugins/processors/sum_count_aggregator.go:51-72 | who is summed, said of labels and labelled values: running pods by their phase, containers that no state calls terminated, namespaces |
| RollUps.FoundShows | internal/metrics/set.go:21-35 | what label a metric is found with: that of the set, or else that of its first labelled value |
| RollUpSums.MergedJoins | plugins/processors/helper.go:26-73 | with one type per metric merging succeeds, adds each amount and the count, and touches nothing else |
| RollUpSums.PassConserves | plugins/processors/sum_count_aggregator.go:30-48 | a pass cannot fail on well-typed sets, and for every order each group holds its former amounts and count plus those of all members |
| ClusterSums.NamespacesConserve | plugins/processors/namespace_aggregator.go:26-66 | a namespace holds the sums and the count over its running pods, and a metric exactly if one of them has it |
| ClusterSums.ClusterSum | plugins/processors/cluster_aggregator.go:24-47 | the cluster holds the sum over all running pods with a namespace label |
| ClusterSums.ClusterCount | plugins/processors/helper.go:53-73 | the cluster's pod count is that of the pods plus one for each namespace without any |
| ClusterSums.PodlessAreUncounted | plugins/processors/namespace_aggregator.go:26-66 | the namespaces without a pod count are those that have containers but no running pod in the incoming batch |
| ClusterSums.RollUpConserves | cmd/wavefront-collector/main.go:344-349 | namespace and cluster roll-up together conserve every sum over the running pods that have a namespace label, for all orders of all four passes, and leave the other sets alone; the pod count is one too high for each namespace with containers but no running pod |
| ClusterSums.RollUpCountsContainers | cmd/wavefront-collector/main.go:344-349 | each namespace counts its containers, and the cluster all that have a namespace label, and one more for each namespace with running pods but no containers |
| ClusterSums.NamespacesAreLabelled | plugins/processors/namespace_aggregator.go:43-66 | a namespace set is labelled with type, own name, and the namespace id of one of its pods or containers |
| ClusterSums.ClusterIsLabelled | plugins/processors/cluster_aggregator.go:41-56 | the cluster set is labelled with its type alone |
| ClusterSums.RollUpSucceeds | plugins/processors/sum_count_aggregator.go:30-48 | a well-typed batch gets through all four passes |
| ClusterSums.PodlessExample | plugins/processors/helper.go:56-73 | a batch without a pod whose cluster counts one |
| PodAggregators.AddValues | plugins/processors/pod_aggregator.go:74-102 | the inner loop in any order: each metric of the container meets only the pod's value of its own name |
| PodAggregators.AddContainer | plugins/processors/pod_aggregator.go:50-103 | one container is added to its pod in the batch, to a new pod, or to one made now |
| PodAggregators.PodAggregator.Process | plugins/processors/pod_aggregator.go:45-108 | for any order the batch is what that order's run makes of it, new pods included |
| PodSums.PodsMade | plugins/processors/pod_aggregator.go:45-108 | for every order: pods are made when missing, gain just the metrics that they lack and their containers supply, and nothing else changes |
| PodSums.SuppliersAre | plugins/processors/pod_aggregator.go:50-77 | which set supplies a metric to a pod: a container labelled with its names that has the metric, unless it is one to skip |
| PodSums.NewPodsLabelled | plugins/processors/pod_aggregator.go:110-124 | for every order, a pod that comes in is labelled with six labels of one of its containers, and holds nothing but values besides |
| PodSums.LackedSums | plugins/processors/pod_aggregator.go:76-102 | for every order, whatever tags are equal: a metric that a pod lacks is there exactly if a container supplies it, and is the sum over those that have it with one type |
| PodSums.PodsSum | plugins/processors/pod_aggregator.go:76-102 | it is the sum over all containers of the pod, if these agree on its type |
| PodSums.PodsSumInAnyOrder | plugins/processors/pod_aggregator.go:85-100 | it is that sum in every order if and only if the amounts of each type that occurs make up the whole |
| PodSums.OwnValues | plugins/processors/pod_aggregator.go:79-100 | for every order, what has become of a value that a pod has: the amounts of its containers visited after an equal tag was left are added |
| PodSums.PodsKeepTheirOwn | plugins/processors/pod_aggregator.go:79-100 | pods keep their own values in every order if and only if, wherever tags are equal, the amounts are zero or of another type |
| PodSums.ClashChangesOwn | plugins/processors/pod_aggregator.go:81-92 | for any two equal tags an order of all sets in which a pod's own value has one container's amount added |
| PodSums.ClashExample | plugins/processors/pod_aggregator.go:81-84 | a batch with valid names, and an order in which a pod's own five becomes a six |
| PodEnrichment.RequestNameInjective | plugins/processors/pod_based_enricher.go:191-208 | resources have metrics of their own, unless one is called ephemeral_storage |
| PodEnrichment.RequestValue | plugins/processors/pod_based_enricher.go:191-214 | each request stands under the name of its resource, ephemeral-storage with an underscore; CPU in thousandths, all else in units |
| PodBasedEnrichers.UpdateResources | plugins/processors/pod_based_enricher.go:188-244 | requests in any order, zeros for what is not requested, and limits |
| PodBasedEnrichers.AddContainerFields | plugins/processors/pod_based_enricher.go:86-109 | the first matching container and status of the pod, its id and its labels are written into the container's set |
| PodBasedEnrichers.AddPodStubs | plugins/processors/pod_based_enricher.go:140-186 | stubs for the missing containers of a running pod, then the statuses of all new ones |
| PodBasedEnrichers.EnrichContainerSet | plugins/processors/pod_based_enricher.go:86-138 | the container's set is filled, and a missing pod is made with its other containers |
| PodBasedEnrichers.VisitSet | plugins/processors/pod_based_enricher.go:45-68 | one round of the loop, which deletes the set of an unknown pod |
| PodBasedEnrichers.PodBasedEnricher.Process | plugins/processors/pod_based_enricher.go:43-73 | for any order the batch is what that order's run makes of it, the new sets being put in at the end |
| EnrichmentConfluence.StubsOfPod | plugins/processors/pod_based_enricher.go:156-185 | which containers of a pod get stubs, and what is in them, key by key |
| EnrichmentConfluence.SameStub | plugins/processors/pod_based_enricher.go:120-135 | two containers make the same set for their pod if and only if they have the same node labels |
| EnrichmentConfluence.RunEnriches | plugins/processors/pod_based_enricher.go:43-73 | for every order, every key and value of the enriched batch; a new pod is made from one of its containers, and new containers from the set of their pod |
| EnrichmentConfluence.Confluent | plugins/processors/pod_based_enricher.go:43-73 | all orders give the same batch if and only if, for each known pod without a set, its reported containers have equal node labels |
| EnrichmentResults.PodsAreKnown | plugins/processors/pod_based_enricher.go:50-65 | no pod or container set of an unknown pod survives or is made |
| EnrichmentResults.ContainersHavePods | plugins/processors/pod_based_enricher.go:111-137 | the pod of every container is in the batch |
| EnrichmentResults.RunningPodsAreComplete | plugins/processors/pod_based_enricher.go:157-184 | a running pod has a set for each container of its specification |
| EnrichmentResults.PhaseOnce | plugins/processors/pod_based_enricher.go:153-154 | a running pod gains one phase value: Running, and the number 2 |
| EnrichmentResults.StatusOnce | plugins/processors/pod_based_enricher.go:97-106 | a container with a status gains one status value, reported or not: number and labels of its state, or of a last termination no older than the collection before |
| EnrichmentResults.ResourcesSpecified | plugins/processors/pod_based_enricher.go:188-244 | the six request and limit metrics are those of the specification: thousandths of a CPU, bytes of memory and storage, and zero where it says nothing |
| EnrichmentResults.EnrichedAgrees | plugins/processors/pod_based_enricher.go:120-181 | the labels of all sets still agree with their keys |
| EnrichmentResults.PodsHoldTheirResources | plugins/processors/pod_aggregator.go:45-108 | after enricher and pod aggregator, in any orders and whatever else is in the batch, a running pod's requests and limits are whole numbers, the sums of milli-CPU or bytes over its specification |
| EnrichmentResults.ContainersCount | plugins/processors/sum_count_aggregator.go:69-72 | exactly when a reported container counts after enrichment; its state has no part in it |
| EnrichmentResults.StubsCount | plugins/processors/pod_based_enricher.go:157-185 | a container that the enricher made always counts |
| EnrichmentResults.TerminatedContainersCount | plugins/processors/sum_count_aggregator.go:69-72 | a pod whose container has terminated, and which counts, reported or not, contrary to what the predicate is for |
| EnrichedSets.ReportedPod | plugins/processors/pod_based_enricher.go:140-155 | what stands in the set of a reported pod, running or not, field by field |
| EnrichedSets.NewPod | plugins/processors/pod_based_enricher.go:111-137 | a pod that was not reported is there exactly if a container of it was, and what stands in its set |
| EnrichedSets.ReportedContainer | plugins/processors/pod_based_enricher.go:86-109 | labels, times, restarts, state and values of a reported container, by the first container and the first status of its name |
| EnrichedSets.NewContainer | plugins/processors/pod_based_enricher.go:157-184 | labels, times and values of a container that was not reported; its pod runs and is in the batch |
| EnrichedSets.EnrichedPodRuns | plugins/processors/sum_count_aggregator.go:51-68 | a pod reported without a phase is summed, once enriched, exactly if it runs, unless its own label says otherwise; pending and failed ones are not, and a pod reported with a phase is as before |
| EnrichedSets.NewPodRuns | plugins/processors/sum_count_aggregator.go:51-68 | a pod that the enricher made is summed exactly if it runs |
| SourceManagers.SourceManager.AddProvider | plugins/sources/manager.go:148-197 | a provider of the same name is deleted first; then one more loop runs, with the given or the default interval |
| SourceManagers.SourceManager.DeleteProvider | plugins/sources/manager.go:199-224 | the provider is gone, its timer stopped, its channel closed, and the sources that it names then are cleaned up; an unknown name changes nothing |
| SourceManagers.SourceManager.StopProviders | plugins/sources/manager.go:226-230 | in any order, nothing is registered and no loop runs afterwards |
| SourceManagers.Unlink | plugins/sources/manager.go:209-217 | after a deletion the maps still match the running loops one to one |
| SourceManagers.Link | plugins/sources/manager.go:178-182 | and so they do after an addition |
| SourceManagers.EndCleans | plugins/sources/manager.go:219-221 | each source has been cleaned up once for each ended registration whose provider named it at the end, duplicates included |
| SourceManagers.CleanedAsRegistered | plugins/sources/manager.go:219-221 | an ended registration has had its first sources cleaned up if and only if its provider named the same ones again |
| SourceManagers.LeftBehind | plugins/sources/prometheus/prometheus.go:212-219 | a provider that names nothing when it is deleted leaves its source behind |
| SourceManagers.AllCleanedUp | plugins/sources/manager.go:226-230 | when nothing runs and each provider named its sources again, every registration ever made has had its sources cleaned up once |
| Discovery.BridgeHolds | internal/discovery/endpoint.go:41-74 | deleting an endpoint looks for the provider that adding it built, if and only if the configuration has the endpoint's name |
| Discovery.DeleteKeeps | plugins/discovery/discoverer.go:192-203 | deleting a resource keeps table and registry in agreement if and only if its names are its own and its providers are found under them |
| Discovery.DiscoverKeeps | plugins/discovery/discoverer.go:165-190 | exactly when discovering a resource anew keeps them in agreement |
| Discovery.DiscoverNodeKeeps | plugins/discovery/discoverer.go:246-258 | node discovery always keeps them in agreement |
| Discovery.DeleteAllKeeps | plugins/discovery/discoverer.go:153-163 | deleting all does so if and only if no endpoint bears the name of another provider and every provider built is found |
| Discovery.SharedNameExample | plugins/discovery/discoverer.go:192-203 | two resources that share an endpoint name, of which deleting one takes away the other's provider |
| Discovery.RunAgrees | plugins/discovery/discoverer.go:153-260 | after any steps the registered names are those of the table's endpoints that build, if resources do not share names and configurations have those of their endpoints |
| Discoverers.Discoverer.Add | internal/discovery/endpoint.go:41-56 | a provider is registered exactly if the plugin type is known and it builds, under the name of its factory and its own |
| Discoverers.Discoverer.DeleteEndpoint | internal/discovery/endpoint.go:58-74 | whatever is registered under the name of the factory and the endpoint's is unregistered |
| Discoverers.Discoverer.InternalDiscover | plugins/discovery/discoverer.go:165-190 | table and registered names after the step, with repeated names and unchanged lists |
| Discoverers.Discoverer.InternalDelete | plugins/discovery/discoverer.go:192-203 | table and registered names after the step |
| Discoverers.Discoverer.DiscoverNodeEndpoint | plugins/discovery/discoverer.go:223-260 | the endpoint, if there is one, is appended and added |
| Discoverers.Discoverer.DeleteEverything | plugins/discovery/discoverer.go:153-163 | for any order of the resources, table and registered names after the step |
| Peg.TokensNest | internal/testproxy/metrics/metric_grammar.peg.go:363-369 | the tokens of a match are in post-order, well nested, and within what was matched |
| Peg.StopsAtEnd | internal/testproxy/metrics/metric_grammar.peg.go:371-377 | no rule passes the end symbol |
| Peg.ConsumesInput | internal/testproxy/metrics/metric_grammar.peg.go:395-548 | what stands under a loop consumes input, so every loop ends |
| MetricGrammar.GrammarIsSound | internal/testproxy/metrics/metric_grammar.peg.go:397-1354 | the grammar meets the conditions for both |
| MetricParser.Parser.AddToken | internal/testproxy/metrics/metric_grammar.peg.go:165-172 | a token is put at its index, over what backtracking has left there, the list growing as needed |
| MetricParser.Parser.Backtrack | internal/testproxy/metrics/metric_grammar.peg.go:398-548 | going back restores the position and the tokens that were there |
| MetricParser.Parser.MetricNameRule | internal/testproxy/metrics/metric_grammar.peg.go:1046-1320 | matches as the grammar says, or fails and puts everything back |
| MetricParser.Parser.MetricValueRule | internal/testproxy/metrics/metric_grammar.peg.go:979-1044 | matches as the grammar says, or fails and puts everything back |
| MetricParser.Parser.TimestampRule | internal/testproxy/metrics/metric_grammar.peg.go:898-977 | matches as the grammar says, or fails and puts everything back |
| MetricParser.Parser.TagRule | internal/testproxy/metrics/metric_grammar.peg.go:622-892 | matches as the grammar says, or fails and puts everything back |
| MetricParser.Parser.TagsRule | internal/testproxy/metrics/metric_grammar.peg.go:590-620 | matches as the grammar says, or fails and puts everything back |
| MetricParser.Parser.HistogramValueRule | internal/testproxy/metrics/metric_grammar.peg.go:554-588 | matches as the grammar says, or fails and puts everything back |
| MetricParser.Parser.GrammarRule | internal/testproxy/metrics/metric_grammar.peg.go:398-548 | matches as the grammar says, or fails and puts everything back |
| MetricParser.Parser.Parse | internal/testproxy/metrics/metric_grammar.peg.go:349-362 | succeeds exactly if the grammar matches, and leaves exactly its tokens |
| ParseActions.Execute | internal/testproxy/metrics/metric_grammar.peg.go:281-308 | the actions run over the tokens in order, each on the text last seen; the histogram flag is up exactly if the action of the aggregation interval ran |
| ParseActions.AST | internal/testproxy/metrics/metric_grammar.peg.go:128-151 | one well-nested root whose post-order is the list of all non-empty tokens |
| ParseMetrics.ParseMetric | internal/testproxy/metrics/metric.go:10-26 | the result is the meaning of the line, and nothing else when it does not parse or is a histogram |
| ParseMetrics.SyntaxTree | internal/testproxy/metrics/metric_grammar.peg.go:128-151 | the tree of a line that parses has the grammar rule over the whole line as its root |
| ParseMetrics.GrammarTokens | internal/testproxy/metrics/metric_grammar.peg.go:349-362 | a successful parse covers the whole line and ends with the token of the grammar rule |
| LineRoundTrip.LineReads | internal/testproxy/metrics/metric_grammar.peg.go:468-548 | a printed line that is not ambiguous is read to its end |
| LineRoundTrip.AmbiguousLineFails | internal/testproxy/metrics/metric_grammar.peg.go:499-548 | an ambiguous one is not read |
| ParseMetrics.RoundTrip | internal/testproxy/metrics/metric.go:10-26 | a printed line gives back its name, value, timestamp and tags if and only if it is not ambiguous, and else fails |
| HistogramLines.HistogramsRecognised | internal/testproxy/metrics/metric.go:10-18 | for every line: it is taken for a histogram if and only if the rule for histogram lines matches it |
| HistogramLines.HistogramRoundTrip | internal/testproxy/metrics/metric_grammar.peg.go:398-467 | a printed histogram line, with or without timestamp, is taken for a histogram |
| AcceptedLines.LinesAccepted | internal/testproxy/metrics/metric_grammar.peg.go:397-1354 | for every line: it yields a metric if and only if it is the print of a metric line that is not ambiguous, and is taken for a histogram if and only if it is the print of a histogram line |
| AcceptedLines.PartsPrinted | internal/testproxy/metrics/metric_grammar.peg.go:468-548 | whatever the rule for metric lines has matched is a name, a number, maybe a timestamp of ten, thirteen or sixteen digits, and tags |
| AcceptedLines.HistogramPartsPrinted | internal/testproxy/metrics/metric_grammar.peg.go:398-467 | and what the rule for histogram lines has matched is an interval, maybe a timestamp, points, a name and tags |
| ParseMetrics.AmbiguousExample | internal/testproxy/metrics/metric_grammar.peg.go:499-548 | a line of the grammar that does not parse |
| ParseMetrics.TagMapHoldsTags | internal/testproxy/metrics/metric_grammar.peg.go:296-299 | the tags are those printed, the last of a name winning |
| Rates.GoDivClose | plugins/processors/rate_calculator.go:107-108 | integer division is towards zero and loses less than one divisor, for either sign |
| Rates.RatedHasCpuRate | plugins/processors/rate_calculator.go:101-113 | whatever the order of the metrics, the set gets the rate between the two CPU times, and these stay |
| Rates.RatesAre | plugins/processors/rate_calculator.go:46-127 | a set scraped later in the same collection gets, for each mapped metric of both sets, the change by the second, or for CPU time in millicores rounded towards zero; any other set is left as it is |
| Rates.RatesKeepOthers | plugins/processors/rate_calculator.go:65-127 | whatever is no target of the mapping stays as it is |
| Rates.DiskRatesMatchDevices | plugins/processors/rate_calculator.go:69-96 | every added value is the change by the second between an old and a new value of one disk metric and one resource_id |
| Rates.DiskRatesComplete | plugins/processors/rate_calculator.go:69-96 | every disk value whose device had an old one gets its rate, from the first of these |
| Rates.ScrapeTimesIncrease | plugins/processors/rate_calculator.go:46-63 | while a key stays cached its scrape time only moves strictly forward, and is the latest of all sets that came |
| Rates.CpuRatesAddUp | plugins/processors/rate_calculator.go:105-113 | over a stretch without restart the rates in the emitted sets, times their intervals, differ from the change in CPU time by less than the time passed |
| RateCalculators.AddDiskRates | plugins/processors/rate_calculator.go:69-100 | rates are appended for the values that were there when the loop began |
| RateCalculators.AddRates | plugins/processors/rate_calculator.go:68-127 | the mapping in any order |
| RateCalculators.RateCalculator.VisitSet | plugins/processors/rate_calculator.go:46-129 | one round of the loop: which set is cached, and whether it is rated |
| RateCalculators.RateCalculator.Prune | plugins/processors/rate_calculator.go:135-140 | just the keys that the batch lacks are forgotten |
| RateCalculators.RateCalculator.Process | plugins/processors/rate_calculator.go:42-145 | each set is rated against the one cached before, each key's cache follows its event, and pruning leaves no other keys than the batch's |
| TagCleaning.BestNext | plugins/sinks/wavefront/utils.go:77-86 | a name takes the lead exactly when it is then the best of those met |
| TagCleaning.LessIs | plugins/sinks/wavefront/utils.go:85 | of two names the winner is the shorter, or of two that are equally long the first in the alphabet |
| StringOrder.AtMostIs | plugins/sinks/wavefront/utils.go:85 | the order of strings is lexicographic: a prefix, or the smaller letter where they differ first |
| TagCleaning.RunDedupes | plugins/sinks/wavefront/utils.go:56-75 | at every point of the loop: who leads, what is gone, each removal once |
| TagCleaning.OneNamePerValue | plugins/sinks/wavefront/utils.go:56-86 | one name is left per value of five letters or more, the shortest that is neither alpha nor beta, ties by the alphabet, or else the first, in any order that visits no name of its value after an empty one; shorter values are left alone |
| TagCleaning.OneNameInAnyOrder | plugins/sinks/wavefront/utils.go:63-71 | every order leaves one name alone for each long value if and only if an empty name shares none |
| TagCleaning.EmptyFirst | plugins/sinks/wavefront/utils.go:63-64 | an empty name that is visited first stays beside another one of its value |
| TagCleaning.OrderDoesNotMatter | plugins/sinks/wavefront/utils.go:56-86 | all orders leave the same tags if and only if an empty name shares no long value and every shared long value has a name that is neither alpha nor beta |
| TagCleaning.OrderMatters | plugins/sinks/wavefront/utils.go:77-80 | if all are alpha or beta, the one visited first is left |
| TagCleaners.TagCleaner.RemoveEmptyTags | plugins/sinks/wavefront/utils.go:88-104 | just the tags with empty values go, each reported once |
| TagCleaners.TagCleaner.ExcludeTags | plugins/sinks/wavefront/utils.go:123-141 | just the excluded names go, each reported once |
| TagCleaners.TagCleaner.DedupeTagValues | plugins/sinks/wavefront/utils.go:56-75 | for any order, with deletions while ranging, the tags and names that order's run gives |
| TagCleaners.TagCleaner.RemoveTagsLabelsMatching | plugins/sinks/wavefront/utils.go:106-121 | the least matching names go, as many as asked for, but at least one if any match |
| TagCleaners.TagCleaner.CleanTags | plugins/sinks/wavefront/utils.go:26-40 | what goes for which reason, and that removals and survivors part the tags; the size ends within capacity if and only if enough match, and one below just when the second request was for none |
| TagCleaners.DedupeParts | plugins/sinks/wavefront/utils.go:66-71 | deduplication reports each name that it removes once, even with empty names |
| MetricReaders.LookaheadReader.Read | plugins/sources/prometheus/lookahead_reader.go:33-42 | the current line, and the scanner moves on; nothing at the end |
| MetricReaders.MetricReader.Read | plugins/sources/prometheus/metric_reader.go:26-61 | one chunk: it makes progress and ends just before the next boundary or at the end |
| MetricReaders.ChunkEnds | plugins/sources/prometheus/metric_reader.go:35-61 | comments, then samples up to a hash, span exactly from one boundary to the next |
| MetricReaders.SamplesAre | plugins/sources/prometheus/metric_reader.go:45-56 | a sample is a line with something other than white space on it that does not start with a hash |
| MetricReaders.LinesComeBack | plugins/sources/prometheus/metric_reader.go:35-61 | the text of a chunk is read as the lines that it was made of |
| MetricReaders.ReadAll | plugins/sources/prometheus/metric_reader.go:21-33 | reading until done ends, the chunks make up all lines in order, and the cuts are exactly the boundaries |
| StringOrder.SortedUnique | internal/util/label_copier.go:54-55 | a bag of strings has one sorted order |
| LabelTexts.LabelCopier.Copy | internal/util/label_copier.go:41-56 | for any order of the labels one and the same text; under a stored name the value of a label stored there, and elsewhere what was there before |
| LabelTexts.AddLabelTags | plugins/sources/summary/wavefront_converter.go:139-154 | the text of labels becomes its tags, over any other of the same name, and every other label a tag of its own |
| LabelTexts.SplitJoin | plugins/sources/summary/wavefront_converter.go:143 | splitting undoes joining, the empty list giving one empty piece |
| LabelTexts.RoundTrip | internal/util/label_copier.go:41-56 | labels come back under their own names with their own values if and only if no name holds a colon or comma and no value a comma |

## Left out

- SumCountAggregators.ProcessSpec: requires keys that agree with the types of their sets, so a set that is its own group is not modelled.
- PodBasedEnrichers.PodBasedEnricher.Process: requires that no container requests a resource called ephemeral_storage, a name Kubernetes does not accept.
- CentroidLists.SortByValue: `sort.Slice` is modelled as a stable sort; which of several equal bounds comes first is not promised by the program.
- Discovery.RunAgrees: requires that resources do not share endpoint names and that configurations have the names of their endpoints; the lemmas on single steps say exactly when a step breaks the agreement without that.
- Rates.CpuRatesAddUp: requires that other processors leave the times and the CPU time of a cached set alone between two flushes.
- ParseMetrics.RoundTrip: tags and names are those the grammar can express, which AcceptedLines.LinesAccepted shows to be all that parse; a value with a backslash before its closing quote, or a name used up by its optional first characters, is none of them.
- ParseMetrics.ParseMetric: a line that holds the end symbol, and the error text with the position reached, are not modelled.
- Floating-point rounding and 64-bit overflow; amounts are exact numbers, and 32-bit positions in the parser do not wrap.
- The hash of a distribution's key, which is taken to be injective, and writing to the tags of a distribution whose tags map is nil other than by OverrideTag.
- Locks, goroutines and channels beyond atomic steps: the discoverer's queue, its shutdown, and two additions of one provider at the same time.
- The loop that scrapes sources, its jitter and timeouts, and the pending batches: only which loops run is modelled.
- Merging the scraped batches of a flush, where a later batch's set replaces an earlier one of the same key.
- How endpoints are made from a resource by rules and annotations, and equality of endpoint lists beyond equality of values.
- The node roll-up, the namespace and node enrichers, and every other processor, source and sink.
- Lines longer than the scanner's limit, and how it splits input into lines.
- Labels that the label copier stores under other names while the enricher runs: the collector configures none.
- Globs and regular expressions, HTTP, Kubernetes clients, logging, counters, flags and configuration files.
- Leadership: the flag that marks a leader is not cleared on demotion, so there is no such property to prove.
