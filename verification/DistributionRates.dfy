/**
 * plugins/processors/distribution_rate_calculator.go: what one flush does to the cache of previous
 * samples and to the batch, on values; and what that means over a whole run of flushes.
 */
module DistributionRates {
  import opened Options
  import opened Buckets
  import opened CentroidLists
  import opened Distributions

  /** The part of a distribution that is not its identity. */
  datatype Sample = Sample(timestamp: int, centroids: seq<Centroid>)

  /** A wf.Metric as a value: only distributions are looked into. */
  datatype MetricView = NilView | PointView(id: int) | DistributionView(key: DistributionKey, sample: Sample)

  type Cache = map<DistributionKey, Sample>

  // ---- One flush -------------------------------------------------------------------------------

  function SeenBefore(batch: seq<MetricView>, n: nat): set<DistributionKey>
    requires n <= |batch|
  {
    set i | 0 <= i < n && batch[i].DistributionView? :: batch[i].key
  }

  function SeenWith(seen: set<DistributionKey>, m: MetricView): set<DistributionKey> {
    if m.DistributionView? then seen + {m.key} else seen
  }

  /** Element i is the first of its series. */
  predicate IsFirst(batch: seq<MetricView>, i: nat)
    requires i < |batch|
  {
    IsNew(batch[i], SeenBefore(batch, i))
  }

  function RateSample(curr: Sample, prev: Sample): Option<Sample> {
    match RateOf(curr.centroids, prev.centroids, curr.timestamp - prev.timestamp)
    case None => None
    case Some(c) => Some(Sample(curr.timestamp, Sort(c)))
  }

  /** The claims on one flush do not depend on what the rate of two samples is. */
  type RateFun = (Sample, Sample) -> Option<Sample>

  predicate IsNew(m: MetricView, seen: set<DistributionKey>) {
    m.DistributionView? && m.key !in seen
  }

  /** What a metric turns into when the series in seen came before it: itself, a rate, or nothing. */
  function EmitOne(m: MetricView, cache: Cache, rate: RateFun, seen: set<DistributionKey>): seq<MetricView> {
    if !m.DistributionView? then [m]
    else if m.key in seen || m.key !in cache then []
    else match rate(m.sample, cache[m.key])
         case None => []
         case Some(r) => [DistributionView(m.key, r)]
  }

  function EmitAt(batch: seq<MetricView>, cache: Cache, rate: RateFun, i: nat): seq<MetricView>
    requires i < |batch|
  {
    EmitOne(batch[i], cache, rate, SeenBefore(batch, i))
  }

  function Emit(batch: seq<MetricView>, cache: Cache, rate: RateFun, n: nat): (e: seq<MetricView>)
    requires n <= |batch|
    ensures |e| <= n
  {
    if n == 0 then [] else Emit(batch, cache, rate, n - 1) + EmitAt(batch, cache, rate, n - 1)
  }

  /** The first sample of each series replaces the cached one, with or without a rate. */
  function CacheAfter(batch: seq<MetricView>, cache: Cache, n: nat): Cache
    requires n <= |batch|
  {
    if n == 0 then cache
    else
      Remembered(batch[n - 1], CacheAfter(batch, cache, n - 1), SeenBefore(batch, n - 1))
  }

  function Remembered(m: MetricView, cache: Cache, seen: set<DistributionKey>): Cache {
    if IsNew(m, seen) then cache[m.key := Stored(m.sample)] else cache
  }

  /** Clone sorts again what it copied. */
  function Stored(s: Sample): Sample {
    s.(centroids := Sort(s.centroids))
  }

  lemma SeenStep(batch: seq<MetricView>, i: nat)
    requires i < |batch|
    ensures SeenBefore(batch, i + 1) == SeenWith(SeenBefore(batch, i), batch[i])
  {
  }

  /** The cache looked up is the one a series had before the flush: each series is replaced only once. */
  lemma {:induction false} EmitStep(batch: seq<MetricView>, cache: Cache, rate: RateFun, i: nat)
    requires i < |batch|
    ensures EmitOne(batch[i], CacheAfter(batch, cache, i), rate, SeenBefore(batch, i)) == EmitAt(batch, cache, rate, i)
  {
    if batch[i].DistributionView? && batch[i].key !in SeenBefore(batch, i) {
      UnseenUntouched(batch, cache, batch[i].key, i);
    }
  }

  lemma {:induction false} UnseenUntouched(batch: seq<MetricView>, cache: Cache, key: DistributionKey, n: nat)
    requires n <= |batch| && key !in SeenBefore(batch, n)
    ensures key in CacheAfter(batch, cache, n) <==> key in cache
    ensures key in cache ==> CacheAfter(batch, cache, n)[key] == cache[key]
  {
    if n > 0 {
      SeenStep(batch, n - 1);
      UnseenUntouched(batch, cache, key, n - 1);
    }
  }

  // ---- One flush, one series -------------------------------------------------------------------

  function FirstSample(batch: seq<MetricView>, key: DistributionKey, n: nat): Option<Sample>
    requires n <= |batch|
  {
    if n == 0 then None
    else if FirstSample(batch, key, n - 1).Some? then FirstSample(batch, key, n - 1)
    else if batch[n - 1].DistributionView? && batch[n - 1].key == key then Some(batch[n - 1].sample)
    else None
  }

  /** The samples of one series among the first n metrics. */
  function Emitted(views: seq<MetricView>, key: DistributionKey, n: nat): seq<Sample>
    requires n <= |views|
  {
    if n == 0 then []
    else if views[n - 1].DistributionView? && views[n - 1].key == key then Emitted(views, key, n - 1) + [views[n - 1].sample]
    else Emitted(views, key, n - 1)
  }

  lemma {:induction false} EmittedPrefix(a: seq<MetricView>, b: seq<MetricView>, key: DistributionKey, n: nat)
    requires n <= |a| <= |b| && forall j :: 0 <= j < n ==> a[j] == b[j]
    ensures Emitted(a, key, n) == Emitted(b, key, n)
  {
    if n > 0 {
      EmittedPrefix(a, b, key, n - 1);
    }
  }

  lemma {:induction false} FirstSampleIsFirst(batch: seq<MetricView>, key: DistributionKey, n: nat)
    requires n <= |batch|
    ensures FirstSample(batch, key, n).None? <==>
      forall j :: 0 <= j < n ==> batch[j].DistributionView? ==> batch[j].key != key
  {
    if n > 0 {
      FirstSampleIsFirst(batch, key, n - 1);
    }
  }

  lemma FirstSampleStep(batch: seq<MetricView>, key: DistributionKey, n: nat)
    requires 0 < n <= |batch|
    ensures if IsFirst(batch, n - 1) && batch[n - 1].key == key
            then FirstSample(batch, key, n - 1).None? && FirstSample(batch, key, n) == Some(batch[n - 1].sample)
            else FirstSample(batch, key, n) == FirstSample(batch, key, n - 1)
  {
    FirstSampleIsFirst(batch, key, n - 1);
  }

  /** The rate that a flush owes a series: from its first sample in the batch and the cached one. */
  function Owed(first: Option<Sample>, cache: Cache, rate: RateFun, key: DistributionKey): seq<Sample> {
    if first.None? || key !in cache then []
    else match rate(first.value, cache[key])
         case None => []
         case Some(r) => [r]
  }

  /** The samples that a flush emits for one series. */
  function EmittedBy(batch: seq<MetricView>, cache: Cache, rate: RateFun, key: DistributionKey, n: nat): seq<Sample>
    requires n <= |batch|
  {
    var e := Emit(batch, cache, rate, n);
    Emitted(e, key, |e|)
  }

  /** Per series, a flush emits the rate owed, once. Duplicates and other series make no difference. */
  lemma {:induction false} FlushEmitsOwed(batch: seq<MetricView>, cache: Cache, rate: RateFun, key: DistributionKey, n: nat)
    requires n <= |batch|
    ensures EmittedBy(batch, cache, rate, key, n) == Owed(FirstSample(batch, key, n), cache, rate, key)
  {
    if n > 0 {
      FlushEmitsOwed(batch, cache, rate, key, n - 1);
      EmittedStep(batch, cache, rate, key, n);
      OwedStep(batch, cache, rate, key, n);
    }
  }

  lemma EmittedStep(batch: seq<MetricView>, cache: Cache, rate: RateFun, key: DistributionKey, n: nat)
    requires 0 < n <= |batch|
    ensures EmittedBy(batch, cache, rate, key, n)
         == EmittedBy(batch, cache, rate, key, n - 1) + OwedAt(batch, cache, rate, key, n - 1)
  {
    var front, last := Emit(batch, cache, rate, n - 1), EmitAt(batch, cache, rate, n - 1);
    EmittedPrefix(front, front + last, key, |front|);
    if last == [] {
      assert front + last == front;
    } else {
      assert (front + last)[|front|] == last[0];
    }
  }

  lemma OwedStep(batch: seq<MetricView>, cache: Cache, rate: RateFun, key: DistributionKey, n: nat)
    requires 0 < n <= |batch|
    ensures Owed(FirstSample(batch, key, n), cache, rate, key)
         == Owed(FirstSample(batch, key, n - 1), cache, rate, key) + OwedAt(batch, cache, rate, key, n - 1)
  {
    FirstSampleStep(batch, key, n);
  }

  /** Per series, the cache holds the first sample of the batch, or what it held before. */
  lemma {:induction false} FlushCachesFirst(batch: seq<MetricView>, cache: Cache, key: DistributionKey, n: nat)
    requires n <= |batch|
    ensures var first, after := FirstSample(batch, key, n), CacheAfter(batch, cache, n);
      && (key in after <==> first.Some? || key in cache)
      && (key in after ==> after[key] == if first.Some? then Stored(first.value) else cache[key])
  {
    if n > 0 {
      FlushCachesFirst(batch, cache, key, n - 1);
      FirstSampleStep(batch, key, n);
    }
  }

  /** The share of element i in what the series is owed. */
  function OwedAt(batch: seq<MetricView>, cache: Cache, rate: RateFun, key: DistributionKey, i: nat): seq<Sample>
    requires i < |batch|
  {
    if IsFirst(batch, i) && batch[i].key == key then Owed(Some(batch[i].sample), cache, rate, key) else []
  }

  /** Metrics that are not distributions, in order. */
  function Others(views: seq<MetricView>, n: nat): seq<MetricView>
    requires n <= |views|
  {
    if n == 0 then []
    else if views[n - 1].DistributionView? then Others(views, n - 1)
    else Others(views, n - 1) + [views[n - 1]]
  }

  lemma {:induction false} OthersPrefix(a: seq<MetricView>, b: seq<MetricView>, n: nat)
    requires n <= |a| <= |b| && forall j :: 0 <= j < n ==> a[j] == b[j]
    ensures Others(a, n) == Others(b, n)
  {
    if n > 0 {
      OthersPrefix(a, b, n - 1);
    }
  }

  /** They pass through. */
  lemma {:induction false} OthersPassThrough(batch: seq<MetricView>, cache: Cache, rate: RateFun, n: nat)
    requires n <= |batch|
    ensures var e := Emit(batch, cache, rate, n); Others(e, |e|) == Others(batch, n)
  {
    if n > 0 {
      OthersPassThrough(batch, cache, rate, n - 1);
      var front, last := Emit(batch, cache, rate, n - 1), EmitAt(batch, cache, rate, n - 1);
      OthersPrefix(front, front + last, |front|);
      if last == [] {
        assert front + last == front;
      } else {
        assert (front + last)[|front|] == last[0];
      }
    }
  }

  // ---- A run of flushes ------------------------------------------------------------------------

  function Flush(batch: seq<MetricView>, cache: Cache): Cache {
    CacheAfter(batch, cache, |batch|)
  }

  function CacheAfterRun(batches: seq<seq<MetricView>>, cache: Cache): Cache {
    if batches == [] then cache else CacheAfterRun(batches[1..], Flush(batches[0], cache))
  }

  /** No flush of the run gets a sample of the series without emitting a rate for it. */
  ghost predicate Unbroken(batches: seq<seq<MetricView>>, cache: Cache, key: DistributionKey) {
    batches != [] ==>
      && key in cache
      && (FirstSample(batches[0], key, |batches[0]|).Some? ==> EmittedBy(batches[0], cache, RateSample, key, |batches[0]|) != [])
      && Unbroken(batches[1..], Flush(batches[0], cache), key)
  }

  /** Rate times elapsed minutes for one bucket, over what one flush emitted for the series. */
  function Increase(emitted: seq<Sample>, prev: Sample, i: nat): real {
    if emitted == [] || i >= |emitted[0].centroids| then 0.0
    else emitted[0].centroids[i].count * Minutes(emitted[0].timestamp - prev.timestamp)
  }

  function TotalIncrease(batches: seq<seq<MetricView>>, cache: Cache, key: DistributionKey, i: nat): real {
    if batches == [] then 0.0
    else
      (if key in cache then Increase(EmittedBy(batches[0], cache, RateSample, key, |batches[0]|), cache[key], i) else 0.0)
      + TotalIncrease(batches[1..], Flush(batches[0], cache), key, i)
  }

  lemma OwedRestoresCount(curr: Sample, prev: Sample, i: nat)
    requires StrictlyIncreasing(prev.centroids) && i < |prev.centroids|
    requires Comparable(curr.centroids, prev.centroids, curr.timestamp - prev.timestamp)
    ensures StrictlyIncreasing(curr.centroids) && Stored(curr) == curr
    ensures RateSample(curr, prev).Some?
    ensures Increase([RateSample(curr, prev).value], prev, i) == curr.centroids[i].count - prev.centroids[i].count
  {
    var nanos := curr.timestamp - prev.timestamp;
    var rates := RateCentroids(curr.centroids, prev.centroids, nanos);
    SortKeepsSorted(curr.centroids);
    SortKeepsSorted(rates);
    RateTimesMinutes(curr.centroids, prev.centroids, nanos, i);
  }

  /**
   * Conservation over a run: as long as every sample of a series yields a rate, the emitted rates
   * times the elapsed minutes add up, bucket by bucket, to last minus first cumulative count.
   * Batches may repeat the series, leave it out, and mix it with any other metrics.
   */
  lemma {:induction false} RatesTelescope(batches: seq<seq<MetricView>>, cache: Cache, key: DistributionKey, i: nat)
    requires key in cache && StrictlyIncreasing(cache[key].centroids) && i < |cache[key].centroids|
    requires Unbroken(batches, cache, key)
    ensures key in CacheAfterRun(batches, cache)
    ensures |CacheAfterRun(batches, cache)[key].centroids| == |cache[key].centroids|
    ensures TotalIncrease(batches, cache, key, i)
         == CacheAfterRun(batches, cache)[key].centroids[i].count - cache[key].centroids[i].count
  {
    if batches != [] {
      var batch := batches[0];
      FlushEmitsOwed(batch, cache, RateSample, key, |batch|);
      FlushCachesFirst(batch, cache, key, |batch|);
      var first := FirstSample(batch, key, |batch|);
      if first.Some? {
        OwedRestoresCount(first.value, cache[key], i);
      }
      RatesTelescope(batches[1..], Flush(batch, cache), key, i);
    }
  }
}
