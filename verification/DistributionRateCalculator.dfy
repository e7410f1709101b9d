/** The processor of plugins/processors/distribution_rate_calculator.go, with its heap. */
module DistributionRateCalculators {
  import opened Options
  import opened Buckets
  import opened CentroidLists
  import opened Distributions
  import opened DistributionRates

  datatype Metric = NilMetric | PointMetric(id: int) | DistributionMetric(d: Distribution)

  ghost function SampleOf(d: Distribution): Sample
    reads d, d.centroids
  {
    Sample(d.timestamp, d.centroids[..])
  }

  /** Everything reachable from a metric. */
  ghost function Footprint(m: Metric): set<object?>
    reads if m.DistributionMetric? then {m.d} else {}
  {
    if m.DistributionMetric? then m.d.Repr() else {}
  }

  ghost function ViewOf(m: Metric): MetricView
    reads if m.DistributionMetric? then {m.d} else {}
    reads Footprint(m)
  {
    match m
    case NilMetric => NilView
    case PointMetric(id) => PointView(id)
    case DistributionMetric(d) => DistributionView(d.Key(), SampleOf(d))
  }

  class DistributionRateCalculator {
    var prevDistributions: map<DistributionKey, Distribution>
    ghost var Repr: set<object?>

    /** Every cached object is filed under its own key, and is owned by the cache. */
    ghost predicate Valid()
      reads this, Repr
    {
      this !in Repr &&
      forall k :: k in prevDistributions ==>
        prevDistributions[k] in Repr && prevDistributions[k].Repr() <= Repr && prevDistributions[k].Key() == k
    }

    /** The cache as a value. It reads nothing outside this and Repr, so nothing else can change it. */
    ghost function Cached(): Cache
      requires Valid()
      reads this, Repr
    {
      map k | k in prevDistributions :: SampleOf(prevDistributions[k])
    }

    constructor ()
      ensures Valid() && Cached() == map[] && Repr == {}
    {
      prevDistributions := map[];
      Repr := {};
    }

    /** distribution.Rate(prevDistributions[key]), for a map that yields nil when the key is missing. */
    method RateAgainstCache(distribution: Distribution) returns (rate: Distribution?)
      requires Valid()
      ensures Owed(Some(SampleOf(distribution)), Cached(), RateSample, distribution.Key()) ==
        if rate != null then [SampleOf(rate)] else []
      ensures rate != null ==>
        && fresh(rate) && fresh(rate.centroids) && rate.tags == distribution.tags && rate.Key() == distribution.Key()
    {
      var prev: Distribution? := null;
      if distribution.Key() in prevDistributions {
        prev := prevDistributions[distribution.Key()];
      }
      rate := distribution.Rate(prev);
    }

    /** prevDistributions[key] = distribution.Clone() */
    method Remember(distribution: Distribution)
      requires Valid()
      modifies this
      ensures Valid() && fresh(Repr - old(Repr))
      ensures Cached() == old(Cached())[distribution.Key() := Stored(SampleOf(distribution))]
    {
      ghost var was, stored := Cached(), Stored(SampleOf(distribution));
      var clone := distribution.Clone();
      assert Valid() && Cached() == was;
      assert SampleOf(clone) == stored;
      Store(distribution.Key(), clone);
    }

    method Store(key: DistributionKey, clone: Distribution)
      requires Valid() && clone.Key() == key && this !in clone.Repr()
      modifies this
      ensures Valid() && Repr == old(Repr) + clone.Repr()
      ensures Cached() == old(Cached())[key := SampleOf(clone)]
    {
      ghost var before, was := prevDistributions, Cached();
      prevDistributions := prevDistributions[key := clone];
      Repr := Repr + clone.Repr();
      assert forall k :: k in prevDistributions ==> k == key || (k in before && prevDistributions[k] == before[k]);
      assert Valid();
      CacheUpdated(Cached(), was, key, SampleOf(clone));
    }

    static lemma CacheUpdated(now: Cache, was: Cache, key: DistributionKey, stored: Sample)
      requires now.Keys == was.Keys + {key} && now[key] == stored
      requires forall k :: k in was && k != key ==> now[k] == was[k]
      ensures now == was[key := stored]
    {
    }

    /** The closure that Process passes to filterMapInPlace. */
    method Observe(metric: Metric, seen: set<DistributionKey>) returns (newE: Metric, included: bool, nowSeen: set<DistributionKey>)
      requires Valid() && Footprint(metric) !! Repr && this !in Footprint(metric)
      modifies this
      ensures Valid() && fresh(Repr - old(Repr))
      ensures included ==> Footprint(newE) !! Repr && fresh(Footprint(newE) - old(Footprint(metric)))
      ensures nowSeen == SeenWith(seen, old(ViewOf(metric)))
      ensures Cached() == Remembered(old(ViewOf(metric)), old(Cached()), seen)
      ensures EmitOne(old(ViewOf(metric)), old(Cached()), RateSample, seen) == if included then [ViewOf(newE)] else []
    {
      nowSeen := seen;
      if !metric.DistributionMetric? {
        return metric, true, nowSeen;
      }
      if metric.d.Key() in seen {
        return NilMetric, false, nowSeen;
      }
      newE, included := ObserveFirst(metric.d);
      nowSeen := seen + {metric.d.Key()};
    }

    method ObserveFirst(distribution: Distribution) returns (newE: Metric, included: bool)
      requires Valid() && distribution.Repr() !! Repr && this !in distribution.Repr()
      modifies this
      ensures Valid() && fresh(Repr - old(Repr))
      ensures included ==> Footprint(newE) !! Repr && fresh(Footprint(newE) - old(distribution.Repr()))
      ensures Cached() == old(Cached())[distribution.Key() := Stored(SampleOf(distribution))]
      ensures included ==> newE.DistributionMetric? && newE.d.Key() == distribution.Key()
      ensures Owed(Some(SampleOf(distribution)), old(Cached()), RateSample, distribution.Key()) ==
        if included then [SampleOf(newE.d)] else []
    {
      newE, included := NilMetric, false;
      var rate := RateAgainstCache(distribution);
      if rate != null {
        newE, included := DistributionMetric(rate), true;
        assert Footprint(newE) !! Repr;
      }
      ghost var view := ViewOf(newE);
      Remember(distribution);
      assert included ==> ViewOf(newE) == view;
    }

    // ---- filterMapInPlace ----------------------------------------------------------------------

    /** Shares no object with the cache or with the backing array. */
    ghost predicate Separate(m: Metric, es: array<Metric>)
      reads this, if m.DistributionMetric? then {m.d} else {}
    {
      Footprint(m) !! Repr && this !in Footprint(m) && es !in Footprint(m)
    }

    /** The metrics look like the values and share nothing with the cache or the array. */
    ghost predicate Holds(ms: seq<Metric>, views: seq<MetricView>, es: array<Metric>)
      reads this
      reads set m | m in ms && m.DistributionMetric? :: m.d
      reads set m, o | m in ms && m.DistributionMetric? && o in m.d.Repr() :: o
    {
      |ms| == |views| && forall i :: 0 <= i < |ms| ==> Separate(ms[i], es) && ViewOf(ms[i]) == views[i]
    }

    /** Observe leaves alone what was emitted before. */
    method ObserveKeeping(metric: Metric, seen: set<DistributionKey>, es: array<Metric>,
                          ghost outs: seq<Metric>, ghost views: seq<MetricView>)
      returns (newE: Metric, included: bool, nowSeen: set<DistributionKey>)
      requires Valid() && es !in Repr && Separate(metric, es) && Holds(outs, views, es)
      modifies this
      ensures Valid() && es !in Repr && fresh(Repr - old(Repr))
      ensures nowSeen == SeenWith(seen, old(ViewOf(metric)))
      ensures Cached() == Remembered(old(ViewOf(metric)), old(Cached()), seen)
      ensures Holds(if included then outs + [newE] else outs,
                    views + EmitOne(old(ViewOf(metric)), old(Cached()), RateSample, seen), es)
    {
      newE, included, nowSeen := Observe(metric, seen);
      forall j | 0 <= j < |outs|
        ensures Separate(outs[j], es) && ViewOf(outs[j]) == views[j]
      {
      }
    }

    /** Appends newE to the result slice es[..n]. */
    method Put(es: array<Metric>, n: nat, newE: Metric, ghost outs: seq<Metric>, ghost views: seq<MetricView>)
      requires n < es.Length && Holds(outs, views, es)
      modifies es
      ensures es[..] == old(es[..])[n := newE]
      ensures Holds(outs, views, es)
    {
      es[n] := newE;
      forall j | 0 <= j < |outs|
        ensures Separate(outs[j], es) && ViewOf(outs[j]) == views[j]
      {
      }
    }

    method Append(es: array<Metric>, n: nat, newE: Metric, included: bool, ghost outs: seq<Metric>, ghost views: seq<MetricView>)
      returns (m: nat)
      requires n < es.Length && es[..n] == outs
      requires Holds(if included then outs + [newE] else outs, views, es)
      modifies es
      ensures m <= n + 1 && es[..m] == (if included then outs + [newE] else outs) && es[n + 1..] == old(es[n + 1..])
      ensures Holds(if included then outs + [newE] else outs, views, es)
    {
      m := n;
      if included {
        Put(es, n, newE, outs + [newE], views);
        m := n + 1;
        assert es[..m] == es[..n] + [es[n]];
      }
    }

    /** Element i is observed as the one at i of the batch. */
    method ObserveNext(es: array<Metric>, i: nat, seen: set<DistributionKey>, ghost outs: seq<Metric>, ghost batch: seq<MetricView>,
                       ghost was: Cache)
      returns (newE: Metric, included: bool, nowSeen: set<DistributionKey>)
      requires Valid() && es !in Repr && i < es.Length == |batch| && Separate(es[i], es) && ViewOf(es[i]) == batch[i]
      requires Holds(outs, Emit(batch, was, RateSample, i), es)
      requires seen == SeenBefore(batch, i) && Cached() == CacheAfter(batch, was, i)
      modifies this
      ensures Valid() && es !in Repr && fresh(Repr - old(Repr))
      ensures nowSeen == SeenBefore(batch, i + 1) && Cached() == CacheAfter(batch, was, i + 1)
      ensures Holds(if included then outs + [newE] else outs, Emit(batch, was, RateSample, i + 1), es)
    {
      SeenStep(batch, i);
      EmitStep(batch, was, RateSample, i);
      newE, included, nowSeen := ObserveKeeping(es[i], seen, es, outs, Emit(batch, was, RateSample, i));
    }

    /** One round of the loop: read element i, then write the result, if any, at n <= i. */
    method Step(es: array<Metric>, i: nat, n: nat, seen: set<DistributionKey>,
                ghost outs: seq<Metric>, ghost batch: seq<MetricView>, ghost was: Cache)
      returns (m: nat, nowSeen: set<DistributionKey>, ghost nowOuts: seq<Metric>)
      requires Valid() && es !in Repr
      requires n <= i < es.Length == |batch| && es[..n] == outs
      requires Separate(es[i], es) && ViewOf(es[i]) == batch[i]
      requires Holds(outs, Emit(batch, was, RateSample, i), es)
      requires seen == SeenBefore(batch, i) && Cached() == CacheAfter(batch, was, i)
      modifies this, es
      ensures Valid() && es !in Repr && fresh(Repr - old(Repr))
      ensures m <= i + 1 && es[..m] == nowOuts && es[i + 1..] == old(es[i + 1..])
      ensures Holds(nowOuts, Emit(batch, was, RateSample, i + 1), es)
      ensures nowSeen == SeenBefore(batch, i + 1) && Cached() == CacheAfter(batch, was, i + 1)
    {
      var newE, included;
      newE, included, nowSeen := ObserveNext(es, i, seen, outs, batch, was);
      nowOuts := if included then outs + [newE] else outs;
      m := Append(es, n, newE, included, outs, Emit(batch, was, RateSample, i + 1));
    }

    /**
     * filterMapInPlace applied to the closure, over the backing array of batch.Metrics; the result
     * slice is es[..n]. The ghost argument is what the batch looks like as a value. Each element is
     * observed once and in order, before anything at or after it is overwritten; the results keep
     * their order, and what is left over is cleared.
     */
    method Process(es: array<Metric>, ghost batch: seq<MetricView>) returns (n: nat)
      requires Valid() && es !in Repr && Holds(es[..], batch, es)
      modifies this, es
      ensures Valid() && es !in Repr && fresh(Repr - old(Repr))
      ensures n <= es.Length && Holds(es[..n], Emit(batch, old(Cached()), RateSample, |batch|), es)
      ensures Cached() == Flush(batch, old(Cached()))
      ensures forall i :: n <= i < es.Length ==> es[i] == NilMetric
    {
      ghost var input, outs, was := es[..], [], Cached();
      var seen: set<DistributionKey> := {};
      n := 0;
      for i := 0 to es.Length
        invariant Valid() && es !in Repr && fresh(Repr - old(Repr))
        invariant n <= i && es[..n] == outs && es[i..] == input[i..]
        invariant seen == SeenBefore(batch, i) && Cached() == CacheAfter(batch, was, i)
        invariant Holds(outs, Emit(batch, was, RateSample, i), es)
      {
        assert es[i] == es[i..][0] == input[i];
        n, seen, outs := Step(es, i, n, seen, outs, batch, was);
      }
      ClearRest(es, n, outs, Emit(batch, was, RateSample, |batch|));
    }

    method ClearRest(es: array<Metric>, n: nat, ghost outs: seq<Metric>, ghost views: seq<MetricView>)
      requires n <= es.Length && Holds(outs, views, es) && es[..n] == outs
      modifies es
      ensures Holds(outs, views, es) && es[..n] == outs
      ensures forall j :: n <= j < es.Length ==> es[j] == NilMetric
    {
      for i := n to es.Length
        invariant forall j :: n <= j < i ==> es[j] == NilMetric
        invariant Holds(outs, views, es) && es[..n] == outs
      {
        Put(es, i, NilMetric, outs, views);
      }
    }

    /**
     * Whatever is done to the tags, source and centroids of a metric that is separate from the cache,
     * as everything a flush emits is, the cache keeps its contents and stays filed under its own
     * keys, and the metric stays separate.
     */
    method Tamper(m: Metric, es: array<Metric>, name: string, value: string, source: string, junk: Centroid)
      requires Valid() && Separate(m, es)
      modifies Footprint(m)
      ensures Valid() && Cached() == old(Cached()) && Separate(m, es)
    {
      Scribble(m, name, value, source, junk);
    }
  }

  /** The tag and source mutators of Distribution, and arbitrary writes to its centroids. */
  method Scribble(m: Metric, name: string, value: string, source: string, junk: Centroid)
    modifies Footprint(m)
    ensures fresh(Footprint(m) - old(Footprint(m)))
  {
    if m.DistributionMetric? {
      m.d.OverrideTag(name, value);
      m.d.SetSource(source);
      for i := 0 to m.d.centroids.Length
        modifies m.d.centroids
      {
        m.d.centroids[i] := junk;
      }
    }
  }
}
