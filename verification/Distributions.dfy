/**
 * The Distribution object of internal/wf/distribution.go. Tags and centroids are references, as Go
 * maps and slices are: whether two distributions share them is part of the model.
 */
module Distributions {
  import opened Options
  import opened WeightedSums
  import opened Buckets
  import opened Smoothing
  import opened CentroidLists

  /** What the hash of Key() is computed from; blake2b is taken to be injective on it. */
  datatype DistributionKey = DistributionKey(cumulative: bool, name: string, source: string, tags: map<string, string>)

  /** A map[string]string on the heap. */
  class TagMap {
    var entries: map<string, string>

    constructor (entries: map<string, string>)
      ensures this.entries == entries
    {
      this.entries := entries;
    }
  }

  class Distribution {
    var cumulative: bool
    var name: string
    var tags: TagMap?
    var source: string
    var centroids: array<Centroid>
    var timestamp: int

    /** newDistribution: sorts its argument in place and keeps both references. */
    constructor (cumulative: bool, name: string, source: string, tags: TagMap?, centroids: array<Centroid>, timestamp: int)
      modifies centroids
      ensures this.cumulative == cumulative && this.name == name && this.source == source
      ensures this.tags == tags && this.centroids == centroids && this.timestamp == timestamp
      ensures centroids[..] == Sort(old(centroids[..]))
    {
      this.cumulative := cumulative;
      this.name := name;
      this.source := source;
      this.tags := tags;
      this.centroids := centroids;
      this.timestamp := timestamp;
      new;
      SortByValue(centroids);
    }

    ghost function Repr(): set<object?>
      reads this
    {
      if tags == null then {this, centroids} else {this, centroids, tags}
    }

    function Key(): DistributionKey
      reads this, tags
    {
      DistributionKey(cumulative, name, source, if tags == null then map[] else tags.entries)
    }

    /** Two distributions are of one series exactly when all that identifies it is the same. */
    lemma SameSeries(that: Distribution)
      ensures Key() == that.Key() <==>
        && cumulative == that.cumulative && name == that.name && source == that.source
        && (if tags == null then map[] else tags.entries) == (if that.tags == null then map[] else that.tags.entries)
    {
    }

    method ClonedCentroids() returns (cloned: array<Centroid>)
      ensures fresh(cloned) && cloned[..] == centroids[..]
    {
      cloned := new Centroid[centroids.Length](i requires 0 <= i < centroids.Length reads this, centroids => centroids[i]);
    }

    method ClonedTags() returns (cloned: TagMap)
      ensures fresh(cloned) && cloned.entries == if tags == null then map[] else tags.entries
    {
      var out: map<string, string> := map[];
      if tags != null {
        var rest := tags.entries;
        while rest != map[]
          invariant rest.Keys !! out.Keys
          invariant out + rest == tags.entries
          decreases |rest|
        {
          var k :| k in rest;
          MoveEntry(out, rest, k);
          out := out[k := rest[k]];
          rest := rest - {k};
        }
      }
      cloned := new TagMap(out);
    }

    /** A clone shares no tags map and no centroid slice with anything. */
    method Clone() returns (d: Distribution)
      ensures fresh(d.Repr())
      ensures d.Key() == Key() && d.timestamp == timestamp
      ensures d.cumulative == cumulative && d.name == name && d.source == source
      ensures d.tags != null && d.tags.entries == if tags == null then map[] else tags.entries
      ensures d.centroids[..] == Sort(centroids[..])
    {
      var clonedTags := ClonedTags();
      var clonedCentroids := ClonedCentroids();
      d := new Distribution(cumulative, name, source, clonedTags, clonedCentroids, timestamp);
    }

    /** The rate is a new distribution with its own centroids, but it shares the tags map of `this`. */
    method Rate(prev: Distribution?) returns (rate: Distribution?)
      ensures rate != null <==>
        prev != null && prev.Key() == Key() && Comparable(centroids[..], prev.centroids[..], timestamp - prev.timestamp)
      ensures rate != null ==>
        fresh(rate) && fresh(rate.centroids) && rate.tags == tags &&
        rate.Key() == Key() && rate.timestamp == timestamp &&
        rate.cumulative == cumulative && rate.name == name && rate.source == source &&
        rate.centroids[..] == Sort(RateCentroids(centroids[..], prev.centroids[..], timestamp - prev.timestamp))
    {
      if prev == null || prev.Key() != Key() {
        return null;
      }
      var centroidRate := CentroidRate(centroids, prev.centroids, timestamp - prev.timestamp);
      if centroidRate == null {
        return null;
      }
      rate := new Distribution(cumulative, name, source, tags, centroidRate, timestamp);
    }

    /**
     * None is the index before the first bucket. Otherwise the resulting centroids are the one sorted
     * listing of the smoothed counts, whatever the map order was.
     */
    method ToFrequency() returns (r: Option<Distribution>)
      ensures !cumulative ==> r == Some(this)
      ensures r == None <==>
        cumulative && centroids.Length > 1 && centroids[0].value == PosInf && centroids[0].count != 0.0
      ensures cumulative && r.Some? ==>
        var f := r.value;
        fresh(f) && fresh(f.centroids) && f.tags == tags &&
        f.Key() == Key().(cumulative := false) && f.timestamp == timestamp &&
        !f.cumulative && f.name == name && f.source == source &&
        Sorted(f.centroids[..]) && Lists(f.centroids[..], SmoothCounts(Derive(centroids[..])))
    {
      if !cumulative {
        return Some(this);
      }
      var derived := DeriveCentroids(centroids);
      SmoothFails(derived[..]);
      var smoothed := SmoothCentroids(derived);
      if smoothed == None {
        return None;
      }
      SortSorts(smoothed.value[..]);
      var f := new Distribution(false, name, source, tags, smoothed.value, timestamp);
      r := Some(f);
    }

    method OverrideTag(name: string, value: string)
      modifies this`tags, tags
      ensures if old(tags) == null then fresh(tags) else tags == old(tags)
      ensures Key() == old(Key()).(tags := old(Key()).tags[name := value])
    {
      if tags == null {
        tags := new TagMap(map[]);
      }
      tags.entries := tags.entries[name := value];
    }

    method SetSource(source: string)
      modifies this`source
      ensures Key() == old(Key()).(source := source)
    {
      this.source := source;
    }
  }

  method SmoothCentroids(derived: array<Centroid>) returns (smoothed: Option<array<Centroid>>)
    ensures smoothed == None <==> Smooth(derived[..]) == None
    ensures smoothed.Some? ==> fresh(smoothed.value) && Lists(smoothed.value[..], Smooth(derived[..]).value)
  {
    if derived.Length == 1 && derived[0].value == PosInf {
      var none := new Centroid[0];
      return Some(none);
    }
    var smallest := SmallestCountAboveZero(derived);
    var amplification := Max(1.0, 1.0 / smallest);
    ZeroProduct(amplification);
    var counts := SpreadBuckets(derived, Scale(amplification));
    if counts == None {
      return None;
    }
    var slice := CentroidMapToSlice(counts.value);
    smoothed := Some(slice);
  }

  /** The loop over the derived centroids; scaling maps zero, and only zero, to zero. */
  method SpreadBuckets(derived: array<Centroid>, amp: real -> real) returns (counts: Option<map<Bound, real>>)
    requires forall c :: amp(c) == 0.0 <==> c == 0.0
    ensures counts == Spread(derived[..], amp, derived.Length)
  {
    var m: map<Bound, real> := map[];
    for i := 0 to derived.Length
      invariant Spread(derived[..], amp, i) == Some(m)
    {
      var currentBound := derived[i].value;
      var actualCount := amp(derived[i].count);
      if !currentBound.AboveZero() || actualCount == 0.0 {
        continue;
      }
      actualCount := Max(1.0, actualCount);
      if currentBound == PosInf {
        if i == 0 {
          SpreadStaysNone(derived[..], amp, 1, derived.Length);
          return None;
        }
        currentBound := derived[i - 1].value;
      }
      var previousBound := Finite(0.0);
      if i > 0 {
        previousBound := derived[i - 1].value;
      }
      assert actualCount == Amplified(derived[..], amp, i);
      assert previousBound == Low(derived[..], i) && HighAt(derived[..], i) == Some(currentBound);
      m := DepositSplit(m, previousBound, currentBound, actualCount);
    }
    counts := Some(m);
  }

  lemma {:induction false} SpreadStaysNone(s: seq<Centroid>, amp: real -> real, i: nat, n: nat)
    requires i <= n <= |s| && Spread(s, amp, i) == None
    ensures Spread(s, amp, n) == None
    decreases n
  {
    if i < n {
      SpreadStaysNone(s, amp, i, n - 1);
    }
  }

  method DepositSplit(counts: map<Bound, real>, low: Bound, high: Bound, actualCount: real) returns (r: map<Bound, real>)
    ensures r == DepositBucket(counts, low, high, actualCount)
  {
    var lowerCount := Trunc(actualCount / 4.0);
    r := Deposit(counts, low, lowerCount);
    var middleCount := Trunc(actualCount / 2.0);
    r := Deposit(r, high.Mid(low), middleCount);
    var upperCount := Trunc(actualCount - lowerCount - middleCount);
    r := Deposit(r, high, upperCount);
  }

  lemma MoveEntry(out: map<string, string>, rest: map<string, string>, k: string)
    requires k in rest && out.Keys !! rest.Keys
    ensures out[k := rest[k]] + (rest - {k}) == out + rest
  {
  }

  lemma ZeroProduct(a: real)
    requires a >= 1.0
    ensures forall c :: Scale(a)(c) == 0.0 <==> c == 0.0
  {
  }

  // ---- What ToFrequency guarantees -------------------------------------------------------------

  ghost predicate OnlyInfinity(s: seq<Centroid>) {
    |s| == 1 && s[0].value == PosInf
  }

  /** For buckets in order that means: several buckets, all of them +Inf. */
  lemma FrequencyFails(buckets: seq<Centroid>)
    requires Sorted(buckets)
    ensures Smooth(Derive(buckets)) == None <==>
      |buckets| > 1 && buckets[0].count != 0.0 && forall i :: 0 <= i < |buckets| ==> buckets[i].value == PosInf
  {
    SmoothFails(Derive(buckets));
    if |buckets| > 1 && buckets[0].value == PosInf {
      forall i | 0 <= i < |buckets| ensures buckets[i].value == PosInf {
        assert i > 0 ==> !buckets[i].value.Less(buckets[0].value);
      }
    }
  }

  /** Such as these two, of which the second holds one more than the first. */
  lemma TwoInfiniteBuckets()
    ensures var buckets := [Centroid(PosInf, 1.0), Centroid(PosInf, 2.0)]; Sorted(buckets) && Smooth(Derive(buckets)) == None
  {
    FrequencyFails([Centroid(PosInf, 1.0), Centroid(PosInf, 2.0)]);
  }
}
