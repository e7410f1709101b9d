/**
 * The arithmetic of internal/wf/distribution.go: cumulative Prometheus buckets are differenced against
 * an earlier sample, differenced across buckets, amplified, and spread over three points a bucket.
 * Bounds and counts are exact reals, with one +Inf bound.
 */
module Buckets {
  import opened Options
  import opened WeightedSums

  datatype Bound = Finite(r: real) | PosInf {
    predicate Less(that: Bound) {
      Finite? && (that.PosInf? || r < that.r)
    }

    /** (this + that) / 2 with the float64 rules for +Inf. */
    function Mid(that: Bound): Bound {
      if PosInf? || that.PosInf? then PosInf else Finite((r + that.r) / 2.0)
    }

    /** The bound as a number; only meaningful for finite bounds. */
    function Num(): real {
      if Finite? then r else 0.0
    }

    predicate AboveZero() {
      PosInf? || r > 0.0
    }
  }

  datatype Centroid = Centroid(value: Bound, count: real)

  /** The largest float64, (2^53 - 1) * 2^971, is only used as "larger than any count seen so far". */

  const MAX_FLOAT64: real := 179769313486231570814527423731704356798070567525844996598917476803157260780028538760589558632766878171540458953514382464234321326889464182768467546703537516986049910576551282076245490090389328944075868508455133942304583236903222948165808559332123348274797826204144723168738177180919299881250404026184124858368.0

  function Max(x: real, y: real): real { if x < y then y else x }

  function Trunc(x: real): real {
    if x >= 0.0 then x.Floor as real else -((-x).Floor as real)
  }

  ghost predicate IsNat(x: real) {
    x >= 0.0 && x == x.Floor as real
  }

  ghost predicate Sorted(s: seq<Centroid>) {
    forall i, j :: 0 <= i < j < |s| ==> !s[j].value.Less(s[i].value)
  }

  ghost predicate StrictlyIncreasing(s: seq<Centroid>) {
    forall i, j :: 0 <= i < j < |s| ==> s[i].value.Less(s[j].value)
  }

  // ---- deriveCentroids -------------------------------------------------------------------------

  /** The count that bucket i adds to the one before it. */
  function DeltaCount(s: seq<Centroid>, i: nat): real
    requires i < |s|
  {
    if i > 0 then s[i].count - s[i - 1].count else s[i].count
  }

  function Derive(s: seq<Centroid>): (d: seq<Centroid>)
    ensures |d| == |s|
    ensures forall i :: 0 <= i < |s| ==> d[i].value == s[i].value
  {
    seq(|s|, i requires 0 <= i < |s| => Centroid(s[i].value, DeltaCount(s, i)))
  }

  /** Running totals of the counts: what turns per-bucket counts into cumulative ones. */
  function PrefixCount(s: seq<Centroid>, i: nat): real
    requires i < |s|
  {
    if i == 0 then s[0].count else PrefixCount(s, i - 1) + s[i].count
  }

  function Accumulate(s: seq<Centroid>): (c: seq<Centroid>)
    ensures |c| == |s|
  {
    seq(|s|, i requires 0 <= i < |s| => Centroid(s[i].value, PrefixCount(s, i)))
  }

  lemma {:induction false} PrefixCountOfDerived(s: seq<Centroid>, i: nat)
    requires i < |s|
    ensures PrefixCount(Derive(s), i) == s[i].count
  {
    if i > 0 {
      PrefixCountOfDerived(s, i - 1);
    }
  }

  lemma AccumulateInvertsDerive(s: seq<Centroid>)
    ensures Accumulate(Derive(s)) == s
    ensures Derive(Accumulate(s)) == s
  {
    forall i | 0 <= i < |s|
      ensures Accumulate(Derive(s))[i] == s[i]
      ensures Derive(Accumulate(s))[i] == s[i]
    {
      PrefixCountOfDerived(s, i);
    }
  }

  method DeriveCentroids(centroids: array<Centroid>) returns (derived: array<Centroid>)
    ensures fresh(derived) && derived[..] == Derive(centroids[..])
  {
    var out: seq<Centroid> := [];
    for i := 0 to centroids.Length
      invariant out == Derive(centroids[..])[..i]
    {
      var deltaCount := 0.0;
      if i > 0 {
        deltaCount := centroids[i].count - centroids[i - 1].count;
      } else {
        deltaCount := centroids[i].count;
      }
      out := out + [Centroid(centroids[i].value, deltaCount)];
    }
    derived := new Centroid[|out|](i requires 0 <= i < |out| => out[i]);
    assert derived[..] == out;
  }

  // ---- CentroidRate ----------------------------------------------------------------------------

  const NANOS_PER_MINUTE: real := 60000000000.0

  function Minutes(nanos: int): real { nanos as real / NANOS_PER_MINUTE }

  /** Two samples can be differenced: same bounds, no count went down, and time moved on. */
  predicate Comparable(curr: seq<Centroid>, prev: seq<Centroid>, nanos: int) {
    |curr| == |prev| &&
    forall i :: 0 <= i < |curr| ==> curr[i].value == prev[i].value && curr[i].count >= prev[i].count && nanos > 0
  }

  function RateCentroids(curr: seq<Centroid>, prev: seq<Centroid>, nanos: int): (r: seq<Centroid>)
    requires Comparable(curr, prev, nanos)
    ensures |r| == |curr|
  {
    seq(|curr|, i requires 0 <= i < |curr| => Centroid(curr[i].value, (curr[i].count - prev[i].count) / Minutes(nanos)))
  }

  function RateOf(curr: seq<Centroid>, prev: seq<Centroid>, nanos: int): Option<seq<Centroid>> {
    if Comparable(curr, prev, nanos) then Some(RateCentroids(curr, prev, nanos)) else None
  }

  method CentroidRate(curr: array<Centroid>, prev: array<Centroid>, nanos: int) returns (r: array?<Centroid>)
    ensures r != null <==> Comparable(curr[..], prev[..], nanos)
    ensures r != null <==>
      && curr.Length == prev.Length && (curr.Length > 0 ==> nanos > 0)
      && forall i :: 0 <= i < curr.Length ==> curr[i].value == prev[i].value && curr[i].count >= prev[i].count
    ensures r != null ==> fresh(r) && r[..] == RateCentroids(curr[..], prev[..], nanos)
  {
    if curr.Length != prev.Length {
      return null;
    }
    var centroids := new Centroid[curr.Length](_ => Centroid(PosInf, 0.0));
    for i := 0 to curr.Length
      invariant i > 0 ==> nanos > 0
      invariant forall j :: 0 <= j < i ==>
        curr[j].value == prev[j].value && curr[j].count >= prev[j].count && nanos > 0 &&
        centroids[j] == Centroid(curr[j].value, (curr[j].count - prev[j].count) / Minutes(nanos))
    {
      if curr[i].value != prev[i].value || curr[i].count < prev[i].count || nanos <= 0 {
        assert curr[..][i] == curr[i] && prev[..][i] == prev[i];
        return null;
      }
      centroids[i] := Centroid(curr[i].value, (curr[i].count - prev[i].count) / Minutes(nanos));
    }
    r := centroids;
    assert Comparable(curr[..], prev[..], nanos);
    assert r[..] == RateCentroids(curr[..], prev[..], nanos);
  }

  /** Multiplying a rate by the elapsed minutes gives back the change of the count, bucket by bucket. */
  lemma RateTimesMinutes(curr: seq<Centroid>, prev: seq<Centroid>, nanos: int, i: nat)
    requires Comparable(curr, prev, nanos) && i < |curr|
    ensures RateCentroids(curr, prev, nanos)[i].count * Minutes(nanos) == curr[i].count - prev[i].count
    ensures Minutes(nanos) * 60000000000.0 == nanos as real
    ensures RateCentroids(curr, prev, nanos)[i].value == curr[i].value
  {
    assert Minutes(nanos) > 0.0;
  }

  /** Differencing across buckets and differencing across time commute. */
  lemma DeriveCommutesWithRate(curr: seq<Centroid>, prev: seq<Centroid>, nanos: int, i: nat)
    requires Comparable(curr, prev, nanos) && i < |curr|
    ensures Derive(RateCentroids(curr, prev, nanos))[i].count
         == (Derive(curr)[i].count - Derive(prev)[i].count) / Minutes(nanos)
  {
    var m, rate := Minutes(nanos), RateCentroids(curr, prev, nanos);
    assert m > 0.0;
    if i > 0 {
      var a, b := curr[i].count - prev[i].count, curr[i - 1].count - prev[i - 1].count;
      QuotientOfDifference(a, b, m);
      assert rate[i].count == a / m && rate[i - 1].count == b / m;
      assert a - b == Derive(curr)[i].count - Derive(prev)[i].count;
    }
  }

  lemma QuotientOfDifference(a: real, b: real, m: real)
    requires m > 0.0
    ensures a / m - b / m == (a - b) / m
  {
  }
}
