/** What ToFrequency makes of cumulative buckets, said of the buckets themselves. */
module Frequencies {
  import opened Options
  import opened WeightedSums
  import opened Buckets
  import opened Smoothing
  import opened CentroidLists
  import opened Distributions

  /** The bound below bucket i: that of the bucket before, or zero. */
  ghost function Below(b: seq<Centroid>, i: nat): Bound
    requires i < |b|
  {
    if i == 0 then Finite(0.0) else b[i - 1].value
  }

  /** The bound of bucket i itself, or for +Inf the one below. */
  ghost function Above(b: seq<Centroid>, i: nat): Bound
    requires i < |b|
  {
    if b[i].value == PosInf then Below(b, i) else b[i].value
  }

  ghost function Between(low: Bound, high: Bound): Bound {
    if low.PosInf? || high.PosInf? then PosInf else Finite((low.r + high.r) / 2.0)
  }

  /** What bucket i adds to the count of the one before. */
  ghost function Own(b: seq<Centroid>, i: nat): real
    requires i < |b|
  {
    if i == 0 then b[0].count else b[i].count - b[i - 1].count
  }

  /** A bucket counts if its bound is positive and it is not empty; a lone +Inf bucket does not. */
  ghost predicate Counting(b: seq<Centroid>, i: nat)
    requires i < |b|
  {
    Own(b, i) != 0.0 && if b[i].value == PosInf then |b| > 1 else b[i].value.r > 0.0
  }

  ghost function AtLeastOne(x: real): real { if x < 1.0 then 1.0 else x }

  ghost function Times(x: real, y: real): real { x * y }

  /** A bucket's amplified count: at least one, which a bucket that lost some needs. */
  ghost function Raised(b: seq<Centroid>, a: real, i: nat): real
    requires i < |b|
  {
    AtLeastOne(Times(Own(b, i), a))
  }

  ghost function If(c: bool, x: real): real { if c then x else 0.0 }

  /** What bucket i puts on the bound v: a quarter below, half of it between, and the rest above, all truncated. */
  ghost function PutOn(b: seq<Centroid>, a: real, i: nat, v: Bound): real
    requires i < |b|
  {
    var low, high, x := Below(b, i), Above(b, i), Raised(b, a, i);
    var quarter, half := (x / 4.0).Floor as real, (x / 2.0).Floor as real;
    If(v == low, quarter) + If(v == Between(low, high), half) + If(v == high, (x - quarter - half).Floor as real)
  }

  ghost function CountOn(b: seq<Centroid>, a: real, v: Bound, n: nat): real
    requires n <= |b|
  {
    if n == 0 then 0.0 else CountOn(b, a, v, n - 1) + If(Counting(b, n - 1), PutOn(b, a, n - 1, v))
  }

  ghost function TotalCount(b: seq<Centroid>, a: real, n: nat): real
    requires n <= |b|
  {
    if n == 0 then 0.0 else TotalCount(b, a, n - 1) + If(Counting(b, n - 1), Raised(b, a, n - 1).Floor as real)
  }

  ghost predicate Reaches(b: seq<Centroid>, i: nat, v: Bound)
    requires i < |b|
  {
    Counting(b, i) && (v == Below(b, i) || v == Above(b, i) || v == Between(Below(b, i), Above(b, i)))
  }

  // ---- The counts that the source builds up are these ------------------------------------------------

  ghost function On(v: Bound): (Bound, real) -> real {
    (k, c) => if k == v then c else 0.0
  }

  /** The first of several buckets is not a +Inf bucket that holds something, and there is no lone one. */
  ghost predicate Sound(b: seq<Centroid>) {
    b != [] && b[0].value == PosInf ==> |b| > 1 && b[0].count == 0.0
  }

  lemma SmoothsSound(b: seq<Centroid>)
    requires Smooth(Derive(b)).Some? && !OnlyInfinity(b)
    ensures Sound(b)
  {
    SmoothFails(Derive(b));
    assert b != [] ==> Derive(b)[0].value == b[0].value && Derive(b)[0].count == b[0].count;
  }

  lemma SameBounds(b: seq<Centroid>, i: nat)
    requires i < |b| && Sound(b)
    ensures Smoothing.Counted(Derive(b), i) <==> Counting(b, i)
    ensures Counting(b, i) ==> Low(Derive(b), i) == Below(b, i) && High(Derive(b), i) == Above(b, i)
  {
    SameOwn(b, i);
  }

  lemma SameAmplified(b: seq<Centroid>, a: real, i: nat)
    requires i < |b|
    ensures Amplified(Derive(b), Scale(a), i) == Raised(b, a, i)
  {
    SameOwn(b, i);
    SameRaised(Derive(b)[i].count, Own(b, i), a);
  }

  lemma SameOwn(b: seq<Centroid>, i: nat)
    requires i < |b|
    ensures Derive(b)[i].count == Own(b, i)
  {
  }

  lemma Scaled(c: real, a: real)
    ensures Scale(a)(c) == c * a
  {
  }

  lemma SameRaised(c: real, d: real, a: real)
    requires c == d
    ensures Max(1.0, Scale(a)(c)) == AtLeastOne(Times(d, a))
  {
    Scaled(c, a);
    var x := Scale(a)(c);
    assert Times(d, a) == x;
    assert Max(1.0, x) == AtLeastOne(x);
  }

  lemma SameSpread(b: seq<Centroid>, a: real, i: nat, v: Bound)
    requires i < |b|
    ensures SpreadBucket(Below(b, i), Above(b, i), Raised(b, a, i), On(v)) == PutOn(b, a, i, v)
  {
    SplitOfCount(Raised(b, a, i));
  }

  ghost function Share(s: seq<Centroid>, amp: real -> real, i: nat, f: (Bound, real) -> real): real
    requires i < |s|
  {
    if Smoothing.Counted(s, i) then SpreadBucket(Low(s, i), High(s, i), Amplified(s, amp, i), f) else 0.0
  }

  lemma ShareIs(b: seq<Centroid>, a: real, i: nat, v: Bound)
    requires i < |b| && Sound(b)
    ensures Share(Derive(b), Scale(a), i, On(v)) == If(Counting(b, i), PutOn(b, a, i, v))
  {
    SameBounds(b, i);
    SameAmplified(b, a, i);
    SameSpread(b, a, i, v);
  }

  lemma {:induction false} SpreadStep(s: seq<Centroid>, amp: real -> real, n: nat, f: (Bound, real) -> real)
    requires 0 < n <= |s|
    ensures SpreadSum(s, amp, n, f) == SpreadSum(s, amp, n - 1, f) + Share(s, amp, n - 1, f)
  {
  }

  lemma {:induction false} CountStep(b: seq<Centroid>, a: real, v: Bound, n: nat)
    requires 0 < n <= |b|
    ensures CountOn(b, a, v, n) == CountOn(b, a, v, n - 1) + If(Counting(b, n - 1), PutOn(b, a, n - 1, v))
  {
  }

  lemma {:induction false} SpreadIs(b: seq<Centroid>, a: real, n: nat, v: Bound)
    requires n <= |b| && Sound(b)
    ensures SpreadSum(Derive(b), Scale(a), n, On(v)) == CountOn(b, a, v, n)
  {
    if n > 0 {
      SpreadIs(b, a, n - 1, v);
      SpreadStep(Derive(b), Scale(a), n, On(v));
      CountStep(b, a, v, n);
      ShareIs(b, a, n - 1, v);
    }
  }

  lemma MassOfBucket(b: seq<Centroid>, a: real, i: nat)
    requires i < |b| && Sound(b)
    ensures (if Smoothing.Counted(Derive(b), i) then Amplified(Derive(b), Scale(a), i).Floor as real else 0.0)
         == If(Counting(b, i), Raised(b, a, i).Floor as real)
  {
    SameBounds(b, i);
    SameAmplified(b, a, i);
  }

  lemma {:induction false} MassIs(b: seq<Centroid>, a: real, n: nat)
    requires n <= |b| && Sound(b)
    ensures FloorMass(Derive(b), Scale(a), n) == TotalCount(b, a, n)
  {
    if n > 0 {
      MassIs(b, a, n - 1);
      MassOfBucket(b, a, n - 1);
    }
  }

  lemma {:induction false} NothingCounts(b: seq<Centroid>, a: real, v: Bound)
    requires OnlyInfinity(b)
    ensures CountOn(b, a, v, |b|) == 0.0 && TotalCount(b, a, |b|) == 0.0 && !Counting(b, 0)
  {
    assert CountOn(b, a, v, 0) == 0.0 && TotalCount(b, a, 0) == 0.0;
  }

  lemma {:induction false} SpreadEntryIs(b: seq<Centroid>, a: real, v: Bound)
    requires Sound(b)
    ensures At(Counts(Derive(b), Scale(a), |b|), v) == CountOn(b, a, v, |b|)
  {
    var s := Derive(b);
    SpreadIs(b, a, |b|, v);
    CountsWeighSpread(s, Scale(a), |s|, On(v));
    WeightedSumAt(Counts(s, Scale(a), |s|), On(v), v);
  }

  lemma {:induction false} SpreadReaches(b: seq<Centroid>, a: real, v: Bound)
    requires Sound(b)
    ensures v in Counts(Derive(b), Scale(a), |b|) <==> exists i :: 0 <= i < |b| && Reaches(b, i, v)
  {
    var s := Derive(b);
    CountsAreFedByBuckets(s, Scale(a), |s|, v);
    forall i | 0 <= i < |b| ensures FedBy(s, v, i) <==> Reaches(b, i, v) {
      SameBounds(b, i);
    }
  }

  lemma {:induction false} EntryIs(b: seq<Centroid>, a: real, v: Bound)
    requires Smooth(Derive(b)).Some? && RaisesLeastToOne(Derive(b), a)
    ensures At(SmoothCounts(Derive(b)), v) == CountOn(b, a, v, |b|)
    ensures v in SmoothCounts(Derive(b)) <==> exists i :: 0 <= i < |b| && Reaches(b, i, v)
  {
    AmplificationRaises(Derive(b), a);
    if OnlyInfinity(b) {
      NothingCounts(b, a, v);
    } else {
      SmoothsSound(b);
      SpreadEntryIs(b, a, v);
      SpreadReaches(b, a, v);
    }
  }

  ghost function Sum(s: seq<Centroid>): real {
    if s == [] then 0.0 else Sum(s[..|s| - 1]) + s[|s| - 1].count
  }

  lemma {:induction false} SumWeighs(s: seq<Centroid>)
    ensures Sum(s) == WeightOf(s, Mass)
  {
    if s != [] {
      SumWeighs(s[..|s| - 1]);
    }
  }

  /**
   * The frequencies of cumulative buckets, for the one factor that raises the least positive count to
   * one: a bound is there exactly if a bucket that counts has it below, above or between, its count is
   * what those buckets put on it, and the counts add up to what the buckets hold.
   */
  lemma {:induction false} FrequenciesAre(b: seq<Centroid>, out: seq<Centroid>, a: real)
    requires Smooth(Derive(b)).Some? && Lists(out, SmoothCounts(Derive(b))) && RaisesLeastToOne(Derive(b), a)
    ensures forall c :: c in out <==> c.count == CountOn(b, a, c.value, |b|) && exists i :: 0 <= i < |b| && Reaches(b, i, c.value)
    ensures Sum(out) == TotalCount(b, a, |b|)
  {
    forall c ensures c in out <==> c.count == CountOn(b, a, c.value, |b|) && exists i :: 0 <= i < |b| && Reaches(b, i, c.value) {
      Listed(out, SmoothCounts(Derive(b)), c);
      EntryIs(b, a, c.value);
    }
    TotalIs(b, out, a);
  }

  lemma Listed(out: seq<Centroid>, m: map<Bound, real>, c: Centroid)
    requires Lists(out, m)
    ensures c in out <==> c.value in m && At(m, c.value) == c.count
  {
    assert c in out <==> c in multiset(Items(m));
    assert c in Items(m) <==> c.value in m && m[c.value] == c.count;
  }

  lemma {:induction false} TotalIs(b: seq<Centroid>, out: seq<Centroid>, a: real)
    requires Smooth(Derive(b)).Some? && Lists(out, SmoothCounts(Derive(b))) && RaisesLeastToOne(Derive(b), a)
    ensures Sum(out) == TotalCount(b, a, |b|)
  {
    var s := Derive(b);
    SumWeighs(out);
    ListWeighsMap(out, SmoothCounts(s), Mass);
    AmplificationRaises(s, a);
    if OnlyInfinity(b) {
      NothingCounts(b, a, PosInf);
    } else {
      SmoothsSound(b);
      CountsWeighSpread(s, Scale(a), |s|, Mass);
      SpreadSumOfMass(s, Scale(a), |s|);
      MassIs(b, a, |b|);
    }
  }

  // ---- One output, of natural counts ---------------------------------------------------------------

  /**
   * What ToFrequency puts out for cumulative buckets: strictly sorted, natural counts, no two possible
   * outputs, and exactly the truncated mass that the buckets hold once the least is raised to one.
   */
  lemma {:induction false} FrequencyConservesMass(b: seq<Centroid>, out: seq<Centroid>, other: seq<Centroid>, a: real)
    requires Smooth(Derive(b)).Some? && RaisesLeastToOne(Derive(b), a)
    requires Sorted(out) && Lists(out, Smooth(Derive(b)).value)
    requires Sorted(other) && Lists(other, Smooth(Derive(b)).value)
    ensures out == other && StrictlyIncreasing(out)
    ensures forall i :: 0 <= i < |out| ==> IsNat(out[i].count)
    ensures Sum(out) == TotalCount(b, a, |b|)
  {
    var s := Derive(b);
    SmoothFails(s);
    SortedListingUnique(out, other, SmoothCounts(s));
    SortedListingIsStrict(out, SmoothCounts(s));
    CountsAreNatural(s, Scale(Amplification(s)), |s|);
    forall i | 0 <= i < |out| ensures IsNat(out[i].count) {
      Listed(out, SmoothCounts(s), out[i]);
    }
    TotalIs(b, out, a);
  }

  // ---- The first moment ------------------------------------------------------------------------------

  /** A finite bound as a number. */
  ghost function Number(v: Bound): real { if v.Finite? then v.r else 0.0 }

  ghost function Moment(s: seq<Centroid>): real {
    if s == [] then 0.0 else Moment(s[..|s| - 1]) + Number(s[|s| - 1].value) * s[|s| - 1].count
  }

  ghost function InTheMiddle(low: Bound, high: Bound, x: real): real {
    x.Floor as real * ((Number(low) + Number(high)) / 2.0)
  }

  /** The first moment, were all that a bucket holds in the middle between its bounds. */
  ghost function MiddleMoment(b: seq<Centroid>, a: real, n: nat): real
    requires n <= |b|
  {
    if n == 0 then 0.0
    else
      MiddleMoment(b, a, n - 1)
      + If(Counting(b, n - 1), InTheMiddle(Below(b, n - 1), Above(b, n - 1), Raised(b, a, n - 1)))
  }

  /** The widths of the buckets that count. */
  ghost function Widths(b: seq<Centroid>, n: nat): real
    requires n <= |b|
  {
    if n == 0 then 0.0 else Widths(b, n - 1) + If(Counting(b, n - 1), Number(Above(b, n - 1)) - Number(Below(b, n - 1)))
  }

  lemma {:induction false} MomentWeighs(s: seq<Centroid>)
    ensures Moment(s) == WeightOf(s, FirstMoment)
  {
    if s != [] {
      MomentWeighs(s[..|s| - 1]);
    }
  }

  lemma SameMiddle(low: Bound, high: Bound, x: real)
    ensures BucketMidpoint(low, high, x) == InTheMiddle(low, high, x)
  {
    assert Number(low) + Number(high) == high.Num() + low.Num();
  }

  lemma {:induction false} MiddleIs(b: seq<Centroid>, a: real, n: nat)
    requires n <= |b| && Sound(b)
    ensures MidpointMoment(Derive(b), Scale(a), n) == MiddleMoment(b, a, n)
  {
    if n > 0 {
      MiddleIs(b, a, n - 1);
      SameMiddle(Below(b, n - 1), Above(b, n - 1), Raised(b, a, n - 1));
      SameBounds(b, n - 1);
      SameAmplified(b, a, n - 1);
    }
  }

  lemma {:induction false} WidthsAre(b: seq<Centroid>, n: nat)
    requires n <= |b| && Sound(b)
    ensures CountedWidth(Derive(b), n) == Widths(b, n)
  {
    if n > 0 {
      WidthsAre(b, n - 1);
      SameBounds(b, n - 1);
    }
  }

  /** Every output bound is finite, and the first moment is off by at most one width a bucket, upwards. */
  lemma {:induction false} FrequencyBiasIsBounded(b: seq<Centroid>, out: seq<Centroid>, a: real)
    requires StrictlyIncreasing(b) && !OnlyInfinity(b) && RaisesLeastToOne(Derive(b), a)
    requires Lists(out, SmoothCounts(Derive(b)))
    ensures Smooth(Derive(b)) == Some(SmoothCounts(Derive(b)))
    ensures forall i :: 0 <= i < |out| ==> out[i].value.Finite?
    ensures 0.0 <= Moment(out) - MiddleMoment(b, a, |b|) <= Widths(b, |b|)
  {
    var s := Derive(b);
    assert StrictlyIncreasing(s);
    StrictBoundsAreSafe(s);
    SmoothFails(s);
    FiniteBounds(s, out);
    AmplificationRaises(s, a);
    SmoothsSound(b);
    BiasOf(b, out, a);
  }

  lemma {:induction false} FiniteBounds(s: seq<Centroid>, out: seq<Centroid>)
    requires StrictlyIncreasing(s) && !OnlyInfinity(s) && Lists(out, SmoothCounts(s))
    ensures forall i :: 0 <= i < |out| ==> out[i].value.Finite?
  {
    StrictBoundsAreSafe(s);
    forall i | 0 <= i < |out| ensures out[i].value.Finite? {
      Listed(out, SmoothCounts(s), out[i]);
      CountsAreFedByBuckets(s, Scale(Amplification(s)), |s|, out[i].value);
    }
  }

  lemma {:induction false} BiasOf(b: seq<Centroid>, out: seq<Centroid>, a: real)
    requires StrictlyIncreasing(b) && !OnlyInfinity(b) && Sound(b) && a == Amplification(Derive(b))
    requires Lists(out, SmoothCounts(Derive(b)))
    ensures 0.0 <= Moment(out) - MiddleMoment(b, a, |b|) <= Widths(b, |b|)
  {
    var s := Derive(b);
    MomentWeighs(out);
    ListWeighsMap(out, SmoothCounts(s), FirstMoment);
    MomentIsAdditive();
    CountsWeighSpread(s, Scale(a), |s|, FirstMoment);
    MomentBias(s, Scale(a), |s|);
    MiddleIs(b, a, |b|);
    WidthsAre(b, |b|);
  }

  lemma MomentIsAdditive()
    ensures Additive(FirstMoment)
  {
    forall v: Bound, c, d ensures FirstMoment(v, c) + FirstMoment(v, d) == FirstMoment(v, c + d) {
      Distribute(c, d, v.Num());
    }
  }
}
