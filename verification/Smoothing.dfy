/** smoothCentroids of internal/wf/distribution.go: each bucket is spread over three points. */
module Smoothing {
  import opened Options
  import opened WeightedSums
  import opened Buckets

  // ---- Amplification ---------------------------------------------------------------------------

  function Smallest(s: seq<Centroid>): (m: real)
    ensures 0.0 < m <= MAX_FLOAT64
    ensures forall i :: 0 <= i < |s| && s[i].count > 0.0 ==> m <= s[i].count
  {
    if s == [] then MAX_FLOAT64
    else
      var last := s[|s| - 1].count;
      var rest := Smallest(s[..|s| - 1]);
      assert forall i :: 0 <= i < |s| - 1 ==> s[i] == s[..|s| - 1][i];
      if last > 0.0 && last < rest then last else rest
  }

  /** The last clauses say which number it is: an attained count, below every other positive count. */
  method SmallestCountAboveZero(centroids: array<Centroid>) returns (minCount: real)
    ensures minCount == Smallest(centroids[..])
    ensures forall c :: c in centroids[..] && c.count > 0.0 ==> minCount <= c.count
    ensures minCount == MAX_FLOAT64 || exists c :: c in centroids[..] && c.count == minCount > 0.0
  {
    minCount := MAX_FLOAT64;
    for i := 0 to centroids.Length
      invariant minCount == Smallest(centroids[..i])
      invariant minCount == MAX_FLOAT64 || exists c :: c in centroids[..i] && c.count == minCount > 0.0
    {
      assert centroids[..i + 1][..i] == centroids[..i];
      assert centroids[i] in centroids[..i + 1];
      if centroids[i].count > 0.0 && centroids[i].count < minCount {
        minCount := centroids[i].count;
      }
    }
    assert centroids[..] == centroids[..centroids.Length];
  }

  function Amplification(s: seq<Centroid>): (a: real)
    ensures a >= 1.0
  {
    Max(1.0, 1.0 / Smallest(s))
  }

  /** Multiplication by a, kept as a function value: the spread below does not depend on what it is. */
  function Scale(a: real): real -> real {
    c => c * a
  }

  /** A bucket with a positive count is amplified to at least one; the clamp only acts on negative counts. */
  lemma PositiveBucketsNeedNoClamp(s: seq<Centroid>, i: nat)
    requires i < |s| && s[i].count > 0.0
    ensures s[i].count * Amplification(s) >= 1.0
  {
    var c, m, a := s[i].count, Smallest(s), Amplification(s);
    MultiplyAtLeast(c, m, a);
  }

  lemma MultiplyAtLeast(c: real, m: real, a: real)
    requires 0.0 < m <= c && a >= 1.0 / m
    ensures c * a >= 1.0
  {
    assert m * (1.0 / m) == 1.0;
    assert m * a >= m * (1.0 / m);
    assert c * a >= m * a;
  }

  /** Of the positive counts, that of bucket i is the least. */
  ghost predicate LeastAt(s: seq<Centroid>, i: nat)
    requires i < |s|
  {
    s[i].count > 0.0 && forall j :: 0 <= j < |s| && s[j].count > 0.0 ==> s[i].count <= s[j].count
  }

  /** What the factor is for: the least positive count becomes one, unless it is that or more. */
  ghost predicate RaisesLeastToOne(s: seq<Centroid>, a: real) {
    && (forall i :: 0 <= i < |s| && LeastAt(s, i) ==> s[i].count * a == if s[i].count < 1.0 then 1.0 else s[i].count)
    && ((forall i :: 0 <= i < |s| ==> s[i].count <= 0.0) ==> a == 1.0)
  }

  /** The place of the least positive count, -1 if there is none. */
  lemma {:induction false} LeastOf(s: seq<Centroid>) returns (i: int)
    ensures -1 <= i < |s|
    ensures i >= 0 ==> LeastAt(s, i) && Smallest(s) == if s[i].count < MAX_FLOAT64 then s[i].count else MAX_FLOAT64
    ensures i == -1 ==> Smallest(s) == MAX_FLOAT64 && forall j :: 0 <= j < |s| ==> s[j].count <= 0.0
  {
    if s == [] {
      i := -1;
    } else {
      var rest, last := s[..|s| - 1], s[|s| - 1].count;
      i := LeastOf(rest);
      if last > 0.0 && (i == -1 || last < s[i].count) {
        i := |s| - 1;
      }
    }
  }

  /** The maximum of one and the reciprocal is that factor, and no other number is. */
  lemma {:induction false} AmplificationRaises(s: seq<Centroid>, a: real)
    ensures RaisesLeastToOne(s, a) <==> a == Amplification(s)
  {
    var i := LeastOf(s);
    if i >= 0 {
      LeastFactor(s, a, Smallest(s), i);
    } else {
      NoFactor(s, a, Smallest(s));
    }
  }

  lemma LeastFactor(s: seq<Centroid>, a: real, m: real, i: nat)
    requires i < |s| && LeastAt(s, i) && m == if s[i].count < MAX_FLOAT64 then s[i].count else MAX_FLOAT64
    ensures RaisesLeastToOne(s, a) <==> a == Max(1.0, 1.0 / m)
  {
    OneLeast(s, i, a);
    OneFactor(s[i].count, m, a);
  }

  lemma NoFactor(s: seq<Centroid>, a: real, m: real)
    requires m == MAX_FLOAT64 && forall j :: 0 <= j < |s| ==> s[j].count <= 0.0
    ensures RaisesLeastToOne(s, a) <==> a == Max(1.0, 1.0 / m)
  {
  }

  lemma OneLeast(s: seq<Centroid>, i: nat, a: real)
    requires i < |s| && LeastAt(s, i)
    ensures var c := s[i].count; RaisesLeastToOne(s, a) <==> c * a == if c < 1.0 then 1.0 else c
  {
    forall j | 0 <= j < |s| && LeastAt(s, j) ensures s[j].count == s[i].count {
      assert s[i].count <= s[j].count <= s[i].count;
    }
  }

  lemma OneFactor(c: real, m: real, a: real)
    requires c > 0.0 && m == if c < MAX_FLOAT64 then c else MAX_FLOAT64
    ensures c * a == (if c < 1.0 then 1.0 else c) <==> a == Max(1.0, 1.0 / m)
  {
    if c < 1.0 {
      assert c * (1.0 / c) == 1.0;
      SameFactor(c, a, 1.0 / c);
    } else {
      SameFactor(c, a, 1.0);
    }
  }

  lemma SameFactor(c: real, a: real, b: real)
    requires c > 0.0
    ensures c * a == c * b <==> a == b
  {
  }

  // ---- Where the mass of one bucket goes -------------------------------------------------------

  /** Buckets with a bound that is not positive, and empty ones, are skipped. */
  predicate Counted(s: seq<Centroid>, i: nat)
    requires i < |s|
  {
    s[i].value.AboveZero() && s[i].count != 0.0
  }

  /** Reading derivedCentroids[j].Value; None is the index out of range. */
  function ValueAt(s: seq<Centroid>, j: int): Option<Bound> {
    if 0 <= j < |s| then Some(s[j].value) else None
  }

  /** The upper point of a counted bucket: for +Inf, the bound before it. */
  function HighAt(s: seq<Centroid>, i: nat): Option<Bound>
    requires i < |s|
  {
    if s[i].value == PosInf then ValueAt(s, i - 1) else Some(s[i].value)
  }

  /** A counted +Inf bucket does not come first, unless it is alone. */
  predicate Safe(s: seq<Centroid>) {
    |s| > 1 && s[0].value == PosInf ==> s[0].count == 0.0
  }

  function Low(s: seq<Centroid>, i: nat): Bound
    requires i < |s|
  {
    if i > 0 then s[i - 1].value else Finite(0.0)
  }

  function High(s: seq<Centroid>, i: nat): Bound
    requires i < |s|
  {
    if s[i].value == PosInf && i > 0 then s[i - 1].value else s[i].value
  }

  function Amplified(s: seq<Centroid>, amp: real -> real, i: nat): real
    requires i < |s|
  {
    Max(1.0, amp(s[i].count))
  }

  function LowerCount(x: real): real { Trunc(x / 4.0) }
  function MiddleCount(x: real): real { Trunc(x / 2.0) }
  function UpperCount(x: real): real { Trunc(x - LowerCount(x) - MiddleCount(x)) }

  /** The split loses only the fraction, keeps natural counts, and leans at most two counts upwards. */
  lemma SplitOfCount(x: real)
    requires x >= 1.0
    ensures LowerCount(x) + MiddleCount(x) + UpperCount(x) == x.Floor as real
    ensures IsNat(LowerCount(x)) && IsNat(MiddleCount(x)) && IsNat(UpperCount(x))
    ensures 0.0 <= UpperCount(x) - LowerCount(x) <= 2.0
  {
    var lower, middle := (x / 4.0).Floor, (x / 2.0).Floor;
    assert x / 4.0 >= 0.0 && x / 2.0 >= 0.0;
    assert lower as real <= x / 4.0 < lower as real + 1.0;
    assert middle as real <= x / 2.0 < middle as real + 1.0;
    var rest := x - lower as real - middle as real;
    assert rest >= 0.0;
    assert rest.Floor == x.Floor - lower - middle;
    assert 4 * lower <= x.Floor < 4 * lower + 4;
    assert 2 * middle <= x.Floor < 2 * middle + 2;
  }

  // ---- The counts map --------------------------------------------------------------------------

  function DepositThree(m: map<Bound, real>, low: Bound, mid: Bound, high: Bound, l: real, c: real, u: real): map<Bound, real> {
    Deposit(Deposit(Deposit(m, low, l), mid, c), high, u)
  }

  function DepositBucket(m: map<Bound, real>, low: Bound, high: Bound, x: real): map<Bound, real> {
    DepositThree(m, low, high.Mid(low), high, LowerCount(x), MiddleCount(x), UpperCount(x))
  }

  /** centroidCounts after the first n buckets. */
  function Counts(s: seq<Centroid>, amp: real -> real, n: nat): map<Bound, real>
    requires n <= |s|
  {
    if n == 0 then map[]
    else if Counted(s, n - 1) then DepositBucket(Counts(s, amp, n - 1), Low(s, n - 1), High(s, n - 1), Amplified(s, amp, n - 1))
    else Counts(s, amp, n - 1)
  }

  function SmoothCounts(s: seq<Centroid>): map<Bound, real> {
    if |s| == 1 && s[0].value == PosInf then map[] else Counts(s, Scale(Amplification(s)), |s|)
  }

  /** The loop with the failure that the program meets: None after an index out of range. */
  function Spread(s: seq<Centroid>, amp: real -> real, n: nat): Option<map<Bound, real>>
    requires n <= |s|
  {
    if n == 0 then Some(map[])
    else
      match Spread(s, amp, n - 1)
      case None => None
      case Some(m) =>
        if !Counted(s, n - 1) then Some(m)
        else
          match HighAt(s, n - 1)
          case None => None
          case Some(high) => Some(DepositBucket(m, Low(s, n - 1), high, Amplified(s, amp, n - 1)))
  }

  function Smooth(s: seq<Centroid>): Option<map<Bound, real>> {
    if |s| == 1 && s[0].value == PosInf then Some(map[]) else Spread(s, Scale(Amplification(s)), |s|)
  }

  lemma {:induction false} SpreadFails(s: seq<Centroid>, amp: real -> real, n: nat)
    requires n <= |s|
    ensures Spread(s, amp, n) == if n > 0 && s[0].value == PosInf && s[0].count != 0.0 then None else Some(Counts(s, amp, n))
  {
    if n > 0 {
      SpreadFails(s, amp, n - 1);
    }
  }

  /** Smoothing fails exactly when a first bucket of several is +Inf and not empty; else it yields the counts. */
  lemma SmoothFails(s: seq<Centroid>)
    ensures Smooth(s) == None <==> |s| > 1 && s[0].value == PosInf && s[0].count != 0.0
    ensures Smooth(s).Some? ==> Smooth(s).value == SmoothCounts(s)
  {
    SpreadFails(s, Scale(Amplification(s)), |s|);
  }

  /** Counts weighed as they are: the total mass. */
  ghost const Mass: (Bound, real) -> real := (v, c) => c

  /** Counts weighed by their bound: the first moment. */
  ghost const FirstMoment: (Bound, real) -> real := (v: Bound, c: real) => v.Num() * c

  /** What one bucket weighs. */
  ghost function SpreadThree(low: Bound, mid: Bound, high: Bound, l: real, c: real, u: real, f: (Bound, real) -> real): real {
    f(low, l) + f(mid, c) + f(high, u)
  }

  ghost function SpreadBucket(low: Bound, high: Bound, x: real, f: (Bound, real) -> real): real {
    SpreadThree(low, high.Mid(low), high, LowerCount(x), MiddleCount(x), UpperCount(x), f)
  }

  lemma {:induction false} DepositThreeWeighs(m: map<Bound, real>, low: Bound, mid: Bound, high: Bound, l: real, c: real, u: real,
                                              f: (Bound, real) -> real)
    requires Additive(f)
    ensures WeightedSum(DepositThree(m, low, mid, high, l, c, u), f) == WeightedSum(m, f) + SpreadThree(low, mid, high, l, c, u, f)
  {
    DepositTwoWeighs(m, low, l, mid, c, f);
    WeightedSumDeposit(Deposit(Deposit(m, low, l), mid, c), f, high, u);
  }

  lemma {:induction false} DepositTwoWeighs(m: map<Bound, real>, j: Bound, c: real, k: Bound, d: real, f: (Bound, real) -> real)
    requires Additive(f)
    ensures WeightedSum(Deposit(Deposit(m, j, c), k, d), f) == WeightedSum(m, f) + f(j, c) + f(k, d)
  {
    WeightedSumDeposit(m, f, j, c);
    WeightedSumDeposit(Deposit(m, j, c), f, k, d);
  }

  lemma DepositThreeNatural(m: map<Bound, real>, low: Bound, mid: Bound, high: Bound, l: real, c: real, u: real)
    requires IsNat(l) && IsNat(c) && IsNat(u)
    requires forall v :: v in m ==> IsNat(m[v])
    ensures var d := DepositThree(m, low, mid, high, l, c, u); forall v :: v in d ==> IsNat(d[v])
  {
    DepositNatural(m, low, l);
    DepositNatural(Deposit(m, low, l), mid, c);
    DepositNatural(Deposit(Deposit(m, low, l), mid, c), high, u);
  }

  lemma DepositNatural(m: map<Bound, real>, k: Bound, c: real)
    requires IsNat(c) && forall v :: v in m ==> IsNat(m[v])
    ensures forall v :: v in Deposit(m, k, c) ==> IsNat(Deposit(m, k, c)[v])
  {
    NatSum(At(m, k), c);
  }

  lemma NatSum(x: real, y: real)
    requires IsNat(x) && IsNat(y)
    ensures IsNat(x + y)
  {
    var n := x.Floor + y.Floor;
    FloorOfInt(n);
    assert x + y == n as real;
  }

  lemma FloorOfInt(n: int)
    ensures (n as real).Floor == n
  {
  }

  /** The same spread, bucket by bucket, seen through an arbitrary additive weight. */
  ghost function SpreadSum(s: seq<Centroid>, amp: real -> real, n: nat, f: (Bound, real) -> real): real
    requires n <= |s|
  {
    if n == 0 then 0.0
    else if Counted(s, n - 1) then
      SpreadSum(s, amp, n - 1, f) + SpreadBucket(Low(s, n - 1), High(s, n - 1), Amplified(s, amp, n - 1), f)
    else SpreadSum(s, amp, n - 1, f)
  }

  /**
   * Colliding deposits add up: for every additive weight, the map weighs what the buckets put in.
   * Weighing a single bound gives the entry there, Mass the total count, FirstMoment the moment.
   */
  lemma {:induction false} CountsWeighSpread(s: seq<Centroid>, amp: real -> real, n: nat, f: (Bound, real) -> real)
    requires Additive(f)
    requires n <= |s|
    ensures WeightedSum(Counts(s, amp, n), f) == SpreadSum(s, amp, n, f)
  {
    if n > 0 {
      CountsWeighSpread(s, amp, n - 1, f);
      if Counted(s, n - 1) {
        var x := Amplified(s, amp, n - 1);
        DepositThreeWeighs(Counts(s, amp, n - 1), Low(s, n - 1), High(s, n - 1).Mid(Low(s, n - 1)), High(s, n - 1),
                           LowerCount(x), MiddleCount(x), UpperCount(x), f);
      }
    }
  }

  /** Sum of floor(max(1, amplified count)) over the counted buckets. */
  ghost function FloorMass(s: seq<Centroid>, amp: real -> real, n: nat): real
    requires n <= |s|
  {
    if n == 0 then 0.0
    else FloorMass(s, amp, n - 1) + if Counted(s, n - 1) then Amplified(s, amp, n - 1).Floor as real else 0.0
  }

  lemma OneBucketMass(low: Bound, high: Bound, x: real)
    requires x >= 1.0
    ensures SpreadBucket(low, high, x, Mass) == x.Floor as real
  {
    SplitOfCount(x);
  }

  lemma {:induction false} SpreadSumOfMass(s: seq<Centroid>, amp: real -> real, n: nat)
    requires n <= |s|
    ensures SpreadSum(s, amp, n, Mass) == FloorMass(s, amp, n)
  {
    if n > 0 {
      SpreadSumOfMass(s, amp, n - 1);
      OneBucketMass(Low(s, n - 1), High(s, n - 1), Amplified(s, amp, n - 1));
    }
  }

  /** Every entry is a natural number. */
  lemma {:induction false} CountsAreNatural(s: seq<Centroid>, amp: real -> real, n: nat)
    requires n <= |s|
    ensures forall v :: v in Counts(s, amp, n) ==> IsNat(Counts(s, amp, n)[v])
  {
    if n > 0 {
      CountsAreNatural(s, amp, n - 1);
      var x := Amplified(s, amp, n - 1);
      SplitOfCount(x);
      DepositThreeNatural(Counts(s, amp, n - 1), Low(s, n - 1), High(s, n - 1).Mid(Low(s, n - 1)), High(s, n - 1),
                          LowerCount(x), MiddleCount(x), UpperCount(x));
    }
  }

  /** Each bucket feeds its own lower bound, midpoint and upper bound, and nothing else. */
  ghost predicate FedBy(s: seq<Centroid>, v: Bound, i: nat)
    requires i < |s|
  {
    Counted(s, i) && (v == Low(s, i) || v == High(s, i) || v == High(s, i).Mid(Low(s, i)))
  }

  lemma {:induction false} CountsAreFedByBuckets(s: seq<Centroid>, amp: real -> real, n: nat, v: Bound)
    requires n <= |s|
    ensures v in Counts(s, amp, n) <==> exists i :: 0 <= i < n && FedBy(s, v, i)
  {
    if n > 0 {
      CountsAreFedByBuckets(s, amp, n - 1, v);
      assert v in Counts(s, amp, n) <==> v in Counts(s, amp, n - 1) || FedBy(s, v, n - 1);
    }
  }

  // ---- Bias of the first moment ----------------------------------------------------------------

  lemma StrictBoundsAreSafe(s: seq<Centroid>)
    requires StrictlyIncreasing(s)
    ensures Safe(s)
    ensures |s| > 1 ==> forall i :: 0 <= i < |s| ==> Low(s, i).Finite? && High(s, i).Finite?
  {
    if |s| > 1 {
      assert s[0].value.Less(s[1].value);
      forall i | 0 < i < |s|
        ensures Low(s, i).Finite? && High(s, i).Finite?
      {
        assert s[i - 1].value.Less(s[i].value);
      }
    }
  }

  function Width(s: seq<Centroid>, i: nat): real
    requires i < |s|
  {
    High(s, i).Num() - Low(s, i).Num()
  }

  function BucketMidpoint(low: Bound, high: Bound, x: real): real {
    x.Floor as real * ((high.Num() + low.Num()) / 2.0)
  }

  /** The moment if all of a bucket's mass sat on its midpoint. */
  ghost function MidpointMoment(s: seq<Centroid>, amp: real -> real, n: nat): real
    requires n <= |s|
  {
    if n == 0 then 0.0
    else if Counted(s, n - 1) then
      MidpointMoment(s, amp, n - 1) + BucketMidpoint(Low(s, n - 1), High(s, n - 1), Amplified(s, amp, n - 1))
    else MidpointMoment(s, amp, n - 1)
  }

  ghost function CountedWidth(s: seq<Centroid>, n: nat): real
    requires n <= |s|
  {
    if n == 0 then 0.0
    else CountedWidth(s, n - 1) + if Counted(s, n - 1) then Width(s, n - 1) else 0.0
  }

  lemma BucketBias(low: Bound, high: Bound, x: real)
    requires low.Finite? && high.Finite? && low.r <= high.r && x >= 1.0
    ensures 0.0 <= SpreadBucket(low, high, x, FirstMoment) - BucketMidpoint(low, high, x) <= high.r - low.r
  {
    SplitOfCount(x);
    SplitBias(low, high, LowerCount(x), MiddleCount(x), UpperCount(x));
  }

  lemma SplitBias(low: Bound, high: Bound, l: real, m: real, u: real)
    requires low.Finite? && high.Finite? && low.r <= high.r && 0.0 <= u - l <= 2.0
    ensures 0.0 <= SpreadThree(low, high.Mid(low), high, l, m, u, FirstMoment)
                   - (l + m + u) * ((high.r + low.r) / 2.0) <= high.r - low.r
  {
    var half, mid := (high.r - low.r) / 2.0, (high.r + low.r) / 2.0;
    assert low.r == mid - half && high.r == mid + half;
    RealBias(mid, half, l, m, u);
    AtMostTwice(half, u - l);
  }

  lemma RealBias(mid: real, half: real, l: real, m: real, u: real)
    ensures (mid - half) * l + mid * m + (mid + half) * u - (l + m + u) * mid == half * (u - l)
  {
    var ml, mm, mu, hl, hu := mid * l, mid * m, mid * u, half * l, half * u;
    assert (mid - half) * l == ml - hl by { Distribute(mid, -half, l); }
    assert (mid + half) * u == mu + hu by { Distribute(mid, half, u); }
    assert (l + m + u) * mid == ml + mm + mu by { Distribute(l, m, mid); Distribute(l + m, u, mid); }
    assert half * (u - l) == hu - hl by { Distribute(u, -l, half); }
  }

  lemma Distribute(x: real, y: real, z: real)
    ensures (x + y) * z == x * z + y * z
  {
  }

  lemma AtMostTwice(half: real, d: real)
    requires half >= 0.0 && 0.0 <= d <= 2.0
    ensures 0.0 <= half * d <= half * 2.0
  {
  }

  lemma {:induction false} MomentBias(s: seq<Centroid>, amp: real -> real, n: nat)
    requires StrictlyIncreasing(s) && n <= |s|
    requires |s| == 1 ==> s[0].value.Finite?
    ensures 0.0 <= SpreadSum(s, amp, n, FirstMoment) - MidpointMoment(s, amp, n) <= CountedWidth(s, n)
  {
    if n > 0 {
      MomentBias(s, amp, n - 1);
      if Counted(s, n - 1) {
        StrictBoundsAreSafe(s);
        assert n > 1 ==> s[n - 2].value.Less(s[n - 1].value);
        BucketBias(Low(s, n - 1), High(s, n - 1), Amplified(s, amp, n - 1));
      }
    }
  }
}
