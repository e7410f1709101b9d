/** Roll-up conserves sums, whatever order the sets are visited in. */
module RollUpSums {
  import opened Options
  import opened MapOrders
  import opened ResourceKeys
  import opened MetricSets
  import opened RollUps
  import opened WeightedSums

  type Sets = map<ResourceKey, SetView>
  type Values = map<string, Value>

  function AmountIn(values: Values, m: string): real {
    if m in values then Amount(values[m]) else 0.0
  }

  function IntIn(values: Values, m: string): int {
    if m in values then values[m].intValue else 0
  }

  /** The values of the set at k, none when there is no such set. */
  function ValuesAt(s: Sets, k: ResourceKey): Values {
    if k in s then s[k].values else map[]
  }

  /** Every value of these metrics has the metric's one type. */
  predicate Typed(values: Values, names: seq<string>, ty: map<string, ValueType>) {
    forall m :: m in names && m in values ==> m in ty && values[m].valueType == ty[m]
  }

  ghost predicate AllTyped(s: Sets, names: seq<string>, ty: map<string, ValueType>) {
    forall k :: k in s ==> Typed(s[k].values, names, ty)
  }

  predicate SpecOk(spec: AggregateSpec) {
    Sensible(spec) && Once(spec.sumMetrics) && spec.countMetric !in spec.sumMetrics
  }

  // ---- One member and its group -------------------------------------------------------------------

  /** d is dst with the first n metrics of src added. */
  ghost predicate Added(src: Values, dst: Values, d: Values, names: seq<string>, n: nat)
    requires n <= |names|
  {
    && (forall m :: m in names[..n] ==> AmountIn(d, m) == AmountIn(dst, m) + AmountIn(src, m) && (m in d <==> m in dst || m in src))
    && (forall m :: m !in names[..n] ==> (m in d <==> m in dst) && (m in d ==> d[m] == dst[m]))
  }

  lemma {:induction false} SumIntoAdds(src: Values, dst: Values, names: seq<string>, n: nat, ty: map<string, ValueType>)
    requires n <= |names| && Once(names) && Typed(src, names, ty) && Typed(dst, names, ty)
    ensures var r := SumInto(src, dst, names, n);
      r.Some? && Added(src, dst, r.value, names, n) && Typed(r.value, names, ty)
  {
    if n > 0 {
      SumIntoAdds(src, dst, names, n - 1, ty);
      var d, m := SumInto(src, dst, names, n - 1).value, names[n - 1];
      assert names[..n] == names[..n - 1] + [m];
      assert m !in names[..n - 1];
      SumOneAdds(src, dst, d, names, n, ty);
    }
  }

  lemma SumOneAdds(src: Values, dst: Values, d: Values, names: seq<string>, n: nat, ty: map<string, ValueType>)
    requires 0 < n <= |names| && Typed(src, names, ty) && Typed(d, names, ty) && Added(src, dst, d, names, n - 1)
    requires names[..n] == names[..n - 1] + [names[n - 1]] && names[n - 1] !in names[..n - 1]
    ensures var r := SumOne(src, d, names[n - 1]);
      r.Some? && Added(src, dst, r.value, names, n) && Typed(r.value, names, ty)
  {
    var m := names[n - 1];
    assert m in names;
    assert (m in d <==> m in dst) && (m in d ==> d[m] == dst[m]);
  }

  /** What merging a member does to the values of its group. */
  ghost predicate Joined(spec: AggregateSpec, src: Values, dst: Values, d: Values) {
    && (forall m :: m in spec.sumMetrics ==> AmountIn(d, m) == AmountIn(dst, m) + AmountIn(src, m) && (m in d <==> m in dst || m in src))
    && spec.countMetric in d && IntIn(d, spec.countMetric) == IntIn(dst, spec.countMetric) + CountIn(src, spec.countMetric)
    && Others(spec, dst, d)
  }

  ghost predicate Others(spec: AggregateSpec, dst: Values, d: Values) {
    forall m :: m !in spec.sumMetrics && m != spec.countMetric ==> (m in d <==> m in dst) && (m in d ==> d[m] == dst[m])
  }

  lemma MergedJoins(spec: AggregateSpec, src: Values, dst: Values, ty: map<string, ValueType>)
    requires SpecOk(spec) && Typed(src, spec.sumMetrics, ty) && Typed(dst, spec.sumMetrics, ty)
    ensures var r := Merged(spec, src, dst);
      r.Some? && Joined(spec, src, dst, r.value) && Typed(r.value, spec.sumMetrics, ty)
  {
    var names, c := spec.sumMetrics, Counted(src, dst, spec.countMetric);
    SumIntoAdds(src, c, names, |names|, ty);
    assert names[..|names|] == names;
  }

  // ---- One pass -------------------------------------------------------------------------------------

  predicate Joins(spec: AggregateSpec, v: SetView, g: ResourceKey) {
    IsPartOfGroup(spec.members, v) && GroupKey(spec.grouping, v) == Some(g)
  }

  predicate JoinerIn(spec: AggregateSpec, s: Sets, seen: set<ResourceKey>, g: ResourceKey, k: ResourceKey) {
    k in seen && k in s && Joins(spec, s[k], g)
  }

  /** The amounts of one metric in the members of group g among the visited keys. */
  ghost function Share(spec: AggregateSpec, s: Sets, seen: set<ResourceKey>, g: ResourceKey, m: string): map<ResourceKey, real> {
    map k | k in seen && JoinerIn(spec, s, seen, g, k) :: AmountOf(s[k], m)
  }

  /** The counts of those members. */
  ghost function Counts(spec: AggregateSpec, s: Sets, seen: set<ResourceKey>, g: ResourceKey): map<ResourceKey, real> {
    map k | k in seen && JoinerIn(spec, s, seen, g, k) :: CountIn(s[k].values, spec.countMetric) as real
  }

  /** What visiting the keys of seen has made of group g. */
  ghost predicate GroupGrown(spec: AggregateSpec, s0: Sets, seen: set<ResourceKey>, s: Sets, g: ResourceKey) {
    && (g in s <==> g in s0 || exists k :: JoinerIn(spec, s0, seen, g, k))
    && (forall m :: m in spec.sumMetrics ==> MetricGrown(spec, s0, seen, s, g, m))
    && IntIn(ValuesAt(s, g), spec.countMetric) as real == IntIn(ValuesAt(s0, g), spec.countMetric) as real + Total(Counts(spec, s0, seen, g))
    && (spec.countMetric in ValuesAt(s, g) <==> spec.countMetric in ValuesAt(s0, g) || exists k :: JoinerIn(spec, s0, seen, g, k))
    && Others(spec, ValuesAt(s0, g), ValuesAt(s, g))
  }

  ghost predicate MetricGrown(spec: AggregateSpec, s0: Sets, seen: set<ResourceKey>, s: Sets, g: ResourceKey, m: string) {
    && AmountIn(ValuesAt(s, g), m) == AmountIn(ValuesAt(s0, g), m) + Total(Share(spec, s0, seen, g, m))
    && (m in ValuesAt(s, g) <==> m in ValuesAt(s0, g) || exists k :: JoinerIn(spec, s0, seen, g, k) && m in s0[k].values)
  }

  /** What visiting the keys of seen has made of the batch. */
  ghost predicate Grown(spec: AggregateSpec, s0: Sets, seen: set<ResourceKey>, s: Sets) {
    && Untouched(spec, s0, s)
    && (forall g :: IsGroupKey(spec.grouping, g) ==> GroupGrown(spec, s0, seen, s, g))
  }

  /** Sets that are no groups stay as they are, and groups keep their labels. */
  ghost predicate Untouched(spec: AggregateSpec, s0: Sets, s: Sets) {
    && (forall k :: !IsGroupKey(spec.grouping, k) ==> (k in s <==> k in s0) && (k in s ==> s[k] == s0[k]))
    && (forall g :: g in s0 ==> g in s && s[g].labels == s0[g].labels)
  }

  lemma NothingGrown(spec: AggregateSpec, s: Sets)
    ensures Grown(spec, s, {}, s)
  {
    forall g ensures GroupGrown(spec, s, {}, s, g) {
      forall m ensures Share(spec, s, {}, g, m) == map[] {
      }
      assert Counts(spec, s, {}, g) == map[];
    }
  }

  /** Visiting a key that is no member changes no share. */
  lemma SeenWithout(spec: AggregateSpec, s0: Sets, seen: set<ResourceKey>, k: ResourceKey, s: Sets, g: ResourceKey)
    requires GroupGrown(spec, s0, seen, s, g) && !(k in s0 && Joins(spec, s0[k], g))
    ensures GroupGrown(spec, s0, seen + {k}, s, g)
  {
    SameJoiners(spec, s0, seen, seen + {k}, s, g);
  }

  /** The account of a group is that of its members seen. */
  lemma SameJoiners(spec: AggregateSpec, s0: Sets, seen: set<ResourceKey>, seen1: set<ResourceKey>, s: Sets, g: ResourceKey)
    requires GroupGrown(spec, s0, seen, s, g)
    requires forall j :: JoinerIn(spec, s0, seen1, g, j) <==> JoinerIn(spec, s0, seen, g, j)
    ensures GroupGrown(spec, s0, seen1, s, g)
  {
    forall m | m in spec.sumMetrics ensures MetricGrown(spec, s0, seen1, s, g, m) {
      assert MetricGrown(spec, s0, seen, s, g, m);
      assert Share(spec, s0, seen1, g, m) == Share(spec, s0, seen, g, m);
    }
    assert Counts(spec, s0, seen1, g) == Counts(spec, s0, seen, g);
  }

  lemma ShareGrows(spec: AggregateSpec, s0: Sets, seen: set<ResourceKey>, k: ResourceKey, g: ResourceKey, m: string)
    requires k !in seen && k in s0 && Joins(spec, s0[k], g)
    ensures Total(Share(spec, s0, seen + {k}, g, m)) == Total(Share(spec, s0, seen, g, m)) + AmountOf(s0[k], m)
  {
    assert Share(spec, s0, seen + {k}, g, m) == Share(spec, s0, seen, g, m)[k := AmountOf(s0[k], m)];
    TotalInsert(Share(spec, s0, seen, g, m), k, AmountOf(s0[k], m));
  }

  lemma CountsGrow(spec: AggregateSpec, s0: Sets, seen: set<ResourceKey>, k: ResourceKey, g: ResourceKey)
    requires k !in seen && k in s0 && Joins(spec, s0[k], g)
    ensures Total(Counts(spec, s0, seen + {k}, g)) == Total(Counts(spec, s0, seen, g)) + CountIn(s0[k].values, spec.countMetric) as real
  {
    var c := CountIn(s0[k].values, spec.countMetric) as real;
    assert Counts(spec, s0, seen + {k}, g) == Counts(spec, s0, seen, g)[k := c];
    TotalInsert(Counts(spec, s0, seen, g), k, c);
  }

  /** Visiting a member adds it to its group. */
  lemma SeenWith(spec: AggregateSpec, s0: Sets, seen: set<ResourceKey>, k: ResourceKey, s: Sets, s1: Sets, g: ResourceKey)
    requires GroupGrown(spec, s0, seen, s, g) && k !in seen && k in s0 && Joins(spec, s0[k], g)
    requires g in s1 && Joined(spec, s0[k].values, ValuesAt(s, g), s1[g].values)
    ensures GroupGrown(spec, s0, seen + {k}, s1, g)
  {
    var seen1 := seen + {k};
    assert JoinerIn(spec, s0, seen1, g, k);
    forall m | m in spec.sumMetrics ensures MetricGrown(spec, s0, seen1, s1, g, m) {
      MetricSeenWith(spec, s0, seen, k, s, s1, g, m);
    }
    CountsGrow(spec, s0, seen, k, g);
  }

  lemma MetricSeenWith(spec: AggregateSpec, s0: Sets, seen: set<ResourceKey>, k: ResourceKey, s: Sets, s1: Sets, g: ResourceKey, m: string)
    requires MetricGrown(spec, s0, seen, s, g, m) && k !in seen && k in s0 && Joins(spec, s0[k], g)
    requires g in s1 && m in spec.sumMetrics && Joined(spec, s0[k].values, ValuesAt(s, g), s1[g].values)
    ensures MetricGrown(spec, s0, seen + {k}, s1, g, m)
  {
    ShareGrows(spec, s0, seen, k, g, m);
    var seen1 := seen + {k};
    assert forall j :: JoinerIn(spec, s0, seen1, g, j) <==> JoinerIn(spec, s0, seen, g, j) || j == k;
  }

  /** One visit keeps the account. */
  lemma VisitGrows(spec: AggregateSpec, s0: Sets, seen: set<ResourceKey>, s: Sets, k: ResourceKey, ty: map<string, ValueType>)
    requires SpecOk(spec) && KeysAgree(s0) && KeysAgree(s) && AllTyped(s, spec.sumMetrics, ty)
    requires Grown(spec, s0, seen, s) && k !in seen
    ensures var r := Visit(spec, s, k);
      r.Some? && Grown(spec, s0, seen + {k}, r.value) && AllTyped(r.value, spec.sumMetrics, ty) && KeysAgree(r.value)
  {
    VisitKeepsKeys(spec, s, k);
    if k in s && IsPartOfGroup(spec.members, s[k]) && GroupKey(spec.grouping, s[k]).Some? {
      MemberGrows(spec, s0, seen, s, k, ty);
    } else {
      NonMember(spec, s0, s, k);
      forall g | IsGroupKey(spec.grouping, g) ensures GroupGrown(spec, s0, seen + {k}, s, g) {
        SeenWithout(spec, s0, seen, k, s, g);
      }
    }
  }

  lemma NonMember(spec: AggregateSpec, s0: Sets, s: Sets, k: ResourceKey)
    requires Sensible(spec) && KeysAgree(s0) && !(k in s && IsPartOfGroup(spec.members, s[k]) && GroupKey(spec.grouping, s[k]).Some?)
    requires !IsGroupKey(spec.grouping, k) ==> (k in s <==> k in s0) && (k in s ==> s[k] == s0[k])
    ensures forall g :: !(k in s0 && Joins(spec, s0[k], g))
  {
    if k in s0 {
      assert KeyAgrees(k, s0[k]);
    }
  }

  lemma MemberGrows(spec: AggregateSpec, s0: Sets, seen: set<ResourceKey>, s: Sets, k: ResourceKey, ty: map<string, ValueType>)
    requires SpecOk(spec) && KeysAgree(s) && AllTyped(s, spec.sumMetrics, ty)
    requires Grown(spec, s0, seen, s) && k !in seen
    requires k in s && IsPartOfGroup(spec.members, s[k]) && GroupKey(spec.grouping, s[k]).Some?
    ensures var r := Visit(spec, s, k);
      r.Some? && Grown(spec, s0, seen + {k}, r.value) && AllTyped(r.value, spec.sumMetrics, ty)
  {
    assert KeyAgrees(k, s[k]);
    var g := GroupKey(spec.grouping, s[k]).value;
    var dst := if g in s then s[g] else NewGroup(spec.grouping, s[k]);
    MergedJoins(spec, s[k].values, dst.values, ty);
    var d := dst.(values := Merged(spec, s[k].values, dst.values).value);
    assert Visit(spec, s, k) == Some(s[g := d]);
    GroupsGrow(spec, s0, seen, s, k, g, d);
  }

  lemma GroupsGrow(spec: AggregateSpec, s0: Sets, seen: set<ResourceKey>, s: Sets, k: ResourceKey, g: ResourceKey, d: SetView)
    requires Grown(spec, s0, seen, s) && k !in seen && k in s0 && Joins(spec, s0[k], g) && IsGroupKey(spec.grouping, g)
    requires Joined(spec, s0[k].values, ValuesAt(s, g), d.values) && (g in s ==> d.labels == s[g].labels)
    ensures Grown(spec, s0, seen + {k}, s[g := d])
  {
    UntouchedStill(spec, s0, s, g, d);
    forall h | IsGroupKey(spec.grouping, h) ensures GroupGrown(spec, s0, seen + {k}, s[g := d], h) {
      GroupGrows(spec, s0, seen, s, k, g, d, h);
    }
  }

  lemma UntouchedStill(spec: AggregateSpec, s0: Sets, s: Sets, g: ResourceKey, d: SetView)
    requires Untouched(spec, s0, s) && IsGroupKey(spec.grouping, g) && (g in s ==> d.labels == s[g].labels)
    ensures Untouched(spec, s0, s[g := d])
  {
  }

  lemma GroupGrows(spec: AggregateSpec, s0: Sets, seen: set<ResourceKey>, s: Sets, k: ResourceKey, g: ResourceKey, d: SetView,
                   h: ResourceKey)
    requires GroupGrown(spec, s0, seen, s, h) && k !in seen && k in s0 && Joins(spec, s0[k], g)
    requires Joined(spec, s0[k].values, ValuesAt(s, g), d.values)
    ensures GroupGrown(spec, s0, seen + {k}, s[g := d], h)
  {
    if h == g {
      SeenWith(spec, s0, seen, k, s, s[g := d], g);
    } else {
      OtherGroup(spec, s0, seen, s, s[g := d], h);
      SeenWithout(spec, s0, seen, k, s[g := d], h);
    }
  }

  lemma OtherGroup(spec: AggregateSpec, s0: Sets, seen: set<ResourceKey>, s: Sets, s1: Sets, h: ResourceKey)
    requires GroupGrown(spec, s0, seen, s, h) && (h in s <==> h in s1) && ValuesAt(s, h) == ValuesAt(s1, h)
    ensures GroupGrown(spec, s0, seen, s1, h)
  {
    forall m | m in spec.sumMetrics ensures MetricGrown(spec, s0, seen, s1, h, m) {
      assert MetricGrown(spec, s0, seen, s, h, m);
    }
  }

  /** No visit of a well-typed batch fails, and after n visits the account is that of the first n keys. */
  lemma {:induction false} RunGrows(spec: AggregateSpec, s0: Sets, order: seq<ResourceKey>, n: nat, ty: map<string, ValueType>)
    requires SpecOk(spec) && KeysAgree(s0) && AllTyped(s0, spec.sumMetrics, ty) && n <= |order|
    requires Once(order)
    ensures var r := Run(spec, s0, order, n);
      r.Some? && Grown(spec, s0, SeenIn(order, n), r.value) && AllTyped(r.value, spec.sumMetrics, ty) && KeysAgree(r.value)
  {
    if n == 0 {
      NothingGrown(spec, s0);
    } else {
      RunGrows(spec, s0, order, n - 1, ty);
      SeenNext(order, n);
      VisitGrowsTo(spec, s0, SeenIn(order, n - 1), SeenIn(order, n), Run(spec, s0, order, n - 1).value, order[n - 1], ty);
    }
  }

  lemma VisitGrowsTo(spec: AggregateSpec, s0: Sets, seen: set<ResourceKey>, seen1: set<ResourceKey>, s: Sets, k: ResourceKey,
                     ty: map<string, ValueType>)
    requires SpecOk(spec) && KeysAgree(s0) && KeysAgree(s) && AllTyped(s, spec.sumMetrics, ty)
    requires Grown(spec, s0, seen, s) && k !in seen && seen1 == seen + {k}
    ensures var r := Visit(spec, s, k);
      r.Some? && Grown(spec, s0, seen1, r.value) && AllTyped(r.value, spec.sumMetrics, ty) && KeysAgree(r.value)
  {
    VisitGrows(spec, s0, seen, s, k, ty);
  }

  /**
   * One pass: whatever the order, and whichever of the sets it inserts are visited, each group has its
   * former amounts plus those of all its members, its former count plus theirs, and nothing else changes.
   */
  lemma {:induction false} PassConserves(spec: AggregateSpec, s0: Sets, order: seq<ResourceKey>, ty: map<string, ValueType>)
    requires SpecOk(spec) && KeysAgree(s0) && AllTyped(s0, spec.sumMetrics, ty) && Visits(s0.Keys, order)
    ensures var r := Run(spec, s0, order, |order|);
      r.Some? && Grown(spec, s0, s0.Keys, r.value) && AllTyped(r.value, spec.sumMetrics, ty) && KeysAgree(r.value)
  {
    RunGrows(spec, s0, order, |order|, ty);
    var s, seen := Run(spec, s0, order, |order|).value, SeenIn(order, |order|);
    forall k | k in s0 ensures k in seen {
      SeenHas(order, |order|, k);
    }
    forall g | IsGroupKey(spec.grouping, g) ensures GroupGrown(spec, s0, s0.Keys, s, g) {
      SeenAll(spec, s0, seen, s, g);
    }
  }

  lemma SeenAll(spec: AggregateSpec, s0: Sets, seen: set<ResourceKey>, s: Sets, g: ResourceKey)
    requires s0.Keys <= seen && GroupGrown(spec, s0, seen, s, g)
    ensures GroupGrown(spec, s0, s0.Keys, s, g)
  {
    SameJoiners(spec, s0, seen, s0.Keys, s, g);
  }
}
