/** Rates of cumulative metrics against the previous set of the same resource, plugins/processors/rate_calculator.go. */
module Rates {
  import opened Options
  import opened MapOrders
  import opened ResourceKeys
  import opened MetricSets
  import opened RollUpSums

  /** The metric that a rate is written to. */
  datatype Target = Target(name: string, valueType: ValueType)

  const CPU_USAGE := "cpu/usage"
  const DISK_READ := "disk/io_read_bytes"
  const DISK_WRITE := "disk/io_write_bytes"
  const RESOURCE_ID := "resource_id"

  /** Integer division as Go does it, towards zero. */
  function GoDiv(a: int, b: int): int
    requires b > 0
  {
    if a >= 0 then a / b else -((-a) / b)
  }

  lemma GoDivClose(a: int, b: int)
    requires b > 0
    ensures if a >= 0 then 0 <= a - GoDiv(a, b) * b < b && GoDiv(a, b) >= 0 else 0 <= GoDiv(a, b) * b - a < b && GoDiv(a, b) <= 0
  {
    if a < 0 {
      DivClose(-a, b);
      Negated((-a) / b, b);
    } else {
      DivClose(a, b);
    }
  }

  lemma DivClose(a: nat, b: nat)
    requires b > 0
    ensures 0 <= a - a / b * b < b && a / b >= 0
  {
    assert a == b * (a / b) + a % b;
  }

  lemma Negated(q: int, b: int)
    ensures -q * b == -(q * b)
  {
  }

  /** A rate by the second; times are in nanoseconds. */
  function FloatRate(newValue: int, oldValue: int, elapsed: int): Value
    requires elapsed > 0
  {
    Value(Float, 0, 1000000000.0 * (newValue - oldValue) as real / elapsed as real)
  }

  /** CPU time is in nanoseconds too, and the rate in thousandths of a core. */
  function CpuRate(newValue: int, oldValue: int, elapsed: int): int
    requires elapsed > 0
  {
    GoDiv(1000 * (newValue - oldValue), elapsed)
  }

  /** A change by the second, over some nanoseconds. */
  ghost predicate PerSecond(rate: Value, newValue: int, oldValue: int, nanos: int) {
    rate.valueType == Float && rate.floatValue * nanos as real == 1000000000.0 * (newValue - oldValue) as real
  }

  /** A thousandfold change of nanoseconds by the nanosecond, rounded towards zero. */
  ghost predicate InMillicores(rate: Value, newValue: int, oldValue: int, nanos: int) {
    var error := rate.intValue * nanos - 1000 * (newValue - oldValue);
    rate.valueType == Int64 && if newValue >= oldValue then -nanos < error <= 0 <= rate.intValue else 0 <= error < nanos && rate.intValue <= 0
  }

  lemma FloatRateIs(newValue: int, oldValue: int, nanos: int)
    requires nanos > 0
    ensures PerSecond(FloatRate(newValue, oldValue, nanos), newValue, oldValue, nanos)
  {
    var change, time := 1000000000.0 * (newValue - oldValue) as real, nanos as real;
    assert change / time * time == change;
  }

  lemma CpuRateIs(newValue: int, oldValue: int, nanos: int)
    requires nanos > 0
    ensures InMillicores(IntValue(CpuRate(newValue, oldValue, nanos)), newValue, oldValue, nanos)
  {
    GoDivClose(1000 * (newValue - oldValue), nanos);
  }

  predicate IsDisk(name: string) { name == DISK_READ || name == DISK_WRITE }

  function Device(item: LabeledValue): string { Get(item.labels, RESOURCE_ID) }

  /** The old value of the same metric and device, if there is one at or after index j. */
  function SameDevice(olds: seq<LabeledValue>, name: string, device: string, j: nat): Option<LabeledValue>
    requires j <= |olds|
    decreases |olds| - j
  {
    if j == |olds| then None
    else if olds[j].name == name && Device(olds[j]) == device then Some(olds[j])
    else SameDevice(olds, name, device, j + 1)
  }

  /** The rates for the first n of some labelled values. */
  function DiskRates(items: seq<LabeledValue>, n: nat, olds: seq<LabeledValue>, name: string, target: Target,
                     elapsed: int): seq<LabeledValue>
    requires n <= |items| && elapsed > 0
  {
    if n == 0 then []
    else DiskRates(items, n - 1, olds, name, target, elapsed) + DiskRate(items[n - 1], olds, name, target, elapsed)
  }

  function DiskRate(item: LabeledValue, olds: seq<LabeledValue>, name: string, target: Target, elapsed: int): seq<LabeledValue>
    requires elapsed > 0
  {
    if item.name != name || target.valueType != Float then []
    else
      match SameDevice(olds, name, Device(item), 0)
      case None => []
      case Some(o) => [LabeledValue(target.name, item.labels, FloatRate(item.value.intValue, o.value.intValue, elapsed))]
  }

  /** One metric's rate, written into the new set. */
  function WithRate(v: SetView, o: SetView, name: string, target: Target, elapsed: int): SetView
    requires elapsed > 0
  {
    if IsDisk(name) then v.(labeledValues := v.labeledValues + DiskRates(v.labeledValues, |v.labeledValues|, o.labeledValues, name, target, elapsed))
    else if name !in v.values || name !in o.values then v
    else if name == CPU_USAGE then v.(values := v.values[target.name := IntValue(CpuRate(v.values[name].intValue, o.values[name].intValue, elapsed))])
    else if target.valueType == Float then v.(values := v.values[target.name := FloatRate(v.values[name].intValue, o.values[name].intValue, elapsed)])
    else v
  }

  type Mapping = map<string, Target>

  /** The rates of the first n metrics of an order. */
  function WithRates(mapping: Mapping, v: SetView, o: SetView, elapsed: int, order: seq<string>, n: nat): SetView
    requires n <= |order| && elapsed > 0
  {
    if n == 0 then v
    else
      var w := WithRates(mapping, v, o, elapsed, order, n - 1);
      if order[n - 1] in mapping then WithRate(w, o, order[n - 1], mapping[order[n - 1]], elapsed) else w
  }

  /** A set scraped strictly after the old one, in the same collection. */
  predicate Continues(o: SetView, v: SetView) {
    v.scrapeTime > o.scrapeTime && v.collectionStartTime == o.collectionStartTime
  }

  function Elapsed(o: SetView, v: SetView): int { v.scrapeTime - o.scrapeTime }

  /** What a set of the batch may become: rates are added in some order, or it stays as it is. */
  ghost predicate Rated(mapping: Mapping, cached: Option<SetView>, v: SetView, w: SetView) {
    if cached.Some? && Continues(cached.value, v)
    then exists order :: Ranges(mapping.Keys, order) && w == WithRates(mapping, v, cached.value, Elapsed(cached.value, v), order, |order|)
    else w == v
  }

  /** A set replaces the cached one when it was scraped strictly later. */
  predicate Replaces(cached: Option<SetView>, v: SetView) {
    cached.None? || v.scrapeTime > cached.value.scrapeTime
  }

  // ---- What the rates are ---------------------------------------------------------------------------------

  /** No rate is written to a metric that a rate is taken from, and no two rates to the same metric. */
  predicate MappingOk(mapping: Mapping) {
    && (forall m :: m in mapping ==> mapping[m].name !in mapping)
    && (forall m, n :: m in mapping && n in mapping && mapping[m].name == mapping[n].name ==> m == n)
  }

  /** The source metrics are left alone. */
  lemma {:induction false} SourcesKept(mapping: Mapping, v: SetView, o: SetView, elapsed: int, order: seq<string>, n: nat, m: string)
    requires n <= |order| && elapsed > 0 && MappingOk(mapping) && m in mapping
    ensures var w := WithRates(mapping, v, o, elapsed, order, n);
      (m in w.values <==> m in v.values) && (m in w.values ==> w.values[m] == v.values[m])
  {
    if n > 0 {
      SourcesKept(mapping, v, o, elapsed, order, n - 1, m);
    }
  }

  /** What is written for a metric that is no disk metric. */
  function WrittenRate(name: string, newValue: Value, oldValue: Value, target: Target, elapsed: int): Option<Value>
    requires elapsed > 0
  {
    if name == CPU_USAGE then Some(IntValue(CpuRate(newValue.intValue, oldValue.intValue, elapsed)))
    else if target.valueType == Float then Some(FloatRate(newValue.intValue, oldValue.intValue, elapsed))
    else None
  }

  /** A rate is there whatever the order of the metrics. */
  lemma {:induction false} RateWritten(mapping: Mapping, v: SetView, o: SetView, elapsed: int, order: seq<string>, n: nat, m: string)
    requires n <= |order| && elapsed > 0 && MappingOk(mapping) && m in mapping && !IsDisk(m)
    requires m in order[..n] && m in v.values && m in o.values && WrittenRate(m, v.values[m], o.values[m], mapping[m], elapsed).Some?
    ensures var w, t := WithRates(mapping, v, o, elapsed, order, n), mapping[m].name;
      t in w.values && w.values[t] == WrittenRate(m, v.values[m], o.values[m], mapping[m], elapsed).value
  {
    SourcesKept(mapping, v, o, elapsed, order, n - 1, m);
    if order[n - 1] != m {
      assert m in order[..n - 1];
      RateWritten(mapping, v, o, elapsed, order, n - 1, m);
    }
  }

  /** Nothing but targets is written, and whatever else there is stays. */
  lemma {:induction false} OthersKept(mapping: Mapping, v: SetView, o: SetView, elapsed: int, order: seq<string>, n: nat, name: string)
    requires n <= |order| && elapsed > 0 && forall m :: m in mapping ==> mapping[m].name != name
    ensures var w := WithRates(mapping, v, o, elapsed, order, n);
      (name in w.values <==> name in v.values) && (name in w.values ==> w.values[name] == v.values[name]) && w.labels == v.labels
  {
    if n > 0 {
      OthersKept(mapping, v, o, elapsed, order, n - 1, name);
    }
  }

  /** Among these values is the rate of a metric between two others: by the second, and for CPU time in millicores. */
  ghost predicate HoldsRate(values: Values, m: string, target: Target, newValue: Value, oldValue: Value, nanos: int) {
    && (m == "cpu/usage" ==> target.name in values && InMillicores(values[target.name], newValue.intValue, oldValue.intValue, nanos))
    && (m !in {"cpu/usage", "disk/io_read_bytes", "disk/io_write_bytes"} && target.valueType == Float ==>
          target.name in values && PerSecond(values[target.name], newValue.intValue, oldValue.intValue, nanos))
  }

  /**
   * A set that was scraped strictly after the cached one, in the same collection, gets the rates between the
   * two. Any other set is left as it is.
   */
  lemma {:induction false} RatesAre(mapping: Mapping, o: SetView, v: SetView, w: SetView, m: string)
    requires MappingOk(mapping) && m in mapping && Rated(mapping, Some(o), v, w)
    ensures if v.scrapeTime > o.scrapeTime && v.collectionStartTime == o.collectionStartTime
      then m in v.values && m in o.values ==> HoldsRate(w.values, m, mapping[m], v.values[m], o.values[m], v.scrapeTime - o.scrapeTime)
      else w == v
  {
    if v.scrapeTime > o.scrapeTime && v.collectionStartTime == o.collectionStartTime {
      var order := RatingOrder(mapping, o, v, w);
      if m in v.values && m in o.values {
        RateIs(mapping, o, v, w, order, m);
      }
    }
  }

  lemma RatingOrder(mapping: Mapping, o: SetView, v: SetView, w: SetView) returns (order: seq<string>)
    requires Rated(mapping, Some(o), v, w) && v.scrapeTime > o.scrapeTime && v.collectionStartTime == o.collectionStartTime
    ensures Ranges(mapping.Keys, order) && w == WithRates(mapping, v, o, v.scrapeTime - o.scrapeTime, order, |order|)
  {
    order :| Ranges(mapping.Keys, order) && w == WithRates(mapping, v, o, Elapsed(o, v), order, |order|);
  }

  lemma {:induction false} RateIs(mapping: Mapping, o: SetView, v: SetView, w: SetView, order: seq<string>, m: string)
    requires MappingOk(mapping) && m in mapping && Ranges(mapping.Keys, order) && v.scrapeTime > o.scrapeTime
    requires w == WithRates(mapping, v, o, v.scrapeTime - o.scrapeTime, order, |order|) && m in v.values && m in o.values
    ensures HoldsRate(w.values, m, mapping[m], v.values[m], o.values[m], v.scrapeTime - o.scrapeTime)
  {
    var nanos := v.scrapeTime - o.scrapeTime;
    assert order[..|order|] == order;
    CpuRateIs(v.values[m].intValue, o.values[m].intValue, nanos);
    FloatRateIs(v.values[m].intValue, o.values[m].intValue, nanos);
    if !IsDisk(m) && WrittenRate(m, v.values[m], o.values[m], mapping[m], nanos).Some? {
      RateWritten(mapping, v, o, nanos, order, |order|, m);
    }
  }

  /** Whatever is no target of the mapping stays as it is, and so do the labels. */
  lemma {:induction false} RatesKeepOthers(mapping: Mapping, cached: Option<SetView>, v: SetView, w: SetView, name: string)
    requires Rated(mapping, cached, v, w) && forall m :: m in mapping ==> mapping[m].name != name
    ensures (name in w.values <==> name in v.values) && (name in w.values ==> w.values[name] == v.values[name]) && w.labels == v.labels
  {
    if cached.Some? && Continues(cached.value, v) {
      var o := cached.value;
      var order :| Ranges(mapping.Keys, order) && w == WithRates(mapping, v, o, Elapsed(o, v), order, |order|);
      OthersKept(mapping, v, o, Elapsed(o, v), order, |order|, name);
    }
  }

  /** So a set that continues the cached one holds the rate between the two CPU times. */
  lemma {:induction false} RatedHasCpuRate(mapping: Mapping, o: SetView, v: SetView, w: SetView)
    requires MappingOk(mapping) && CPU_USAGE in mapping && Rated(mapping, Some(o), v, w) && Continues(o, v) && CPU_USAGE in o.values
    ensures CPU_USAGE in w.values <==> CPU_USAGE in v.values
    ensures CPU_USAGE in v.values ==> w.values[CPU_USAGE] == v.values[CPU_USAGE] && mapping[CPU_USAGE].name in w.values
    ensures CPU_USAGE in v.values ==>
      w.values[mapping[CPU_USAGE].name] == IntValue(CpuRate(v.values[CPU_USAGE].intValue, o.values[CPU_USAGE].intValue, Elapsed(o, v)))
  {
    var order :| Ranges(mapping.Keys, order) && w == WithRates(mapping, v, o, Elapsed(o, v), order, |order|);
    assert order[..|order|] == order;
    SourcesKept(mapping, v, o, Elapsed(o, v), order, |order|, CPU_USAGE);
    if CPU_USAGE in v.values {
      RateWritten(mapping, v, o, Elapsed(o, v), order, |order|, CPU_USAGE);
    }
  }

  /** The item's rate is taken from a new and an old value of the same disk metric and the same device. */
  ghost predicate FromSameDevice(mapping: Mapping, v: SetView, o: SetView, elapsed: int, item: LabeledValue) {
    exists m, i, j ::
      && m in mapping && m in {"disk/io_read_bytes", "disk/io_write_bytes"} && 0 <= i < |v.labeledValues| && 0 <= j < |o.labeledValues|
      && IsRateOf(mapping[m], m, v.labeledValues[i], o.labeledValues[j], elapsed, item)
  }

  ghost predicate IsRateOf(target: Target, m: string, n: LabeledValue, o: LabeledValue, elapsed: int, item: LabeledValue) {
    && OfDevice(o, m, n) && n.name == m && item.name == target.name && item.labels == n.labels
    && PerSecond(item.value, n.value.intValue, o.value.intValue, elapsed)
  }

  /** An old value of the metric, and of the device of a new one; without the label a device has no name. */
  predicate OfDevice(o: LabeledValue, m: string, n: LabeledValue) {
    o.name == m && (if "resource_id" in o.labels then o.labels["resource_id"] else "") == (if "resource_id" in n.labels then n.labels["resource_id"] else "")
  }

  lemma {:induction false} SameDeviceFound(olds: seq<LabeledValue>, name: string, device: string, j: nat)
    requires j <= |olds|
    ensures var r := SameDevice(olds, name, device, j);
      && (r.Some? <==> exists i :: j <= i < |olds| && olds[i].name == name && Device(olds[i]) == device)
      && (r.Some? ==> r.value in olds[j..] && r.value.name == name && Device(r.value) == device)
    decreases |olds| - j
  {
    if j < |olds| {
      SameDeviceFound(olds, name, device, j + 1);
      assert olds[j] in olds[j..];
      assert forall x :: x in olds[j + 1..] ==> x in olds[j..];
    }
  }

  /** What has been appended: rates of the same device, under names that no rate is taken from. */
  ghost predicate Appended(mapping: Mapping, v: SetView, o: SetView, elapsed: int, items: seq<LabeledValue>) {
    forall x :: x in items ==> x.name !in mapping && FromSameDevice(mapping, v, o, elapsed, x)
  }

  lemma DiskRateIsOfDevice(mapping: Mapping, v: SetView, o: SetView, elapsed: int, m: string, i: nat)
    requires elapsed > 0 && MappingOk(mapping) && m in mapping && IsDisk(m) && i < |v.labeledValues|
    ensures Appended(mapping, v, o, elapsed, DiskRate(v.labeledValues[i], o.labeledValues, m, mapping[m], elapsed))
  {
    var n := v.labeledValues[i];
    var r := SameDevice(o.labeledValues, m, Device(n), 0);
    SameDeviceFound(o.labeledValues, m, Device(n), 0);
    if n.name == m && mapping[m].valueType == Float && r.Some? {
      var j :| 0 <= j < |o.labeledValues| && o.labeledValues[j] == r.value;
      FloatRateIs(n.value.intValue, r.value.value.intValue, elapsed);
      assert IsRateOf(mapping[m], m, n, o.labeledValues[j], elapsed, DiskRate(n, o.labeledValues, m, mapping[m], elapsed)[0]);
    }
  }

  lemma {:induction false} DiskRatesAreOfDevice(mapping: Mapping, v: SetView, o: SetView, elapsed: int, m: string,
                                                added: seq<LabeledValue>, n: nat)
    requires elapsed > 0 && MappingOk(mapping) && m in mapping && IsDisk(m) && n <= |v.labeledValues + added|
    requires Appended(mapping, v, o, elapsed, added)
    ensures Appended(mapping, v, o, elapsed, DiskRates(v.labeledValues + added, n, o.labeledValues, m, mapping[m], elapsed))
  {
    if n > 0 {
      DiskRatesAreOfDevice(mapping, v, o, elapsed, m, added, n - 1);
      if n - 1 < |v.labeledValues| {
        DiskRateIsOfDevice(mapping, v, o, elapsed, m, n - 1);
      } else {
        assert added[n - 1 - |v.labeledValues|] in added;
      }
    }
  }

  /** Every labelled value that is added is a rate between the old and the new value of one device. */
  lemma {:induction false} DiskRatesMatchDevices(mapping: Mapping, v: SetView, o: SetView, elapsed: int, order: seq<string>,
                                                 n: nat) returns (added: seq<LabeledValue>)
    requires n <= |order| && elapsed > 0 && MappingOk(mapping)
    ensures WithRates(mapping, v, o, elapsed, order, n).labeledValues == v.labeledValues + added
    ensures Appended(mapping, v, o, elapsed, added)
  {
    if n == 0 {
      added := [];
    } else {
      added := DiskRatesMatchDevices(mapping, v, o, elapsed, order, n - 1);
      var m := order[n - 1];
      if m in mapping && IsDisk(m) {
        var all := v.labeledValues + added;
        DiskRatesAreOfDevice(mapping, v, o, elapsed, m, added, |all|);
        var more := DiskRates(all, |all|, o.labeledValues, m, mapping[m], elapsed);
        assert all + more == v.labeledValues + (added + more);
        added := added + more;
      }
    }
  }

  lemma {:induction false} DiskRatePresent(items: seq<LabeledValue>, n: nat, olds: seq<LabeledValue>, name: string, target: Target,
                                           elapsed: int, i: nat)
    requires n <= |items| && elapsed > 0 && i < n && items[i].name == name && target.valueType == Float
    requires SameDevice(olds, name, Device(items[i]), 0).Some?
    ensures DiskRate(items[i], olds, name, target, elapsed)[0] in DiskRates(items, n, olds, name, target, elapsed)
  {
    if i < n - 1 {
      DiskRatePresent(items, n - 1, olds, name, target, elapsed, i);
    } else {
      assert DiskRate(items[i], olds, name, target, elapsed)[0] in DiskRate(items[i], olds, name, target, elapsed);
    }
  }

  /** Every disk value of the new set whose device had an old value gets its rate, from the first of these. */
  lemma {:induction false} DiskRatesComplete(mapping: Mapping, v: SetView, o: SetView, elapsed: int, order: seq<string>, n: nat,
                                             m: string, i: nat, j: nat)
    requires n <= |order| && elapsed > 0 && MappingOk(mapping) && m in order[..n] && m in mapping && mapping[m].valueType == Float
    requires m in {"disk/io_read_bytes", "disk/io_write_bytes"} && i < |v.labeledValues| && v.labeledValues[i].name == m
    requires j < |o.labeledValues| && OfDevice(o.labeledValues[j], m, v.labeledValues[i])
    requires forall h :: 0 <= h < j ==> !OfDevice(o.labeledValues[h], m, v.labeledValues[i])
    ensures exists item :: item in WithRates(mapping, v, o, elapsed, order, n).labeledValues
                           && IsRateOf(mapping[m], m, v.labeledValues[i], o.labeledValues[j], elapsed, item)
  {
    FirstDevice(o.labeledValues, m, v.labeledValues[i], 0, j);
    DiskRateThere(mapping, v, o, elapsed, order, n, m, i);
    FloatRateIs(v.labeledValues[i].value.intValue, o.labeledValues[j].value.intValue, elapsed);
    var item := DiskRate(v.labeledValues[i], o.labeledValues, m, mapping[m], elapsed)[0];
    assert IsRateOf(mapping[m], m, v.labeledValues[i], o.labeledValues[j], elapsed, item);
  }

  lemma {:induction false} FirstDevice(olds: seq<LabeledValue>, m: string, n: LabeledValue, h: nat, j: nat)
    requires h <= j < |olds| && OfDevice(olds[j], m, n) && forall i :: h <= i < j ==> !OfDevice(olds[i], m, n)
    ensures SameDevice(olds, m, Device(n), h) == Some(olds[j])
    decreases j - h
  {
    if h < j {
      FirstDevice(olds, m, n, h + 1, j);
    }
  }

  lemma {:induction false} DiskRateThere(mapping: Mapping, v: SetView, o: SetView, elapsed: int, order: seq<string>, n: nat,
                                         m: string, i: nat)
    requires n <= |order| && elapsed > 0 && MappingOk(mapping) && m in order[..n] && m in mapping && IsDisk(m) && mapping[m].valueType == Float
    requires i < |v.labeledValues| && v.labeledValues[i].name == m && SameDevice(o.labeledValues, m, Device(v.labeledValues[i]), 0).Some?
    ensures DiskRate(v.labeledValues[i], o.labeledValues, m, mapping[m], elapsed)[0] in WithRates(mapping, v, o, elapsed, order, n).labeledValues
  {
    if order[n - 1] == m {
      var added := DiskRatesMatchDevices(mapping, v, o, elapsed, order, n - 1);
      var w := WithRates(mapping, v, o, elapsed, order, n - 1);
      assert w.labeledValues[i] == v.labeledValues[i];
      DiskRatePresent(w.labeledValues, |w.labeledValues|, o.labeledValues, m, mapping[m], elapsed, i);
    } else {
      assert m in order[..n - 1];
      DiskRateThere(mapping, v, o, elapsed, order, n - 1, m, i);
    }
  }

  // ---- Runs, for one key ------------------------------------------------------------------------------------

  /** What one batch means for a key: a set, or nothing; and whether the cache was pruned of it then. */
  datatype Event = Sample(v: SetView) | Absent(pruned: bool)

  function After(cached: Option<SetView>, e: Event): Option<SetView> {
    match e
    case Sample(v) => if Replaces(cached, v) then Some(v) else cached
    case Absent(pruned) => if pruned then None else cached
  }

  /** The cached set after the first n events. */
  function Cached(start: Option<SetView>, events: seq<Event>, n: nat): Option<SetView>
    requires n <= |events|
  {
    if n == 0 then start else After(Cached(start, events, n - 1), events[n - 1])
  }

  /**
   * While a key stays cached, the scrape time of its set only moves forward, and only with the set, which is
   * the latest that came.
   */
  lemma {:induction false} ScrapeTimesIncrease(start: Option<SetView>, events: seq<Event>, a: nat, b: nat)
    requires a <= b <= |events| && forall i :: a <= i < b ==> events[i].Sample? || !events[i].pruned
    requires Cached(start, events, a).Some?
    ensures var c, d := Cached(start, events, a), Cached(start, events, b);
      && d.Some? && (d == c || d.value.scrapeTime > c.value.scrapeTime)
      && (d == c || exists i :: a <= i < b && events[i] == Sample(d.value))
      && (forall i :: a <= i < b && events[i].Sample? ==> events[i].v.scrapeTime <= d.value.scrapeTime)
  {
    if a < b {
      ScrapeTimesIncrease(start, events, a, b - 1);
    }
  }

  /** In a stretch the key is neither pruned nor restarted, and every sample that counts has a CPU time. */
  ghost predicate Stretch(start: Option<SetView>, events: seq<Event>, a: nat, b: nat)
    requires a <= b <= |events|
  {
    && Cached(start, events, a).Some? && CPU_USAGE in Cached(start, events, a).value.values
    && forall i :: a <= i < b ==> InStretch(Cached(start, events, a).value.collectionStartTime, Cached(start, events, i), events[i])
  }

  predicate InStretch(collectionStart: int, cached: Option<SetView>, e: Event) {
    match e
    case Absent(pruned) => !pruned
    case Sample(v) => Replaces(cached, v) ==> v.collectionStartTime == collectionStart && CPU_USAGE in v.values
  }

  function Cpu(v: SetView): int
    requires CPU_USAGE in v.values
  {
    v.values[CPU_USAGE].intValue
  }

  /** The sample is a set of the batch after its rates were written, the cached set being the one before. */
  ghost predicate Emitted(mapping: Mapping, cached: Option<SetView>, e: Event) {
    e.Sample? ==> exists v :: RatedFrom(mapping, cached, v, e.v)
  }

  ghost predicate RatedFrom(mapping: Mapping, cached: Option<SetView>, v: SetView, w: SetView) {
    Rated(mapping, cached, v, w) && w.scrapeTime == v.scrapeTime && w.collectionStartTime == v.collectionStartTime
  }

  /** The rate of CPU time that stands in an emitted set, times the time since the cached one. */
  function CpuIncrease(target: string, cached: Option<SetView>, e: Event): int {
    if e.Sample? && cached.Some? && Continues(cached.value, e.v) && target in e.v.values
    then e.v.values[target].intValue * Elapsed(cached.value, e.v)
    else 0
  }

  function CpuIncreases(target: string, start: Option<SetView>, events: seq<Event>, a: nat, b: nat): int
    requires a <= b <= |events|
    decreases b
  {
    if a == b then 0
    else CpuIncreases(target, start, events, a, b - 1) + CpuIncrease(target, Cached(start, events, b - 1), events[b - 1])
  }

  lemma {:induction false} EmittedRate(mapping: Mapping, o: SetView, e: Event)
    requires MappingOk(mapping) && CPU_USAGE in mapping && Emitted(mapping, Some(o), e)
    requires e.Sample? && Continues(o, e.v) && CPU_USAGE in o.values && CPU_USAGE in e.v.values
    ensures var t := mapping[CPU_USAGE].name;
      t in e.v.values && e.v.values[t].intValue == CpuRate(Cpu(e.v), Cpu(o), Elapsed(o, e.v))
  {
    var v :| RatedFrom(mapping, Some(o), v, e.v);
    RatedHasCpuRate(mapping, o, v, e.v);
    assert Elapsed(o, v) == Elapsed(o, e.v) && v.values[CPU_USAGE].intValue == Cpu(e.v);
  }

  /** One rate, times its interval, differs from the change by less than the interval. */
  lemma IncreaseClose(mapping: Mapping, o: SetView, e: Event)
    requires MappingOk(mapping) && CPU_USAGE in mapping && Emitted(mapping, Some(o), e)
    requires e.Sample? && Continues(o, e.v) && CPU_USAGE in o.values && CPU_USAGE in e.v.values
    ensures var error := CpuIncrease(mapping[CPU_USAGE].name, Some(o), e) - 1000 * (Cpu(e.v) - Cpu(o));
      -Elapsed(o, e.v) < error < Elapsed(o, e.v)
  {
    EmittedRate(mapping, o, e);
    GoDivClose(1000 * (Cpu(e.v) - Cpu(o)), Elapsed(o, e.v));
  }

  /**
   * Over a stretch the rates in the emitted sets add up, but for rounding: their sum, each times its own
   * interval, differs from the change in CPU time by less than the time passed.
   */
  lemma {:induction false} CpuRatesAddUp(mapping: Mapping, start: Option<SetView>, events: seq<Event>, a: nat, b: nat)
    requires MappingOk(mapping) && CPU_USAGE in mapping && a <= b <= |events| && Stretch(start, events, a, b)
    requires forall i :: a <= i < b ==> Emitted(mapping, Cached(start, events, i), events[i])
    ensures var c, d := Cached(start, events, a).value, Cached(start, events, b);
      && d.Some? && CPU_USAGE in d.value.values && d.value.collectionStartTime == c.collectionStartTime && (d.value == c || Elapsed(c, d.value) > 0)
      && var error := CpuIncreases(mapping[CPU_USAGE].name, start, events, a, b) - 1000 * (Cpu(d.value) - Cpu(c));
         if d.value == c then error == 0 else -Elapsed(c, d.value) < error < Elapsed(c, d.value)
    decreases b
  {
    if a < b {
      CpuRatesAddUp(mapping, start, events, a, b - 1);
      var c, d, e := Cached(start, events, a).value, Cached(start, events, b - 1).value, events[b - 1];
      assert InStretch(c.collectionStartTime, Some(d), e);
      if e.Sample? && Replaces(Some(d), e.v) {
        IncreaseClose(mapping, d, e);
      }
    }
  }
}
