/** PodAggregator.Process, which changes the pods of a batch in place. */
module PodAggregators {
  import opened Options
  import opened MapOrders
  import opened ResourceKeys
  import opened MetricSets
  import opened RollUps
  import opened RollUpSums
  import opened PodSums

  /** The metrics of a container are ranged over in any order; each meets the pod's value of its own name. */
  method AddValues(pod: MetricSet, src: MetricSet, pk: ResourceKey, skipped: set<string>,
                   required: set<string>) returns (required1: set<string>)
    requires pod != src
    modifies pod`values
    ensures pod.View() == old(pod.View()).(values := Absorb(pk, old(pod.values), src.values, skipped, required))
    ensures required1 == required + Lacked(pk, old(pod.values), src.values, skipped)
  {
    required1 := required;
    var unvisited := src.values.Keys;
    ghost var was := pod.values;
    while unvisited != {}
      invariant unvisited <= src.values.Keys
      invariant Absorbing(pk, was, src.values, skipped, required, unvisited, pod.values, required1)
      decreases unvisited
    {
      var m :| m in unvisited;
      ghost var now, required0 := pod.values, required1;
      if m !in skipped {
        var tag := Tag(pk, m);
        if m !in pod.values {
          required1 := required1 + {tag};
          pod.values := pod.values[m := src.values[m]];
        } else if tag in required1 {
          if pod.values[m].valueType == src.values[m].valueType {
            pod.values := pod.values[m := Plus(pod.values[m], src.values[m])];
          }
        }
      }
      AbsorbNext(pk, was, src.values, skipped, required, unvisited, now, required0, m, pod.values, required1);
      unvisited := unvisited - {m};
    }
    AbsorbDone(pk, was, src.values, skipped, required, pod.values, required1);
  }

  /** The metrics still to be visited are as they were; the others are as Absorb says. */
  ghost predicate Absorbing(pk: ResourceKey, was: Values, src: Values, skipped: set<string>, required: set<string>,
                            unvisited: set<string>, now: Values, required1: set<string>)
  {
    && (forall m :: m in unvisited ==> (m in now <==> m in was) && (m in now ==> now[m] == was[m]))
    && (forall m :: m !in unvisited ==> Absorbed(pk, was, src, skipped, required, now, m))
    && (forall t :: t in required1 <==> t in required || exists m :: m in src && m !in unvisited && m !in skipped && m !in was && Tag(pk, m) == t)
  }

  ghost predicate Absorbed(pk: ResourceKey, was: Values, src: Values, skipped: set<string>, required: set<string>, now: Values, m: string) {
    var all := Absorb(pk, was, src, skipped, required);
    (m in now <==> m in all) && (m in now ==> now[m] == all[m])
  }

  lemma AbsorbNext(pk: ResourceKey, was: Values, src: Values, skipped: set<string>, required: set<string>, unvisited: set<string>,
                   now: Values, required0: set<string>, m: string, next: Values, required1: set<string>)
    requires Absorbing(pk, was, src, skipped, required, unvisited, now, required0) && m in unvisited && m in src
    requires next == if m in skipped then now else now[m := AbsorbOne(now, Tag(pk, m) in required0, m, src[m])]
    requires required1 == if m in skipped || m in now then required0 else required0 + {Tag(pk, m)}
    ensures Absorbing(pk, was, src, skipped, required, unvisited - {m}, next, required1)
  {
    TagsFresh(pk, was, src, skipped, required, unvisited, required0, m);
    assert Absorbed(pk, was, src, skipped, required, next, m);
    forall j | j !in unvisited - {m} ensures Absorbed(pk, was, src, skipped, required, next, j) {
      if j != m {
        assert Absorbed(pk, was, src, skipped, required, now, j);
      }
    }
  }

  /** The tag of a metric still to be visited has not been added by this container. */
  lemma TagsFresh(pk: ResourceKey, was: Values, src: Values, skipped: set<string>, required: set<string>, unvisited: set<string>,
                  required0: set<string>, m: string)
    requires m in unvisited
    requires forall t :: t in required0 <==> t in required || exists j :: j in src && j !in unvisited && j !in skipped && j !in was && Tag(pk, j) == t
    ensures Tag(pk, m) in required0 <==> Tag(pk, m) in required
  {
    forall j | j !in unvisited ensures Tag(pk, j) != Tag(pk, m) {
      if Tag(pk, j) == Tag(pk, m) {
        TagInjective(pk, j, m);
      }
    }
  }

  lemma AbsorbDone(pk: ResourceKey, was: Values, src: Values, skipped: set<string>, required: set<string>, now: Values,
                   required1: set<string>)
    requires Absorbing(pk, was, src, skipped, required, {}, now, required1)
    ensures now == Absorb(pk, was, src, skipped, required) && required1 == required + Lacked(pk, was, src, skipped)
  {
    var all := Absorb(pk, was, src, skipped, required);
    forall m ensures (m in now <==> m in all) && (m in now ==> now[m] == all[m]) {
      assert Absorbed(pk, was, src, skipped, required, now, m);
    }
  }

  /** The batch and the pods to be put into it share no set and no key. */
  ghost predicate Apart(batch: Batch, newPods: Batch)
    reads batch, newPods
  {
    batch != newPods && batch.Valid() && newPods.Valid() && batch.Repr !! newPods.Repr && batch.sets.Keys !! newPods.sets.Keys
  }

  lemma UpdateRight(a: Sets, b: Sets, k: ResourceKey, v: SetView)
    requires k !in a
    ensures a + b[k := v] == (a + b)[k := v]
  {
  }

  /** The pod of a container: in the batch, among the new pods, or made now. */
  method FindPod(batch: Batch, newPods: Batch, pk: ResourceKey, labels: map<string, string>) returns (pod: MetricSet)
    requires Apart(batch, newPods)
    modifies newPods`sets, newPods`Repr
    ensures Apart(batch, newPods) && fresh(newPods.Repr - old(newPods.Repr))
    ensures pk in batch.sets + newPods.sets && pod == (batch.sets + newPods.sets)[pk]
    ensures batch.Contents() == old(batch.Contents())
    ensures var all := old(batch.Contents() + newPods.Contents());
      batch.Contents() + newPods.Contents() == all[pk := PodAt(all, pk, labels)]
  {
    ghost var b, n := batch.Contents(), newPods.Contents();
    if pk in batch.sets {
      pod := batch.sets[pk];
      assert (b + n)[pk := (b + n)[pk]] == b + n;
    } else if pk in newPods.sets {
      pod := newPods.sets[pk];
      assert (b + n)[pk := (b + n)[pk]] == b + n;
    } else {
      pod := new MetricSet(NewPod(labels));
      newPods.Put(pk, pod);
      UpdateRight(b, n, pk, pod.View());
    }
  }

  /** Changing one set of either batch. */
  lemma OneChanged(b: Sets, n: Sets, b1: Sets, n1: Sets, pk: ResourceKey, v: SetView)
    requires b.Keys !! n.Keys && b1.Keys == b.Keys && n1.Keys == n.Keys && pk in b1 + n1 && (b1 + n1)[pk] == v
    requires forall j :: j in b && j != pk ==> b1[j] == b[j]
    requires forall j :: j in n && j != pk ==> n1[j] == n[j]
    ensures b1 + n1 == (b + n)[pk := v]
  {
  }

  method AddToPod(batch: Batch, newPods: Batch, pk: ResourceKey, pod: MetricSet, src: MetricSet, skipped: set<string>,
                  required: set<string>)
    returns (required1: set<string>)
    requires Apart(batch, newPods) && pod != src && pk in batch.sets + newPods.sets && pod == (batch.sets + newPods.sets)[pk]
    modifies pod`values
    ensures batch.Contents() + newPods.Contents()
            == old(batch.Contents() + newPods.Contents())[pk := old(pod.View()).(values := Absorb(pk, old(pod.values), src.values, skipped, required))]
    ensures required1 == required + Lacked(pk, old(pod.values), src.values, skipped)
  {
    ghost var b, n := batch.Contents(), newPods.Contents();
    required1 := AddValues(pod, src, pk, skipped, required);
    OneChanged(b, n, batch.Contents(), newPods.Contents(), pk, pod.View());
  }

  /** The loop body of Process. */
  method AddContainer(batch: Batch, newPods: Batch, k: ResourceKey, skipped: set<string>, required: set<string>)
    returns (required1: set<string>)
    requires Apart(batch, newPods) && k in batch.sets && KeyAgrees(k, batch.sets[k].View())
    modifies batch.Repr, newPods`sets, newPods`Repr, newPods.Repr
    ensures Apart(batch, newPods) && fresh(newPods.Repr - old(newPods.Repr))
    ensures State(batch.Contents() + newPods.Contents(), required1)
            == VisitPods(skipped, State(old(batch.Contents() + newPods.Contents()), required), k)
  {
    ghost var all := batch.Contents() + newPods.Contents();
    var src := batch.sets[k];
    var labels := src.labels;
    required1 := required;
    assert all[k] == src.View();
    if TYPE !in labels || labels[TYPE] != TYPE_POD_CONTAINER {
      return;
    }
    if POD_NAME !in labels || NAMESPACE_NAME !in labels {
      return;
    }
    var pk := PodKey(labels[NAMESPACE_NAME], labels[POD_NAME]);
    var pod := FindPod(batch, newPods, pk, labels);
    ghost var all1 := batch.Contents() + newPods.Contents();
    assert pod.View() == all1[pk] && src.View() == all[k];
    required1 := AddToPod(batch, newPods, pk, pod, src, skipped, required);
    VisitsContainer(skipped, all, all1, required, k, pk, batch.Contents() + newPods.Contents(), required1);
  }

  lemma VisitsContainer(skipped: set<string>, all: Sets, all1: Sets, required: set<string>, k: ResourceKey, pk: ResourceKey,
                        all2: Sets, required2: set<string>)
    requires k in all && PodOf(all[k]) == Some(pk) && all1 == all[pk := PodAt(all, pk, all[k].labels)]
    requires all2 == all1[pk := all1[pk].(values := Absorb(pk, all1[pk].values, all[k].values, skipped, required))]
    requires required2 == required + Lacked(pk, all1[pk].values, all[k].values, skipped)
    ensures State(all2, required2) == VisitPods(skipped, State(all, required), k)
  {
  }

  lemma {:induction false} RunNext(skipped: set<string>, start: Sets, order: seq<ResourceKey>, k: ResourceKey, st: State)
    requires st == RunPods(skipped, start, order, |order|)
    ensures RunPods(skipped, start, order + [k], |order + [k]|) == VisitPods(skipped, st, k)
  {
    RunPrefix(skipped, start, order, k, |order|);
  }

  lemma {:induction false} RunPrefix(skipped: set<string>, start: Sets, order: seq<ResourceKey>, k: ResourceKey, n: nat)
    requires n <= |order|
    ensures RunPods(skipped, start, order + [k], n) == RunPods(skipped, start, order, n)
  {
    if n > 0 {
      RunPrefix(skipped, start, order, k, n - 1);
    }
  }

  lemma VisitKeepsAgreement(skipped: set<string>, st: State, k: ResourceKey)
    requires KeysAgree(st.sets)
    ensures KeysAgree(VisitPods(skipped, st, k).sets)
  {
    if k in st.sets && PodOf(st.sets[k]).Some? {
      var pk := PodOf(st.sets[k]).value;
      if pk in st.sets {
        assert KeyAgrees(pk, st.sets[pk]);
      }
    }
  }

  method VisitNext(batch: Batch, newPods: Batch, k: ResourceKey, skipped: set<string>, required: set<string>,
                   ghost start: Sets, ghost order: seq<ResourceKey>)
    returns (required1: set<string>)
    requires Apart(batch, newPods) && k in batch.sets && KeysAgree(batch.Contents() + newPods.Contents())
    requires RunPods(skipped, start, order, |order|) == State(batch.Contents() + newPods.Contents(), required)
    modifies batch.Repr, newPods`sets, newPods`Repr, newPods.Repr
    ensures Apart(batch, newPods) && fresh(newPods.Repr - old(newPods.Repr))
    ensures KeysAgree(batch.Contents() + newPods.Contents())
    ensures RunPods(skipped, start, order + [k], |order + [k]|) == State(batch.Contents() + newPods.Contents(), required1)
  {
    ghost var st := State(batch.Contents() + newPods.Contents(), required);
    assert KeyAgrees(k, st.sets[k]);
    RunNext(skipped, start, order, k, st);
    VisitKeepsAgreement(skipped, st, k);
    required1 := AddContainer(batch, newPods, k, skipped, required);
  }

  /** The loop of Process over the batch's sets. */
  method SumContainers(batch: Batch, newPods: Batch, skipped: set<string>, ghost start: Sets) returns (ghost order: seq<ResourceKey>)
    requires Apart(batch, newPods) && KeysAgree(start) && newPods.sets == map[]
    requires batch.Contents() == start && newPods.Contents() == map[]
    modifies batch.Repr, newPods`sets, newPods`Repr, newPods.Repr
    ensures Apart(batch, newPods) && fresh(newPods.Repr - old(newPods.Repr))
    ensures Ranges(batch.sets.Keys, order)
    ensures batch.Contents() + newPods.Contents() == RunPods(skipped, start, order, |order|).sets
  {
    var required: set<string> := {};
    var unvisited := batch.sets.Keys;
    order := [];
    assert start + map[] == start;
    while unvisited != {}
      invariant Apart(batch, newPods) && fresh(newPods.Repr - old(newPods.Repr))
      invariant KeysAgree(batch.Contents() + newPods.Contents())
      invariant RunPods(skipped, start, order, |order|) == State(batch.Contents() + newPods.Contents(), required)
      invariant Visited(order, batch.sets.Keys, unvisited)
      decreases unvisited
    {
      var k :| k in unvisited;
      required := VisitNext(batch, newPods, k, skipped, required, start, order);
      VisitedNext(order, batch.sets.Keys, unvisited, k);
      order := order + [k];
      unvisited := unvisited - {k};
    }
    AllVisited(order, batch.sets.Keys);
  }

  class PodAggregator {
    const skippedMetrics: set<string>

    constructor (skippedMetrics: set<string>)
      ensures this.skippedMetrics == skippedMetrics
    {
      this.skippedMetrics := skippedMetrics;
    }

    /** The batch's sets are ranged over in any order; new pods, kept apart until then, are put in at the end. */
    method Process(batch: Batch) returns (ghost order: seq<ResourceKey>)
      requires batch.Valid() && KeysAgree(batch.Contents())
      modifies batch`sets, batch`Repr, batch.Repr
      ensures batch.Valid() && fresh(batch.Repr - old(batch.Repr))
      ensures Ranges(old(batch.sets.Keys), order)
      ensures batch.Contents() == RunPods(skippedMetrics, old(batch.Contents()), order, |order|).sets
    {
      ghost var start := batch.Contents();
      var newPods := new Batch(map[], 0);
      order := SumContainers(batch, newPods, skippedMetrics, start);
      batch.PutAll(newPods);
    }
  }
}
