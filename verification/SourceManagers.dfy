/**
 * The registry of source providers, plugins/sources/manager.go. Each registered provider has a timer and
 * a loop that runs until its quit channel is closed. Adding, deleting and stopping are atomic steps.
 */
module SourceManagers {
  import opened Options

  /** A provider by what the registry asks of it; the sources are those that it has when it is registered. */
  datatype Provider = Provider(name: string, collectionInterval: int, sources: seq<string>)

  class IntervalTimer {
    const interval: int
    var stopped: bool

    constructor (interval: int)
      ensures this.interval == interval && !stopped
    {
      this.interval, stopped := interval, false;
    }

    method Stop()
      modifies this
      ensures stopped
    {
      stopped := true;
    }
  }

  /** A channel that nothing is sent on. Closing it twice would panic. */
  class Quit {
    var closed: bool

    constructor ()
      ensures !closed
    {
      closed := false;
    }

    method Close()
      requires !closed
      modifies this
      ensures closed
    {
      closed := true;
    }
  }

  /**
   * One call of AddProvider and the loop that it started; running until its provider is deleted. The
   * provider is then asked for its sources again: named is what it answers, and nothing before.
   */
  datatype Registration = Registration(provider: Provider, quit: Quit, running: bool, named: seq<string>)

  /** GetMetricsSources: the instances are looked up anew, and none are named when that fails or another collector leads. */
  method GetMetricsSources(provider: Provider) returns (sources: seq<string>)
  {
    sources := *;
  }

  function Count(sources: seq<string>, n: nat, source: string): nat
    requires n <= |sources|
  {
    if n == 0 then 0 else Count(sources, n - 1, source) + if sources[n - 1] == source then 1 else 0
  }

  /** How often a source is to be cleaned up for one registration. */
  function Due(r: Registration, source: string): nat {
    if r.running then 0 else Count(r.named, |r.named|, source)
  }

  /** And for the first n registrations. */
  function CleanedUp(history: seq<Registration>, n: nat, source: string): nat
    requires n <= |history|
  {
    if n == 0 then 0 else CleanedUp(history, n - 1, source) + Due(history[n - 1], source)
  }

  /** Registrations stay what they are, and those that have ended stay ended. */
  ghost predicate Continues(before: seq<Registration>, after: seq<Registration>) {
    && |before| <= |after|
    && forall i :: 0 <= i < |before| ==> Same(before[i], after[i])
  }

  ghost predicate Same(r: Registration, r1: Registration) {
    r1.provider == r.provider && r1.quit == r.quit && (r1.running ==> r.running) && (!r.running ==> r1.named == r.named)
  }

  lemma ContinuesTransitive(a: seq<Registration>, b: seq<Registration>, c: seq<Registration>)
    requires Continues(a, b) && Continues(b, c)
    ensures Continues(a, c)
  {
    forall i | 0 <= i < |a| ensures Same(a[i], c[i]) {
      assert Same(a[i], b[i]) && Same(b[i], c[i]);
    }
  }

  lemma {:induction false} OneEnds(history: seq<Registration>, i: nat, named: seq<string>, n: nat, source: string)
    requires i < |history| && history[i].running && n <= |history|
    ensures CleanedUp(End(history, i, named), n, source)
            == CleanedUp(history, n, source) + if i < n then Count(named, |named|, source) else 0
  {
    if n > 0 {
      OneEnds(history, i, named, n - 1, source);
    }
  }

  lemma {:induction false} OneStarts(history: seq<Registration>, r: Registration, n: nat, source: string)
    requires n <= |history|
    ensures CleanedUp(history + [r], n, source) == CleanedUp(history, n, source)
  {
    if n > 0 {
      OneStarts(history, r, n - 1, source);
    }
  }

  /** Each source has been cleaned up once for each ended registration whose provider named it at the end. */
  ghost predicate CleanedOnce(cleanups: seq<string>, history: seq<Registration>) {
    forall source :: Count(cleanups, |cleanups|, source) == CleanedUp(history, |history|, source)
  }

  lemma {:induction false} CountPrefix(a: seq<string>, b: seq<string>, n: nat, source: string)
    requires n <= |a| + |b|
    ensures Count(a + b, n, source) == if n <= |a| then Count(a, n, source) else Count(a, |a|, source) + Count(b, n - |a|, source)
  {
    if n > 0 {
      CountPrefix(a, b, n - 1, source);
    }
  }

  lemma EndCleans(cleanups: seq<string>, history: seq<Registration>, i: nat, named: seq<string>)
    requires CleanedOnce(cleanups, history) && i < |history| && history[i].running
    ensures CleanedOnce(cleanups + named, End(history, i, named))
  {
    forall source ensures Count(cleanups + named, |cleanups + named|, source) == CleanedUp(End(history, i, named), |history|, source) {
      OneEnds(history, i, named, |history|, source);
      CountPrefix(cleanups, named, |cleanups| + |named|, source);
    }
  }

  lemma StartCleansNothing(cleanups: seq<string>, history: seq<Registration>, r: Registration)
    requires CleanedOnce(cleanups, history) && r.running
    ensures CleanedOnce(cleanups, history + [r])
  {
    forall source ensures Count(cleanups, |cleanups|, source) == CleanedUp(history + [r], |history| + 1, source) {
      OneStarts(history, r, |history|, source);
    }
  }

  // ---- The maps and the history ---------------------------------------------------------------------

  /** The provider and quit maps have the same keys, and each holds what the one running loop of a name has. */
  ghost predicate Linked(providers: map<string, Provider>, quits: map<string, Quit>, history: seq<Registration>) {
    && providers.Keys == quits.Keys
    && (forall i, j :: 0 <= i < j < |history| ==> history[i].quit != history[j].quit)
    && (forall i :: 0 <= i < |history| && history[i].running ==> Registered(providers, quits, history[i]))
    && (forall n :: n in quits ==> exists i :: RunsUnder(history, i, n))
  }

  ghost predicate Registered(providers: map<string, Provider>, quits: map<string, Quit>, r: Registration) {
    var n := r.provider.name;
    n in providers && n in quits && providers[n] == r.provider && quits[n] == r.quit
  }

  predicate RunsUnder(history: seq<Registration>, i: int, n: string) {
    0 <= i < |history| && history[i].running && history[i].provider.name == n
  }

  ghost function LoopOf(providers: map<string, Provider>, quits: map<string, Quit>, history: seq<Registration>, n: string): (i: nat)
    requires Linked(providers, quits, history) && n in quits
    ensures i < |history| && RunsUnder(history, i, n) && history[i].quit == quits[n] && history[i].provider == providers[n]
  {
    var i :| RunsUnder(history, i, n);
    assert Registered(providers, quits, history[i]);
    i
  }

  function End(history: seq<Registration>, i: nat, named: seq<string>): seq<Registration>
    requires i < |history|
  {
    history[i := history[i].(running := false, named := named)]
  }

  lemma Unlink(providers: map<string, Provider>, quits: map<string, Quit>, history: seq<Registration>, n: string, named: seq<string>)
    requires Linked(providers, quits, history) && n in quits
    ensures var i := LoopOf(providers, quits, history, n);
      Linked(providers - {n}, quits - {n}, End(history, i, named)) && Continues(history, End(history, i, named))
  {
    var i := LoopOf(providers, quits, history, n);
    var after := End(history, i, named);
    forall j | 0 <= j < |after| && after[j].running ensures Registered(providers - {n}, quits - {n}, after[j]) {
      assert Registered(providers, quits, history[j]) && history[j].quit != history[i].quit;
    }
    forall m | m in quits - {n} ensures exists j :: RunsUnder(after, j, m) {
      var j :| RunsUnder(history, j, m);
      assert RunsUnder(after, j, m);
    }
  }

  lemma Link(providers: map<string, Provider>, quits: map<string, Quit>, history: seq<Registration>, p: Provider, quit: Quit)
    requires Linked(providers, quits, history) && p.name !in quits
    requires forall i :: 0 <= i < |history| ==> history[i].quit != quit
    ensures var after := history + [Registration(p, quit, true, [])];
      Linked(providers[p.name := p], quits[p.name := quit], after) && Continues(history, after)
  {
    var after := history + [Registration(p, quit, true, [])];
    forall j | 0 <= j < |after| && after[j].running ensures Registered(providers[p.name := p], quits[p.name := quit], after[j]) {
      if j < |history| {
        assert Registered(providers, quits, history[j]);
      }
    }
    var quits1 := quits[p.name := quit];
    forall m | m in quits1 ensures exists j :: RunsUnder(after, j, m) {
      if m == p.name {
        assert RunsUnder(after, |history|, m);
      } else {
        var j :| RunsUnder(history, j, m);
        assert RunsUnder(after, j, m);
      }
    }
  }

  lemma AllSame(history: seq<Registration>)
    ensures Continues(history, history)
  {
  }

  lemma NoneRegistered(providers: map<string, Provider>, quits: map<string, Quit>, history: seq<Registration>)
    requires Linked(providers, quits, history) && providers.Keys == {}
    ensures providers == map[] && forall i :: 0 <= i < |history| ==> !history[i].running
  {
    forall i | 0 <= i < |history| ensures !history[i].running {
      assert history[i].running ==> Registered(providers, quits, history[i]);
    }
  }

  /** A registration that has ended has had the sources of its beginning cleaned up, if and only if its provider named the same again. */
  lemma CleanedAsRegistered(r: Registration)
    requires !r.running
    ensures (forall source :: Due(r, source) == Count(r.provider.sources, |r.provider.sources|, source))
            <==> multiset(r.named) == multiset(r.provider.sources)
  {
    var a, b := r.named, r.provider.sources;
    forall source ensures Count(a, |a|, source) == multiset(a)[source] && Count(b, |b|, source) == multiset(b)[source] {
      CountsAll(a, |a|, source);
      CountsAll(b, |b|, source);
      assert a[..|a|] == a && b[..|b|] == b;
    }
    if forall source :: Due(r, source) == Count(b, |b|, source) {
      forall source ensures multiset(a)[source] == multiset(b)[source] {
        assert Due(r, source) == Count(b, |b|, source);
      }
    }
  }

  lemma {:induction false} CountsAll(s: seq<string>, n: nat, source: string)
    requires n <= |s|
    ensures Count(s, n, source) == multiset(s[..n])[source]
  {
    if n > 0 {
      CountsAll(s, n - 1, source);
      assert s[..n] == s[..n - 1] + [s[n - 1]];
    }
  }

  /**
   * Where nothing runs any more and each provider has named its sources again, every registration ever
   * made has had each of its sources cleaned up, once.
   */
  lemma {:induction false} AllCleanedUp(history: seq<Registration>, n: nat, source: string)
    requires n <= |history| && forall i :: 0 <= i < |history| ==> !history[i].running
    requires forall i :: 0 <= i < |history| ==> multiset(history[i].named) == multiset(history[i].provider.sources)
    ensures CleanedUp(history, n, source) == Registrations(history, n, source)
  {
    if n > 0 {
      AllCleanedUp(history, n - 1, source);
      CleanedAsRegistered(history[n - 1]);
      assert Due(history[n - 1], source) == Count(history[n - 1].provider.sources, |history[n - 1].provider.sources|, source);
    }
  }

  /** A provider that names nothing when it is deleted leaves its source behind. */
  lemma LeftBehind(quit: Quit)
    ensures var history := [Registration(Provider("p", 0, ["s"]), quit, false, [])];
      CleanedUp(history, 1, "s") == 0 && Registrations(history, 1, "s") == 1
  {
    var history := [Registration(Provider("p", 0, ["s"]), quit, false, [])];
    assert CleanedUp(history, 0, "s") == 0 && Registrations(history, 0, "s") == 0;
    assert Count(["s"], 0, "s") == 0 && Count(["s"], 1, "s") == 1;
  }

  function Registrations(history: seq<Registration>, n: nat, source: string): nat
    requires n <= |history|
  {
    if n == 0 then 0
    else Registrations(history, n - 1, source) + Count(history[n - 1].provider.sources, |history[n - 1].provider.sources|, source)
  }

  class SourceManager {
    var defaultCollectionInterval: int
    var providers: map<string, Provider>
    var timers: map<string, IntervalTimer>
    var quits: map<string, Quit>
    /** The calls of Cleanup, by source. */
    var cleanups: seq<string>
    ghost var history: seq<Registration>
    ghost var Repr: set<object>

    constructor (defaultCollectionInterval: int)
      ensures Valid() && Repr == {} && providers == map[] && history == [] && cleanups == []
      ensures this.defaultCollectionInterval == defaultCollectionInterval
    {
      this.defaultCollectionInterval := defaultCollectionInterval;
      providers, timers, quits, cleanups := map[], map[], map[], [];
      history, Repr := [], {};
    }

    /** The three maps are in step, and open channels match running loops one to one. */
    ghost predicate Valid()
      reads this, Repr
    {
      && this !in Repr
      && Linked(providers, quits, history)
      && CleanedOnce(cleanups, history)
      && TimersRun()
      && ChannelsMatchLoops()
    }

    ghost predicate TimersRun()
      reads this, Repr
    {
      && timers.Keys == providers.Keys
      && (forall n :: n in timers ==> timers[n] in Repr && !timers[n].stopped)
      && (forall m, n :: m in timers && n in timers && timers[m] == timers[n] ==> m == n)
    }

    ghost predicate ChannelsMatchLoops()
      reads this, Repr
    {
      forall i :: 0 <= i < |history| ==> history[i].quit in Repr && (history[i].running <==> !history[i].quit.closed)
    }

    /** DeleteProvider: the timer is stopped, the loop told to quit, and each source that the provider names is cleaned up. */
    method DeleteProvider(name: string) returns (named: seq<string>)
      requires Valid()
      modifies this, Repr
      ensures Valid() && Repr == old(Repr) && defaultCollectionInterval == old(defaultCollectionInterval)
      ensures providers == old(providers) - {name}
      ensures Continues(old(history), history) && |history| == |old(history)|
      ensures cleanups == old(cleanups) + named
      ensures name in old(providers) ==>
        exists i :: RunsUnder(old(history), i, name) && history == End(old(history), i, named)
      ensures name !in old(providers) ==> named == [] && history == old(history)
    {
      if name in providers {
        named := DeleteFound(name);
      } else {
        named := [];
        AllSame(history);
      }
    }

    method DeleteFound(name: string) returns (named: seq<string>)
      requires Valid() && name in providers
      modifies this, Repr
      ensures Valid() && Repr == old(Repr) && defaultCollectionInterval == old(defaultCollectionInterval)
      ensures providers == old(providers) - {name} && cleanups == old(cleanups) + named
      ensures Continues(old(history), history) && |history| == |old(history)|
      ensures exists i :: RunsUnder(old(history), i, name) && history == End(old(history), i, named)
    {
      ghost var p, q, h, c := providers, quits, history, cleanups;
      ghost var i := LoopOf(p, q, h, name);
      named := TearDown(name, i);
      Unlink(p, q, h, name, named);
      EndCleans(c, h, i, named);
    }

    /** AddProvider: a provider of the same name is deleted first; then the new one gets its timer and loop. */
    method AddProvider(provider: Provider) returns (named: seq<string>)
      requires Valid()
      modifies this, Repr
      ensures Valid() && fresh(Repr - old(Repr)) && defaultCollectionInterval == old(defaultCollectionInterval)
      ensures providers == old(providers)[provider.name := provider]
      ensures Continues(old(history), history) && |history| == |old(history)| + 1
      ensures history[|old(history)|].provider == provider && history[|old(history)|].running
      ensures cleanups == old(cleanups) + named && (provider.name !in old(providers) ==> named == [])
      ensures timers[provider.name].interval == (if provider.collectionInterval > 0 then provider.collectionInterval else defaultCollectionInterval)
    {
      ghost var h, p := history, providers;
      AllSame(h);
      named := [];
      if provider.name in providers {
        named := DeleteProvider(provider.name);
      }
      ghost var h1 := history;
      Start(provider);
      ContinuesTransitive(h, h1, history);
      Replaced(p, provider.name, provider);
    }

    lemma Replaced(p: map<string, Provider>, name: string, provider: Provider)
      ensures (p - {name})[name := provider] == p[name := provider]
    {
    }

    method Start(provider: Provider)
      requires Valid() && provider.name !in providers
      modifies this
      ensures Valid() && fresh(Repr - old(Repr)) && defaultCollectionInterval == old(defaultCollectionInterval)
      ensures providers == old(providers)[provider.name := provider] && cleanups == old(cleanups)
      ensures Continues(old(history), history) && |history| == |old(history)| + 1
      ensures history[|old(history)|].provider == provider && history[|old(history)|].running
      ensures timers[provider.name].interval == (if provider.collectionInterval > 0 then provider.collectionInterval else defaultCollectionInterval)
    {
      ghost var p, q, h := providers, quits, history;
      assert CleanedOnce(cleanups, h);
      var quit := SetUp(provider);
      Link(p, q, h, provider, quit);
      StartCleansNothing(cleanups, h, Registration(provider, quit, true, []));
    }

    method SetUp(provider: Provider) returns (quit: Quit)
      requires TimersRun() && ChannelsMatchLoops() && provider.name !in providers && this !in Repr
      modifies this`providers, this`timers, this`quits, this`history, this`Repr
      ensures TimersRun() && ChannelsMatchLoops() && this !in Repr && fresh(Repr - old(Repr))
      ensures forall i :: 0 <= i < |old(history)| ==> old(history)[i].quit != quit
      ensures providers == old(providers)[provider.name := provider] && quits == old(quits)[provider.name := quit]
      ensures provider.name in timers
      ensures timers[provider.name].interval == (if provider.collectionInterval > 0 then provider.collectionInterval else defaultCollectionInterval)
      ensures history == old(history) + [Registration(provider, quit, true, [])]
    {
      var interval := if provider.collectionInterval > 0 then provider.collectionInterval else defaultCollectionInterval;
      var timer := new IntervalTimer(interval);
      quit := new Quit();
      providers := providers[provider.name := provider];
      timers := timers[provider.name := timer];
      quits := quits[provider.name := quit];
      history := history + [Registration(provider, quit, true, [])];
      Repr := Repr + {timer, quit};
    }

    /** StopProviders: the names are ranged over in any order. */
    method StopProviders()
      requires Valid()
      modifies this, Repr
      ensures Valid() && Repr == old(Repr) && defaultCollectionInterval == old(defaultCollectionInterval)
      ensures providers == map[]
      ensures Continues(old(history), history) && |history| == |old(history)| && forall i :: 0 <= i < |history| ==> !history[i].running
    {
      var unvisited := providers.Keys;
      ghost var start := history;
      AllSame(history);
      while unvisited != {}
        invariant Valid() && Repr == old(Repr) && defaultCollectionInterval == old(defaultCollectionInterval)
        invariant unvisited == providers.Keys
        invariant Continues(start, history) && |history| == |start|
        decreases unvisited
      {
        var name :| name in unvisited;
        ghost var before := history;
        var _ := DeleteProvider(name);
        ContinuesTransitive(start, before, history);
        unvisited := unvisited - {name};
      }
      NoneRegistered(providers, quits, history);
    }

    method TearDown(name: string, ghost i: nat) returns (named: seq<string>)
      requires TimersRun() && ChannelsMatchLoops() && this !in Repr && name in providers && name in quits
      requires i < |history| && history[i].running && history[i].quit == quits[name]
      requires forall j, k :: 0 <= j < k < |history| ==> history[j].quit != history[k].quit
      modifies this`providers, this`timers, this`quits, this`history, this`cleanups, timers[name], quits[name]
      ensures providers == old(providers) - {name} && timers == old(timers) - {name} && quits == old(quits) - {name}
      ensures old(timers[name]).stopped && old(quits[name]).closed
      ensures TimersRun() && ChannelsMatchLoops()
      ensures history == End(old(history), i, named) && cleanups == old(cleanups) + named
    {
      var provider := providers[name];
      providers := providers - {name};
      if name in timers {
        timers[name].Stop();
        timers := timers - {name};
      }
      if name in quits {
        quits[name].Close();
        quits := quits - {name};
      }
      named := GetMetricsSources(provider);
      Cleanup(named);
      history := End(history, i, named);
    }

    method Cleanup(sources: seq<string>)
      modifies this`cleanups
      ensures cleanups == old(cleanups) + sources
    {
      for j := 0 to |sources|
        invariant cleanups == old(cleanups) + sources[..j]
      {
        cleanups := cleanups + [sources[j]];
      }
    }
  }
}
