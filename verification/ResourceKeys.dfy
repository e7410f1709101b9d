/** The keys of metric sets, internal/metrics/resource_key.go, and why their texts do not collide. */
module ResourceKeys {

  datatype ResourceKey =
    | PodContainerKey(namespace: string, podName: string, containerName: string)
    | PodKey(namespace: string, podName: string)
    | NamespaceKey(namespace: string)
    | NodeKey(node: string)
    | NodeContainerKey(node: string, containerName: string)
    | ClusterKey

  /** The string that the program uses as the key. */
  function Text(k: ResourceKey): string {
    match k
    case PodContainerKey(ns, p, c) => "namespace:" + (ns + "/pod:" + (p + "/container:" + c))
    case PodKey(ns, p) => "namespace:" + (ns + "/pod:" + p)
    case NamespaceKey(ns) => "namespace:" + ns
    case NodeKey(n) => "node:" + n
    case NodeContainerKey(n, c) => "node:" + (n + "/container:" + c)
    case ClusterKey => "cluster"
  }

  lemma TextIs(n: string, p: string, c: string)
    ensures Text(PodContainerKey(n, p, c)) == "namespace:" + n + "/pod:" + p + "/container:" + c
    ensures Text(PodKey(n, p)) == "namespace:" + n + "/pod:" + p && Text(NamespaceKey(n)) == "namespace:" + n
    ensures Text(NodeKey(n)) == "node:" + n && Text(NodeContainerKey(n, c)) == "node:" + n + "/container:" + c && Text(ClusterKey) == "cluster"
  {
  }

  /** Kubernetes object names are DNS labels (section 2.1 of RFC 1123) and hold no slash. */
  predicate NamesOk(k: ResourceKey) {
    match k
    case PodContainerKey(ns, p, c) => '/' !in ns && '/' !in p && '/' !in c
    case PodKey(ns, p) => '/' !in ns && '/' !in p
    case NamespaceKey(ns) => '/' !in ns
    case NodeKey(n) => '/' !in n
    case NodeContainerKey(n, c) => '/' !in n && '/' !in c
    case ClusterKey => true
  }

  /** A name without slashes is told from what follows by the first slash. */
  lemma FirstSlash(a: string, x: string, b: string, y: string)
    requires '/' !in a && '/' !in b && (x == [] || x[0] == '/') && (y == [] || y[0] == '/')
    requires a + x == b + y
    ensures a == b && x == y
  {
    var s := a + x;
    assert x != [] ==> s[|a|] == '/';
    assert y != [] ==> s[|b|] == '/';
    assert forall i :: 0 <= i < |a| ==> s[i] == a[i];
    assert forall i :: 0 <= i < |b| ==> s[i] == b[i];
    assert |a| == |b|;
    assert a == s[..|a|] && b == s[..|a|];
    assert x == s[|a|..] && y == s[|a|..];
  }

  lemma Cancel(p: string, x: string, y: string)
    requires p + x == p + y
    ensures x == y
  {
    assert x == (p + x)[|p|..] && y == (p + y)[|p|..];
  }

  /** The part of the text after the name of a namespace or node. */
  function Rest(k: ResourceKey): string {
    match k
    case PodContainerKey(_, p, c) => "/pod:" + (p + "/container:" + c)
    case PodKey(_, p) => "/pod:" + p
    case NodeContainerKey(_, c) => "/container:" + c
    case _ => ""
  }

  function Owner(k: ResourceKey): string {
    match k
    case PodContainerKey(ns, _, _) => ns
    case PodKey(ns, _) => ns
    case NamespaceKey(ns) => ns
    case NodeKey(n) => n
    case NodeContainerKey(n, _) => n
    case ClusterKey => ""
  }

  function Prefix(k: ResourceKey): string {
    if k.ClusterKey? then "cluster" else if k.NodeKey? || k.NodeContainerKey? then "node:" else "namespace:"
  }

  lemma TextSplits(k: ResourceKey)
    ensures Text(k) == Prefix(k) + (Owner(k) + Rest(k))
    ensures Rest(k) == [] || Rest(k)[0] == '/'
  {
    assert Owner(k) + "" == Owner(k);
    match k
    case PodContainerKey(ns, p, c) => assert ns + "/pod:" + (p + "/container:" + c) == ns + ("/pod:" + (p + "/container:" + c));
    case PodKey(ns, p) => assert ns + "/pod:" + p == ns + ("/pod:" + p);
    case NodeContainerKey(n, c) => assert n + "/container:" + c == n + ("/container:" + c);
    case _ =>
  }

  /** Two characters tell the three kinds of prefix apart. */
  lemma TextShowsPrefix(k: ResourceKey)
    ensures |Text(k)| >= 2 && Text(k)[0] == Prefix(k)[0] && Text(k)[1] == Prefix(k)[1]
  {
    TextSplits(k);
  }

  /** What follows the pod's name tells a container from its pod. */
  lemma RestShowsKind(k: ResourceKey)
    requires NamesOk(k) && (k.PodContainerKey? || k.PodKey?)
    ensures |Rest(k)| >= 5 && (k.PodContainerKey? <==> '/' in Rest(k)[5..])
  {
    match k
    case PodContainerKey(_, p, c) =>
      assert Rest(k)[5..] == p + "/container:" + c;
      assert (p + "/container:" + c)[|p|] == '/';
    case PodKey(_, p) =>
      assert Rest(k)[5..] == p;
  }

  /** Keys with slash-free names have different texts, so the texts identify the resources. */
  lemma TextInjective(j: ResourceKey, k: ResourceKey)
    requires NamesOk(j) && NamesOk(k) && Text(j) == Text(k)
    ensures j == k
  {
    TextSplits(j);
    TextSplits(k);
    TextShowsPrefix(j);
    TextShowsPrefix(k);
    Cancel(Prefix(j), Owner(j) + Rest(j), Owner(k) + Rest(k));
    SameOwnerAndRest(j, k);
    SameRest(j, k);
  }

  lemma SameOwnerAndRest(j: ResourceKey, k: ResourceKey)
    requires NamesOk(j) && NamesOk(k) && Owner(j) + Rest(j) == Owner(k) + Rest(k)
    ensures Owner(j) == Owner(k) && Rest(j) == Rest(k)
  {
    TextSplits(j);
    TextSplits(k);
    FirstSlash(Owner(j), Rest(j), Owner(k), Rest(k));
  }

  lemma SameContainer(p: string, c: string, p1: string, c1: string)
    requires '/' !in p && '/' !in p1 && "/pod:" + (p + "/container:" + c) == "/pod:" + (p1 + "/container:" + c1)
    ensures p == p1 && c == c1
  {
    Cancel("/pod:", p + "/container:" + c, p1 + "/container:" + c1);
    assert p + "/container:" + c == p + ("/container:" + c);
    assert p1 + "/container:" + c1 == p1 + ("/container:" + c1);
    FirstSlash(p, "/container:" + c, p1, "/container:" + c1);
    Cancel("/container:", c, c1);
  }

  lemma SameRest(j: ResourceKey, k: ResourceKey)
    requires NamesOk(j) && NamesOk(k) && Prefix(j) == Prefix(k) && Owner(j) == Owner(k) && Rest(j) == Rest(k)
    ensures j == k
  {
    if j.PodContainerKey? || j.PodKey? {
      RestShowsKind(j);
      assert k.PodContainerKey? || k.PodKey?;
      RestShowsKind(k);
    }
    match j
    case PodContainerKey(_, p, c) =>
      assert k.PodContainerKey?;
      SameContainer(p, c, k.podName, k.containerName);
    case PodKey(_, p) =>
      assert k.PodKey?;
      Cancel("/pod:", p, k.podName);
    case NodeContainerKey(_, c) =>
      assert k.NodeContainerKey?;
      Cancel("/container:", c, k.containerName);
    case _ =>
  }
}
