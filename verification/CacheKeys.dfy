/**
 The string keys of internal/capi/store.go and internal/proxy/manager.go: fields joined by
 colons, with nothing escaped. A context name, and the name a configuration gives a kubeconfig,
 can be any string. A namespace or cluster name that exists in Kubernetes holds no colon, but one
 that a caller writes into a target can: only slashes are looked for there.
 */
module CacheKeys {
  import opened Text

  datatype ClusterRef = ClusterRef(kubeconfig: string, context: string, ns: string, name: string)

  function ClusterListKey(kubeconfig: string, context: string): string {
    kubeconfig + ":" + context
  }

  function KubeconfigKey(c: ClusterRef): string {
    c.kubeconfig + ":" + c.context + ":" + c.ns + ":" + c.name
  }

  function TargetKey(ip: string, port: string): string {
    ip + ":" + port
  }

  /** Namespace and cluster name as they can exist in Kubernetes, as far as the keys care. */
  predicate WellNamed(c: ClusterRef) {
    Free(c.ns, ':') && Free(c.name, ':')
  }

  /** One name, continued by a colon, begins the other. */
  predicate Confusable(m: string, n: string) {
    m + ":" <= n || n + ":" <= m
  }

  /** What is left of a cluster in its key: the pieces between colons, whichever field they come from. */
  function Pieces(c: ClusterRef): seq<string> {
    Split(c.kubeconfig, ':') + Split(c.context, ':') + Split(c.ns, ':') + Split(c.name, ':')
  }

  lemma SplitOfKey(c: ClusterRef)
    ensures Split(KubeconfigKey(c), ':') == Pieces(c)
    ensures WellNamed(c) ==> Pieces(c) == Split(c.kubeconfig, ':') + Split(c.context, ':') + [c.ns, c.name]
  {
    var front := c.kubeconfig + ":" + c.context;
    SplitAtSeparator(c.kubeconfig, c.context, ':');
    SplitAtSeparator(front, c.ns, ':');
    SplitAtSeparator(front + ":" + c.ns, c.name, ':');
    if WellNamed(c) {
      SplitOfFree(c.ns, ':');
      SplitOfFree(c.name, ':');
      assert [c.ns] + [c.name] == [c.ns, c.name];
    }
  }

  /** Two clusters, with any fields at all, share a key if and only if they have the same pieces. */
  lemma KeysEqualIff(c: ClusterRef, d: ClusterRef)
    ensures KubeconfigKey(c) == KubeconfigKey(d) <==> Pieces(c) == Pieces(d)
  {
    SplitOfKey(c);
    SplitOfKey(d);
    SplitInjective(KubeconfigKey(c), KubeconfigKey(d), ':');
  }

  /** So a colon can move from one field to the next without changing the key, even within one kubeconfig. */
  lemma ColonsMoveBetweenFields(m: string, x: string, y: string, ns: string, name: string)
    ensures var c, d := ClusterRef(m, x + ":" + y, ns, name), ClusterRef(m, x, y + ":" + ns, name);
            c != d && KubeconfigKey(c) == KubeconfigKey(d)
  {
    var c, d := ClusterRef(m, x + ":" + y, ns, name), ClusterRef(m, x, y + ":" + ns, name);
    assert |c.context| != |d.context|;
    assert KubeconfigKey(c) == m + ":" + x + ":" + y + ":" + ns + ":" + name;
    assert KubeconfigKey(d) == m + ":" + x + ":" + y + ":" + ns + ":" + name;
  }

  /** Of two lists with a common extension, one is a prefix of the other. */
  lemma PrefixesCompare(a: seq<string>, x: seq<string>, b: seq<string>, y: seq<string>)
    requires a + x == b + y
    ensures a <= b || b <= a
    ensures a == b ==> x == y
  {
    if |a| <= |b| {
      assert forall i :: 0 <= i < |a| ==> a[i] == (a + x)[i] == b[i];
    } else {
      assert forall i :: 0 <= i < |b| ==> b[i] == (b + y)[i] == a[i];
    }
    if a == b { assert x == (a + x)[|a|..] && y == (b + y)[|b|..]; }
  }

  lemma ConfusableIffPieces(m: string, n: string)
    ensures Confusable(m, n) <==> Split(m, ':') < Split(n, ':') || Split(n, ':') < Split(m, ':')
  {
    PrefixAtSeparator(m, n, ':');
    PrefixAtSeparator(n, m, ':');
    assert m + ":" == m + [':'] && n + ":" == n + [':'];
  }

  lemma SameEnd(x: seq<string>, y: seq<string>, p: string, q: string, r: string, s: string)
    requires |x| == |y| && x + [p, q] == y + [r, s]
    ensures x == y && p == r && q == s
  {
    assert x == (x + [p, q])[..|x|] && y == (y + [r, s])[..|y|];
    assert (x + [p, q])[|x|] == p && (y + [r, s])[|y|] == r;
    assert (x + [p, q])[|x| + 1] == q && (y + [r, s])[|y| + 1] == s;
  }

  lemma WellNamedInjective(c: ClusterRef, d: ClusterRef)
    requires WellNamed(c) && WellNamed(d) && KubeconfigKey(c) == KubeconfigKey(d)
    requires !Confusable(c.kubeconfig, d.kubeconfig)
    ensures c == d
  {
    SplitOfKey(c);
    SplitOfKey(d);
    var a, b := Split(c.kubeconfig, ':'), Split(d.kubeconfig, ':');
    var x, y := Split(c.context, ':'), Split(d.context, ':');
    assert a + x + [c.ns, c.name] == a + (x + [c.ns, c.name]);
    assert b + y + [d.ns, d.name] == b + (y + [d.ns, d.name]);
    PrefixesCompare(a, x + [c.ns, c.name], b, y + [d.ns, d.name]);
    ConfusableIffPieces(c.kubeconfig, d.kubeconfig);
    assert a == b;
    assert |x| == |y| by { assert |x + [c.ns, c.name]| == |y + [d.ns, d.name]|; }
    SameEnd(x, y, c.ns, c.name, d.ns, d.name);
    SplitInjective(c.kubeconfig, d.kubeconfig, ':');
    SplitInjective(c.context, d.context, ':');
  }

  /**
   Equal keys are equal pieces. For namespaces and cluster names without a colon, and kubeconfig
   names that are not confusable, that is the same cluster, whatever the contexts.
   */
  lemma KubeconfigKeyInjective(c: ClusterRef, d: ClusterRef)
    ensures KubeconfigKey(c) == KubeconfigKey(d) <==> Pieces(c) == Pieces(d)
    ensures WellNamed(c) && WellNamed(d) && !Confusable(c.kubeconfig, d.kubeconfig) ==>
              (KubeconfigKey(c) == KubeconfigKey(d) <==> c == d)
  {
    KeysEqualIff(c, d);
    if WellNamed(c) && WellNamed(d) && !Confusable(c.kubeconfig, d.kubeconfig) && KubeconfigKey(c) == KubeconfigKey(d) {
      WellNamedInjective(c, d);
    }
  }

  /** The clusters that make confusable kubeconfig names share a key. */
  lemma ConfusableNamesCollide(m: string, rest: string)
    ensures var c := ClusterRef(m, rest + ":ctx", "ns", "name");
            var d := ClusterRef(m + ":" + rest, "ctx", "ns", "name");
            c != d && WellNamed(c) && WellNamed(d) && KubeconfigKey(c) == KubeconfigKey(d)
  {
    var c, d := ClusterRef(m, rest + ":ctx", "ns", "name"), ClusterRef(m + ":" + rest, "ctx", "ns", "name");
    assert |m| != |m + ":" + rest|;
    assert KubeconfigKey(c) == m + ":" + rest + ":ctx:ns:name";
    assert KubeconfigKey(d) == m + ":" + rest + ":ctx:ns:name";
  }

  /** Of two prefixes of one string, the shorter begins the longer. */
  lemma SameKeyConfuses(m: string, x: string, n: string, y: string)
    requires m != n && m + ":" + x == n + ":" + y
    ensures Confusable(m, n)
  {
    var k := m + ":" + x;
    assert m == k[..|m|] && m + ":" == k[..|m| + 1];
    assert n == k[..|n|] && n + ":" == k[..|n| + 1] by { assert k == n + ":" + y; }
    assert |m| != |n|;
    if |m| < |n| { assert m + ":" <= n; } else { assert n + ":" <= m; }
  }

  lemma CollisionConfuses(c: ClusterRef, d: ClusterRef)
    requires c.kubeconfig != d.kubeconfig && KubeconfigKey(c) == KubeconfigKey(d)
    ensures Confusable(c.kubeconfig, d.kubeconfig)
  {
    var x, y := c.context + ":" + c.ns + ":" + c.name, d.context + ":" + d.ns + ":" + d.name;
    assert KubeconfigKey(c) == c.kubeconfig + ":" + x;
    assert KubeconfigKey(d) == d.kubeconfig + ":" + y;
    SameKeyConfuses(c.kubeconfig, x, d.kubeconfig, y);
  }

  lemma ConfusionCollides(m: string, n: string) returns (c: ClusterRef, d: ClusterRef)
    requires Confusable(m, n)
    ensures c.kubeconfig == m && d.kubeconfig == n && WellNamed(c) && WellNamed(d)
    ensures KubeconfigKey(c) == KubeconfigKey(d)
  {
    if m + ":" <= n {
      var rest := n[|m| + 1..];
      assert n == m + ":" + rest;
      ConfusableNamesCollide(m, rest);
      return ClusterRef(m, rest + ":ctx", "ns", "name"), ClusterRef(n, "ctx", "ns", "name");
    } else {
      var rest := m[|n| + 1..];
      assert m == n + ":" + rest;
      ConfusableNamesCollide(n, rest);
      return ClusterRef(m, "ctx", "ns", "name"), ClusterRef(n, rest + ":ctx", "ns", "name");
    }
  }

  ghost predicate Collide(m: string, n: string, c: ClusterRef, d: ClusterRef) {
    c.kubeconfig == m && d.kubeconfig == n && KubeconfigKey(c) == KubeconfigKey(d)
  }

  /**
   Two different kubeconfig names can make two clusters share a cache entry if and only if they
   are confusable, and then also clusters with colon-free namespaces and names.
   */
  lemma KeysCollideIff(m: string, n: string)
    requires m != n
    ensures (exists c, d :: Collide(m, n, c, d)) <==> Confusable(m, n)
    ensures (exists c, d :: Collide(m, n, c, d) && WellNamed(c) && WellNamed(d)) <==> Confusable(m, n)
  {
    if Confusable(m, n) {
      var c, d := ConfusionCollides(m, n);
      assert Collide(m, n, c, d);
    }
    forall c, d | Collide(m, n, c, d) ensures Confusable(m, n) { CollisionConfuses(c, d); }
  }

  lemma ConfusionNeedsColon(m: string, n: string)
    requires Confusable(m, n)
    ensures !Free(m, ':') || !Free(n, ':')
  {
    if m + ":" <= n {
      assert n[|m|] == (m + ":")[|m|];
    } else {
      assert m[|n|] == (n + ":")[|n|];
    }
  }

  /** The cluster-list keys collide under the same condition. */
  lemma ListKeysCollideIff(m: string, n: string)
    requires m != n
    ensures (exists x, y :: ClusterListKey(m, x) == ClusterListKey(n, y)) <==> Confusable(m, n)
    ensures forall x, y :: ClusterListKey(m, x) == ClusterListKey(m, y) ==> x == y
  {
    if m + ":" <= n {
      assert ClusterListKey(m, n[|m| + 1..] + ":") == ClusterListKey(n, "");
    } else if n + ":" <= m {
      assert ClusterListKey(m, "") == ClusterListKey(n, m[|n| + 1..] + ":");
    }
    forall x, y | ClusterListKey(m, x) == ClusterListKey(n, y) ensures Confusable(m, n) { SameKeyConfuses(m, x, n, y); }
    forall x, y | ClusterListKey(m, x) == ClusterListKey(m, y) ensures x == y {
      assert x == ClusterListKey(m, x)[|m| + 1..] && y == ClusterListKey(m, y)[|m| + 1..];
    }
  }

  /** Different API servers have different tunnels: a port holds no colon, an address may. */
  lemma TargetKeyInjective(ip: string, port: string, ip': string, port': string)
    requires Free(port, ':') && Free(port', ':') && TargetKey(ip, port) == TargetKey(ip', port')
    ensures ip == ip' && port == port'
  {
    SplitOfFree(port, ':');
    SplitOfFree(port', ':');
    SplitAtSeparator(ip, port, ':');
    SplitAtSeparator(ip', port', ':');
    assert TargetKey(ip, port) == ip + [':'] + port && TargetKey(ip', port') == ip' + [':'] + port';
    var x, y := Split(ip, ':'), Split(ip', ':');
    assert |x| == |y| by { assert |x + [port]| == |y + [port']|; }
    assert x == (x + [port])[..|x|] && y == (y + [port'])[..|y|];
    assert (x + [port])[|x|] == port && (y + [port'])[|y|] == port';
    SplitInjective(ip, ip', ':');
  }
}
