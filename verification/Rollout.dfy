/** What a reconcile achieves for its own proxies: exactly the wanted set when it succeeds, and
    no gap for any wanted host on the way, wherever it is interrupted. */
module Rollout {
  import opened Model
  import opened Outputs
  import opened Cluster
  import opened Reconcile
  import opened Framing

  // ---- Assumptions -----------------------------------------------------------------

  /** No two hosts have the same SHA-1. */
  ghost predicate CollisionFree(cfg: Config) {
    forall a, b :: cfg.sha1(a) == cfg.sha1(b) ==> a == b
  }

  /** The wanted proxies differ pairwise in their (host, class) labels and in their names. */
  ghost predicate Separate(ts: seq<Target>) {
    forall i, j :: 0 <= i < j < |ts| ==>
      && ts[i].name != ts[j].name
      && (ts[i].labels.domainHash != ts[j].labels.domainHash || ts[i].labels.ingressClass != ts[j].labels.ingressClass)
  }

  /** The cache agrees with the server about the proxies of the ingress. */
  ghost predicate Synced(s: Server, view: seq<HTTPProxy>, ing: Ingress) {
    forall p :: OfParent(p, ing) ==> (p in view <==> KeyOf(p) in s.proxies && s.proxies[KeyOf(p)] == p)
  }

  /** Every proxy of the ingress that was ever stored has a canonical name, a generation that
      the ingress has reached and, if that is the current one, a target the ingress wants. */
  ghost predicate Tidy(cfg: Config, s: Server, ing: Ingress) {
    forall p :: p in s.seen && OfParent(p, ing) ==>
      && Canonical(cfg, ing.name, p)
      && p.labels.generation.Some? && p.labels.generation.value <= ing.generation
      && (AtGeneration(p, ing) ==> TargetOf(p) in Targets(cfg, ing))
  }

  /** The wanted list: identified by the ingress, with exactly its targets. */
  ghost predicate Wanted(cfg: Config, ing: Ingress, ds: seq<HTTPProxy>) {
    (forall d :: d in ds ==> Identified(cfg, ing, d)) && TargetsOf(ds) == Targets(cfg, ing)
  }

  // ---- One wanted proxy ------------------------------------------------------------

  /** The stored object carries the wanted labels, annotations and spec. */
  predicate Holds(p: HTTPProxy, d: HTTPProxy) {
    p.ns == d.ns && p.name == d.name && p.labels == d.labels && p.annotations == d.annotations && p.spec == d.spec
  }

  /** A proxy found by the target labels has the wanted name. */
  lemma TargetFixesName(cfg: Config, ing: Ingress, p: HTTPProxy, d: HTTPProxy)
    requires CollisionFree(cfg) && Identified(cfg, ing, d) && SameTarget(p, d) && Canonical(cfg, ing.name, p)
    ensures KeyOf(p) == KeyOf(d) && OfParent(p, ing)
  {
    assert cfg.sha1(p.spec.fqdn) == cfg.sha1(d.spec.fqdn);
  }

  /** What the cache shows for the wanted proxies is what the server has, under their names. */
  ghost predicate Aligned(s: Server, view: seq<HTTPProxy>, ds: seq<HTTPProxy>) {
    forall d, m :: d in ds && m in view && SameTarget(m, d) ==>
      KeyOf(m) == KeyOf(d) && KeyOf(d) in s.proxies && s.proxies[KeyOf(d)] == m
  }

  ghost predicate DistinctKeys(ds: seq<HTTPProxy>) {
    forall i, j :: 0 <= i < j < |ds| ==> KeyOf(ds[i]) != KeyOf(ds[j])
  }

  /** Everything but the object `k` is the same. */
  ghost predicate SameBut(s: Server, t: Server, k: Key) {
    && (forall x :: x != k ==> (x in t.proxies <==> x in s.proxies))
    && (forall x :: x != k && x in s.proxies ==> t.proxies[x] == s.proxies[x])
  }

  lemma ApplyOneEffect(s: Server, view: seq<HTTPProxy>, d: HTTPProxy, calls: nat, env: Environment)
    requires Aligned(s, view, [d])
    ensures var p := ApplyOne(s, view, d, calls, env);
            && SameBut(s, p.server, KeyOf(d))
            && (p.ok ==> KeyOf(d) in p.server.proxies && Holds(p.server.proxies[KeyOf(d)], d))
            && (KeyOf(d) in s.proxies ==> KeyOf(d) in p.server.proxies)
            && (KeyOf(d) in p.server.proxies ==>
                  (KeyOf(d) in s.proxies && p.server.proxies[KeyOf(d)] == s.proxies[KeyOf(d)])
                  || Holds(p.server.proxies[KeyOf(d)], d))
  {
    var matches := Matches(view, d);
    if matches != [] {
      assert matches[0] in matches;
      assert d in [d];
      assert KeyOf(matches[0]) == KeyOf(d);
    }
  }

  // ---- All wanted proxies ----------------------------------------------------------

  ghost predicate WantedAt(ds: seq<HTTPProxy>, k: Key, p: HTTPProxy) {
    exists d :: d in ds && KeyOf(d) == k && Holds(p, d)
  }

  /** The effect of the create/update loop, also when it stops half way. */
  ghost predicate Applied(s: Server, t: Server, ds: seq<HTTPProxy>) {
    && (forall k :: k in s.proxies ==> k in t.proxies)
    && (forall k :: k in t.proxies
                    ==> (k in s.proxies && t.proxies[k] == s.proxies[k]) || WantedAt(ds, k, t.proxies[k]))
  }

  ghost predicate AllHeld(t: Server, ds: seq<HTTPProxy>) {
    forall d :: d in ds ==> KeyOf(d) in t.proxies && Holds(t.proxies[KeyOf(d)], d)
  }

  lemma {:induction false} ApplyAllEffect(s: Server, view: seq<HTTPProxy>, ds: seq<HTTPProxy>, calls: nat,
                                          env: Environment)
    requires Aligned(s, view, ds) && DistinctKeys(ds)
    ensures var p := ApplyAll(s, view, ds, calls, env);
            Applied(s, p.server, ds) && (p.ok ==> AllHeld(p.server, ds))
    decreases |ds|
  {
    if ds != [] {
      var d, rest := ds[0], ds[1..];
      assert ds == [d] + rest;
      assert Aligned(s, view, [d]) by {
        assert d in ds;
      }
      ApplyOneEffect(s, view, d, calls, env);
      var one := ApplyOne(s, view, d, calls, env);
      hide ApplyOne, Holds, Applied, AllHeld;
      if one.ok {
        AlignedRest(s, one.server, view, d, rest);
        ApplyAllEffect(one.server, view, rest, one.calls, env);
        AppliedThen(s, one.server, ApplyAll(one.server, view, rest, one.calls, env).server, d, rest);
      } else {
        AppliedNone(one.server, rest);
        AppliedThen(s, one.server, one.server, d, rest);
      }
    }
  }

  lemma AppliedNone(s: Server, ds: seq<HTTPProxy>)
    ensures Applied(s, s, ds)
  {
  }

  lemma AppliedThen(s: Server, m: Server, t: Server, d: HTTPProxy, rest: seq<HTTPProxy>)
    requires SameBut(s, m, KeyOf(d)) && (KeyOf(d) in s.proxies ==> KeyOf(d) in m.proxies)
    requires KeyOf(d) in m.proxies ==>
               (KeyOf(d) in s.proxies && m.proxies[KeyOf(d)] == s.proxies[KeyOf(d)]) || Holds(m.proxies[KeyOf(d)], d)
    requires Applied(m, t, rest) && DistinctKeys([d] + rest)
    ensures Applied(s, t, [d] + rest)
    ensures KeyOf(d) in m.proxies && Holds(m.proxies[KeyOf(d)], d) && AllHeld(t, rest) ==> AllHeld(t, [d] + rest)
  {
    hide Holds;
    var ds := [d] + rest;
    RestMisses(d, rest);
    forall k | k in t.proxies
      ensures (k in s.proxies && t.proxies[k] == s.proxies[k]) || WantedAt(ds, k, t.proxies[k])
    {
      if WantedAt(rest, k, t.proxies[k]) {
        var e :| e in rest && KeyOf(e) == k && Holds(t.proxies[k], e);
        assert e in ds;
      } else if k == KeyOf(d) {
        assert d in ds;
      }
    }
  }

  lemma RestMisses(d: HTTPProxy, rest: seq<HTTPProxy>)
    requires DistinctKeys([d] + rest)
    ensures forall e :: e in rest ==> KeyOf(e) != KeyOf(d)
  {
    forall e | e in rest
      ensures KeyOf(e) != KeyOf(d)
    {
      var i :| 0 <= i < |rest| && rest[i] == e;
      assert ([d] + rest)[i + 1] == e && ([d] + rest)[0] == d;
    }
  }

  lemma AlignedRest(s: Server, t: Server, view: seq<HTTPProxy>, d: HTTPProxy, rest: seq<HTTPProxy>)
    requires Aligned(s, view, [d] + rest) && DistinctKeys([d] + rest) && SameBut(s, t, KeyOf(d))
    ensures Aligned(t, view, rest)
  {
    var ds := [d] + rest;
    forall e, m | e in rest && m in view && SameTarget(m, e)
      ensures KeyOf(m) == KeyOf(e) && KeyOf(e) in t.proxies && t.proxies[KeyOf(e)] == m
    {
      assert e in ds;
      var i :| 0 <= i < |rest| && rest[i] == e;
      assert ds[i + 1] == e && KeyOf(ds[0]) != KeyOf(ds[i + 1]);
    }
  }

  // ---- Exactness -------------------------------------------------------------------

  /** The ingress owns exactly its wanted proxies, each with the wanted content. */
  ghost predicate Exact(t: Server, ing: Ingress, ds: seq<HTTPProxy>) {
    && AllHeld(t, ds)
    && (forall k :: k in t.proxies && OfParent(t.proxies[k], ing) ==> WantedAt(ds, k, t.proxies[k]))
  }

  lemma WantedKeys(cfg: Config, ing: Ingress, ds: seq<HTTPProxy>)
    requires Wanted(cfg, ing, ds) && Separate(Targets(cfg, ing))
    ensures DistinctKeys(ds)
    ensures forall t :: t in Targets(cfg, ing) ==> exists d :: d in ds && TargetOf(d) == t
  {
    hide Targets, Identified;
    var ts := TargetsOf(ds);
    forall i, j | 0 <= i < j < |ds|
      ensures KeyOf(ds[i]) != KeyOf(ds[j])
    {
      assert ts[i].name == ds[i].name && ts[j].name == ds[j].name;
    }
    forall t | t in ts
      ensures exists d :: d in ds && TargetOf(d) == t
    {
      var i :| 0 <= i < |ts| && ts[i] == t;
      assert ds[i] in ds && TargetOf(ds[i]) == t;
    }
  }

  lemma SyncedAligned(cfg: Config, s: Server, view: seq<HTTPProxy>, ing: Ingress, ds: seq<HTTPProxy>)
    requires CollisionFree(cfg) && Wanted(cfg, ing, ds)
    requires Tidy(cfg, s, ing) && Synced(s, view, ing) && (forall p :: p in view ==> p in s.seen)
    ensures Aligned(s, view, ds)
  {
    hide Targets, Canonical, CollisionFree;
    forall d, m | d in ds && m in view && SameTarget(m, d)
      ensures KeyOf(m) == KeyOf(d) && KeyOf(d) in s.proxies && s.proxies[KeyOf(d)] == m
    {
      assert OfParent(m, ing);
      TargetFixesName(cfg, ing, m, d);
    }
  }

  /** The premises shared by the rollout theorems. */
  ghost predicate Prepared(cfg: Config, s: Server, view: seq<HTTPProxy>, ing: Ingress, ds: seq<HTTPProxy>) {
    && CollisionFree(cfg) && Separate(Targets(cfg, ing)) && Wanted(cfg, ing, ds)
    && ProxyHistory(s) && Tidy(cfg, s, ing)
    && Synced(s, view, ing) && (forall p :: p in view ==> p in s.seen)
  }

  lemma PreparedApply(cfg: Config, s: Server, view: seq<HTTPProxy>, ing: Ingress, calls: nat, env: Environment)
    requires Prepared(cfg, s, view, ing, env.desired)
    ensures var p := ApplyAll(s, view, env.desired, calls, env);
            Applied(s, p.server, env.desired) && (p.ok ==> AllHeld(p.server, env.desired))
    ensures forall d :: d in env.desired ==> Own(d, ing)
  {
    assert forall d :: d in env.desired ==> Identified(cfg, ing, d);
    hide Tidy, Targets, ApplyAll;
    SyncedAligned(cfg, s, view, ing, env.desired);
    WantedKeys(cfg, ing, env.desired);
    ApplyAllEffect(s, view, env.desired, calls, env);
  }

  /** Exactness: when the creates, updates and deletes all succeed, the ingress is left with
      exactly one proxy per wanted target, holding the wanted content, and nothing else. */
  lemma ProgramExact(cfg: Config, s: Server, view: seq<HTTPProxy>, ing: Ingress, calls: nat, env: Environment)
    requires Prepared(cfg, s, view, ing, env.desired)
    requires Program(s, view, ing, calls, env).ok
    ensures Exact(Program(s, view, ing, calls, env).server, ing, env.desired)
  {
    hide ApplyAll, Prepared, Leftovers, Applied, AllHeld, Exact, Own, OlderProxies;
    PreparedApply(cfg, s, view, ing, calls, env);
    var applied := ApplyAll(s, view, env.desired, calls, env);
    SweepExact(cfg, s, view, ing, env.desired, applied.server, Program(s, view, ing, calls, env).server);
  }

  lemma SweepExact(cfg: Config, s: Server, view: seq<HTTPProxy>, ing: Ingress, ds: seq<HTTPProxy>, applied: Server,
                   t: Server)
    requires Prepared(cfg, s, view, ing, ds) && (forall d :: d in ds ==> Own(d, ing))
    requires Applied(s, applied, ds) && AllHeld(applied, ds)
    requires (t == applied && OlderProxies(view, ing) == []) || t.proxies == applied.proxies - Leftovers(applied, ing)
    ensures Exact(t, ing, ds)
  {
    hide Prepared, Holds, OlderProxies;
    forall d | d in ds
      ensures KeyOf(d) in t.proxies && t.proxies[KeyOf(d)] == applied.proxies[KeyOf(d)]
    {
      HeldIsOwn(applied.proxies[KeyOf(d)], d, ing);
    }
    forall k | k in t.proxies && OfParent(t.proxies[k], ing)
      ensures WantedAt(ds, k, t.proxies[k])
    {
      if k in s.proxies && t.proxies[k] == s.proxies[k] {
        OldIsListed(cfg, s, view, ing, ds, k);
        CurrentIsWanted(cfg, s, view, ing, ds, applied, k);
      }
    }
  }

  lemma HeldIsOwn(p: HTTPProxy, d: HTTPProxy, ing: Ingress)
    requires Holds(p, d) && Own(d, ing)
    ensures Own(p, ing)
  {
  }

  lemma OldIsListed(cfg: Config, s: Server, view: seq<HTTPProxy>, ing: Ingress, ds: seq<HTTPProxy>, k: Key)
    requires Prepared(cfg, s, view, ing, ds) && k in s.proxies && OfParent(s.proxies[k], ing)
    ensures AtGeneration(s.proxies[k], ing) || OlderProxies(view, ing) != []
  {
    hide Targets, CollisionFree, Separate, Tidy, Wanted;
    assert s.proxies[k] in view;
    assert AtGeneration(s.proxies[k], ing) || s.proxies[k] in OlderProxies(view, ing);
  }

  /** A stored proxy of the current generation occupies the place of a wanted one. */
  lemma CurrentIsWanted(cfg: Config, s: Server, view: seq<HTTPProxy>, ing: Ingress, ds: seq<HTTPProxy>, t: Server,
                        k: Key)
    requires Prepared(cfg, s, view, ing, ds) && AllHeld(t, ds)
    requires k in s.proxies && OfParent(s.proxies[k], ing)
    ensures AtGeneration(s.proxies[k], ing) ==> k in t.proxies && WantedAt(ds, k, t.proxies[k])
  {
    hide Targets, Holds, CollisionFree, Separate;
    var p := s.proxies[k];
    assert p in s.seen && KeyOf(p) == k;
    if AtGeneration(p, ing) {
      WantedKeys(cfg, ing, ds);
      var d :| d in ds && TargetOf(d) == TargetOf(p);
      assert Identified(cfg, ing, d);
      assert KeyOf(d) == k;
    }
  }

  // ---- No gap ----------------------------------------------------------------------

  /** No gap: whatever happens during the rollout, a stored proxy that serves a wanted target
      stays on the server and keeps serving that target. Since every write is one call, and
      any call may be the one that fails, this covers every intermediate point. */
  lemma ProgramNoGap(cfg: Config, s: Server, view: seq<HTTPProxy>, ing: Ingress, calls: nat, env: Environment,
                     d: HTTPProxy, k: Key)
    requires Prepared(cfg, s, view, ing, env.desired)
    requires d in env.desired && k in s.proxies && SameTarget(s.proxies[k], d)
    ensures var t := Program(s, view, ing, calls, env).server;
            k in t.proxies && SameTarget(t.proxies[k], d)
  {
    hide ApplyAll, Prepared, Holds, DistinctKeys, OlderProxies;
    PreparedApply(cfg, s, view, ing, calls, env);
    PreparedTarget(cfg, s, view, ing, env.desired, d, k);
    var applied := ApplyAll(s, view, env.desired, calls, env);
    assert SameTarget(applied.server.proxies[k], d) by {
      if WantedAt(env.desired, k, applied.server.proxies[k]) {
        SameKeySameProxy(env.desired, d, k, applied.server.proxies[k]);
        HeldIsTarget(applied.server.proxies[k], d);
      }
    }
    if applied.ok {
      HeldIsOwn(applied.server.proxies[k], d, ing);
    }
  }

  lemma HeldIsTarget(p: HTTPProxy, d: HTTPProxy)
    requires Holds(p, d)
    ensures SameTarget(p, d)
  {
  }

  lemma PreparedTarget(cfg: Config, s: Server, view: seq<HTTPProxy>, ing: Ingress, ds: seq<HTTPProxy>, d: HTTPProxy,
                       k: Key)
    requires Prepared(cfg, s, view, ing, ds) && d in ds && k in s.proxies && SameTarget(s.proxies[k], d)
    ensures KeyOf(d) == k && DistinctKeys(ds)
  {
    hide Targets, CollisionFree, Separate, Canonical;
    assert s.proxies[k] in s.seen && KeyOf(s.proxies[k]) == k;
    assert Identified(cfg, ing, d);
    assert OfParent(s.proxies[k], ing);
    TargetFixesName(cfg, ing, s.proxies[k], d);
    WantedKeys(cfg, ing, ds);
  }

  lemma SameKeySameProxy(ds: seq<HTTPProxy>, d: HTTPProxy, k: Key, p: HTTPProxy)
    requires DistinctKeys(ds) && d in ds && KeyOf(d) == k && WantedAt(ds, k, p)
    ensures Holds(p, d)
  {
    var e :| e in ds && KeyOf(e) == k && Holds(p, e);
    var i :| 0 <= i < |ds| && ds[i] == d;
    var j :| 0 <= j < |ds| && ds[j] == e;
    assert i == j;
  }
}
