/** How much the compiler's answer may vary from one call to the next: not at all, exactly when
    no exposed path has conflicting Host headers. */
module Faithfulness {
  import opened Model
  import opened Headers
  import opened Compiler
  import opened Outputs
  import opened Cluster
  import opened Reconcile
  import opened Framing
  import opened Rollout
  import opened Steps
  import opened Convergence

  /** No path behind an exposed host appends a Host header that conflicts with its rewritten one. */
  ghost predicate NoExposedConflict(cfg: Config, ing: Ingress) {
    forall rule, original, host, path ::
      Exposes(cfg, ing, rule, original, host) && path in rule.paths ==> !HostConflict(path)
  }

  // ---- Without a conflict ----------------------------------------------------------

  lemma RouteDetermined(cfg: Config, protos: map<string, string>, option: HTTPOption, visibility: string, path: Path,
                        r: Route)
    requires RouteLike(r, RouteOf(cfg, protos, option, visibility, path)) && !HostConflict(path)
    ensures r == RouteOf(cfg, protos, option, visibility, path)
  {
    hide Headers.Conditions, ServiceOf, PreSplitHeaders, PermitInsecure;
    PreSplitHeadersAllowed(path);
    PreSplitUnique(path, r.headers);
  }

  /** The probe copy of a path conflicts exactly when the path does. */
  lemma ProbeConflict(path: Path, hash: string)
    ensures HostConflict(ProbePath(path, hash)) <==> HostConflict(path)
  {
    assert HASH_KEY[0] != HOST[0];
  }

  lemma ProxyDetermined(cfg: Config, ing: Ingress, protos: map<string, string>, p: HTTPProxy, rule: Rule,
                        original: string, host: string)
    requires ProxyLike(p, ProxyFor(cfg, ing, protos, rule, original, host))
    requires forall path :: path in rule.paths ==> !HostConflict(path)
    ensures p == ProxyFor(cfg, ing, protos, rule, original, host)
  {
    hide CertificateFor, RouteOf, RouteLike, HostConflict, ProbePath;
    var spec, paths := ProxyFor(cfg, ing, protos, rule, original, host), ProbedRule(rule, SpecHash(cfg, ing)).paths;
    forall i | 0 <= i < |p.spec.routes|
      ensures p.spec.routes[i] == spec.spec.routes[i]
    {
      assert RouteLike(p.spec.routes[i], RouteOf(cfg, protos, ing.spec.httpOption, rule.visibility, paths[i]));
      var path := ProbedFrom(rule.paths, SpecHash(cfg, ing), paths[i]);
      ProbeConflict(path, SpecHash(cfg, ing));
      RouteDetermined(cfg, protos, ing.spec.httpOption, rule.visibility, paths[i], p.spec.routes[i]);
    }
    assert p.spec.routes == spec.spec.routes;
  }

  lemma ListDetermined(cfg: Config, ing: Ingress, protos: map<string, string>, ps: seq<HTTPProxy>)
    requires ProxiesLike(ps, Compile(cfg, ing, protos)) && NoExposedConflict(cfg, ing)
    ensures ps == Compile(cfg, ing, protos)
  {
    hide Compile, ProxyFor, ProxyLike, HostConflict, Exposes;
    var specs := Compile(cfg, ing, protos);
    forall i | 0 <= i < |ps|
      ensures ps[i] == specs[i]
    {
      assert specs[i] in specs;
      var rule, original, host := CompileSound(cfg, ing, protos, specs[i]);
      ProxyDetermined(cfg, ing, protos, ps[i], rule, original, host);
    }
  }

  // ---- With a conflict -------------------------------------------------------------

  /** The same proxy with the headers of one route in another order. */
  function Reordered(p: HTTPProxy, i: nat, hs: seq<HeaderValue>): HTTPProxy
    requires i < |p.spec.routes|
  {
    p.(spec := p.spec.(routes := p.spec.routes[i := p.spec.routes[i].(headers := hs)]))
  }

  lemma ReorderedLike(p: HTTPProxy, i: nat, hs: seq<HeaderValue>)
    requires i < |p.spec.routes| && ProxyLike(p, p) && NameOrdered(hs)
    requires multiset(hs) == multiset(p.spec.routes[i].headers)
    ensures ProxyLike(Reordered(p, i, hs), p)
    ensures hs != p.spec.routes[i].headers ==> Reordered(p, i, hs) != p
  {
    hide NameOrdered;
    var q := Reordered(p, i, hs);
    forall j | 0 <= j < |q.spec.routes|
      ensures RouteLike(q.spec.routes[j], p.spec.routes[j])
    {
      assert RouteLike(p.spec.routes[j], p.spec.routes[j]);
    }
    assert q.spec.routes[i].headers == hs;
  }

  /** Another list that the compiler may return. */
  lemma OtherList(cfg: Config, ing: Ingress, protos: map<string, string>, rule: Rule, original: string, host: string,
                  path: Path)
    returns (other: seq<HTTPProxy>)
    requires Exposes(cfg, ing, rule, original, host) && path in rule.paths && HostConflict(path)
    ensures ProxiesLike(other, Compile(cfg, ing, protos)) && other != Compile(cfg, ing, protos)
  {
    hide Compile, ProxyFor, ProxyLike, HostConflict, Exposes, PreSplitHeaders, Reordered, NameOrdered;
    var specs := Compile(cfg, ing, protos);
    var p := ProxyFor(cfg, ing, protos, rule, original, host);
    CompileComplete(cfg, ing, protos, rule, original, host);
    var n := ConflictingRoute(cfg, ing, protos, rule, original, host, path);
    PreSplitDeterministic(path);
    PreSplitHeadersAllowed(path);
    var hs :| PreSplitAllowed(path, hs) && hs != PreSplitHeaders(path);
    ProxyLikeItself(cfg, ing, protos, p);
    ReorderedLike(p, n, hs);
    var i :| 0 <= i < |specs| && specs[i] == p;
    other := specs[i := Reordered(p, n, hs)];
    forall j | 0 <= j < |other|
      ensures ProxyLike(other[j], specs[j])
    {
      if j != i {
        assert specs[j] in specs;
        ProxyLikeItself(cfg, ing, protos, specs[j]);
      }
    }
    assert other[i] != specs[i];
  }

  lemma ConflictingRoute(cfg: Config, ing: Ingress, protos: map<string, string>, rule: Rule, original: string,
                         host: string, path: Path)
    returns (n: nat)
    requires path in rule.paths
    ensures var routes := ProxyFor(cfg, ing, protos, rule, original, host).spec.routes;
            n < |routes| && routes[n].headers == PreSplitHeaders(path)
  {
    hide CertificateFor, Headers.Conditions, ServiceOf, PreSplitHeaders, ProbePath;
    var j :| 0 <= j < |rule.paths| && rule.paths[j] == path;
    n := |rule.paths| + j;
    assert ProbedRule(rule, SpecHash(cfg, ing)).paths[n] == path;
  }

  /** For fixed services, the compiler always returns the same list if and only if no exposed
      path has conflicting Host headers. */
  lemma FaithfulExactly(cfg: Config, ing: Ingress, protos: map<string, string>)
    ensures (forall ps :: ProxiesLike(ps, Compile(cfg, ing, protos)) ==> ps == Compile(cfg, ing, protos))
       <==> NoExposedConflict(cfg, ing)
  {
    hide Compile, ProxiesLike, HostConflict, Exposes;
    if NoExposedConflict(cfg, ing) {
      forall ps | ProxiesLike(ps, Compile(cfg, ing, protos))
        ensures ps == Compile(cfg, ing, protos)
      {
        ListDetermined(cfg, ing, protos, ps);
      }
    } else {
      var rule, original, host, path :| Exposes(cfg, ing, rule, original, host) && path in rule.paths
        && HostConflict(path);
      var other := OtherList(cfg, ing, protos, rule, original, host, path);
    }
  }

  /** The premise of convergence: all reconciles of an ingress without such a conflict, at the
      same services, want the same list. */
  lemma FaithfulDetermined(cfg: Config, ing: Ingress, env: Environment, env': Environment)
    requires NoExposedConflict(cfg, ing) && Faithful(cfg, ing, env) && Faithful(cfg, ing, env')
    requires env.services == env'.services
    ensures env.desired == env'.desired
  {
    hide Compile, ProxiesLike, NoExposedConflict, Protocols.IngressProtocols;
    var protos := Protocols.IngressProtocols(cfg, ing, env.services);
    ListDetermined(cfg, ing, protos, env.desired);
    ListDetermined(cfg, ing, protos, env'.desired);
  }

  // ---- A settled ingress is written again ------------------------------------------

  /** An ingress that has settled on one faithful list is written again as soon as the compiler
      returns another one. */
  lemma WrittenAgain(cfg: Config, s: Server, views: Views, k: Key, ds: seq<HTTPProxy>, specs: seq<HTTPProxy>,
                     calls: nat, env: Environment)
    requires Calm(cfg, s, views, k, ds) && Settled(cfg, s, k, ds)
    requires ProxiesLike(ds, specs) && ProxiesLike(env.desired, specs) && env.desired != ds
    ensures Program(s, views.proxies, s.ingresses[k].ing, calls, env).calls > calls
  {
    var ing := s.ingresses[k].ing;
    hide Exact, ChildKey, ViewsSeen, IngressHistory, ObservedBounded, Unclaimed, ChildCached, Program, ProxyLike,
         Prepared;
    var i :| 0 <= i < |ds| && ds[i] != env.desired[i];
    SameButSpec(ds[i], env.desired[i], specs[i]);
    RestsExactly(s, views.proxies, ing, calls, env);
    OtherNotInPlace(cfg, s, views.proxies, ing, ds, ds[i], env.desired[i]);
    assert env.desired[i] in env.desired;
    ProgramCalls(s, views.proxies, ing, calls, env);
  }

  lemma ProgramCalls(s: Server, view: seq<HTTPProxy>, ing: Ingress, calls: nat, env: Environment)
    ensures Program(s, view, ing, calls, env).calls >= calls
  {
    hide ApplyAll, OlderProxies, Leftovers;
    ApplyAllCalls(s, view, env.desired, calls, env);
  }

  lemma SameButSpec(d: HTTPProxy, e: HTTPProxy, spec: HTTPProxy)
    requires ProxyLike(d, spec) && ProxyLike(e, spec)
    ensures d.(spec := e.spec) == e
  {
    hide RoutesLike;
  }

  lemma OtherNotInPlace(cfg: Config, s: Server, view: seq<HTTPProxy>, ing: Ingress, ds: seq<HTTPProxy>, d: HTTPProxy,
                        e: HTTPProxy)
    requires Prepared(cfg, s, view, ing, ds) && Exact(s, ing, ds) && d in ds && d.(spec := e.spec) == e && d != e
    ensures Matches(view, e) == [] || Refreshed(Matches(view, e)[0], e) != Matches(view, e)[0]
  {
    hide Tidy, Targets, Separate, CollisionFree;
    SyncedAligned(cfg, s, view, ing, ds);
    if Matches(view, e) != [] {
      var m := Matches(view, e)[0];
      assert m in Matches(view, e) && SameTarget(m, d);
      assert s.proxies[KeyOf(d)] == m && Holds(m, d);
    }
  }
}
