/** Routing meaning: which backends a request reaches, on the side of the ingress and on the
    side of the compiled HTTPProxies, and the proof that the two agree. */
module Routing {
  import opened Model
  import opened Headers
  import opened Compiler
  import opened Outputs

  datatype Request = Request(path: string, headers: map<string, string>)

  datatype Backend = Backend(service: string, port: int, weight: int)

  predicate HeaderMatches(q: Request, name: string, exact: string) {
    name in q.headers && q.headers[name] == exact
  }

  predicate IsProbe(q: Request) {
    HeaderMatches(q, HASH_KEY, HASH_OVERRIDE)
  }

  // ---- The ingress side ------------------------------------------------------------

  ghost predicate PathMatches(path: Path, q: Request) {
    path.path <= q.path && forall k :: k in path.headers ==> HeaderMatches(q, k, path.headers[k])
  }

  /** The path matches once the probe header is left out of account. */
  ghost predicate PathMatchesProbe(path: Path, q: Request) {
    path.path <= q.path && forall k :: k in path.headers && k != HASH_KEY ==> HeaderMatches(q, k, path.headers[k])
  }

  function PathBackends(path: Path): seq<Backend> {
    seq(|path.splits|, i requires 0 <= i < |path.splits| =>
      Backend(path.splits[i].service, IntValue(path.splits[i].port), path.splits[i].percent))
  }

  /** The request reaches these backends under this fqdn and class by some path of some rule. */
  ghost predicate IngressServes(cfg: Config, ing: Ingress, fqdn: string, class_: string, q: Request, bs: seq<Backend>) {
    exists rule, originalHost, path ::
      Offers(cfg, ing, rule, originalHost, path, fqdn, class_) && PathMatches(path, q) && PathBackends(path) == bs
  }

  /** The probe copy of some path answers the request. */
  ghost predicate IngressServesProbe(cfg: Config, ing: Ingress, fqdn: string, class_: string, q: Request,
                                     bs: seq<Backend>) {
    && IsProbe(q)
    && exists rule, originalHost, path ::
         Offers(cfg, ing, rule, originalHost, path, fqdn, class_) && PathMatchesProbe(path, q)
           && PathBackends(path) == bs
  }

  ghost predicate Offers(cfg: Config, ing: Ingress, rule: Rule, originalHost: string, path: Path, fqdn: string,
                         class_: string) {
    && Exposes(cfg, ing, rule, originalHost, fqdn)
    && EffectiveClass(cfg, rule, originalHost) == class_
    && path in rule.paths
  }

  // ---- The HTTPProxy side ----------------------------------------------------------

  ghost predicate ConditionMatches(c: MatchCondition, q: Request) {
    c.prefix <= q.path && (c.header.Some? ==> HeaderMatches(q, c.header.value.name, c.header.value.value))
  }

  ghost predicate RouteMatches(r: Route, q: Request) {
    forall c :: c in r.conditions ==> ConditionMatches(c, q)
  }

  function RouteBackends(r: Route): seq<Backend> {
    seq(|r.services|, i requires 0 <= i < |r.services| =>
      Backend(r.services[i].name, r.services[i].port, r.services[i].weight))
  }

  ghost predicate RouteServes(p: HTTPProxy, r: Route, fqdn: string, class_: string, q: Request) {
    && p.spec.fqdn == fqdn
    && Lookup(p.annotations, CLASS_KEY) == class_
    && r in p.spec.routes
    && RouteMatches(r, q)
  }

  ghost predicate ProxiesServe(ps: seq<HTTPProxy>, fqdn: string, class_: string, q: Request, bs: seq<Backend>) {
    exists p, r :: p in ps && RouteServes(p, r, fqdn, class_, q) && RouteBackends(r) == bs
  }

  // ---- One path, one route ---------------------------------------------------------

  lemma RouteMatchesPath(cfg: Config, protos: map<string, string>, option: HTTPOption, visibility: string, path: Path,
                         q: Request)
    ensures RouteMatches(RouteOf(cfg, protos, option, visibility, path), q) <==> PathMatches(path, q)
    ensures RouteBackends(RouteOf(cfg, protos, option, visibility, path)) == PathBackends(path)
  {
    var r := RouteOf(cfg, protos, option, visibility, path);
    ConditionsSorted(path);
    hide Conditions, PreSplitHeaders;
    assert IsCondition(path, MatchCondition(path.path, None)) || path.path == "";
    if RouteMatches(r, q) {
      forall k | k in path.headers
        ensures HeaderMatches(q, k, path.headers[k])
      {
        assert IsCondition(path, HeaderCondition(k, path.headers[k]));
        assert ConditionMatches(HeaderCondition(k, path.headers[k]), q);
      }
      if path.path != "" {
        assert ConditionMatches(MatchCondition(path.path, None), q);
      }
    }
    if PathMatches(path, q) {
      forall c | c in r.conditions
        ensures ConditionMatches(c, q)
      {
        assert IsCondition(path, c);
      }
    }
  }

  lemma ProbePathMatches(path: Path, hash: string, q: Request)
    ensures PathMatches(ProbePath(path, hash), q) <==> IsProbe(q) && PathMatchesProbe(path, q)
    ensures PathBackends(ProbePath(path, hash)) == PathBackends(path)
  {
    var probe := ProbePath(path, hash);
    if PathMatches(probe, q) {
      assert HASH_KEY in probe.headers;
      forall k | k in path.headers && k != HASH_KEY
        ensures HeaderMatches(q, k, path.headers[k])
      {
        assert k in probe.headers && probe.headers[k] == path.headers[k];
      }
    }
  }

  // ---- The theorem -----------------------------------------------------------------

  /** For every request, fqdn and class: the compiled proxies send it to a list of backends
      exactly when some path of the ingress does, or when it is a probe and some path does
      once the probe header is left out of account. */
  lemma RoutingPreserved(cfg: Config, ing: Ingress, protos: map<string, string>, ps: seq<HTTPProxy>,
                         fqdn: string, class_: string, q: Request, bs: seq<Backend>)
    requires ProxiesLike(ps, Compile(cfg, ing, protos))
    ensures ProxiesServe(ps, fqdn, class_, q, bs)
       <==> IngressServes(cfg, ing, fqdn, class_, q, bs) || IngressServesProbe(cfg, ing, fqdn, class_, q, bs)
  {
    var compiled := Compile(cfg, ing, protos);
    hide Compile, Offers;
    LikeProxiesServe(ps, compiled, fqdn, class_, q, bs);
    if ProxiesServe(compiled, fqdn, class_, q, bs) {
      ServedBySource(cfg, ing, protos, fqdn, class_, q, bs);
    }
    if IngressServes(cfg, ing, fqdn, class_, q, bs) {
      var rule, originalHost, path :|
        Offers(cfg, ing, rule, originalHost, path, fqdn, class_) && PathMatches(path, q) && PathBackends(path) == bs;
      ServedByProxy(cfg, ing, protos, rule, originalHost, path, path, fqdn, class_, q);
    }
    if IngressServesProbe(cfg, ing, fqdn, class_, q, bs) {
      var rule, originalHost, path :|
        Offers(cfg, ing, rule, originalHost, path, fqdn, class_) && PathMatchesProbe(path, q)
          && PathBackends(path) == bs;
      var probe := ProbePath(path, SpecHash(cfg, ing));
      ProbePathMatches(path, SpecHash(cfg, ing), q);
      ServedByProxy(cfg, ing, protos, rule, originalHost, path, probe, fqdn, class_, q);
    }
  }

  /** Requests without the probe header are routed exactly as the ingress says. */
  lemma OrdinaryRoutingPreserved(cfg: Config, ing: Ingress, protos: map<string, string>, ps: seq<HTTPProxy>,
                                 fqdn: string, class_: string, q: Request, bs: seq<Backend>)
    requires ProxiesLike(ps, Compile(cfg, ing, protos)) && !IsProbe(q)
    ensures ProxiesServe(ps, fqdn, class_, q, bs) <==> IngressServes(cfg, ing, fqdn, class_, q, bs)
  {
    RoutingPreserved(cfg, ing, protos, ps, fqdn, class_, q, bs);
  }

  /** The order of header entries does not affect routing. */
  lemma LikeProxiesServe(ps: seq<HTTPProxy>, spec: seq<HTTPProxy>, fqdn: string, class_: string, q: Request,
                         bs: seq<Backend>)
    requires ProxiesLike(ps, spec)
    ensures ProxiesServe(ps, fqdn, class_, q, bs) <==> ProxiesServe(spec, fqdn, class_, q, bs)
  {
    hide ProxyLike, RouteServes, RouteBackends;
    if ProxiesServe(ps, fqdn, class_, q, bs) {
      var p, r :| p in ps && RouteServes(p, r, fqdn, class_, q) && RouteBackends(r) == bs;
      var i :| 0 <= i < |ps| && ps[i] == p;
      var j := ServingRoute(p, r, fqdn, class_, q);
      LikeRouteServes(p, spec[i], j, fqdn, class_, q);
      assert spec[i] in spec;
    }
    if ProxiesServe(spec, fqdn, class_, q, bs) {
      var p, r :| p in spec && RouteServes(p, r, fqdn, class_, q) && RouteBackends(r) == bs;
      var i :| 0 <= i < |ps| && spec[i] == p;
      var j := ServingRoute(p, r, fqdn, class_, q);
      LikeLength(ps[i], p);
      LikeRouteServes(ps[i], p, j, fqdn, class_, q);
      assert ps[i] in ps;
    }
  }

  lemma ServingRoute(p: HTTPProxy, r: Route, fqdn: string, class_: string, q: Request) returns (j: nat)
    requires RouteServes(p, r, fqdn, class_, q)
    ensures j < |p.spec.routes| && p.spec.routes[j] == r
  {
    hide RouteMatches;
    j :| 0 <= j < |p.spec.routes| && p.spec.routes[j] == r;
  }

  lemma LikeLength(p: HTTPProxy, spec: HTTPProxy)
    requires ProxyLike(p, spec)
    ensures |p.spec.routes| == |spec.spec.routes|
  {
    hide RouteLike;
  }

  lemma LikeRouteServes(p: HTTPProxy, spec: HTTPProxy, j: nat, fqdn: string, class_: string, q: Request)
    requires ProxyLike(p, spec) && j < |p.spec.routes|
    ensures j < |spec.spec.routes|
    ensures RouteServes(p, p.spec.routes[j], fqdn, class_, q)
       <==> RouteServes(spec, spec.spec.routes[j], fqdn, class_, q)
    ensures RouteBackends(p.spec.routes[j]) == RouteBackends(spec.spec.routes[j])
  {
    assert RouteLike(p.spec.routes[j], spec.spec.routes[j]);
  }

  lemma ServedBySource(cfg: Config, ing: Ingress, protos: map<string, string>, fqdn: string, class_: string, q: Request,
                       bs: seq<Backend>)
    requires ProxiesServe(Compile(cfg, ing, protos), fqdn, class_, q, bs)
    ensures IngressServes(cfg, ing, fqdn, class_, q, bs) || IngressServesProbe(cfg, ing, fqdn, class_, q, bs)
  {
    hide Compile, RouteOf, CertificateFor, ExpandedHosts, PathMatches, PathMatchesProbe, RouteMatches;
    var p, r :| p in Compile(cfg, ing, protos) && RouteServes(p, r, fqdn, class_, q) && RouteBackends(r) == bs;
    var rule, originalHost, host := CompileSound(cfg, ing, protos, p);
    var hash := SpecHash(cfg, ing);
    var probedRule := ProbedRule(rule, hash);
    var j :| 0 <= j < |probedRule.paths|
      && r == RouteOf(cfg, protos, ing.spec.httpOption, rule.visibility, probedRule.paths[j]);
    RouteMatchesPath(cfg, protos, ing.spec.httpOption, rule.visibility, probedRule.paths[j], q);
    var path := ProbedFrom(rule.paths, hash, probedRule.paths[j]);
    ProbePathMatches(path, hash, q);
    assert Offers(cfg, ing, rule, originalHost, path, fqdn, class_);
  }

  lemma ServedByProxy(cfg: Config, ing: Ingress, protos: map<string, string>, rule: Rule, originalHost: string,
                      path: Path, routed: Path, fqdn: string, class_: string, q: Request)
    requires Offers(cfg, ing, rule, originalHost, path, fqdn, class_)
    requires routed == path || routed == ProbePath(path, SpecHash(cfg, ing))
    requires PathMatches(routed, q)
    ensures ProxiesServe(Compile(cfg, ing, protos), fqdn, class_, q, PathBackends(routed))
    ensures exists p, r ::
              p in Compile(cfg, ing, protos) && RouteServes(p, r, fqdn, class_, q)
                && r.headers == PreSplitHeaders(routed)
  {
    hide Compile, CertificateFor, ExpandedHosts, PathMatches, Conditions, PreSplitHeaders, ServiceOf;
    CompileComplete(cfg, ing, protos, rule, originalHost, fqdn);
    var p := ProxyFor(cfg, ing, protos, rule, originalHost, fqdn);
    var hash := SpecHash(cfg, ing);
    var j := RoutedIndex(rule.paths, hash, path, routed);
    var r := RouteOf(cfg, protos, ing.spec.httpOption, rule.visibility, routed);
    assert p.spec.routes[j] == r;
    RouteMatchesPath(cfg, protos, ing.spec.httpOption, rule.visibility, routed, q);
    assert RouteServes(p, r, fqdn, class_, q);
  }

  lemma RoutedIndex(paths: seq<Path>, hash: string, path: Path, routed: Path) returns (j: nat)
    requires path in paths && (routed == path || routed == ProbePath(path, hash))
    ensures j < |WithProbes(paths, hash)| && WithProbes(paths, hash)[j] == routed
  {
    var i :| 0 <= i < |paths| && paths[i] == path;
    j := if routed == path then |paths| + i else i;
  }

  /** A probe that some path would serve is also answered by a route that marks the request
      with the hash of this very ingress, which is how a prober recognises the version. */
  lemma ProbesAreMarked(cfg: Config, ing: Ingress, protos: map<string, string>, rule: Rule, originalHost: string,
                        path: Path, fqdn: string, class_: string, q: Request)
    requires Offers(cfg, ing, rule, originalHost, path, fqdn, class_) && IsProbe(q) && PathMatchesProbe(path, q)
    ensures exists p, r :: p in Compile(cfg, ing, protos) && RouteServes(p, r, fqdn, class_, q)
                        && HeaderValue(HASH_KEY, SpecHash(cfg, ing)) in r.headers
  {
    hide Compile, Offers, PathMatches, PathMatchesProbe, PreSplitHeaders;
    var hash := SpecHash(cfg, ing);
    ProbePathMatches(path, hash, q);
    var probe := ProbePath(path, hash);
    ServedByProxy(cfg, ing, protos, rule, originalHost, path, probe, fqdn, class_, q);
    AppendedHeadersKept(probe, HASH_KEY);
  }

  lemma AppendedHeadersKept(path: Path, name: string)
    requires name in path.appendHeaders
    ensures HeaderValue(name, path.appendHeaders[name]) in PreSplitHeaders(path)
  {
    PreSplitHeadersAllowed(path);
    var h := HeaderValue(name, path.appendHeaders[name]);
    assert h in HeaderList(path.appendHeaders);
    assert h in multiset(HeaderList(path.appendHeaders));
    assert h in multiset(PreSplitHeaders(path));
  }
}
