/** `MakeHTTPProxies`: the translation of a KIngress into Contour HTTPProxies. */
module Compiler {
  import opened Text
  import opened Sorting
  import opened Model
  import opened Headers

  // ---- InsertProbe -----------------------------------------------------------------

  /** The copy of a path that only answers requests carrying the probe header, and marks
      them with the hash of the ingress. */
  function ProbePath(path: Path, hash: string): Path {
    path.(headers := path.headers[HASH_KEY := HASH_OVERRIDE],
          appendHeaders := path.appendHeaders[HASH_KEY := hash])
  }

  function WithProbes(paths: seq<Path>, hash: string): seq<Path> {
    seq(|paths|, i requires 0 <= i < |paths| => ProbePath(paths[i], hash)) + paths
  }

  function ProbedRule(rule: Rule, hash: string): Rule {
    rule.(paths := WithProbes(rule.paths, hash))
  }

  function SpecHash(cfg: Config, ing: Ingress): string {
    cfg.specHash(ing.spec, ing.ns, ing.name)
  }

  function InsertProbe(cfg: Config, ing: Ingress): Ingress {
    var rules := ing.spec.rules;
    ing.(spec := ing.spec.(rules := seq(|rules|,
                                        i requires 0 <= i < |rules| => ProbedRule(rules[i], SpecHash(cfg, ing)))))
  }

  // ---- TLS -------------------------------------------------------------------------

  predicate CoversHosts(tls: TLS, hosts: seq<string>) {
    forall h :: h in hosts ==> h in tls.hosts
  }

  function Covering(tls: seq<TLS>, hosts: seq<string>): seq<TLS> {
    if tls == [] then []
    else (if CoversHosts(tls[0], hosts) then [tls[0]] else []) + Covering(tls[1..], hosts)
  }

  /** `GetIngressTLSForVisibility`: stops at the first rule of that visibility without hosts. */
  function TLSForRules(tls: seq<TLS>, rules: seq<Rule>, visibility: string): seq<TLS> {
    if rules == [] then []
    else if rules[0].visibility != visibility then TLSForRules(tls, rules[1..], visibility)
    else if rules[0].hosts == [] then []
    else Covering(tls, rules[0].hosts) + TLSForRules(tls, rules[1..], visibility)
  }

  function TLSForVisibility(spec: IngressSpec, visibility: string): seq<TLS> {
    TLSForRules(spec.tls, spec.rules, visibility)
  }

  /** `addHostEntries`: later certificates overwrite earlier ones. */
  method AddHostEntries(entries: map<string, TLS>, list: seq<TLS>) returns (r: map<string, TLS>)
    ensures forall h :: h in r <==> h in entries || Listed(list, h)
    ensures forall h :: h in r ==> r[h] == if Listed(list, h) then LastFor(list, h) else entries[h]
  {
    r := entries;
    for i := 0 to |list|
      invariant forall h :: h in r <==> h in entries || Listed(list[..i], h)
      invariant forall h :: h in r ==> r[h] == if Listed(list[..i], h) then LastFor(list[..i], h) else entries[h]
    {
      ghost var before := r;
      assert list[..i + 1][..i] == list[..i];
      for j := 0 to |list[i].hosts|
        invariant forall h :: h in r <==> h in before || h in list[i].hosts[..j]
        invariant forall h :: h in r ==> r[h] == if h in list[i].hosts[..j] then list[i] else before[h]
      {
        r := r[list[i].hosts[j] := list[i]];
        assert list[i].hosts[..j + 1] == list[i].hosts[..j] + [list[i].hosts[j]];
      }
      assert list[i].hosts[..|list[i].hosts|] == list[i].hosts;
    }
    assert list[..|list|] == list;
  }

  ghost predicate Listed(list: seq<TLS>, host: string) {
    list != [] && (host in list[|list| - 1].hosts || Listed(list[..|list| - 1], host))
  }

  /** The last certificate listed for a host. */
  ghost function LastFor(list: seq<TLS>, host: string): TLS
    requires Listed(list, host)
  {
    var last := list[|list| - 1];
    if host in last.hosts then last else LastFor(list[..|list| - 1], host)
  }

  /** The certificate of a host: the last cluster-local one, else the last external one. */
  ghost function CertificateFor(spec: IngressSpec, host: string): Option<TLS> {
    var external, internal := TLSForVisibility(spec, EXTERNAL_IP), TLSForVisibility(spec, CLUSTER_LOCAL);
    if Listed(internal, host) then Some(LastFor(internal, host))
    else if Listed(external, host) then Some(LastFor(external, host))
    else None
  }

  method TLSEntries(spec: IngressSpec) returns (entries: map<string, TLS>)
    ensures IsTLSEntries(spec, entries)
  {
    entries := AddHostEntries(map[], TLSForVisibility(spec, EXTERNAL_IP));
    entries := AddHostEntries(entries, TLSForVisibility(spec, CLUSTER_LOCAL));
  }

  // ---- Services --------------------------------------------------------------------

  predicate IsDomainMapping(path: Path, split: Split) {
    path.rewriteHost != "" && ORIGINAL_HOST_KEY in split.appendHeaders
  }

  predicate IsHTTPChallenge(path: Path) {
    Contains(path.path, HTTP_CHALLENGE_PATH)
  }

  function ServiceProtocol(protos: map<string, string>, path: Path, split: Split): Option<string> {
    if IsHTTPChallenge(path) || split.service !in protos then None
    else if IsDomainMapping(path, split) then Some("h2c")
    else Some(protos[split.service])
  }

  ghost function ServiceOf(cfg: Config, protos: map<string, string>, path: Path, split: Split): Service {
    Service(
      split.service,
      IntValue(split.port),
      split.percent,
      if split.appendHeaders == map[] then None else Some(HeaderList(split.appendHeaders)),
      ServiceProtocol(protos, path, split),
      cfg.internalTLS && !IsHTTPChallenge(path))
  }

  method MakeService(cfg: Config, protos: map<string, string>, path: Path, split: Split) returns (svc: Service)
    ensures svc == ServiceOf(cfg, protos, path, split)
  {
    svc := Service(split.service, IntValue(split.port), split.percent, None, None, false);
    var postSplitHeaders := CollectEntries(split.appendHeaders);
    if |postSplitHeaders| > 0 {
      postSplitHeaders := SortByName(postSplitHeaders);
      svc := svc.(headers := Some(postSplitHeaders));
      HeaderListUnique(split.appendHeaders, postSplitHeaders);
    }
    HeaderListLength(split.appendHeaders, postSplitHeaders);
    if split.service in protos {
      if path.rewriteHost != "" && ORIGINAL_HOST_KEY in split.appendHeaders {
        svc := svc.(protocol := Some("h2c"));
      } else {
        svc := svc.(protocol := Some(protos[split.service]));
      }
    }
    if cfg.internalTLS {
      svc := svc.(upstreamValidation := true);
    }
    if Contains(path.path, HTTP_CHALLENGE_PATH) {
      svc := svc.(protocol := None, upstreamValidation := false);
    }
  }

  lemma HeaderListLength(m: map<string, string>, hs: seq<HeaderValue>)
    requires multiset(hs) == multiset(HeaderList(m))
    ensures hs == [] <==> m == map[]
  {
    var l := HeaderList(m);
    assert |hs| == |multiset(hs)| == |multiset(l)| == |l|;
    if m != map[] {
      var k :| k in m;
      assert HeaderValue(k, m[k]) in l;
    }
  }

  // ---- Routes ----------------------------------------------------------------------

  predicate PermitInsecure(option: HTTPOption, visibility: string) {
    option == Enabled || visibility == CLUSTER_LOCAL
  }

  ghost function RouteOf(cfg: Config, protos: map<string, string>, option: HTTPOption, visibility: string,
                         path: Path): Route {
    Route(
      Conditions(path),
      seq(|path.splits|, i requires 0 <= i < |path.splits| => ServiceOf(cfg, protos, path, path.splits[i])),
      PreSplitHeaders(path),
      PermitInsecure(option, visibility))
  }

  /** Equal but for the order in which conflicting Host entries came out. */
  ghost predicate RouteLike(r: Route, spec: Route) {
    r.(headers := spec.headers) == spec && multiset(r.headers) == multiset(spec.headers) && NameOrdered(r.headers)
  }

  method MakeRoute(cfg: Config, protos: map<string, string>, option: HTTPOption, visibility: string, path: Path)
    returns (r: Route)
    ensures RouteLike(r, RouteOf(cfg, protos, option, visibility, path))
    ensures !HostConflict(path) ==> r == RouteOf(cfg, protos, option, visibility, path)
  {
    hide ServiceOf, Conditions, PreSplitHeaders;
    var preSplitHeaders := MakePreSplitHeaders(path);
    PreSplitHeadersAllowed(path);
    var svcs := [];
    for i := 0 to |path.splits|
      invariant |svcs| == i && forall j :: 0 <= j < i ==> svcs[j] == ServiceOf(cfg, protos, path, path.splits[j])
    {
      var svc := MakeService(cfg, protos, path, path.splits[i]);
      svcs := svcs + [svc];
    }
    var conditions := MakeConditions(path);
    var ai := match option { case Redirected => false case Enabled => true case Unset => false };
    if visibility == CLUSTER_LOCAL {
      ai := true;
    }
    r := Route(conditions, svcs, preSplitHeaders, ai);
    assert svcs == RouteOf(cfg, protos, option, visibility, path).services;
  }

  ghost function RoutesOf(cfg: Config, protos: map<string, string>, option: HTTPOption, rule: Rule): (rs: seq<Route>)
    ensures |rs| == |rule.paths|
  {
    seq(|rule.paths|, i requires 0 <= i < |rule.paths| => RouteOf(cfg, protos, option, rule.visibility, rule.paths[i]))
  }

  method MakeRoutes(cfg: Config, protos: map<string, string>, option: HTTPOption, rule: Rule) returns (rs: seq<Route>)
    ensures RoutesLike(rs, RoutesOf(cfg, protos, option, rule))
    ensures (forall p :: p in rule.paths ==> !HostConflict(p)) ==> rs == RoutesOf(cfg, protos, option, rule)
  {
    hide RouteOf;
    rs := [];
    ghost var spec := RoutesOf(cfg, protos, option, rule);
    for i := 0 to |rule.paths|
      invariant |rs| == i
      invariant forall j :: 0 <= j < i ==> RouteLike(rs[j], spec[j])
      invariant forall j :: 0 <= j < i && !HostConflict(rule.paths[j]) ==> rs[j] == spec[j]
    {
      var r := MakeRoute(cfg, protos, option, rule.visibility, rule.paths[i]);
      rs := rs + [r];
    }
  }

  ghost predicate RoutesLike(rs: seq<Route>, spec: seq<Route>) {
    |rs| == |spec| && forall i :: 0 <= i < |rs| ==> RouteLike(rs[i], spec[i])
  }

  // ---- Proxies ---------------------------------------------------------------------

  /** Cluster-domain hosts are served by the cluster-local class, whatever the rule says. */
  function EffectiveVisibility(cfg: Config, rule: Rule, originalHost: string): string {
    if HasSuffix(originalHost, cfg.clusterDomain) then CLUSTER_LOCAL else rule.visibility
  }

  function EffectiveClass(cfg: Config, rule: Rule, originalHost: string): string {
    Lookup(cfg.classes, EffectiveVisibility(cfg, rule, originalHost))
  }

  function ProxyName(cfg: Config, parent: string, class_: string, host: string): string {
    cfg.childName(parent + "-" + class_ + "-", host)
  }

  function SecretOf(cfg: Config, certificate: Option<TLS>, visibility: string): Option<string> {
    match certificate
    case Some(tls) => Some(tls.secretNamespace + "/" + tls.secretName)
    case None => if visibility == EXTERNAL_IP then cfg.defaultTLSSecret else None
  }

  function ProxyOf(cfg: Config, ing: Ingress, rule: Rule, routes: seq<Route>, certificate: Option<TLS>,
                   originalHost: string, host: string): HTTPProxy
  {
    var class_ := EffectiveClass(cfg, rule, originalHost);
    HTTPProxy(
      ing.ns,
      ProxyName(cfg, ing.name, class_, host),
      0,
      Labels(Some(ing.name), Some(ing.generation), Some(cfg.sha1(host)), Some(class_)),
      ing.annotations[CLASS_KEY := class_],
      ProxySpec(host, SecretOf(cfg, certificate, rule.visibility), routes),
      "")
  }

  /** One proxy per expanded host, ascending. `ing` is the ingress with its probes inserted. */
  ghost function HostProxies(cfg: Config, ing: Ingress, rule: Rule, routes: seq<Route>,
                             originalHost: string): seq<HTTPProxy> {
    var hs := Ascending(ExpandedHosts(cfg.clusterDomain, originalHost));
    seq(|hs|, i requires 0 <= i < |hs| =>
      ProxyOf(cfg, ing, rule, routes, CertificateFor(ing.spec, hs[i]), originalHost, hs[i]))
  }

  ghost function RuleProxies(cfg: Config, ing: Ingress, rule: Rule, routes: seq<Route>,
                             hosts: seq<string>): seq<HTTPProxy> {
    if hosts == [] then []
    else
      RuleProxies(cfg, ing, rule, routes, hosts[..|hosts| - 1])
        + HostProxies(cfg, ing, rule, routes, hosts[|hosts| - 1])
  }

  ghost function RulesProxies(cfg: Config, protos: map<string, string>, ing: Ingress,
                              rules: seq<Rule>): seq<HTTPProxy> {
    if rules == [] then []
    else
      var last := rules[|rules| - 1];
      RulesProxies(cfg, protos, ing, rules[..|rules| - 1])
      + RuleProxies(cfg, ing, last, RoutesOf(cfg, protos, ing.spec.httpOption, last), last.hosts)
  }

  /** The HTTPProxies of an ingress, given the protocol of each service. */
  ghost function Compile(cfg: Config, ing: Ingress, protos: map<string, string>): seq<HTTPProxy> {
    var probed := InsertProbe(cfg, ing);
    RulesProxies(cfg, protos, probed, probed.spec.rules)
  }

  ghost predicate ProxyLike(p: HTTPProxy, spec: HTTPProxy) {
    && p.(spec := p.spec.(routes := spec.spec.routes)) == spec
    && RoutesLike(p.spec.routes, spec.spec.routes)
  }

  ghost predicate ProxiesLike(ps: seq<HTTPProxy>, spec: seq<HTTPProxy>) {
    |ps| == |spec| && forall i :: 0 <= i < |ps| ==> ProxyLike(ps[i], spec[i])
  }

  lemma ProxiesLikeConcat(a: seq<HTTPProxy>, b: seq<HTTPProxy>, a': seq<HTTPProxy>, b': seq<HTTPProxy>)
    requires ProxiesLike(a, a') && ProxiesLike(b, b')
    ensures ProxiesLike(a + b, a' + b')
  {
  }

  ghost predicate IsTLSEntries(spec: IngressSpec, entries: map<string, TLS>) {
    forall h :: CertificateFor(spec, h) == if h in entries then Some(entries[h]) else None
  }

  lemma ProxyOfLike(cfg: Config, ing: Ingress, rule: Rule, routes: seq<Route>, spec: seq<Route>,
                    certificate: Option<TLS>, originalHost: string, host: string)
    requires RoutesLike(routes, spec)
    ensures ProxyLike(ProxyOf(cfg, ing, rule, routes, certificate, originalHost, host),
                      ProxyOf(cfg, ing, rule, spec, certificate, originalHost, host))
  {
  }

  method MakeHostProxies(cfg: Config, ing: Ingress, rule: Rule, routes: seq<Route>, ghost spec: seq<Route>,
                         tlsEntries: map<string, TLS>, originalHost: string) returns (proxies: seq<HTTPProxy>)
    requires RoutesLike(routes, spec) && IsTLSEntries(ing.spec, tlsEntries)
    ensures ProxiesLike(proxies, HostProxies(cfg, ing, rule, spec, originalHost))
    ensures routes == spec ==> proxies == HostProxies(cfg, ing, rule, spec, originalHost)
  {
    hide ProxyOf, ProxyLike, CertificateFor, ExpandedHosts, Ascending;
    ghost var wanted := HostProxies(cfg, ing, rule, spec, originalHost);
    proxies := [];
    var hosts := SortedList(ExpandedHosts(cfg.clusterDomain, originalHost));
    for i := 0 to |hosts|
      invariant |proxies| == i
      invariant forall j :: 0 <= j < i ==> ProxyLike(proxies[j], wanted[j])
      invariant routes == spec ==> forall j :: 0 <= j < i ==> proxies[j] == wanted[j]
    {
      var certificate := if hosts[i] in tlsEntries then Some(tlsEntries[hosts[i]]) else None;
      assert certificate == CertificateFor(ing.spec, hosts[i]);
      ProxyOfLike(cfg, ing, rule, routes, spec, certificate, originalHost, hosts[i]);
      var proxy := ProxyOf(cfg, ing, rule, routes, certificate, originalHost, hosts[i]);
      proxies := proxies + [proxy];
    }
  }

  method MakeRuleProxies(cfg: Config, ing: Ingress, rule: Rule, routes: seq<Route>, ghost spec: seq<Route>,
                         tlsEntries: map<string, TLS>) returns (proxies: seq<HTTPProxy>)
    requires RoutesLike(routes, spec) && IsTLSEntries(ing.spec, tlsEntries)
    ensures ProxiesLike(proxies, RuleProxies(cfg, ing, rule, spec, rule.hosts))
    ensures routes == spec ==> proxies == RuleProxies(cfg, ing, rule, spec, rule.hosts)
  {
    hide HostProxies, ProxyLike;
    proxies := [];
    for i := 0 to |rule.hosts|
      invariant ProxiesLike(proxies, RuleProxies(cfg, ing, rule, spec, rule.hosts[..i]))
      invariant routes == spec ==> proxies == RuleProxies(cfg, ing, rule, spec, rule.hosts[..i])
    {
      var more := MakeHostProxies(cfg, ing, rule, routes, spec, tlsEntries, rule.hosts[i]);
      assert rule.hosts[..i + 1][..i] == rule.hosts[..i];
      ProxiesLikeConcat(proxies, more, RuleProxies(cfg, ing, rule, spec, rule.hosts[..i]),
                        HostProxies(cfg, ing, rule, spec, rule.hosts[i]));
      proxies := proxies + more;
    }
    assert rule.hosts[..|rule.hosts|] == rule.hosts;
  }

  /** No path of the ingress appends a Host header that conflicts with its rewritten one. */
  ghost predicate NoHostConflict(ing: Ingress) {
    forall r, p :: r in ing.spec.rules && p in r.paths ==> !HostConflict(p)
  }

  /** `MakeHTTPProxies`, with every map iterated in an arbitrary order. */
  method MakeHTTPProxies(cfg: Config, ing: Ingress, protos: map<string, string>) returns (proxies: seq<HTTPProxy>)
    ensures ProxiesLike(proxies, Compile(cfg, ing, protos))
    ensures NoHostConflict(ing) ==> proxies == Compile(cfg, ing, protos)
  {
    var probed := InsertProbe(cfg, ing);
    if NoHostConflict(ing) {
      ProbesKeepHosts(cfg, ing);
    }
    var rules := probed.spec.rules;
    var tlsEntries := TLSEntries(probed.spec);
    proxies := [];
    for i := 0 to |rules|
      invariant ProxiesLike(proxies, RulesProxies(cfg, protos, probed, rules[..i]))
      invariant NoHostConflict(ing) ==> proxies == RulesProxies(cfg, protos, probed, rules[..i])
    {
      var routes := MakeRoutes(cfg, protos, probed.spec.httpOption, rules[i]);
      ghost var spec := RoutesOf(cfg, protos, probed.spec.httpOption, rules[i]);
      var more := MakeRuleProxies(cfg, probed, rules[i], routes, spec, tlsEntries);
      assert rules[..i + 1][..i] == rules[..i];
      ProxiesLikeConcat(proxies, more, RulesProxies(cfg, protos, probed, rules[..i]),
                        RuleProxies(cfg, probed, rules[i], spec, rules[i].hosts));
      proxies := proxies + more;
    }
    assert rules[..|rules|] == rules;
  }

  lemma ProbesKeepHosts(cfg: Config, ing: Ingress)
    requires NoHostConflict(ing)
    ensures NoHostConflict(InsertProbe(cfg, ing))
  {
    var probed := InsertProbe(cfg, ing);
    forall r, p | r in probed.spec.rules && p in r.paths
      ensures !HostConflict(p)
    {
      var i :| 0 <= i < |ing.spec.rules| && r == ProbedRule(ing.spec.rules[i], SpecHash(cfg, ing));
      var q := ProbedFrom(ing.spec.rules[i].paths, SpecHash(cfg, ing), p);
      assert !HostConflict(q);
      assert HASH_KEY[0] != HOST[0];
    }
  }

  /** Every path after `InsertProbe` is an original path or the probe copy of one. */
  lemma ProbedFrom(paths: seq<Path>, hash: string, p: Path) returns (original: Path)
    requires p in WithProbes(paths, hash)
    ensures original in paths && (p == original || p == ProbePath(original, hash))
  {
    var i :| 0 <= i < |WithProbes(paths, hash)| && WithProbes(paths, hash)[i] == p;
    original := paths[if i < |paths| then i else i - |paths|];
  }
}
