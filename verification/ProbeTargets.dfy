/** `ListProbeTargets`: which Envoy pods must answer for which URLs before an ingress counts as
    ready, and how that relates to the proxies that were compiled. */
module ProbeTargets {
  import opened Text
  import opened Model
  import opened Compiler
  import opened Outputs

  datatype NamespacedName = NamespacedName(ns: string, name: string)

  datatype ServicePort = ServicePort(number: nat, name: string)

  datatype Subset = Subset(addresses: seq<string>, ports: seq<ServicePort>)

  datatype Url = Url(scheme: string, host: string)

  datatype ProbeTarget = ProbeTarget(podIPs: set<string>, port: string, podPort: string, urls: seq<Url>)

  // ---- Library lookups -------------------------------------------------------------

  function FirstSlash(key: string): (i: nat)
    ensures i <= |key| && '/' !in key[..i] && (i < |key| ==> key[i] == '/')
  {
    if key == "" || key[0] == '/' then 0
    else
      var i := 1 + FirstSlash(key[1..]);
      assert key[..i] == [key[0]] + key[1..][..i - 1];
      i
  }

  /** `SplitMetaNamespaceKey`: at most one slash. */
  function SplitKey(key: string): Option<NamespacedName> {
    var i := FirstSlash(key);
    if i == |key| then Some(NamespacedName("", key))
    else if '/' in key[i + 1..] then None
    else Some(NamespacedName(key[..i], key[i + 1..]))
  }

  function NameForPortNumber(ports: seq<ServicePort>, number: nat): Option<string> {
    if ports == [] then None
    else if ports[0].number == number then Some(ports[0].name)
    else NameForPortNumber(ports[1..], number)
  }

  function PortNumberForName(ports: seq<ServicePort>, name: string): Option<nat> {
    if ports == [] then None
    else if ports[0].name == name then Some(ports[0].number)
    else PortNumberForName(ports[1..], name)
  }

  // ---- Hosts per visibility --------------------------------------------------------

  /** The keys of the Envoy services of a visibility. */
  function KeysOf(cfg: Config, visibility: string): set<string> {
    if visibility in cfg.keys then cfg.keys[visibility] else {}
  }

  ghost predicate ExposedUnder(cfg: Config, rules: seq<Rule>, key: string, host: string) {
    exists rule, original ::
      rule in rules && original in rule.hosts && key in KeysOf(cfg, rule.visibility)
        && host in ExpandedHosts(cfg.clusterDomain, original)
  }

  ghost predicate Has(hosts: map<string, set<string>>, key: string, host: string) {
    key in hosts && host in hosts[key]
  }

  /** Every expanded host of a rule, under every key of the rule's visibility. */
  ghost predicate PerVisibility(cfg: Config, rules: seq<Rule>, hosts: map<string, set<string>>) {
    && (forall key :: key in hosts ==> hosts[key] != {})
    && (forall key, host :: Has(hosts, key, host) <==> ExposedUnder(cfg, rules, key, host))
  }

  function Inserted(hosts: map<string, set<string>>, key: string, host: string): map<string, set<string>> {
    hosts[key := (if key in hosts then hosts[key] else {}) + {host}]
  }

  lemma InsertedHas(hosts: map<string, set<string>>, key: string, host: string)
    requires forall k :: k in hosts ==> hosts[k] != {}
    ensures var r := Inserted(hosts, key, host);
            && (forall k :: k in r ==> r[k] != {})
            && (forall k, h :: Has(r, k, h) <==> Has(hosts, k, h) || (k == key && h == host))
  {
  }

  method InsertUnder(hosts: map<string, set<string>>, keys: set<string>,
                     host: string) returns (r: map<string, set<string>>)
    requires forall key :: key in hosts ==> hosts[key] != {}
    ensures forall key :: key in r ==> r[key] != {}
    ensures forall key, h :: Has(r, key, h) <==> Has(hosts, key, h) || (key in keys && h == host)
  {
    hide Inserted, Has;
    r := hosts;
    var todo := keys;
    while todo != {}
      invariant todo <= keys
      invariant forall key :: key in r ==> r[key] != {}
      invariant forall key, h :: Has(r, key, h) <==> Has(hosts, key, h) || (key in keys - todo && h == host)
    {
      var key :| key in todo;
      todo := todo - {key};
      InsertedHas(r, key, host);
      r := Inserted(r, key, host);
    }
  }

  /** `ExpandedHosts` of all the hosts of a rule. */
  method ExpandAll(clusterDomain: string, hosts: seq<string>) returns (expanded: set<string>)
    ensures forall h :: h in expanded <==> exists original ::
              original in hosts && h in ExpandedHosts(clusterDomain, original)
  {
    hide ExpandedHosts;
    expanded := {};
    for i := 0 to |hosts|
      invariant forall h :: h in expanded <==> exists original ::
                  original in hosts[..i] && h in ExpandedHosts(clusterDomain, original)
    {
      assert hosts[..i + 1] == hosts[..i] + [hosts[i]];
      expanded := expanded + ExpandedHosts(clusterDomain, hosts[i]);
    }
    assert hosts[..|hosts|] == hosts;
  }

  method InsertRule(cfg: Config, hosts: map<string, set<string>>, rule: Rule) returns (r: map<string, set<string>>)
    requires forall key :: key in hosts ==> hosts[key] != {}
    ensures forall key :: key in r ==> r[key] != {}
    ensures forall key, h :: Has(r, key, h) <==> Has(hosts, key, h) || ExposedUnder(cfg, [rule], key, h)
  {
    hide ExpandedHosts, Has;
    var expanded := ExpandAll(cfg.clusterDomain, rule.hosts);
    assert forall x :: x in [rule] <==> x == rule;
    r := hosts;
    var todo := expanded;
    while todo != {}
      invariant todo <= expanded
      invariant forall key :: key in r ==> r[key] != {}
      invariant forall key, h ::
                  Has(r, key, h) <==>
                  Has(hosts, key, h) || (key in KeysOf(cfg, rule.visibility) && h in expanded - todo)
    {
      var host :| host in todo;
      todo := todo - {host};
      r := InsertUnder(r, KeysOf(cfg, rule.visibility), host);
    }
    assert forall key, h :: ExposedUnder(cfg, [rule], key, h) <==> key in KeysOf(cfg, rule.visibility) && h in expanded;
  }

  method HostsPerVisibility(cfg: Config, ing: Ingress) returns (output: map<string, set<string>>)
    ensures PerVisibility(cfg, ing.spec.rules, output)
  {
    hide ExposedUnder, Has;
    var rules := ing.spec.rules;
    output := map[];
    NothingExposed(cfg);
    assert forall key, h :: !Has(output, key, h) by {
      NothingHeld();
    }
    for i := 0 to |rules|
      invariant PerVisibility(cfg, rules[..i], output)
    {
      output := InsertRule(cfg, output, rules[i]);
      MoreRules(cfg, rules[..i], rules[i]);
      assert rules[..i + 1] == rules[..i] + [rules[i]];
    }
    assert rules[..|rules|] == rules;
  }

  lemma NothingHeld()
    ensures forall key, h :: !Has(map[], key, h)
  {
  }

  lemma NothingExposed(cfg: Config)
    ensures forall key, h :: !ExposedUnder(cfg, [], key, h)
  {
  }

  lemma MoreRules(cfg: Config, rules: seq<Rule>, rule: Rule)
    ensures forall key, h ::
              ExposedUnder(cfg, rules + [rule], key, h) <==>
              ExposedUnder(cfg, rules, key, h) || ExposedUnder(cfg, [rule], key, h)
  {
    hide ExpandedHosts, KeysOf;
    assert forall x :: x in rules + [rule] <==> x in rules || x in [rule];
  }

  // ---- Targets of one key ----------------------------------------------------------

  /** External Envoys are probed over HTTPS when HTTP is redirected. */
  predicate Secure(cfg: Config, ing: Ingress, key: string) {
    ing.spec.httpOption == Redirected && key !in KeysOf(cfg, CLUSTER_LOCAL)
  }

  function ProbePort(secure: bool): nat {
    if secure then 443 else 80
  }

  function Scheme(secure: bool): string {
    if secure then "https" else "http"
  }

  /** The Envoy services and their endpoints, as the listers show them. */
  datatype Gateways = Gateways(
    services: map<NamespacedName, seq<ServicePort>>,
    endpoints: map<NamespacedName, seq<Subset>>)

  /** The key names a service with endpoints, each of which has the port to be probed. */
  predicate Resolvable(g: Gateways, key: string, port: nat) {
    && SplitKey(key).Some?
    && var nn := SplitKey(key).value;
    && nn in g.services && nn in g.endpoints
    && NameForPortNumber(g.services[nn], port).Some?
    && forall sub :: sub in g.endpoints[nn]
                     ==> PortNumberForName(sub.ports, NameForPortNumber(g.services[nn], port).value).Some?
  }

  /** The target of a subset: all its addresses, and each host exactly once. */
  ghost predicate TargetFor(g: Gateways, key: string, secure: bool, hosts: set<string>, sub: Subset, t: ProbeTarget)
    requires Resolvable(g, key, ProbePort(secure)) && sub in g.endpoints[SplitKey(key).value]
  {
    var name := NameForPortNumber(g.services[SplitKey(key).value], ProbePort(secure)).value;
    && t.podIPs == (set a | a in sub.addresses)
    && t.port == Itoa(ProbePort(secure))
    && t.podPort == Itoa(PortNumberForName(sub.ports, name).value)
    && UrlsFor(t.urls, Scheme(secure), hosts)
  }

  ghost predicate UrlsFor(urls: seq<Url>, scheme: string, hosts: set<string>) {
    && (forall u :: u in urls <==> u.scheme == scheme && u.host in hosts)
    && (forall i, j :: 0 <= i < j < |urls| ==> urls[i] != urls[j])
  }

  /** One target per subset, in order. */
  ghost predicate TargetsFor(g: Gateways, key: string, secure: bool, hosts: set<string>, ts: seq<ProbeTarget>) {
    && Resolvable(g, key, ProbePort(secure))
    && var subsets := g.endpoints[SplitKey(key).value];
    && |ts| == |subsets|
    && forall i :: 0 <= i < |ts| ==> TargetFor(g, key, secure, hosts, subsets[i], ts[i])
  }

  method MakeUrls(scheme: string, hosts: set<string>) returns (urls: seq<Url>)
    ensures UrlsFor(urls, scheme, hosts)
  {
    urls := [];
    var todo := hosts;
    while todo != {}
      invariant todo <= hosts
      invariant UrlsFor(urls, scheme, hosts - todo)
    {
      var host :| host in todo;
      todo := todo - {host};
      urls := urls + [Url(scheme, host)];
    }
  }

  method ListSubsets(g: Gateways, key: string, secure: bool,
                     hosts: set<string>) returns (ok: bool, ts: seq<ProbeTarget>)
    ensures ok <==> Resolvable(g, key, ProbePort(secure))
    ensures ok ==> TargetsFor(g, key, secure, hosts, ts)
  {
    ok, ts := false, [];
    var nn := SplitKey(key);
    if nn.None? || nn.value !in g.services || nn.value !in g.endpoints {
      return;
    }
    var urls := MakeUrls(Scheme(secure), hosts);
    var portName := NameForPortNumber(g.services[nn.value], ProbePort(secure));
    if portName.None? {
      return;
    }
    hide SplitKey, NameForPortNumber, PortNumberForName, Itoa, UrlsFor;
    var subsets := g.endpoints[nn.value];
    for i := 0 to |subsets|
      invariant |ts| == i
      invariant forall j :: 0 <= j < i ==>
        && PortNumberForName(subsets[j].ports, portName.value).Some?
        && ts[j] == ProbeTarget((set a | a in subsets[j].addresses), Itoa(ProbePort(secure)),
                                Itoa(PortNumberForName(subsets[j].ports, portName.value).value), urls)
    {
      var podPort := PortNumberForName(subsets[i].ports, portName.value);
      if podPort.None? {
        assert subsets[i] in subsets;
        return;
      }
      var pt := ProbeTarget({}, Itoa(ProbePort(secure)), Itoa(podPort.value), urls);
      for j := 0 to |subsets[i].addresses|
        invariant pt
          == ProbeTarget((set a | a in subsets[i].addresses[..j]), Itoa(ProbePort(secure)), Itoa(podPort.value), urls)
      {
        pt := pt.(podIPs := pt.podIPs + {subsets[i].addresses[j]});
        assert subsets[i].addresses[..j + 1] == subsets[i].addresses[..j] + [subsets[i].addresses[j]];
      }
      assert subsets[i].addresses[..|subsets[i].addresses|] == subsets[i].addresses;
      ts := ts + [pt];
    }
    ok := true;
  }

  // ---- All targets -----------------------------------------------------------------

  function Flatten(parts: seq<seq<ProbeTarget>>): seq<ProbeTarget> {
    if parts == [] then [] else Flatten(parts[..|parts| - 1]) + parts[|parts| - 1]
  }

  ghost predicate NoDuplicates(keys: seq<string>) {
    forall i, j :: 0 <= i < j < |keys| ==> keys[i] != keys[j]
  }

  ghost predicate HasHosts(cfg: Config, ing: Ingress, key: string) {
    exists h :: ExposedUnder(cfg, ing.spec.rules, key, h)
  }

  /** The targets of every key that has hosts, key by key in some order. */
  ghost predicate AllTargets(cfg: Config, ing: Ingress, g: Gateways, keys: seq<string>, parts: seq<seq<ProbeTarget>>) {
    && NoDuplicates(keys) && |parts| == |keys|
    && (forall key :: key in keys <==> HasHosts(cfg, ing, key))
    && forall i :: 0 <= i < |keys| ==> Complete(cfg, ing, g, keys[i], parts[i])
  }

  ghost predicate Complete(cfg: Config, ing: Ingress, g: Gateways, key: string, ts: seq<ProbeTarget>) {
    exists hosts :: HostsOf(cfg, ing, key, hosts) && TargetsFor(g, key, Secure(cfg, ing, key), hosts, ts)
  }

  ghost predicate HostsOf(cfg: Config, ing: Ingress, key: string, hosts: set<string>) {
    forall h :: h in hosts <==> ExposedUnder(cfg, ing.spec.rules, key, h)
  }

  /** `ListProbeTargets`. It succeeds exactly when every key with hosts can be resolved, in
      whatever order the keys are visited; then it returns one target per key and subset. */
  method ListProbeTargets(cfg: Config, ing: Ingress, g: Gateways)
    returns (ok: bool, results: seq<ProbeTarget>, ghost keys: seq<string>, ghost parts: seq<seq<ProbeTarget>>)
    ensures ok <==> forall key :: HasHosts(cfg, ing, key) ==> Resolvable(g, key, ProbePort(Secure(cfg, ing, key)))
    ensures ok ==> results == Flatten(parts) && AllTargets(cfg, ing, g, keys, parts)
  {
    hide ExposedUnder, Resolvable, TargetsFor, Secure;
    ok, results, keys, parts := false, [], [], [];
    var hosts := HostsPerVisibility(cfg, ing);
    KeysHaveHosts(cfg, ing, hosts);
    var todo := hosts.Keys;
    while todo != {}
      invariant todo <= hosts.Keys
      invariant NoDuplicates(keys) && |parts| == |keys| && results == Flatten(parts)
      invariant forall key :: key in keys <==> key in hosts.Keys - todo
      invariant forall i :: 0 <= i < |keys| ==> Complete(cfg, ing, g, keys[i], parts[i])
      invariant forall key :: key in keys ==> Resolvable(g, key, ProbePort(Secure(cfg, ing, key)))
    {
      var key :| key in todo;
      todo := todo - {key};
      var fine, ts := ListSubsets(g, key, Secure(cfg, ing, key), hosts[key]);
      if !fine {
        return;
      }
      assert HostsOf(cfg, ing, key, hosts[key]) by {
        KeyHosts(cfg, ing, hosts, key);
      }
      assert (parts + [ts])[..|parts|] == parts;
      assert forall i :: 0 <= i < |keys| ==> keys[i] in keys;
      results, keys, parts := results + ts, keys + [key], parts + [ts];
    }
    ok := true;
  }

  lemma KeysHaveHosts(cfg: Config, ing: Ingress, hosts: map<string, set<string>>)
    requires PerVisibility(cfg, ing.spec.rules, hosts)
    ensures forall key :: key in hosts <==> HasHosts(cfg, ing, key)
  {
    hide ExposedUnder;
    forall key | key in hosts
      ensures HasHosts(cfg, ing, key)
    {
      var h :| h in hosts[key];
      assert Has(hosts, key, h);
    }
  }

  lemma KeyHosts(cfg: Config, ing: Ingress, hosts: map<string, set<string>>, key: string)
    requires PerVisibility(cfg, ing.spec.rules, hosts) && key in hosts
    ensures HostsOf(cfg, ing, key, hosts[key])
  {
    hide ExposedUnder;
    assert forall h :: h in hosts[key] <==> Has(hosts, key, h);
  }

  // ---- What is probed and what is compiled -----------------------------------------

  /** A proxy that the compiler made for this host from a rule of a visibility with this key. */
  ghost predicate CompiledUnder(cfg: Config, ing: Ingress, protos: map<string, string>, key: string, p: HTTPProxy) {
    exists rule, original, host ::
      && Exposes(cfg, ing, rule, original, host) && key in KeysOf(cfg, rule.visibility)
      && p == ProxyFor(cfg, ing, protos, rule, original, host)
  }

  /** The hosts probed under a key are exactly the fqdns of the proxies that were compiled from
      rules of that key's visibility. */
  lemma ProbedHosts(cfg: Config, ing: Ingress, protos: map<string, string>, key: string, h: string)
    ensures ExposedUnder(cfg, ing.spec.rules, key, h)
       <==> exists p :: p in Compile(cfg, ing, protos) && p.spec.fqdn == h && CompiledUnder(cfg, ing, protos, key, p)
  {
    hide Compile, RoutesOf, CertificateFor, ExpandedHosts, KeysOf, InsertProbe, ProbedRule;
    if ExposedUnder(cfg, ing.spec.rules, key, h) {
      var rule, original :| rule in ing.spec.rules && original in rule.hosts
                         && key in KeysOf(cfg, rule.visibility) && h in ExpandedHosts(cfg.clusterDomain, original);
      CompileComplete(cfg, ing, protos, rule, original, h);
      var p := ProxyFor(cfg, ing, protos, rule, original, h);
      assert Exposes(cfg, ing, rule, original, h);
      assert CompiledUnder(cfg, ing, protos, key, p);
      assert p.spec.fqdn == h;
    }
    if p :| p in Compile(cfg, ing, protos) && p.spec.fqdn == h && CompiledUnder(cfg, ing, protos, key, p) {
      var rule, original, host :| Exposes(cfg, ing, rule, original, host) && key in KeysOf(cfg, rule.visibility)
                               && p == ProxyFor(cfg, ing, protos, rule, original, host);
      assert host == h;
    }
  }

  /** Completeness: once the targets are listed, the fqdn of every compiled proxy is among the
      URLs of every target of every key of its rule's visibility, with the right scheme. */
  lemma EveryProxyProbed(cfg: Config, ing: Ingress, protos: map<string, string>, g: Gateways,
                         keys: seq<string>, parts: seq<seq<ProbeTarget>>, p: HTTPProxy, key: string)
    requires AllTargets(cfg, ing, g, keys, parts)
    requires p in Compile(cfg, ing, protos) && CompiledUnder(cfg, ing, protos, key, p)
    ensures key in keys
    ensures forall i, t :: 0 <= i < |keys| && keys[i] == key && t in parts[i] ==>
              Url(Scheme(Secure(cfg, ing, key)), p.spec.fqdn) in t.urls
  {
    hide ExposedUnder, Compile, CompiledUnder, Resolvable, Secure, Itoa;
    ProbedHosts(cfg, ing, protos, key, p.spec.fqdn);
    assert HasHosts(cfg, ing, key);
    forall i, t | 0 <= i < |keys| && keys[i] == key && t in parts[i]
      ensures Url(Scheme(Secure(cfg, ing, key)), p.spec.fqdn) in t.urls
    {
      assert Complete(cfg, ing, g, key, parts[i]);
      var hosts :| HostsOf(cfg, ing, key, hosts) && TargetsFor(g, key, Secure(cfg, ing, key), hosts, parts[i]);
      ListedUrl(g, key, Secure(cfg, ing, key), hosts, parts[i], t, p.spec.fqdn);
    }
  }

  lemma ListedUrl(g: Gateways, key: string, secure: bool, hosts: set<string>, ts: seq<ProbeTarget>, t: ProbeTarget,
                  h: string)
    requires TargetsFor(g, key, secure, hosts, ts) && t in ts && h in hosts
    ensures Url(Scheme(secure), h) in t.urls
  {
    hide Itoa, NameForPortNumber, PortNumberForName, FirstSlash;
    var i :| 0 <= i < |ts| && ts[i] == t;
    assert TargetFor(g, key, secure, hosts, g.endpoints[SplitKey(key).value][i], t);
  }

  /** No key belongs to two visibilities. */
  ghost predicate DisjointKeys(cfg: Config) {
    forall v, w :: v != w ==> KeysOf(cfg, v) !! KeysOf(cfg, w)
  }

  /** A cluster-domain host is served by the cluster-local class whatever its rule says, but it
      is probed under the rule's own visibility. The gateways that serve a host are asked about
      it exactly when some rule exposes that host under the very visibility that serves it. */
  lemma ServedHostsProbed(cfg: Config, ing: Ingress, rule: Rule, original: string, host: string, key: string)
    requires DisjointKeys(cfg) && Exposes(cfg, ing, rule, original, host)
    requires key in KeysOf(cfg, EffectiveVisibility(cfg, rule, original))
    ensures ExposedUnder(cfg, ing.spec.rules, key, host)
       <==> exists r, o :: Exposes(cfg, ing, r, o, host) && r.visibility == EffectiveVisibility(cfg, rule, original)
  {
    hide ExpandedHosts, KeysOf, EffectiveVisibility;
    var v := EffectiveVisibility(cfg, rule, original);
    if ExposedUnder(cfg, ing.spec.rules, key, host) {
      var r, o :| r in ing.spec.rules && o in r.hosts && key in KeysOf(cfg, r.visibility)
        && host in ExpandedHosts(cfg.clusterDomain, o);
      assert r.visibility == v;
      assert Exposes(cfg, ing, r, o, host);
    }
    if r, o :| Exposes(cfg, ing, r, o, host) && r.visibility == v {
      assert key in KeysOf(cfg, r.visibility);
    }
  }

  /** The gap: a host that no cluster-local rule exposes, but whose cluster-domain suffix puts
      it into the cluster-local class, is compiled and is not asked about at its gateways. */
  lemma ServedHostUnprobed(cfg: Config, ing: Ingress, protos: map<string, string>, rule: Rule, original: string,
                           host: string, key: string)
    requires DisjointKeys(cfg) && Exposes(cfg, ing, rule, original, host) && HasSuffix(original, cfg.clusterDomain)
    requires forall r, o :: Exposes(cfg, ing, r, o, host) ==> r.visibility != CLUSTER_LOCAL
    requires key in KeysOf(cfg, CLUSTER_LOCAL)
    ensures ProxyFor(cfg, ing, protos, rule, original, host) in Compile(cfg, ing, protos)
    ensures ProxyFor(cfg, ing, protos, rule, original, host).labels.ingressClass
      == Some(Lookup(cfg.classes, CLUSTER_LOCAL))
    ensures !ExposedUnder(cfg, ing.spec.rules, key, host)
  {
    hide Compile, RoutesOf, CertificateFor, ExpandedHosts, KeysOf, ExposedUnder, DisjointKeys;
    CompileComplete(cfg, ing, protos, rule, original, host);
    ServedHostsProbed(cfg, ing, rule, original, host, key);
  }

  /** In particular, if no rule shares a key with the cluster-local visibility, its gateways are
      asked about nothing at all. */
  lemma OverriddenHostsUnprobed(cfg: Config, ing: Ingress, protos: map<string, string>, rule: Rule, original: string,
                                host: string, key: string)
    requires Exposes(cfg, ing, rule, original, host) && HasSuffix(original, cfg.clusterDomain)
    requires forall r :: r in ing.spec.rules ==> KeysOf(cfg, r.visibility) !! KeysOf(cfg, CLUSTER_LOCAL)
    requires key in KeysOf(cfg, CLUSTER_LOCAL)
    ensures ProxyFor(cfg, ing, protos, rule, original, host) in Compile(cfg, ing, protos)
    ensures ProxyFor(cfg, ing, protos, rule, original, host).labels.ingressClass
      == Some(Lookup(cfg.classes, CLUSTER_LOCAL))
    ensures !HasHosts(cfg, ing, key)
  {
    hide Compile, RoutesOf, CertificateFor, ExpandedHosts, KeysOf;
    CompileComplete(cfg, ing, protos, rule, original, host);
  }
}
