/** A small cluster to run through: ingresses with one rule, one path and one split, a
    configuration under which names are concatenated, and the steps that runs are built of. */
module Scenario {
  import opened Text
  import opened Sorting
  import opened Model
  import opened Compiler
  import opened Outputs
  import opened EndpointProbe
  import opened ProbeIdentity
  import opened Conditions
  import opened Cluster
  import opened Reconcile
  import opened Framing
  import opened Rollout
  import opened Steps
  import opened Worlds
  import opened Histories
  import opened Convergence
  import opened Cooperation

  const EXTERNAL := "external"
  const DOMAIN := "cluster.local"

  /** `ChildName` concatenates as long as the name is not too long; SHA-1 does not collide. */
  ghost predicate Small(cfg: Config) {
    && cfg.clusterDomain == DOMAIN
    && cfg.classes == map[EXTERNAL_IP := EXTERNAL, CLUSTER_LOCAL := "internal"]
    && (forall a, b :: cfg.childName(a, b) == a + b)
    && CollisionFree(cfg)
  }

  /** There is such a configuration. */
  lemma SmallExists() returns (cfg: Config)
    ensures Small(cfg)
  {
    cfg := Config(map[EXTERNAL_IP := EXTERNAL, CLUSTER_LOCAL := "internal"], map[], DOMAIN, false, None,
                      (host: string) => host, (a: string, b: string) => a
                        + b, (spec: IngressSpec, ns: string, name: string) => name);
  }

  // ---- Ingresses with one rule -----------------------------------------------------

  function OnePath(service: string): Path {
    Path("", "", map[], [Split(service, Number(80), 100, map[])], map[])
  }

  function PrefixSpec(hosts: seq<string>, service: string, prefix: string): IngressSpec {
    IngressSpec([Rule(hosts, EXTERNAL_IP, [OnePath(service).(path := prefix)])], [], Enabled)
  }

  function OneSpec(hosts: seq<string>, service: string): IngressSpec {
    PrefixSpec(hosts, service, "")
  }

  /** The spec of a child that has nothing to probe. */
  const NO_SPEC := IngressSpec([], [], Enabled)

  /** One rule for these hosts and this service, or none at all. */
  ghost predicate SmallSpec(spec: IngressSpec, hosts: seq<string>, service: string) {
    (exists prefix :: spec == PrefixSpec(hosts, service, prefix)) || (spec == NO_SPEC && hosts == [])
  }

  /** What admission asks of a spec: rules with paths, paths with splits that add up to 100, and
      a name and a port for every service. Hosts are not asked for. */
  ghost predicate Admitted(spec: IngressSpec) {
    && spec.rules != []
    && (forall r :: r in spec.rules ==> r.paths != [])
    && (forall r, p :: r in spec.rules && p in r.paths ==> p.splits != [] && Total(p.splits) == 100)
    && (forall r, p, s :: r in spec.rules && p in r.paths && s in p.splits
                          ==> s.service != "" && s.port != Number(0) && 0 <= s.percent <= 100)
  }

  function Total(splits: seq<Split>): int {
    if splits == [] then 0 else splits[0].percent + Total(splits[1..])
  }

  lemma PrefixSpecAdmitted(hosts: seq<string>, service: string, prefix: string)
    requires service != ""
    ensures Admitted(PrefixSpec(hosts, service, prefix))
  {
    var splits := OnePath(service).splits;
    assert splits[1..] == [];
  }

  lemma OneSpecAdmitted(hosts: seq<string>, service: string)
    requires service != ""
    ensures Admitted(OneSpec(hosts, service))
  {
    hide Admitted, PrefixSpec;
    PrefixSpecAdmitted(hosts, service, "");
  }

  /** A host that stands for itself and is not in the cluster domain. */
  ghost predicate Plain(cfg: Config, host: string) {
    ExpandedHosts(cfg.clusterDomain, host) == {host} && !HasSuffix(host, cfg.clusterDomain)
  }

  lemma PlainHost(cfg: Config, front: string)
    requires Small(cfg)
    ensures Plain(cfg, front + ".example")
  {
    var host := front + ".example";
    assert host == front + "." + "example";
    LastLabelAppended(front, "example");
    assert "example"[0] > '9';
    assert ValidTopLevelDomain(host);
    NotInDomain(host);
    hide LastLabel, ValidTopLevelDomain, Small;
    SuffixOfSuffix(host, ".", DOMAIN);
    SuffixOfSuffix(host, ".svc.", DOMAIN);
    assert TrimSuffix(host, "") == host;
    assert TrimmedHost(host, "." + DOMAIN) == {} && TrimmedHost(host, ".svc." + DOMAIN) == {};
    PlainDomain(cfg);
  }

  lemma PlainDomain(cfg: Config)
    requires Small(cfg)
    ensures cfg.clusterDomain == DOMAIN
  {
  }

  lemma NotInDomain(host: string)
    requires host != "" && host[|host| - 1] != 'l'
    ensures !HasSuffix(host, DOMAIN)
  {
  }

  lemma PlainProbeHost(cfg: Config, ing: Ingress, service: string)
    requires Small(cfg)
    ensures Plain(cfg, ProbeHost(ing, service))
  {
    var host := ProbeHost(ing, service);
    var front := service + ".gen-" + Itoa(ing.generation) + "." + ing.name + "." + ing.ns + ".net-contour.invali";
    assert host == front + "d";
    NotInDomain(host);
    PlainDomain(cfg);
    ProbeHostExpansion(DOMAIN, ing, service);
  }

  lemma PrefixSpecServices(ing: Ingress, hosts: seq<string>, service: string, prefix: string)
    requires ing.spec == PrefixSpec(hosts, service, prefix)
    ensures RuleOccurrences(ing.spec.rules) == [Occurrence(service, Number(80), EXTERNAL_IP, "", prefix != "")]
    ensures ServiceTable(ing) == map[service := ServiceInfo(Number(80), {EXTERNAL_IP}, "", prefix != "")]
  {
    var o := Occurrence(service, Number(80), EXTERNAL_IP, "", prefix != "");
    OneMention(service, prefix);
    hide PathOccurrences;
    var rules := ing.spec.rules;
    assert rules[..0] == [];
    assert RuleOccurrences(rules) == [] + [o];
    hide RuleOccurrences;
    AbsorbOne(o);
  }

  lemma OneSpecServices(ing: Ingress, hosts: seq<string>, service: string)
    requires ing.spec == OneSpec(hosts, service)
    ensures RuleOccurrences(ing.spec.rules) == [Occurrence(service, Number(80), EXTERNAL_IP, "", false)]
  {
    hide RuleOccurrences, PrefixSpec, AbsorbAll;
    PrefixSpecServices(ing, hosts, service, "");
  }

  lemma OneMention(service: string, prefix: string)
    ensures PathOccurrences(EXTERNAL_IP, [OnePath(service).(path := prefix)])
         == [Occurrence(service, Number(80), EXTERNAL_IP, "", prefix != "")]
  {
    var path := OnePath(service).(path := prefix);
    var paths := [path];
    assert paths[..0] == [];
    var splits := SplitOccurrences(EXTERNAL_IP, path, path.splits);
    assert |splits| == 1 && splits[0] == Occurrence(service, Number(80), EXTERNAL_IP, "", prefix != "");
    hide SplitOccurrences;
    assert PathOccurrences(EXTERNAL_IP, paths) == [] + splits;
  }

  lemma AbsorbOne(o: Occurrence)
    ensures AbsorbAll(map[], [o]) == map[o.service := ServiceInfo(o.port, {o.visibility}, o.rewriteHost, o.hasPath)]
  {
    var os := [o];
    assert os[..0] == [];
    assert AbsorbAll(map[], os) == Absorb(map[], o);
    assert {} + {o.visibility} == {o.visibility};
  }

  /** The child that such an ingress wants. */
  ghost function WantedChild(ing: Ingress, service: string): IngressSpec {
    if ing.spec.rules != []
      && ing.spec.rules[0].paths == [OnePath(service)] then OneSpec([ProbeHost(ing, service)], service) else NO_SPEC
  }

  /** The child of such an ingress, whichever proxies that Contour has not validated are listed. */
  lemma SmallSpecChild(cfg: Config, ing: Ingress, hosts: seq<string>, service: string, listed: seq<HTTPProxy>)
    requires SmallSpec(ing.spec, hosts, service) && forall p :: p in listed ==> p.status != "valid"
    ensures ChildSpec(cfg, ing, listed) == WantedChild(ing, service)
  {
    NothingOld(cfg, listed);
    if ing.spec == NO_SPEC {
      NoSpecChild(cfg, ing, listed);
    } else {
      var prefix :| ing.spec == PrefixSpec(hosts, service, prefix);
      PrefixSpecChild(cfg, ing, hosts, service, prefix, listed);
      assert ing.spec.rules[0].paths[0].path == prefix;
    }
  }

  lemma NoSpecChild(cfg: Config, ing: Ingress, listed: seq<HTTPProxy>)
    requires ing.spec == NO_SPEC && OldOccurrences(cfg, listed) == []
    ensures ChildSpec(cfg, ing, listed) == NO_SPEC
  {
    hide OldOccurrences;
    assert AllOccurrences(cfg, ing, listed) == [];
    assert AbsorbAll(map[], []) == map[];
    var none: map<string, ServiceInfo> := map[];
    assert |Ascending(none.Keys)| == 0;
  }

  lemma PrefixSpecChild(cfg: Config, ing: Ingress, hosts: seq<string>, service: string, prefix: string,
                        listed: seq<HTTPProxy>)
    requires ing.spec == PrefixSpec(hosts, service, prefix) && OldOccurrences(cfg, listed) == []
    ensures ChildSpec(cfg, ing, listed) == if prefix == "" then OneSpec([ProbeHost(ing, service)], service) else NO_SPEC
  {
    PrefixSpecServices(ing, hosts, service, prefix);
    hide RuleOccurrences, OldOccurrences, AbsorbAll, ProbeHost, RulesFor;
    var si := ServiceInfo(Number(80), {EXTERNAL_IP}, "", prefix != "");
    var os := AllOccurrences(cfg, ing, listed);
    assert os == RuleOccurrences(ing.spec.rules);
    assert AbsorbAll(map[], os) == map[service := si];
    AscendingOne(service);
    OneServiceRules(ing, service, si);
  }

  lemma OneServiceRules(ing: Ingress, service: string, si: ServiceInfo)
    requires si == ServiceInfo(Number(80), {EXTERNAL_IP}, "", si.hasPath)
    ensures RulesFor(ing, map[service := si], [service])
         == if si.hasPath then [] else [ProbeRule(ing, service, Number(80), "", EXTERNAL_IP)]
  {
    hide ProbeRule;
    AscendingOne(EXTERNAL_IP);
    assert [service][..0] == [];
    assert RulesFor(ing, map[service := si], []) == [];
  }

  lemma {:induction false} NothingOld(cfg: Config, listed: seq<HTTPProxy>)
    requires forall p :: p in listed ==> p.status != "valid"
    ensures OldOccurrences(cfg, listed) == []
  {
    if listed != [] {
      assert listed[|listed| - 1] in listed;
      NothingOld(cfg, listed[..|listed| - 1]);
    }
  }

  lemma AscendingOne(x: string)
    ensures Ascending({x}) == [x]
  {
    var l := Ascending({x});
    assert |l| == 1 && l[0] in l;
  }

  lemma OneRuleCompiles(cfg: Config, ing: Ingress, host: string, protos: map<string, string>)
    requires |ing.spec.rules| == 1 && ing.spec.rules[0].hosts == [host] && ing.spec.rules[0].visibility == EXTERNAL_IP
    requires Plain(cfg, host) && Small(cfg)
    ensures var ps := Compile(cfg, ing, protos);
            |ps| == 1 && ps[0].spec.fqdn == host && ps[0].labels.ingressClass == Some(EXTERNAL) && ps[0].status == ""
  {
    var probed := InsertProbe(cfg, ing);
    var rules := probed.spec.rules;
    hide ExpandedHosts, RulesProxies, WithProbes, SpecHash;
    assert |rules| == 1 && rules[0].hosts == [host] && rules[0].visibility == EXTERNAL_IP;
    SingleHostProxies(cfg, protos, probed, rules);
    CompiledUnreported(cfg, ing, protos);
    assert EffectiveClass(cfg, rules[0], host) == EXTERNAL;
  }

  lemma CompiledUnreported(cfg: Config, ing: Ingress, protos: map<string, string>)
    ensures forall p :: p in Compile(cfg, ing, protos) ==> p.status == ""
  {
    hide Compile, RoutesOf, CertificateFor, ExpandedHosts;
    forall p | p in Compile(cfg, ing, protos)
      ensures p.status == ""
    {
      var rule, originalHost, host := CompileSound(cfg, ing, protos, p);
    }
  }

  lemma HostlessCompiles(cfg: Config, ing: Ingress, protos: map<string, string>)
    requires |ing.spec.rules| <= 1 && forall r :: r in ing.spec.rules ==> r.hosts == []
    ensures Compile(cfg, ing, protos) == []
  {
    hide RoutesOf, HostProxies;
    var rules := InsertProbe(cfg, ing).spec.rules;
    assert |rules| == 1 ==> rules[0].hosts == [] && rules[..0] == [];
    hide InsertProbe;
    assert RulesProxies(cfg, protos, InsertProbe(cfg, ing), []) == [];
  }

  // ---- Names -----------------------------------------------------------------------

  lemma SmallNames(cfg: Config, k: Key)
    requires Small(cfg)
    ensures ChildKey(cfg, k) == Key(k.ns, k.name + "--" + "ep") && WellNamed(cfg, {k})
  {
    hide CollisionFree;
  }

  lemma SmallProxyName(cfg: Config, parent: string, host: string)
    requires Small(cfg)
    ensures ProxyName(cfg, parent, EXTERNAL, host) == parent + ("-" + EXTERNAL + "-" + host)
  {
    hide CollisionFree;
    assert parent + "-" + EXTERNAL + "-" + host == parent + ("-" + EXTERNAL + "-" + host);
  }

  lemma SecondChar(name: string, a: string, tail: string, x: string)
    requires a in {name, name + "--" + "ep"} && |tail| >= 2 && tail[0] == '-' && tail[1] == 'e'
    ensures |a + (tail + x)| > |name| + 1 && (a + (tail + x))[|name| + 1] == if a == name then 'e' else '-'
  {
  }

  /** The parent's and the child's proxies never share a name, and neither do two hosts. */
  lemma NamesApart(cfg: Config, name: string, a: string, b: string, x: string, y: string)
    requires Small(cfg) && a in {name, name + "--" + "ep"} && b in {name, name + "--" + "ep"}
    requires ProxyName(cfg, a, EXTERNAL, x) == ProxyName(cfg, b, EXTERNAL, y)
    ensures a == b && x == y
  {
    SmallProxyName(cfg, a, x);
    SmallProxyName(cfg, b, y);
    hide Small, ProxyName;
    var tail := "-" + EXTERNAL + "-";
    var s := a + (tail + x);
    assert s == b + (tail + y);
    SecondChar(name, a, tail, x);
    SecondChar(name, b, tail, y);
    assert a == b;
    assert tail + x == s[|a|..] == tail + y;
    assert x == (tail + x)[|tail|..] && y == (tail + y)[|tail|..];
  }

  // ---- The population of proxies ---------------------------------------------------

  /** All proxies that were ever stored belong to `k` or its child, are of the external class,
      and have not been reported on. */
  ghost predicate Population(cfg: Config, s: Server, k: Key) {
    forall p :: p in s.seen ==>
      && p.ns == k.ns && p.status == "" && p.labels.ingressClass == Some(EXTERNAL)
      && (p.labels.parent == Some(k.name) || p.labels.parent == Some(ChildKey(cfg, k).name))
  }

  /** What the compiler returns in this cluster. */
  ghost predicate Suits(cfg: Config, ing: Ingress, k: Key, ds: seq<HTTPProxy>) {
    && IngressKey(ing) in {k, ChildKey(cfg, k)} && |ds| <= 1
    && (forall d :: d in ds ==> Identified(cfg, ing, d) && d.status == "" && d.labels.ingressClass == Some(EXTERNAL))
  }

  /** The wanted names are free, or taken by the wanted proxies themselves. */
  lemma NamesFree(cfg: Config, s: Server, k: Key, ing: Ingress, ds: seq<HTTPProxy>)
    requires Small(cfg) && ProxyHistory(s) && AllCanonical(cfg, s) && Population(cfg, s, k) && Suits(cfg, ing, k, ds)
    ensures Unclaimed(s, ds)
  {
    SmallNames(cfg, k);
    forall d | d in ds && KeyOf(d) in s.proxies
      ensures SameTarget(s.proxies[KeyOf(d)], d)
    {
      var p := s.proxies[KeyOf(d)];
      assert p in s.seen && KeyOf(p) == KeyOf(d) && Identified(cfg, ing, d);
      assert Canonical(cfg, p.labels.parent.value, p);
      hide Small, ProxyName, Population, ProxyHistory, AllCanonical;
      NamesApart(cfg, k.name, p.labels.parent.value, ing.name, p.spec.fqdn, d.spec.fqdn);
    }
  }

  lemma FewAreSeparate(cfg: Config, ing: Ingress, k: Key, ds: seq<HTTPProxy>)
    requires TargetsOf(ds) == Targets(cfg, ing) && Suits(cfg, ing, k, ds)
    ensures Separate(Targets(cfg, ing))
  {
    hide Targets;
    assert |TargetsOf(ds)| == |ds|;
  }

  lemma {:induction false} ApplyUnreported(s: Server, view: seq<HTTPProxy>, ds: seq<HTTPProxy>, calls: nat,
                                           env: Environment)
    requires (forall p :: p in s.seen ==> p.status == "") && (forall d :: d in ds ==> d.status == "")
    requires (forall p :: p in view ==> p.status == "")
    ensures forall p :: p in ApplyAll(s, view, ds, calls, env).server.seen ==> p.status == ""
    decreases |ds|
  {
    if ds != [] {
      var one := ApplyOne(s, view, ds[0], calls, env);
      assert ds[0] in ds;
      var matches := Matches(view, ds[0]);
      assert matches != [] ==> matches[0] in view;
      hide Matches;
      assert forall p :: p in one.server.seen ==> p.status == "";
      hide ApplyOne;
      ApplyUnreported(one.server, view, ds[1..], one.calls, env);
    }
  }

  lemma StepUnreported(cfg: Config, s: Server, views: Views, r: Key, env: Environment)
    requires IngressHistory(s) && ViewsSeen(s, views) && r in s.ingresses
    requires (forall p :: p in s.seen ==> p.status == "") && (forall d :: d in env.desired ==> d.status == "")
    ensures forall p :: p in Step(cfg, s, views, r, env).seen ==> p.status == ""
  {
    var ing := s.ingresses[r].ing;
    hide Kind, ApplyAll, RunGate, Step, OlderProxies, Leftovers, IngressHistory;
    StatusWriteKeepsProxies(cfg, s, views, r, env);
    KindProxies(cfg, s, views, ing, PreProcess(s.ingresses[r].status, ing.generation), env);
    var gate := RunGate(cfg, s, views, ing, env);
    ApplyUnreported(gate.server, views.proxies, env.desired, gate.calls, env);
  }

  lemma PopulationStep(cfg: Config, s: Server, views: Views, k: Key, r: Key, env: Environment)
    requires Small(cfg) && AllCanonical(cfg, s) && History(s, views) && r in s.ingresses
    requires Faithful(cfg, s.ingresses[r].ing, env)
    requires Population(cfg, s, k) && Suits(cfg, s.ingresses[r].ing, k, env.desired)
    ensures Population(cfg, Step(cfg, s, views, r, env), k)
  {
    var ing, t := s.ingresses[r].ing, Step(cfg, s, views, r, env);
    hide Faithful, Step, Small, AllCanonical, ProxyHistory, IngressHistory, ObservedBounded, Holds, ChildIngressName;
    SmallFree(cfg);
    StepCanonical(cfg, s, views, r, env);
    StepUnreported(cfg, s, views, r, env);
    forall p | p in t.seen && p !in s.seen
      ensures p.ns == k.ns && p.labels.ingressClass == Some(EXTERNAL)
      ensures p.labels.parent == Some(k.name) || p.labels.parent == Some(ChildKey(cfg, k).name)
    {
      var d :| d in env.desired && Holds(p, d);
      HeldLabels(p, d);
      assert Identified(cfg, ing, d);
    }
  }

  lemma SmallFree(cfg: Config)
    requires Small(cfg)
    ensures CollisionFree(cfg)
  {
  }

  lemma HeldLabels(p: HTTPProxy, d: HTTPProxy)
    requires Holds(p, d)
    ensures p.ns == d.ns && p.labels == d.labels
  {
  }

  // ---- Environments ----------------------------------------------------------------

  const PORTS := ["http"]

  /** The environment of a reconcile of such an ingress: its service exists, and the compiler
      returns the specified list. */
  ghost function Env(cfg: Config, ing: Ingress, service: string, reply: nat -> Reply, probe: ProbeAnswer): Environment {
    var services := map[service := PORTS];
    Environment(reply, {}, probe, services, Compile(cfg, ing, Protocols.IngressProtocols(cfg, ing, services)))
  }

  lemma EnvFits(cfg: Config, ing: Ingress, k: Key, hosts: seq<string>, service: string, reply: nat -> Reply,
                probe: ProbeAnswer)
    requires Small(cfg) && IngressKey(ing) in {k, ChildKey(cfg, k)} && SmallSpec(ing.spec, hosts, service)
    requires |hosts| <= 1 && forall h :: h in hosts ==> Plain(cfg, h)
    ensures var env := Env(cfg, ing, service, reply, probe);
            && Faithful(cfg, ing, env) && ServicesKnown(ing, env.services) && Suits(cfg, ing, k, env.desired)
            && |env.desired| == |hosts| && Separate(Targets(cfg, ing))
  {
    var env := Env(cfg, ing, service, reply, probe);
    var protos := Protocols.IngressProtocols(cfg, ing, env.services);
    SmallSpecKnown(ing, hosts, service);
    CompiledShape(cfg, ing, hosts, service, protos);
    hide Compile, Protocols.IngressProtocols, ChildKey, Plain, Faithful, Small, Targets, TargetsOf, Identified,
         SmallSpec, ServicesKnown;
    CompileFaithful(cfg, ing, env);
    FaithfulIdentified(cfg, ing, env);
    FewAreSeparate(cfg, ing, k, env.desired);
  }

  lemma SmallSpecKnown(ing: Ingress, hosts: seq<string>, service: string)
    requires SmallSpec(ing.spec, hosts, service)
    ensures ServicesKnown(ing, map[service := PORTS])
  {
    if ing.spec == NO_SPEC {
      assert ServiceTable(ing) == map[];
    } else {
      var prefix :| ing.spec == PrefixSpec(hosts, service, prefix);
      PrefixSpecServices(ing, hosts, service, prefix);
    }
    hide RuleOccurrences, AbsorbAll;
  }

  lemma CompiledShape(cfg: Config, ing: Ingress, hosts: seq<string>, service: string, protos: map<string, string>)
    requires Small(cfg) && SmallSpec(ing.spec, hosts, service) && |hosts| <= 1
    requires forall h :: h in hosts ==> Plain(cfg, h)
    ensures var ps := Compile(cfg, ing, protos);
            && |ps| == |hosts|
            && (forall p :: p in ps ==> p.status == "" && p.labels.ingressClass == Some(EXTERNAL))
            && (forall p :: p in ps ==> p.spec.fqdn in hosts)
  {
    hide Compile, Small, Plain;
    if hosts == [] {
      HostlessCompiles(cfg, ing, protos);
    } else {
      assert hosts == [hosts[0]] && Plain(cfg, hosts[0]);
      OneRuleCompiles(cfg, ing, hosts[0], protos);
    }
  }
}
