/** Admitted ingresses at which the compiler or the lister does not do what one might expect. */
module Witnesses {
  import opened Text
  import opened Model
  import opened Headers
  import opened Compiler
  import opened Outputs
  import opened ProbeIdentity
  import opened ProbeTargets
  import opened Protocols
  import opened Cluster
  import opened Reconcile
  import opened Rollout
  import opened Conflicts
  import opened Faithfulness
  import opened Scenario

  // ---- One host, two contents ------------------------------------------------------

  /** Two rules that send one host to two services. */
  function Twins(k: Key, host: string, first: string, second: string): Ingress {
    Ingress(k.ns, k.name, 1, map[], IngressSpec(
      [Rule([host], EXTERNAL_IP, [OnePath(first)]), Rule([host], EXTERNAL_IP, [OnePath(second)])], [], Enabled))
  }

  lemma TwinsAdmitted(k: Key, host: string, first: string, second: string)
    requires first != "" && second != ""
    ensures Admitted(Twins(k, host, first, second).spec)
  {
    OnePathTotal(first);
    OnePathTotal(second);
  }

  lemma OnePathTotal(service: string)
    ensures Total(OnePath(service).splits) == 100
  {
    assert OnePath(service).splits[1..] == [];
  }

  /** The first original route of a one-path rule leads to its service. */
  lemma RoutedTo(cfg: Config, ing: Ingress, protos: map<string, string>, rule: Rule, service: string, original: string,
                 host: string)
    requires rule.paths == [OnePath(service)]
    ensures var routes := ProxyFor(cfg, ing, protos, rule, original, host).spec.routes;
            |routes| == 2 && |routes[1].services| == 1 && routes[1].services[0].name == service
  {
    hide ProxyFor, HeaderList, Headers.Conditions, PreSplitHeaders, Contains;
    RoutesAt(cfg, ing, protos, rule, original, host, 0);
  }

  lemma TwinsDisagree(cfg: Config, k: Key, front: string, first: string, second: string, protos: map<string, string>)
    requires Small(cfg) && first != second
    ensures !RulesAgree(cfg, Twins(k, front + ".example", first, second), protos)
  {
    var host := front + ".example";
    var ing := Twins(k, host, first, second);
    var r, r' := ing.spec.rules[0], ing.spec.rules[1];
    PlainHost(cfg, front);
    hide Small, ProxyFor;
    RoutedTo(cfg, ing, protos, r, first, host, host);
    RoutedTo(cfg, ing, protos, r', second, host, host);
    assert Exposes(cfg, ing, r, host, host) && Exposes(cfg, ing, r', host, host);
    assert EffectiveClass(cfg, r, host) == EffectiveClass(cfg, r', host);
    assert ProxyFor(cfg, ing, protos, r, host, host).spec != ProxyFor(cfg, ing, protos, r', host, host).spec;
  }

  /** An admitted ingress that is never at rest: from every state, with every cache, its rollout
      makes a call. */
  lemma TwinsNeverRest(cfg: Config, k: Key, front: string, first: string, second: string, s: Server,
                       view: seq<HTTPProxy>, env: Environment)
    requires Small(cfg) && first != "" && second != "" && first != second
    requires var ing := Twins(k, front + ".example", first, second);
             env.desired == Compile(cfg, ing, IngressProtocols(cfg, ing, env.services))
    ensures Admitted(Twins(k, front + ".example", first, second).spec)
    ensures Program(s, view, Twins(k, front + ".example", first, second), 0, env).calls > 0
  {
    var ing := Twins(k, front + ".example", first, second);
    TwinsAdmitted(k, front + ".example", first, second);
    SmallFree(cfg);
    TwinsDisagree(cfg, k, front, first, second, IngressProtocols(cfg, ing, env.services));
    hide Small, Compile, RulesAgree, Program, IngressProtocols, CollisionFree, Admitted, Twins;
    RestExactly(cfg, ing, env);
    ProgramCalls(s, view, ing, 0, env);
  }

  // ---- A cluster-domain host under an external rule --------------------------------

  const OUTSIDE := "contour-external/envoy"
  const INSIDE := "contour-internal/envoy"

  lemma LocalHostExposed(cfg: Config, front: string)
    requires Small(cfg)
    ensures var host := front + ".svc.cluster.local";
            host in ExpandedHosts(cfg.clusterDomain, host) && HasSuffix(host, cfg.clusterDomain)
  {
    hide Small, LastLabel;
    var host := front + ".svc.cluster.local";
    PlainDomain(cfg);
    assert ValidTopLevelDomain(host) by {
      assert host == (front + ".svc.cluster") + "." + "local";
      LastLabelAppended(front + ".svc.cluster", "local");
      assert "local"[0] > '9';
    }
    hide ValidTopLevelDomain;
    assert host == (front + ".svc.") + DOMAIN;
    AppendedSuffix(front + ".svc.", DOMAIN);
    assert TrimSuffix(host, "") == host;
  }

  lemma AppendedSuffix(a: string, b: string)
    ensures HasSuffix(a + b, b)
  {
  }

  /** An admitted ingress whose host is served by the cluster-local gateways, which nobody asks
      about it. */
  lemma LocalHostUnprobed(cfg: Config, k: Key, front: string, service: string,
                          protos: map<string, string>) returns (p: HTTPProxy)
    requires Small(cfg) && service != "" && cfg.keys == map[EXTERNAL_IP := {OUTSIDE}, CLUSTER_LOCAL := {INSIDE}]
    ensures var host := front + ".svc.cluster.local";
            var ing := Ingress(k.ns, k.name, 1, map[], OneSpec([host], service));
            && Admitted(ing.spec) && p in Compile(cfg, ing, protos) && p.spec.fqdn == host
            && p.labels.ingressClass == Some(Lookup(cfg.classes, CLUSTER_LOCAL))
            && !ExposedUnder(cfg, ing.spec.rules, INSIDE, host)
  {
    hide Small, Compile, ExpandedHosts, Admitted, ExposedUnder, ProxyFor, DisjointKeys;
    var host := front + ".svc.cluster.local";
    var ing := Ingress(k.ns, k.name, 1, map[], OneSpec([host], service));
    var rule := Rule([host], EXTERNAL_IP, [OnePath(service)]);
    OneSpecAdmitted([host], service);
    LocalHostExposed(cfg, front);
    KeysApart(cfg);
    OnlyRule(cfg, ing, rule, host);
    ServedHostUnprobed(cfg, ing, protos, rule, host, host, INSIDE);
    p := ProxyFor(cfg, ing, protos, rule, host, host);
    ProxyIdentity(cfg, ing, protos, rule, host, host);
  }

  lemma KeysApart(cfg: Config)
    requires cfg.keys == map[EXTERNAL_IP := {OUTSIDE}, CLUSTER_LOCAL := {INSIDE}]
    ensures DisjointKeys(cfg) && INSIDE in KeysOf(cfg, CLUSTER_LOCAL)
  {
    assert OUTSIDE[8] != INSIDE[8];
  }

  lemma OnlyRule(cfg: Config, ing: Ingress, rule: Rule, host: string)
    requires ing.spec.rules == [rule] && host in rule.hosts && host in ExpandedHosts(cfg.clusterDomain, host)
    requires rule.visibility == EXTERNAL_IP
    ensures Exposes(cfg, ing, rule, host, host)
    ensures forall r, o :: Exposes(cfg, ing, r, o, host) ==> r.visibility != CLUSTER_LOCAL
  {
    hide ExpandedHosts;
    assert EXTERNAL_IP[0] != CLUSTER_LOCAL[0];
  }

  // ---- Conflicting Host headers ----------------------------------------------------

  /** A rule whose path rewrites the host and appends a Host header of its own. */
  function Rewriting(k: Key, host: string, service: string, rewritten: string, appended: string): Ingress {
    Ingress(k.ns, k.name, 1, map[], IngressSpec(
      [Rule([host], EXTERNAL_IP,
            [OnePath(service).(rewriteHost := rewritten, appendHeaders := map[HOST := appended])])], [], Enabled))
  }

  /** An admitted ingress for which the compiler may return two different lists. */
  lemma TwoLists(cfg: Config, k: Key, front: string, service: string, rewritten: string, appended: string,
                 protos: map<string, string>)
    returns (other: seq<HTTPProxy>)
    requires Small(cfg) && service != "" && rewritten != "" && rewritten != appended
    ensures var ing := Rewriting(k, front + ".example", service, rewritten, appended);
            && Admitted(ing.spec) && !NoExposedConflict(cfg, ing)
            && ProxiesLike(other, Compile(cfg, ing, protos)) && other != Compile(cfg, ing, protos)
  {
    hide Small, Compile, ProxiesLike, ExpandedHosts, Admitted;
    var host := front + ".example";
    var ing := Rewriting(k, host, service, rewritten, appended);
    var rule := ing.spec.rules[0];
    RewritingAdmitted(k, host, service, rewritten, appended);
    PlainHost(cfg, front);
    assert Exposes(cfg, ing, rule, host, host) && HostConflict(rule.paths[0]) && rule.paths[0] in rule.paths;
    other := OtherList(cfg, ing, protos, rule, host, host, rule.paths[0]);
  }

  lemma RewritingAdmitted(k: Key, host: string, service: string, rewritten: string, appended: string)
    requires service != ""
    ensures Admitted(Rewriting(k, host, service, rewritten, appended).spec)
  {
    OnePathTotal(service);
  }
}
