/** What the compiled proxies look like: which proxies there are, and which labels, names
    and annotations they carry. */
module Outputs {
  import opened Sorting
  import opened Model
  import opened Compiler

  /** The proxy that an original rule yields for one expanded host. */
  ghost function ProxyFor(cfg: Config, ing: Ingress, protos: map<string, string>, rule: Rule, originalHost: string,
                          host: string)
    : HTTPProxy
  {
    var probed := InsertProbe(cfg, ing);
    var probedRule := ProbedRule(rule, SpecHash(cfg, ing));
    ProxyOf(cfg, probed, probedRule, RoutesOf(cfg, protos, ing.spec.httpOption, probedRule),
            CertificateFor(probed.spec, host), originalHost, host)
  }

  ghost predicate Exposes(cfg: Config, ing: Ingress, rule: Rule, originalHost: string, host: string) {
    rule in ing.spec.rules && originalHost in rule.hosts && host in ExpandedHosts(cfg.clusterDomain, originalHost)
  }

  /** Every compiled proxy comes from some rule, host and expansion ... */
  lemma CompileSound(cfg: Config, ing: Ingress, protos: map<string, string>, p: HTTPProxy)
    returns (rule: Rule, originalHost: string, host: string)
    requires p in Compile(cfg, ing, protos)
    ensures Exposes(cfg, ing, rule, originalHost, host)
    ensures p == ProxyFor(cfg, ing, protos, rule, originalHost, host)
  {
    hide ProxyOf, RoutesOf, CertificateFor, ExpandedHosts, WithProbes, RuleProxies, HostProxies;
    var probed := InsertProbe(cfg, ing);
    var probedRule := RulesSound(cfg, protos, probed, probed.spec.rules, p);
    var routes := RoutesOf(cfg, protos, ing.spec.httpOption, probedRule);
    originalHost := RuleSound(cfg, probed, probedRule, routes, probedRule.hosts, p);
    host := HostSound(cfg, probed, probedRule, routes, originalHost, p);
    var i :| 0 <= i < |ing.spec.rules| && ProbedRule(ing.spec.rules[i], SpecHash(cfg, ing)) == probedRule;
    rule := ing.spec.rules[i];
  }

  lemma {:induction false} RulesSound(cfg: Config, protos: map<string, string>, ing: Ingress, rules: seq<Rule>,
                                      p: HTTPProxy)
    returns (rule: Rule)
    requires p in RulesProxies(cfg, protos, ing, rules)
    ensures rule in rules
    ensures p in RuleProxies(cfg, ing, rule, RoutesOf(cfg, protos, ing.spec.httpOption, rule), rule.hosts)
  {
    hide RoutesOf, RuleProxies;
    var last := rules[|rules| - 1];
    if p in RuleProxies(cfg, ing, last, RoutesOf(cfg, protos, ing.spec.httpOption, last), last.hosts) {
      rule := last;
    } else {
      rule := RulesSound(cfg, protos, ing, rules[..|rules| - 1], p);
    }
  }

  lemma {:induction false} RuleSound(cfg: Config, ing: Ingress, rule: Rule, routes: seq<Route>, hosts: seq<string>,
                                     p: HTTPProxy)
    returns (originalHost: string)
    requires p in RuleProxies(cfg, ing, rule, routes, hosts)
    ensures originalHost in hosts && p in HostProxies(cfg, ing, rule, routes, originalHost)
  {
    hide HostProxies;
    if p in HostProxies(cfg, ing, rule, routes, hosts[|hosts| - 1]) {
      originalHost := hosts[|hosts| - 1];
    } else {
      originalHost := RuleSound(cfg, ing, rule, routes, hosts[..|hosts| - 1], p);
    }
  }

  lemma HostSound(cfg: Config, ing: Ingress, rule: Rule, routes: seq<Route>, originalHost: string, p: HTTPProxy)
    returns (host: string)
    requires p in HostProxies(cfg, ing, rule, routes, originalHost)
    ensures host in ExpandedHosts(cfg.clusterDomain, originalHost)
    ensures p == ProxyOf(cfg, ing, rule, routes, CertificateFor(ing.spec, host), originalHost, host)
  {
    hide ProxyOf, CertificateFor, ExpandedHosts;
    var hs := Ascending(ExpandedHosts(cfg.clusterDomain, originalHost));
    var i :| 0 <= i < |hs| && p == HostProxies(cfg, ing, rule, routes, originalHost)[i];
    host := hs[i];
  }

  /** ... and every rule, host and expansion yields its proxy. */
  lemma CompileComplete(cfg: Config, ing: Ingress, protos: map<string, string>, rule: Rule, originalHost: string,
                        host: string)
    requires Exposes(cfg, ing, rule, originalHost, host)
    ensures ProxyFor(cfg, ing, protos, rule, originalHost, host) in Compile(cfg, ing, protos)
  {
    hide ProxyOf, RoutesOf, CertificateFor, ExpandedHosts;
    var probed := InsertProbe(cfg, ing);
    var i :| 0 <= i < |ing.spec.rules| && ing.spec.rules[i] == rule;
    var probedRule := ProbedRule(rule, SpecHash(cfg, ing));
    assert probed.spec.rules[i] == probedRule;
    var routes := RoutesOf(cfg, protos, ing.spec.httpOption, probedRule);
    HostComplete(cfg, probed, probedRule, routes, originalHost, host);
    RuleComplete(cfg, probed, probedRule, routes, probedRule.hosts, originalHost);
    RulesComplete(cfg, protos, probed, probed.spec.rules, probedRule);
  }

  lemma HostComplete(cfg: Config, ing: Ingress, rule: Rule, routes: seq<Route>, originalHost: string, host: string)
    requires host in ExpandedHosts(cfg.clusterDomain, originalHost)
    ensures ProxyOf(cfg, ing, rule, routes, CertificateFor(ing.spec, host), originalHost, host)
         in HostProxies(cfg, ing, rule, routes, originalHost)
  {
    hide ProxyOf, CertificateFor, ExpandedHosts;
    var hs := Ascending(ExpandedHosts(cfg.clusterDomain, originalHost));
    var i :| 0 <= i < |hs| && hs[i] == host;
    assert HostProxies(cfg, ing, rule, routes, originalHost)[i]
        == ProxyOf(cfg, ing, rule, routes, CertificateFor(ing.spec, host), originalHost, host);
  }

  lemma {:induction false} RuleComplete(cfg: Config, ing: Ingress, rule: Rule, routes: seq<Route>, hosts: seq<string>,
                                        originalHost: string)
    requires originalHost in hosts
    ensures forall p :: p in HostProxies(cfg, ing, rule, routes, originalHost) ==>
              p in RuleProxies(cfg, ing, rule, routes, hosts)
  {
    hide HostProxies;
    if originalHost != hosts[|hosts| - 1] {
      RuleComplete(cfg, ing, rule, routes, hosts[..|hosts| - 1], originalHost);
    }
  }

  lemma {:induction false} RulesComplete(cfg: Config, protos: map<string, string>, ing: Ingress, rules: seq<Rule>,
                                         rule: Rule)
    requires rule in rules
    ensures forall p :: p in RuleProxies(cfg, ing, rule, RoutesOf(cfg, protos, ing.spec.httpOption, rule), rule.hosts)
                    ==> p in RulesProxies(cfg, protos, ing, rules)
  {
    hide RoutesOf, RuleProxies;
    if rule != rules[|rules| - 1] {
      RulesComplete(cfg, protos, ing, rules[..|rules| - 1], rule);
    }
  }

  // ---- Labels ----------------------------------------------------------------------

  /** The identity the controller gives a proxy of an ingress: labels, annotation and name
      all derive from the parent, the fqdn and one class. */
  ghost predicate Identified(cfg: Config, ing: Ingress, p: HTTPProxy) {
    && p.ns == ing.ns
    && p.labels.parent == Some(ing.name)
    && p.labels.generation == Some(ing.generation)
    && Canonical(cfg, ing.name, p)
  }

  ghost predicate Canonical(cfg: Config, parent: string, p: HTTPProxy) {
    && p.labels.domainHash == Some(cfg.sha1(p.spec.fqdn))
    && p.labels.ingressClass.Some?
    && CLASS_KEY in p.annotations && p.annotations[CLASS_KEY] == p.labels.ingressClass.value
    && p.name == ProxyName(cfg, parent, p.labels.ingressClass.value, p.spec.fqdn)
  }

  lemma CompileIdentified(cfg: Config, ing: Ingress, protos: map<string, string>)
    ensures forall p :: p in Compile(cfg, ing, protos) ==> Identified(cfg, ing, p)
  {
    hide Compile, RoutesOf, CertificateFor, ExpandedHosts;
    forall p | p in Compile(cfg, ing, protos)
      ensures Identified(cfg, ing, p)
    {
      var rule, originalHost, host := CompileSound(cfg, ing, protos, p);
    }
  }

  // ---- Keys do not depend on the service protocols ---------------------------------

  datatype Target = Target(name: string, labels: Labels)

  ghost function TargetOf(p: HTTPProxy): Target {
    Target(p.name, p.labels)
  }

  ghost function TargetsOf(ps: seq<HTTPProxy>): seq<Target> {
    seq(|ps|, i requires 0 <= i < |ps| => TargetOf(ps[i]))
  }

  /** The proxies an ingress wants, by name and labels. */
  ghost function Targets(cfg: Config, ing: Ingress): seq<Target> {
    TargetsOf(Compile(cfg, ing, map[]))
  }

  lemma TargetsStable(cfg: Config, ing: Ingress, protos: map<string, string>)
    ensures TargetsOf(Compile(cfg, ing, protos)) == Targets(cfg, ing)
  {
    hide RulesProxies;
    var probed := InsertProbe(cfg, ing);
    RulesTargets(cfg, protos, probed, probed.spec.rules);
  }

  lemma TargetsConcat(a: seq<HTTPProxy>, b: seq<HTTPProxy>)
    ensures TargetsOf(a + b) == TargetsOf(a) + TargetsOf(b)
  {
  }

  lemma {:induction false} RulesTargets(cfg: Config, protos: map<string, string>, ing: Ingress, rules: seq<Rule>)
    ensures TargetsOf(RulesProxies(cfg, protos, ing, rules)) == TargetsOf(RulesProxies(cfg, map[], ing, rules))
  {
    hide RoutesOf, RuleProxies, TargetsOf;
    if rules != [] {
      var front, last := rules[..|rules| - 1], rules[|rules| - 1];
      var with, without := RoutesOf(cfg, protos, ing.spec.httpOption, last), RoutesOf(cfg, map[], ing.spec.httpOption,
                                                            last);
      RulesTargets(cfg, protos, ing, front);
      RuleTargets(cfg, ing, last, with, without, last.hosts);
      TargetsConcat(RulesProxies(cfg, protos, ing, front), RuleProxies(cfg, ing, last, with, last.hosts));
      TargetsConcat(RulesProxies(cfg, map[], ing, front), RuleProxies(cfg, ing, last, without, last.hosts));
    }
  }

  lemma {:induction false} RuleTargets(cfg: Config, ing: Ingress, rule: Rule, a: seq<Route>, b: seq<Route>,
                                       hosts: seq<string>)
    ensures TargetsOf(RuleProxies(cfg, ing, rule, a, hosts)) == TargetsOf(RuleProxies(cfg, ing, rule, b, hosts))
  {
    hide HostProxies, TargetsOf;
    if hosts != [] {
      var front, last := hosts[..|hosts| - 1], hosts[|hosts| - 1];
      RuleTargets(cfg, ing, rule, a, b, front);
      HostTargets(cfg, ing, rule, a, b, last);
      TargetsConcat(RuleProxies(cfg, ing, rule, a, front), HostProxies(cfg, ing, rule, a, last));
      TargetsConcat(RuleProxies(cfg, ing, rule, b, front), HostProxies(cfg, ing, rule, b, last));
    }
  }

  lemma HostTargets(cfg: Config, ing: Ingress, rule: Rule, a: seq<Route>, b: seq<Route>, host: string)
    ensures TargetsOf(HostProxies(cfg, ing, rule, a, host)) == TargetsOf(HostProxies(cfg, ing, rule, b, host))
  {
    hide CertificateFor, ExpandedHosts;
  }
}
