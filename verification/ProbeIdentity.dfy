/** Which child belongs to which generation: probe hosts tell services and generations apart,
    the proxies of a child never collide, and the order in which the old proxies are listed
    changes the child exactly when they disagree about a service. */
module ProbeIdentity {
  import opened Text
  import opened Sorting
  import opened Model
  import opened Compiler
  import opened EndpointProbe
  import opened ProbeCoverage
  import opened Decompile

  // ---- Generation separation -------------------------------------------------------

  lemma SuffixCancels(a: string, b: string, suffix: string)
    requires a + suffix == b + suffix
    ensures a == b
  {
    assert |a| == |b|;
    assert a == (a + suffix)[..|a|] && b == (b + suffix)[..|b|];
  }

  /** For a fixed ingress, a probe host determines both the service and the generation. */
  lemma ProbeHostInjective(a: Ingress, b: Ingress, s: string, t: string)
    requires a.name == b.name && a.ns == b.ns && ProbeHost(a, s) == ProbeHost(b, t)
    ensures s == t && a.generation == b.generation
  {
    var m, n := Itoa(a.generation), Itoa(b.generation);
    hide Itoa;
    var rest := "." + a.name + "." + a.ns + ".net-contour.invalid";
    assert ProbeHost(a, s) == ((s + ".gen") + "-" + m) + rest;
    assert ProbeHost(b, t) == ((t + ".gen") + "-" + n) + rest;
    SuffixCancels((s + ".gen") + "-" + m, (t + ".gen") + "-" + n, rest);
    assert '-' !in m && '-' !in n;
    LastSeparatorUnique(s + ".gen", t + ".gen", m, n, '-');
    SuffixCancels(s, t, ".gen");
    ItoaInjective(a.generation, b.generation);
  }

  /** A child that probes anything is never mistaken for the child of another generation. */
  lemma GenerationSeparation(cfg: Config, a: Ingress, b: Ingress, listedA: seq<HTTPProxy>, listedB: seq<HTTPProxy>)
    requires a.name == b.name && a.ns == b.ns
    requires ChildSpec(cfg, a, listedA) == ChildSpec(cfg, b, listedB)
    ensures ChildSpec(cfg, a, listedA).rules == [] || a.generation == b.generation
  {
    ExactCoverage(cfg, a, listedA);
    ExactCoverage(cfg, b, listedB);
    var rules := ChildSpec(cfg, a, listedA).rules;
    hide ChildSpec, AllOccurrences, ProbeHost, Probed, FirstOf;
    if rules != [] {
      var osA, osB := AllOccurrences(cfg, a, listedA), AllOccurrences(cfg, b, listedB);
      assert rules[0] in rules;
      assert IsProbeRule(a, osA, rules[0]) && IsProbeRule(b, osB, rules[0]);
      var s, v := ProbeRuleHost(a, osA, rules[0]);
      var t, w := ProbeRuleHost(b, osB, rules[0]);
      ProbeHostInjective(a, b, s, t);
    }
  }

  lemma ProbeRuleHost(ing: Ingress, os: seq<Occurrence>, r: Rule) returns (service: string, visibility: string)
    requires IsProbeRule(ing, os, r)
    ensures Probed(os, service, visibility)
    ensures r.hosts == [ProbeHost(ing, service)] && r.visibility == visibility && ServesOnly(r, service)
  {
    hide ProbeHost, Probed;
    var s, v :| Probed(os, s, v) && Mentions(os, s) && r == ProbedRuleFor(ing, os, s, v);
    service, visibility := s, v;
  }

  // ---- The child's own proxies do not collide --------------------------------------

  lemma {:induction false} LastLabelAppended(s: string, t: string)
    requires '.' !in t
    ensures LastLabel(s + "." + t) == t
  {
    var d := s + "." + t;
    if t != "" {
      var front := t[..|t| - 1];
      assert d[..|d| - 1] == s + "." + front;
      assert t == front + [t[|t| - 1]];
      LastLabelAppended(s, front);
    }
  }

  lemma ProbeHostExpansion(clusterDomain: string, ing: Ingress, service: string)
    requires !HasSuffix(ProbeHost(ing, service), clusterDomain)
    ensures ExpandedHosts(clusterDomain, ProbeHost(ing, service)) == {ProbeHost(ing, service)}
  {
    var host := ProbeHost(ing, service);
    var front := service + ".gen-" + Itoa(ing.generation) + "." + ing.name + "." + ing.ns + ".net-contour";
    assert host == front + "." + "invalid";
    LastLabelAppended(front, "invalid");
    assert "invalid"[0] > '9';
    assert ValidTopLevelDomain(host);
    hide ProbeHost, LastLabel, ValidTopLevelDomain;
    SuffixOfSuffix(host, ".", clusterDomain);
    SuffixOfSuffix(host, ".svc.", clusterDomain);
    assert TrimSuffix(host, "") == host;
    assert TrimmedHost(host, "." + clusterDomain) == {};
    assert TrimmedHost(host, ".svc." + clusterDomain) == {};
  }

  lemma SuffixOfSuffix(s: string, a: string, b: string)
    ensures HasSuffix(s, a + b) ==> HasSuffix(s, b)
  {
    if HasSuffix(s, a + b) {
      assert s[|s| - |b|..] == s[|s| - |a + b|..][|a|..];
    }
  }

  /** One proxy per rule, when every rule has one host that expands to itself. */
  lemma {:induction false} SingleHostProxies(cfg: Config, protos: map<string, string>, ing: Ingress, rules: seq<Rule>)
    requires forall r :: r in rules ==> |r.hosts| == 1 && ExpandedHosts(cfg.clusterDomain, r.hosts[0]) == {r.hosts[0]}
    ensures var ps := RulesProxies(cfg, protos, ing, rules);
            |ps| == |rules| && forall i :: 0 <= i < |rules| ==>
              ps[i].spec.fqdn == rules[i].hosts[0]
              && ps[i].labels.ingressClass == Some(EffectiveClass(cfg, rules[i], rules[i].hosts[0]))
  {
    hide ExpandedHosts, RoutesOf, CertificateFor, EffectiveClass, HostProxies;
    if rules != [] {
      var front, last := rules[..|rules| - 1], rules[|rules| - 1];
      SingleHostProxies(cfg, protos, ing, front);
      var routes := RoutesOf(cfg, protos, ing.spec.httpOption, last);
      assert last in rules;
      SingleHostProxy(cfg, ing, last, routes);
    }
  }

  lemma SingleHostProxy(cfg: Config, ing: Ingress, rule: Rule, routes: seq<Route>)
    requires |rule.hosts| == 1 && ExpandedHosts(cfg.clusterDomain, rule.hosts[0]) == {rule.hosts[0]}
    ensures var ps := RuleProxies(cfg, ing, rule, routes, rule.hosts);
            |ps| == 1 && ps[0].spec.fqdn == rule.hosts[0]
            && ps[0].labels.ingressClass == Some(EffectiveClass(cfg, rule, rule.hosts[0]))
  {
    hide ExpandedHosts, CertificateFor, EffectiveClass;
    assert rule.hosts[..0] == [];
    assert |Ascending({rule.hosts[0]})| == 1;
    assert Ascending({rule.hosts[0]})[0] in Ascending({rule.hosts[0]});
  }

  /** No two proxies of a child share both fqdn and class. */
  lemma ChildProxiesDistinct(cfg: Config, ing: Ingress, listed: seq<HTTPProxy>, child: Ingress,
                             protos: map<string, string>, i: nat, j: nat)
    requires DistinctClasses(cfg)
    requires forall s :: !HasSuffix(ProbeHost(ing, s), cfg.clusterDomain)
    requires forall o :: o in AllOccurrences(cfg, ing, listed) ==> o.visibility in cfg.classes
    requires child.spec == ChildSpec(cfg, ing, listed)
    requires i < j < |Compile(cfg, child, protos)|
    ensures var ps := Compile(cfg, child, protos);
            ps[i].spec.fqdn != ps[j].spec.fqdn || ps[i].labels.ingressClass != ps[j].labels.ingressClass
  {
    ExactCoverage(cfg, ing, listed);
    hide ChildSpec, ProbeHost, ExpandedHosts, AllOccurrences, RulesProxies, WithProbes, FirstOf;
    var rules := child.spec.rules;
    var os := AllOccurrences(cfg, ing, listed);
    var probed := InsertProbe(cfg, child).spec.rules;
    forall r | r in probed
      ensures |r.hosts| == 1 && ExpandedHosts(cfg.clusterDomain, r.hosts[0]) == {r.hosts[0]}
    {
      var k :| 0 <= k < |rules| && r == ProbedRule(rules[k], SpecHash(cfg, child));
      assert rules[k] in rules;
      var s, v := ProbeRuleHost(ing, os, rules[k]);
      ProbeHostExpansion(cfg.clusterDomain, ing, s);
    }
    SingleHostProxies(cfg, protos, InsertProbe(cfg, child), probed);
    DistinctProbeRules(cfg, ing, os, rules[i], rules[j]);
    assert probed[i] == ProbedRule(rules[i], SpecHash(cfg, child))
      && probed[j] == ProbedRule(rules[j], SpecHash(cfg, child));
  }

  lemma DistinctProbeRules(cfg: Config, ing: Ingress, os: seq<Occurrence>, a: Rule, b: Rule)
    requires DistinctClasses(cfg)
    requires forall s :: !HasSuffix(ProbeHost(ing, s), cfg.clusterDomain)
    requires forall o :: o in os ==> o.visibility in cfg.classes
    requires IsProbeRule(ing, os, a) && IsProbeRule(ing, os, b) && RuleBefore(a, b)
    ensures |a.hosts| == |b.hosts| == 1
    ensures a.hosts[0] != b.hosts[0] || EffectiveClass(cfg, a, a.hosts[0]) != EffectiveClass(cfg, b, b.hosts[0])
  {
    hide ProbeHost, FirstOf;
    var s, v := ProbeRuleHost(ing, os, a);
    var t, w := ProbeRuleHost(ing, os, b);
    if a.hosts[0] == b.hosts[0] {
      ProbeHostInjective(ing, ing, s, t);
      LessIrreflexive(s);
      LessIrreflexive(v);
      assert v != w && v in cfg.classes && w in cfg.classes;
    }
  }

  // ---- Listing order ---------------------------------------------------------------

  /** Two first mentions lead to the same probe. */
  predicate SameProbe(a: Occurrence, b: Occurrence) {
    a.hasPath == b.hasPath && (!a.hasPath ==> a.port == b.port)
  }

  /** Any two old proxies that mention a service which the new generation drops agree on
      whether to probe it and on which port. */
  ghost predicate OldProxiesAgree(cfg: Config, ing: Ingress, listed: seq<HTTPProxy>) {
    forall p, q, s :: p in listed && q in listed && !Mentions(RuleOccurrences(ing.spec.rules), s)
      && Mentions(ProxyOccurrences(cfg, p), s) && Mentions(ProxyOccurrences(cfg, q), s)
      ==> SameProbe(FirstOf(ProxyOccurrences(cfg, p), s), FirstOf(ProxyOccurrences(cfg, q), s))
  }

  lemma {:induction false} FirstOldMention(cfg: Config, listed: seq<HTTPProxy>, s: string) returns (p: HTTPProxy)
    requires Mentions(OldOccurrences(cfg, listed), s)
    ensures p in listed && Mentions(ProxyOccurrences(cfg, p), s)
    ensures FirstOf(OldOccurrences(cfg, listed), s) == FirstOf(ProxyOccurrences(cfg, p), s)
  {
    hide ProxyOccurrences;
    assert listed != [];
    hide Mentions;
    var front, last := listed[..|listed| - 1], listed[|listed| - 1];
    FirstOfConcat(OldOccurrences(cfg, front), ProxyOccurrences(cfg, last), s);
    if Mentions(OldOccurrences(cfg, front), s) {
      p := FirstOldMention(cfg, front, s);
    } else {
      p := last;
    }
  }

  lemma OldRewriteHost(cfg: Config, p: HTTPProxy, o: Occurrence)
    requires o in ProxyOccurrences(cfg, p)
    ensures o.rewriteHost == ""
  {
    hide VisibilityOf, HasPrefix;
    RoutesOccurrencesMembers(VisibilityOf(cfg, Lookup(p.annotations, CLASS_KEY)), p.spec.routes, o);
  }

  lemma SameMembers(cfg: Config, a: seq<HTTPProxy>, b: seq<HTTPProxy>)
    requires forall p :: p in a <==> p in b
    ensures forall o :: o in OldOccurrences(cfg, a) <==> o in OldOccurrences(cfg, b)
  {
    hide ProxyOccurrences, OldOccurrences;
    forall o: Occurrence
      ensures o in OldOccurrences(cfg, a) <==> o in OldOccurrences(cfg, b)
    {
      OldOccurrencesMembers(cfg, a, o);
      OldOccurrencesMembers(cfg, b, o);
    }
  }

  lemma SameFirstMention(cfg: Config, ing: Ingress, a: seq<HTTPProxy>, b: seq<HTTPProxy>, s: string)
    requires forall p :: p in a <==> p in b
    requires OldProxiesAgree(cfg, ing, a)
    requires Mentions(AllOccurrences(cfg, ing, a), s) && Mentions(AllOccurrences(cfg, ing, b), s)
    ensures var x, y := FirstOf(AllOccurrences(cfg, ing, a), s), FirstOf(AllOccurrences(cfg, ing, b), s);
            SameProbe(x, y) && x.rewriteHost == y.rewriteHost
  {
    hide ProxyOccurrences, OldOccurrences, RuleOccurrences, Mentions;
    var now := RuleOccurrences(ing.spec.rules);
    FirstOfConcat(now, OldOccurrences(cfg, a), s);
    FirstOfConcat(now, OldOccurrences(cfg, b), s);
    if !Mentions(now, s) {
      var p := FirstOldMention(cfg, a, s);
      var q := FirstOldMention(cfg, b, s);
      OldRewriteHost(cfg, p, FirstOf(ProxyOccurrences(cfg, p), s));
      OldRewriteHost(cfg, q, FirstOf(ProxyOccurrences(cfg, q), s));
    }
  }

  lemma SameProbeRules(cfg: Config, ing: Ingress, a: seq<HTTPProxy>, b: seq<HTTPProxy>, r: Rule)
    requires forall p :: p in a <==> p in b
    requires OldProxiesAgree(cfg, ing, a)
    ensures IsProbeRule(ing, AllOccurrences(cfg, ing, a), r) ==> IsProbeRule(ing, AllOccurrences(cfg, ing, b), r)
  {
    var osA, osB := AllOccurrences(cfg, ing, a), AllOccurrences(cfg, ing, b);
    SameMembers(cfg, a, b);
    assert forall o :: o in osA <==> o in osB;
    hide AllOccurrences, OldProxiesAgree, ProbeHost, FirstOf;
    if IsProbeRule(ing, osA, r) {
      var s, v :| Probed(osA, s, v) && r == ProbedRuleFor(ing, osA, s, v);
      assert Mentions(osB, s);
      SameFirstMention(cfg, ing, a, b, s);
      assert Probed(osB, s, v);
    }
  }

  /** When the old proxies agree, the child depends only on which proxies are listed. */
  lemma ListingIrrelevant(cfg: Config, ing: Ingress, a: seq<HTTPProxy>, b: seq<HTTPProxy>)
    requires forall p :: p in a <==> p in b
    requires OldProxiesAgree(cfg, ing, a)
    ensures ChildSpec(cfg, ing, a) == ChildSpec(cfg, ing, b)
  {
    assert OldProxiesAgree(cfg, ing, b);
    ExactCoverage(cfg, ing, a);
    ExactCoverage(cfg, ing, b);
    var rulesA, rulesB := ChildSpec(cfg, ing, a).rules, ChildSpec(cfg, ing, b).rules;
    assert rulesA == rulesB by {
      hide ChildSpec, OldProxiesAgree, AllOccurrences, IsProbeRule;
      forall r: Rule
        ensures r in rulesA <==> r in rulesB
      {
        SameProbeRules(cfg, ing, a, b, r);
        SameProbeRules(cfg, ing, b, a, r);
      }
      RuleBeforeIsAsymmetric();
      SortedUnique(RuleBefore, rulesA, rulesB);
    }
    hide ProbeRules, AllOccurrences, AbsorbAll, OldProxiesAgree;
  }

  /** The proxy at index `i`, moved to the front. */
  function MovedToFront(listed: seq<HTTPProxy>, i: nat): seq<HTTPProxy>
    requires i < |listed|
  {
    [listed[i]] + (listed[..i] + listed[i + 1..])
  }

  lemma MovedToFrontPermutes(listed: seq<HTTPProxy>, i: nat)
    requires i < |listed|
    ensures multiset(MovedToFront(listed, i)) == multiset(listed)
  {
    assert listed == listed[..i] + [listed[i]] + listed[i + 1..];
  }

  lemma {:induction false} OldOccurrencesFront(cfg: Config, p: HTTPProxy, rest: seq<HTTPProxy>)
    ensures OldOccurrences(cfg, [p] + rest) == ProxyOccurrences(cfg, p) + OldOccurrences(cfg, rest)
  {
    hide ProxyOccurrences;
    var all := [p] + rest;
    if rest == [] {
      assert all[..0] == [] && all[|all| - 1] == p;
      assert OldOccurrences(cfg, all) == OldOccurrences(cfg, []) + ProxyOccurrences(cfg, p);
    } else {
      assert all[..|all| - 1] == [p] + rest[..|rest| - 1];
      OldOccurrencesFront(cfg, p, rest[..|rest| - 1]);
    }
  }

  lemma FrontMention(cfg: Config, ing: Ingress, listed: seq<HTTPProxy>, i: nat, s: string)
    requires i < |listed| && !Mentions(RuleOccurrences(ing.spec.rules), s)
    requires Mentions(ProxyOccurrences(cfg, listed[i]), s)
    ensures Mentions(AllOccurrences(cfg, ing, MovedToFront(listed, i)), s)
    ensures FirstOf(AllOccurrences(cfg, ing, MovedToFront(listed, i)), s)
      == FirstOf(ProxyOccurrences(cfg, listed[i]), s)
  {
    hide ProxyOccurrences, OldOccurrences, RuleOccurrences, Mentions;
    var rest := listed[..i] + listed[i + 1..];
    OldOccurrencesFront(cfg, listed[i], rest);
    FirstOfConcat(ProxyOccurrences(cfg, listed[i]), OldOccurrences(cfg, rest), s);
    FirstOfConcat(RuleOccurrences(ing.spec.rules), OldOccurrences(cfg, MovedToFront(listed, i)), s);
  }

  /** Equal children have equal first mentions, as far as the probe goes. */
  lemma EqualChildrenAgree(cfg: Config, ing: Ingress, a: seq<HTTPProxy>, b: seq<HTTPProxy>, s: string)
    requires ChildSpec(cfg, ing, a) == ChildSpec(cfg, ing, b)
    requires Mentions(AllOccurrences(cfg, ing, a), s) && Mentions(AllOccurrences(cfg, ing, b), s)
    requires !FirstOf(AllOccurrences(cfg, ing, a), s).hasPath
    ensures SameProbe(FirstOf(AllOccurrences(cfg, ing, a), s), FirstOf(AllOccurrences(cfg, ing, b), s))
  {
    ExactCoverage(cfg, ing, a);
    ExactCoverage(cfg, ing, b);
    var osA, osB := AllOccurrences(cfg, ing, a), AllOccurrences(cfg, ing, b);
    hide ChildSpec, AllOccurrences, ProbeHost;
    var v := FirstOf(osA, s).visibility;
    assert FirstOf(osA, s) in osA;
    assert Probed(osA, s, v);
    var r := ProbedRuleFor(ing, osA, s, v);
    assert IsProbeRule(ing, osA, r) && IsProbeRule(ing, osB, r);
    var t, w :| Probed(osB, t, w) && r == ProbedRuleFor(ing, osB, t, w);
    hide FirstOf, Mentions;
    assert r.paths[0].splits[0].service == s == t;
  }

  /** The child is the same for every order in which the old proxies are listed, exactly when
      those proxies agree about every service that the new generation drops. */
  lemma ListingOrder(cfg: Config, ing: Ingress, listed: seq<HTTPProxy>)
    ensures (forall other :: multiset(other) == multiset(listed)
                             ==> ChildSpec(cfg, ing, other) == ChildSpec(cfg, ing, listed))
       <==> OldProxiesAgree(cfg, ing, listed)
  {
    if OldProxiesAgree(cfg, ing, listed) {
      hide OldProxiesAgree, ChildSpec;
      forall other | multiset(other) == multiset(listed)
        ensures ChildSpec(cfg, ing, other) == ChildSpec(cfg, ing, listed)
      {
        assert forall p :: p in other <==> p in multiset(other);
        assert forall p :: p in listed <==> p in multiset(listed);
        ListingIrrelevant(cfg, ing, listed, other);
      }
    } else {
      var p, q, s :| p in listed && q in listed && !Mentions(RuleOccurrences(ing.spec.rules), s)
        && Mentions(ProxyOccurrences(cfg, p), s) && Mentions(ProxyOccurrences(cfg, q), s)
        && !SameProbe(FirstOf(ProxyOccurrences(cfg, p), s), FirstOf(ProxyOccurrences(cfg, q), s));
      hide ChildSpec, ProxyOccurrences, RuleOccurrences, Mentions, FirstOf, AllOccurrences;
      var i :| 0 <= i < |listed| && listed[i] == p;
      var j :| 0 <= j < |listed| && listed[j] == q;
      var a, b := MovedToFront(listed, i), MovedToFront(listed, j);
      MovedToFrontPermutes(listed, i);
      MovedToFrontPermutes(listed, j);
      FrontMention(cfg, ing, listed, i, s);
      FrontMention(cfg, ing, listed, j, s);
      if ChildSpec(cfg, ing, a) == ChildSpec(cfg, ing, b) {
        if !FirstOf(AllOccurrences(cfg, ing, a), s).hasPath {
          EqualChildrenAgree(cfg, ing, a, b, s);
        } else {
          EqualChildrenAgree(cfg, ing, b, a, s);
        }
      }
    }
  }
}
