/** The order of the compiled proxies: by rule, then by host of the rule, then by expansion. It
    decides which of two proxies for the same host and class is written last. */
module CompiledOrder {
  import opened Text
  import opened Sorting
  import opened Model
  import opened Compiler
  import opened Outputs

  /** Where a proxy comes from: the number of its rule, the number of the rule's host, and the
      expanded host. */
  datatype Place = Place(rule: nat, host: nat, expanded: string)

  ghost predicate Before(a: Place, b: Place) {
    || a.rule < b.rule
    || (a.rule == b.rule && (a.host < b.host || (a.host == b.host && Less(a.expanded, b.expanded))))
  }

  ghost predicate IsPlace(cfg: Config, rules: seq<Rule>, q: Place) {
    q.rule < |rules| && q.host < |rules[q.rule].hosts|
    && q.expanded in ExpandedHosts(cfg.clusterDomain, rules[q.rule].hosts[q.host])
  }

  ghost predicate InOrder(ps: seq<Place>) {
    forall x, y :: 0 <= x < y < |ps| ==> Before(ps[x], ps[y])
  }

  ghost function ProxyAt(cfg: Config, protos: map<string, string>, ing: Ingress, rules: seq<Rule>, q: Place): HTTPProxy
    requires IsPlace(cfg, rules, q)
  {
    var rule := rules[q.rule];
    ProxyOf(cfg, ing, rule, RoutesOf(cfg, protos, ing.spec.httpOption, rule), CertificateFor(ing.spec, q.expanded),
            rule.hosts[q.host], q.expanded)
  }

  ghost predicate Listing(cfg: Config, protos: map<string, string>, ing: Ingress, rules: seq<Rule>,
                          list: seq<HTTPProxy>, ps: seq<Place>)
  {
    && |list| == |ps| && InOrder(ps)
    && forall x :: 0 <= x < |ps| ==> IsPlace(cfg, rules, ps[x]) && list[x] == ProxyAt(cfg, protos, ing, rules, ps[x])
  }

  lemma ListingConcat(cfg: Config, protos: map<string, string>, ing: Ingress, rules: seq<Rule>,
                      a: seq<HTTPProxy>, ps: seq<Place>, b: seq<HTTPProxy>, qs: seq<Place>)
    requires Listing(cfg, protos, ing, rules, a, ps) && Listing(cfg, protos, ing, rules, b, qs)
    requires forall p, q :: p in ps && q in qs ==> Before(p, q)
    ensures Listing(cfg, protos, ing, rules, a + b, ps + qs)
  {
    hide Before, IsPlace, ProxyAt;
  }

  lemma HostPlaces(cfg: Config, protos: map<string, string>, ing: Ingress, rules: seq<Rule>, r: nat, h: nat)
    returns (ps: seq<Place>)
    requires r < |rules| && h < |rules[r].hosts|
    ensures var routes := RoutesOf(cfg, protos, ing.spec.httpOption, rules[r]);
            Listing(cfg, protos, ing, rules, HostProxies(cfg, ing, rules[r], routes, rules[r].hosts[h]), ps)
    ensures forall q :: q in ps <==> IsPlace(cfg, rules, q) && q.rule == r && q.host == h
  {
    hide ProxyOf, RoutesOf, CertificateFor, ExpandedHosts, Less;
    var hs := Ascending(ExpandedHosts(cfg.clusterDomain, rules[r].hosts[h]));
    ps := seq(|hs|, i requires 0 <= i < |hs| => Place(r, h, hs[i]));
    assert InOrder(ps);
    hide InOrder;
    forall q | IsPlace(cfg, rules, q) && q.rule == r && q.host == h
      ensures q in ps
    {
      var i :| 0 <= i < |hs| && hs[i] == q.expanded;
      assert ps[i] == q;
    }
  }

  lemma {:induction false} RulePlaces(cfg: Config, protos: map<string, string>, ing: Ingress, rules: seq<Rule>, r: nat,
                                      n: nat)
    returns (ps: seq<Place>)
    requires r < |rules| && n <= |rules[r].hosts|
    ensures var routes := RoutesOf(cfg, protos, ing.spec.httpOption, rules[r]);
            Listing(cfg, protos, ing, rules, RuleProxies(cfg, ing, rules[r], routes, rules[r].hosts[..n]), ps)
    ensures forall q :: q in ps <==> IsPlace(cfg, rules, q) && q.rule == r && q.host < n
  {
    hide HostProxies, RoutesOf, IsPlace, ProxyAt;
    ps := [];
    if n > 0 {
      var routes := RoutesOf(cfg, protos, ing.spec.httpOption, rules[r]);
      var front := RulePlaces(cfg, protos, ing, rules, r, n - 1);
      var last := HostPlaces(cfg, protos, ing, rules, r, n - 1);
      assert rules[r].hosts[..n][..n - 1] == rules[r].hosts[..n - 1];
      ListingConcat(cfg, protos, ing, rules, RuleProxies(cfg, ing, rules[r], routes, rules[r].hosts[..n - 1]), front,
                    HostProxies(cfg, ing, rules[r], routes, rules[r].hosts[n - 1]), last);
      ps := front + last;
      hide Listing;
    }
  }

  lemma {:induction false} RulesPlaces(cfg: Config, protos: map<string, string>, ing: Ingress, rules: seq<Rule>, n: nat)
    returns (ps: seq<Place>)
    requires n <= |rules|
    ensures Listing(cfg, protos, ing, rules, RulesProxies(cfg, protos, ing, rules[..n]), ps)
    ensures forall q :: q in ps <==> IsPlace(cfg, rules, q) && q.rule < n
  {
    hide RuleProxies, RoutesOf, ProxyAt;
    ps := [];
    if n > 0 {
      var rule := rules[n - 1];
      var routes := RoutesOf(cfg, protos, ing.spec.httpOption, rule);
      var front := RulesPlaces(cfg, protos, ing, rules, n - 1);
      var last := RulePlaces(cfg, protos, ing, rules, n - 1, |rule.hosts|);
      assert rules[..n][..n - 1] == rules[..n - 1] && rule.hosts[..|rule.hosts|] == rule.hosts;
      ListingConcat(cfg, protos, ing, rules, RulesProxies(cfg, protos, ing, rules[..n - 1]), front,
                    RuleProxies(cfg, ing, rule, routes, rule.hosts), last);
      ps := front + last;
      hide Listing, ExpandedHosts;
    }
  }

  /** The compiled list is in order and has exactly one proxy for every rule, host of the rule
      and expansion of that host, repetitions included. */
  lemma CompiledInOrder(cfg: Config, ing: Ingress, protos: map<string, string>) returns (ps: seq<Place>)
    ensures InOrder(ps) && forall q :: q in ps <==> IsPlace(cfg, ing.spec.rules, q)
    ensures var list, rules := Compile(cfg, ing, protos), ing.spec.rules;
            && |list| == |ps|
            && forall x :: 0 <= x < |ps| ==>
                 && IsPlace(cfg, rules, ps[x])
                 && list[x] == ProxyFor(cfg, ing, protos, rules[ps[x].rule], rules[ps[x].rule].hosts[ps[x].host],
                                        ps[x].expanded)
  {
    hide RulesProxies, ProxyOf, RoutesOf, CertificateFor, ExpandedHosts, WithProbes, SpecHash, Before;
    var probed := InsertProbe(cfg, ing);
    var rules := probed.spec.rules;
    ps := RulesPlaces(cfg, protos, probed, rules, |rules|);
    assert rules[..|rules|] == rules;
    assert forall q :: IsPlace(cfg, rules, q) <==> IsPlace(cfg, ing.spec.rules, q);
  }
}
