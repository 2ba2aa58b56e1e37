/** What the endpoint probe covers: exactly which (service, visibility) pairs, and with which
    port and rewrite host. */
module ProbeCoverage {
  import opened Text
  import opened Sorting
  import opened Model
  import opened EndpointProbe

  // ---- Exact coverage --------------------------------------------------------------

  /** The pair is probed: the service is mentioned, its first mention has no path, and some
      mention has this visibility. */
  ghost predicate Probed(os: seq<Occurrence>, service: string, visibility: string) {
    Mentions(os, service) && !FirstOf(os, service).hasPath && visibility in VisibilitiesOf(os, service)
  }

  ghost function ProbedRuleFor(ing: Ingress, os: seq<Occurrence>, service: string, visibility: string): Rule
    requires Mentions(os, service)
  {
    var first := FirstOf(os, service);
    ProbeRule(ing, service, first.port, first.rewriteHost, visibility)
  }

  ghost predicate IsProbeRule(ing: Ingress, os: seq<Occurrence>, r: Rule) {
    exists s, v :: Probed(os, s, v) && r == ProbedRuleFor(ing, os, s, v)
  }

  /** The order of the child's rules: by service, then by visibility. */
  predicate RuleBefore(a: Rule, b: Rule) {
    && |a.paths| == 1 && |a.paths[0].splits| == 1
    && |b.paths| == 1 && |b.paths[0].splits| == 1
    && (|| Less(a.paths[0].splits[0].service, b.paths[0].splits[0].service)
        || (a.paths[0].splits[0].service == b.paths[0].splits[0].service && Less(a.visibility, b.visibility)))
  }

  lemma RuleBeforeIsAsymmetric()
    ensures Asymmetric(RuleBefore)
  {
    LessIsAsymmetric();
    forall a, b | RuleBefore(a, b)
      ensures !RuleBefore(b, a)
    {
      LessIrreflexive(a.paths[0].splits[0].service);
    }
  }

  ghost predicate RuleIn(ing: Ingress, sns: map<string, ServiceInfo>, names: seq<string>, r: Rule) {
    exists s, v :: s in names && s in sns && !sns[s].hasPath && v in sns[s].visibilities
                && r == ProbeRule(ing, s, sns[s].port, sns[s].rewriteHost, v)
  }

  lemma ServiceRulesMembers(ing: Ingress, service: string, si: ServiceInfo, r: Rule)
    ensures r in ServiceRules(ing, service, si)
       <==> !si.hasPath && exists v :: v in si.visibilities && r == ProbeRule(ing, service, si.port, si.rewriteHost, v)
    ensures SortedBy(RuleBefore, ServiceRules(ing, service, si))
  {
    hide ProbeHost;
    var vs := Ascending(si.visibilities);
    if !si.hasPath && exists v :: v in si.visibilities && r == ProbeRule(ing, service, si.port, si.rewriteHost, v) {
      var v :| v in si.visibilities && r == ProbeRule(ing, service, si.port, si.rewriteHost, v);
      var i :| 0 <= i < |vs| && vs[i] == v;
      assert ServiceRules(ing, service, si)[i] == r;
    }
  }

  lemma {:induction false} RulesForMembers(ing: Ingress, sns: map<string, ServiceInfo>, names: seq<string>, r: Rule)
    requires forall n :: n in names ==> n in sns
    ensures r in RulesFor(ing, sns, names) <==> RuleIn(ing, sns, names, r)
  {
    hide ServiceRules, ProbeRule;
    if names != [] {
      var front, last := names[..|names| - 1], names[|names| - 1];
      RulesForMembers(ing, sns, front, r);
      ServiceRulesMembers(ing, last, sns[last], r);
      assert forall n :: n in names <==> n in front || n == last;
    }
  }

  lemma {:induction false} RulesForSorted(ing: Ingress, sns: map<string, ServiceInfo>, names: seq<string>)
    requires forall n :: n in names ==> n in sns
    requires StrictlyAscending(names)
    ensures SortedBy(RuleBefore, RulesFor(ing, sns, names))
  {
    if names != [] {
      var front, last := names[..|names| - 1], names[|names| - 1];
      RulesForSorted(ing, sns, front);
      var a, b := RulesFor(ing, sns, front), ServiceRules(ing, last, sns[last]);
      hide ServiceRules, RulesFor;
      assert SortedBy(RuleBefore, b) by {
        ServiceRulesMembers(ing, last, sns[last], Rule([], "", []));
      }
      forall i, j | 0 <= i < |a| && 0 <= j < |b|
        ensures RuleBefore(a[i], b[j])
      {
        RulesForMembers(ing, sns, front, a[i]);
        ServiceRulesMembers(ing, last, sns[last], b[j]);
      }
    }
  }

  /** The child's rules are sorted, without duplicates, and are exactly one per probed pair,
      with the port and rewrite host of the service's first mention. */
  lemma ExactCoverage(cfg: Config, ing: Ingress, previous: seq<HTTPProxy>)
    ensures SortedBy(RuleBefore, ChildSpec(cfg, ing, previous).rules)
    ensures forall r ::
              r in ChildSpec(cfg, ing, previous).rules <==> IsProbeRule(ing, AllOccurrences(cfg, ing, previous), r)
  {
    var os := AllOccurrences(cfg, ing, previous);
    var sns := AbsorbAll(map[], os);
    hide AbsorbAll, RulesFor, AllOccurrences, ProbeRule;
    var names := Ascending(sns.Keys);
    RulesForSorted(ing, sns, names);
    forall r: Rule
      ensures r in ProbeRules(ing, sns) <==> IsProbeRule(ing, os, r)
    {
      RulesForMembers(ing, sns, names, r);
      SummaryOfTable(ing, os, r);
    }
  }

  lemma SummaryOfTable(ing: Ingress, os: seq<Occurrence>, r: Rule)
    ensures var sns := AbsorbAll(map[], os);
            RuleIn(ing, sns, Ascending(sns.Keys), r) <==> IsProbeRule(ing, os, r)
  {
    var sns := AbsorbAll(map[], os);
    hide AbsorbAll, ProbeRule, VisibilitiesOf, FirstOf, Mentions;
    if RuleIn(ing, sns, Ascending(sns.Keys), r) {
      var s, v :| s in sns && !sns[s].hasPath && v in sns[s].visibilities
               && r == ProbeRule(ing, s, sns[s].port, sns[s].rewriteHost, v);
      AbsorbAllSummary(os, s);
      assert Probed(os, s, v);
    }
    if IsProbeRule(ing, os, r) {
      var s, v :| Probed(os, s, v) && r == ProbedRuleFor(ing, os, s, v);
      AbsorbAllSummary(os, s);
      assert s in Ascending(sns.Keys);
    }
  }

  // ---- Mentions, as sets -----------------------------------------------------------

  lemma {:induction false} RuleOccurrencesMembers(rules: seq<Rule>, o: Occurrence)
    ensures o in RuleOccurrences(rules)
       <==> exists rule, path, split :: rule in rules && path in rule.paths && split in path.splits
              && o == Occurrence(split.service, split.port, rule.visibility, path.rewriteHost, path.path != "")
  {
    if rules != [] {
      var front, last := rules[..|rules| - 1], rules[|rules| - 1];
      RuleOccurrencesMembers(front, o);
      PathOccurrencesMembers(last.visibility, last.paths, o);
      assert forall r :: r in rules <==> r in front || r == last;
    }
  }

  lemma {:induction false} PathOccurrencesMembers(visibility: string, paths: seq<Path>, o: Occurrence)
    ensures o in PathOccurrences(visibility, paths)
       <==> exists path, split :: path in paths && split in path.splits
              && o == Occurrence(split.service, split.port, visibility, path.rewriteHost, path.path != "")
  {
    if paths != [] {
      var front, last := paths[..|paths| - 1], paths[|paths| - 1];
      PathOccurrencesMembers(visibility, front, o);
      assert forall p :: p in paths <==> p in front || p == last;
      SplitOccurrencesMembers(visibility, last, o);
    }
  }

  lemma SplitOccurrencesMembers(visibility: string, path: Path, o: Occurrence)
    ensures o in SplitOccurrences(visibility, path, path.splits)
       <==> exists split :: split in path.splits
              && o == Occurrence(split.service, split.port, visibility, path.rewriteHost, path.path != "")
  {
    var os := SplitOccurrences(visibility, path, path.splits);
    if exists split :: split in path.splits
         && o == Occurrence(split.service, split.port, visibility, path.rewriteHost, path.path != "")
    {
      var split :| split in path.splits
        && o == Occurrence(split.service, split.port, visibility, path.rewriteHost, path.path != "");
      var i :| 0 <= i < |path.splits| && path.splits[i] == split;
      assert os[i] == o;
    }
  }

  lemma {:induction false} OldOccurrencesMembers(cfg: Config, previous: seq<HTTPProxy>, o: Occurrence)
    ensures o in OldOccurrences(cfg, previous) <==> exists p :: p in previous && o in ProxyOccurrences(cfg, p)
  {
    hide ProxyOccurrences;
    if previous != [] {
      var front, last := previous[..|previous| - 1], previous[|previous| - 1];
      OldOccurrencesMembers(cfg, front, o);
      assert forall p :: p in previous <==> p in front || p == last;
    }
  }

  lemma {:induction false} RoutesOccurrencesMembers(visibility: string, routes: seq<Route>, o: Occurrence)
    ensures o in RoutesOccurrences(visibility, routes)
       <==> exists r, svc :: r in routes && svc in r.services
              && o == Occurrence(svc.name, Number(svc.port), visibility, "", HasPrefix(r))
  {
    hide HasPrefix;
    if routes != [] {
      var front, last := routes[..|routes| - 1], routes[|routes| - 1];
      RoutesOccurrencesMembers(visibility, front, o);
      assert forall r :: r in routes <==> r in front || r == last;
      var os := RouteOccurrences(visibility, HasPrefix(last), last.services);
      if exists svc :: svc in last.services
                       && o == Occurrence(svc.name, Number(svc.port), visibility, "", HasPrefix(last)) {
        var svc :| svc in last.services && o == Occurrence(svc.name, Number(svc.port), visibility, "", HasPrefix(last));
        var i :| 0 <= i < |last.services| && last.services[i] == svc;
        assert os[i] == o;
      }
    }
  }
}
