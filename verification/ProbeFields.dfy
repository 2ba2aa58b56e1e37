/** The endpoint probe field by field: what its rules, certificates and annotations are, in the
    words of the ingress and of the proxies that are still there. */
module ProbeFields {
  import opened Text
  import opened Model
  import opened Compiler
  import opened EndpointProbe
  import opened ProbeCoverage
  import opened Certificates

  // ---- First mentions --------------------------------------------------------------

  lemma {:induction false} FirstAt(os: seq<Occurrence>, c: nat, s: string)
    requires c < |os| && os[c].service == s && forall i :: 0 <= i < c ==> os[i].service != s
    ensures Mentions(os, s) && FirstOf(os, s) == os[c]
  {
    var front := os[..|os| - 1];
    assert os[c] in os;
    if c < |os| - 1 {
      FirstAt(front, c, s);
    }
  }

  /** Split `c` of path `b` of rule `a` names the service. */
  ghost predicate NamedAt(rules: seq<Rule>, s: string, a: int, b: int, c: int) {
    && 0 <= a < |rules| && 0 <= b < |rules[a].paths| && 0 <= c < |rules[a].paths[b].splits|
    && rules[a].paths[b].splits[c].service == s
  }

  /** ... and no earlier one does. */
  ghost predicate FirstNamedAt(rules: seq<Rule>, s: string, a: int, b: int, c: int) {
    && NamedAt(rules, s, a, b, c)
    && forall x, y, z :: NamedAt(rules, s, x, y, z) ==> a < x || (a == x && (b < y || (b == y && c <= z)))
  }

  lemma {:induction false} FirstInPaths(visibility: string, paths: seq<Path>, s: string, b: nat, c: nat)
    requires b < |paths| && c < |paths[b].splits| && paths[b].splits[c].service == s
    requires forall z :: 0 <= z < c ==> paths[b].splits[z].service != s
    requires forall y, z :: 0 <= y < b && 0 <= z < |paths[y].splits| ==> paths[y].splits[z].service != s
    ensures Mentions(PathOccurrences(visibility, paths), s)
    ensures FirstOf(PathOccurrences(visibility, paths), s)
         == Occurrence(s, paths[b].splits[c].port, visibility, paths[b].rewriteHost, paths[b].path != "")
  {
    var front, last := paths[..|paths| - 1], paths[|paths| - 1];
    var early, late := PathOccurrences(visibility, front), SplitOccurrences(visibility, last, last.splits);
    FirstOfConcat(early, late, s);
    if b < |paths| - 1 {
      FirstInPaths(visibility, front, s, b, c);
    } else {
      assert !Mentions(early, s) by {
        forall o | o in early
          ensures o.service != s
        {
          PathOccurrencesMembers(visibility, front, o);
        }
      }
      FirstAt(late, c, s);
    }
  }

  lemma {:induction false} FirstInRules(rules: seq<Rule>, s: string, a: int, b: int, c: int)
    requires FirstNamedAt(rules, s, a, b, c)
    ensures Mentions(RuleOccurrences(rules), s)
    ensures var rule, path := rules[a], rules[a].paths[b];
            FirstOf(RuleOccurrences(rules), s)
            == Occurrence(s, path.splits[c].port, rule.visibility, path.rewriteHost, path.path != "")
  {
    var front, last := rules[..|rules| - 1], rules[|rules| - 1];
    var early, late := RuleOccurrences(front), PathOccurrences(last.visibility, last.paths);
    FirstOfConcat(early, late, s);
    hide PathOccurrences;
    assert forall x, y, z :: NamedAt(front, s, x, y, z) ==> NamedAt(rules, s, x, y, z);
    if a < |rules| - 1 {
      assert NamedAt(front, s, a, b, c);
      FirstInRules(front, s, a, b, c);
    } else {
      assert !Mentions(early, s) by {
        forall o | o in early
          ensures o.service != s
        {
          UnnamedBefore(front, s, o);
        }
      }
      assert forall y, z :: 0 <= y < |last.paths| && 0 <= z < |last.paths[y].splits|
                            && last.paths[y].splits[z].service == s
                            ==> NamedAt(rules, s, a, y, z);
      FirstInPaths(last.visibility, last.paths, s, b, c);
    }
  }

  /** Rules without a split for the service do not mention it. */
  lemma UnnamedBefore(rules: seq<Rule>, s: string, o: Occurrence)
    requires o in RuleOccurrences(rules) && forall x, y, z :: !NamedAt(rules, s, x, y, z)
    ensures o.service != s
  {
    RuleOccurrencesMembers(rules, o);
    hide RuleOccurrences;
    var rule, path, split :| rule in rules && path in rule.paths && split in path.splits
      && o == Occurrence(split.service, split.port, rule.visibility, path.rewriteHost, path.path != "");
    var x :| 0 <= x < |rules| && rules[x] == rule;
    var y :| 0 <= y < |rule.paths| && rule.paths[y] == path;
    var z :| 0 <= z < |path.splits| && path.splits[z] == split;
    assert !NamedAt(rules, s, x, y, z);
  }

  /** A mention of a service has a first one. */
  lemma {:induction false} FirstNamed(rules: seq<Rule>, s: string) returns (a: int, b: int, c: int)
    requires Mentions(RuleOccurrences(rules), s)
    ensures FirstNamedAt(rules, s, a, b, c)
  {
    var front, last := rules[..|rules| - 1], rules[|rules| - 1];
    hide PathOccurrences;
    FirstOfConcat(RuleOccurrences(front), PathOccurrences(last.visibility, last.paths), s);
    if Mentions(RuleOccurrences(front), s) {
      a, b, c := FirstNamed(front, s);
      assert NamedAt(rules, s, a, b, c);
      NamedInFront(rules, s);
    } else {
      a := |rules| - 1;
      b, c := FirstNamedPath(last.visibility, last.paths, s);
      assert NamedAt(rules, s, a, b, c);
      forall x, y, z | NamedAt(rules, s, x, y, z)
        ensures a < x || (a == x && (b < y || (b == y && c <= z)))
      {
        if x < a {
          NamedMentions(front, s, x, y, z);
        }
      }
    }
  }

  lemma NamedInFront(rules: seq<Rule>, s: string)
    requires rules != []
    ensures var front := rules[..|rules| - 1];
            forall x, y, z :: NamedAt(rules, s, x, y, z) ==> x == |rules| - 1 || NamedAt(front, s, x, y, z)
  {
  }

  lemma NamedMentions(rules: seq<Rule>, s: string, x: int, y: int, z: int)
    requires NamedAt(rules, s, x, y, z)
    ensures Mentions(RuleOccurrences(rules), s)
  {
    var rule, path, split := rules[x], rules[x].paths[y], rules[x].paths[y].splits[z];
    var o := Occurrence(split.service, split.port, rule.visibility, path.rewriteHost, path.path != "");
    RuleOccurrencesMembers(rules, o);
    hide RuleOccurrences;
    assert o in RuleOccurrences(rules);
  }

  lemma {:induction false} FirstNamedPath(visibility: string, paths: seq<Path>, s: string) returns (b: int, c: int)
    requires Mentions(PathOccurrences(visibility, paths), s)
    ensures 0 <= b < |paths| && 0 <= c < |paths[b].splits| && paths[b].splits[c].service == s
    ensures forall y, z :: 0 <= y < |paths| && 0 <= z < |paths[y].splits| && paths[y].splits[z].service == s
                           ==> b < y || (b == y && c <= z)
  {
    var front, last := paths[..|paths| - 1], paths[|paths| - 1];
    FirstOfConcat(PathOccurrences(visibility, front), SplitOccurrences(visibility, last, last.splits), s);
    if Mentions(PathOccurrences(visibility, front), s) {
      b, c := FirstNamedPath(visibility, front, s);
    } else {
      b := |paths| - 1;
      c := FirstSplit(last.splits, s, visibility, last);
      forall y, z | 0 <= y < |paths| && 0 <= z < |paths[y].splits| && paths[y].splits[z].service == s
        ensures b < y || (b == y && c <= z)
      {
        if y < b {
          var split := front[y].splits[z];
          var o := Occurrence(split.service, split.port, visibility, front[y].rewriteHost, front[y].path != "");
          PathOccurrencesMembers(visibility, front, o);
        }
      }
    }
  }

  lemma FirstSplit(splits: seq<Split>, s: string, visibility: string, path: Path) returns (c: int)
    requires Mentions(SplitOccurrences(visibility, path, splits), s)
    ensures 0 <= c < |splits| && splits[c].service == s && forall z :: 0 <= z < c ==> splits[z].service != s
  {
    var os := SplitOccurrences(visibility, path, splits);
    var o :| o in os && o.service == s;
    var n :| 0 <= n < |os| && os[n] == o;
    c := 0;
    while splits[c].service != s
      invariant 0 <= c <= n && forall z :: 0 <= z < c ==> splits[z].service != s
      decreases n - c
    {
      c := c + 1;
    }
  }

  // ---- First mentions in the prior generation --------------------------------------

  /** The class that a proxy is annotated with. */
  function AnnotatedClass(p: HTTPProxy): string {
    if "projectcontour.io/ingress.class" in p.annotations then p.annotations["projectcontour.io/ingress.class"] else ""
  }

  /** Contour found the proxy valid, and it serves the configured visibility `v`. */
  ghost predicate TakenOver(cfg: Config, p: HTTPProxy, v: string) {
    p.status == "valid" && v in cfg.classes && cfg.classes[v] == AnnotatedClass(p)
  }

  lemma TakenOverExactly(cfg: Config, p: HTTPProxy)
    requires DistinctClasses(cfg)
    ensures Eligible(cfg, p) <==> exists v :: TakenOver(cfg, p, v)
    ensures forall v :: TakenOver(cfg, p, v) ==> VisibilityOf(cfg, Lookup(p.annotations, CLASS_KEY)) == v
  {
    if Eligible(cfg, p) {
      assert TakenOver(cfg, p, VisibilityOf(cfg, Lookup(p.annotations, CLASS_KEY)));
    }
  }

  /** Backend `c` of route `b` of proxy `a`, which is taken over, has this name. */
  ghost predicate ServedAt(cfg: Config, previous: seq<HTTPProxy>, s: string, a: int, b: int, c: int) {
    && 0 <= a < |previous| && (exists v :: TakenOver(cfg, previous[a], v))
    && 0 <= b < |previous[a].spec.routes| && 0 <= c < |previous[a].spec.routes[b].services|
    && previous[a].spec.routes[b].services[c].name == s
  }

  ghost predicate FirstServedAt(cfg: Config, previous: seq<HTTPProxy>, s: string, a: int, b: int, c: int) {
    && ServedAt(cfg, previous, s, a, b, c)
    && forall x, y, z :: ServedAt(cfg, previous, s, x, y, z) ==> a < x || (a == x && (b < y || (b == y && c <= z)))
  }

  /** Some match condition of the route has a prefix. */
  ghost predicate Prefixed(r: Route) {
    exists i :: 0 <= i < |r.conditions| && r.conditions[i].prefix != ""
  }

  lemma PrefixedExactly(r: Route)
    ensures HasPrefix(r) <==> Prefixed(r)
  {
    if Prefixed(r) {
      var i :| 0 <= i < |r.conditions| && r.conditions[i].prefix != "";
      assert r.conditions[i] in r.conditions;
    }
    if HasPrefix(r) {
      var c :| c in r.conditions && c.prefix != "";
      var i :| 0 <= i < |r.conditions| && r.conditions[i] == c;
    }
  }

  lemma {:induction false} FirstInRoutes(visibility: string, routes: seq<Route>, s: string, b: nat, c: nat)
    requires b < |routes| && c < |routes[b].services| && routes[b].services[c].name == s
    requires forall z :: 0 <= z < c ==> routes[b].services[z].name != s
    requires forall y, z :: 0 <= y < b && 0 <= z < |routes[y].services| ==> routes[y].services[z].name != s
    ensures Mentions(RoutesOccurrences(visibility, routes), s)
    ensures FirstOf(RoutesOccurrences(visibility, routes), s)
         == Occurrence(s, Number(routes[b].services[c].port), visibility, "", Prefixed(routes[b]))
  {
    hide HasPrefix, Prefixed;
    var front, last := routes[..|routes| - 1], routes[|routes| - 1];
    var early, late := RoutesOccurrences(visibility, front), RouteOccurrences(visibility, HasPrefix(last),
                                                            last.services);
    FirstOfConcat(early, late, s);
    if b < |routes| - 1 {
      FirstInRoutes(visibility, front, s, b, c);
    } else {
      assert !Mentions(early, s) by {
        forall o | o in early
          ensures o.service != s
        {
          RoutesOccurrencesMembers(visibility, front, o);
        }
      }
      PrefixedExactly(last);
      FirstAt(late, c, s);
    }
  }

  lemma {:induction false} FirstInPrevious(cfg: Config, previous: seq<HTTPProxy>, s: string, a: int, b: int, c: int)
    requires DistinctClasses(cfg) && FirstServedAt(cfg, previous, s, a, b, c)
    ensures Mentions(OldOccurrences(cfg, previous), s)
    ensures var r := previous[a].spec.routes[b];
            forall v :: TakenOver(cfg, previous[a], v) ==>
              FirstOf(OldOccurrences(cfg, previous), s) == Occurrence(s, Number(r.services[c].port), v, "", Prefixed(r))
  {
    hide RoutesOccurrences, Prefixed, TakenOver, DistinctClasses, Eligible, VisibilityOf;
    var front, last := previous[..|previous| - 1], previous[|previous| - 1];
    var early, late := OldOccurrences(cfg, front), ProxyOccurrences(cfg, last);
    FirstOfConcat(early, late, s);
    assert forall x, y, z :: ServedAt(cfg, front, s, x, y, z) ==> ServedAt(cfg, previous, s, x, y, z);
    if a < |previous| - 1 {
      assert ServedAt(cfg, front, s, a, b, c);
      FirstInPrevious(cfg, front, s, a, b, c);
    } else {
      assert !Mentions(early, s) by {
        forall o | o in early
          ensures o.service != s
        {
          UnservedBefore(cfg, front, s, o);
        }
      }
      TakenOverExactly(cfg, last);
      var routes := last.spec.routes;
      assert forall y, z :: 0 <= y < |routes| && 0 <= z < |routes[y].services| && routes[y].services[z].name == s
                            ==> ServedAt(cfg, previous, s, a, y, z);
      FirstInRoutes(VisibilityOf(cfg, Lookup(last.annotations, CLASS_KEY)), routes, s, b, c);
    }
  }

  /** Proxies without a taken-over backend of that name do not mention it. */
  lemma UnservedBefore(cfg: Config, previous: seq<HTTPProxy>, s: string, o: Occurrence)
    requires DistinctClasses(cfg) && o in OldOccurrences(cfg, previous)
    requires forall x, y, z :: !ServedAt(cfg, previous, s, x, y, z)
    ensures o.service != s
  {
    OldOccurrencesMembers(cfg, previous, o);
    hide OldOccurrences, RoutesOccurrences, HasPrefix, VisibilityOf, DistinctClasses;
    var p :| p in previous && o in ProxyOccurrences(cfg, p);
    TakenOverExactly(cfg, p);
    RoutesOccurrencesMembers(VisibilityOf(cfg, Lookup(p.annotations, CLASS_KEY)), p.spec.routes, o);
    hide TakenOver;
    var r, svc :| r in p.spec.routes && svc in r.services && o.service == svc.name;
    var x :| 0 <= x < |previous| && previous[x] == p;
    var y :| 0 <= y < |p.spec.routes| && p.spec.routes[y] == r;
    var z :| 0 <= z < |r.services| && r.services[z] == svc;
    assert !ServedAt(cfg, previous, s, x, y, z);
  }

  // ---- The rules -------------------------------------------------------------------

  /** The host by which a service is probed, section 2 of RFC 2606. */
  function HostFor(ing: Ingress, s: string): string {
    s + ".gen-" + Itoa(ing.generation) + "." + ing.name + "." + ing.ns + ".net-contour.invalid"
  }

  /** A rule of the child for this service: one host, one plain path, one split with everything. */
  ghost predicate PlainRule(r: Rule, ing: Ingress, s: string, port: Port, rewriteHost: string) {
    && |r.hosts| == 1 && r.hosts[0] == HostFor(ing, s)
    && |r.paths| == 1 && r.paths[0].path == "" && r.paths[0].rewriteHost == rewriteHost
    && r.paths[0].headers == map[] && r.paths[0].appendHeaders == map[]
    && |r.paths[0].splits| == 1 && r.paths[0].splits[0].service == s && r.paths[0].splits[0].port == port
    && r.paths[0].splits[0].percent == 100 && r.paths[0].splits[0].appendHeaders == map[]
  }

  /** The service is named by the ingress or by a proxy that is taken over, at this visibility. */
  ghost predicate MentionedUnder(cfg: Config, ing: Ingress, previous: seq<HTTPProxy>, s: string, v: string) {
    || (exists a, b, c :: NamedAt(ing.spec.rules, s, a, b, c) && ing.spec.rules[a].visibility == v)
    || (exists a, b, c :: ServedAt(cfg, previous, s, a, b, c) && TakenOver(cfg, previous[a], v))
  }

  lemma MentionedExactly(cfg: Config, ing: Ingress, previous: seq<HTTPProxy>, s: string, v: string)
    requires DistinctClasses(cfg)
    ensures v in VisibilitiesOf(AllOccurrences(cfg, ing, previous), s) <==> MentionedUnder(cfg, ing, previous, s, v)
  {
    var current, older := RuleOccurrences(ing.spec.rules), OldOccurrences(cfg, previous);
    hide RuleOccurrences, OldOccurrences, DistinctClasses, TakenOver;
    if v in VisibilitiesOf(current + older, s) {
      var o: Occurrence :| o in current + older && o.service == s && o.visibility == v;
      if o in current {
        var a, b, c := NamedBy(ing.spec.rules, o);
      } else {
        var a, b, c := ServedBy(cfg, previous, o);
      }
    }
    if a, b, c :| NamedAt(ing.spec.rules, s, a, b, c) && ing.spec.rules[a].visibility == v {
      var o := NamedOccurs(ing.spec.rules, s, a, b, c);
      assert o in current + older;
    }
    if a, b, c :| ServedAt(cfg, previous, s, a, b, c) && TakenOver(cfg, previous[a], v) {
      var o := ServedOccurs(cfg, previous, s, a, b, c, v);
      assert o in current + older;
    }
  }

  lemma NamedBy(rules: seq<Rule>, o: Occurrence) returns (a: int, b: int, c: int)
    requires o in RuleOccurrences(rules)
    ensures NamedAt(rules, o.service, a, b, c) && rules[a].visibility == o.visibility
  {
    RuleOccurrencesMembers(rules, o);
    hide RuleOccurrences;
    var rule, path, split :| rule in rules && path in rule.paths && split in path.splits
      && o == Occurrence(split.service, split.port, rule.visibility, path.rewriteHost, path.path != "");
    a :| 0 <= a < |rules| && rules[a] == rule;
    b :| 0 <= b < |rule.paths| && rule.paths[b] == path;
    c :| 0 <= c < |path.splits| && path.splits[c] == split;
  }

  lemma NamedOccurs(rules: seq<Rule>, s: string, a: int, b: int, c: int) returns (o: Occurrence)
    requires NamedAt(rules, s, a, b, c)
    ensures o in RuleOccurrences(rules) && o.service == s && o.visibility == rules[a].visibility
  {
    var rule, path, split := rules[a], rules[a].paths[b], rules[a].paths[b].splits[c];
    o := Occurrence(split.service, split.port, rule.visibility, path.rewriteHost, path.path != "");
    RuleOccurrencesMembers(rules, o);
  }

  lemma ServedBy(cfg: Config, previous: seq<HTTPProxy>, o: Occurrence) returns (a: int, b: int, c: int)
    requires DistinctClasses(cfg) && o in OldOccurrences(cfg, previous)
    ensures ServedAt(cfg, previous, o.service, a, b, c) && TakenOver(cfg, previous[a], o.visibility)
  {
    OldOccurrencesMembers(cfg, previous, o);
    hide OldOccurrences, RoutesOccurrences, HasPrefix, VisibilityOf, DistinctClasses;
    var p :| p in previous && o in ProxyOccurrences(cfg, p);
    TakenOverExactly(cfg, p);
    var v :| TakenOver(cfg, p, v);
    RoutesOccurrencesMembers(v, p.spec.routes, o);
    hide TakenOver;
    var r, svc :| r in p.spec.routes && svc in r.services
      && o == Occurrence(svc.name, Number(svc.port), v, "", HasPrefix(r));
    a :| 0 <= a < |previous| && previous[a] == p;
    b :| 0 <= b < |p.spec.routes| && p.spec.routes[b] == r;
    c :| 0 <= c < |r.services| && r.services[c] == svc;
  }

  lemma ServedOccurs(cfg: Config, previous: seq<HTTPProxy>, s: string, a: int, b: int, c: int,
                     v: string) returns (o: Occurrence)
    requires DistinctClasses(cfg) && ServedAt(cfg, previous, s, a, b, c) && TakenOver(cfg, previous[a], v)
    ensures o in OldOccurrences(cfg, previous) && o.service == s && o.visibility == v
  {
    var p := previous[a];
    var r, svc := p.spec.routes[b], p.spec.routes[b].services[c];
    TakenOverExactly(cfg, p);
    hide OldOccurrences, RoutesOccurrences, HasPrefix, VisibilityOf, DistinctClasses;
    o := Occurrence(svc.name, Number(svc.port), v, "", HasPrefix(r));
    RoutesOccurrencesMembers(v, p.spec.routes, o);
    assert p in previous && o in ProxyOccurrences(cfg, p);
    OldOccurrencesMembers(cfg, previous, o);
  }

  /** Every rule of the child is the plain rule of a service that is mentioned at its visibility.
      Its port and rewritten host are those of the first split of the ingress that names the
      service, in a path without prefix; or, if none does, those of the first backend of that
      name in the proxies that are taken over, in a route without prefix. */
  lemma ChildRuleFields(cfg: Config, ing: Ingress, previous: seq<HTTPProxy>, r: Rule)
    returns (s: string, a: int, b: int, c: int)
    requires DistinctClasses(cfg) && r in ChildSpec(cfg, ing, previous).rules
    ensures MentionedUnder(cfg, ing, previous, s, r.visibility)
    ensures var rules := ing.spec.rules;
            || (FirstNamedAt(rules, s, a, b, c) && rules[a].paths[b].path == ""
                && PlainRule(r, ing, s, rules[a].paths[b].splits[c].port, rules[a].paths[b].rewriteHost))
            || ((forall x, y, z :: !NamedAt(rules, s, x, y, z)) && FirstServedAt(cfg, previous, s, a, b, c)
                && !Prefixed(previous[a].spec.routes[b])
                && PlainRule(r, ing, s, Number(previous[a].spec.routes[b].services[c].port), ""))
  {
    ExactCoverage(cfg, ing, previous);
    var os := AllOccurrences(cfg, ing, previous);
    hide ChildSpec, AllOccurrences, FirstOf, Mentions, VisibilitiesOf, DistinctClasses, MentionedUnder, NamedAt,
         ServedAt, FirstNamedAt, FirstServedAt, Prefixed;
    var v;
    s, v :| Probed(os, s, v) && r == ProbedRuleFor(ing, os, s, v);
    MentionedExactly(cfg, ing, previous, s, v);
    a, b, c := FirstMention(cfg, ing, previous, s);
  }

  /** Conversely, every mention of a service whose first mention has no prefix has its rule. */
  lemma ChildRuleExists(cfg: Config, ing: Ingress, previous: seq<HTTPProxy>, s: string, v: string, a: int, b: int,
                        c: int)
    returns (r: Rule)
    requires DistinctClasses(cfg) && MentionedUnder(cfg, ing, previous, s, v)
    requires var rules := ing.spec.rules;
             || (FirstNamedAt(rules, s, a, b, c) && rules[a].paths[b].path == "")
             || ((forall x, y, z :: !NamedAt(rules, s, x, y, z)) && FirstServedAt(cfg, previous, s, a, b, c)
                 && !Prefixed(previous[a].spec.routes[b]))
    ensures r in ChildSpec(cfg, ing, previous).rules && r.visibility == v && |r.hosts| == 1
    ensures r.hosts[0] == HostFor(ing, s)
  {
    ExactCoverage(cfg, ing, previous);
    var os := AllOccurrences(cfg, ing, previous);
    MentionedExactly(cfg, ing, previous, s, v);
    FirstIs(cfg, ing, previous, s, a, b, c);
    hide ChildSpec, AllOccurrences, FirstOf, MentionedUnder, NamedAt, ServedAt, FirstNamedAt, FirstServedAt, Prefixed;
    assert Probed(os, s, v);
    r := ProbedRuleFor(ing, os, s, v);
    assert IsProbeRule(ing, os, r);
  }

  /** The first mention of a service, by position. */
  lemma FirstIs(cfg: Config, ing: Ingress, previous: seq<HTTPProxy>, s: string, a: int, b: int, c: int)
    requires DistinctClasses(cfg)
    requires FirstNamedAt(ing.spec.rules, s, a, b, c)
          || ((forall x, y, z :: !NamedAt(ing.spec.rules, s, x, y, z)) && FirstServedAt(cfg, previous, s, a, b, c))
    ensures Mentions(AllOccurrences(cfg, ing, previous), s)
    ensures var rules, first := ing.spec.rules, FirstOf(AllOccurrences(cfg, ing, previous), s);
            if FirstNamedAt(rules, s, a, b, c) then
              && first.port == rules[a].paths[b].splits[c].port && first.rewriteHost == rules[a].paths[b].rewriteHost
              && first.hasPath == (rules[a].paths[b].path != "")
            else
              && first.port == Number(previous[a].spec.routes[b].services[c].port) && first.rewriteHost == ""
              && first.hasPath == Prefixed(previous[a].spec.routes[b])
  {
    var current, older := RuleOccurrences(ing.spec.rules), OldOccurrences(cfg, previous);
    FirstOfConcat(current, older, s);
    hide RuleOccurrences, OldOccurrences, FirstOf, DistinctClasses, Prefixed, TakenOver;
    if FirstNamedAt(ing.spec.rules, s, a, b, c) {
      FirstInRules(ing.spec.rules, s, a, b, c);
    } else {
      assert !Mentions(current, s) by {
        forall o | o in current
          ensures o.service != s
        {
          UnnamedBefore(ing.spec.rules, s, o);
        }
      }
      FirstInPrevious(cfg, previous, s, a, b, c);
      var v :| TakenOver(cfg, previous[a], v);
    }
  }

  lemma FirstMention(cfg: Config, ing: Ingress, previous: seq<HTTPProxy>, s: string) returns (a: int, b: int, c: int)
    requires DistinctClasses(cfg) && Mentions(AllOccurrences(cfg, ing, previous), s)
    ensures var rules, first := ing.spec.rules, FirstOf(AllOccurrences(cfg, ing, previous), s);
            || (FirstNamedAt(rules, s, a, b, c)
                && first.port == rules[a].paths[b].splits[c].port && first.rewriteHost == rules[a].paths[b].rewriteHost
                && first.hasPath == (rules[a].paths[b].path != ""))
            || ((forall x, y, z :: !NamedAt(rules, s, x, y, z)) && FirstServedAt(cfg, previous, s, a, b, c)
                && first.port == Number(previous[a].spec.routes[b].services[c].port) && first.rewriteHost == ""
                && first.hasPath == Prefixed(previous[a].spec.routes[b]))
  {
    var current, older := RuleOccurrences(ing.spec.rules), OldOccurrences(cfg, previous);
    FirstOfConcat(current, older, s);
    hide RuleOccurrences, OldOccurrences, FirstOf, DistinctClasses, Prefixed, TakenOver;
    if Mentions(current, s) {
      a, b, c := FirstNamed(ing.spec.rules, s);
    } else {
      forall x, y, z
        ensures !NamedAt(ing.spec.rules, s, x, y, z)
      {
        if NamedAt(ing.spec.rules, s, x, y, z) {
          NamedMentions(ing.spec.rules, s, x, y, z);
        }
      }
      a, b, c := FirstServed(cfg, previous, s);
    }
    FirstIs(cfg, ing, previous, s, a, b, c);
    hide NamedAt, ServedAt;
  }

  lemma {:induction false} FirstServed(cfg: Config, previous: seq<HTTPProxy>,
                                       s: string) returns (a: int, b: int, c: int)
    requires DistinctClasses(cfg) && Mentions(OldOccurrences(cfg, previous), s)
    ensures FirstServedAt(cfg, previous, s, a, b, c)
  {
    hide RoutesOccurrences, DistinctClasses, TakenOver, Eligible, VisibilityOf;
    var front, last := previous[..|previous| - 1], previous[|previous| - 1];
    FirstOfConcat(OldOccurrences(cfg, front), ProxyOccurrences(cfg, last), s);
    if Mentions(OldOccurrences(cfg, front), s) {
      a, b, c := FirstServed(cfg, front, s);
      assert ServedAt(cfg, previous, s, a, b, c);
      assert forall x, y, z :: ServedAt(cfg, previous, s, x, y, z)
                               ==> x == |previous| - 1 || ServedAt(cfg, front, s, x, y, z);
    } else {
      a := |previous| - 1;
      TakenOverExactly(cfg, last);
      b, c := FirstServedRoute(VisibilityOf(cfg, Lookup(last.annotations, CLASS_KEY)), last.spec.routes, s);
      assert ServedAt(cfg, previous, s, a, b, c);
      forall x, y, z | ServedAt(cfg, previous, s, x, y, z)
        ensures a < x || (a == x && (b < y || (b == y && c <= z)))
      {
        if x < a {
          assert ServedAt(cfg, front, s, x, y, z);
          var v :| TakenOver(cfg, front[x], v);
          var o := ServedOccurs(cfg, front, s, x, y, z, v);
        }
      }
    }
  }

  lemma {:induction false} FirstServedRoute(visibility: string, routes: seq<Route>, s: string) returns (b: int, c: int)
    requires Mentions(RoutesOccurrences(visibility, routes), s)
    ensures 0 <= b < |routes| && 0 <= c < |routes[b].services| && routes[b].services[c].name == s
    ensures forall y, z :: 0 <= y < |routes| && 0 <= z < |routes[y].services| && routes[y].services[z].name == s
                           ==> b < y || (b == y && c <= z)
  {
    hide HasPrefix;
    var front, last := routes[..|routes| - 1], routes[|routes| - 1];
    FirstOfConcat(RoutesOccurrences(visibility, front), RouteOccurrences(visibility, HasPrefix(last), last.services),
                  s);
    if Mentions(RoutesOccurrences(visibility, front), s) {
      b, c := FirstServedRoute(visibility, front, s);
    } else {
      b := |routes| - 1;
      c := FirstBackend(last.services, s, visibility, HasPrefix(last));
      forall y, z | 0 <= y < |routes| && 0 <= z < |routes[y].services| && routes[y].services[z].name == s
        ensures b < y || (b == y && c <= z)
      {
        if y < b {
          var svc := front[y].services[z];
          var o := Occurrence(svc.name, Number(svc.port), visibility, "", HasPrefix(front[y]));
          RoutesOccurrencesMembers(visibility, front, o);
        }
      }
    }
  }

  lemma FirstBackend(services: seq<Service>, s: string, visibility: string, hasPath: bool) returns (c: int)
    requires Mentions(RouteOccurrences(visibility, hasPath, services), s)
    ensures 0 <= c < |services| && services[c].name == s && forall z :: 0 <= z < c ==> services[z].name != s
  {
    var os := RouteOccurrences(visibility, hasPath, services);
    var o :| o in os && o.service == s;
    var n :| 0 <= n < |os| && os[n] == o;
    c := 0;
    while services[c].name != s
      invariant 0 <= c <= n && forall z :: 0 <= z < c ==> services[z].name != s
      decreases n - c
    {
      c := c + 1;
    }
  }

  // ---- The rest of the child -------------------------------------------------------

  lemma {:induction false} CoveringMembers(tls: seq<TLS>, hosts: seq<string>, t: TLS)
    ensures t in Covering(tls, hosts) <==>
              exists j :: 0 <= j < |tls| && tls[j] == t && forall h :: h in hosts ==> h in tls[j].hosts
  {
    if tls != [] {
      CoveringMembers(tls[1..], hosts, t);
      if j :| 0 <= j < |tls| && tls[j] == t && forall h :: h in hosts ==> h in tls[j].hosts {
        assert j > 0 ==> tls[1..][j - 1] == t;
      }
      if j :| 0 <= j < |tls[1..]| && tls[1..][j] == t && forall h :: h in hosts ==> h in tls[1..][j].hosts {
        assert tls[j + 1] == t;
      }
    }
  }

  lemma {:induction false} TLSMembers(tls: seq<TLS>, rules: seq<Rule>, visibility: string, t: TLS)
    ensures t in TLSForRules(tls, rules, visibility)
      <==> exists i, j :: Covers(tls, rules, visibility, i, j) && tls[j] == t
  {
    if rules != [] {
      TLSMembers(tls, rules[1..], visibility, t);
      CoveringMembers(tls, rules[0].hosts, t);
      forall i, j
        ensures 0 < i && (rules[0].visibility != visibility || rules[0].hosts != []) ==>
                  (Covers(tls, rules, visibility, i, j) <==> Covers(tls, rules[1..], visibility, i - 1, j))
        ensures rules[0].visibility == visibility && rules[0].hosts == [] ==> !Covers(tls, rules, visibility, i, j)
      {
        CoversShift(tls, rules, visibility, i, j);
      }
      FirstCovers(tls, rules, visibility);
      hide Covers, Covering;
      var stops := rules[0].visibility == visibility && rules[0].hosts == [];
      if i, j :| !stops && Covers(tls, rules[1..], visibility, i, j) && tls[j] == t {
        CoversRange(tls, rules[1..], visibility, i, j);
        assert (i + 1) - 1 == i && Covers(tls, rules, visibility, i + 1, j);
      }
      if j :| 0 <= j < |tls| && tls[j] == t && (forall h :: h in rules[0].hosts ==> h in tls[j].hosts)
              && rules[0].visibility == visibility && !stops {
        assert Covers(tls, rules, visibility, 0, j);
      }
      if i, j :| Covers(tls, rules, visibility, i, j) && tls[j] == t {
        assert i > 0 ==> Covers(tls, rules[1..], visibility, i - 1, j);
      }
    }
  }

  lemma CoversShift(tls: seq<TLS>, rules: seq<Rule>, visibility: string, i: int, j: int)
    requires rules != []
    ensures 0 < i && (rules[0].visibility != visibility || rules[0].hosts != []) ==>
              (Covers(tls, rules, visibility, i, j) <==> Covers(tls, rules[1..], visibility, i - 1, j))
    ensures rules[0].visibility == visibility && rules[0].hosts == [] ==> !Covers(tls, rules, visibility, i, j)
  {
    if 0 < i < |rules| {
      assert rules[1..][i - 1] == rules[i];
      assert forall n :: 0 < n <= i ==> rules[1..][n - 1] == rules[n];
      assert forall n :: 0 <= n <= i - 1 ==> rules[1..][n] == rules[n + 1];
    }
  }

  lemma FirstCovers(tls: seq<TLS>, rules: seq<Rule>, visibility: string)
    requires rules != []
    ensures forall i, j :: Covers(tls, rules, visibility, i, j) ==> 0 <= i && 0 <= j < |tls|
    ensures forall j :: Covers(tls, rules, visibility, 0, j) <==>
              0 <= j < |tls| && rules[0].visibility == visibility && rules[0].hosts != []
              && (forall h :: h in rules[0].hosts ==> h in tls[j].hosts)
  {
  }

  /** Some TLS entry covers an external rule. */
  ghost predicate HasExternalCertificate(ing: Ingress) {
    exists i, j :: Covers(ing.spec.tls, ing.spec.rules, "ExternalIP", i, j)
  }

  /** The child is probed over HTTPS exactly when TLS is required and there is a certificate; then
      its TLS entries are those that cover an external rule, each for all the child's hosts. */
  lemma ChildTLS(cfg: Config, ing: Ingress, previous: seq<HTTPProxy>)
    ensures var spec := ChildSpec(cfg, ing, previous);
            var secure := ing.spec.httpOption == Redirected
              && (HasExternalCertificate(ing) || cfg.defaultTLSSecret.Some?);
            && spec.httpOption == (if secure then Redirected else Enabled)
            && (!secure ==> spec.tls == [])
            && (forall t, h :: t in spec.tls ==> (h in t.hosts <==> exists r :: r in spec.rules && h in r.hosts))
            && (secure ==> forall t :: t in spec.tls ==> exists i, j ::
                  Covers(ing.spec.tls, ing.spec.rules, "ExternalIP", i, j)
                  && t.secretName == ing.spec.tls[j].secretName && t.secretNamespace == ing.spec.tls[j].secretNamespace)
            && (secure ==> forall i, j :: Covers(ing.spec.tls, ing.spec.rules, "ExternalIP", i, j) ==> exists t ::
                  t in spec.tls
                  && t.secretName == ing.spec.tls[j].secretName && t.secretNamespace == ing.spec.tls[j].secretNamespace)
  {
    var external := TLSForVisibility(ing.spec, EXTERNAL_IP);
    forall t
      ensures t in external <==>
                exists i, j :: Covers(ing.spec.tls, ing.spec.rules, "ExternalIP", i, j) && ing.spec.tls[j] == t
    {
      TLSMembers(ing.spec.tls, ing.spec.rules, EXTERNAL_IP, t);
    }
    var rules := ChildSpec(cfg, ing, previous).rules;
    ChildHosts(cfg, ing, previous);
    hide TLSForRules, Covers, ChildSpec;
    assert external != [] ==> external[0] in external;
    assert external != [] <==> HasExternalCertificate(ing) by {
      if i, j :| Covers(ing.spec.tls, ing.spec.rules, "ExternalIP", i, j) {
        CoversRange(ing.spec.tls, ing.spec.rules, "ExternalIP", i, j);
        assert ing.spec.tls[j] in external;
      }
    }
    HostsListed(rules);
    WithHostsMembers(external, RuleHosts(rules));
    forall i, j | Covers(ing.spec.tls, ing.spec.rules, "ExternalIP", i, j)
      ensures 0 <= j < |ing.spec.tls| && ing.spec.tls[j] in external
    {
      CoversRange(ing.spec.tls, ing.spec.rules, "ExternalIP", i, j);
    }
    hide RuleHosts, WithHosts;
  }

  /** The certificates keep their order, and their hosts that of the rules. */
  lemma ChildSecrets(cfg: Config, ing: Ingress, previous: seq<HTTPProxy>, n: nat, i: nat)
    ensures var spec, external := ChildSpec(cfg, ing, previous), TLSForVisibility(ing.spec, "ExternalIP");
            n < |spec.tls| ==>
              && |spec.tls| == |external| && spec.tls[n].secretName == external[n].secretName
              && spec.tls[n].secretNamespace == external[n].secretNamespace && |spec.tls[n].hosts| == |spec.rules|
              && (i < |spec.rules| ==> [spec.tls[n].hosts[i]] == spec.rules[i].hosts)
  {
    ChildHosts(cfg, ing, previous);
    var rules := ChildSpec(cfg, ing, previous).rules;
    hide TLSForRules, ChildSpec;
    assert i < |rules| ==> rules[i] in rules;
  }

  lemma CoversRange(tls: seq<TLS>, rules: seq<Rule>, visibility: string, i: int, j: int)
    requires Covers(tls, rules, visibility, i, j)
    ensures 0 <= i < |rules| && 0 <= j < |tls|
  {
  }

  /** The child's spec, given its rules. */
  lemma ChildHosts(cfg: Config, ing: Ingress, previous: seq<HTTPProxy>)
    ensures var spec := ChildSpec(cfg, ing, previous);
            && (forall r :: r in spec.rules ==> |r.hosts| == 1)
            && spec == ChildSpecFor(cfg, ing, spec.rules)
  {
    var sns := AbsorbAll(map[], AllOccurrences(cfg, ing, previous));
    RulesHaveHosts(ing, sns, Sorting.Ascending(sns.Keys));
    hide AbsorbAll, AllOccurrences, RulesFor, Sorting.Ascending;
  }

  lemma HostsListed(rules: seq<Rule>)
    requires forall r :: r in rules ==> |r.hosts| == 1
    ensures forall h :: h in RuleHosts(rules) <==> exists r :: r in rules && h in r.hosts
  {
    forall h
      ensures h in RuleHosts(rules) <==> exists r :: r in rules && h in r.hosts
    {
      if h in RuleHosts(rules) {
        var i :| 0 <= i < |rules| && RuleHosts(rules)[i] == h;
        assert rules[i] in rules && h in rules[i].hosts;
      }
      if r :| r in rules && h in r.hosts {
        var i :| 0 <= i < |rules| && rules[i] == r;
        assert RuleHosts(rules)[i] == h;
      }
    }
  }

  lemma WithHostsMembers(tls: seq<TLS>, hosts: seq<string>)
    ensures forall t :: t in WithHosts(tls, hosts) ==>
              t.hosts == hosts && exists u :: u in tls && t == u.(hosts := hosts)
    ensures forall u :: u in tls ==> u.(hosts := hosts) in WithHosts(tls, hosts)
  {
    forall t | t in WithHosts(tls, hosts)
      ensures t.hosts == hosts && exists u :: u in tls && t == u.(hosts := hosts)
    {
      var i :| 0 <= i < |tls| && WithHosts(tls, hosts)[i] == t;
      assert tls[i] in tls;
    }
    forall u | u in tls
      ensures u.(hosts := hosts) in WithHosts(tls, hosts)
    {
      var i :| 0 <= i < |tls| && tls[i] == u;
      assert WithHosts(tls, hosts)[i] == u.(hosts := hosts);
    }
  }

  /** The child's name and annotations: those of the ingress, and the mark of the probe. */
  lemma ChildMeta(cfg: Config, ing: Ingress, previous: seq<HTTPProxy>)
    ensures var child := ProbeIngress(cfg, ing, previous);
            && child.ns == ing.ns && child.name == cfg.childName(ing.name + "--", "ep")
            && child.spec == ChildSpec(cfg, ing, previous)
            && "contour.networking.knative.dev/endpointsProbe" in child.annotations
            && child.annotations["contour.networking.knative.dev/endpointsProbe"] == "true"
            && (forall a :: a != "contour.networking.knative.dev/endpointsProbe" ==>
                  (a in child.annotations <==> a in ing.annotations)
                  && (a in child.annotations ==> child.annotations[a] == ing.annotations[a]))
  {
    hide ChildSpec;
  }
}
