/** `ServiceNames` and `MakeEndpointProbeIngress`: the child ingress that warms the endpoints
    of the next generation and keeps those of the prior one, reverse engineered from the
    HTTPProxies that are still there. */
module EndpointProbe {
  import opened Text
  import opened Sorting
  import opened Model
  import opened Compiler

  // ---- Occurrences of services -----------------------------------------------------

  /** One mention of a service, in a split of the new generation or a route of the old. */
  datatype Occurrence = Occurrence(service: string, port: Port, visibility: string, rewriteHost: string, hasPath: bool)

  datatype ServiceInfo = ServiceInfo(port: Port, visibilities: set<string>, rewriteHost: string, hasPath: bool)

  /** The first mention of a service fixes its entry; every mention adds its visibility. */
  function Absorb(sns: map<string, ServiceInfo>, o: Occurrence): map<string, ServiceInfo> {
    var si := if o.service in sns then sns[o.service] else ServiceInfo(o.port, {}, o.rewriteHost, o.hasPath);
    sns[o.service := si.(visibilities := si.visibilities + {o.visibility})]
  }

  function AbsorbAll(sns: map<string, ServiceInfo>, os: seq<Occurrence>): map<string, ServiceInfo> {
    if os == [] then sns else Absorb(AbsorbAll(sns, os[..|os| - 1]), os[|os| - 1])
  }

  lemma {:induction false} AbsorbAllConcat(sns: map<string, ServiceInfo>, a: seq<Occurrence>, b: seq<Occurrence>)
    ensures AbsorbAll(sns, a + b) == AbsorbAll(AbsorbAll(sns, a), b)
  {
    if b == [] {
      assert a + b == a;
    } else {
      AbsorbAllConcat(sns, a, b[..|b| - 1]);
      assert (a + b)[..|a + b| - 1] == a + b[..|b| - 1];
    }
  }

  predicate Mentions(os: seq<Occurrence>, service: string) {
    exists o :: o in os && o.service == service
  }

  function VisibilitiesOf(os: seq<Occurrence>, service: string): set<string> {
    set o | o in os && o.service == service :: o.visibility
  }

  ghost function FirstOf(os: seq<Occurrence>, service: string): (o: Occurrence)
    requires Mentions(os, service)
    ensures o in os && o.service == service
  {
    if Mentions(os[..|os| - 1], service) then FirstOf(os[..|os| - 1], service) else os[|os| - 1]
  }

  /** What the merged table says: exactly the mentioned services, each with the port, host
      and path of its first mention and the visibilities of all its mentions. */
  lemma {:induction false} AbsorbAllSummary(os: seq<Occurrence>, service: string)
    ensures service in AbsorbAll(map[], os) <==> Mentions(os, service)
    ensures service in AbsorbAll(map[], os) ==>
              var first := FirstOf(os, service);
              AbsorbAll(map[], os)[service]
              == ServiceInfo(first.port, VisibilitiesOf(os, service), first.rewriteHost, first.hasPath)
  {
    if os != [] {
      var front, last := os[..|os| - 1], os[|os| - 1];
      AbsorbAllSummary(front, service);
      assert forall o :: o in os <==> o in front || o == last;
      assert VisibilitiesOf(os, service)
          == VisibilitiesOf(front, service) + if last.service == service then {last.visibility} else {};
      if !Mentions(front, service) {
        assert VisibilitiesOf(front, service) == {};
      }
    }
  }

  lemma {:induction false} FirstOfConcat(a: seq<Occurrence>, b: seq<Occurrence>, service: string)
    ensures Mentions(a + b, service) <==> Mentions(a, service) || Mentions(b, service)
    ensures Mentions(a + b, service) ==>
              FirstOf(a + b, service) == if Mentions(a, service) then FirstOf(a, service) else FirstOf(b, service)
  {
    if b == [] {
      assert a + b == a;
    } else {
      var front, last := b[..|b| - 1], b[|b| - 1];
      FirstOfConcat(a, front, service);
      assert (a + b)[..|a + b| - 1] == a + front;
      assert forall o :: o in b <==> o in front || o == last;
      assert forall o :: o in a + b <==> o in a || o in b;
    }
  }

  // ---- Mentions in the new generation ----------------------------------------------

  function SplitOccurrences(visibility: string, path: Path, splits: seq<Split>): seq<Occurrence> {
    seq(|splits|, i requires 0 <= i < |splits| =>
      Occurrence(splits[i].service, splits[i].port, visibility, path.rewriteHost, path.path != ""))
  }

  function PathOccurrences(visibility: string, paths: seq<Path>): seq<Occurrence> {
    if paths == [] then []
    else
      var last := paths[|paths| - 1];
      PathOccurrences(visibility, paths[..|paths| - 1]) + SplitOccurrences(visibility, last, last.splits)
  }

  function RuleOccurrences(rules: seq<Rule>): seq<Occurrence> {
    if rules == [] then []
    else
      var last := rules[|rules| - 1];
      RuleOccurrences(rules[..|rules| - 1]) + PathOccurrences(last.visibility, last.paths)
  }

  /** The services an ingress routes to. */
  function ServiceTable(ing: Ingress): map<string, ServiceInfo> {
    AbsorbAll(map[], RuleOccurrences(ing.spec.rules))
  }

  method AbsorbSplits(s: map<string, ServiceInfo>, visibility: string, path: Path) returns (r: map<string, ServiceInfo>)
    ensures r == AbsorbAll(s, SplitOccurrences(visibility, path, path.splits))
  {
    r := s;
    ghost var os := SplitOccurrences(visibility, path, path.splits);
    for i := 0 to |path.splits|
      invariant r == AbsorbAll(s, os[..i])
    {
      var split := path.splits[i];
      var si;
      if split.service in r {
        si := r[split.service];
      } else {
        si := ServiceInfo(split.port, {}, path.rewriteHost, path.path != "");
      }
      si := si.(visibilities := si.visibilities + {visibility});
      r := r[split.service := si];
      assert os[..i + 1][..i] == os[..i];
    }
    assert os[..|os|] == os;
  }

  /** `ServiceNames`. */
  method ServiceNames(ing: Ingress) returns (s: map<string, ServiceInfo>)
    ensures s == ServiceTable(ing)
  {
    hide SplitOccurrences, Absorb;
    s := map[];
    var rules := ing.spec.rules;
    for i := 0 to |rules|
      invariant s == AbsorbAll(map[], RuleOccurrences(rules[..i]))
    {
      ghost var before := s;
      var paths := rules[i].paths;
      for j := 0 to |paths|
        invariant s == AbsorbAll(before, PathOccurrences(rules[i].visibility, paths[..j]))
      {
        s := AbsorbSplits(s, rules[i].visibility, paths[j]);
        assert paths[..j + 1][..j] == paths[..j];
        AbsorbAllConcat(before, PathOccurrences(rules[i].visibility, paths[..j]),
                        SplitOccurrences(rules[i].visibility, paths[j], paths[j].splits));
      }
      assert paths[..|paths|] == paths;
      assert rules[..i + 1][..i] == rules[..i];
      AbsorbAllConcat(map[], RuleOccurrences(rules[..i]), PathOccurrences(rules[i].visibility, paths));
    }
    assert rules[..|rules|] == rules;
  }

  // ---- Mentions in the prior generation --------------------------------------------

  /** The visibility whose class a proxy is annotated with; "" when there is none. */
  ghost function VisibilityOf(cfg: Config, class_: string): string {
    if exists v :: v in cfg.classes && cfg.classes[v] == class_ then
      var v :| v in cfg.classes && cfg.classes[v] == class_; v
    else
      ""
  }

  method FindVisibility(cfg: Config, class_: string) returns (vis: string)
    ensures vis != "" ==> vis in cfg.classes && cfg.classes[vis] == class_
    ensures DistinctClasses(cfg) ==> vis == VisibilityOf(cfg, class_)
  {
    vis := "";
    var todo := cfg.classes.Keys;
    while todo != {}
      invariant todo <= cfg.classes.Keys
      invariant vis != "" ==> vis in cfg.classes && cfg.classes[vis] == class_
      invariant vis == "" && "" !in cfg.classes ==> forall v :: v in cfg.classes.Keys - todo
                                                            ==> cfg.classes[v] != class_
    {
      var v :| v in todo;
      if cfg.classes[v] == class_ {
        vis := v;
      }
      todo := todo - {v};
    }
  }

  predicate HasPrefix(r: Route) {
    exists c :: c in r.conditions && c.prefix != ""
  }

  function RouteOccurrences(visibility: string, hasPath: bool, services: seq<Service>): seq<Occurrence> {
    seq(|services|, i requires 0 <= i < |services| =>
      Occurrence(services[i].name, Number(services[i].port), visibility, "", hasPath))
  }

  function RoutesOccurrences(visibility: string, routes: seq<Route>): seq<Occurrence> {
    if routes == [] then []
    else
      var last := routes[|routes| - 1];
      RoutesOccurrences(visibility, routes[..|routes| - 1])
        + RouteOccurrences(visibility, HasPrefix(last), last.services)
  }

  /** Only proxies that Contour found valid, and whose class is known, are taken over. */
  ghost predicate Eligible(cfg: Config, p: HTTPProxy) {
    p.status == "valid" && VisibilityOf(cfg, Lookup(p.annotations, CLASS_KEY)) != ""
  }

  ghost function ProxyOccurrences(cfg: Config, p: HTTPProxy): seq<Occurrence> {
    if Eligible(cfg, p) then RoutesOccurrences(VisibilityOf(cfg, Lookup(p.annotations, CLASS_KEY)), p.spec.routes)
      else []
  }

  ghost function OldOccurrences(cfg: Config, previous: seq<HTTPProxy>): seq<Occurrence> {
    if previous == [] then []
    else OldOccurrences(cfg, previous[..|previous| - 1]) + ProxyOccurrences(cfg, previous[|previous| - 1])
  }

  /** All mentions, in the order in which the code meets them. */
  ghost function AllOccurrences(cfg: Config, ing: Ingress, previous: seq<HTTPProxy>): seq<Occurrence> {
    RuleOccurrences(ing.spec.rules) + OldOccurrences(cfg, previous)
  }

  method FindPrefix(route: Route) returns (hasPath: bool)
    ensures hasPath == HasPrefix(route)
  {
    hasPath := false;
    for i := 0 to |route.conditions|
      invariant hasPath <==> exists c :: c in route.conditions[..i] && c.prefix != ""
    {
      assert route.conditions[..i + 1] == route.conditions[..i] + [route.conditions[i]];
      if route.conditions[i].prefix != "" {
        hasPath := true;
      }
    }
    assert route.conditions[..|route.conditions|] == route.conditions;
  }

  method AbsorbRoute(s: map<string, ServiceInfo>, visibility: string,
                     route: Route) returns (r: map<string, ServiceInfo>)
    ensures r == AbsorbAll(s, RouteOccurrences(visibility, HasPrefix(route), route.services))
  {
    hide HasPrefix;
    var hasPath := FindPrefix(route);
    r := s;
    ghost var os := RouteOccurrences(visibility, hasPath, route.services);
    for i := 0 to |route.services|
      invariant r == AbsorbAll(s, os[..i])
    {
      var svc := route.services[i];
      var si;
      if svc.name in r {
        si := r[svc.name];
      } else {
        si := ServiceInfo(Number(svc.port), {}, "", hasPath);
      }
      si := si.(visibilities := si.visibilities + {visibility});
      r := r[svc.name := si];
      assert os[..i + 1][..i] == os[..i];
    }
    assert os[..|os|] == os;
  }

  method AbsorbProxy(s: map<string, ServiceInfo>, visibility: string,
                     routes: seq<Route>) returns (r: map<string, ServiceInfo>)
    ensures r == AbsorbAll(s, RoutesOccurrences(visibility, routes))
  {
    hide RouteOccurrences, Absorb, HasPrefix;
    r := s;
    for i := 0 to |routes|
      invariant r == AbsorbAll(s, RoutesOccurrences(visibility, routes[..i]))
    {
      r := AbsorbRoute(r, visibility, routes[i]);
      assert routes[..i + 1][..i] == routes[..i];
      AbsorbAllConcat(s, RoutesOccurrences(visibility, routes[..i]),
                      RouteOccurrences(visibility, HasPrefix(routes[i]), routes[i].services));
    }
    assert routes[..|routes|] == routes;
  }

  /** The loop that reverse engineers the prior generation. */
  method AbsorbPrevious(cfg: Config, s: map<string, ServiceInfo>,
                        previous: seq<HTTPProxy>) returns (r: map<string, ServiceInfo>)
    ensures DistinctClasses(cfg) ==> r == AbsorbAll(s, OldOccurrences(cfg, previous))
  {
    hide RoutesOccurrences, Absorb, VisibilityOf;
    r := s;
    for i := 0 to |previous|
      invariant DistinctClasses(cfg) ==> r == AbsorbAll(s, OldOccurrences(cfg, previous[..i]))
    {
      var proxy := previous[i];
      assert previous[..i + 1][..i] == previous[..i];
      AbsorbAllConcat(s, OldOccurrences(cfg, previous[..i]), ProxyOccurrences(cfg, proxy));
      if proxy.status != "valid" {
        continue;
      }
      var vis := FindVisibility(cfg, Lookup(proxy.annotations, CLASS_KEY));
      if vis == "" {
        continue;
      }
      r := AbsorbProxy(r, vis, proxy.spec.routes);
    }
    assert previous[..|previous|] == previous;
  }

  // ---- The child -------------------------------------------------------------------

  function ProbeHost(ing: Ingress, service: string): string {
    service + ".gen-" + Itoa(ing.generation) + "." + ing.name + "." + ing.ns + ".net-contour.invalid"
  }

  function ProbeRule(ing: Ingress, service: string, port: Port, rewriteHost: string, visibility: string): Rule {
    Rule([ProbeHost(ing, service)], visibility,
         [Path("", rewriteHost, map[], [Split(service, port, 100, map[])], map[])])
  }

  ghost function ServiceRules(ing: Ingress, service: string, si: ServiceInfo): seq<Rule> {
    if si.hasPath then []
    else
      var vs := Ascending(si.visibilities);
      seq(|vs|, i requires 0 <= i < |vs| => ProbeRule(ing, service, si.port, si.rewriteHost, vs[i]))
  }

  ghost function RulesFor(ing: Ingress, sns: map<string, ServiceInfo>, names: seq<string>): seq<Rule>
    requires forall n :: n in names ==> n in sns
  {
    if names == [] then []
    else
      var last := names[|names| - 1];
      RulesFor(ing, sns, names[..|names| - 1]) + ServiceRules(ing, last, sns[last])
  }

  ghost function ProbeRules(ing: Ingress, sns: map<string, ServiceInfo>): seq<Rule> {
    RulesFor(ing, sns, Ascending(sns.Keys))
  }

  function RuleHosts(rules: seq<Rule>): seq<string>
    requires forall r :: r in rules ==> r.hosts != []
  {
    seq(|rules|, i requires 0 <= i < |rules| => assert rules[i] in rules; rules[i].hosts[0])
  }

  function WithHosts(tls: seq<TLS>, hosts: seq<string>): seq<TLS> {
    seq(|tls|, i requires 0 <= i < |tls| => tls[i].(hosts := hosts))
  }

  /** The probe runs over HTTPS only when TLS is required and there are certificates. */
  predicate ProbesOverTLS(cfg: Config, ing: Ingress) {
    ing.spec.httpOption == Redirected && (TLSForVisibility(ing.spec, EXTERNAL_IP) != [] || cfg.defaultTLSSecret.Some?)
  }

  function ChildSpecFor(cfg: Config, ing: Ingress, rules: seq<Rule>): IngressSpec
    requires forall r :: r in rules ==> r.hosts != []
  {
    if ProbesOverTLS(cfg, ing) then
      IngressSpec(rules, WithHosts(TLSForVisibility(ing.spec, EXTERNAL_IP), RuleHosts(rules)), Redirected)
    else
      IngressSpec(rules, [], Enabled)
  }

  lemma {:induction false} RulesHaveHosts(ing: Ingress, sns: map<string, ServiceInfo>, names: seq<string>)
    requires forall n :: n in names ==> n in sns
    ensures forall r :: r in RulesFor(ing, sns, names) ==> |r.hosts| == 1
  {
    if names != [] {
      RulesHaveHosts(ing, sns, names[..|names| - 1]);
    }
  }

  ghost function ChildSpec(cfg: Config, ing: Ingress, previous: seq<HTTPProxy>): IngressSpec {
    var sns := AbsorbAll(map[], AllOccurrences(cfg, ing, previous));
    RulesHaveHosts(ing, sns, Ascending(sns.Keys));
    ChildSpecFor(cfg, ing, ProbeRules(ing, sns))
  }

  function ChildIngressName(cfg: Config, name: string): string {
    cfg.childName(name + "--", "ep")
  }

  function ChildFor(cfg: Config, ing: Ingress, spec: IngressSpec): Ingress {
    Ingress(ing.ns, ChildIngressName(cfg, ing.name), 0, ing.annotations[ENDPOINTS_PROBE_KEY := "true"], spec)
  }

  /** The endpoint probe of an ingress, next to the proxies of earlier generations. */
  ghost function ProbeIngress(cfg: Config, ing: Ingress, previous: seq<HTTPProxy>): Ingress {
    ChildFor(cfg, ing, ChildSpec(cfg, ing, previous))
  }

  method MakeServiceRules(ing: Ingress, service: string, si: ServiceInfo) returns (rules: seq<Rule>)
    ensures rules == ServiceRules(ing, service, si)
  {
    hide ProbeRule, Ascending;
    rules := [];
    if si.hasPath {
      return;
    }
    var vs := SortedList(si.visibilities);
    for i := 0 to |vs|
      invariant |rules| == i
      invariant forall j :: 0 <= j < i ==> rules[j] == ProbeRule(ing, service, si.port, si.rewriteHost, vs[j])
    {
      rules := rules + [ProbeRule(ing, service, si.port, si.rewriteHost, vs[i])];
    }
  }

  lemma NoRules(ing: Ingress, sns: map<string, ServiceInfo>)
    ensures RulesFor(ing, sns, []) == []
  {
  }

  lemma RulesForNext(ing: Ingress, sns: map<string, ServiceInfo>, names: seq<string>, i: nat)
    requires i < |names| && forall n :: n in names ==> n in sns
    ensures RulesFor(ing, sns, names[..i + 1])
      == RulesFor(ing, sns, names[..i]) + ServiceRules(ing, names[i], sns[names[i]])
  {
    hide ServiceRules;
    assert names[..i + 1][..i] == names[..i];
  }

  method MakeProbeRules(ing: Ingress, sns: map<string, ServiceInfo>) returns (rules: seq<Rule>)
    ensures rules == ProbeRules(ing, sns)
  {
    hide ServiceRules, Ascending, RulesFor;
    var l := SortedList(sns.Keys);
    rules := [];
    assert RulesFor(ing, sns, l[..0]) == [] by {
      NoRules(ing, sns);
    }
    for i := 0 to |l|
      invariant rules == RulesFor(ing, sns, l[..i])
    {
      var more := MakeServiceRules(ing, l[i], sns[l[i]]);
      rules := rules + more;
      RulesForNext(ing, sns, l, i);
    }
    assert l[..|l|] == l;
  }

  /** `MakeEndpointProbeIngress`. */
  method MakeEndpointProbeIngress(cfg: Config, ing: Ingress, previous: seq<HTTPProxy>) returns (child: Ingress)
    ensures DistinctClasses(cfg) ==> child == ProbeIngress(cfg, ing, previous)
  {
    hide AbsorbAll, RulesFor, OldOccurrences, RuleOccurrences;
    var sns := ServiceNames(ing);
    sns := AbsorbPrevious(cfg, sns, previous);
    AbsorbAllConcat(map[], RuleOccurrences(ing.spec.rules), OldOccurrences(cfg, previous));
    var rules := MakeProbeRules(ing, sns);
    RulesHaveHosts(ing, sns, Ascending(sns.Keys));
    var spec := IngressSpec(rules, [], Enabled);
    var externalTLS := TLSForVisibility(ing.spec, EXTERNAL_IP);
    var hasCert := |externalTLS| > 0 || cfg.defaultTLSSecret.Some?;
    if ing.spec.httpOption == Redirected && hasCert {
      spec := spec.(httpOption := Redirected, tls := externalTLS);
      var probeHosts := RuleHosts(rules);
      for i := 0 to |externalTLS|
        invariant spec == IngressSpec(rules, spec.tls, Redirected) && |spec.tls| == |externalTLS|
        invariant forall j :: 0 <= j < i ==> spec.tls[j] == externalTLS[j].(hosts := probeHosts)
        invariant forall j :: i <= j < |externalTLS| ==> spec.tls[j] == externalTLS[j]
      {
        spec := spec.(tls := spec.tls[i := spec.tls[i].(hosts := probeHosts)]);
      }
      assert spec.tls == WithHosts(externalTLS, probeHosts);
    }
    child := ChildFor(cfg, ing, spec);
  }
}
