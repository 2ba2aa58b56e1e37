/** Reverse engineering what was compiled: the endpoint probe built from the HTTPProxies of
    the prior generation covers exactly that generation and the new one. */
module Decompile {
  import opened Model
  import opened Headers
  import opened Compiler
  import opened Outputs
  import opened EndpointProbe
  import opened ProbeCoverage

  // ---- Decompile after compile -----------------------------------------------------

  /** The service is a backend of the ingress under this visibility. */
  ghost predicate RoutesTo(ing: Ingress, service: string, visibility: string) {
    exists rule, path, split :: rule in ing.spec.rules && path in rule.paths && split in path.splits
      && split.service == service && rule.visibility == visibility
  }

  /** The service is a backend behind some exposed host, under the visibility that host really
      has, and that visibility is configured. */
  ghost predicate Exposed(cfg: Config, ing: Ingress, service: string, visibility: string) {
    exists rule, originalHost, host, path, split ::
      Exposes(cfg, ing, rule, originalHost, host) && path in rule.paths && split in path.splits
      && split.service == service && EffectiveVisibility(cfg, rule, originalHost) == visibility
      && visibility in cfg.classes
  }

  ghost predicate NoPaths(ing: Ingress) {
    forall rule, path :: rule in ing.spec.rules && path in rule.paths ==> path.path == ""
  }

  predicate SameContent(q: HTTPProxy, p: HTTPProxy) {
    q.annotations == p.annotations && q.spec == p.spec
  }

  /** The stored proxy routes like the specified one; only conflicting Host headers may stand
      in another order. */
  ghost predicate Alike(q: HTTPProxy, spec: HTTPProxy) {
    q.annotations == spec.annotations && RoutesLike(q.spec.routes, spec.spec.routes)
  }

  /** The listed proxies are the compiled ones, as stored and found valid by Contour. */
  ghost predicate Deployed(compiled: seq<HTTPProxy>, listed: seq<HTTPProxy>) {
    && (forall q :: q in listed ==> q.status == "valid" && exists p :: p in compiled && SameContent(q, p))
    && (forall p :: p in compiled ==> exists q :: q in listed && SameContent(q, p))
  }

  /** The child has a rule for the service at the visibility. */
  ghost predicate Covers(spec: IngressSpec, service: string, visibility: string) {
    exists r :: r in spec.rules && r.visibility == visibility && ServesOnly(r, service)
  }

  predicate ServesOnly(r: Rule, service: string) {
    |r.paths| == 1 && |r.paths[0].splits| == 1 && r.paths[0].splits[0].service == service
  }

  lemma CoversProbed(cfg: Config, ing: Ingress, previous: seq<HTTPProxy>, service: string, visibility: string)
    ensures Covers(ChildSpec(cfg, ing, previous), service, visibility)
       <==> Probed(AllOccurrences(cfg, ing, previous), service, visibility)
  {
    var os := AllOccurrences(cfg, ing, previous);
    ExactCoverage(cfg, ing, previous);
    hide ChildSpec, AllOccurrences, ProbeHost, Probed;
    if Probed(os, service, visibility) {
      assert Mentions(os, service) by {
        ProbedMentions(os, service, visibility);
      }
      assert IsProbeRule(ing, os, ProbedRuleFor(ing, os, service, visibility));
    }
  }

  lemma ProbedMentions(os: seq<Occurrence>, service: string, visibility: string)
    requires Probed(os, service, visibility)
    ensures Mentions(os, service)
  {
  }

  /** The child for the next generation has a rule for exactly the pairs that the new ingress
      routes to and the pairs that the prior ingress exposed, whichever list the compiler had
      returned for the prior ingress. */
  lemma DecompileAfterCompile(cfg: Config, prior: Ingress, protos: map<string, string>, compiled: seq<HTTPProxy>,
                              listed: seq<HTTPProxy>, ing: Ingress, service: string, visibility: string)
    requires DistinctClasses(cfg) && NoPaths(prior) && NoPaths(ing)
    requires ProxiesLike(compiled, Compile(cfg, prior, protos)) && Deployed(compiled, listed)
    ensures Covers(ChildSpec(cfg, ing, listed), service, visibility)
       <==> RoutesTo(ing, service, visibility) || Exposed(cfg, prior, service, visibility)
  {
    hide ChildSpec, Compile, RoutesTo, Exposed, NoPaths;
    CoversProbed(cfg, ing, listed, service, visibility);
    var current, earlier := RuleOccurrences(ing.spec.rules), OldOccurrences(cfg, listed);
    hide RuleOccurrences, OldOccurrences;
    forall o: Occurrence | o in current + earlier
      ensures !o.hasPath
    {
      if o in current {
        NewMention(ing, o);
      } else {
        OldMention(cfg, prior, protos, compiled, listed, o);
      }
    }
    if visibility in VisibilitiesOf(current + earlier, service) {
      var o: Occurrence :| o in current + earlier && o.service == service && o.visibility == visibility;
      if o in current {
        NewMention(ing, o);
      } else {
        OldMention(cfg, prior, protos, compiled, listed, o);
      }
    }
    if RoutesTo(ing, service, visibility) {
      var o := NewMentionExists(ing, service, visibility);
      assert o in current + earlier;
    }
    if Exposed(cfg, prior, service, visibility) {
      var o := OldMentionExists(cfg, prior, protos, compiled, listed, service, visibility);
      assert o in current + earlier;
    }
  }

  lemma NewMention(ing: Ingress, o: Occurrence)
    requires NoPaths(ing) && o in RuleOccurrences(ing.spec.rules)
    ensures !o.hasPath && RoutesTo(ing, o.service, o.visibility)
  {
    RuleOccurrencesMembers(ing.spec.rules, o);
  }

  lemma NewMentionExists(ing: Ingress, service: string, visibility: string) returns (o: Occurrence)
    requires RoutesTo(ing, service, visibility)
    ensures o in RuleOccurrences(ing.spec.rules) && o.service == service && o.visibility == visibility
  {
    var rule, path, split :| rule in ing.spec.rules && path in rule.paths && split in path.splits
      && split.service == service && rule.visibility == visibility;
    o := Occurrence(split.service, split.port, rule.visibility, path.rewriteHost, path.path != "");
    RuleOccurrencesMembers(ing.spec.rules, o);
  }

  lemma OldMention(cfg: Config, prior: Ingress, protos: map<string, string>, compiled: seq<HTTPProxy>,
                   listed: seq<HTTPProxy>, o: Occurrence)
    requires DistinctClasses(cfg) && NoPaths(prior)
    requires ProxiesLike(compiled, Compile(cfg, prior, protos)) && Deployed(compiled, listed)
    requires o in OldOccurrences(cfg, listed)
    ensures !o.hasPath && Exposed(cfg, prior, o.service, o.visibility)
  {
    hide Compile, ProxyOccurrences, OldOccurrences, ProxyFor, Exposes, Exposed, Alike, ProxiesLike, Deployed,
         DistinctClasses, NoPaths;
    OldOccurrencesMembers(cfg, listed, o);
    var q :| q in listed && o in ProxyOccurrences(cfg, q);
    var spec := DeployedSpec(compiled, Compile(cfg, prior, protos), listed, q);
    var rule, originalHost, host := CompileSound(cfg, prior, protos, spec);
    MentionExposed(cfg, prior, protos, rule, originalHost, host, q, o);
  }

  lemma DeployedSpec(compiled: seq<HTTPProxy>, specs: seq<HTTPProxy>, listed: seq<HTTPProxy>,
                     q: HTTPProxy) returns (spec: HTTPProxy)
    requires ProxiesLike(compiled, specs) && Deployed(compiled, listed) && q in listed
    ensures spec in specs && Alike(q, spec)
  {
    hide SameContent, Alike, ProxyLike;
    var p :| p in compiled && SameContent(q, p);
    var i :| 0 <= i < |compiled| && compiled[i] == p;
    spec := specs[i];
    StoredAlike(q, p, spec);
  }

  lemma StoredAlike(q: HTTPProxy, p: HTTPProxy, spec: HTTPProxy)
    requires SameContent(q, p) && ProxyLike(p, spec)
    ensures Alike(q, spec)
  {
    hide RoutesLike;
  }

  lemma MentionExposed(cfg: Config, prior: Ingress, protos: map<string, string>, rule: Rule, originalHost: string,
                       host: string, q: HTTPProxy, o: Occurrence)
    requires DistinctClasses(cfg) && NoPaths(prior) && Exposes(cfg, prior, rule, originalHost, host)
    requires Alike(q, ProxyFor(cfg, prior, protos, rule, originalHost, host)) && o in ProxyOccurrences(cfg, q)
    ensures !o.hasPath && Exposed(cfg, prior, o.service, o.visibility)
  {
    hide ProxyOccurrences, ProxyFor, Exposes, EffectiveVisibility, Alike, DistinctClasses;
    var path, split := ProxyMention(cfg, prior, protos, rule, originalHost, host, q, o);
    ExposedRule(cfg, prior, rule, originalHost, host);
  }

  lemma ExposedRule(cfg: Config, ing: Ingress, rule: Rule, originalHost: string, host: string)
    requires Exposes(cfg, ing, rule, originalHost, host)
    ensures rule in ing.spec.rules
  {
  }

  lemma OldMentionExists(cfg: Config, prior: Ingress, protos: map<string, string>, compiled: seq<HTTPProxy>,
                         listed: seq<HTTPProxy>, service: string, visibility: string) returns (o: Occurrence)
    requires DistinctClasses(cfg) && NoPaths(prior)
    requires ProxiesLike(compiled, Compile(cfg, prior, protos)) && Deployed(compiled, listed)
    requires Exposed(cfg, prior, service, visibility)
    ensures o in OldOccurrences(cfg, listed) && o.service == service && o.visibility == visibility
  {
    hide Compile, ProxyOccurrences, OldOccurrences, ProxyFor, Exposes, EffectiveVisibility, Alike, ProxyLike,
         SameContent;
    var rule, originalHost, host, path, split :|
      Exposes(cfg, prior, rule, originalHost, host) && path in rule.paths && split in path.splits
      && split.service == service && EffectiveVisibility(cfg, rule, originalHost) == visibility
      && visibility in cfg.classes;
    CompileComplete(cfg, prior, protos, rule, originalHost, host);
    var spec := ProxyFor(cfg, prior, protos, rule, originalHost, host);
    var i :| 0 <= i < |compiled| && Compile(cfg, prior, protos)[i] == spec;
    assert compiled[i] in compiled;
    var q :| q in listed && SameContent(q, compiled[i]);
    StoredAlike(q, compiled[i], spec);
    o := ProxyMentionExists(cfg, prior, protos, rule, originalHost, host, q, path, split);
    OldOccurrencesMembers(cfg, listed, o);
  }

  // ---- One proxy -------------------------------------------------------------------

  /** The class annotation leads back to the visibility it came from. */
  lemma VisibilityRecovered(cfg: Config, visibility: string)
    requires DistinctClasses(cfg)
    ensures VisibilityOf(cfg, Lookup(cfg.classes, visibility)) == if visibility in cfg.classes then visibility else ""
  {
  }

  lemma RouteHasPrefix(cfg: Config, protos: map<string, string>, option: HTTPOption, visibility: string, path: Path)
    ensures HasPrefix(RouteOf(cfg, protos, option, visibility, path)) <==> path.path != ""
  {
    ConditionsSorted(path);
    hide Conditions;
    assert IsCondition(path, MatchCondition(path.path, None)) || path.path == "";
  }

  lemma PrefixAlike(r: Route, spec: Route)
    requires RouteLike(r, spec)
    ensures HasPrefix(r) <==> HasPrefix(spec)
  {
  }

  lemma ProxyMention(cfg: Config, prior: Ingress, protos: map<string, string>, rule: Rule, originalHost: string,
                     host: string, q: HTTPProxy, o: Occurrence) returns (path: Path, split: Split)
    requires DistinctClasses(cfg) && Alike(q, ProxyFor(cfg, prior, protos, rule, originalHost, host))
    requires o in ProxyOccurrences(cfg, q)
    ensures path in rule.paths && split in path.splits && o.service == split.service && o.hasPath == (path.path != "")
    ensures o.visibility == EffectiveVisibility(cfg, rule, originalHost) && o.visibility in cfg.classes
  {
    hide CertificateFor, VisibilityOf, HasPrefix, RouteOf, ServiceOf;
    VisibilityRecovered(cfg, EffectiveVisibility(cfg, rule, originalHost));
    RoutesOccurrencesMembers(o.visibility, q.spec.routes, o);
    hide RoutesOccurrences;
    var probedRule := ProbedRule(rule, SpecHash(cfg, prior));
    var v := VisibilityOf(cfg, Lookup(q.annotations, CLASS_KEY));
    RoutesOccurrencesMembers(v, q.spec.routes, o);
    var r, svc :| r in q.spec.routes && svc in r.services
      && o == Occurrence(svc.name, Number(svc.port), v, "", HasPrefix(r));
    var j :| 0 <= j < |q.spec.routes| && r == q.spec.routes[j];
    assert RouteLike(r, RouteOf(cfg, protos, prior.spec.httpOption, rule.visibility, probedRule.paths[j]));
    PrefixAlike(r, RouteOf(cfg, protos, prior.spec.httpOption, rule.visibility, probedRule.paths[j]));
    RouteHasPrefix(cfg, protos, prior.spec.httpOption, rule.visibility, probedRule.paths[j]);
    path := ProbedFrom(rule.paths, SpecHash(cfg, prior), probedRule.paths[j]);
    split := ServiceFromSplit(cfg, protos, prior.spec.httpOption, rule.visibility, probedRule.paths[j], svc);
  }

  lemma ServiceFromSplit(cfg: Config, protos: map<string, string>, option: HTTPOption, visibility: string, path: Path,
                         svc: Service)
    returns (split: Split)
    requires svc in RouteOf(cfg, protos, option, visibility, path).services
    ensures split in path.splits && svc == ServiceOf(cfg, protos, path, split) && svc.name == split.service
  {
    var i :| 0 <= i < |path.splits| && svc == RouteOf(cfg, protos, option, visibility, path).services[i];
    split := path.splits[i];
  }

  lemma ProxyMentionExists(cfg: Config, prior: Ingress, protos: map<string, string>, rule: Rule, originalHost: string,
                           host: string, q: HTTPProxy, path: Path, split: Split) returns (o: Occurrence)
    requires DistinctClasses(cfg) && Alike(q, ProxyFor(cfg, prior, protos, rule, originalHost, host))
    requires q.status == "valid"
    requires path in rule.paths && split in path.splits && EffectiveVisibility(cfg, rule, originalHost) in cfg.classes
    ensures o in ProxyOccurrences(cfg, q)
    ensures o.service == split.service && o.visibility == EffectiveVisibility(cfg, rule, originalHost)
  {
    hide VisibilityOf, HasPrefix, RoutesOccurrences, ServiceOf, RouteOf, Alike, ProxyFor, EffectiveVisibility;
    var v := EffectiveVisibility(cfg, rule, originalHost);
    StoredVisibility(cfg, prior, protos, rule, originalHost, host, q);
    var j :| 0 <= j < |rule.paths| && rule.paths[j] == path;
    var i :| 0 <= i < |path.splits| && path.splits[i] == split;
    StoredRoute(cfg, prior, protos, rule, originalHost, host, q, j);
    var r := q.spec.routes[|rule.paths| + j];
    StoredService(cfg, protos, prior.spec.httpOption, rule.visibility, path, r, i);
    NameOfService(cfg, protos, path, split);
    var svc := r.services[i];
    o := Occurrence(svc.name, Number(svc.port), v, "", HasPrefix(r));
    RoutesOccurrencesMembers(v, q.spec.routes, o);
  }

  lemma StoredVisibility(cfg: Config, prior: Ingress, protos: map<string, string>, rule: Rule, originalHost: string,
                         host: string, q: HTTPProxy)
    requires DistinctClasses(cfg) && Alike(q, ProxyFor(cfg, prior, protos, rule, originalHost, host))
    requires EffectiveVisibility(cfg, rule, originalHost) in cfg.classes
    ensures VisibilityOf(cfg, Lookup(q.annotations, CLASS_KEY)) == EffectiveVisibility(cfg, rule, originalHost)
    ensures EffectiveVisibility(cfg, rule, originalHost) != ""
  {
    hide CertificateFor, VisibilityOf, RoutesOf, RoutesLike;
    VisibilityRecovered(cfg, EffectiveVisibility(cfg, rule, originalHost));
  }

  lemma StoredRoute(cfg: Config, prior: Ingress, protos: map<string, string>, rule: Rule, originalHost: string,
                    host: string, q: HTTPProxy, j: nat)
    requires Alike(q, ProxyFor(cfg, prior, protos, rule, originalHost, host)) && j < |rule.paths|
    ensures |q.spec.routes| == 2 * |rule.paths|
    ensures RouteLike(q.spec.routes[|rule.paths| + j],
                      RouteOf(cfg, protos, prior.spec.httpOption, rule.visibility, rule.paths[j]))
  {
    hide CertificateFor, RouteOf, RouteLike, ProbePath;
    assert ProbedRule(rule, SpecHash(cfg, prior)).paths[|rule.paths| + j] == rule.paths[j];
  }

  lemma StoredService(cfg: Config, protos: map<string, string>, option: HTTPOption, visibility: string, path: Path,
                      r: Route, i: nat)
    requires RouteLike(r, RouteOf(cfg, protos, option, visibility, path)) && i < |path.splits|
    ensures |r.services| == |path.splits| && r.services[i] == ServiceOf(cfg, protos, path, path.splits[i])
  {
    hide ServiceOf, Conditions, PreSplitHeaders;
  }

  lemma NameOfService(cfg: Config, protos: map<string, string>, path: Path, split: Split)
    ensures ServiceOf(cfg, protos, path, split).name == split.service
  {
  }
}
