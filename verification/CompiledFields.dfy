/** The compiled proxies field by field, in the words of the ingress: what a reader of the cluster
    sees, without the functions that the compiler is specified by. */
module CompiledFields {
  import opened Text
  import opened Sorting
  import opened Model
  import opened Headers
  import opened Compiler
  import opened Outputs
  import opened Protocols

  // ---- Hosts -----------------------------------------------------------------------

  /** The last dot-separated label: at most 63 characters, and not only digits. */
  ghost predicate GoodLabel(tld: string) {
    '.' !in tld && |tld| <= 63 && exists c :: c in tld && (c == '-' || c > '9')
  }

  ghost predicate GoodDomain(domain: string) {
    GoodLabel(domain) || exists front, tld :: domain == front + "." + tld && GoodLabel(tld)
  }

  lemma {:induction false} LastLabelSplits(domain: string)
    ensures '.' !in LastLabel(domain)
    ensures LastLabel(domain) == domain
         || (|LastLabel(domain)| < |domain| && domain[..|domain| - |LastLabel(domain)|] + LastLabel(domain) == domain
             && domain[|domain| - |LastLabel(domain)| - 1] == '.')
    ensures '.' !in domain ==> LastLabel(domain) == domain
  {
    if domain != "" && domain[|domain| - 1] != '.' {
      LastLabelSplits(domain[..|domain| - 1]);
    }
  }

  lemma {:induction false} LastLabelOf(front: string, tld: string)
    requires '.' !in tld
    ensures LastLabel(front + "." + tld) == tld
  {
    var domain := front + "." + tld;
    if tld != "" {
      LastLabelOf(front, tld[..|tld| - 1]);
      assert domain[..|domain| - 1] == front + "." + tld[..|tld| - 1];
      assert tld == tld[..|tld| - 1] + [tld[|tld| - 1]];
    }
  }

  lemma LabelChars(tld: string)
    ensures (exists i :: 0 <= i < |tld| && (tld[i] == '-' || tld[i] > '9'))
       <==> (exists c :: c in tld && (c == '-' || c > '9'))
  {
    if i :| 0 <= i < |tld| && (tld[i] == '-' || tld[i] > '9') {
      assert tld[i] in tld;
    }
    if c :| c in tld && (c == '-' || c > '9') {
      var i :| 0 <= i < |tld| && tld[i] == c;
    }
  }

  lemma DomainExactly(domain: string)
    ensures ValidTopLevelDomain(domain) <==> GoodDomain(domain)
  {
    var tld := LastLabel(domain);
    LastLabelSplits(domain);
    LabelChars(tld);
    assert ValidTopLevelDomain(domain) <==> GoodLabel(tld);
    hide ValidTopLevelDomain;
    if GoodLabel(tld) && tld != domain {
      var front := domain[..|domain| - |tld| - 1];
      assert domain == front + "." + tld;
    }
    if GoodDomain(domain) && !GoodLabel(domain) {
      var front, t :| domain == front + "." + t && GoodLabel(t);
      LastLabelOf(front, t);
      assert tld == t;
    }
    assert GoodLabel(domain) ==> tld == domain;
  }

  /** The expansions of a host: itself and its cluster-DNS short names, as far as they are good
      domains. */
  lemma ExpandedExactly(clusterDomain: string, host: string, x: string)
    ensures x in ExpandedHosts(clusterDomain, host)
       <==> GoodDomain(x) && (host == x || host == x + "." + clusterDomain || host == x + ".svc." + clusterDomain)
  {
    DomainExactly(x);
    TrimmedExactly(host, "", x);
    TrimmedExactly(host, "." + clusterDomain, x);
    TrimmedExactly(host, ".svc." + clusterDomain, x);
    assert x + "." + clusterDomain == x + ("." + clusterDomain);
    assert x + ".svc." + clusterDomain == x + (".svc." + clusterDomain);
    assert x + "" == x;
    hide TrimmedHost, ValidTopLevelDomain, GoodDomain;
  }

  lemma TrimmedExactly(host: string, suffix: string, x: string)
    ensures x in TrimmedHost(host, suffix) <==> host == x + suffix && ValidTopLevelDomain(x)
  {
    hide ValidTopLevelDomain;
    SuffixExactly(host, suffix);
    if host == x + suffix {
      assert host[..|host| - |suffix|] == x;
    }
    if suffix == "" {
      assert TrimSuffix(host, suffix) == host && x + suffix == x;
    }
  }

  // ---- Names, labels, annotations --------------------------------------------------

  /** The class that serves a host: cluster-local for hosts in the cluster domain, and otherwise
      that of the rule's visibility; empty when it is not configured. */
  lemma ServingClass(cfg: Config, rule: Rule, original: string)
    ensures (exists front :: original == front + cfg.clusterDomain) ==>
              EffectiveClass(cfg, rule, original) == if "ClusterLocal" in cfg.classes then cfg.classes["ClusterLocal"]
                else ""
    ensures !(exists front :: original == front + cfg.clusterDomain) ==>
              EffectiveClass(cfg, rule, original) == if rule.visibility in cfg.classes
                then cfg.classes[rule.visibility] else ""
  {
    SuffixExactly(original, cfg.clusterDomain);
    hide HasSuffix;
  }

  lemma ProxyMeta(cfg: Config, ing: Ingress, protos: map<string, string>, rule: Rule, original: string, host: string)
    ensures var p, class_ := ProxyFor(cfg, ing, protos, rule, original, host), EffectiveClass(cfg, rule, original);
            && p.ns == ing.ns && p.name == cfg.childName(ing.name + "-" + class_ + "-", host)
            && p.labels.parent == Some(ing.name) && p.labels.generation == Some(ing.generation)
            && p.labels.domainHash == Some(cfg.sha1(host)) && p.labels.ingressClass == Some(class_)
            && p.spec.fqdn == host && p.status == "" && p.resourceVersion == 0
            && "projectcontour.io/ingress.class" in p.annotations
            && p.annotations["projectcontour.io/ingress.class"] == class_
            && (forall a :: a != "projectcontour.io/ingress.class" ==>
                  (a in p.annotations <==> a in ing.annotations)
                    && (a in p.annotations ==> p.annotations[a] == ing.annotations[a]))
  {
    hide RoutesOf, CertificateFor, HasSuffix;
  }

  // ---- Routes ----------------------------------------------------------------------

  /** An entry of a header map, as a header value. */
  ghost predicate EntryOf(m: map<string, string>, h: HeaderValue) {
    h.name in m && h.value == m[h.name]
  }

  /** The backend of a split: its name, port and percentage, and its headers by ascending name. */
  ghost predicate BackendOf(svc: Service, split: Split) {
    && svc.name == split.service && svc.weight == split.percent
    && (split.port.Number? ==> svc.port == split.port.number) && (split.port.Named? ==> svc.port == split.port.parsed)
    && (svc.headers.None? <==> split.appendHeaders == map[])
    && (svc.headers.Some? ==>
          && (forall h :: h in svc.headers.value <==> EntryOf(split.appendHeaders, h))
          && (forall i, j :: 0 <= i < j < |svc.headers.value|
                             ==> Less(svc.headers.value[i].name, svc.headers.value[j].name)))
  }

  /** The match conditions of a path: its prefix first, then one exact match per header, by
      descending name. */
  ghost predicate ConditionsOf(cs: seq<MatchCondition>, prefix: string, headers: map<string, string>) {
    && (forall c :: c in cs <==>
          || (prefix != "" && c.prefix == prefix && c.header == None)
          || (c.prefix == "" && c.header.Some? && EntryOf(headers, c.header.value)))
    && (forall i, j :: 0 <= i < j < |cs| ==>
          || (cs[i].prefix != "" && cs[j].prefix == "")
          || (cs[i].header.Some? && cs[j].header.Some? && Less(cs[j].header.value.name, cs[i].header.value.name)))
  }

  /** The headers set on requests: the appended ones and the rewritten Host, by ascending name. */
  ghost predicate HeadersOf(hs: seq<HeaderValue>, appended: map<string, string>, rewriteHost: string) {
    && (forall h :: h in hs
                    <==> EntryOf(appended, h) || (rewriteHost != "" && h.name == "Host" && h.value == rewriteHost))
    && (forall i, j :: 0 <= i < j < |hs| ==> !Less(hs[j].name, hs[i].name))
  }

  /** The route of a path with these header matches and these appended headers. */
  ghost predicate RouteFor(r: Route, path: Path, headers: map<string, string>, appended: map<string, string>,
                           option: HTTPOption, visibility: string)
  {
    && ConditionsOf(r.conditions, path.path, headers)
    && HeadersOf(r.headers, appended, path.rewriteHost)
    && (r.permitInsecure <==> option == Enabled || visibility == "ClusterLocal")
    && |r.services| == |path.splits|
    && (forall i :: 0 <= i < |path.splits| ==> BackendOf(r.services[i], path.splits[i]))
  }

  lemma BackendFields(cfg: Config, protos: map<string, string>, path: Path, split: Split)
    ensures BackendOf(ServiceOf(cfg, protos, path, split), split)
  {
    var hs := HeaderList(split.appendHeaders);
    hide Contains, HeaderList, Less;
    assert SortedBy(NameBefore, hs);
  }

  lemma ConditionFields(path: Path)
    ensures ConditionsOf(Headers.Conditions(path), path.path, path.headers)
  {
    ConditionsSorted(path);
    hide Headers.Conditions, Less;
    var cs := Headers.Conditions(path);
    forall c
      ensures c in cs <==>
                || (path.path != "" && c.prefix == path.path && c.header == None)
                || (c.prefix == "" && c.header.Some? && EntryOf(path.headers, c.header.value))
    {
      assert c in cs <==> IsCondition(path, c);
    }
    forall i, j | 0 <= i < j < |cs|
      ensures || (cs[i].prefix != "" && cs[j].prefix == "")
              || (cs[i].header.Some? && cs[j].header.Some? && Less(cs[j].header.value.name, cs[i].header.value.name))
    {
      assert ConditionBefore(cs[i], cs[j]);
    }
  }

  lemma HeaderFields(path: Path)
    ensures HeadersOf(PreSplitHeaders(path), path.appendHeaders, path.rewriteHost)
  {
    PreSplitHeadersAllowed(path);
    hide Less;
    var hs, entries := PreSplitHeaders(path), HeaderList(path.appendHeaders);
    hide PreSplitHeaders, HeaderList;
    forall h
      ensures h in hs <==>
                EntryOf(path.appendHeaders, h)
                  || (path.rewriteHost != "" && h.name == "Host" && h.value == path.rewriteHost)
    {
      assert h in hs <==> h in multiset(hs);
      assert h in multiset(entries) <==> h in entries;
      assert h == HeaderValue("Host", path.rewriteHost) <==> h.name == "Host" && h.value == path.rewriteHost;
    }
  }

  lemma RouteFields(cfg: Config, protos: map<string, string>, option: HTTPOption, visibility: string, path: Path)
    ensures RouteFor(RouteOf(cfg, protos, option, visibility, path), path, path.headers, path.appendHeaders, option,
                     visibility)
  {
    ConditionFields(path);
    HeaderFields(path);
    hide Headers.Conditions, PreSplitHeaders, ServiceOf, ConditionsOf, HeadersOf, BackendOf;
    forall i | 0 <= i < |path.splits|
      ensures BackendOf(ServiceOf(cfg, protos, path, path.splits[i]), path.splits[i])
    {
      BackendFields(cfg, protos, path, path.splits[i]);
    }
  }

  /** The routes of a compiled proxy: one per path, and before those one copy per path that
      answers only requests with the probe header and marks them with the hash of the ingress. */
  lemma ProxyRoutes(cfg: Config, ing: Ingress, protos: map<string, string>, rule: Rule, original: string, host: string,
                    j: nat)
    requires j < |rule.paths|
    ensures var routes, n, path := ProxyFor(cfg, ing, protos, rule, original,
                                            host).spec.routes, |rule.paths|, rule.paths[j];
            && |routes| == 2 * n
            && RouteFor(routes[n + j], path, path.headers, path.appendHeaders, ing.spec.httpOption, rule.visibility)
            && RouteFor(routes[j], path, path.headers["K-Network-Hash" := "override"],
                        path.appendHeaders["K-Network-Hash" := cfg.specHash(ing.spec, ing.ns, ing.name)],
                        ing.spec.httpOption, rule.visibility)
  {
    var path := rule.paths[j];
    var probe := ProbePath(path, SpecHash(cfg, ing));
    RoutesAt(cfg, ing, protos, rule, original, host, j);
    RouteFields(cfg, protos, ing.spec.httpOption, rule.visibility, path);
    RouteFields(cfg, protos, ing.spec.httpOption, rule.visibility, probe);
    hide ProxyFor, RouteOf, ConditionsOf, HeadersOf, BackendOf;
    assert probe.splits == path.splits && probe.path == path.path && probe.rewriteHost == path.rewriteHost;
  }
}
