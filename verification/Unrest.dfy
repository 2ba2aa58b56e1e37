/** Two more incidents: an admitted ingress whose child is created and deleted forever, and old
    proxies whose order in the cache decides what the child looks like. */
module Unrest {
  import opened Model
  import opened Compiler
  import opened Outputs
  import opened EndpointProbe
  import opened Decompile
  import opened ProbeIdentity
  import opened Cluster
  import opened Reconcile
  import opened Framing
  import opened Rollout
  import opened Worlds
  import opened Histories
  import opened Lifetime
  import opened Convergence
  import opened Cooperation
  import opened Scenario
  import opened Stage

  // ---- A rule without hosts --------------------------------------------------------

  function Hostless(k: Key, service: string): Ingress {
    Ingress(k.ns, k.name, 1, map[], OneSpec([], service))
  }

  ghost function Never(): (World, Event) -> bool {
    (w: World, e: Event) => false
  }

  /** The proxies that the ingress wants in the small cluster. */
  ghost function WantedIn(cfg: Config, ing: Ingress, service: string): seq<HTTPProxy> {
    Env(cfg, ing, service, Yes(), ProbeReady).desired
  }

  /** Settled, with the caches in sync. */
  ghost predicate AtRest(cfg: Config, k: Key, w: World, ing: Ingress, service: string) {
    && At(cfg, k, Never(), w, ing) && SyncedAll(w) && Settled(cfg, w.server, k, WantedIn(cfg, ing, service))
  }

  /** A cooperative round of the small cluster. */
  ghost predicate SmallRound(cfg: Config, k: Key, w: World, u: World, ing: Ingress, service: string) {
    Round(cfg, w.server, w.views, Env(cfg, ing, service, Yes(), ProbeReady), u.server, k, WantedIn(cfg, ing, service))
  }

  lemma HostlessFacts(cfg: Config, k: Key, service: string)
    requires Small(cfg)
    ensures var ing := Hostless(k, service);
            One(cfg, ing, [], service) && IngressKey(ing) == k && !IsEndpointProbe(ing)
              && WantedIn(cfg, ing, service) == []
  {
    hide Compile, Small;
    assert OneSpec([], service) == PrefixSpec([], service, "");
    HostlessCompiles(cfg, Hostless(k, service),
                     Protocols.IngressProtocols(cfg, Hostless(k, service), map[service := PORTS]));
  }

  lemma YesCooperates(cfg: Config, ing: Ingress, service: string)
    ensures var env := Env(cfg, ing, service, Yes(), ProbeReady);
            ServicesKnown(ing, env.services) ==> Cooperates(ing, env, WantedIn(cfg, ing, service))
  {
    hide Compile, ServicesKnown;
  }

  /** From a closed gate: the child is created and becomes ready. */
  lemma CreateRound(cfg: Config, k: Key, w: World, ing: Ingress, hosts: seq<string>, service: string) returns (u: World)
    requires Small(cfg) && At(cfg, k, Never(), w, ing) && One(cfg, ing, hosts, service) && SyncedAll(w)
    requires ChildKey(cfg, k) !in w.server.ingresses && !Rolled(w.server, k, ing.generation)
    ensures At(cfg, k, Never(), u, ing) && SyncedAll(u) && SmallRound(cfg, k, w, u, ing, service)
    ensures ChildHas(cfg, u.server, k, WantedChild(ing, service)) && ChildReady(cfg, u.server, k)
  {
    hide Small, One, Inv, AllCanonical, Population, Reaches, WantedChild, BadOnlyAt, Rolled, Env, ChildKey, SyncedAll,
         Never, CurrentProxies, Step, Calm, Suits, Faithful, ServicesKnown, Helps, ProxyHistory, IngressHistory,
         ViewsSeen, Cooperates;
    NeverBad(k);
    SceneCalm(cfg, k, Never(), w, ing, hosts, service, Yes(), ProbeReady);
    YesCooperates(cfg, ing, service);
    NoneCurrent(w, ing);
    SyncedIndex(w);
    var a := WaitStep(cfg, k, Never(), w, ing, hosts, service, ProbeReady);
    var b := SyncUp(cfg, k, Never(), a, ing);
    SyncedForAll(b, b.server.ingresses[ChildKey(cfg, k)].ing);
    var c := ChildStep(cfg, k, Never(), b, ing, ing, service);
    u := SyncUp(cfg, k, Never(), c, ing);
    InvHistories(cfg, k, u);
  }

  lemma NeverBad(k: Key)
    ensures BadOnlyAt(Never(), k) && forall w, e :: !Never()(w, e)
  {
  }

  /** From an open gate: the child is deleted, and the ingress is settled. */
  lemma SettleRound(cfg: Config, k: Key, w: World, ing: Ingress, hosts: seq<string>, service: string) returns (u: World)
    requires Small(cfg) && At(cfg, k, Never(), w, ing) && One(cfg, ing, hosts, service) && SyncedAll(w)
    requires ChildHas(cfg, w.server, k, WantedChild(ing, service)) && ChildReady(cfg, w.server, k)
    ensures AtRest(cfg, k, u, ing, service) && SmallRound(cfg, k, w, u, ing, service)
  {
    hide Small, One, Inv, AllCanonical, Population, Reaches, WantedChild, BadOnlyAt, Env, ChildKey, SyncedAll, Never,
         Step, Calm, Suits, Faithful, ServicesKnown, Helps, Exact, ProxyHistory, IngressHistory, ViewsSeen, Cooperates;
    NeverBad(k);
    SceneCalm(cfg, k, Never(), w, ing, hosts, service, Yes(), ProbeReady);
    YesCooperates(cfg, ing, service);
    var a := SettleStep(cfg, k, Never(), w, ing, hosts, service);
    u := SyncUp(cfg, k, Never(), a, ing);
    InvHistories(cfg, k, u);
    HelpsItself(cfg, u.server, k);
  }

  lemma HelpsItself(cfg: Config, s: Server, k: Key)
    requires k in s.ingresses && ChildKey(cfg, k) !in s.ingresses
    ensures Helps(cfg, s, s, k)
  {
    hide ChildKey;
  }

  /** From the start of an admitted ingress, with or without a host, two cooperative rounds in a
      row lead to rest. */
  lemma RoundsExist(cfg: Config, k: Key, ing: Ingress, hosts: seq<string>,
                    service: string) returns (start: World, middle: World, rest: World)
    requires Small(cfg) && Admitted(ing.spec) && One(cfg, ing, hosts, service) && IngressKey(ing) == k
    requires !IsEndpointProbe(ing) && ing.generation == 1
    ensures Begins(start, k) && At(cfg, k, Never(), start, ing) && SyncedAll(start)
    ensures SmallRound(cfg, k, start, middle, ing, service) && SmallRound(cfg, k, middle, rest, ing, service)
    ensures AtRest(cfg, k, rest, ing, service)
  {
    hide Small, Inv, AllCanonical, Population, Reaches, WantedChild, SyncedAll, Never, Admitted, SmallRound, Rolled,
         Env, OneSpec, Plain, Settled, ChildKey, WellNamed, WantedIn;
    ChildElsewhere(cfg, k);
    start := Begin(cfg, k, Never(), ing);
    NothingStored(start.server, k, 1);
    middle := CreateRound(cfg, k, start, ing, hosts, service);
    rest := SettleRound(cfg, k, middle, ing, hosts, service);
  }

  /** An admitted ingress without hosts: from its start a run leads to rest; from rest, one
      cooperative round creates the child, the next one deletes it, and the ingress is at rest
      again, as it was before. */
  lemma HostlessUnrest(cfg: Config, k: Key, service: string) returns (rest: World, disturbed: World, again: World)
    requires Small(cfg) && service != ""
    ensures Admitted(Hostless(k, service).spec) && WantedIn(cfg, Hostless(k, service), service) == []
    ensures AtRest(cfg, k, rest, Hostless(k, service), service) && AtRest(cfg, k, again, Hostless(k, service), service)
    ensures SmallRound(cfg, k, rest, disturbed, Hostless(k, service), service)
    ensures SmallRound(cfg, k, disturbed, again, Hostless(k, service), service)
    ensures ChildKey(cfg, k) in disturbed.server.ingresses
    ensures again.server.ingresses[k].ing == rest.server.ingresses[k].ing
    ensures again.server.ingresses[k].status == rest.server.ingresses[k].status
  {
    var ing := Hostless(k, service);
    HostlessFacts(cfg, k, service);
    OneSpecAdmitted([], service);
    hide Small, One, Inv, AllCanonical, Population, Reaches, WantedChild, SyncedAll, Never, Admitted, SmallRound, Exact,
         Rolled, Env, WantedIn;
    var start, middle;
    start, middle, rest := RoundsExist(cfg, k, ing, [], service);
    RestNotRolled(rest.server, ing);
    disturbed := CreateRound(cfg, k, rest, ing, [], service);
    again := SettleRound(cfg, k, disturbed, ing, [], service);
  }

  lemma RestNotRolled(s: Server, ing: Ingress)
    requires Exact(s, ing, [])
    ensures !Rolled(s, IngressKey(ing), ing.generation)
  {
  }

  // ---- The order of the old proxies ------------------------------------------------

  /** Two old proxies disagree about a dropped service when one reaches it by paths without a
      prefix only and the other by paths with a prefix only. */
  lemma MixedPathsDisagree(cfg: Config, prior: Ingress, protos: map<string, string>, ing: Ingress,
                           listed: seq<HTTPProxy>, service: string, r: Rule, original: string, host: string,
                           p: HTTPProxy, path: Path, split: Split, r': Rule, original': string, host': string,
                           p': HTTPProxy, path': Path, split': Split)
    requires DistinctClasses(cfg) && !Mentions(RuleOccurrences(ing.spec.rules), service)
    requires p in listed && p.status == "valid" && Alike(p, ProxyFor(cfg, prior, protos, r, original, host))
    requires p' in listed && p'.status == "valid" && Alike(p', ProxyFor(cfg, prior, protos, r', original', host'))
    requires EffectiveVisibility(cfg, r, original) in cfg.classes
    requires EffectiveVisibility(cfg, r', original') in cfg.classes
    requires path in r.paths && split in path.splits && split.service == service
    requires forall x :: x in r.paths ==> x.path == ""
    requires path' in r'.paths && split' in path'.splits && split'.service == service
    requires forall x :: x in r'.paths ==> x.path != ""
    ensures !OldProxiesAgree(cfg, ing, listed)
  {
    hide DistinctClasses, RuleOccurrences, ProxyFor, Alike, EffectiveVisibility, ProxyOccurrences;
    var o := ProxyMentionExists(cfg, prior, protos, r, original, host, p, path, split);
    var o' := ProxyMentionExists(cfg, prior, protos, r', original', host', p', path', split');
    assert Mentions(ProxyOccurrences(cfg, p), service) && Mentions(ProxyOccurrences(cfg, p'), service);
    var first, first' := FirstOf(ProxyOccurrences(cfg, p), service), FirstOf(ProxyOccurrences(cfg, p'), service);
    var a, b := ProxyMention(cfg, prior, protos, r, original, host, p, first);
    var a', b' := ProxyMention(cfg, prior, protos, r', original', host', p', first');
    assert !SameProbe(first, first');
  }

  function Plainly(host: string, service: string): Rule {
    Rule([host], EXTERNAL_IP, [OnePath(service)])
  }

  function Prefixed(host: string, service: string): Rule {
    Rule([host], EXTERNAL_IP, [OnePath(service).(path := "/metrics")])
  }

  /** A prior ingress with two rules for one service, one of them with a path. */
  function Mixed(k: Key, front: string, back: string, service: string): Ingress {
    Ingress(k.ns, k.name, 1, map[],
            IngressSpec([Plainly(front + ".example", service), Prefixed(back + ".example", service)], [], Enabled))
  }

  lemma MixedAdmitted(k: Key, front: string, back: string, service: string)
    requires service != ""
    ensures Admitted(Mixed(k, front, back, service).spec)
  {
    var splits := OnePath(service).splits;
    assert splits[1..] == [];
  }

  lemma SmallClasses(cfg: Config)
    requires Small(cfg)
    ensures DistinctClasses(cfg) && EXTERNAL_IP in cfg.classes
  {
    assert EXTERNAL[0] == 'e' && "internal"[0] == 'i';
  }

  /** The proxy of a rule of the prior ingress, as compiled, stored and found valid. */
  lemma MixedProxy(cfg: Config, prior: Ingress, protos: map<string, string>, rule: Rule,
                   front: string) returns (p: HTTPProxy)
    requires Small(cfg) && rule in prior.spec.rules && rule.hosts == [front + ".example"]
    requires rule.visibility == EXTERNAL_IP
    ensures p.status == "valid" && p.(status := "") in Compile(cfg, prior, protos)
    ensures Alike(p, ProxyFor(cfg, prior, protos, rule, front + ".example", front + ".example"))
    ensures EffectiveVisibility(cfg, rule, front + ".example") == EXTERNAL_IP
  {
    var host := front + ".example";
    PlainHost(cfg, front);
    PlainDomain(cfg);
    hide Compile, Small, ProxyFor;
    assert Exposes(cfg, prior, rule, host, host);
    CompileComplete(cfg, prior, protos, rule, host, host);
    var spec := ProxyFor(cfg, prior, protos, rule, host, host);
    p := spec.(status := "valid");
    CompiledUnreported(cfg, prior, protos);
    assert p.(status := "") == spec;
    AlikeItself(cfg, prior, protos, spec);
  }

  lemma AlikeItself(cfg: Config, prior: Ingress, protos: map<string, string>, spec: HTTPProxy)
    requires spec in Compile(cfg, prior, protos)
    ensures Alike(spec.(status := "valid"), spec)
  {
    hide Compile;
    ProxyLikeItself(cfg, prior, protos, spec);
  }

  /** The order matters: the compiled proxies of one admitted prior ingress, all valid, and an
      admitted next generation whose child depends on the order in which they are listed. */
  lemma ListingMatters(cfg: Config, k: Key, front: string, back: string, dropped: string, kept: string,
                       protos: map<string, string>)
    returns (listed: seq<HTTPProxy>, other: seq<HTTPProxy>)
    requires Small(cfg) && dropped != "" && kept != "" && dropped != kept
    ensures var prior, ing := Mixed(k, front, back, dropped), Simple(k, 2, front + ".example", kept);
            && Admitted(prior.spec) && Admitted(ing.spec)
            && |listed| == 2
            && (forall p :: p in listed ==> p.status == "valid" && p.(status := "") in Compile(cfg, prior, protos))
            && multiset(other) == multiset(listed) && ChildSpec(cfg, ing, other) != ChildSpec(cfg, ing, listed)
  {
    var ing := Simple(k, 2, front + ".example", kept);
    hide Small, Compile, Admitted, ChildSpec, OldProxiesAgree, Mixed, OneSpec;
    MixedAdmitted(k, front, back, dropped);
    OneSpecAdmitted([front + ".example"], kept);
    NotMentioned(ing, [front + ".example"], kept, dropped);
    listed := MixedListing(cfg, k, front, back, dropped, ing, protos);
    ListingOrder(cfg, ing, listed);
    other :| multiset(other) == multiset(listed) && ChildSpec(cfg, ing, other) != ChildSpec(cfg, ing, listed);
  }

  lemma NotMentioned(ing: Ingress, hosts: seq<string>, kept: string, dropped: string)
    requires ing.spec == OneSpec(hosts, kept) && kept != dropped
    ensures !Mentions(RuleOccurrences(ing.spec.rules), dropped)
  {
    OneSpecServices(ing, hosts, kept);
    hide RuleOccurrences, AbsorbAll;
  }

  lemma MixedListing(cfg: Config, k: Key, front: string, back: string, dropped: string, ing: Ingress,
                     protos: map<string, string>)
    returns (listed: seq<HTTPProxy>)
    requires Small(cfg) && !Mentions(RuleOccurrences(ing.spec.rules), dropped)
    ensures |listed| == 2
    ensures forall p :: p in listed ==> p.status == "valid"
    ensures forall p :: p in listed ==> p.(status := "") in Compile(cfg, Mixed(k, front, back, dropped), protos)
    ensures !OldProxiesAgree(cfg, ing, listed)
  {
    hide Small, Compile, ProxyFor, Alike, EffectiveVisibility, RuleOccurrences, DistinctClasses, OldProxiesAgree,
         Mentions;
    var prior := Mixed(k, front, back, dropped);
    var r, r' := Plainly(front + ".example", dropped), Prefixed(back + ".example", dropped);
    SmallClasses(cfg);
    assert prior.spec.rules == [r, r'] && r in prior.spec.rules && r' in prior.spec.rules;
    var p := MixedProxy(cfg, prior, protos, r, front);
    var p' := MixedProxy(cfg, prior, protos, r', back);
    listed := [p, p'];
    hide Mixed;
    var path, path' := OnePath(dropped), OnePath(dropped).(path := "/metrics");
    assert path.splits[0] in path.splits && path'.splits[0] in path'.splits;
    assert path in r.paths && path' in r'.paths;
    MixedPathsDisagree(cfg, prior, protos, ing, listed, dropped,
                       r, front + ".example", front + ".example", p, path, path.splits[0],
                       r', back + ".example", back + ".example", p', path', path'.splits[0]);
  }
}
