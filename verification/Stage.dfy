/** Building runs step by step: each lemma extends a run by one event and says where it leads. */
module Stage {
  import opened Model
  import opened Compiler
  import opened Outputs
  import opened EndpointProbe
  import opened Conditions
  import opened Cluster
  import opened Reconcile
  import opened Framing
  import opened Rollout
  import opened Steps
  import opened Worlds
  import opened Histories
  import opened Lifetime
  import opened ChildOrigin
  import opened Convergence
  import opened Cooperation
  import opened Scenario

  // ---- Reachable worlds ------------------------------------------------------------

  ghost predicate Avoids(ws: seq<World>, es: seq<Event>, bad: (World, Event) -> bool)
    requires |es| < |ws|
  {
    forall j :: 0 <= j < |es| ==> !bad(ws[j], es[j])
  }

  /** The ingress `k` alone, admitted, at its first generation and never reconciled. */
  ghost predicate Begins(w: World, k: Key) {
    && w.server.proxies == map[] && w.server.ingresses.Keys == {k}
    && w.server.ingresses[k].status == INITIAL_STATUS
    && w.server.ingresses[k].ing.generation == 1 && Admitted(w.server.ingresses[k].ing.spec)
  }

  /** Some run leads from there to this world without any bad event on the way. */
  ghost predicate Reaches(cfg: Config, k: Key, bad: (World, Event) -> bool, w: World) {
    exists ws, es :: Run(cfg, {k}, ws, es) && Begins(ws[0], k) && ws[|es|] == w && Avoids(ws, es, bad)
  }

  /** Only reconciles of `k` can be bad. */
  ghost predicate BadOnlyAt(bad: (World, Event) -> bool, k: Key) {
    forall w, e :: bad(w, e) ==> e.Reconciles? && e.k == k
  }

  lemma NotBad(bad: (World, Event) -> bool, k: Key, w: World, e: Event)
    requires BadOnlyAt(bad, k) && !(e.Reconciles? && e.k == k)
    ensures !bad(w, e)
  {
  }

  lemma ReachesNext(cfg: Config, k: Key, bad: (World, Event) -> bool, w: World, e: Event)
    requires Reaches(cfg, k, bad, w) && Possible(cfg, {k}, w, e) && !bad(w, e)
    ensures Reaches(cfg, k, bad, Next(cfg, {k}, w, e))
  {
    hide Possible, Next, Init, Begins;
    var ws, es :| Run(cfg, {k}, ws, es) && Begins(ws[0], k) && ws[|es|] == w && Avoids(ws, es, bad);
    var ws', es' := ws + [Next(cfg, {k}, w, e)], es + [e];
    forall j | 0 <= j < |es'|
      ensures Possible(cfg, {k}, ws'[j], es'[j]) && ws'[j + 1] == Next(cfg, {k}, ws'[j], es'[j]) && !bad(ws'[j], es'[j])
    {
      if j < |es| {
        assert ws'[j] == ws[j] && ws'[j + 1] == ws[j + 1] && es'[j] == es[j];
      }
    }
    assert ws'[0] == ws[0];
    assert Run(cfg, {k}, ws', es') && ws'[|es'|] == Next(cfg, {k}, w, e) && Avoids(ws', es', bad);
  }

  /** A reachable world of the small cluster, and the state of `k` in it. */
  ghost predicate At(cfg: Config, k: Key, bad: (World, Event) -> bool, w: World, ing: Ingress) {
    && Reaches(cfg, k, bad, w) && Inv(cfg, {k}, w) && AllCanonical(cfg, w.server) && Population(cfg, w.server, k)
    && k in w.server.ingresses && w.server.ingresses[k].ing == ing && IngressKey(ing) == k && !IsEndpointProbe(ing)
  }

  /** The caches show exactly what is stored. */
  ghost predicate SyncedAll(w: World) {
    && (forall p :: p in w.views.proxies <==> KeyOf(p) in w.server.proxies && w.server.proxies[KeyOf(p)] == p)
    && w.views.ingresses == w.server.ingresses
  }

  // ---- The beginning ---------------------------------------------------------------

  lemma Begin(cfg: Config, k: Key, bad: (World, Event) -> bool, ing: Ingress) returns (w: World)
    requires Small(cfg) && IngressKey(ing) == k && !IsEndpointProbe(ing) && ing.generation == 1 && Admitted(ing.spec)
    ensures At(cfg, k, bad, w, ing) && SyncedAll(w) && Init(cfg, {k}, w) && Begins(w, k)
    ensures w.server.proxies == map[] && w.server.ingresses == map[k := IngressObject(ing, INITIAL_STATUS, 0)]
  {
    SmallNames(cfg, k);
    SmallFree(cfg);
    var o := IngressObject(ing, INITIAL_STATUS, 0);
    w := World(Server(map[], {}, map[k := o], {o}, 1), Views([], map[k := o]));
    hide Small, ChildKey, Admitted;
    StartBeginsRun(cfg, k, o, w);
    hide Init, WellNamed;
    InitInv(cfg, {k}, w);
    hide Inv;
    var ws, es := [w], [];
    assert Run(cfg, {k}, ws, es) && ws[|es|] == w && Avoids(ws, es, bad);
  }

  // ---- Events ----------------------------------------------------------------------

  /** Any event keeps the scene, if it keeps the population and is not bad. */
  lemma SceneNext(cfg: Config, k: Key, bad: (World, Event) -> bool, w: World, ing: Ingress, e: Event)
    requires Small(cfg) && At(cfg, k, bad, w, ing) && Possible(cfg, {k}, w, e) && !bad(w, e)
    requires Population(cfg, Next(cfg, {k}, w, e).server, k)
    ensures k in Next(cfg, {k}, w, e).server.ingresses
    ensures w.server.seenIngresses <= Next(cfg, {k}, w, e).server.seenIngresses
    ensures Reaches(cfg, k, bad, Next(cfg, {k}, w, e)) && Inv(cfg, {k}, Next(cfg, {k}, w, e))
    ensures AllCanonical(cfg, Next(cfg, {k}, w, e).server)
    ensures !e.EditsSpec? ==> At(cfg, k, bad, Next(cfg, {k}, w, e), ing)
  {
    SmallNames(cfg, k);
    hide Small, Inv, Possible, Next, AllCanonical, Population, WellNamed, Reaches;
    ReachesNext(cfg, k, bad, w, e);
    SceneFacts(cfg, k, w, e);
  }

  lemma SceneFacts(cfg: Config, k: Key, w: World, e: Event)
    requires WellNamed(cfg, {k}) && Inv(cfg, {k}, w) && AllCanonical(cfg, w.server) && Possible(cfg, {k}, w, e)
    ensures var t := Next(cfg, {k}, w, e);
            && Inv(cfg, {k}, t) && AllCanonical(cfg, t.server)
            && k in w.server.ingresses && k in t.server.ingresses && w.server.seenIngresses <= t.server.seenIngresses
            && (!e.EditsSpec? ==> t.server.ingresses[k].ing == w.server.ingresses[k].ing)
  {
    hide Inv, AllCanonical, WellNamed, Step, Faithful;
    NextInvNamed(cfg, k, w, e);
    NextCanonical(cfg, {k}, w, e);
    GenerationGrows(cfg, {k}, w, e, k);
  }

  lemma NextInvNamed(cfg: Config, k: Key, w: World, e: Event)
    requires WellNamed(cfg, {k}) && Inv(cfg, {k}, w) && Possible(cfg, {k}, w, e)
    ensures Inv(cfg, {k}, Next(cfg, {k}, w, e))
  {
    hide Inv, Possible, Next, CollisionFree, TopNames;
    NextInv(cfg, {k}, w, e);
  }

  lemma {:induction false} ListAll(m: map<Key, HTTPProxy>) returns (l: seq<HTTPProxy>)
    ensures forall p :: p in l <==> exists x :: x in m && m[x] == p
    decreases |m|
  {
    if m == map[] {
      l := [];
    } else {
      var x :| x in m;
      var rest := m - {x};
      assert forall y :: y in m <==> y == x || y in rest;
      var l' := ListAll(rest);
      l := [m[x]] + l';
      forall p
        ensures p in l <==> exists y :: y in m && m[y] == p
      {
        if y :| y in m && m[y] == p {
          assert y == x || (y in rest && rest[y] == p);
        }
      }
    }
  }

  /** Both caches catch up. */
  lemma SyncUp(cfg: Config, k: Key, bad: (World, Event) -> bool, w: World, ing: Ingress) returns (v: World)
    requires Small(cfg) && At(cfg, k, bad, w, ing) && BadOnlyAt(bad, k)
    ensures At(cfg, k, bad, v, ing) && SyncedAll(v) && v.server == w.server
  {
    hide Small, Inv, AllCanonical, Population, Reaches, IngressHistory, ProxyHistory, ViewsSeen, ObservedBounded, KeyOf,
         Faithful, BadOnlyAt;
    InvHistories(cfg, k, w);
    var listing := FullListing(w.server);
    var u := Refreshes(cfg, k, bad, w, ing, RefreshesProxies(listing));
    v := SyncIngresses(cfg, k, bad, u, ing);
  }

  lemma FullListing(s: Server) returns (listing: seq<HTTPProxy>)
    requires ProxyHistory(s)
    ensures forall p :: p in listing <==> KeyOf(p) in s.proxies && s.proxies[KeyOf(p)] == p
    ensures forall p :: p in listing ==> p in s.seen
  {
    listing := ListAll(s.proxies);
  }

  /** A cache refresh. */
  lemma Refreshes(cfg: Config, k: Key, bad: (World, Event) -> bool, w: World, ing: Ingress, e: Event) returns (v: World)
    requires Small(cfg) && At(cfg, k, bad, w, ing) && BadOnlyAt(bad, k) && Possible(cfg, {k}, w, e)
    requires e.RefreshesProxies? || e.RefreshesIngresses?
    ensures At(cfg, k, bad, v, ing)
    ensures v == World(w.server, if e.RefreshesProxies? then w.views.(proxies := e.listing)
                       else w.views.(ingresses := e.index))
  {
    hide Small, Inv, AllCanonical, Population, Reaches, Faithful;
    v := Next(cfg, {k}, w, e);
    assert v.server == w.server;
    SceneNext(cfg, k, bad, w, ing, e);
  }

  /** The ingress cache alone catches up. */
  lemma SyncIngresses(cfg: Config, k: Key, bad: (World, Event) -> bool, w: World, ing: Ingress) returns (v: World)
    requires Small(cfg) && At(cfg, k, bad, w, ing) && BadOnlyAt(bad, k)
    ensures At(cfg, k, bad, v, ing) && v == World(w.server, w.views.(ingresses := w.server.ingresses))
  {
    InvHistories(cfg, k, w);
    hide Small, Inv, AllCanonical, Population, Reaches, IngressHistory, ProxyHistory, ViewsSeen, ObservedBounded,
         BadOnlyAt;
    IndexPossible(cfg, k, w);
    v := Refreshes(cfg, k, bad, w, ing, RefreshesIngresses(w.server.ingresses));
  }

  lemma IndexPossible(cfg: Config, k: Key, w: World)
    requires IngressHistory(w.server)
    ensures Possible(cfg, {k}, w, RefreshesIngresses(w.server.ingresses))
  {
  }

  lemma InvHistories(cfg: Config, k: Key, w: World)
    requires Inv(cfg, {k}, w)
    ensures ProxyHistory(w.server) && IngressHistory(w.server) && ViewsSeen(w.server, w.views)
    ensures ObservedBounded(w.server)
  {
    hide AllShaped, AllTidy;
  }

  /** A reconcile of `k` or its child. */
  lemma Reconciled(cfg: Config, k: Key, bad: (World, Event) -> bool, w: World, ing: Ingress, r: Key, env: Environment)
    requires Small(cfg) && At(cfg, k, bad, w, ing) && r in w.server.ingresses && !bad(w, Reconciles(r, env))
    requires Faithful(cfg, w.server.ingresses[r].ing, env) && Suits(cfg, w.server.ingresses[r].ing, k, env.desired)
    ensures At(cfg, k, bad, w.(server := Step(cfg, w.server, w.views, r, env)), ing)
    ensures w.server.seenIngresses <= Step(cfg, w.server, w.views, r, env).seenIngresses
  {
    InvHistories(cfg, k, w);
    hide Small, Inv, AllCanonical, Population, Reaches, Suits, Faithful, Step;
    PopulationStep(cfg, w.server, w.views, k, r, env);
    SceneNext(cfg, k, bad, w, ing, Reconciles(r, env));
  }

  // ---- Ingresses of the small cluster ----------------------------------------------

  ghost predicate One(cfg: Config, ing: Ingress, hosts: seq<string>, service: string) {
    SmallSpec(ing.spec, hosts, service) && |hosts| <= 1 && forall h :: h in hosts ==> Plain(cfg, h)
  }

  ghost function Yes(): nat -> Reply {
    n => Accept
  }

  lemma WantsChild(cfg: Config, k: Key, bad: (World, Event) -> bool, w: World, ing: Ingress, hosts: seq<string>,
                   service: string)
    requires At(cfg, k, bad, w, ing) && One(cfg, ing, hosts, service)
    ensures ChildSpec(cfg, ing, OlderProxies(w.views.proxies, ing)) == WantedChild(ing, service)
  {
    InvHistories(cfg, k, w);
    hide ChildSpec, SmallSpec, WantedChild, Inv, AllCanonical, Reaches, Plain, IngressHistory, ProxyHistory;
    forall p | p in OlderProxies(w.views.proxies, ing)
      ensures p.status != "valid"
    {
      assert p in w.server.seen;
    }
    SmallSpecChild(cfg, ing, hosts, service, OlderProxies(w.views.proxies, ing));
  }

  /** The environment of `k`, and the calm it meets once the caches have caught up. */
  lemma SceneCalm(cfg: Config, k: Key, bad: (World, Event) -> bool, w: World, ing: Ingress, hosts: seq<string>,
                  service: string, reply: nat -> Reply, probe: ProbeAnswer)
    requires Small(cfg) && At(cfg, k, bad, w, ing) && One(cfg, ing, hosts, service) && SyncedAll(w)
    ensures var env := Env(cfg, ing, service, reply, probe);
            && Faithful(cfg, ing, env) && Suits(cfg, ing, k, env.desired) && ServicesKnown(ing, env.services)
            && |env.desired| == |hosts|
            && Calm(cfg, w.server, w.views, k, env.desired)
  {
    hide Small, Env, Inv, AllCanonical, Population, Reaches, Suits, Faithful, Plain, SmallSpec, Separate, Targets,
         ServicesKnown, IngressHistory, ProxyHistory, ViewsSeen, ObservedBounded, WellNamed, Unclaimed, ChildKey, Calm;
    var env := Env(cfg, ing, service, reply, probe);
    SmallNames(cfg, k);
    InvHistories(cfg, k, w);
    EnvFits(cfg, ing, k, hosts, service, reply, probe);
    NamesFree(cfg, w.server, k, ing, env.desired);
    CalmInRuns(cfg, {k}, w, k, env);
  }

  lemma ChildElsewhere(cfg: Config, k: Key)
    requires Small(cfg)
    ensures ChildKey(cfg, k) != k
  {
    SmallNames(cfg, k);
    hide Small, WellNamed;
  }

  /** Such reconciles, and those of the child, are the ones that convergence asks for. */
  lemma SceneDrives(cfg: Config, k: Key, bad: (World, Event) -> bool, w: World, ing: Ingress, hosts: seq<string>,
                    service: string)
    requires Small(cfg) && At(cfg, k, bad, w, ing) && One(cfg, ing, hosts, service) && SyncedAll(w)
    ensures var env := Env(cfg, ing, service, Yes(), ProbeReady);
            DrivesParent(cfg, w, Reconciles(k, env), k, env.desired)
  {
    hide Small, Inv, AllCanonical, Population, Reaches, Suits, Faithful, Plain, SmallSpec, ServicesKnown, Unclaimed,
         ChildKey, Calm, Targets, Separate, Compile, Protocols.IngressProtocols;
    var env := Env(cfg, ing, service, Yes(), ProbeReady);
    InvHistories(cfg, k, w);
    EnvFits(cfg, ing, k, hosts, service, Yes(), ProbeReady);
    NamesFree(cfg, w.server, k, ing, env.desired);
  }

  /** The hosts of the wanted child. */
  ghost function ChildHosts(ing: Ingress, service: string): seq<string> {
    if WantedChild(ing, service) == NO_SPEC then [] else [ProbeHost(ing, service)]
  }

  lemma ChildScene(cfg: Config, k: Key, bad: (World, Event) -> bool, w: World, ing: Ingress, a: Ingress,
                   service: string)
    requires Small(cfg) && At(cfg, k, bad, w, ing) && ChildHas(cfg, w.server, k, WantedChild(a, service))
    ensures var child := w.server.ingresses[ChildKey(cfg, k)].ing;
            && IngressKey(child) == ChildKey(cfg, k) && IsEndpointProbe(child)
            && One(cfg, child, ChildHosts(a, service), service)
  {
    SmallNames(cfg, k);
    PlainProbeHost(cfg, a, service);
    WantedIsSmall(a, service);
    hide Small, Plain, WantedChild, SmallSpec, ChildKey, AllCanonical, Population, Reaches, AllTidy, ProxyHistory;
    TouchedChild(cfg, {k}, w.server, w.views, ChildKey(cfg, k));
  }

  lemma WantedIsSmall(a: Ingress, service: string)
    ensures SmallSpec(WantedChild(a, service), ChildHosts(a, service), service)
  {
    hide ProbeHost;
    assert OneSpec([ProbeHost(a, service)], service) == PrefixSpec([ProbeHost(a, service)], service, "");
  }

  // ---- Steps -----------------------------------------------------------------------

  /** The gate is closed: the child is brought up to date. */
  lemma WaitStep(cfg: Config, k: Key, bad: (World, Event) -> bool, w: World, ing: Ingress, hosts: seq<string>,
                 service: string, probe: ProbeAnswer)
    returns (v: World)
    requires Small(cfg) && At(cfg, k, bad, w, ing) && One(cfg, ing, hosts, service)
    requires w.views.ingresses == w.server.ingresses && CurrentProxies(w.views.proxies, ing) == []
    requires !(ChildHas(cfg, w.server, k, WantedChild(ing, service)) && ChildReady(cfg, w.server, k))
    requires !bad(w, Reconciles(k, Env(cfg, ing, service, Yes(), probe)))
    ensures At(cfg, k, bad, v, ing) && v.views == w.views
    ensures v.server.proxies == w.server.proxies && ChildHas(cfg, v.server, k, WantedChild(ing, service))
    ensures v.server == Step(cfg, w.server, w.views, k, Env(cfg, ing, service, Yes(), probe))
    ensures w.server.seenIngresses <= v.server.seenIngresses
    ensures w.server.ingresses[k].status.loadBalancer != IsTrue ==> v.server.ingresses[k].status.loadBalancer != IsTrue
  {
    var env := Env(cfg, ing, service, Yes(), probe);
    EnvFits(cfg, ing, k, hosts, service, Yes(), probe);
    WantsChild(cfg, k, bad, w, ing, hosts, service);
    SmallNames(cfg, k);
    v := w.(server := Step(cfg, w.server, w.views, k, env));
    InvHistories(cfg, k, w);
    assert AllAccepted(env);
    hide Small, Env, Inv, AllCanonical, Population, Reaches, Suits, Faithful, One, ServicesKnown, IngressHistory,
         ProxyHistory, ObservedBounded, CollisionFree, ChildKey, WantedChild, Step, ChildSpec, CurrentProxies,
         OlderProxies, ViewsSeen, Separate, Targets, AllAccepted;
    Reconciled(cfg, k, bad, w, ing, k, env);
    WaitEffect(cfg, w.server, w.views, k, env);
  }

  lemma WaitEffect(cfg: Config, s: Server, views: Views, k: Key, env: Environment)
    requires IngressHistory(s) && ViewsSeen(s, views) && ObservedBounded(s) && k in s.ingresses
    requires IngressKey(s.ingresses[k].ing) == k
    requires !IsEndpointProbe(s.ingresses[k].ing) && ChildKey(cfg, k) != k && views.ingresses == s.ingresses
    requires AllAccepted(env)
    requires CurrentProxies(views.proxies, s.ingresses[k].ing) == []
    requires var want := ChildSpec(cfg, s.ingresses[k].ing, OlderProxies(views.proxies, s.ingresses[k].ing));
             !(ChildHas(cfg, s, k, want) && ChildReady(cfg, s, k))
    ensures var t, want := Step(cfg, s, views, k, env), ChildSpec(cfg, s.ingresses[k].ing,
                                                            OlderProxies(views.proxies, s.ingresses[k].ing));
            && t.proxies == s.proxies && ChildHas(cfg, t, k, want)
            && k in t.ingresses
            && (s.ingresses[k].status.loadBalancer != IsTrue ==> t.ingresses[k].status.loadBalancer != IsTrue)
            && (s.ingresses[k].status.ready != IsTrue ==> Attempt(cfg, s, views, k, env).status.ready != IsTrue)
  {
    var ing := s.ingresses[k].ing;
    hide IngressHistory, ObservedBounded, ViewsSeen, ChildKey, RunGate, Kind, Step, ChildSpec, CurrentProxies,
         OlderProxies, AllAccepted;
    ClosedScene(cfg, s, views, ing, env);
    GateBringsChild(cfg, s, views, ing, env);
    ClosedKind(cfg, s, views, ing, PreProcess(s.ingresses[k].status, ing.generation), env);
    ClosedStatus(cfg, s, views, ing, PreProcess(s.ingresses[k].status, ing.generation), env);
    StatusArrives(cfg, s, views, k, env);
    StatusWriteKeepsProxies(cfg, s, views, k, env);
  }

  lemma ClosedStatus(cfg: Config, s: Server, views: Views, ing: Ingress, status: Status, env: Environment)
    requires !RunGate(cfg, s, views, ing, env).verdict.Open?
    ensures Kind(cfg, s, views, ing, status, env).status in {status,
                                                            MarkIngressNotReady(MarkLoadBalancerNotReady(status))}
  {
    hide RunGate, Program, Conclude;
  }

  lemma ClosedScene(cfg: Config, s: Server, views: Views, ing: Ingress, env: Environment)
    requires IngressHistory(s) && ViewsSeen(s, views) && ObservedBounded(s) && !IsEndpointProbe(ing)
    requires CurrentProxies(views.proxies, ing) == [] && views.ingresses == s.ingresses
    requires !(ChildHas(cfg, s, IngressKey(ing), ChildSpec(cfg, ing, OlderProxies(views.proxies, ing)))
               && ChildReady(cfg, s, IngressKey(ing)))
    ensures !RunGate(cfg, s, views, ing, env).verdict.Open?
  {
    hide RunGate, ChildSpec, ChildKey, IngressHistory, ViewsSeen, ObservedBounded, CurrentProxies, OlderProxies;
    if RunGate(cfg, s, views, ing, env).verdict.Open? {
      OpenGate(cfg, s, views, ing, env);
    }
  }

  /** The child is reconciled and becomes ready; nothing changes for `k`. */
  lemma ChildStep(cfg: Config, k: Key, bad: (World, Event) -> bool, w: World, ing: Ingress, a: Ingress, service: string)
    returns (v: World)
    requires Small(cfg) && At(cfg, k, bad, w, ing) && BadOnlyAt(bad, k)
    requires ChildHas(cfg, w.server, k, WantedChild(a, service))
    requires Synced(w.server, w.views.proxies, w.server.ingresses[ChildKey(cfg, k)].ing)
    ensures At(cfg, k, bad, v, ing) && v.views == w.views
    ensures var child := w.server.ingresses[ChildKey(cfg, k)].ing;
            v.server == Step(cfg, w.server, w.views, ChildKey(cfg, k), Env(cfg, child, service, Yes(), ProbeReady))
    ensures w.server.seenIngresses <= v.server.seenIngresses
    ensures Helps(cfg, w.server, v.server, k) && ChildHas(cfg, v.server, k, WantedChild(a, service))
    ensures ChildReady(cfg, v.server, k)
  {
    var env := Env(cfg, w.server.ingresses[ChildKey(cfg, k)].ing, service, Yes(), ProbeReady);
    ChildDriven(cfg, k, bad, w, ing, a, service);
    SmallNames(cfg, k);
    v := w.(server := Step(cfg, w.server, w.views, ChildKey(cfg, k), env));
    hide Small, Env, Inv, AllCanonical, Population, Reaches, Suits, Faithful, WantedChild, Step, ChildKey, Synced,
         Reported, WellNamed, DrivesChild;
    Reconciled(cfg, k, bad, w, ing, ChildKey(cfg, k), env);
    ChildStepHelps(cfg, {k}, w, Reconciles(ChildKey(cfg, k), env), k);
  }

  lemma ChildDriven(cfg: Config, k: Key, bad: (World, Event) -> bool, w: World, ing: Ingress, a: Ingress,
                    service: string)
    requires Small(cfg) && At(cfg, k, bad, w, ing) && ChildHas(cfg, w.server, k, WantedChild(a, service))
    requires Synced(w.server, w.views.proxies, w.server.ingresses[ChildKey(cfg, k)].ing)
    ensures var ck := ChildKey(cfg, k);
            var child := w.server.ingresses[ck].ing;
            var env := Env(cfg, child, service, Yes(), ProbeReady);
            && ck != k && Faithful(cfg, child, env) && Suits(cfg, child, k, env.desired)
            && DrivesChild(cfg, w, Reconciles(ck, env), k)
  {
    var ck := ChildKey(cfg, k);
    var child := w.server.ingresses[ck].ing;
    var env := Env(cfg, child, service, Yes(), ProbeReady);
    ChildScene(cfg, k, bad, w, ing, a, service);
    SmallNames(cfg, k);
    InvHistories(cfg, k, w);
    EnvFits(cfg, child, k, ChildHosts(a, service), service, Yes(), ProbeReady);
    assert AllAccepted(env) && env.probe == ProbeReady;
    hide Small, Env, Inv, AllCanonical, Population, Reaches, Suits, Faithful, One, ServicesKnown, IngressHistory,
         ProxyHistory, ObservedBounded, ViewsSeen, WantedChild, ChildKey, Separate, Targets, Synced, Unclaimed,
         AllAccepted, CollisionFree, ChildHosts;
    NamesFree(cfg, w.server, k, child, env.desired);
  }

  /** The gate is open: with synced caches the rollout goes through. */
  lemma OpenScene(cfg: Config, k: Key, bad: (World, Event) -> bool, w: World, ing: Ingress, hosts: seq<string>,
                  service: string, env: Environment)
    requires Small(cfg) && At(cfg, k, bad, w, ing) && One(cfg, ing, hosts, service)
    requires w.views.ingresses == w.server.ingresses
    requires ChildHas(cfg, w.server, k, WantedChild(ing, service)) && ChildReady(cfg, w.server, k)
    ensures RunGate(cfg, w.server, w.views, ing, env).verdict.Open?
  {
    WantsChild(cfg, k, bad, w, ing, hosts, service);
    hide Small, Inv, AllCanonical, Population, Reaches, One, ChildKey, WantedChild, ChildSpec, CurrentProxies,
         OlderProxies;
  }

  /** The edit of the spec of `k`. */
  lemma EditStep(cfg: Config, k: Key, bad: (World, Event) -> bool, w: World, ing: Ingress,
                 spec: IngressSpec) returns (v: World)
    requires Small(cfg) && At(cfg, k, bad, w, ing) && BadOnlyAt(bad, k) && spec != ing.spec
    ensures At(cfg, k, bad, v, ing.(spec := spec, generation := ing.generation + 1)) && v.views == w.views
    ensures v.server.proxies == w.server.proxies && v.server.ingresses[k].status == w.server.ingresses[k].status
    ensures v.server.ingresses.Keys == w.server.ingresses.Keys
    ensures forall x :: x in w.server.ingresses && x != k ==> v.server.ingresses[x] == w.server.ingresses[x]
    ensures w.server.seenIngresses <= v.server.seenIngresses
    ensures !Rolled(v.server, k, ing.generation + 1)
  {
    hide Small, Inv, AllCanonical, Reaches, Rolled, Next, Possible, Population, BadOnlyAt;
    EditEffect(cfg, k, w, spec);
    NothingNewer(cfg, k, w, ing);
    NotBad(bad, k, w, EditsSpec(k, spec));
    v := Next(cfg, {k}, w, EditsSpec(k, spec));
    PopulationEdit(cfg, w.server, v.server, k);
    SceneNext(cfg, k, bad, w, ing, EditsSpec(k, spec));
    SameRolledProxies(w.server, v.server, k, ing.generation + 1);
  }

  lemma EditEffect(cfg: Config, k: Key, w: World, spec: IngressSpec)
    requires k in w.server.ingresses && IngressKey(w.server.ingresses[k].ing) == k
    requires spec != w.server.ingresses[k].ing.spec
    ensures Possible(cfg, {k}, w, EditsSpec(k, spec))
    ensures var s, v := w.server, Next(cfg, {k}, w, EditsSpec(k, spec));
            var t := v.server;
            && v.views == w.views && t.proxies == s.proxies && t.seen == s.seen && t.ingresses.Keys == s.ingresses.Keys
            && t.ingresses[k].ing == s.ingresses[k].ing.(spec := spec, generation := s.ingresses[k].ing.generation + 1)
            && t.ingresses[k].status == s.ingresses[k].status
            && (forall x :: x in s.ingresses && x != k ==> t.ingresses[x] == s.ingresses[x])
  {
  }

  lemma PopulationEdit(cfg: Config, s: Server, t: Server, k: Key)
    requires Population(cfg, s, k) && s.seen == t.seen
    ensures Population(cfg, t, k)
  {
    hide ChildKey;
  }

  lemma NothingNewer(cfg: Config, k: Key, w: World, ing: Ingress)
    requires Inv(cfg, {k}, w) && k in w.server.ingresses && w.server.ingresses[k].ing == ing && IngressKey(ing) == k
    ensures !Rolled(w.server, k, ing.generation + 1)
  {
    hide AllShaped, IngressHistory, ViewsSeen, ObservedBounded, Canonical, Targets;
    assert Tidy(cfg, w.server, ing);
  }

  /** No proxy of the generation is stored, so none is listed. */
  lemma NoneCurrent(w: World, ing: Ingress)
    requires SyncedAll(w) && !Rolled(w.server, IngressKey(ing), ing.generation)
    ensures CurrentProxies(w.views.proxies, ing) == []
  {
    var current := CurrentProxies(w.views.proxies, ing);
    assert current != [] ==> Labelled(current[0], IngressKey(ing), ing.generation);
  }

  lemma SyncedForAll(w: World, ing: Ingress)
    requires SyncedAll(w)
    ensures Synced(w.server, w.views.proxies, ing)
  {
  }

  /** The gate is open and everything cooperates: the ingress settles. */
  lemma SettleStep(cfg: Config, k: Key, bad: (World, Event) -> bool, w: World, ing: Ingress, hosts: seq<string>,
                   service: string)
    returns (v: World)
    requires Small(cfg) && At(cfg, k, bad, w, ing) && One(cfg, ing, hosts, service) && SyncedAll(w)
    requires ChildHas(cfg, w.server, k, WantedChild(ing, service)) && ChildReady(cfg, w.server, k)
    requires !bad(w, Reconciles(k, Env(cfg, ing, service, Yes(), ProbeReady)))
    ensures At(cfg, k, bad, v, ing) && v.views == w.views
    ensures v.server == Step(cfg, w.server, w.views, k, Env(cfg, ing, service, Yes(), ProbeReady))
    ensures Settled(cfg, v.server, k, Env(cfg, ing, service, Yes(), ProbeReady).desired)
  {
    hide Small, Inv, AllCanonical, Population, Reaches, One, Suits, Faithful, WantedChild, ChildKey, Calm, Settled,
         Step, RunGate, ServicesKnown, Protocols.IngressProtocols, Compile;
    var env := Env(cfg, ing, service, Yes(), ProbeReady);
    SceneCalm(cfg, k, bad, w, ing, hosts, service, Yes(), ProbeReady);
    OpenScene(cfg, k, bad, w, ing, hosts, service, env);
    Reconciled(cfg, k, bad, w, ing, k, env);
    v := w.(server := Step(cfg, w.server, w.views, k, env));
    OpenGateSettles(cfg, w.server, w.views, k, env, env.desired);
  }

  function Simple(k: Key, generation: nat, host: string, service: string): Ingress {
    Ingress(k.ns, k.name, generation, map[], OneSpec([host], service))
  }

  lemma SimpleIsOne(cfg: Config, k: Key, generation: nat, front: string, service: string)
    requires Small(cfg)
    ensures var ing := Simple(k, generation, front + ".example", service);
            One(cfg, ing, [front + ".example"], service) && IngressKey(ing) == k && !IsEndpointProbe(ing)
  {
    PlainHost(cfg, front);
    hide Small, Plain;
    assert OneSpec([front + ".example"], service) == PrefixSpec([front + ".example"], service, "");
  }

  // ---- Rounds ----------------------------------------------------------------------

  /** From a world without child and without proxies of the generation, the child is created and
      reconciled, and the caches catch up. */
  lemma ProbeRound(cfg: Config, k: Key, bad: (World, Event) -> bool, w: World, ing: Ingress, hosts: seq<string>,
                   service: string, probe: ProbeAnswer)
    returns (v: World)
    requires Small(cfg) && At(cfg, k, bad, w, ing) && One(cfg, ing, hosts, service) && SyncedAll(w) && BadOnlyAt(bad, k)
    requires !Rolled(w.server, k, ing.generation) && ChildKey(cfg, k) !in w.server.ingresses
    requires !bad(w, Reconciles(k, Env(cfg, ing, service, Yes(), probe)))
    ensures At(cfg, k, bad, v, ing) && SyncedAll(v) && !Rolled(v.server, k, ing.generation)
    ensures NoneOf(w.server, ing) ==> NoneOf(v.server, ing)
    ensures OldKept(w.server, v.server, ing) && w.server.seenIngresses <= v.server.seenIngresses
    ensures w.server.ingresses[k].status.loadBalancer != IsTrue ==> v.server.ingresses[k].status.loadBalancer != IsTrue
    ensures ChildHas(cfg, v.server, k, WantedChild(ing, service)) && ChildReady(cfg, v.server, k)
  {
    hide Small, One, WantedChild, Inv, AllCanonical, Population, Reaches, BadOnlyAt, Rolled, Env, ChildKey,
         CurrentProxies, Step, SyncedAll, OfParent, OldKept;
    NoneCurrent(w, ing);
    SyncedIndex(w);
    var a := WaitStep(cfg, k, bad, w, ing, hosts, service, probe);
    SameRolledProxies(w.server, a.server, k, ing.generation);
    OldSame(w.server, a.server, ing);
    v := ChildRound(cfg, k, bad, a, ing, service);
    OldTransitive(w.server, a.server, v.server, ing);
  }

  lemma SyncedIndex(w: World)
    requires SyncedAll(w)
    ensures w.views.ingresses == w.server.ingresses
  {
  }

  /** The proxies of the ingress, if any, all serve this host. */
  ghost predicate AllServe(s: Server, ing: Ingress, host: string) {
    forall x :: x in s.proxies && OfParent(s.proxies[x], ing) ==> s.proxies[x].spec.fqdn == host
  }

  /** The proxies of the ingress serve the same hosts, and no older generation is lost. */
  ghost predicate OldKept(s: Server, t: Server, ing: Ingress) {
    && (forall host :: AllServe(s, ing, host) ==> AllServe(t, ing, host))
    && (forall g :: g != ing.generation && Rolled(s, IngressKey(ing), g) ==> Rolled(t, IngressKey(ing), g))
  }

  lemma OldSame(s: Server, t: Server, ing: Ingress)
    requires s.proxies == t.proxies
    ensures OldKept(s, t, ing)
  {
  }

  lemma OldTransitive(s: Server, t: Server, u: Server, ing: Ingress)
    requires OldKept(s, t, ing) && OldKept(t, u, ing)
    ensures OldKept(s, u, ing)
  {
    hide AllServe, Rolled;
  }

  lemma OldReported(s: Server, t: Server, ing: Ingress)
    requires Reported(s, t, ing)
    ensures OldKept(s, t, ing)
  {
    forall g | g != ing.generation && Rolled(s, IngressKey(ing), g)
      ensures Rolled(t, IngressKey(ing), g)
    {
      var x :| x in s.proxies && Labelled(s.proxies[x], IngressKey(ing), g);
      assert Labelled(t.proxies[x], IngressKey(ing), g);
    }
  }

  /** The server has no proxy of the ingress. */
  ghost predicate NoneOf(s: Server, ing: Ingress) {
    forall x :: x in s.proxies ==> !OfParent(s.proxies[x], ing)
  }

  lemma NoneReported(s: Server, t: Server, ing: Ingress)
    requires Reported(s, t, ing)
    ensures NoneOf(s, ing) ==> NoneOf(t, ing)
  {
  }

  /** The caches catch up, the child is reconciled, and the caches catch up again. */
  lemma ChildRound(cfg: Config, k: Key, bad: (World, Event) -> bool, w: World, ing: Ingress, service: string)
    returns (v: World)
    requires Small(cfg) && At(cfg, k, bad, w, ing) && BadOnlyAt(bad, k)
    requires ChildHas(cfg, w.server, k, WantedChild(ing, service))
    ensures At(cfg, k, bad, v, ing) && SyncedAll(v)
    ensures Rolled(v.server, k, ing.generation) <==> Rolled(w.server, k, ing.generation)
    ensures NoneOf(w.server, ing) ==> NoneOf(v.server, ing)
    ensures OldKept(w.server, v.server, ing) && w.server.seenIngresses <= v.server.seenIngresses
    ensures ChildHas(cfg, v.server, k, WantedChild(ing, service)) && ChildReady(cfg, v.server, k)
    ensures v.server.ingresses[k].status == w.server.ingresses[k].status
  {
    hide Small, WantedChild, Inv, AllCanonical, Population, Reaches, BadOnlyAt, Rolled, ChildKey, SyncedAll, Reported,
         NoneOf, OldKept;
    var b := SyncUp(cfg, k, bad, w, ing);
    SyncedForAll(b, b.server.ingresses[ChildKey(cfg, k)].ing);
    var c := ChildStep(cfg, k, bad, b, ing, ing, service);
    KeptRolled(b.server, c.server, ing);
    NoneReported(b.server, c.server, ing);
    OldReported(b.server, c.server, ing);
    v := SyncUp(cfg, k, bad, c, ing);
  }

  lemma EnvReply(cfg: Config, ing: Ingress, service: string, reply: nat -> Reply, probe: ProbeAnswer)
    ensures Env(cfg, ing, service, reply, probe).reply == reply && Env(cfg, ing, service, reply, probe).probe == probe
  {
    hide Compile;
  }

  lemma EnvFitsOne(cfg: Config, ing: Ingress, k: Key, hosts: seq<string>, service: string, reply: nat -> Reply,
                   probe: ProbeAnswer)
    requires Small(cfg) && IngressKey(ing) == k && One(cfg, ing, hosts, service)
    ensures var env := Env(cfg, ing, service, reply, probe);
            Faithful(cfg, ing, env) && ServicesKnown(ing, env.services) && Suits(cfg, ing, k, env.desired)
  {
    hide Small, Plain, SmallSpec, Env, Faithful, ServicesKnown, Suits, ChildKey, Separate;
    EnvFits(cfg, ing, k, hosts, service, reply, probe);
  }

  lemma ExactRolled(t: Server, ing: Ingress, ds: seq<HTTPProxy>)
    requires Exact(t, ing, ds) && ds != [] && forall d :: d in ds ==> Own(d, ing)
    ensures Rolled(t, IngressKey(ing), ing.generation)
  {
    var d := ds[0];
    assert d in ds && Own(d, ing);
    HeldIsOwn(t.proxies[KeyOf(d)], d, ing);
    assert Labelled(t.proxies[KeyOf(d)], IngressKey(ing), ing.generation);
  }

  lemma NothingStored(s: Server, k: Key, generation: nat)
    requires s.proxies == map[]
    ensures !Rolled(s, k, generation)
  {
  }
}
