/** A reconcile that reads an outdated copy of its own ingress: exactly when it deletes proxies of
    the newer generation, and a run that ends in such a state. */
module StaleSelf {
  import opened Model
  import opened EndpointProbe
  import opened Conditions
  import opened Cluster
  import opened Reconcile
  import opened Framing
  import opened Rollout
  import opened Steps
  import opened Worlds
  import opened Histories
  import opened Lifetime
  import opened ChildOrigin
  import opened Convergence
  import opened Cooperation
  import opened Scenario
  import opened Stage
  import opened Unrest
  import opened Blindness

  // ---- The condition ---------------------------------------------------------------

  /** The stored proxy is still there, unchanged. */
  ghost predicate Kept(s: Server, t: Server, x: Key)
    requires x in s.proxies
  {
    x in t.proxies && t.proxies[x] == s.proxies[x]
  }

  /** The gate lets this copy of the ingress pass, as far as the caches show. */
  ghost predicate Passes(cfg: Config, views: Views, a: Ingress) {
    IsEndpointProbe(a) || CurrentProxies(views.proxies, a) != [] || GateOpens(cfg, views, a)
  }

  lemma PassesExactly(cfg: Config, s: Server, views: Views, a: Ingress, env: Environment)
    requires IngressHistory(s) && ViewsSeen(s, views) && ObservedBounded(s)
    ensures RunGate(cfg, s, views, a, env).verdict.Open? <==> Passes(cfg, views, a)
    ensures Passes(cfg, views, a)
         ==> RunGate(cfg, s, views, a, env).server == s && RunGate(cfg, s, views, a, env).calls == 0
  {
    if RunGate(cfg, s, views, a, env).verdict.Open? {
      OpenGate(cfg, s, views, a, env);
    }
    hide ChildSpec, ChildKey, CurrentProxies, OlderProxies, IngressHistory, ViewsSeen, ObservedBounded;
  }

  /** A cache without proxies of other generations keeps the rollout from touching any. */
  lemma UnsweptKept(s: Server, view: seq<HTTPProxy>, a: Ingress, calls: nat, env: Environment, x: Key)
    requires ProxyHistory(s) && (forall p :: p in view ==> p in s.seen) && (forall d :: d in env.desired ==> Own(d, a))
    requires OlderProxies(view, a) == [] && x in Leftovers(s, a)
    ensures x in s.proxies && Kept(s, Program(s, view, a, calls, env).server, x)
  {
    hide ApplyAll, Own, ProxyHistory, OlderProxies;
    BlindAll(s, view, env.desired, calls, env, a, x);
  }

  /** With one, a rollout that goes through deletes or overwrites all of them. */
  lemma SweptLost(s: Server, view: seq<HTTPProxy>, a: Ingress, env: Environment, x: Key)
    requires AllAccepted(env) && Aligned(s, view, env.desired) && Creatable(s, view, env.desired)
    requires DistinctKeys(env.desired)
    requires OlderProxies(view, a) != [] && x in Leftovers(s, a)
    ensures Program(s, view, a, 0, env).ok && x in s.proxies && !Kept(s, Program(s, view, a, 0, env).server, x)
  {
    hide ApplyAll, OlderProxies, Aligned, Creatable, DistinctKeys;
    ApplyAllAccepted(s, view, env.desired, 0, env);
  }

  lemma KindWithout(cfg: Config, s: Server, views: Views, a: Ingress, status: Status, env: Environment, x: Key)
    requires ProxyHistory(s) && IngressHistory(s) && ViewsSeen(s, views) && ObservedBounded(s) && x in Leftovers(s, a)
    requires (forall d :: d in env.desired ==> Own(d, a))
    requires (OlderProxies(views.proxies, a) == [] || !Passes(cfg, views, a))
    ensures x in s.proxies && Kept(s, Kind(cfg, s, views, a, status, env).server, x)
  {
    PassesExactly(cfg, s, views, a, env);
    hide RunGate, Program, Own, ProxyHistory, IngressHistory, ObservedBounded, OlderProxies, Passes, Kind;
    KindProxies(cfg, s, views, a, status, env);
    if Passes(cfg, views, a) {
      UnsweptKept(s, views.proxies, a, 0, env, x);
    }
  }

  lemma KindWith(cfg: Config, s: Server, views: Views, a: Ingress, status: Status, env: Environment, x: Key)
    requires IngressHistory(s) && ViewsSeen(s, views) && ObservedBounded(s) && x in Leftovers(s, a)
    requires Passes(cfg, views, a) && OlderProxies(views.proxies, a) != [] && ServicesKnown(a, env.services)
    requires AllAccepted(env)
    requires Aligned(s, views.proxies, env.desired) && Creatable(s, views.proxies, env.desired)
    requires DistinctKeys(env.desired)
    ensures x in s.proxies && !Kept(s, Kind(cfg, s, views, a, status, env).server, x)
  {
    PassesExactly(cfg, s, views, a, env);
    hide RunGate, Program, IngressHistory, ObservedBounded, OlderProxies, Passes, Kind, Aligned, Creatable,
         DistinctKeys, ServicesKnown;
    KindProxies(cfg, s, views, a, status, env);
    SweptLost(s, views.proxies, a, env, x);
  }

  /** A reconcile that reads the copy `a` of its ingress, and whose rollout is not refused, keeps a
      proxy of another generation, newer ones included, whatever it meets, if and only if its
      proxy cache shows none of another generation or the gate stays closed for that copy. */
  lemma StaleDeletionExactly(cfg: Config, s: Server, views: Views, a: Ingress, status: Status,
                             services: map<string, seq<string>>, ds: seq<HTTPProxy>, x: Key)
    requires ProxyHistory(s) && IngressHistory(s) && ViewsSeen(s, views) && ObservedBounded(s) && x in Leftovers(s, a)
    requires (forall d :: d in ds ==> Own(d, a)) && ServicesKnown(a, services)
    requires Aligned(s, views.proxies, ds) && Creatable(s, views.proxies, ds) && DistinctKeys(ds)
    ensures x in s.proxies
    ensures (forall env: Environment :: env.services == services && env.desired == ds ==>
               Kept(s, Kind(cfg, s, views, a, status, env).server, x))
       <==> OlderProxies(views.proxies, a) == [] || !Passes(cfg, views, a)
  {
    hide Kind, Passes, OlderProxies, Own, ProxyHistory, IngressHistory, ViewsSeen, ObservedBounded, Aligned, Creatable,
         DistinctKeys, ServicesKnown, Kept;
    if OlderProxies(views.proxies, a) == [] || !Passes(cfg, views, a) {
      forall env: Environment | env.services == services && env.desired == ds
        ensures Kept(s, Kind(cfg, s, views, a, status, env).server, x)
      {
        KindWithout(cfg, s, views, a, status, env, x);
      }
    } else {
      var env := Environment(Yes(), {}, ProbeReady, services, ds);
      KindWith(cfg, s, views, a, status, env, x);
    }
  }

  // ---- The run ---------------------------------------------------------------------

  /** The first generation is rolled out, and ready. */
  lemma FirstSettled(cfg: Config, k: Key, front: string, service: string) returns (w: World)
    requires Small(cfg) && service != ""
    ensures At(cfg, k, Never(), w, Simple(k, 1, front + ".example", service)) && ChildKey(cfg, k) !in w.server.ingresses
    ensures AllServe(w.server, Simple(k, 1, front + ".example", service), front + ".example") && Rolled(w.server, k, 1)
  {
    hide Small, One, Admitted, Inv, AllCanonical, Population, Reaches, WantedChild, BadOnlyAt, Rolled, Env, Exact,
         SyncedAll, ChildKey, AllServe, Never, Own, OldKept, NoneOf;
    var host := front + ".example";
    var ing := Simple(k, 1, host, service);
    SimpleIsOne(cfg, k, 1, front, service);
    OneSpecAdmitted([host], service);
    NeverBad(k);
    ChildElsewhere(cfg, k);
    var a := Begin(cfg, k, Never(), ing);
    NothingStored(a.server, k, 1);
    var b := ProbeRound(cfg, k, Never(), a, ing, [host], service, ProbeReady);
    w := SettleStep(cfg, k, Never(), b, ing, [host], service);
    SettledServes(cfg, k, w, ing, host, service);
  }

  lemma SettledServes(cfg: Config, k: Key, w: World, ing: Ingress, host: string, service: string)
    requires Small(cfg) && IngressKey(ing) == k && One(cfg, ing, [host], service) && k in w.server.ingresses
    requires w.server.ingresses[k].ing == ing
    requires Settled(cfg, w.server, k, Env(cfg, ing, service, Yes(), ProbeReady).desired)
    ensures AllServe(w.server, ing, host) && Rolled(w.server, k, ing.generation)
  {
    hide Small, Plain, SmallSpec, Env, Exact, AllServe, Rolled, Own, Faithful, Suits, ServicesKnown, Separate;
    var env := Env(cfg, ing, service, Yes(), ProbeReady);
    EnvFits(cfg, ing, k, [host], service, Yes(), ProbeReady);
    FaithfulIdentified(cfg, ing, env);
    DesiredServe(cfg, ing, host, service, Yes(), ProbeReady);
    ExactServe(w.server, ing, env.desired, host);
    ExactRolled(w.server, ing, env.desired);
  }

  /** The first call is accepted, all others are rejected. */
  ghost function OnlyFirst(): nat -> Reply {
    n => if n == 0 then Accept else Reject
  }

  /** The wanted proxy is created, the sweep of the older ones is rejected, and so is the status. */
  lemma PartialEffect(cfg: Config, s: Server, views: Views, k: Key, env: Environment, d: HTTPProxy)
    requires k in s.ingresses && IngressHistory(s) && ViewsSeen(s, views) && ObservedBounded(s)
    requires RunGate(cfg, s, views, s.ingresses[k].ing, env).verdict.Open?
    requires ServicesKnown(s.ingresses[k].ing, env.services)
    requires env.desired == [d] && Matches(views.proxies, d) == [] && KeyOf(d) !in s.proxies
    requires OlderProxies(views.proxies, s.ingresses[k].ing) != [] && env.reply == OnlyFirst() && env.partial == {}
    ensures Step(cfg, s, views, k, env).proxies == s.proxies[KeyOf(d) := d.(resourceVersion := s.revision)]
  {
    var ing := s.ingresses[k].ing;
    OneCreated(s, views.proxies, ing, env, d);
    hide RunGate, Kind, Step, Program, Matches, OlderProxies, IngressHistory, ViewsSeen, ObservedBounded, ServicesKnown;
    OpenGate(cfg, s, views, ing, env);
    KindProxies(cfg, s, views, ing, PreProcess(s.ingresses[k].status, ing.generation), env);
    StatusWriteKeepsProxies(cfg, s, views, k, env);
  }

  lemma OneCreated(s: Server, view: seq<HTTPProxy>, ing: Ingress, env: Environment, d: HTTPProxy)
    requires env.desired == [d] && Matches(view, d) == [] && KeyOf(d) !in s.proxies
    requires OlderProxies(view, ing) != [] && env.reply == OnlyFirst() && env.partial == {}
    ensures Program(s, view, ing, 0, env).server.proxies == s.proxies[KeyOf(d) := d.(resourceVersion := s.revision)]
  {
    hide Matches, OlderProxies;
    var one := ApplyOne(s, view, d, 0, env);
    assert one == Progress(PutProxy(s, d), 1, true);
    assert [d][1..] == [];
    assert ApplyAll(one.server, view, [], 1, env) == Progress(one.server, 1, true);
    assert ApplyAll(s, view, [d], 0, env) == Progress(one.server, 1, true);
    hide ApplyAll;
    assert Leftovers(one.server, ing) * {} == {};
  }

  /** A reconcile of the second generation that is cut off before its sweep. */
  lemma PartialStep(cfg: Config, k: Key, w: World, ing: Ingress, host: string, service: string,
                    other: string) returns (v: World, x: Key)
    requires Small(cfg) && At(cfg, k, Never(), w, ing) && One(cfg, ing, [host], service) && SyncedAll(w)
    requires ChildHas(cfg, w.server, k, WantedChild(ing, service)) && ChildReady(cfg, w.server, k)
    requires AllServe(w.server, ing, other) && other != host && Rolled(w.server, k, 1) && ing.generation == 2
    ensures At(cfg, k, Never(), v, ing) && w.server.seenIngresses <= v.server.seenIngresses
    ensures Rolled(v.server, k, 1) && x in v.server.proxies && Labelled(v.server.proxies[x], k, 2)
  {
    hide Small, Inv, AllCanonical, Population, Reaches, One, Suits, Faithful, WantedChild, ChildKey, Step, RunGate,
         ServicesKnown, Env, AllServe, Own, ChildHas, ChildReady, IngressHistory, ProxyHistory, ViewsSeen,
         ObservedBounded, Never, SyncedAll, Calm, Rolled, OlderProxies, Matches, OnlyFirst;
    var env := Env(cfg, ing, service, OnlyFirst(), ProbeNotReady);
    NeverBad(k);
    EnvParts(cfg, ing, service, OnlyFirst(), ProbeNotReady);
    SceneCalm(cfg, k, Never(), w, ing, [host], service, OnlyFirst(), ProbeNotReady);
    SyncedIndex(w);
    OpenScene(cfg, k, Never(), w, ing, [host], service, env);
    InvHistories(cfg, k, w);
    Reconciled(cfg, k, Never(), w, ing, k, env);
    v := w.(server := Step(cfg, w.server, w.views, k, env));
    DesiredServe(cfg, ing, host, service, OnlyFirst(), ProbeNotReady);
    NewHostFree(cfg, w.server, k, ing, env.desired, host, other);
    var d := env.desired[0];
    assert env.desired == [d] && d in env.desired;
    NothingMatches(cfg, w.server, w.views, k, env.desired, d);
    OlderListed(w, ing, 1);
    PartialEffect(cfg, w.server, w.views, k, env, d);
    x := KeyOf(d);
    RolledBeside(w.server, v.server, k, x, 1);
    OwnLabelled(d.(resourceVersion := w.server.revision), d, ing);
  }

  lemma EnvParts(cfg: Config, ing: Ingress, service: string, reply: nat -> Reply, probe: ProbeAnswer)
    ensures Env(cfg, ing, service, reply, probe).reply == reply && Env(cfg, ing, service, reply, probe).partial == {}
  {
    hide Compiler.Compile;
  }

  lemma NothingMatches(cfg: Config, s: Server, views: Views, k: Key, ds: seq<HTTPProxy>, d: HTTPProxy)
    requires Calm(cfg, s, views, k, ds) && d in ds && KeyOf(d) !in s.proxies
    ensures Matches(views.proxies, d) == []
  {
    hide ViewsSeen, IngressHistory, ObservedBounded, Unclaimed, ChildCached, ChildKey, Tidy, Separate;
    SyncedAligned(cfg, s, views.proxies, s.ingresses[k].ing, ds);
  }

  lemma OlderListed(w: World, ing: Ingress, g: nat)
    requires SyncedAll(w) && Rolled(w.server, IngressKey(ing), g) && g != ing.generation
    requires ProxyHistory(w.server)
    ensures OlderProxies(w.views.proxies, ing) != []
  {
    var x :| x in w.server.proxies && Labelled(w.server.proxies[x], IngressKey(ing), g);
    assert w.server.proxies[x] in OlderProxies(w.views.proxies, ing);
  }

  lemma RolledBeside(s: Server, t: Server, k: Key, x: Key, g: nat)
    requires Rolled(s, k, g) && x !in s.proxies
    requires forall y :: y in s.proxies ==> y in t.proxies && t.proxies[y] == s.proxies[y]
    ensures Rolled(t, k, g)
  {
  }

  lemma OwnLabelled(p: HTTPProxy, d: HTTPProxy, ing: Ingress)
    requires Own(d, ing) && p == d.(resourceVersion := p.resourceVersion)
    ensures Labelled(p, IngressKey(ing), ing.generation)
  {
  }

  lemma CurrentListed(w: World, ing: Ingress)
    requires SyncedAll(w) && Rolled(w.server, IngressKey(ing), ing.generation) && ProxyHistory(w.server)
    ensures CurrentProxies(w.views.proxies, ing) != []
  {
    var x :| x in w.server.proxies && Labelled(w.server.proxies[x], IngressKey(ing), ing.generation);
    assert w.server.proxies[x] in CurrentProxies(w.views.proxies, ing);
  }

  lemma ServesByKey(s: Server, t: Server, a: Ingress, b: Ingress, host: string)
    requires AllServe(s, a, host) && IngressKey(a) == IngressKey(b) && s.proxies == t.proxies
    ensures AllServe(t, b, host)
  {
  }

  /** The outdated copy wants names that are free or its own. */
  lemma StaleAligned(cfg: Config, k: Key, bad: (World, Event) -> bool, w: World, ing: Ingress, a: Ingress, host: string,
                     service: string)
    requires Small(cfg) && At(cfg, k, bad, w, ing) && IngressKey(a) == k && One(cfg, a, [host], service) && SyncedAll(w)
    ensures var env := Env(cfg, a, service, Yes(), ProbeReady);
            && Faithful(cfg, a, env) && ServicesKnown(a, env.services) && AllAccepted(env) && DistinctKeys(env.desired)
            && Aligned(w.server, w.views.proxies, env.desired) && Creatable(w.server, w.views.proxies, env.desired)
  {
    hide Small, Inv, AllCanonical, Population, Reaches, Plain, SmallSpec, Env, Suits, ServicesKnown, Faithful, Separate,
         IngressHistory, ProxyHistory, ObservedBounded, AllAccepted, SyncedAll, Synced, Unclaimed, ChildKey, Aligned,
         Creatable;
    var env := Env(cfg, a, service, Yes(), ProbeReady);
    EnvFits(cfg, a, k, [host], service, Yes(), ProbeReady);
    YesAccepts(cfg, a, service, ProbeReady);
    InvHistories(cfg, k, w);
    FaithfulIdentified(cfg, a, env);
    NamesFree(cfg, w.server, k, a, env.desired);
    SyncedForAll(w, a);
    SmallFree(cfg);
    CanonicalAligned(cfg, w.server, w.views.proxies, a, env.desired);
  }

  /** The second generation is rolled out beside the first, whose sweep was rejected. */
  lemma SecondBeside(cfg: Config, k: Key, front: string, back: string, service: string,
                     v: World) returns (w: World, x: Key)
    requires Small(cfg) && front != back
    requires At(cfg, k, Never(), v, Simple(k, 1, front + ".example", service))
    requires ChildKey(cfg, k) !in v.server.ingresses
    requires AllServe(v.server, Simple(k, 1, front + ".example", service), front + ".example") && Rolled(v.server, k, 1)
    ensures At(cfg, k, Never(), w, Simple(k, 2, back + ".example", service)) && SyncedAll(w)
    ensures v.server.seenIngresses <= w.server.seenIngresses
    ensures Rolled(w.server, k, 1) && x in w.server.proxies && Labelled(w.server.proxies[x], k, 2)
  {
    hide Small, One, Inv, AllCanonical, Population, Reaches, WantedChild, BadOnlyAt, Rolled, Env, ChildKey, OneSpec,
         SyncedAll, AllServe, Never, NoneOf;
    var host := back + ".example";
    var past, ing := Simple(k, 1, front + ".example", service), Simple(k, 2, host, service);
    SimpleIsOne(cfg, k, 2, back, service);
    HostsDiffer(front, back, service);
    NeverBad(k);
    var a := EditStep(cfg, k, Never(), v, past, OneSpec([host], service));
    ServesByKey(v.server, a.server, past, ing, front + ".example");
    SameRolledProxies(v.server, a.server, k, 1);
    var b := SyncUp(cfg, k, Never(), a, ing);
    var c := ProbeRound(cfg, k, Never(), b, ing, [host], service, ProbeReady);
    var d;
    d, x := PartialStep(cfg, k, c, ing, host, service, front + ".example");
    w := SyncUp(cfg, k, Never(), d, ing);
  }

  /** An outdated copy deletes a newer proxy: a run from a fresh, admitted ingress to a state in
      which its first generation is still stored beside the second, because a sweep was
      rejected. A reconcile that still reads the ingress as it was at generation 1, with both
      caches in sync otherwise, deletes the proxy of generation 2. */
  lemma StaleDeletes(cfg: Config, k: Key, front: string, back: string, service: string)
    returns (ws: seq<World>, es: seq<Event>, stale: IngressObject, env: Environment, x: Key)
    requires Small(cfg) && service != "" && front != back
    ensures WellNamed(cfg, {k}) && Run(cfg, {k}, ws, es) && Begins(ws[0], k)
    ensures var w := ws[|es|];
            && k in w.server.ingresses && w.server.ingresses[k].ing == Simple(k, 2, back + ".example", service)
            && SyncedAll(w)
            && stale in w.server.seenIngresses && stale.ing == Simple(k, 1, front + ".example", service)
            && Faithful(cfg, stale.ing, env)
            && x in w.server.proxies && Labelled(w.server.proxies[x], k, 2)
            && !Kept(w.server, Kind(cfg, w.server, w.views, stale.ing, PreProcess(stale.status, 1), env).server, x)
  {
    hide Small, One, Inv, AllCanonical, Population, Begins, Rolled, Env, ChildKey, SyncedAll, AllServe, Never,
         WellNamed, Faithful, ServicesKnown, AllAccepted, DistinctKeys, Aligned, Creatable, IngressHistory,
         ProxyHistory, ViewsSeen, ObservedBounded, Kind, CurrentProxies, OlderProxies, Kept, Simple;
    var past := Simple(k, 1, front + ".example", service);
    SmallNames(cfg, k);
    SimpleIsOne(cfg, k, 1, front, service);
    SimpleGeneration(k, 1, front + ".example", service);
    SimpleGeneration(k, 2, back + ".example", service);
    var v := FirstSettled(cfg, k, front, service);
    InvHistories(cfg, k, v);
    StoredWasSeen(v.server, k);
    stale := v.server.ingresses[k];
    var w;
    w, x := SecondBeside(cfg, k, front, back, service, v);
    env := Env(cfg, past, service, Yes(), ProbeReady);
    StaleAligned(cfg, k, Never(), w, Simple(k, 2, back + ".example", service), past, front + ".example", service);
    InvHistories(cfg, k, w);
    StaleLoses(cfg, w, k, past, PreProcess(stale.status, 1), env, x);
    NeverBadRun(cfg, k, w);
    ws, es :| Run(cfg, {k}, ws, es) && Begins(ws[0], k) && ws[|es|] == w;
  }

  lemma SimpleGeneration(k: Key, generation: nat, host: string, service: string)
    ensures Simple(k, generation, host, service).generation == generation
    ensures IngressKey(Simple(k, generation, host, service)) == k
  {
  }

  lemma NeverBadRun(cfg: Config, k: Key, w: World)
    requires Reaches(cfg, k, Never(), w)
    ensures exists ws, es :: Run(cfg, {k}, ws, es) && Begins(ws[0], k) && ws[|es|] == w
  {
    hide Begins, Init, Possible, Next;
  }

  lemma StaleLoses(cfg: Config, w: World, k: Key, a: Ingress, status: Status, env: Environment, x: Key)
    requires ProxyHistory(w.server) && IngressHistory(w.server) && ViewsSeen(w.server, w.views)
    requires ObservedBounded(w.server)
    requires SyncedAll(w) && IngressKey(a) == k && a.generation == 1 && Rolled(w.server, k, 1)
    requires x in w.server.proxies && Labelled(w.server.proxies[x], k, 2) && ServicesKnown(a, env.services)
    requires AllAccepted(env)
    requires Aligned(w.server, w.views.proxies, env.desired) && Creatable(w.server, w.views.proxies, env.desired)
    requires DistinctKeys(env.desired)
    ensures !Kept(w.server, Kind(cfg, w.server, w.views, a, status, env).server, x)
  {
    hide ProxyHistory, IngressHistory, ViewsSeen, ObservedBounded, ServicesKnown, AllAccepted, Aligned, Creatable,
         DistinctKeys, Kind, CurrentProxies, OlderProxies, SyncedAll, GateOpens, Kept;
    CurrentListed(w, a);
    assert Rolled(w.server, k, 2);
    OlderListed(w, a, 2);
    KindWith(cfg, w.server, w.views, a, status, env, x);
  }
}
