/** A stale proxy cache orphans an older generation: a run of the small cluster in which the
    child goes although proxies of a generation that was never ready are still there. */
module Blindness {
  import opened Model
  import opened Compiler
  import opened Outputs
  import opened EndpointProbe
  import opened ProbeIdentity
  import opened Conditions
  import opened Cluster
  import opened Reconcile
  import opened Framing
  import opened Rollout
  import opened Steps
  import opened Worlds
  import opened Histories
  import opened Lifetime
  import opened ChildOrigin
  import opened Convergence
  import opened Cooperation
  import opened Scenario
  import opened Stage

  // ---- Rolled out, but not ready ---------------------------------------------------

  /** The gate is open and the rollout goes through, but the prober denies: the child stays. */
  lemma UnreadyStep(cfg: Config, k: Key, bad: (World, Event) -> bool, w: World, ing: Ingress, host: string,
                    service: string)
    returns (v: World)
    requires Small(cfg) && At(cfg, k, bad, w, ing) && One(cfg, ing, [host], service) && SyncedAll(w)
    requires ChildHas(cfg, w.server, k, WantedChild(ing, service)) && ChildReady(cfg, w.server, k)
    requires w.server.ingresses[k].status.loadBalancer != IsTrue
    requires forall e :: bad(w, e) ==> Readies(cfg, w, e, k, ing.generation)
    ensures At(cfg, k, bad, v, ing) && v.views == w.views
    ensures Rolled(v.server, k, ing.generation) && AllServe(v.server, ing, host)
    ensures ChildHas(cfg, v.server, k, WantedChild(ing, service))
    ensures ProxyFrame(w.server, v.server, ing)
  {
    hide Small, Inv, AllCanonical, Population, Reaches, One, Suits, Faithful, WantedChild, ChildKey, Calm, Step,
         RunGate, ServicesKnown, Env, SyncedAll, Rolled, ProxyFrame, AllAccepted, AllServe, Attempt, Prepared,
         Unclaimed, IngressHistory, ViewsSeen, ObservedBounded, Exact;
    var env := Env(cfg, ing, service, Yes(), ProbeNotReady);
    YesAccepts(cfg, ing, service, ProbeNotReady);
    SceneCalm(cfg, k, bad, w, ing, [host], service, Yes(), ProbeNotReady);
    SyncedIndex(w);
    OpenScene(cfg, k, bad, w, ing, [host], service, env);
    CalmParts(cfg, w.server, w.views, k, env.desired);
    UnreadyEffect(cfg, w.server, w.views, k, env);
    Reconciled(cfg, k, bad, w, ing, k, env);
    v := w.(server := Step(cfg, w.server, w.views, k, env));
    OwnStepFrame(cfg, {k}, w, k, env);
    DesiredServe(cfg, ing, host, service, Yes(), ProbeNotReady);
    ExactServe(v.server, ing, env.desired, host);
  }

  lemma CalmParts(cfg: Config, s: Server, views: Views, k: Key, ds: seq<HTTPProxy>)
    requires Calm(cfg, s, views, k, ds)
    ensures k in s.ingresses && IngressKey(s.ingresses[k].ing) == k
    ensures IngressHistory(s) && ViewsSeen(s, views) && ObservedBounded(s)
    ensures Prepared(cfg, s, views.proxies, s.ingresses[k].ing, ds) && Unclaimed(s, ds)
  {
    hide IngressHistory, ViewsSeen, ObservedBounded, Prepared, Unclaimed, ChildKey, ChildCached;
  }

  lemma YesAccepts(cfg: Config, ing: Ingress, service: string, probe: ProbeAnswer)
    ensures AllAccepted(Env(cfg, ing, service, Yes(), probe)) && Env(cfg, ing, service, Yes(), probe).probe == probe
  {
    hide Compile;
  }

  lemma DesiredServe(cfg: Config, ing: Ingress, host: string, service: string, reply: nat -> Reply, probe: ProbeAnswer)
    requires Small(cfg) && One(cfg, ing, [host], service)
    ensures forall d :: d in Env(cfg, ing, service, reply, probe).desired ==> d.spec.fqdn == host
  {
    var services := map[service := PORTS];
    hide Small, Plain, Compile, Protocols.IngressProtocols, SmallSpec;
    CompiledShape(cfg, ing, [host], service, Protocols.IngressProtocols(cfg, ing, services));
  }

  lemma ExactServe(t: Server, ing: Ingress, ds: seq<HTTPProxy>, host: string)
    requires Exact(t, ing, ds) && forall d :: d in ds ==> d.spec.fqdn == host
    ensures AllServe(t, ing, host)
  {
  }

  /** Past an open gate, if no call fails, the services exist and the prober denies, the wanted
      proxies are rolled out, the ingress is not ready, and no other ingress is touched. */
  lemma UnreadyEffect(cfg: Config, s: Server, views: Views, k: Key, env: Environment)
    requires k in s.ingresses && IngressKey(s.ingresses[k].ing) == k
    requires IngressHistory(s) && ViewsSeen(s, views) && ObservedBounded(s)
    requires Prepared(cfg, s, views.proxies, s.ingresses[k].ing, env.desired) && Unclaimed(s, env.desired)
    requires env.desired != []
    requires AllAccepted(env) && ServicesKnown(s.ingresses[k].ing, env.services) && env.probe == ProbeNotReady
    requires RunGate(cfg, s, views, s.ingresses[k].ing, env).verdict.Open?
    requires var ing := s.ingresses[k].ing;
             !IsReady(MarkNetworkConfigured(PreProcess(s.ingresses[k].status, ing.generation)), ing.generation)
    ensures var ing, t := s.ingresses[k].ing, Step(cfg, s, views, k, env);
            && !IsReady(Attempt(cfg, s, views, k, env).status, ing.generation)
            && Exact(t, ing, env.desired) && Rolled(t, k, ing.generation)
            && t.ingresses.Keys == s.ingresses.Keys
            && (forall x :: x in s.ingresses && x != k ==> t.ingresses[x] == s.ingresses[x])
  {
    hide RunGate, ServicesKnown, Kind, Step, Program, Prepared, Unclaimed, ChildKey, ViewsSeen, IngressHistory,
         ObservedBounded, Exact, Rolled, Conclude, AllAccepted, Own, CurrentProxies, GateOpens, IsReady,
         MarkNetworkConfigured, PreProcess;
    var ing := s.ingresses[k].ing;
    var status := PreProcess(s.ingresses[k].status, ing.generation);
    OpenGate(cfg, s, views, ing, env);
    ProgramAccepted(cfg, s, views.proxies, ing, 0, env);
    OpenKind(cfg, s, views, ing, status, env);
    ProgramKeepsIngresses(cfg, s, views.proxies, ing, env);
    var done, gate := Program(s, views.proxies, ing, 0, env), RunGate(cfg, s, views, ing, env);
    UnreadyConclude(cfg, done.server, done.calls, ing, MarkNetworkConfigured(status), gate.verdict.haveProbe, env);
    FinishedIsExact(cfg, s, views, k, env);
    StatusArrives(cfg, s, views, k, env);
    PreparedOwn(cfg, s, views.proxies, ing, env.desired);
    ExactRolled(Step(cfg, s, views, k, env), ing, env.desired);
  }

  lemma UnreadyConclude(cfg: Config, s: Server, calls: nat, ing: Ingress, configured: Status, haveProbe: bool,
                        env: Environment)
    requires env.probe == ProbeNotReady && !IsReady(configured, ing.generation)
    ensures var c := Conclude(cfg, s, calls, ing, configured, haveProbe, env);
            c.ending == Finished && !IsReady(c.status, ing.generation) && c.server == s
  {
    hide ChildKey;
  }

  // ---- A blind reconcile -----------------------------------------------------------

  /** The cache shows no proxy of the ingress: the wanted ones are created, nothing is swept, the
      child is removed, and every older proxy stays. */
  lemma BlindEffect(cfg: Config, s: Server, views: Views, k: Key, env: Environment, x: Key)
    requires k in s.ingresses && IngressKey(s.ingresses[k].ing) == k && !IsEndpointProbe(s.ingresses[k].ing)
    requires ChildKey(cfg, k) != k
    requires ProxyHistory(s) && IngressHistory(s) && ViewsSeen(s, views) && ObservedBounded(s)
    requires views.ingresses == s.ingresses
    requires Cooperates(s.ingresses[k].ing, env, env.desired)
    requires RunGate(cfg, s, views, s.ingresses[k].ing, env).verdict.Open?
    requires |env.desired| <= 1
    requires (forall d :: d in env.desired ==> Own(d, s.ingresses[k].ing) && KeyOf(d) !in s.proxies)
    requires (forall p :: p in views.proxies ==> !OfParent(p, s.ingresses[k].ing))
    requires x in Leftovers(s, s.ingresses[k].ing)
    ensures var t := Step(cfg, s, views, k, env);
            && ChildKey(cfg, k) !in t.ingresses && x in t.proxies && t.proxies[x] == s.proxies[x]
  {
    var ing, ds := s.ingresses[k].ing, env.desired;
    BlindView(s, views.proxies, ing, ds);
    hide RunGate, ServicesKnown, Attempt, Step, ChildKey, ViewsSeen, IngressHistory, ObservedBounded, Conclude,
         AllAccepted, Own, ProxyHistory, Kind, ApplyAll, OlderProxies, Aligned, Creatable, Leftovers, KeyOf, OfParent,
         ProxyFrame;
    OpenGate(cfg, s, views, ing, env);
    ApplyAllAccepted(s, views.proxies, ds, 0, env);
    ApplyAllFrame(s, views.proxies, ds, 0, env, ing);
    BlindAll(s, views.proxies, ds, 0, env, ing, x);
    var done := Program(s, views.proxies, ing, 0, env);
    assert done == ApplyAll(s, views.proxies, ds, 0, env);
    hide Program;
    BlindConclude(cfg, s, views, k, env, done);
  }

  lemma BlindConclude(cfg: Config, s: Server, views: Views, k: Key, env: Environment, done: Progress)
    requires k in s.ingresses && IngressKey(s.ingresses[k].ing) == k && !IsEndpointProbe(s.ingresses[k].ing)
    requires ChildKey(cfg, k) != k
    requires Cooperates(s.ingresses[k].ing, env, env.desired) && views.ingresses == s.ingresses
    requires var gate := RunGate(cfg, s, views, s.ingresses[k].ing, env);
             gate.verdict.Open? && gate.server == s && gate.calls == 0
               && (gate.verdict.haveProbe <==> ChildKey(cfg, k) in s.ingresses)
    requires done == Program(s, views.proxies, s.ingresses[k].ing, 0, env) && done.ok
    requires done.server.ingresses == s.ingresses
    ensures var t := Step(cfg, s, views, k, env);
            ChildKey(cfg, k) !in t.ingresses && t.proxies == done.server.proxies
  {
    var ing := s.ingresses[k].ing;
    var status := PreProcess(s.ingresses[k].status, ing.generation);
    hide RunGate, ServicesKnown, Step, ChildKey, Conclude, AllAccepted, Program, Kind;
    OpenKind(cfg, s, views, ing, status, env);
    ConcludeSettles(cfg, done.server, done.calls, ing, MarkNetworkConfigured(status), ChildKey(cfg, k) in s.ingresses,
                    env);
    ConcludeProxies(cfg, done.server, done.calls, ing, MarkNetworkConfigured(status), ChildKey(cfg, k) in s.ingresses,
                    env);
    StatusArrives(cfg, s, views, k, env);
    StatusWriteKeepsProxies(cfg, s, views, k, env);
  }

  lemma BlindView(s: Server, view: seq<HTTPProxy>, ing: Ingress, ds: seq<HTTPProxy>)
    requires |ds| <= 1 && (forall d :: d in ds ==> Own(d, ing) && KeyOf(d) !in s.proxies)
    requires (forall p :: p in view ==> !OfParent(p, ing))
    ensures Aligned(s, view, ds) && Creatable(s, view, ds) && DistinctKeys(ds) && OlderProxies(view, ing) == []
  {
    hide Matches;
    forall d, m | d in ds && m in view && SameTarget(m, d)
      ensures OfParent(m, ing)
    {
      assert Own(d, ing);
    }
  }

  lemma BlindStep(cfg: Config, k: Key, bad: (World, Event) -> bool, w: World, ing: Ingress, host: string,
                  service: string, other: string, g: nat)
    returns (v: World)
    requires Small(cfg) && At(cfg, k, bad, w, ing) && One(cfg, ing, [host], service)
    requires w.views.ingresses == w.server.ingresses
    requires ChildHas(cfg, w.server, k, WantedChild(ing, service)) && ChildReady(cfg, w.server, k)
    requires (forall p :: p in w.views.proxies ==> !OfParent(p, ing)) && AllServe(w.server, ing, other) && other != host
    requires Rolled(w.server, k, g) && g != ing.generation
    requires forall env :: !bad(w, Reconciles(k, env))
    ensures At(cfg, k, bad, v, ing) && ChildKey(cfg, k) !in v.server.ingresses && Rolled(v.server, k, g)
  {
    hide Small, Inv, AllCanonical, Population, Reaches, One, Suits, Faithful, WantedChild, ChildKey, Step, RunGate,
         ServicesKnown, Env, AllServe, Own, OfParent, ChildHas, ChildReady, AllAccepted, IngressHistory, ProxyHistory,
         ViewsSeen, ObservedBounded, WellNamed;
    var env := Env(cfg, ing, service, Yes(), ProbeReady);
    YesAccepts(cfg, ing, service, ProbeReady);
    EnvFitsOne(cfg, ing, k, [host], service, Yes(), ProbeReady);
    OpenScene(cfg, k, bad, w, ing, [host], service, env);
    InvHistories(cfg, k, w);
    Reconciled(cfg, k, bad, w, ing, k, env);
    v := w.(server := Step(cfg, w.server, w.views, k, env));
    DesiredServe(cfg, ing, host, service, Yes(), ProbeReady);
    NewHostFree(cfg, w.server, k, ing, env.desired, host, other);
    ChildElsewhere(cfg, k);
    var x := RolledKey(w.server, ing, k, g);
    BlindEffect(cfg, w.server, w.views, k, env, x);
  }

  lemma RolledKey(s: Server, ing: Ingress, k: Key, g: nat) returns (x: Key)
    requires Rolled(s, k, g) && IngressKey(ing) == k && g != ing.generation
    ensures x in Leftovers(s, ing) && x in s.proxies && Labelled(s.proxies[x], k, g)
  {
    x :| x in s.proxies && Labelled(s.proxies[x], k, g);
  }

  /** A host that the ingress has not served yet has its name free. */
  lemma NewHostFree(cfg: Config, s: Server, k: Key, ing: Ingress, ds: seq<HTTPProxy>, host: string, other: string)
    requires Small(cfg) && ProxyHistory(s) && AllCanonical(cfg, s) && Population(cfg, s, k) && Suits(cfg, ing, k, ds)
    requires IngressKey(ing) == k
    requires AllServe(s, ing, other) && other != host && forall d :: d in ds ==> d.spec.fqdn == host
    ensures |ds| <= 1 && forall d :: d in ds ==> Own(d, ing) && KeyOf(d) !in s.proxies
  {
    NamesFree(cfg, s, k, ing, ds);
    SmallFree(cfg);
    hide Small, Population, ChildKey;
    forall d | d in ds
      ensures Own(d, ing) && KeyOf(d) !in s.proxies
    {
      assert Identified(cfg, ing, d);
      if KeyOf(d) in s.proxies {
        TakenServes(cfg, s, ing, d, other);
      }
    }
  }

  lemma TakenServes(cfg: Config, s: Server, ing: Ingress, d: HTTPProxy, other: string)
    requires CollisionFree(cfg) && ProxyHistory(s) && AllCanonical(cfg, s) && AllServe(s, ing, other)
    requires Identified(cfg, ing, d)
    requires KeyOf(d) in s.proxies && SameTarget(s.proxies[KeyOf(d)], d)
    ensures d.spec.fqdn == other
  {
    var p := s.proxies[KeyOf(d)];
    assert p in s.seen && OfParent(p, ing);
    assert cfg.sha1(p.spec.fqdn) == cfg.sha1(d.spec.fqdn);
  }

  // ---- The run ---------------------------------------------------------------------

  lemma SyncedFrame(s: Server, t: Server, ing: Ingress, other: Ingress, view: seq<HTTPProxy>)
    requires ProxyFrame(s, t, ing) && IngressKey(other) != IngressKey(ing) && Synced(s, view, other)
    ensures Synced(t, view, other)
  {
    hide ProxyHistory;
  }

  /** Nothing is bad but to become ready at generation 1. */
  ghost predicate BadIfReady(cfg: Config, k: Key, bad: (World, Event) -> bool) {
    forall w, e :: bad(w, e) <==> Readies(cfg, w, e, k, 1)
  }

  lemma ReadiesOnlyAt(cfg: Config, k: Key, bad: (World, Event) -> bool)
    requires BadIfReady(cfg, k, bad)
    ensures BadOnlyAt(bad, k)
    ensures forall w: World, env :: k in w.server.ingresses && w.server.ingresses[k].ing.generation != 1 ==>
              !bad(w, Reconciles(k, env))
  {
    hide Attempt;
  }

  /** The first reconcile of all has to wait. */
  lemma FirstWaits(cfg: Config, k: Key, bad: (World, Event) -> bool, w: World, ing: Ingress, hosts: seq<string>,
                   service: string)
    requires Small(cfg) && At(cfg, k, bad, w, ing) && One(cfg, ing, hosts, service) && SyncedAll(w)
    requires BadIfReady(cfg, k, bad)
    requires !Rolled(w.server, k, ing.generation) && ChildKey(cfg, k) !in w.server.ingresses
    requires w.server.ingresses[k].status == INITIAL_STATUS
    ensures !bad(w, Reconciles(k, Env(cfg, ing, service, Yes(), ProbeReady)))
  {
    hide Small, Inv, AllCanonical, Population, Reaches, One, WantedChild, ChildKey, Attempt, Step, Env, SyncedAll,
         Rolled, AllAccepted, IngressHistory, ProxyHistory, ViewsSeen, ObservedBounded, CurrentProxies, ChildSpec,
         OlderProxies;
    YesAccepts(cfg, ing, service, ProbeReady);
    NoneCurrent(w, ing);
    SyncedIndex(w);
    InvHistories(cfg, k, w);
    ChildElsewhere(cfg, k);
    WaitEffect(cfg, w.server, w.views, k, Env(cfg, ing, service, Yes(), ProbeReady));
  }

  /** The state after the first generation was rolled out without becoming ready, seen through a
      proxy cache from before the rollout. */
  ghost predicate Lagging(cfg: Config, k: Key, w: World, ing: Ingress, host: string) {
    && (forall p :: p in w.views.proxies ==> !OfParent(p, ing))
    && AllServe(w.server, ing, host) && Rolled(w.server, k, 1)
    && ChildKey(cfg, k) in w.server.ingresses
    && Synced(w.server, w.views.proxies, w.server.ingresses[ChildKey(cfg, k)].ing)
  }

  lemma UnreadyGeneration(cfg: Config, k: Key, bad: (World, Event) -> bool, front: string,
                          service: string) returns (w: World)
    requires Small(cfg) && service != "" && BadIfReady(cfg, k, bad)
    ensures var ing := Simple(k, 1, front + ".example", service);
            At(cfg, k, bad, w, ing) && Lagging(cfg, k, w, ing, front + ".example")
              && ChildHas(cfg, w.server, k, WantedChild(ing, service))
  {
    var host := front + ".example";
    var ing := Simple(k, 1, host, service);
    SimpleIsOne(cfg, k, 1, front, service);
    OneSpecAdmitted([host], service);
    ReadiesOnlyAt(cfg, k, bad);
    ChildElsewhere(cfg, k);
    hide Small, Simple, One, Admitted, Inv, AllCanonical, Population, Reaches, WantedChild, BadOnlyAt, Rolled, Env,
         SyncedAll, Readies, ChildKey, AllServe, Synced, ProxyFrame, NoneOf;
    var a := Begin(cfg, k, bad, ing);
    NothingStored(a.server, k, 1);
    NothingOf(a.server, ing);
    FirstWaits(cfg, k, bad, a, ing, [host], service);
    var b := ProbeRound(cfg, k, bad, a, ing, [host], service, ProbeReady);
    w := UnreadyStep(cfg, k, bad, b, ing, host, service);
    NoneListed(b, ing);
    ChildSynced(cfg, k, bad, b, w, ing, service);
  }

  lemma NothingOf(s: Server, ing: Ingress)
    requires s.proxies == map[]
    ensures NoneOf(s, ing)
  {
  }

  lemma NoneListed(w: World, ing: Ingress)
    requires SyncedAll(w) && NoneOf(w.server, ing)
    ensures forall p :: p in w.views.proxies ==> !OfParent(p, ing)
  {
  }

  lemma ChildSynced(cfg: Config, k: Key, bad: (World, Event) -> bool, b: World, w: World, ing: Ingress, service: string)
    requires Small(cfg) && SyncedAll(b) && ProxyFrame(b.server, w.server, ing) && w.views == b.views
    requires At(cfg, k, bad, w, ing) && ChildHas(cfg, w.server, k, WantedChild(ing, service))
    ensures Synced(w.server, w.views.proxies, w.server.ingresses[ChildKey(cfg, k)].ing)
  {
    hide Small, Inv, AllCanonical, Population, Reaches, WantedChild, ChildKey, Synced, ProxyFrame, SyncedAll, One;
    ChildElsewhere(cfg, k);
    ChildScene(cfg, k, bad, w, ing, ing, service);
    SyncedForAll(b, w.server.ingresses[ChildKey(cfg, k)].ing);
    SyncedFrame(b.server, w.server, ing, w.server.ingresses[ChildKey(cfg, k)].ing, w.views.proxies);
  }

  /** The edit moves the ingress to another host; the proxy cache still lags. The child is updated
      and becomes ready; the next reconcile rolls out and removes the child. */
  lemma BlindGeneration(cfg: Config, k: Key, bad: (World, Event) -> bool, front: string, back: string, service: string,
                        v: World)
    returns (w: World)
    requires Small(cfg) && front != back && BadIfReady(cfg, k, bad)
    requires var ing := Simple(k, 1, front + ".example", service);
             At(cfg, k, bad, v, ing) && Lagging(cfg, k, v, ing, front + ".example")
               && ChildHas(cfg, v.server, k, WantedChild(ing, service))
    ensures At(cfg, k, bad, w, Simple(k, 2, back + ".example", service))
    ensures ChildKey(cfg, k) !in w.server.ingresses && Rolled(w.server, k, 1)
  {
    var past, host := Simple(k, 1, front + ".example", service), back + ".example";
    var ing := Simple(k, 2, host, service);
    SimpleIsOne(cfg, k, 2, back, service);
    HostsDiffer(front, back, service);
    WantedDiffers(k, front + ".example", host, service);
    ReadiesOnlyAt(cfg, k, bad);
    assert ing == past.(spec := OneSpec([host], service), generation := 2);
    hide Small, One, Inv, AllCanonical, Population, Reaches, WantedChild, BadOnlyAt, Rolled, Env, Readies, ChildKey,
         OneSpec, CurrentProxies, Lagging, Helps, Simple, BadIfReady;
    LagStored(cfg, k, v, past, front + ".example");
    ChildElsewhere(cfg, k);
    var a := EditStep(cfg, k, bad, v, past, OneSpec([host], service));
    var b := SyncIngresses(cfg, k, bad, a, ing);
    LagMoves(cfg, k, bad, v, b, past, ing, front + ".example");
    OutdatedChild(cfg, k, v, b, past, ing, service);
    LagCurrent(cfg, k, b, ing, front + ".example");
    var c := WaitStep(cfg, k, bad, b, ing, [host], service, ProbeReady);
    LagMoves(cfg, k, bad, b, c, ing, ing, front + ".example");
    LagStored(cfg, k, c, ing, front + ".example");
    var d := ChildStep(cfg, k, bad, c, ing, ing, service);
    LagHelped(cfg, k, c, d, ing, front + ".example");
    var e := SyncIngresses(cfg, k, bad, d, ing);
    w := BlindStep(cfg, k, bad, e, ing, host, service, front + ".example", 1);
  }

  lemma HostsDiffer(front: string, back: string, service: string)
    requires front != back
    ensures front + ".example" != back + ".example"
    ensures OneSpec([front + ".example"], service) != OneSpec([back + ".example"], service)
  {
    if front + ".example" == back + ".example" {
      SuffixCancels(front, back, ".example");
    }
    assert OneSpec([front + ".example"], service).rules[0].hosts[0] == front + ".example";
    assert OneSpec([back + ".example"], service).rules[0].hosts[0] == back + ".example";
  }

  lemma LagStored(cfg: Config, k: Key, w: World, ing: Ingress, host: string)
    requires Lagging(cfg, k, w, ing, host)
    ensures ChildKey(cfg, k) in w.server.ingresses
    ensures Synced(w.server, w.views.proxies, w.server.ingresses[ChildKey(cfg, k)].ing)
  {
    hide ChildKey, AllServe, Rolled, Synced;
  }

  /** The lag goes on as long as neither the proxies nor their cache change. */
  lemma LagMoves(cfg: Config, k: Key, bad: (World, Event) -> bool, v: World, w: World, a: Ingress, ing: Ingress,
                 host: string)
    requires Lagging(cfg, k, v, a, host) && At(cfg, k, bad, v, a) && At(cfg, k, bad, w, ing)
    requires ChildKey(cfg, k) in w.server.ingresses
    requires w.views.proxies == v.views.proxies && w.server.proxies == v.server.proxies
    ensures Lagging(cfg, k, w, ing, host)
  {
    hide ChildKey, Inv, AllCanonical, Population, Reaches;
    LagStored(cfg, k, v, a, host);
    ChildKeyed(cfg, k, v);
    ChildKeyed(cfg, k, w);
    SyncedByKey(v.server, w.server, v.views.proxies, v.server.ingresses[ChildKey(cfg, k)].ing,
                w.server.ingresses[ChildKey(cfg, k)].ing);
    hide Synced;
  }

  lemma ChildKeyed(cfg: Config, k: Key, w: World)
    requires Inv(cfg, {k}, w) && ChildKey(cfg, k) in w.server.ingresses
    ensures IngressKey(w.server.ingresses[ChildKey(cfg, k)].ing) == ChildKey(cfg, k)
  {
    hide ChildKey, AllShaped, AllTidy, ProxyHistory, ViewsSeen, ObservedBounded;
  }

  lemma SyncedByKey(s: Server, t: Server, view: seq<HTTPProxy>, a: Ingress, b: Ingress)
    requires Synced(s, view, a) && IngressKey(a) == IngressKey(b) && s.proxies == t.proxies
    ensures Synced(t, view, b)
  {
    assert forall p :: OfParent(p, b) ==> OfParent(p, a);
  }

  lemma LagCurrent(cfg: Config, k: Key, w: World, ing: Ingress, host: string)
    requires Lagging(cfg, k, w, ing, host)
    ensures CurrentProxies(w.views.proxies, ing) == []
  {
    hide ChildKey, AllServe, Rolled, Synced;
  }

  /** The child of the first generation is not the one that the second wants. */
  lemma OutdatedChild(cfg: Config, k: Key, v: World, w: World, past: Ingress, ing: Ingress, service: string)
    requires ChildHas(cfg, v.server, k, WantedChild(past, service))
    requires WantedChild(past, service) != WantedChild(ing, service)
    requires ChildKey(cfg, k) in w.server.ingresses
    requires w.server.ingresses[ChildKey(cfg, k)] == v.server.ingresses[ChildKey(cfg, k)]
    ensures !ChildHas(cfg, w.server, k, WantedChild(ing, service))
  {
    hide ChildKey, WantedChild;
  }

  lemma WantedDiffers(k: Key, host: string, host': string, service: string)
    ensures WantedChild(Simple(k, 1, host, service), service) != WantedChild(Simple(k, 2, host', service), service)
  {
    var a, b := Simple(k, 1, host, service), Simple(k, 2, host', service);
    hide ProbeHost;
    if ProbeHost(a, service) == ProbeHost(b, service) {
      ProbeHostInjective(a, b, service, service);
    }
    assert OneSpec([ProbeHost(a, service)], service).rules[0].hosts[0] == ProbeHost(a, service);
    assert OneSpec([ProbeHost(b, service)], service).rules[0].hosts[0] == ProbeHost(b, service);
  }

  lemma LagHelped(cfg: Config, k: Key, c: World, d: World, ing: Ingress, host: string)
    requires Lagging(cfg, k, c, ing, host) && k in c.server.ingresses && c.server.ingresses[k].ing == ing
    requires Helps(cfg, c.server, d.server, k)
    requires d.views == c.views && ing.generation != 1 && IngressKey(ing) == k
    ensures (forall p :: p in d.views.proxies ==> !OfParent(p, ing)) && AllServe(d.server, ing, host)
    ensures Rolled(d.server, k, 1)
  {
    hide ChildKey, Synced;
    var x :| x in c.server.proxies && Labelled(c.server.proxies[x], k, 1);
    assert Labelled(d.server.proxies[x], k, 1);
  }

  /** A blind removal: a run from a fresh, admitted ingress. Its first generation is rolled out
      but never ready. The spec is edited to another host, while the proxy cache still shows the
      state before the rollout. The second generation is rolled out and ready, its sweep is
      skipped, and the child goes, although a proxy of the first generation is still there. */
  lemma BlindRemoval(cfg: Config, k: Key, front: string, back: string,
                     service: string) returns (ws: seq<World>, es: seq<Event>)
    requires Small(cfg) && service != "" && front != back
    ensures WellNamed(cfg, {k}) && Run(cfg, {k}, ws, es) && Begins(ws[0], k)
    ensures k in ws[|es|].server.ingresses
    ensures ws[|es|].server.ingresses[k].ing == Simple(k, 2, back + ".example", service)
    ensures Rolled(ws[|es|].server, k, 1) && !BeenReady(cfg, ws, es, |es|, k, 1)
    ensures ChildKey(cfg, k) !in ws[|es|].server.ingresses
  {
    var bad: (World, Event) -> bool := (w: World, e: Event) => Readies(cfg, w, e, k, 1);
    SmallNames(cfg, k);
    hide Small, Inv, AllCanonical, Population, Begins, Readies, WellNamed, Rolled, Simple, ChildKey, Lagging, ChildHas,
         WantedChild;
    assert BadIfReady(cfg, k, bad);
    var v := UnreadyGeneration(cfg, k, bad, front, service);
    var w := BlindGeneration(cfg, k, bad, front, back, service, v);
    ws, es :| Run(cfg, {k}, ws, es) && Begins(ws[0], k) && ws[|es|] == w && Avoids(ws, es, bad);
  }

  /** Such a run exists, without any premise. */
  lemma SomeBlindRemoval() returns (cfg: Config, k: Key, ws: seq<World>, es: seq<Event>)
    ensures WellNamed(cfg, {k}) && Run(cfg, {k}, ws, es) && Begins(ws[0], k)
    ensures Rolled(ws[|es|].server, k, 1) && !BeenReady(cfg, ws, es, |es|, k, 1)
    ensures ChildKey(cfg, k) !in ws[|es|].server.ingresses
  {
    hide Small, WellNamed, Begins, Readies, Possible, Next, Init, Simple, Rolled, ChildKey;
    cfg := SmallExists();
    k := Key("default", "app");
    ws, es := BlindRemoval(cfg, k, "front", "back", "app");
  }
}
