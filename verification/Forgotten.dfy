/** A child without rules is the same for every generation: a run of the small cluster in which
    a cached child that is long gone opens the gate, and the exact condition for that. */
module Forgotten {
  import opened Model
  import opened EndpointProbe
  import opened Conditions
  import opened Cluster
  import opened Reconcile
  import opened Framing
  import opened Rollout
  import opened Steps
  import opened Worlds
  import opened Histories
  import opened Lifetime
  import opened Convergence
  import opened Cooperation
  import opened Scenario
  import opened Stage
  import opened Blindness

  // ---- The condition ---------------------------------------------------------------

  /** A reconcile rolls the generation out without becoming ready, and no child is there. */
  ghost predicate LeavesNoChild(cfg: Config, s: Server, views: Views, k: Key, env: Environment)
    requires k in s.ingresses
  {
    var t, g := Step(cfg, s, views, k, env), s.ingresses[k].ing.generation;
    Rolled(t, k, g) && !IsReady(Attempt(cfg, s, views, k, env).status, g) && ChildKey(cfg, k) !in t.ingresses
  }

  ghost function Denying(services: map<string, seq<string>>, ds: seq<HTTPProxy>): Environment {
    Environment(Yes(), {}, ProbeNotReady, services, ds)
  }

  lemma YesAll(env: Environment)
    requires env.reply == Yes()
    ensures AllAccepted(env)
  {
  }

  lemma GateOpensOpens(cfg: Config, s: Server, views: Views, ing: Ingress, env: Environment)
    requires !IsEndpointProbe(ing) && GateOpens(cfg, views, ing)
    ensures RunGate(cfg, s, views, ing, env).verdict.Open?
  {
    hide ChildSpec, ChildKey, CurrentProxies, OlderProxies;
  }

  /** Where the gate opens for a rollout that can go through, every environment keeps a child
      beside a generation that is not ready, if and only if the child is stored at the start. */
  lemma OpeningExactly(cfg: Config, s: Server, views: Views, k: Key, services: map<string, seq<string>>,
                       ds: seq<HTTPProxy>)
    requires k in s.ingresses && IngressKey(s.ingresses[k].ing) == k && !IsEndpointProbe(s.ingresses[k].ing)
    requires ChildKey(cfg, k) != k
    requires IngressHistory(s) && ViewsSeen(s, views) && ObservedBounded(s) && GateOpens(cfg, views, s.ingresses[k].ing)
    requires Prepared(cfg, s, views.proxies, s.ingresses[k].ing, ds) && Unclaimed(s, ds) && ds != []
    requires var ing := s.ingresses[k].ing;
             !IsReady(MarkNetworkConfigured(PreProcess(s.ingresses[k].status, ing.generation)), ing.generation)
    requires ServicesKnown(s.ingresses[k].ing, services)
    ensures (forall env: Environment :: env.services == services && env.desired == ds
                                        ==> !LeavesNoChild(cfg, s, views, k, env))
       <==> ChildKey(cfg, k) in s.ingresses
  {
    hide IngressHistory, ViewsSeen, ObservedBounded, Prepared, Unclaimed, GateOpens, ChildKey, Step, Attempt, Rolled,
         RunGate, AllAccepted, ServicesKnown, Own, ProxyHistory, Exact, Program, IsReady;
    var ing := s.ingresses[k].ing;
    PreparedHistory(cfg, s, views.proxies, ing, ds);
    PreparedOwn(cfg, s, views.proxies, ing, ds);
    if ChildKey(cfg, k) in s.ingresses {
      forall env: Environment | env.services == services && env.desired == ds
        ensures !LeavesNoChild(cfg, s, views, k, env)
      {
        if ChildKey(cfg, k) !in Step(cfg, s, views, k, env).ingresses {
          ChildRemovedReady(cfg, s, views, k, env);
        }
      }
    } else {
      var env := Denying(services, ds);
      YesAll(env);
      GateOpensOpens(cfg, s, views, ing, env);
      UnreadyEffect(cfg, s, views, k, env);
      assert LeavesNoChild(cfg, s, views, k, env);
    }
  }

  // ---- The run ---------------------------------------------------------------------

  const PREFIX := "/data"

  /** An ingress whose only path has a prefix, so that its child has nothing to probe. */
  function Prefixed(k: Key, generation: nat, host: string, service: string): Ingress {
    Ingress(k.ns, k.name, generation, map[], PrefixSpec([host], service, PREFIX))
  }

  lemma PrefixedIsOne(cfg: Config, k: Key, generation: nat, front: string, service: string)
    requires Small(cfg)
    ensures var ing := Prefixed(k, generation, front + ".example", service);
            && One(cfg, ing, [front + ".example"], service) && IngressKey(ing) == k && !IsEndpointProbe(ing)
            && WantedChild(ing, service) == NO_SPEC
  {
    PlainHost(cfg, front);
    hide Small, Plain;
    var ing := Prefixed(k, generation, front + ".example", service);
    assert ing.spec.rules[0].paths[0].path == PREFIX && OnePath(service).path == "";
  }

  /** Nothing is bad but to become ready at generation 2. */
  ghost predicate BadIfReadyTwice(cfg: Config, k: Key, bad: (World, Event) -> bool) {
    forall w, e :: bad(w, e) <==> Readies(cfg, w, e, k, 2)
  }

  lemma ReadiesTwiceOnlyAt(cfg: Config, k: Key, bad: (World, Event) -> bool)
    requires BadIfReadyTwice(cfg, k, bad)
    ensures BadOnlyAt(bad, k)
    ensures forall w: World, env :: k in w.server.ingresses && w.server.ingresses[k].ing.generation != 2 ==>
              !bad(w, Reconciles(k, env))
  {
    hide Attempt;
  }

  /** The first generation is rolled out and ready; the ingress cache still shows the child. */
  lemma FirstForgotten(cfg: Config, k: Key, bad: (World, Event) -> bool, front: string,
                       service: string) returns (w: World)
    requires Small(cfg) && service != "" && BadIfReadyTwice(cfg, k, bad)
    ensures At(cfg, k, bad, w, Prefixed(k, 1, front + ".example", service))
    ensures ChildKey(cfg, k) !in w.server.ingresses && w.server.ingresses[k].status == Status(IsTrue, IsTrue, IsTrue, 1)
    ensures ChildCachedReady(cfg, k, w.views)
  {
    hide Small, One, Admitted, Inv, AllCanonical, Population, Reaches, WantedChild, BadOnlyAt, Rolled, Env, Exact,
         SyncedAll, BadIfReadyTwice, ChildKey, Prefixed;
    var host := front + ".example";
    var ing := Prefixed(k, 1, host, service);
    PrefixedIsOne(cfg, k, 1, front, service);
    PrefixedAdmitted(k, 1, host, service);
    ReadiesTwiceOnlyAt(cfg, k, bad);
    ChildElsewhere(cfg, k);
    var a := Begin(cfg, k, bad, ing);
    NothingStored(a.server, k, 1);
    var b := ProbeRound(cfg, k, bad, a, ing, [host], service, ProbeReady);
    SyncedIndex(b);
    w := SettleStep(cfg, k, bad, b, ing, [host], service);
  }

  lemma PrefixedAdmitted(k: Key, generation: nat, host: string, service: string)
    requires service != ""
    ensures Admitted(Prefixed(k, generation, host, service).spec)
    ensures Prefixed(k, generation, host, service).generation == generation
  {
    hide Admitted, PrefixSpec;
    PrefixSpecAdmitted([host], service, PREFIX);
  }

  /** The cache shows a ready child without rules. */
  ghost predicate ChildCachedReady(cfg: Config, k: Key, views: Views) {
    var ck := ChildKey(cfg, k);
    ck in views.ingresses && views.ingresses[ck].ing.spec == NO_SPEC
      && IsReady(views.ingresses[ck].status, views.ingresses[ck].ing.generation)
  }

  /** The gate is opened by the cached child, the generation is rolled out, and the prober denies. */
  lemma ForgetStep(cfg: Config, k: Key, bad: (World, Event) -> bool, w: World, ing: Ingress, host: string,
                   service: string)
    returns (v: World)
    requires Small(cfg) && At(cfg, k, bad, w, ing) && One(cfg, ing, [host], service)
    requires WantedChild(ing, service) == NO_SPEC
    requires Synced(w.server, w.views.proxies, ing) && ChildCachedReady(cfg, k, w.views)
    requires ChildKey(cfg, k) !in w.server.ingresses
    requires w.server.ingresses[k].status.observed != ing.generation
    requires forall e :: bad(w, e) ==> Readies(cfg, w, e, k, ing.generation)
    ensures At(cfg, k, bad, v, ing) && Rolled(v.server, k, ing.generation) && ChildKey(cfg, k) !in v.server.ingresses
  {
    hide Small, Inv, AllCanonical, Population, Reaches, One, Suits, Faithful, WantedChild, ChildKey, Step, RunGate,
         ServicesKnown, Env, Rolled, AllAccepted, Attempt, Prepared, Unclaimed, IngressHistory, ViewsSeen,
         ObservedBounded, Exact, Synced, GateOpens;
    var env := Env(cfg, ing, service, Yes(), ProbeNotReady);
    YesAccepts(cfg, ing, service, ProbeNotReady);
    PreparedScene(cfg, k, bad, w, ing, host, service, Yes(), ProbeNotReady);
    InvHistories(cfg, k, w);
    CachedGate(cfg, k, bad, w, ing, [host], service);
    GateOpensOpens(cfg, w.server, w.views, ing, env);
    UnreadyEffect(cfg, w.server, w.views, k, env);
    Reconciled(cfg, k, bad, w, ing, k, env);
    v := w.(server := Step(cfg, w.server, w.views, k, env));
  }

  lemma CachedGate(cfg: Config, k: Key, bad: (World, Event) -> bool, w: World, ing: Ingress, hosts: seq<string>,
                   service: string)
    requires At(cfg, k, bad, w, ing) && One(cfg, ing, hosts, service) && WantedChild(ing, service) == NO_SPEC
    requires ChildCachedReady(cfg, k, w.views)
    ensures GateOpens(cfg, w.views, ing)
  {
    hide Inv, AllCanonical, Population, Reaches, One, WantedChild, ChildKey, ChildSpec, OlderProxies;
    WantsChild(cfg, k, bad, w, ing, hosts, service);
  }

  lemma PreparedScene(cfg: Config, k: Key, bad: (World, Event) -> bool, w: World, ing: Ingress, host: string,
                      service: string, reply: nat -> Reply, probe: ProbeAnswer)
    requires Small(cfg) && At(cfg, k, bad, w, ing) && One(cfg, ing, [host], service)
    requires Synced(w.server, w.views.proxies, ing)
    ensures var env := Env(cfg, ing, service, reply, probe);
            && Faithful(cfg, ing, env) && Suits(cfg, ing, k, env.desired) && ServicesKnown(ing, env.services)
            && env.desired != []
            && Prepared(cfg, w.server, w.views.proxies, ing, env.desired) && Unclaimed(w.server, env.desired)
  {
    hide Small, Env, AllCanonical, Population, Reaches, Suits, Plain, SmallSpec, ServicesKnown, ProxyHistory,
         IngressHistory, ChildKey, Unclaimed, Synced, Tidy, Separate, Faithful, AllShaped;
    var env := Env(cfg, ing, service, reply, probe);
    SmallFree(cfg);
    EnvFits(cfg, ing, k, [host], service, reply, probe);
    NamesFree(cfg, w.server, k, ing, env.desired);
    FaithfulIdentified(cfg, ing, env);
    assert Tidy(cfg, w.server, ing);
  }

  /** A forgotten child: a run from a fresh, admitted ingress whose path has a prefix. Its first
      generation is rolled out and ready, and its child is removed. The spec is edited, while
      the ingress cache still shows the child; since it has no rules, it is also the child that
      the second generation wants, and it opens the gate. The generation is rolled out and not
      ready, and there is no child. */
  lemma ForgottenChild(cfg: Config, k: Key, front: string, first: string,
                       second: string) returns (ws: seq<World>, es: seq<Event>)
    requires Small(cfg) && first != "" && second != "" && first != second
    ensures WellNamed(cfg, {k}) && Run(cfg, {k}, ws, es) && Begins(ws[0], k)
    ensures k in ws[|es|].server.ingresses
    ensures ws[|es|].server.ingresses[k].ing == Prefixed(k, 2, front + ".example", second)
    ensures Admitted(ws[|es|].server.ingresses[k].ing.spec)
    ensures Rolled(ws[|es|].server, k, 2) && !BeenReady(cfg, ws, es, |es|, k, 2)
    ensures ChildKey(cfg, k) !in ws[|es|].server.ingresses
  {
    hide Small, Inv, AllCanonical, Population, Begins, Readies, WellNamed, Rolled, Prefixed, ChildKey, Admitted;
    var bad: (World, Event) -> bool := (w: World, e: Event) => Readies(cfg, w, e, k, 2);
    assert BadIfReadyTwice(cfg, k, bad);
    SmallNames(cfg, k);
    PrefixedAdmitted(k, 2, front + ".example", second);
    var v := FirstForgotten(cfg, k, bad, front, first);
    var w := SecondForgotten(cfg, k, bad, front, first, second, v);
    ws, es :| Run(cfg, {k}, ws, es) && Begins(ws[0], k) && ws[|es|] == w && Avoids(ws, es, bad);
  }

  lemma SecondForgotten(cfg: Config, k: Key, bad: (World, Event) -> bool, front: string, first: string, second: string,
                        v: World)
    returns (w: World)
    requires Small(cfg) && first != second && BadIfReadyTwice(cfg, k, bad)
    requires At(cfg, k, bad, v, Prefixed(k, 1, front + ".example", first)) && ChildCachedReady(cfg, k, v.views)
    requires ChildKey(cfg, k) !in v.server.ingresses
    requires v.server.ingresses[k].status == Status(IsTrue, IsTrue, IsTrue, 1)
    ensures At(cfg, k, bad, w, Prefixed(k, 2, front + ".example", second))
    ensures Rolled(w.server, k, 2) && ChildKey(cfg, k) !in w.server.ingresses
  {
    hide Small, One, Inv, AllCanonical, Population, Reaches, WantedChild, BadOnlyAt, Rolled, ChildKey, PrefixSpec,
         BadIfReadyTwice, ProxyHistory, IngressHistory, ViewsSeen, ObservedBounded, KeyOf;
    var host := front + ".example";
    var ing := Prefixed(k, 2, host, second);
    PrefixedIsOne(cfg, k, 2, front, second);
    PrefixesDiffer(host, first, second);
    ReadiesTwiceOnlyAt(cfg, k, bad);
    var a := EditStep(cfg, k, bad, v, Prefixed(k, 1, host, first), PrefixSpec([host], second, PREFIX));
    InvHistories(cfg, k, a);
    var listing := FullListing(a.server);
    var b := Refreshes(cfg, k, bad, a, ing, RefreshesProxies(listing));
    ListingSynced(b, ing);
    BadHere(cfg, k, bad, b);
    w := ForgetStep(cfg, k, bad, b, ing, host, second);
  }

  lemma PrefixesDiffer(host: string, first: string, second: string)
    requires first != second
    ensures PrefixSpec([host], second, PREFIX) != PrefixSpec([host], first, PREFIX)
  {
    assert PrefixSpec([host], second, PREFIX).rules[0].paths[0].splits[0].service == second;
    assert PrefixSpec([host], first, PREFIX).rules[0].paths[0].splits[0].service == first;
  }

  lemma ListingSynced(w: World, ing: Ingress)
    requires forall p :: p in w.views.proxies <==> KeyOf(p) in w.server.proxies && w.server.proxies[KeyOf(p)] == p
    ensures Synced(w.server, w.views.proxies, ing)
  {
  }

  lemma BadHere(cfg: Config, k: Key, bad: (World, Event) -> bool, w: World)
    requires BadIfReadyTwice(cfg, k, bad)
    ensures forall e :: bad(w, e) ==> Readies(cfg, w, e, k, 2)
  {
    hide Readies;
  }

  /** Such a run exists, without any premise. */
  lemma SomeForgottenChild() returns (cfg: Config, k: Key, ws: seq<World>, es: seq<Event>)
    ensures WellNamed(cfg, {k}) && Run(cfg, {k}, ws, es) && Begins(ws[0], k)
    ensures Rolled(ws[|es|].server, k, 2) && !BeenReady(cfg, ws, es, |es|, k, 2)
    ensures ChildKey(cfg, k) !in ws[|es|].server.ingresses
  {
    hide Small, WellNamed, Begins, Readies, Possible, Next, Init, Prefixed, Rolled, ChildKey, Admitted;
    cfg := SmallExists();
    k := Key("default", "app");
    ws, es := ForgottenChild(cfg, k, "app", "first", "second");
  }
}
