/** Ready without a probe: a run of the small cluster, from an admitted ingress that was never
    reconciled, to a generation that is ready and was never confirmed. */
module Unprobed {
  import opened Model
  import opened EndpointProbe
  import opened Conditions
  import opened Cluster
  import opened Reconcile
  import opened Framing
  import opened Rollout
  import opened Steps
  import opened Worlds
  import opened Histories
  import opened Readiness
  import opened Lifetime
  import opened Convergence
  import opened Cooperation
  import opened Scenario
  import opened Stage

  // ---- Ready without a probe -------------------------------------------------------

  ghost function LoseFirst(): nat -> Reply {
    n => if n == 0 then Lose else Accept
  }

  /** The reply to the creation of the child is lost: the child is there, the reconcile fails,
      and the status still has its old load balancer verdict, now for the new generation. */
  lemma LoseStep(cfg: Config, k: Key, bad: (World, Event) -> bool, w: World, ing: Ingress, hosts: seq<string>,
                 service: string)
    returns (v: World)
    requires Small(cfg) && At(cfg, k, bad, w, ing) && One(cfg, ing, hosts, service) && SyncedAll(w)
    requires CurrentProxies(w.views.proxies, ing) == [] && ChildKey(cfg, k) !in w.server.ingresses
    requires w.server.ingresses[k].status == Status(IsTrue, IsTrue, IsTrue, 1) && ing.generation == 2
    requires !bad(w, Reconciles(k, Env(cfg, ing, service, LoseFirst(), ProbeNotReady)))
    ensures At(cfg, k, bad, v, ing) && v.server.proxies == w.server.proxies
    ensures ChildHas(cfg, v.server, k, WantedChild(ing, service))
    ensures v.server.ingresses[k].status == Status(IsTrue, IsTrue, IsUnknown, 2)
  {
    var env := Env(cfg, ing, service, LoseFirst(), ProbeNotReady);
    EnvReply(cfg, ing, service, LoseFirst(), ProbeNotReady);
    hide Small, One, WantedChild, Inv, AllCanonical, Population, Reaches, Env, ChildKey, CurrentProxies, Step,
         SyncedAll, Suits, Faithful, ServicesKnown, ChildSpec, OlderProxies, Separate;
    EnvFitsOne(cfg, ing, k, hosts, service, LoseFirst(), ProbeNotReady);
    WantsChild(cfg, k, bad, w, ing, hosts, service);
    Reconciled(cfg, k, bad, w, ing, k, env);
    SyncedIndex(w);
    SmallNames(cfg, k);
    v := w.(server := Step(cfg, w.server, w.views, k, env));
    LoseEffect(cfg, w.server, w.views, k, env);
  }

  lemma LoseEffect(cfg: Config, s: Server, views: Views, k: Key, env: Environment)
    requires k in s.ingresses && IngressKey(s.ingresses[k].ing) == k && !IsEndpointProbe(s.ingresses[k].ing)
    requires views.ingresses == s.ingresses && ChildKey(cfg, k) !in s.ingresses
    requires CurrentProxies(views.proxies, s.ingresses[k].ing) == []
    requires s.ingresses[k].status == Status(IsTrue, IsTrue, IsTrue, 1) && s.ingresses[k].ing.generation == 2
    requires env.reply(0) == Lose && env.reply(1) == Accept
    ensures var t := Step(cfg, s, views, k, env);
            && t.proxies == s.proxies
            && ChildHas(cfg, t, k, ChildSpec(cfg, s.ingresses[k].ing, OlderProxies(views.proxies, s.ingresses[k].ing)))
            && k in t.ingresses && t.ingresses[k].status == Status(IsTrue, IsTrue, IsUnknown, 2)
  {
    hide ChildSpec, ChildIngressName, CurrentProxies, OlderProxies, Program;
  }

  /** The next reconcile finds the child ready, rolls out, and reports ready without asking. */
  lemma SkipStep(cfg: Config, k: Key, bad: (World, Event) -> bool, w: World, ing: Ingress, hosts: seq<string>,
                 service: string)
    returns (v: World)
    requires Small(cfg) && At(cfg, k, bad, w, ing) && One(cfg, ing, hosts, service) && SyncedAll(w) && hosts != []
    requires ChildHas(cfg, w.server, k, WantedChild(ing, service)) && ChildReady(cfg, w.server, k)
    requires w.server.ingresses[k].status == Status(IsTrue, IsTrue, IsUnknown, 2) && ing.generation == 2
    requires !bad(w, Reconciles(k, Env(cfg, ing, service, Yes(), ProbeNotReady)))
    ensures At(cfg, k, bad, v, ing) && IsReady(v.server.ingresses[k].status, 2)
    ensures Rolled(v.server, k, 2)
  {
    var env := Env(cfg, ing, service, Yes(), ProbeNotReady);
    EnvReply(cfg, ing, service, Yes(), ProbeNotReady);
    assert AllAccepted(env);
    hide Small, One, WantedChild, Inv, AllCanonical, Population, Reaches, Env, ChildKey, Step, SyncedAll, Suits,
         Faithful, ServicesKnown, Calm, RunGate, AllAccepted, Rolled;
    SceneCalm(cfg, k, bad, w, ing, hosts, service, Yes(), ProbeNotReady);
    SyncedIndex(w);
    OpenScene(cfg, k, bad, w, ing, hosts, service, env);
    Reconciled(cfg, k, bad, w, ing, k, env);
    v := w.(server := Step(cfg, w.server, w.views, k, env));
    SkipEffect(cfg, w.server, w.views, k, env);
  }

  lemma SkipEffect(cfg: Config, s: Server, views: Views, k: Key, env: Environment)
    requires Calm(cfg, s, views, k, env.desired) && AllAccepted(env) && ServicesKnown(s.ingresses[k].ing, env.services)
    requires RunGate(cfg, s, views, s.ingresses[k].ing, env).verdict.Open? && env.desired != []
    requires s.ingresses[k].status == Status(IsTrue, IsTrue, IsUnknown, 2) && s.ingresses[k].ing.generation == 2
    ensures var t := Step(cfg, s, views, k, env);
            k in t.ingresses && IsReady(t.ingresses[k].status, 2) && Rolled(t, k, 2)
  {
    hide RunGate, ServicesKnown, Attempt, Step, Program, Prepared, Unclaimed, ChildKey, ViewsSeen, IngressHistory,
         ObservedBounded, ChildCached, Exact, Rolled, Conclude, AllAccepted, Own;
    var ing := s.ingresses[k].ing;
    OpenGateRuns(cfg, s, views, k, env, env.desired);
    var done := Program(s, views.proxies, ing, 0, env);
    SkipConclude(cfg, done.server, done.calls, ing, Status(IsTrue, IsTrue, IsTrue, 2), ChildKey(cfg, k) in s.ingresses,
                 env);
    FinishedIsExact(cfg, s, views, k, env);
    StatusArrives(cfg, s, views, k, env);
    PreparedOwn(cfg, s, views.proxies, ing, env.desired);
    ExactRolled(Step(cfg, s, views, k, env), ing, env.desired);
  }

  lemma SkipConclude(cfg: Config, s: Server, calls: nat, ing: Ingress, configured: Status, haveProbe: bool,
                     env: Environment)
    requires IsReady(configured, ing.generation) && configured == Recomputed(configured) && AllAccepted(env)
    requires haveProbe ==> ChildKey(cfg, IngressKey(ing)) in s.ingresses
    ensures var c := Conclude(cfg, s, calls, ing, configured, haveProbe, env);
            && c.ending == Finished && IsReady(c.status, ing.generation)
            && c.server.ingresses == if haveProbe then s.ingresses - {ChildKey(cfg, IngressKey(ing))} else s.ingresses
  {
    hide ChildKey;
  }

  /** Ready without a probe: a run from a fresh, admitted ingress with a rule, a host and a
      backend. It is rolled out and ready at generation 1. Its spec is edited; the reply to the
      creation of the child is lost; the child is reconciled; and the next reconcile rolls out
      generation 2 and records it as ready, although the prober never confirmed it. */
  lemma ReadyUnprobed(cfg: Config, k: Key, front: string, first: string,
                      second: string) returns (ws: seq<World>, es: seq<Event>)
    requires Small(cfg) && first != "" && second != "" && first != second
    ensures WellNamed(cfg, {k}) && Run(cfg, {k}, ws, es) && Begins(ws[0], k)
    ensures k in ws[|es|].server.ingresses
    ensures var o := ws[|es|].server.ingresses[k];
            && o.ing == Simple(k, 2, front + ".example", second) && Admitted(o.ing.spec)
            && Rolled(ws[|es|].server, k, 2)
            && IsReady(o.status, 2) && !Confirmed(cfg, ws, es, |es|, k, 2)
  {
    var bad: (World, Event) -> bool := (w: World, e: Event) => Confirms(cfg, w, e, k, 2);
    ConfirmsOnlyAt(cfg, k, bad);
    var v := FirstGeneration(cfg, k, bad, front, first);
    var w := SecondGeneration(cfg, k, bad, front, first, second, v);
    SmallNames(cfg, k);
    OneSpecAdmitted([front + ".example"], second);
    hide Small, Inv, AllCanonical, Population, Begins, Confirms, WellNamed, Rolled, Admitted, OneSpec;
    ws, es :| Run(cfg, {k}, ws, es) && Begins(ws[0], k) && ws[|es|] == w && Avoids(ws, es, bad);
  }

  /** No reconcile of `k` at this generation is bad. */
  ghost predicate Harmless(bad: (World, Event) -> bool, k: Key, generation: nat) {
    forall w: World, env :: k in w.server.ingresses && w.server.ingresses[k].ing.generation == generation
                            ==> !bad(w, Reconciles(k, env))
  }

  /** No reconcile of `k` that does not get a confirmation is bad. */
  ghost predicate BadIfConfirmed(bad: (World, Event) -> bool, k: Key) {
    forall w, env :: bad(w, Reconciles(k, env)) ==> env.probe == ProbeReady
  }

  lemma ConfirmsOnlyAt(cfg: Config, k: Key, bad: (World, Event) -> bool)
    requires forall w, e :: bad(w, e) <==> Confirms(cfg, w, e, k, 2)
    ensures BadOnlyAt(bad, k) && Harmless(bad, k, 1) && BadIfConfirmed(bad, k)
  {
    hide Attempt;
  }

  /** The first generation is rolled out, and ready. */
  lemma FirstGeneration(cfg: Config, k: Key, bad: (World, Event) -> bool, front: string,
                        service: string) returns (w: World)
    requires Small(cfg) && service != "" && BadOnlyAt(bad, k) && Harmless(bad, k, 1)
    ensures At(cfg, k, bad, w, Simple(k, 1, front + ".example", service))
    ensures ChildKey(cfg, k) !in w.server.ingresses && w.server.ingresses[k].status == Status(IsTrue, IsTrue, IsTrue, 1)
  {
    var host := front + ".example";
    var ing := Simple(k, 1, host, service);
    SimpleIsOne(cfg, k, 1, front, service);
    OneSpecAdmitted([host], service);
    SmallNames(cfg, k);
    hide Small, Simple, One, Admitted, Inv, AllCanonical, Population, Reaches, WantedChild, BadOnlyAt, Rolled, Env,
         Exact, SyncedAll, Harmless;
    var a := Begin(cfg, k, bad, ing);
    NothingStored(a.server, k, 1);
    HarmlessHere(bad, k, a, Env(cfg, ing, service, Yes(), ProbeReady));
    var b := ProbeRound(cfg, k, bad, a, ing, [host], service, ProbeReady);
    HarmlessHere(bad, k, b, Env(cfg, ing, service, Yes(), ProbeReady));
    w := SettleStep(cfg, k, bad, b, ing, [host], service);
  }

  lemma HarmlessHere(bad: (World, Event) -> bool, k: Key, w: World, env: Environment)
    requires Harmless(bad, k, 1) && k in w.server.ingresses && w.server.ingresses[k].ing.generation == 1
    ensures !bad(w, Reconciles(k, env))
  {
  }

  lemma UnconfirmedHere(bad: (World, Event) -> bool, k: Key, w: World, env: Environment)
    requires BadIfConfirmed(bad, k) && env.probe != ProbeReady
    ensures !bad(w, Reconciles(k, env))
  {
  }

  lemma ServicesDiffer(host: string, first: string, second: string)
    requires first != second
    ensures OneSpec([host], second) != OneSpec([host], first)
  {
    assert OneSpec([host], second).rules[0].paths[0].splits[0].service == second;
    assert OneSpec([host], first).rules[0].paths[0].splits[0].service == first;
  }

  /** The second generation becomes ready without a confirmation. */
  lemma SecondGeneration(cfg: Config, k: Key, bad: (World, Event) -> bool, front: string, first: string, second: string,
                         v: World)
    returns (w: World)
    requires Small(cfg) && first != second && BadOnlyAt(bad, k) && BadIfConfirmed(bad, k)
    requires At(cfg, k, bad, v, Simple(k, 1, front + ".example", first))
    requires ChildKey(cfg, k) !in v.server.ingresses
    requires v.server.ingresses[k].status == Status(IsTrue, IsTrue, IsTrue, 1)
    ensures At(cfg, k, bad, w, Simple(k, 2, front + ".example", second))
    ensures IsReady(w.server.ingresses[k].status, 2) && Rolled(w.server, k, 2)
  {
    hide Small, One, Inv, AllCanonical, Population, Reaches, WantedChild, BadOnlyAt, Rolled, Env, ChildKey,
         BadIfConfirmed, OneSpec, SyncedAll, CurrentProxies, LoseFirst, Yes;
    var host := front + ".example";
    var ing := Simple(k, 2, host, second);
    SimpleIsOne(cfg, k, 2, front, second);
    ServicesDiffer(host, first, second);
    EnvReply(cfg, ing, second, LoseFirst(), ProbeNotReady);
    EnvReply(cfg, ing, second, Yes(), ProbeNotReady);
    var a := EditStep(cfg, k, bad, v, Simple(k, 1, host, first), OneSpec([host], second));
    var b := SyncUp(cfg, k, bad, a, ing);
    NoneCurrent(b, ing);
    UnconfirmedHere(bad, k, b, Env(cfg, ing, second, LoseFirst(), ProbeNotReady));
    var c := LoseStep(cfg, k, bad, b, ing, [host], second);
    var d := ChildRound(cfg, k, bad, c, ing, second);
    UnconfirmedHere(bad, k, d, Env(cfg, ing, second, Yes(), ProbeNotReady));
    w := SkipStep(cfg, k, bad, d, ing, [host], second);
  }

  /** Such a run exists, without any premise. */
  lemma SomeReadyUnprobed() returns (cfg: Config, k: Key, ws: seq<World>, es: seq<Event>)
    ensures WellNamed(cfg, {k}) && Run(cfg, {k}, ws, es) && Begins(ws[0], k) && k in ws[|es|].server.ingresses
    ensures IsReady(ws[|es|].server.ingresses[k].status, 2) && !Confirmed(cfg, ws, es, |es|, k, 2)
  {
    hide Small, WellNamed, Begins, Confirms, Possible, Next, Init, Admitted, Simple, Rolled;
    cfg := SmallExists();
    k := Key("default", "app");
    ws, es := ReadyUnprobed(cfg, k, "app", "first", "second");
  }
}
