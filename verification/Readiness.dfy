/** Readiness over runs: the load balancer condition never comes back without a probe, and
    exactly when "ready" may be reported for a generation that was never probed. */
module Readiness {
  import opened Model
  import opened EndpointProbe
  import opened Compiler
  import opened Conditions
  import opened Cluster
  import opened Reconcile
  import opened Framing
  import opened Rollout
  import opened Worlds
  import opened Histories

  // ---- One reconcile ---------------------------------------------------------------

  /** How the status that `ReconcileKind` leaves behind came about. */
  ghost predicate StatusCase(status: Status, generation: nat, env: Environment, o: Outcome) {
    var configured := MarkNetworkConfigured(status);
    || (o.ending == Failed && !o.asked && o.status == status)
    || (o.ending == Waiting && !o.asked && o.status == MarkIngressNotReady(MarkLoadBalancerNotReady(status)))
    || (o.ending == Failed && !o.asked && o.status == configured && !IsReady(configured, generation))
    || (o.asked && o.ending != Waiting && env.probe == ProbeReady
        && o.status == MarkLoadBalancerReady(configured).(observed := generation))
    || (o.asked && o.ending != Waiting && env.probe == ProbeNotReady
        && o.status == MarkLoadBalancerNotReady(configured).(observed := generation))
    || (!o.asked && o.ending != Waiting && IsReady(configured, generation)
        && o.status == MarkLoadBalancerReady(configured).(observed := generation))
  }

  lemma KindStatus(cfg: Config, s: Server, views: Views, ing: Ingress, status: Status, env: Environment)
    ensures StatusCase(status, ing.generation, env, Kind(cfg, s, views, ing, status, env))
  {
    hide RunGate, Program, ServicesKnown, Send, DeleteIngress;
  }

  /** A reconcile reports ready without asking the prober exactly when, at its start, the
      stored status already had the load balancer ready for an observed current generation. */
  lemma SkipsProbe(cfg: Config, s: Server, views: Views, k: Key, env: Environment)
    requires k in s.ingresses
    ensures var o, a := s.ingresses[k], Attempt(cfg, s, views, k, env);
            !a.asked && IsReady(a.status, o.ing.generation) && a.ending == Finished
            ==> o.status.loadBalancer == IsTrue && o.status.observed == o.ing.generation
    ensures var o, a := s.ingresses[k], Attempt(cfg, s, views, k, env);
            a.ending == Finished && o.status.loadBalancer == IsTrue && o.status.observed == o.ing.generation
            ==> !a.asked && IsReady(a.status, o.ing.generation)
  {
    var o := s.ingresses[k];
    KindStatus(cfg, s, views, o.ing, PreProcess(o.status, o.ing.generation), env);
    hide Kind;
  }

  /** The load balancer is ready only for a generation that the prober has confirmed. */
  ghost predicate Honest(status: Status, probed: set<nat>) {
    status.loadBalancer == IsTrue ==> status.observed in probed
  }

  ghost function ProbedAfter(probed: set<nat>, generation: nat, env: Environment, a: Outcome): set<nat> {
    if a.asked && env.probe == ProbeReady then probed + {generation} else probed
  }

  /** The reconcile is bound to wait: the cached child has the wanted spec and is not ready. */
  ghost predicate Waits(cfg: Config, views: Views, ing: Ingress) {
    var ck := ChildKey(cfg, IngressKey(ing));
    && !IsEndpointProbe(ing) && CurrentProxies(views.proxies, ing) == []
    && ck in views.ingresses
    && views.ingresses[ck].ing.spec == ChildSpec(cfg, ing, OlderProxies(views.proxies, ing))
    && !IsReady(views.ingresses[ck].status, views.ingresses[ck].ing.generation)
  }

  /** What a caller can see before the reconcile: the load balancer is not ready, or it speaks
      about the current or a confirmed generation, or the reconcile is bound to wait. */
  ghost predicate Guarded(cfg: Config, o: IngressObject, views: Views, probed: set<nat>) {
    o.status.loadBalancer != IsTrue || o.status.observed == o.ing.generation || o.ing.generation in probed
      || Waits(cfg, views, o.ing)
  }

  lemma WaitsOutcome(cfg: Config, s: Server, views: Views, ing: Ingress, status: Status, env: Environment)
    requires Waits(cfg, views, ing)
    ensures Kind(cfg, s, views, ing, status, env).ending == Waiting
  {
    hide ChildSpec, ChildKey, Program, CurrentProxies, OlderProxies;
  }

  /** Everything goes wrong at the first occasion. */
  ghost function Adverse(desired: seq<HTTPProxy>): Environment {
    Environment(n => Reject, {}, ProbeError, map[], desired)
  }

  /** Then a reconcile that is not bound to wait fails without asking the prober, unless the
      status is ready at the generation from the start. */
  lemma AdverseOutcome(cfg: Config, s: Server, views: Views, ing: Ingress, status: Status, desired: seq<HTTPProxy>)
    requires !Waits(cfg, views, ing) && status.observed != ing.generation
    ensures var a := Kind(cfg, s, views, ing, status, Adverse(desired));
            a.ending == Failed && !a.asked
  {
    hide ChildSpec, ChildKey, CurrentProxies, OlderProxies, Program, ServicesKnown, CreateIngress, UpdateIngress;
  }

  lemma AdverseFaithful(cfg: Config, ing: Ingress)
    ensures exists desired :: Faithful(cfg, ing, Adverse(desired))
  {
    var desired := Compile(cfg, ing, Protocols.IngressProtocols(cfg, ing, map[]));
    CompileFaithful(cfg, ing, Adverse(desired));
  }

  /** A reconcile that errors out before reaching its verdict, while the stored load balancer
      condition still speaks about an older generation. */
  ghost predicate Skews(status: Status, generation: nat, a: Outcome) {
    status.loadBalancer == IsTrue && status.observed != generation && a.ending == Failed && !a.asked
  }

  /** From an honest status, the status that a reconcile records is honest again exactly unless
      it skews at a generation that was not probed before. */
  lemma HonestOutcome(cfg: Config, s: Server, views: Views, k: Key, env: Environment, probed: set<nat>)
    requires k in s.ingresses && Honest(s.ingresses[k].status, probed)
    ensures var o, a := s.ingresses[k], Attempt(cfg, s, views, k, env);
            Honest(PostProcess(a.status, o.ing.generation), ProbedAfter(probed, o.ing.generation, env, a))
            <==> !Skews(o.status, o.ing.generation, a) || o.ing.generation in probed
  {
    var o := s.ingresses[k];
    KindStatus(cfg, s, views, o.ing, PreProcess(o.status, o.ing.generation), env);
    hide Kind;
  }

  /** An honest status stays honest whatever the reconcile meets, if and only if it is guarded
      at the start. */
  lemma HonestExactly(cfg: Config, s: Server, views: Views, k: Key, probed: set<nat>)
    requires k in s.ingresses && Honest(s.ingresses[k].status, probed)
    ensures (forall env :: Faithful(cfg, s.ingresses[k].ing, env) ==>
               var a := Attempt(cfg, s, views, k, env);
               Honest(PostProcess(a.status, s.ingresses[k].ing.generation),
                      ProbedAfter(probed, s.ingresses[k].ing.generation, env, a)))
       <==> Guarded(cfg, s.ingresses[k], views, probed)
  {
    var o := s.ingresses[k];
    var g, status := o.ing.generation, PreProcess(o.status, o.ing.generation);
    hide Kind, Faithful, Waits, Honest, ProbedAfter, PostProcess, IsReady, Adverse;
    if Guarded(cfg, o, views, probed) {
      forall env | Faithful(cfg, o.ing, env)
        ensures var a := Attempt(cfg, s, views, k, env); Honest(PostProcess(a.status, g),
                                                            ProbedAfter(probed, g, env, a))
      {
        HonestOutcome(cfg, s, views, k, env, probed);
        if Waits(cfg, views, o.ing) {
          WaitsOutcome(cfg, s, views, o.ing, status, env);
        }
      }
    } else {
      AdverseFaithful(cfg, o.ing);
      var desired :| Faithful(cfg, o.ing, Adverse(desired));
      AdverseOutcome(cfg, s, views, o.ing, status, desired);
      HonestOutcome(cfg, s, views, k, Adverse(desired), probed);
    }
  }

  // ---- Runs ------------------------------------------------------------------------

  /** Only its own reconciles change the status of a top-level ingress. */
  lemma StatusKept(cfg: Config, tops: set<Key>, w: World, e: Event, k: Key)
    requires WellNamed(cfg, tops) && Inv(cfg, tops, w) && Possible(cfg, tops, w, e) && k in tops
    requires !(e.Reconciles? && e.k == k)
    ensures k in Next(cfg, tops, w, e).server.ingresses
    ensures Next(cfg, tops, w, e).server.ingresses[k].status == w.server.ingresses[k].status
  {
    hide Step, Tidy, Shaped, Faithful, ProxyFrame, ChildKey, Touched;
    if e.Reconciles? {
      TouchedChild(cfg, tops, w.server, w.views, e.k);
      StepFrame(cfg, w.server, w.views, e.k, e.env);
    } else if e.EditsSpec? {
      StoredWasSeen(w.server, e.k);
    }
  }

  /** Its own reconcile leaves the status as it was or as computed. */
  lemma StatusWritten(cfg: Config, tops: set<Key>, w: World, k: Key, env: Environment)
    requires WellNamed(cfg, tops) && Inv(cfg, tops, w) && Possible(cfg, tops, w, Reconciles(k, env)) && k in tops
    ensures var o, t := w.server.ingresses[k], Step(cfg, w.server, w.views, k, env);
            var a := Attempt(cfg, w.server, w.views, k, env);
            && k in t.ingresses
            && (t.ingresses[k].status == o.status || t.ingresses[k].status == PostProcess(a.status, o.ing.generation))
            && (env.reply(a.calls) == Accept ==> t.ingresses[k].status == PostProcess(a.status, o.ing.generation))
  {
    hide Step, Attempt, Tidy, Shaped, Faithful, ChildKey, NewChild;
    TouchedChild(cfg, tops, w.server, w.views, k);
    StepAdds(cfg, w.server, w.views, k, env);
  }

  /** The prober was asked about this ingress at this generation and confirmed it. */
  ghost predicate Confirms(cfg: Config, w: World, e: Event, k: Key, generation: nat) {
    && e.Reconciles? && e.k == k && k in w.server.ingresses
    && w.server.ingresses[k].ing.generation == generation
    && Attempt(cfg, w.server, w.views, k, e.env).asked && e.env.probe == ProbeReady
  }

  /** What the reconcile computes about the load balancer. */
  lemma LoadBalancerOutcome(cfg: Config, s: Server, views: Views, k: Key, env: Environment)
    requires k in s.ingresses
    ensures var o, a := s.ingresses[k], Attempt(cfg, s, views, k, env);
            o.status.loadBalancer != IsTrue && a.status.loadBalancer == IsTrue ==> a.asked && env.probe == ProbeReady
    ensures var a := Attempt(cfg, s, views, k, env);
            a.ending == Waiting || (a.asked && env.probe == ProbeNotReady) ==> a.status.loadBalancer != IsTrue
  {
    var o := s.ingresses[k];
    hide Kind, StatusCase;
    KindStatus(cfg, s, views, o.ing, PreProcess(o.status, o.ing.generation), env);
    LoadBalancerCase(PreProcess(o.status, o.ing.generation), o.ing.generation, env, Attempt(cfg, s, views, k, env));
  }

  lemma LoadBalancerCase(status: Status, generation: nat, env: Environment, a: Outcome)
    requires StatusCase(status, generation, env, a)
    ensures status.loadBalancer != IsTrue && a.status.loadBalancer == IsTrue ==> a.asked && env.probe == ProbeReady
    ensures a.ending == Waiting || (a.asked && env.probe == ProbeNotReady) ==> a.status.loadBalancer != IsTrue
  {
  }

  /** Only a reconcile whose prober confirms turns the load balancer ready. */
  lemma LoadBalancerStep(cfg: Config, tops: set<Key>, w: World, e: Event, k: Key)
    requires WellNamed(cfg, tops) && Inv(cfg, tops, w) && Possible(cfg, tops, w, e) && k in tops
    ensures k in w.server.ingresses && k in Next(cfg, tops, w, e).server.ingresses
    ensures w.server.ingresses[k].status.loadBalancer != IsTrue
         && Next(cfg, tops, w, e).server.ingresses[k].status.loadBalancer == IsTrue
         ==> Confirms(cfg, w, e, k, w.server.ingresses[k].ing.generation)
  {
    hide Attempt, Step, Inv, WellNamed;
    TopsStored(cfg, tops, w, k);
    if e.Reconciles? && e.k == k {
      hide Faithful;
      StatusWritten(cfg, tops, w, k, e.env);
      LoadBalancerOutcome(cfg, w.server, w.views, k, e.env);
    } else {
      hide Next, Possible;
      StatusKept(cfg, tops, w, e, k);
    }
  }

  /** A closed gate or a prober that denies turns it not ready, once the status is written. */
  lemma LoadBalancerLost(cfg: Config, tops: set<Key>, w: World, k: Key, env: Environment)
    requires WellNamed(cfg, tops) && Inv(cfg, tops, w) && Possible(cfg, tops, w, Reconciles(k, env)) && k in tops
    requires var a := Attempt(cfg, w.server, w.views, k, env);
             (a.ending == Waiting || (a.asked && env.probe == ProbeNotReady)) && env.reply(a.calls) == Accept
    ensures k in Step(cfg, w.server, w.views, k, env).ingresses
    ensures Step(cfg, w.server, w.views, k, env).ingresses[k].status.loadBalancer != IsTrue
  {
    hide Attempt, Step, Inv, WellNamed, Faithful;
    StatusWritten(cfg, tops, w, k, env);
    LoadBalancerOutcome(cfg, w.server, w.views, k, env);
  }

  lemma TopsStored(cfg: Config, tops: set<Key>, w: World, k: Key)
    requires Inv(cfg, tops, w) && k in tops
    ensures k in w.server.ingresses
  {
  }

  /** Once a stored status has the load balancer not ready, it stays so through every event,
      failure and generation bump until the prober confirms. */
  lemma {:induction false} LoadBalancerNeedsProbe(cfg: Config, tops: set<Key>, ws: seq<World>, es: seq<Event>, i: nat,
                                                  j: nat, k: Key)
    requires WellNamed(cfg, tops) && Run(cfg, tops, ws, es) && i <= j < |ws| && k in tops
    requires k in ws[i].server.ingresses && ws[i].server.ingresses[k].status.loadBalancer != IsTrue
    requires k in ws[j].server.ingresses && ws[j].server.ingresses[k].status.loadBalancer == IsTrue
    ensures exists m ::
              i <= m < j && k in ws[m].server.ingresses
                && Confirms(cfg, ws[m], es[m], k, ws[m].server.ingresses[k].ing.generation)
  {
    hide Inv, Next, Possible, Confirms, Init, WellNamed;
    if i < j {
      RunInv(cfg, tops, ws, es, j - 1);
      LoadBalancerStep(cfg, tops, ws[j - 1], es[j - 1], k);
      if ws[j - 1].server.ingresses[k].status.loadBalancer == IsTrue {
        LoadBalancerNeedsProbe(cfg, tops, ws, es, i, j - 1, k);
      }
    }
  }

  // ---- Ready and probed ------------------------------------------------------------

  ghost predicate SkewsAt(cfg: Config, w: World, e: Event, k: Key) {
    && e.Reconciles? && e.k == k && k in w.server.ingresses
    && Skews(w.server.ingresses[k].status, w.server.ingresses[k].ing.generation,
             Attempt(cfg, w.server, w.views, k, e.env))
  }

  ghost predicate Confirmed(cfg: Config, ws: seq<World>, es: seq<Event>, i: nat, k: Key, generation: nat)
    requires i <= |es| < |ws|
  {
    exists j :: 0 <= j < i && Confirms(cfg, ws[j], es[j], k, generation)
  }

  /** Ready is only true together with the load balancer. */
  ghost predicate Coherent(status: Status) {
    status.ready == IsTrue ==> status.loadBalancer == IsTrue
  }

  lemma ReadyStep(cfg: Config, tops: set<Key>, w: World, e: Event, k: Key)
    requires WellNamed(cfg, tops) && Inv(cfg, tops, w) && Possible(cfg, tops, w, e) && k in tops
    requires !SkewsAt(cfg, w, e, k)
    requires k in w.server.ingresses && Coherent(w.server.ingresses[k].status)
    ensures k in Next(cfg, tops, w, e).server.ingresses
    ensures var now := Next(cfg, tops, w, e).server.ingresses[k].status;
            && Coherent(now)
            && (now.loadBalancer == IsTrue ==>
                  || Confirms(cfg, w, e, k, now.observed)
                  || (w.server.ingresses[k].status.loadBalancer == IsTrue
                      && now.observed == w.server.ingresses[k].status.observed))
  {
    hide Attempt, Step, Inv, WellNamed, Coherent;
    if e.Reconciles? && e.k == k {
      hide Faithful, Skews;
      StatusWritten(cfg, tops, w, k, e.env);
      ReadyOutcome(cfg, w.server, w.views, k, e.env);
      CoherentObserved(Attempt(cfg, w.server, w.views, k, e.env).status, w.server.ingresses[k].ing.generation);
    } else {
      hide Next, Possible, SkewsAt;
      StatusKept(cfg, tops, w, e, k);
    }
  }

  lemma CoherentObserved(status: Status, generation: nat)
    ensures Coherent(PostProcess(status, generation)) <==> Coherent(status)
  {
  }

  lemma ReadyOutcome(cfg: Config, s: Server, views: Views, k: Key, env: Environment)
    requires k in s.ingresses && Coherent(s.ingresses[k].status)
    requires !Skews(s.ingresses[k].status, s.ingresses[k].ing.generation, Attempt(cfg, s, views, k, env))
    ensures var o, a := s.ingresses[k], Attempt(cfg, s, views, k, env);
            && Coherent(a.status)
            && (a.status.loadBalancer == IsTrue ==>
                  || (a.asked && env.probe == ProbeReady)
                  || (o.status.loadBalancer == IsTrue && o.status.observed == o.ing.generation))
  {
    var o := s.ingresses[k];
    hide Kind, StatusCase;
    KindStatus(cfg, s, views, o.ing, PreProcess(o.status, o.ing.generation), env);
    ReadyCase(o.status, o.ing.generation, env, Attempt(cfg, s, views, k, env));
  }

  lemma ReadyCase(status: Status, generation: nat, env: Environment, a: Outcome)
    requires Coherent(status) && !Skews(status, generation, a)
    requires StatusCase(PreProcess(status, generation), generation, env, a)
    ensures Coherent(a.status)
    ensures a.status.loadBalancer == IsTrue ==>
              (a.asked && env.probe == ProbeReady) || (status.loadBalancer == IsTrue && status.observed == generation)
  {
  }

  /** In every run without a skewing reconcile of this ingress, it is ready at a generation
      only if the prober has confirmed that very generation. */
  lemma {:induction false} ReadyImpliesProbed(cfg: Config, tops: set<Key>, ws: seq<World>, es: seq<Event>, i: nat,
                                              k: Key)
    requires WellNamed(cfg, tops) && Run(cfg, tops, ws, es) && i < |ws| && k in tops
    requires k in ws[0].server.ingresses && ws[0].server.ingresses[k].status == INITIAL_STATUS
    requires forall j :: 0 <= j < i ==> !SkewsAt(cfg, ws[j], es[j], k)
    ensures k in ws[i].server.ingresses && Coherent(ws[i].server.ingresses[k].status)
    ensures var status := ws[i].server.ingresses[k].status;
            status.loadBalancer == IsTrue ==> Confirmed(cfg, ws, es, i, k, status.observed)
    ensures var o := ws[i].server.ingresses[k];
            IsReady(o.status, o.ing.generation) ==> Confirmed(cfg, ws, es, i, k, o.ing.generation)
  {
    hide Inv, Next, Possible, Confirms, Init, WellNamed, SkewsAt;
    if i > 0 {
      RunInv(cfg, tops, ws, es, i - 1);
      ReadyImpliesProbed(cfg, tops, ws, es, i - 1, k);
      ReadyStep(cfg, tops, ws[i - 1], es[i - 1], k);
    }
  }

  /** A reconcile of `k` finds it guarded. */
  ghost predicate GuardedAt(cfg: Config, ws: seq<World>, es: seq<Event>, j: nat, k: Key)
    requires j < |es| < |ws|
  {
    var w, e := ws[j], es[j];
    e.Reconciles? && e.k == k && k in w.server.ingresses ==>
      var o := w.server.ingresses[k];
      || o.status.loadBalancer != IsTrue || o.status.observed == o.ing.generation
      || Confirmed(cfg, ws, es, j, k, o.ing.generation) || Waits(cfg, w.views, o.ing)
  }

  /** The same on conditions that are visible before each reconcile: if every reconcile of this
      ingress finds it guarded, it is ready at a generation only if that very generation was
      confirmed. */
  lemma {:induction false} GuardedRunsAreHonest(cfg: Config, tops: set<Key>, ws: seq<World>, es: seq<Event>, i: nat,
                                                k: Key)
    requires WellNamed(cfg, tops) && Run(cfg, tops, ws, es) && i < |ws| && k in tops
    requires k in ws[0].server.ingresses && ws[0].server.ingresses[k].status == INITIAL_STATUS
    requires forall j :: 0 <= j < i ==> GuardedAt(cfg, ws, es, j, k)
    ensures k in ws[i].server.ingresses && Coherent(ws[i].server.ingresses[k].status)
    ensures var status := ws[i].server.ingresses[k].status;
            status.loadBalancer == IsTrue ==> Confirmed(cfg, ws, es, i, k, status.observed)
    ensures var o := ws[i].server.ingresses[k];
            IsReady(o.status, o.ing.generation) ==> Confirmed(cfg, ws, es, i, k, o.ing.generation)
  {
    hide Inv, Next, Possible, Confirms, Init, WellNamed, GuardedAt;
    if i > 0 {
      RunInv(cfg, tops, ws, es, i - 1);
      GuardedRunsAreHonest(cfg, tops, ws, es, i - 1, k);
      GuardedStep(cfg, tops, ws, es, i - 1, k);
    }
  }

  lemma GuardedStep(cfg: Config, tops: set<Key>, ws: seq<World>, es: seq<Event>, j: nat, k: Key)
    requires WellNamed(cfg, tops) && j < |es| < |ws| && Inv(cfg, tops, ws[j]) && Possible(cfg, tops, ws[j], es[j])
    requires k in tops
    requires k in ws[j].server.ingresses && Coherent(ws[j].server.ingresses[k].status) && GuardedAt(cfg, ws, es, j, k)
    ensures k in Next(cfg, tops, ws[j], es[j]).server.ingresses
    ensures var was, now := ws[j].server.ingresses[k].status, Next(cfg, tops, ws[j], es[j]).server.ingresses[k].status;
            && Coherent(now)
            && (now.loadBalancer == IsTrue ==>
                  || Confirms(cfg, ws[j], es[j], k, now.observed)
                  || Confirmed(cfg, ws, es, j, k, now.observed)
                  || (was.loadBalancer == IsTrue && now.observed == was.observed))
  {
    var w, e := ws[j], es[j];
    hide Inv, WellNamed, Confirms, Coherent, Possible, Next, Waits;
    if SkewsAt(cfg, w, e, k) {
      assert Confirmed(cfg, ws, es, j, k, w.server.ingresses[k].ing.generation) by {
        if Waits(cfg, w.views, w.server.ingresses[k].ing) {
          var o := w.server.ingresses[k];
          WaitsOutcome(cfg, w.server, w.views, o.ing, PreProcess(o.status, o.ing.generation), e.env);
        }
      }
      SkewedStep(cfg, tops, w, e, k);
    } else {
      ReadyStep(cfg, tops, w, e, k);
    }
  }

  /** A skewing reconcile records the current generation, or nothing. */
  lemma SkewedStep(cfg: Config, tops: set<Key>, w: World, e: Event, k: Key)
    requires WellNamed(cfg, tops) && Inv(cfg, tops, w) && Possible(cfg, tops, w, e) && k in tops
    requires SkewsAt(cfg, w, e, k)
    requires Coherent(w.server.ingresses[k].status)
    ensures k in Next(cfg, tops, w, e).server.ingresses
    ensures var o, now := w.server.ingresses[k], Next(cfg, tops, w, e).server.ingresses[k].status;
            Coherent(now) && (now.observed == o.ing.generation || now == o.status)
  {
    hide Step, Inv, WellNamed, Attempt, Coherent, Faithful, Skews;
    var o := w.server.ingresses[k];
    StatusWritten(cfg, tops, w, k, e.env);
    SkewedCoherent(cfg, w.server, w.views, k, e.env);
    CoherentObserved(Attempt(cfg, w.server, w.views, k, e.env).status, o.ing.generation);
  }

  lemma SkewedCoherent(cfg: Config, s: Server, views: Views, k: Key, env: Environment)
    requires k in s.ingresses && Coherent(s.ingresses[k].status)
    ensures Coherent(Attempt(cfg, s, views, k, env).status)
  {
    var o := s.ingresses[k];
    KindStatus(cfg, s, views, o.ing, PreProcess(o.status, o.ing.generation), env);
    hide Kind;
  }
}
