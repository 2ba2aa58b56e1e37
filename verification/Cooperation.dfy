/** Convergence over runs: the parent and its child are reconciled by the same controller, in
    any order and with anything else going on in between, and the ingress settles. */
module Cooperation {
  import opened Model
  import opened EndpointProbe
  import opened Outputs
  import opened Conditions
  import opened Cluster
  import opened Reconcile
  import opened Framing
  import opened Rollout
  import opened Steps
  import opened Worlds
  import opened Histories
  import opened Lifetime
  import opened ChildOrigin
  import opened Convergence

  // ---- Every labelled proxy is canonical -------------------------------------------

  /** Every proxy with a parent label, whoever that parent is, has the name and labels that
      follow from its parent, class and fqdn. */
  ghost predicate AllCanonical(cfg: Config, s: Server) {
    forall p :: p in s.seen && p.labels.parent.Some? ==> Canonical(cfg, p.labels.parent.value, p)
  }

  lemma CanonicalNames(cfg: Config, s: Server, view: seq<HTTPProxy>, ing: Ingress, ds: seq<HTTPProxy>)
    requires CollisionFree(cfg) && AllCanonical(cfg, s) && (forall p :: p in view ==> p in s.seen)
    requires forall d :: d in ds ==> Identified(cfg, ing, d)
    ensures NamesAgree(view, ds)
  {
    hide Canonical, CollisionFree;
    forall d, m | d in ds && m in view && SameTarget(m, d)
      ensures KeyOf(m) == KeyOf(d)
    {
      assert Identified(cfg, ing, d) && m.labels.parent == Some(ing.name);
      TargetFixesName(cfg, ing, m, d);
    }
  }

  lemma HeldIsCanonical(cfg: Config, ing: Ingress, p: HTTPProxy, d: HTTPProxy)
    requires Identified(cfg, ing, d) && Holds(p, d)
    ensures p.labels.parent == Some(ing.name) && Canonical(cfg, ing.name, p)
  {
  }

  lemma StepCanonical(cfg: Config, s: Server, views: Views, r: Key, env: Environment)
    requires CollisionFree(cfg) && AllCanonical(cfg, s) && History(s, views) && r in s.ingresses
    requires Faithful(cfg, s.ingresses[r].ing, env)
    ensures AllCanonical(cfg, Step(cfg, s, views, r, env)) && AddsOnly(s, Step(cfg, s, views, r, env), env.desired)
  {
    var ing := s.ingresses[r].ing;
    FaithfulIdentified(cfg, ing, env);
    hide Faithful, Step, Targets, TargetsOf, CollisionFree, Holds, Canonical, Identified, IngressHistory, ProxyHistory;
    CanonicalNames(cfg, s, views.proxies, ing, env.desired);
    StepAddsProxies(cfg, s, views, r, env);
    forall p | p in Step(cfg, s, views, r, env).seen && p !in s.seen
      ensures p.labels.parent == Some(ing.name) && Canonical(cfg, ing.name, p)
    {
      var d :| d in env.desired && Holds(p, d);
      HeldIsCanonical(cfg, ing, p, d);
    }
  }

  lemma NextCanonical(cfg: Config, tops: set<Key>, w: World, e: Event)
    requires WellNamed(cfg, tops) && Inv(cfg, tops, w) && Possible(cfg, tops, w, e) && AllCanonical(cfg, w.server)
    ensures AllCanonical(cfg, Next(cfg, tops, w, e).server)
  {
    if e.Reconciles? {
      hide Step, Faithful, Canonical, TopNames, CollisionFree, AllShaped, AllTidy, ProxyHistory, IngressHistory;
      StepCanonical(cfg, w.server, w.views, e.k, e.env);
    } else {
      hide Faithful, TopNames, CollisionFree, AllShaped, AllTidy, IngressHistory, ViewsSeen, ObservedBounded;
    }
  }

  lemma {:induction false} RunCanonical(cfg: Config, tops: set<Key>, ws: seq<World>, es: seq<Event>, i: nat)
    requires WellNamed(cfg, tops) && Run(cfg, tops, ws, es) && i < |ws|
    ensures AllCanonical(cfg, ws[i].server)
  {
    hide Inv, Possible, Next, WellNamed, Canonical;
    if i > 0 {
      RunCanonical(cfg, tops, ws, es, i - 1);
      RunInv(cfg, tops, ws, es, i - 1);
      NextCanonical(cfg, tops, ws[i - 1], es[i - 1]);
    }
  }

  // ---- The child's own reconcile ends well -----------------------------------------

  /** A reconcile of a probe ingress whose wanted names are free or its own finishes. */
  lemma ProbeFinishes(cfg: Config, s: Server, views: Views, r: Key, env: Environment)
    requires r in s.ingresses && IsEndpointProbe(s.ingresses[r].ing)
    requires AllAccepted(env) && env.probe == ProbeReady && ServicesKnown(s.ingresses[r].ing, env.services)
    requires Aligned(s, views.proxies, env.desired) && Creatable(s, views.proxies, env.desired)
    requires DistinctKeys(env.desired)
    ensures Attempt(cfg, s, views, r, env).ending == Finished
  {
    var ing := s.ingresses[r].ing;
    var status := PreProcess(s.ingresses[r].status, ing.generation);
    hide Aligned, Creatable, DistinctKeys, ServicesKnown, ApplyAll, Kind, ProbeGate, ChildKey, CurrentProxies,
         OlderProxies, Leftovers, Conclude;
    ApplyAllAccepted(s, views.proxies, env.desired, 0, env);
    assert RunGate(cfg, s, views, ing, env) == Gate(s, 0, Open(false));
    var done := Program(s, views.proxies, ing, 0, env);
    assert done.ok;
    hide RunGate, Program;
    OpenKind(cfg, s, views, ing, status, env);
    ConcludeFinishes(cfg, done.server, done.calls, ing, MarkNetworkConfigured(status), env);
  }

  lemma ConcludeFinishes(cfg: Config, s: Server, calls: nat, ing: Ingress, configured: Status, env: Environment)
    requires env.probe == ProbeReady
    ensures Conclude(cfg, s, calls, ing, configured, false, env).ending == Finished
  {
  }

  lemma CanonicalAligned(cfg: Config, s: Server, view: seq<HTTPProxy>, ing: Ingress, ds: seq<HTTPProxy>)
    requires CollisionFree(cfg) && AllCanonical(cfg, s) && ProxyHistory(s) && (forall p :: p in view ==> p in s.seen)
    requires Synced(s, view, ing) && (forall d :: d in ds ==> Identified(cfg, ing, d)) && Unclaimed(s, ds)
    ensures Aligned(s, view, ds) && Creatable(s, view, ds)
  {
    CanonicalNames(cfg, s, view, ing, ds);
    hide CollisionFree, Canonical, AllCanonical;
    forall d, m | d in ds && m in view && SameTarget(m, d)
      ensures KeyOf(m) == KeyOf(d) && KeyOf(d) in s.proxies && s.proxies[KeyOf(d)] == m
    {
      assert Identified(cfg, ing, d);
      assert OfParent(m, ing);
    }
    forall d | d in ds && KeyOf(d) in s.proxies
      ensures s.proxies[KeyOf(d)] in Matches(view, d)
    {
      var p := s.proxies[KeyOf(d)];
      assert Identified(cfg, ing, d);
      assert OfParent(p, ing) && KeyOf(p) == KeyOf(d);
    }
  }

  // ---- Events that cooperate -------------------------------------------------------

  /** A reconcile of `k` without failures, with a confirming prober, caches in sync and the
      wanted names free. */
  ghost predicate DrivesParent(cfg: Config, w: World, e: Event, k: Key, ds: seq<HTTPProxy>) {
    && e.Reconciles? && e.k == k && k in w.server.ingresses
    && Cooperates(w.server.ingresses[k].ing, e.env, ds)
    && Fresh(cfg, w, e, k) && ChildCached(cfg, w.server, w.views, k) && Unclaimed(w.server, ds)
  }

  /** The same for the child of `k`. */
  ghost predicate DrivesChild(cfg: Config, w: World, e: Event, k: Key) {
    var ck := ChildKey(cfg, k);
    && e.Reconciles? && e.k == ck && ck in w.server.ingresses
    && var child := w.server.ingresses[ck].ing;
    && AllAccepted(e.env) && e.env.probe == ProbeReady && ServicesKnown(child, e.env.services)
    && Synced(w.server, w.views.proxies, child) && Separate(Targets(cfg, child)) && Unclaimed(w.server, e.env.desired)
  }

  /** Anything else: cache refreshes, reconciles and edits of other ingresses, writes by others,
      and reports by Contour, except on the older proxies of `k`. */
  ghost predicate Tolerable(cfg: Config, w: World, e: Event, k: Key)
    requires k in w.server.ingresses
  {
    match e
    case Reconciles(r, _) => r != k && r != ChildKey(cfg, k)
    case EditsSpec(r, _) => r != k
    case ContourReports(x, _) =>
      var ing := w.server.ingresses[k].ing;
      x in w.server.proxies && OfParent(w.server.proxies[x], ing) ==> AtGeneration(w.server.proxies[x], ing)
    case _ => true
  }

  ghost predicate Cooperative(cfg: Config, w: World, e: Event, k: Key, ds: seq<HTTPProxy>) {
    k in w.server.ingresses && (DrivesParent(cfg, w, e, k, ds) || DrivesChild(cfg, w, e, k) || Tolerable(cfg, w, e, k))
  }

  /** Nothing that matters to `k` has got worse. */
  ghost predicate Keeps(cfg: Config, s: Server, t: Server, k: Key)
    requires k in s.ingresses
  {
    var ck := ChildKey(cfg, k);
    && k in t.ingresses && t.ingresses[k].ing == s.ingresses[k].ing && t.ingresses[k].status == s.ingresses[k].status
    && (ck in t.ingresses <==> ck in s.ingresses)
    && (ck in s.ingresses
        ==> t.ingresses[ck].ing == s.ingresses[ck].ing && (ChildReady(cfg, s, k) ==> ChildReady(cfg, t, k)))
    && Reported(s, t, s.ingresses[k].ing)
  }

  lemma HelpsKeeps(cfg: Config, s: Server, t: Server, k: Key)
    requires k in s.ingresses && Helps(cfg, s, t, k)
    ensures Keeps(cfg, s, t, k)
  {
    hide ChildKey, Reported;
  }

  lemma ReconcileKeeps(cfg: Config, tops: set<Key>, w: World, r: Key, env: Environment, k: Key)
    requires WellNamed(cfg, tops) && Inv(cfg, tops, w) && Possible(cfg, tops, w, Reconciles(r, env)) && k in tops
    requires r != k && r != ChildKey(cfg, k)
    ensures k in w.server.ingresses && Keeps(cfg, w.server, Step(cfg, w.server, w.views, r, env), k)
  {
    var s, t := w.server, Step(cfg, w.server, w.views, r, env);
    InvKey(cfg, tops, w, k);
    StoredWasSeen(s, r);
    TouchedChild(cfg, tops, s, w.views, r);
    TouchesOnlyItsChild(cfg, tops, s, w.views, r, k);
    hide Step, Faithful, ChildKey, AllShaped, AllTidy, ProxyFrame, IngressFrame, History, Touched, Reported;
    StepFrame(cfg, s, w.views, r, env);
    FrameReports(s, t, s.ingresses[r].ing, s.ingresses[k].ing);
    FrameKeeps(s, t, Touched(cfg, s.ingresses[r].ing) + {r}, k);
    FrameSame(s, t, Touched(cfg, s.ingresses[r].ing) + {r}, ChildKey(cfg, k));
  }

  lemma FrameSame(s: Server, t: Server, ks: set<Key>, x: Key)
    requires IngressFrame(s, t, ks) && x !in ks
    ensures (x in t.ingresses <==> x in s.ingresses) && (x in s.ingresses ==> t.ingresses[x] == s.ingresses[x])
  {
  }

  lemma SameIngressesKeeps(cfg: Config, s: Server, t: Server, k: Key)
    requires k in s.ingresses && t.ingresses == s.ingresses && Reported(s, t, s.ingresses[k].ing)
    ensures Keeps(cfg, s, t, k)
  {
    hide ChildKey, Reported;
  }

  lemma ReportReported(s: Server, x: Key, status: string, ing: Ingress)
    requires ProxyHistory(s) && x in s.proxies && (OfParent(s.proxies[x], ing) ==> AtGeneration(s.proxies[x], ing))
    ensures Reported(s, PutProxy(s, s.proxies[x].(status := status)), ing)
  {
    assert KeyOf(s.proxies[x]) == x;
    hide ProxyHistory;
  }

  lemma PutReported(s: Server, p: HTTPProxy, ing: Ingress)
    requires p.labels.parent == None && (KeyOf(p) in s.proxies ==> s.proxies[KeyOf(p)].labels.parent == None)
    ensures Reported(s, PutProxy(s, p), ing)
  {
  }

  lemma DeleteReported(s: Server, x: Key, ing: Ingress)
    requires x in s.proxies && s.proxies[x].labels.parent == None
    ensures Reported(s, RemoveProxies(s, {x}), ing)
  {
  }

  lemma EditKeeps(cfg: Config, s: Server, r: Key, spec: IngressSpec, k: Key)
    requires IngressHistory(s) && r in s.ingresses && k in s.ingresses && r != k && r != ChildKey(cfg, k)
    ensures Keeps(cfg, s, PutIngress(s, s.ingresses[r].(ing := Respecced(s.ingresses[r].ing, spec))), k)
  {
    hide ChildKey, Holds, OfParent;
    StoredWasSeen(s, r);
    hide IngressHistory;
    SameReported(s, PutIngress(s, s.ingresses[r].(ing := Respecced(s.ingresses[r].ing, spec))), s.ingresses[k].ing);
  }

  lemma SameReported(s: Server, t: Server, ing: Ingress)
    requires s.proxies == t.proxies
    ensures Reported(s, t, ing)
  {
  }

  lemma OtherKeeps(cfg: Config, tops: set<Key>, w: World, e: Event, k: Key)
    requires WellNamed(cfg, tops) && Inv(cfg, tops, w) && Possible(cfg, tops, w, e) && k in tops && !e.Reconciles?
    requires k in w.server.ingresses && Tolerable(cfg, w, e, k)
    ensures Keeps(cfg, w.server, Next(cfg, tops, w, e).server, k)
  {
    var s, t, ing := w.server, Next(cfg, tops, w, e).server, w.server.ingresses[k].ing;
    hide Faithful, AllTidy, AllShaped, ChildKey, ViewsSeen, ObservedBounded, CollisionFree, Keeps, Reported,
         ProxyHistory, IngressHistory, OfParent, AtGeneration, PutProxy, RemoveProxies, PutIngress, Respecced;
    if e.EditsSpec? {
      assert e.k != ChildKey(cfg, k);
      EditKeeps(cfg, s, e.k, e.spec, k);
    } else {
      if e.ContourReports? {
        ReportReported(s, e.k, e.status, ing);
      } else if e.OthersPut? {
        PutReported(s, e.p, ing);
      } else if e.OthersDelete? {
        DeleteReported(s, e.k, ing);
      } else {
        SameReported(s, t, ing);
      }
      SameIngressesKeeps(cfg, s, t, k);
    }
  }

  lemma ChildStepHelps(cfg: Config, tops: set<Key>, w: World, e: Event, k: Key)
    requires WellNamed(cfg, tops) && Inv(cfg, tops, w) && Possible(cfg, tops, w, e) && k in tops
    requires k in w.server.ingresses
    requires AllCanonical(cfg, w.server) && DrivesChild(cfg, w, e, k)
    ensures Helps(cfg, w.server, Next(cfg, tops, w, e).server, k)
  {
    var ck := ChildKey(cfg, k);
    var child := w.server.ingresses[ck].ing;
    FaithfulIdentified(cfg, child, e.env);
    TouchedChild(cfg, tops, w.server, w.views, ck);
    hide Faithful, ChildKey, Step, Attempt, Identified, Targets, TargetsOf, Separate, Unclaimed, Synced, Helps,
         AllCanonical, ServicesKnown, AllShaped, AllTidy, Aligned, Creatable, DistinctKeys;
    CanonicalAligned(cfg, w.server, w.views.proxies, child, e.env.desired);
    WantedKeys(cfg, child, e.env.desired);
    ProbeFinishes(cfg, w.server, w.views, ck, e.env);
    ChildHelps(cfg, tops, w, k, e.env);
  }

  // ---- Phases over runs ------------------------------------------------------------

  /** The wanted child spec stays the same until everything is settled. */
  ghost predicate OnTrack(cfg: Config, s: Server, k: Key, ds: seq<HTTPProxy>, want: IngressSpec) {
    && k in s.ingresses && ProxyHistory(s)
    && (Settled(cfg, s, k, ds) || Rolled(s, k, s.ingresses[k].ing.generation)
        || Steady(cfg, s, s.ingresses[k].ing, want))
  }

  lemma KeptRolled(s: Server, t: Server, ing: Ingress)
    requires Reported(s, t, ing)
    ensures Rolled(t, IngressKey(ing), ing.generation) <==> Rolled(s, IngressKey(ing), ing.generation)
  {
    var k := IngressKey(ing);
    if x :| x in t.proxies && Labelled(t.proxies[x], k, ing.generation) {
      assert Labelled(s.proxies[x], k, ing.generation);
    }
    if x :| x in s.proxies && Labelled(s.proxies[x], k, ing.generation) {
      assert Labelled(t.proxies[x], k, ing.generation);
    }
  }

  lemma KeptSettled(cfg: Config, s: Server, t: Server, k: Key, ds: seq<HTTPProxy>)
    requires Settled(cfg, s, k, ds) && Keeps(cfg, s, t, k) && forall d :: d in ds ==> Own(d, s.ingresses[k].ing)
    ensures Settled(cfg, t, k, ds)
  {
    hide Reported, Exact, ChildKey, Own;
    assert Helps(cfg, s, t, k);
    HelpedSettled(cfg, s, t, k, ds);
  }

  /** Events that keep what matters never raise the phase; a ready child lowers it to 2. */
  lemma KeptPhase(cfg: Config, s: Server, t: Server, k: Key, ds: seq<HTTPProxy>, want: IngressSpec)
    requires OnTrack(cfg, s, k, ds, want) && Keeps(cfg, s, t, k) && ProxyHistory(t)
    requires IngressKey(s.ingresses[k].ing) == k && forall d :: d in ds ==> Own(d, s.ingresses[k].ing)
    ensures OnTrack(cfg, t, k, ds, want) && Phase(cfg, t, k, ds, want) <= Phase(cfg, s, k, ds, want)
    ensures ChildReady(cfg, t, k) && Phase(cfg, s, k, ds, want) <= 3 ==> Phase(cfg, t, k, ds, want) <= 2
  {
    var ing := s.ingresses[k].ing;
    hide Settled, Steady, Rolled, Reported, ChildKey, Own, ProxyHistory;
    KeptRolled(s, t, ing);
    if Settled(cfg, s, k, ds) {
      KeptSettled(cfg, s, t, k, ds);
    } else if !Rolled(s, k, ing.generation) {
      HelpedSteady(cfg, s, t, ing, want);
    }
  }

  lemma CalmHere(cfg: Config, tops: set<Key>, w: World, e: Event, k: Key, ds: seq<HTTPProxy>)
    requires WellNamed(cfg, tops) && Inv(cfg, tops, w) && Possible(cfg, tops, w, e) && k in tops
    requires DrivesParent(cfg, w, e, k, ds)
    ensures Calm(cfg, w.server, w.views, k, ds)
  {
    hide Calm, Inv, WellNamed, Faithful, ChildCached, Unclaimed, ServicesKnown, Synced, Separate, Targets, ChildKey;
    CalmInRuns(cfg, tops, w, k, e.env);
  }

  /** A driven reconcile of the parent settles an open gate, and otherwise brings the child up
      to date. */
  lemma ParentPhase(cfg: Config, tops: set<Key>, w: World, e: Event, k: Key, ds: seq<HTTPProxy>, want: IngressSpec)
    requires WellNamed(cfg, tops) && Inv(cfg, tops, w) && Possible(cfg, tops, w, e) && k in tops
    requires DrivesParent(cfg, w, e, k, ds)
    requires OnTrack(cfg, w.server, k, ds, want) && ds != []
    ensures var t := Next(cfg, tops, w, e).server;
            && k in t.ingresses && t.ingresses[k].ing == w.server.ingresses[k].ing
            && (Settled(cfg, t, k, ds) || (Phase(cfg, w.server, k, ds, want) >= 3 && Phase(cfg, t, k, ds, want) <= 3
                  && Steady(cfg, t, t.ingresses[k].ing, want)))
    ensures Settled(cfg, w.server, k, ds)
         ==> Attempt(cfg, w.server, w.views, k, e.env).calls == 0 && Next(cfg, tops, w, e).server == w.server
  {
    var s, env := w.server, e.env;
    var ing := s.ingresses[k].ing;
    CalmHere(cfg, tops, w, e, k, ds);
    hide WellNamed, Inv, Step, RunGate, Settled, Steady, Rolled, Calm, Faithful, Fresh, ChildCached, Unclaimed, Attempt,
         ServicesKnown, ProxyHistory, ChildKey, Exact, ChildSpec;
    if Settled(cfg, s, k, ds) {
      SettledIsQuiet(cfg, s, w.views, k, env, ds);
    } else if RunGate(cfg, s, w.views, ing, env).verdict.Open? {
      OpenGateSettles(cfg, s, w.views, k, env, ds);
    } else {
      ClosedParent(cfg, s, w.views, k, env, ds, want);
    }
  }

  lemma ClosedParent(cfg: Config, s: Server, views: Views, k: Key, env: Environment, ds: seq<HTTPProxy>,
                     want: IngressSpec)
    requires Calm(cfg, s, views, k, ds) && Cooperates(s.ingresses[k].ing, env, ds) && OnTrack(cfg, s, k, ds, want)
    requires !Settled(cfg, s, k, ds)
    requires !RunGate(cfg, s, views, s.ingresses[k].ing, env).verdict.Open?
    ensures var t := Step(cfg, s, views, k, env);
            && k in t.ingresses && t.ingresses[k].ing == s.ingresses[k].ing
            && Phase(cfg, s, k, ds, want) >= 3 && Phase(cfg, t, k, ds, want) <= 3
            && Steady(cfg, t, t.ingresses[k].ing, want)
  {
    var ing, t := s.ingresses[k].ing, Step(cfg, s, views, k, env);
    RolledIsListed(cfg, s, views.proxies, ing, ds);
    hide RunGate, Step, Steady, Rolled, Prepared, Settled, ChildKey, ChildSpec, CurrentProxies, OlderProxies, Unclaimed,
         ViewsSeen, IngressHistory, ObservedBounded, ChildCached, ServicesKnown;
    ClosedGateProgress(cfg, s, views, k, env, ds, ChildSpec(cfg, ing, OlderProxies(views.proxies, ing)));
    SteadyHere(cfg, s, views.proxies, ing, ds, want);
    SteadySame(cfg, s, t, ing, want);
    SameRolledProxies(s, t, k, ing.generation);
  }

  lemma SteadySame(cfg: Config, s: Server, t: Server, ing: Ingress, want: IngressSpec)
    requires Steady(cfg, s, ing, want) && s.proxies == t.proxies
    ensures Steady(cfg, t, ing, want)
  {
    hide ChildSpec, OlderProxies;
    forall view | Synced(t, view, ing)
      ensures Synced(s, view, ing)
    {
    }
  }

  lemma SameRolledProxies(s: Server, t: Server, k: Key, generation: nat)
    requires s.proxies == t.proxies
    ensures Rolled(t, k, generation) <==> Rolled(s, k, generation)
  {
  }

  /** What one cooperative event does to the phase. */
  lemma CooperativeStep(cfg: Config, tops: set<Key>, w: World, e: Event, k: Key, ds: seq<HTTPProxy>, want: IngressSpec)
    requires WellNamed(cfg, tops) && Inv(cfg, tops, w) && AllCanonical(cfg, w.server) && Possible(cfg, tops, w, e)
    requires k in tops
    requires Cooperative(cfg, w, e, k, ds) && OnTrack(cfg, w.server, k, ds, want)
    requires ds != [] && forall d :: d in ds ==> Own(d, w.server.ingresses[k].ing)
    ensures var s, t := w.server, Next(cfg, tops, w, e).server;
            && OnTrack(cfg, t, k, ds, want) && t.ingresses[k].ing == s.ingresses[k].ing
            && Phase(cfg, t, k, ds, want) <= Phase(cfg, s, k, ds, want)
            && (DrivesParent(cfg, w, e, k, ds) ==> Phase(cfg, t, k, ds, want) <= 3)
            && (DrivesParent(cfg, w, e, k, ds) && Phase(cfg, s, k, ds, want) <= 2 ==> Phase(cfg, t, k, ds, want) == 0)
            && (DrivesChild(cfg, w, e, k) && Phase(cfg, s, k, ds, want) <= 3 ==> Phase(cfg, t, k, ds, want) <= 2)
  {
    var s, t := w.server, Next(cfg, tops, w, e).server;
    InvKey(cfg, tops, w, k);
    NextInv(cfg, tops, w, e);
    InvHistory(cfg, tops, Next(cfg, tops, w, e));
    DriversDiffer(cfg, tops, w, e, k, ds);
    hide WellNamed, Inv, Next, Possible, DrivesParent, DrivesChild, Settled, Steady, Rolled, Own, ChildHas,
         ProxyHistory, AllCanonical, ChildReady, Keeps, Helps;
    if DrivesParent(cfg, w, e, k, ds) {
      ParentPhase(cfg, tops, w, e, k, ds, want);
    } else if DrivesChild(cfg, w, e, k) {
      ChildStepHelps(cfg, tops, w, e, k);
      HelpsKeeps(cfg, s, t, k);
      KeptPhase(cfg, s, t, k, ds, want);
      KeepsSame(cfg, s, t, k);
      HelpedReady(cfg, tops, w, e, s, t, k, ds);
    } else {
      ToleratedKeeps(cfg, tops, w, e, k);
      KeptPhase(cfg, s, t, k, ds, want);
      KeepsSame(cfg, s, t, k);
    }
  }

  lemma InvHistory(cfg: Config, tops: set<Key>, w: World)
    requires Inv(cfg, tops, w)
    ensures ProxyHistory(w.server)
  {
    hide AllShaped, AllTidy, ProxyHistory;
  }

  lemma DriversDiffer(cfg: Config, tops: set<Key>, w: World, e: Event, k: Key, ds: seq<HTTPProxy>)
    requires WellNamed(cfg, tops) && k in tops
    ensures !(DrivesParent(cfg, w, e, k, ds) && DrivesChild(cfg, w, e, k))
  {
    hide ChildKey, CollisionFree;
  }

  lemma KeepsSame(cfg: Config, s: Server, t: Server, k: Key)
    requires k in s.ingresses && Keeps(cfg, s, t, k)
    ensures k in t.ingresses && t.ingresses[k].ing == s.ingresses[k].ing
  {
    hide ChildKey, Reported;
  }

  lemma HelpedReady(cfg: Config, tops: set<Key>, w: World, e: Event, s: Server, t: Server, k: Key, ds: seq<HTTPProxy>)
    requires k in s.ingresses && s == w.server && DrivesChild(cfg, w, e, k) && Helps(cfg, s, t, k)
    ensures ChildReady(cfg, t, k)
  {
    hide ChildKey, Reported;
  }

  lemma ToleratedKeeps(cfg: Config, tops: set<Key>, w: World, e: Event, k: Key)
    requires WellNamed(cfg, tops) && Inv(cfg, tops, w) && Possible(cfg, tops, w, e) && k in tops
    requires k in w.server.ingresses && Tolerable(cfg, w, e, k)
    ensures Keeps(cfg, w.server, Next(cfg, tops, w, e).server, k)
  {
    hide WellNamed, Inv, Keeps, Step, Faithful, ChildKey;
    if e.Reconciles? {
      ReconcileKeeps(cfg, tops, w, e.k, e.env, k);
    } else {
      OtherKeeps(cfg, tops, w, e, k);
    }
  }

  // ---- Convergence of runs ---------------------------------------------------------

  /** From event `a` on, up to event `c`, everything cooperates. */
  ghost predicate CooperativeFrom(cfg: Config, ws: seq<World>, es: seq<Event>, a: nat, c: nat, k: Key,
                                  ds: seq<HTTPProxy>)
    requires c <= |es| < |ws|
  {
    forall j :: a <= j < c ==> Cooperative(cfg, ws[j], es[j], k, ds)
  }

  lemma {:induction false} PhaseFalls(cfg: Config, tops: set<Key>, ws: seq<World>, es: seq<Event>, a: nat, c: nat,
                                      k: Key, ds: seq<HTTPProxy>, want: IngressSpec)
    requires WellNamed(cfg, tops) && Run(cfg, tops, ws, es) && a <= c <= |es| && k in tops && ds != []
    requires CooperativeFrom(cfg, ws, es, a, c, k, ds) && OnTrack(cfg, ws[a].server, k, ds, want)
    requires forall d :: d in ds ==> Own(d, ws[a].server.ingresses[k].ing)
    ensures OnTrack(cfg, ws[c].server, k, ds, want) && ws[c].server.ingresses[k].ing == ws[a].server.ingresses[k].ing
    ensures Phase(cfg, ws[c].server, k, ds, want) <= Phase(cfg, ws[a].server, k, ds, want)
  {
    hide WellNamed, Inv, Next, Possible, Cooperative, OnTrack, Phase, Own, Init, AllCanonical;
    if a < c {
      TrackStored(cfg, ws[a].server, k, ds, want);
      PhaseFalls(cfg, tops, ws, es, a, c - 1, k, ds, want);
      DrivenStep(cfg, tops, ws, es, c - 1, k, ds, want);
    } else {
      TrackStored(cfg, ws[a].server, k, ds, want);
    }
  }

  lemma TrackStored(cfg: Config, s: Server, k: Key, ds: seq<HTTPProxy>, want: IngressSpec)
    requires OnTrack(cfg, s, k, ds, want)
    ensures k in s.ingresses
  {
    hide Settled, Rolled, Steady, ProxyHistory;
  }

  lemma DrivenStep(cfg: Config, tops: set<Key>, ws: seq<World>, es: seq<Event>, i: nat, k: Key, ds: seq<HTTPProxy>,
                   want: IngressSpec)
    requires WellNamed(cfg, tops) && Run(cfg, tops, ws, es) && i < |es| && k in tops && ds != []
    requires Cooperative(cfg, ws[i], es[i], k, ds) && OnTrack(cfg, ws[i].server, k, ds, want)
    requires forall d :: d in ds ==> Own(d, ws[i].server.ingresses[k].ing)
    ensures var s, t := ws[i].server, ws[i + 1].server;
            && k in s.ingresses && OnTrack(cfg, t, k, ds, want) && k in t.ingresses
            && t.ingresses[k].ing == s.ingresses[k].ing
            && Phase(cfg, t, k, ds, want) <= Phase(cfg, s, k, ds, want)
            && (DrivesParent(cfg, ws[i], es[i], k, ds) ==> Phase(cfg, t, k, ds, want) <= 3)
            && (DrivesParent(cfg, ws[i], es[i], k, ds) && Phase(cfg, s, k, ds, want) <= 2
                ==> Phase(cfg, t, k, ds, want) == 0)
            && (DrivesChild(cfg, ws[i], es[i], k) && Phase(cfg, s, k, ds, want) <= 3
                ==> Phase(cfg, t, k, ds, want) <= 2)
  {
    TrackStored(cfg, ws[i].server, k, ds, want);
    hide WellNamed, Inv, Next, Possible, Cooperative, OnTrack, Phase, Own, Init, AllCanonical, DrivesParent,
         DrivesChild;
    RunInv(cfg, tops, ws, es, i);
    RunCanonical(cfg, tops, ws, es, i);
    CooperativeStep(cfg, tops, ws[i], es[i], k, ds, want);
    TrackStored(cfg, ws[i + 1].server, k, ds, want);
  }

  /** Convergence of runs: in every stretch of a run in which everything cooperates, once the
      parent, then its child, then the parent again have been reconciled, the ingress is settled
      and stays so, whatever else happens in between; and from then on no reconcile of the
      parent makes a call. */
  lemma ConvergesInRuns(cfg: Config, tops: set<Key>, ws: seq<World>, es: seq<Event>, a: nat, b: nat, c: nat, n: nat,
                        k: Key, ds: seq<HTTPProxy>, want: IngressSpec)
    requires WellNamed(cfg, tops) && Run(cfg, tops, ws, es) && a < b < c < n <= |es| && k in tops && ds != []
    requires CooperativeFrom(cfg, ws, es, a, n, k, ds) && OnTrack(cfg, ws[a].server, k, ds, want)
    requires DrivesParent(cfg, ws[a], es[a], k, ds) && DrivesChild(cfg, ws[b], es[b], k)
    requires DrivesParent(cfg, ws[c], es[c], k, ds)
    ensures Settled(cfg, ws[n].server, k, ds)
    ensures n < |es| && DrivesParent(cfg, ws[n], es[n], k, ds) ==>
              Attempt(cfg, ws[n].server, ws[n].views, k, es[n].env).calls == 0 && ws[n + 1].server == ws[n].server
  {
    hide WellNamed, Inv, Next, Possible, Cooperative, OnTrack, Phase, Own, Init, DrivesParent, DrivesChild, Attempt,
         Settled;
    TrackStored(cfg, ws[a].server, k, ds, want);
    RunDesiredOwn(cfg, tops, ws, es, a, k, ds);
    DriveAndWait(cfg, tops, ws, es, a, b, k, ds, want);
    DriveAndWait(cfg, tops, ws, es, b, c, k, ds, want);
    DriveAndWait(cfg, tops, ws, es, c, n, k, ds, want);
    PhaseZero(cfg, ws[n].server, k, ds, want);
    if n < |es| && DrivesParent(cfg, ws[n], es[n], k, ds) {
      QuietInRuns(cfg, tops, ws, es, n, k, ds, want);
    }
  }

  /** A driven event at `i`, and what is left of its effect at `j`. */
  lemma DriveAndWait(cfg: Config, tops: set<Key>, ws: seq<World>, es: seq<Event>, i: nat, j: nat, k: Key,
                     ds: seq<HTTPProxy>, want: IngressSpec)
    requires WellNamed(cfg, tops) && Run(cfg, tops, ws, es) && i < j <= |es| && k in tops && ds != []
    requires CooperativeFrom(cfg, ws, es, i, j, k, ds) && OnTrack(cfg, ws[i].server, k, ds, want)
    requires forall d :: d in ds ==> Own(d, ws[i].server.ingresses[k].ing)
    ensures var s, t := ws[i].server, ws[j].server;
            && k in s.ingresses && OnTrack(cfg, t, k, ds, want) && k in t.ingresses
            && t.ingresses[k].ing == s.ingresses[k].ing
            && (DrivesParent(cfg, ws[i], es[i], k, ds) ==> Phase(cfg, t, k, ds, want) <= 3)
            && (DrivesParent(cfg, ws[i], es[i], k, ds) && Phase(cfg, s, k, ds, want) <= 2
                ==> Phase(cfg, t, k, ds, want) == 0)
            && (DrivesChild(cfg, ws[i], es[i], k) && Phase(cfg, s, k, ds, want) <= 3
                ==> Phase(cfg, t, k, ds, want) <= 2)
  {
    hide WellNamed, Next, Possible, Cooperative, OnTrack, Phase, Own, Init, DrivesParent, DrivesChild;
    DrivenStep(cfg, tops, ws, es, i, k, ds, want);
    PhaseFalls(cfg, tops, ws, es, i + 1, j, k, ds, want);
    TrackStored(cfg, ws[j].server, k, ds, want);
  }

  lemma RunDesiredOwn(cfg: Config, tops: set<Key>, ws: seq<World>, es: seq<Event>, i: nat, k: Key, ds: seq<HTTPProxy>)
    requires Run(cfg, tops, ws, es) && i < |es| && DrivesParent(cfg, ws[i], es[i], k, ds)
    ensures k in ws[i].server.ingresses && forall d :: d in ds ==> Own(d, ws[i].server.ingresses[k].ing)
  {
    hide Possible, Next, Init, DrivesParent, Own;
    DesiredOwn(cfg, tops, ws[i], es[i], k, ds);
  }

  lemma QuietInRuns(cfg: Config, tops: set<Key>, ws: seq<World>, es: seq<Event>, n: nat, k: Key, ds: seq<HTTPProxy>,
                    want: IngressSpec)
    requires WellNamed(cfg, tops) && Run(cfg, tops, ws, es) && n < |es| && k in tops && ds != []
    requires DrivesParent(cfg, ws[n], es[n], k, ds) && OnTrack(cfg, ws[n].server, k, ds, want)
    requires Settled(cfg, ws[n].server, k, ds)
    ensures k in ws[n].server.ingresses && Attempt(cfg, ws[n].server, ws[n].views, k, es[n].env).calls == 0
    ensures ws[n + 1].server == ws[n].server
  {
    TrackStored(cfg, ws[n].server, k, ds, want);
    hide WellNamed, Inv, Next, Possible, OnTrack, Phase, Init, Attempt, Settled, Steady, Cooperates, Fresh, Unclaimed,
         ChildCached;
    RunInv(cfg, tops, ws, es, n);
    ParentPhase(cfg, tops, ws[n], es[n], k, ds, want);
  }

  lemma PhaseZero(cfg: Config, s: Server, k: Key, ds: seq<HTTPProxy>, want: IngressSpec)
    requires k in s.ingresses && Phase(cfg, s, k, ds, want) == 0
    ensures Settled(cfg, s, k, ds)
  {
    hide Rolled, ChildHas, ChildReady, Settled;
  }

  lemma DesiredOwn(cfg: Config, tops: set<Key>, w: World, e: Event, k: Key, ds: seq<HTTPProxy>)
    requires Possible(cfg, tops, w, e) && DrivesParent(cfg, w, e, k, ds)
    ensures k in w.server.ingresses && forall d :: d in ds ==> Own(d, w.server.ingresses[k].ing)
  {
    hide Faithful, Fresh, ChildCached, Unclaimed, ServicesKnown, Own;
    FaithfulIdentified(cfg, w.server.ingresses[k].ing, e.env);
  }
}
