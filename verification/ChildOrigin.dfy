/** Where the endpoint probe comes from and how long it lives, for arbitrarily stale caches:
    every state of the child was written for a generation, so a probe that opens a gate was
    born at the very generation it opens, and it stays until that generation is ready. */
module ChildOrigin {
  import opened Model
  import opened EndpointProbe
  import opened ProbeIdentity
  import opened Conditions
  import opened Cluster
  import opened Reconcile
  import opened Framing
  import opened Rollout
  import opened Steps
  import opened Worlds
  import opened Histories
  import opened Lifetime

  // ---- Births ----------------------------------------------------------------------

  /** The spec was made for `k` at a generation up to this one. */
  ghost predicate Born(cfg: Config, k: Key, generation: nat, spec: IngressSpec) {
    exists a, listed :: IngressKey(a) == k && a.generation <= generation && spec == ChildSpec(cfg, a, listed)
  }

  /** Every state that the child of `k` ever had was made for a generation that `k` has reached. */
  ghost predicate ChildrenBorn(cfg: Config, s: Server, k: Key) {
    && k in s.ingresses
    && forall o :: o in s.seenIngresses && IngressKey(o.ing) == ChildKey(cfg, k)
                   ==> Born(cfg, k, s.ingresses[k].ing.generation, o.ing.spec)
  }

  /** What an event adds to the states of the child of `k`: nothing, or a state with a spec that
      was stored before or that the current generation wants; and then the child is stored. */
  ghost predicate ChildAdded(cfg: Config, s: Server, t: Server, k: Key)
    requires k in s.ingresses
  {
    forall x :: x in t.seenIngresses && x !in s.seenIngresses && IngressKey(x.ing) == ChildKey(cfg, k) ==>
      && ChildKey(cfg, k) in t.ingresses
      && ((exists o :: o in s.seenIngresses && o.ing == x.ing)
          || (exists listed :: x.ing.spec == ChildSpec(cfg, s.ingresses[k].ing, listed)))
  }

  /** A reconcile that writes the child does nothing else, so the child is there afterwards. */
  lemma WrittenChildStays(cfg: Config, s: Server, views: Views, k: Key, env: Environment, x: IngressObject)
    requires History(s, views) && k in s.ingresses && IngressKey(s.ingresses[k].ing) == k
    requires !IsEndpointProbe(s.ingresses[k].ing)
    requires (forall d :: d in env.desired ==> Own(d, s.ingresses[k].ing)) && ChildKey(cfg, k) != k
    requires x in Step(cfg, s, views, k, env).seenIngresses && x !in s.seenIngresses
    requires IngressKey(x.ing) == ChildKey(cfg, k)
    requires k in Attempt(cfg, s, views, k, env).server.ingresses
    requires Attempt(cfg, s, views, k, env).server.ingresses[k] == s.ingresses[k]
    ensures ChildKey(cfg, k) in Step(cfg, s, views, k, env).ingresses
  {
    var ing := s.ingresses[k].ing;
    hide Kind, RunGate, ChildKey, Own, ProxyHistory, IngressHistory, ViewsSeen, ObservedBounded, Step;
    StatusWriteAdds(cfg, s, views, k, env);
    StatusWriteKeepsIngresses(cfg, s, views, k, env);
    assert x in Attempt(cfg, s, views, k, env).server.seenIngresses;
    KindWritesChild(cfg, s, views, ing, PreProcess(s.ingresses[k].status, ing.generation), env, x);
  }

  lemma KindWritesChild(cfg: Config, s: Server, views: Views, ing: Ingress, status: Status, env: Environment,
                        x: IngressObject)
    requires History(s, views) && (forall d :: d in env.desired ==> Own(d, ing)) && !IsEndpointProbe(ing)
    requires x in Kind(cfg, s, views, ing, status, env).server.seenIngresses && x !in s.seenIngresses
    ensures ChildKey(cfg, IngressKey(ing)) in Kind(cfg, s, views, ing, status, env).server.ingresses
  {
    hide RunGate, Program, ChildKey, Own, ProxyHistory, IngressHistory, ServicesKnown, Conclude, IngressFrame;
    var gate := RunGate(cfg, s, views, ing, env);
    if gate.verdict.Open? {
      OpenGate(cfg, s, views, ing, env);
      ProgramFrame(s, views.proxies, ing, 0, env);
      var done := Program(s, views.proxies, ing, 0, env);
      ConcludeSeen(cfg, done.server, done.calls, ing, MarkNetworkConfigured(status), gate.verdict.haveProbe, env);
    } else {
      GateWritesChild(cfg, s, views, ing, env, x);
    }
  }

  lemma ConcludeSeen(cfg: Config, s: Server, calls: nat, ing: Ingress, configured: Status, haveProbe: bool,
                     env: Environment)
    ensures Conclude(cfg, s, calls, ing, configured, haveProbe, env).server.seenIngresses == s.seenIngresses
  {
    hide ChildKey;
  }

  lemma GateWritesChild(cfg: Config, s: Server, views: Views, ing: Ingress, env: Environment, x: IngressObject)
    requires ViewsSeen(s, views) && x in RunGate(cfg, s, views, ing, env).server.seenIngresses && x !in s.seenIngresses
    ensures ChildKey(cfg, IngressKey(ing)) in RunGate(cfg, s, views, ing, env).server.ingresses
  {
    hide ChildSpec, ChildIngressName, CurrentProxies, OlderProxies;
  }

  lemma OwnReconcileAdds(cfg: Config, tops: set<Key>, w: World, k: Key, env: Environment)
    requires WellNamed(cfg, tops) && Inv(cfg, tops, w) && Possible(cfg, tops, w, Reconciles(k, env)) && k in tops
    ensures ChildAdded(cfg, w.server, Step(cfg, w.server, w.views, k, env), k)
  {
    var s, t := w.server, Step(cfg, w.server, w.views, k, env);
    var o := s.ingresses[k];
    TouchedChild(cfg, tops, s, w.views, k);
    StoredWasSeen(s, k);
    FaithfulIdentified(cfg, o.ing, env);
    hide Step, Kind, Faithful, Touched, History, IngressFrame, ProxyFrame, ChildKey, AllShaped, AllTidy, Own, ChildSpec;
    StepAdds(cfg, s, w.views, k, env);
    OwnKept(cfg, tops, w, k, env);
    forall x | x in t.seenIngresses && x !in s.seenIngresses && IngressKey(x.ing) == ChildKey(cfg, k)
      ensures ChildKey(cfg, k) in t.ingresses && exists listed :: x.ing.spec == ChildSpec(cfg, o.ing, listed)
    {
      assert x.ing != o.ing;
      WrittenChildStays(cfg, s, w.views, k, env, x);
      assert NewChild(cfg, w.views, o.ing, x);
    }
  }

  lemma OwnKept(cfg: Config, tops: set<Key>, w: World, k: Key, env: Environment)
    requires WellNamed(cfg, tops) && Inv(cfg, tops, w) && Possible(cfg, tops, w, Reconciles(k, env)) && k in tops
    ensures k in Attempt(cfg, w.server, w.views, k, env).server.ingresses
    ensures Attempt(cfg, w.server, w.views, k, env).server.ingresses[k] == w.server.ingresses[k]
    ensures ChildKey(cfg, k) != k
  {
    var s := w.server;
    var ing := s.ingresses[k].ing;
    TouchedChild(cfg, tops, s, w.views, k);
    FaithfulIdentified(cfg, ing, env);
    hide Kind, Faithful, ProxyFrame, IngressFrame, Touched, ChildKey, AllShaped, AllTidy, Own, ObservedBounded;
    KindFrame(cfg, s, w.views, ing, PreProcess(s.ingresses[k].status, ing.generation), env);
    FrameKeeps(s, Attempt(cfg, s, w.views, k, env).server, Touched(cfg, ing), k);
  }

  lemma OtherReconcileAdds(cfg: Config, tops: set<Key>, w: World, r: Key, env: Environment, k: Key)
    requires WellNamed(cfg, tops) && Inv(cfg, tops, w) && Possible(cfg, tops, w, Reconciles(r, env)) && k in tops
    requires r != k
    ensures k in w.server.ingresses && ChildAdded(cfg, w.server, Step(cfg, w.server, w.views, r, env), k)
  {
    var s, t := w.server, Step(cfg, w.server, w.views, r, env);
    var o := s.ingresses[r];
    TouchedChild(cfg, tops, s, w.views, r);
    TouchesOnlyItsChild(cfg, tops, s, w.views, r, k);
    StoredWasSeen(s, r);
    hide Step, Attempt, Faithful, History, IngressFrame, ProxyFrame, ChildKey, AllTidy, Shaped, ChildSpec;
    StepAdds(cfg, s, w.views, r, env);
    forall x | x in t.seenIngresses && x !in s.seenIngresses && IngressKey(x.ing) == ChildKey(cfg, k)
      ensures ChildKey(cfg, k) in t.ingresses && o in s.seenIngresses && o.ing == x.ing
    {
      assert NewChild(cfg, w.views, o.ing, x) ==> IngressKey(x.ing) == ChildKey(cfg, r);
    }
  }

  lemma OtherEventAdds(cfg: Config, tops: set<Key>, w: World, e: Event, k: Key)
    requires WellNamed(cfg, tops) && Inv(cfg, tops, w) && Possible(cfg, tops, w, e) && k in tops && !e.Reconciles?
    ensures k in w.server.ingresses && ChildAdded(cfg, w.server, Next(cfg, tops, w, e).server, k)
  {
    hide Faithful, AllTidy, Shaped, ChildKey, ProxyHistory, ChildSpec, ViewsSeen, ObservedBounded;
  }

  lemma EventAdds(cfg: Config, tops: set<Key>, w: World, e: Event, k: Key)
    requires WellNamed(cfg, tops) && Inv(cfg, tops, w) && Possible(cfg, tops, w, e) && k in tops
    ensures k in w.server.ingresses && ChildAdded(cfg, w.server, Next(cfg, tops, w, e).server, k)
  {
    hide Step, Inv, WellNamed, Faithful, ChildAdded;
    if !e.Reconciles? {
      OtherEventAdds(cfg, tops, w, e, k);
    } else if e.k == k {
      OwnReconcileAdds(cfg, tops, w, k, e.env);
    } else {
      OtherReconcileAdds(cfg, tops, w, e.k, e.env, k);
    }
  }

  /** Generations only grow. */
  lemma GenerationGrows(cfg: Config, tops: set<Key>, w: World, e: Event, k: Key)
    requires WellNamed(cfg, tops) && Inv(cfg, tops, w) && Possible(cfg, tops, w, e) && k in tops
    ensures var t := Next(cfg, tops, w, e).server;
            && k in w.server.ingresses && k in t.ingresses
            && w.server.ingresses[k].ing.generation <= t.ingresses[k].ing.generation
            && (e.Reconciles? ==> t.ingresses[k].ing == w.server.ingresses[k].ing)
            && w.server.seenIngresses <= t.seenIngresses
  {
    hide Step, Faithful, Tidy, Shaped, ProxyHistory, ProxyFrame, ChildKey, ViewsSeen, ObservedBounded, Attempt,
         NewChild, Touched;
    if e.Reconciles? {
      TouchedChild(cfg, tops, w.server, w.views, e.k);
      StepFrame(cfg, w.server, w.views, e.k, e.env);
      StepAdds(cfg, w.server, w.views, e.k, e.env);
    }
  }

  lemma BornKept(cfg: Config, s: Server, t: Server, k: Key)
    requires ChildrenBorn(cfg, s, k) && ChildAdded(cfg, s, t, k) && k in t.ingresses
    requires s.ingresses[k].ing.generation <= t.ingresses[k].ing.generation && IngressKey(s.ingresses[k].ing) == k
    ensures ChildrenBorn(cfg, t, k)
  {
    hide ChildSpec, ChildKey;
    forall x | x in t.seenIngresses && IngressKey(x.ing) == ChildKey(cfg, k)
      ensures Born(cfg, k, t.ingresses[k].ing.generation, x.ing.spec)
    {
      if x in s.seenIngresses || exists o :: o in s.seenIngresses && o.ing == x.ing {
        BornLater(cfg, k, s.ingresses[k].ing.generation, t.ingresses[k].ing.generation, x.ing.spec);
      }
    }
  }

  lemma BornLater(cfg: Config, k: Key, earlier: nat, later: nat, spec: IngressSpec)
    requires Born(cfg, k, earlier, spec) && earlier <= later
    ensures Born(cfg, k, later, spec)
  {
    hide ChildSpec;
  }

  /** In every run, every state of a child was made for a generation that its parent had reached. */
  lemma {:induction false} RunBorn(cfg: Config, tops: set<Key>, ws: seq<World>, es: seq<Event>, i: nat, k: Key)
    requires WellNamed(cfg, tops) && Run(cfg, tops, ws, es) && i < |ws| && k in tops
    ensures ChildrenBorn(cfg, ws[i].server, k)
  {
    hide Inv, Next, Possible, ChildrenBorn, ChildAdded, ChildKey, Init;
    if i == 0 {
      InitBorn(cfg, tops, ws[0], k);
    } else {
      RunBorn(cfg, tops, ws, es, i - 1, k);
      RunInv(cfg, tops, ws, es, i - 1);
      EventAdds(cfg, tops, ws[i - 1], es[i - 1], k);
      GenerationGrows(cfg, tops, ws[i - 1], es[i - 1], k);
      InvKey(cfg, tops, ws[i - 1], k);
      BornKept(cfg, ws[i - 1].server, ws[i].server, k);
    }
  }

  lemma InitBorn(cfg: Config, tops: set<Key>, w: World, k: Key)
    requires WellNamed(cfg, tops) && Init(cfg, tops, w) && k in tops
    ensures ChildrenBorn(cfg, w.server, k)
  {
    hide ChildKey, History, Born, CollisionFree;
  }

  lemma InvKey(cfg: Config, tops: set<Key>, w: World, k: Key)
    requires Inv(cfg, tops, w) && k in tops
    ensures k in w.server.ingresses && IngressKey(w.server.ingresses[k].ing) == k
  {
    hide Tidy, Shaped, ProxyHistory, ViewsSeen, ObservedBounded;
  }

  // ---- Lifetime at the current generation ------------------------------------------

  /** Whatever removes the child of `k` is a reconcile of `k` that reaches readiness. */
  lemma RemovalReadies(cfg: Config, tops: set<Key>, w: World, e: Event, k: Key)
    requires WellNamed(cfg, tops) && Inv(cfg, tops, w) && Possible(cfg, tops, w, e) && k in tops
    requires k in w.server.ingresses
    requires ChildKey(cfg, k) in w.server.ingresses && ChildKey(cfg, k) !in Next(cfg, tops, w, e).server.ingresses
    ensures Readies(cfg, w, e, k, w.server.ingresses[k].ing.generation)
  {
    hide Step, Inv, WellNamed, Faithful, Rolled, ChildKey, Attempt;
    if !e.Reconciles? {
      OtherEventKeeps(cfg, tops, w, e, k, 0);
    } else if e.k != k {
      OtherReconcileKeeps(cfg, tops, w, e.k, e.env, k, 0);
    } else {
      OwnRemovalReadies(cfg, tops, w, k, e.env);
    }
  }

  lemma OwnRemovalReadies(cfg: Config, tops: set<Key>, w: World, k: Key, env: Environment)
    requires WellNamed(cfg, tops) && Inv(cfg, tops, w) && Possible(cfg, tops, w, Reconciles(k, env)) && k in tops
    requires ChildKey(cfg, k) in w.server.ingresses
    requires ChildKey(cfg, k) !in Step(cfg, w.server, w.views, k, env).ingresses
    ensures IsReady(Attempt(cfg, w.server, w.views, k, env).status, w.server.ingresses[k].ing.generation)
  {
    InvKey(cfg, tops, w, k);
    FaithfulIdentified(cfg, w.server.ingresses[k].ing, env);
    hide Step, Attempt, Faithful, ChildKey, AllShaped, AllTidy, Own, ProxyHistory, IngressHistory, ViewsSeen, Program,
         RunGate;
    ChildRemovedReady(cfg, w.server, w.views, k, env);
  }

  /** A child that was ever written for the current generation is stored until that generation
      has been ready. */
  lemma {:induction false} WrittenChildLives(cfg: Config, tops: set<Key>, ws: seq<World>, es: seq<Event>, i: nat,
                                             k: Key, a: Ingress, listed: seq<HTTPProxy>, o: IngressObject)
    requires WellNamed(cfg, tops) && Run(cfg, tops, ws, es) && i < |ws| && k in tops
    requires k in ws[i].server.ingresses && IngressKey(a) == k
    requires ws[i].server.ingresses[k].ing.generation == a.generation
    requires o in ws[i].server.seenIngresses && IngressKey(o.ing) == ChildKey(cfg, k)
    requires o.ing.spec == ChildSpec(cfg, a, listed) && o.ing.spec.rules != []
    requires !BeenReady(cfg, ws, es, i, k, a.generation)
    ensures ChildKey(cfg, k) in ws[i].server.ingresses
  {
    hide Inv, Next, Possible, WellNamed, Readies, ChildKey, ChildSpec, Init;
    if i == 0 {
      NoChildYet(cfg, tops, ws[0], k, o);
    } else {
      var w, e := ws[i - 1], es[i - 1];
      RunInv(cfg, tops, ws, es, i - 1);
      if o in w.server.seenIngresses {
        GenerationGrows(cfg, tops, w, e, k);
        RunBorn(cfg, tops, ws, es, i - 1, k);
        BornThen(cfg, k, w.server, a, listed, o);
        WrittenChildLives(cfg, tops, ws, es, i - 1, k, a, listed, o);
        if ChildKey(cfg, k) !in ws[i].server.ingresses {
          RemovalReadies(cfg, tops, w, e, k);
        }
      } else {
        EventAdds(cfg, tops, w, e, k);
      }
    }
  }

  lemma NoChildYet(cfg: Config, tops: set<Key>, w: World, k: Key, o: IngressObject)
    requires WellNamed(cfg, tops) && Init(cfg, tops, w) && k in tops && o in w.server.seenIngresses
    ensures IngressKey(o.ing) != ChildKey(cfg, k)
  {
    hide ChildKey, History, CollisionFree;
  }

  /** A state made for a generation was not seen before that generation. */
  lemma BornThen(cfg: Config, k: Key, s: Server, a: Ingress, listed: seq<HTTPProxy>, o: IngressObject)
    requires ChildrenBorn(cfg, s, k) && o in s.seenIngresses && IngressKey(o.ing) == ChildKey(cfg, k)
    requires IngressKey(a) == k && o.ing.spec == ChildSpec(cfg, a, listed) && o.ing.spec.rules != []
    ensures a.generation <= s.ingresses[k].ing.generation
  {
    hide ChildSpec, ChildKey;
    var b, older :| IngressKey(b) == k && b.generation <= s.ingresses[k].ing.generation
      && o.ing.spec == ChildSpec(cfg, b, older);
    GenerationSeparation(cfg, a, b, listed, older);
  }

  /** Every child that opens the gate for this generation probes something, or is still stored
      when it does. */
  ghost predicate Grounded(cfg: Config, ws: seq<World>, es: seq<Event>, i: nat, k: Key, generation: nat)
    requires i <= |es| < |ws|
  {
    forall j :: 0 <= j < i && OpensGate(cfg, ws[j], es[j], k, generation) ==>
      var ing := ws[j].server.ingresses[k].ing;
      ChildSpec(cfg, ing, OlderProxies(ws[j].views.proxies, ing)).rules != []
        || ChildKey(cfg, k) in ws[j].server.ingresses
  }

  lemma {:induction false} GenerationsGrow(cfg: Config, tops: set<Key>, ws: seq<World>, es: seq<Event>, j: nat, i: nat,
                                           k: Key)
    requires WellNamed(cfg, tops) && Run(cfg, tops, ws, es) && j <= i < |ws| && k in tops
    ensures k in ws[j].server.ingresses && k in ws[i].server.ingresses
    ensures ws[j].server.ingresses[k].ing.generation <= ws[i].server.ingresses[k].ing.generation
  {
    hide Inv, Next, Possible, WellNamed, Init;
    RunInv(cfg, tops, ws, es, j);
    InvKey(cfg, tops, ws[j], k);
    if j < i {
      GenerationsGrow(cfg, tops, ws, es, j, i - 1, k);
      RunInv(cfg, tops, ws, es, i - 1);
      GenerationGrows(cfg, tops, ws[i - 1], es[i - 1], k);
    }
  }

  /** A stored child stays stored until the generation has been ready. */
  lemma {:induction false} StoredChildLives(cfg: Config, tops: set<Key>, ws: seq<World>, es: seq<Event>, j: nat, i: nat,
                                            k: Key, g: nat)
    requires WellNamed(cfg, tops) && Run(cfg, tops, ws, es) && j <= i < |ws| && k in tops
    requires k in ws[j].server.ingresses && ws[j].server.ingresses[k].ing.generation == g
    requires k in ws[i].server.ingresses && ws[i].server.ingresses[k].ing.generation == g
    requires ChildKey(cfg, k) in ws[j].server.ingresses && !BeenReady(cfg, ws, es, i, k, g)
    ensures ChildKey(cfg, k) in ws[i].server.ingresses
  {
    hide Inv, Next, Possible, WellNamed, Readies, ChildKey, Init;
    if j < i {
      GenerationsGrow(cfg, tops, ws, es, j, i - 1, k);
      GenerationsGrow(cfg, tops, ws, es, i - 1, i, k);
      StoredChildLives(cfg, tops, ws, es, j, i - 1, k, g);
      RunInv(cfg, tops, ws, es, i - 1);
      if ChildKey(cfg, k) !in ws[i].server.ingresses {
        RemovalReadies(cfg, tops, ws[i - 1], es[i - 1], k);
      }
    }
  }

  lemma {:induction false} SeenGrows(cfg: Config, tops: set<Key>, ws: seq<World>, es: seq<Event>, j: nat, i: nat,
                                     k: Key)
    requires WellNamed(cfg, tops) && Run(cfg, tops, ws, es) && j <= i < |ws| && k in tops
    ensures ws[j].server.seenIngresses <= ws[i].server.seenIngresses
  {
    hide Inv, Next, Possible, WellNamed, Init;
    if j < i {
      SeenGrows(cfg, tops, ws, es, j, i - 1, k);
      RunInv(cfg, tops, ws, es, i - 1);
      GenerationGrows(cfg, tops, ws[i - 1], es[i - 1], k);
    }
  }

  /** The cached child that opened the gate. */
  lemma OpeningChild(cfg: Config, tops: set<Key>, w: World, e: Event, k: Key,
                     generation: nat) returns (o: IngressObject)
    requires Inv(cfg, tops, w) && k in tops && OpensGate(cfg, w, e, k, generation)
    ensures k in w.server.ingresses && IngressKey(w.server.ingresses[k].ing) == k
    ensures w.server.ingresses[k].ing.generation == generation
    ensures o in w.server.seenIngresses && IngressKey(o.ing) == ChildKey(cfg, k)
    ensures var ing := w.server.ingresses[k].ing; o.ing.spec == ChildSpec(cfg, ing, OlderProxies(w.views.proxies, ing))
  {
    InvKey(cfg, tops, w, k);
    hide ChildSpec, ChildKey, AllShaped, AllTidy, ProxyHistory, IngressHistory, ObservedBounded, OlderProxies;
    o := w.views.ingresses[ChildKey(cfg, k)];
  }

  /** Child lifetime at the current generation, for arbitrarily stale caches: while proxies of
      the current generation are out and it has not been ready, the child exists. */
  lemma CurrentChildLifetime(cfg: Config, tops: set<Key>, ws: seq<World>, es: seq<Event>, i: nat, k: Key)
    requires WellNamed(cfg, tops) && Run(cfg, tops, ws, es) && i < |ws| && k in tops && k in ws[i].server.ingresses
    requires var g := ws[i].server.ingresses[k].ing.generation;
             Rolled(ws[i].server, k, g) && !BeenReady(cfg, ws, es, i, k, g) && Grounded(cfg, ws, es, i, k, g)
    ensures ChildKey(cfg, k) in ws[i].server.ingresses
  {
    var g := ws[i].server.ingresses[k].ing.generation;
    var x :| x in ws[i].server.proxies && Labelled(ws[i].server.proxies[x], k, g);
    MakeBeforeBreak(cfg, tops, ws, es, i, k, g, x);
    hide Inv, Next, Possible, WellNamed, Readies, ChildKey, ChildSpec, OpensGate, OlderProxies, Rolled, Init;
    var j :| 0 <= j < i && OpensGate(cfg, ws[j], es[j], k, g);
    RunInv(cfg, tops, ws, es, j);
    var o := OpeningChild(cfg, tops, ws[j], es[j], k, g);
    SeenGrows(cfg, tops, ws, es, j, i, k);
    var ing := ws[j].server.ingresses[k].ing;
    if ChildKey(cfg, k) in ws[j].server.ingresses {
      StoredChildLives(cfg, tops, ws, es, j, i, k, g);
    } else {
      WrittenChildLives(cfg, tops, ws, es, i, k, ing, OlderProxies(ws[j].views.proxies, ing), o);
    }
  }

  // ---- Older generations -----------------------------------------------------------

  /** The proxy cache shows some proxy of an older generation if the server has any. */
  ghost predicate Sighted(s: Server, views: Views, ing: Ingress) {
    OlderProxies(views.proxies, ing) == [] ==> Leftovers(s, ing) == {}
  }

  ghost predicate SightedAt(w: World, e: Event, k: Key) {
    e.Reconciles? && e.k == k && k in w.server.ingresses ==> Sighted(w.server, w.views, w.server.ingresses[k].ing)
  }

  /** A cache without older proxies keeps the rollout from touching any that are there. */
  lemma BlindOne(s: Server, view: seq<HTTPProxy>, d: HTTPProxy, calls: nat, env: Environment, ing: Ingress, x: Key)
    requires ProxyHistory(s) && (forall p :: p in view ==> p in s.seen) && Own(d, ing) && OlderProxies(view, ing) == []
    requires x in Leftovers(s, ing)
    ensures var t := ApplyOne(s, view, d, calls, env).server;
            x in t.proxies && t.proxies[x] == s.proxies[x]
  {
    var matches := Matches(view, d);
    if matches != [] {
      var m := matches[0];
      assert m in matches && OfParent(m, ing);
      assert AtGeneration(m, ing) || m in OlderProxies(view, ing);
      hide Matches, OlderProxies;
      if x == KeyOf(m) {
        assert s.proxies[x].resourceVersion != m.resourceVersion;
      }
    }
  }

  lemma {:induction false} BlindAll(s: Server, view: seq<HTTPProxy>, ds: seq<HTTPProxy>, calls: nat, env: Environment,
                                    ing: Ingress, x: Key)
    requires ProxyHistory(s) && (forall p :: p in view ==> p in s.seen) && (forall d :: d in ds ==> Own(d, ing))
    requires OlderProxies(view, ing) == [] && x in Leftovers(s, ing)
    ensures var t := ApplyAll(s, view, ds, calls, env).server;
            x in t.proxies && t.proxies[x] == s.proxies[x]
    decreases |ds|
  {
    if ds != [] {
      assert ds[0] in ds;
      hide ApplyOne, Own, OlderProxies, ProxyHistory, ProxyFrame;
      BlindOne(s, view, ds[0], calls, env, ing, x);
      ApplyOneFrame(s, view, ds[0], calls, env, ing);
      var one := ApplyOne(s, view, ds[0], calls, env);
      ProxyFrameHistory(s, one.server, ing);
      FrameSeen(s, one.server, ing);
      BlindAll(one.server, view, ds[1..], one.calls, env, ing, x);
    }
  }

  lemma FrameSeen(s: Server, t: Server, ing: Ingress)
    requires ProxyFrame(s, t, ing)
    ensures s.seen <= t.seen
  {
  }

  /** After a rollout that went through, proxies of older generations are left exactly when the
      cache showed none and the server had some. */
  lemma LeftBehind(s: Server, view: seq<HTTPProxy>, ing: Ingress, calls: nat, env: Environment)
    requires ProxyHistory(s) && (forall p :: p in view ==> p in s.seen)
    requires (forall d :: d in env.desired ==> Own(d, ing))
    requires Program(s, view, ing, calls, env).ok
    ensures Leftovers(Program(s, view, ing, calls, env).server, ing) != {}
       <==> OlderProxies(view, ing) == [] && Leftovers(s, ing) != {}
  {
    var applied := ApplyAll(s, view, env.desired, calls, env);
    hide ApplyAll, Own, ProxyHistory, ProxyFrame, OlderProxies;
    ApplyAllFrame(s, view, env.desired, calls, env, ing);
    FrameLeftovers(s, applied.server, ing);
    if OlderProxies(view, ing) == [] && Leftovers(s, ing) != {} {
      var x :| x in Leftovers(s, ing);
      BlindAll(s, view, env.desired, calls, env, ing, x);
      assert x in Leftovers(applied.server, ing);
    }
  }

  lemma FrameLeftovers(s: Server, t: Server, ing: Ingress)
    requires ProxyFrame(s, t, ing)
    ensures Leftovers(t, ing) <= Leftovers(s, ing)
  {
    hide ProxyHistory;
  }

  /** When a reconcile removes the child, proxies of other generations are left exactly when its
      cache showed none of them and the server had some. */
  lemma RemovalLeaves(cfg: Config, tops: set<Key>, w: World, k: Key, env: Environment)
    requires WellNamed(cfg, tops) && Inv(cfg, tops, w) && Possible(cfg, tops, w, Reconciles(k, env)) && k in tops
    requires ChildKey(cfg, k) in w.server.ingresses
    requires ChildKey(cfg, k) !in Step(cfg, w.server, w.views, k, env).ingresses
    ensures Leftovers(Step(cfg, w.server, w.views, k, env), w.server.ingresses[k].ing) != {}
       <==> !Sighted(w.server, w.views, w.server.ingresses[k].ing)
  {
    hide Step, Attempt, Faithful, ChildKey, AllShaped, AllTidy, Own, IngressHistory, Program, RunGate, OlderProxies,
         ObservedBounded, ProxyHistory, WellNamed, OfParent, AtGeneration;
    var s, ing := w.server, w.server.ingresses[k].ing;
    InvKey(cfg, tops, w, k);
    FaithfulIdentified(cfg, ing, env);
    ChildRemovedReady(cfg, s, w.views, k, env);
    var gate := RunGate(cfg, s, w.views, ing, env);
    SameProxiesHistory(s, gate.server);
    LeftBehind(gate.server, w.views.proxies, ing, gate.calls, env);
    var done := Program(gate.server, w.views.proxies, ing, gate.calls, env).server;
    assert Leftovers(done, ing) == Leftovers(Step(cfg, s, w.views, k, env), ing);
    assert Leftovers(gate.server, ing) == Leftovers(s, ing);
  }

  lemma RolledIsLeft(s: Server, ing: Ingress, generation: nat)
    requires Rolled(s, IngressKey(ing), generation) && generation != ing.generation
    ensures Leftovers(s, ing) != {}
  {
    var x :| x in s.proxies && Labelled(s.proxies[x], IngressKey(ing), generation);
    assert x in Leftovers(s, ing);
  }

  /** A step that leaves an older generation rolled out keeps the child, if it is sighted. */
  lemma OlderStep(cfg: Config, tops: set<Key>, w: World, e: Event, k: Key, generation: nat)
    requires WellNamed(cfg, tops) && Inv(cfg, tops, w) && Possible(cfg, tops, w, e) && k in tops && SightedAt(w, e, k)
    requires k in Next(cfg, tops, w, e).server.ingresses
    requires Next(cfg, tops, w, e).server.ingresses[k].ing.generation != generation
    requires Rolled(Next(cfg, tops, w, e).server, k, generation)
    ensures Rolled(w.server, k, generation)
    ensures ChildKey(cfg, k) in w.server.ingresses ==> ChildKey(cfg, k) in Next(cfg, tops, w, e).server.ingresses
  {
    hide Step, Inv, WellNamed, Faithful, Rolled, ChildKey, Sighted, Leftovers;
    if !e.Reconciles? {
      OtherEventKeeps(cfg, tops, w, e, k, generation);
    } else if e.k != k {
      OtherReconcileKeeps(cfg, tops, w, e.k, e.env, k, generation);
    } else {
      GenerationGrows(cfg, tops, w, e, k);
      InvKey(cfg, tops, w, k);
      OwnStepFrame(cfg, tops, w, k, e.env);
      RolledBeforeOrNow(w.server, Step(cfg, w.server, w.views, k, e.env), w.server.ingresses[k].ing, generation);
      RolledIsLeft(Step(cfg, w.server, w.views, k, e.env), w.server.ingresses[k].ing, generation);
      if ChildKey(cfg, k) in w.server.ingresses
        && ChildKey(cfg, k) !in Step(cfg, w.server, w.views, k, e.env).ingresses {
        RemovalLeaves(cfg, tops, w, k, e.env);
      }
    }
  }

  lemma OwnStepFrame(cfg: Config, tops: set<Key>, w: World, k: Key, env: Environment)
    requires Inv(cfg, tops, w) && Possible(cfg, tops, w, Reconciles(k, env))
    ensures ProxyFrame(w.server, Step(cfg, w.server, w.views, k, env), w.server.ingresses[k].ing)
  {
    hide Step, Faithful, ProxyFrame, IngressFrame, AllShaped, AllTidy, ProxyHistory, IngressHistory, ViewsSeen;
    StepFrame(cfg, w.server, w.views, k, env);
  }

  /** Child lifetime: in every run, with stale caches and any failures, as long as a proxy of `k`
      is at a generation, current or older, that has not been ready, the child exists; provided
      that the children that opened its gate probe something or were still stored, and that no
      reconcile of a later generation is blind to older proxies. */
  lemma {:induction false} ChildLifetime(cfg: Config, tops: set<Key>, ws: seq<World>, es: seq<Event>, i: nat, k: Key,
                                         generation: nat)
    requires WellNamed(cfg, tops) && Run(cfg, tops, ws, es) && i < |ws| && k in tops && k in ws[i].server.ingresses
    requires Rolled(ws[i].server, k, generation) && !BeenReady(cfg, ws, es, i, k, generation)
    requires Grounded(cfg, ws, es, i, k, generation)
    requires forall j :: 0 <= j < i && k in ws[j].server.ingresses
                         && ws[j].server.ingresses[k].ing.generation != generation
               ==> SightedAt(ws[j], es[j], k)
    ensures ChildKey(cfg, k) in ws[i].server.ingresses
  {
    hide Inv, Next, Possible, WellNamed, Readies, ChildKey, ChildSpec, OpensGate, OlderProxies, Rolled, Init, SightedAt;
    if ws[i].server.ingresses[k].ing.generation == generation {
      CurrentChildLifetime(cfg, tops, ws, es, i, k);
    } else if i == 0 {
      NothingRolled(cfg, tops, ws[0], k, generation);
    } else {
      var w, e := ws[i - 1], es[i - 1];
      RunInv(cfg, tops, ws, es, i - 1);
      GenerationGrows(cfg, tops, w, e, k);
      if w.server.ingresses[k].ing.generation == generation {
        NotReconciled(cfg, tops, w, e, k);
      }
      OlderStep(cfg, tops, w, e, k, generation);
      ChildLifetime(cfg, tops, ws, es, i - 1, k, generation);
    }
  }

  /** An event that changes the generation of `k` is no reconcile. */
  lemma NotReconciled(cfg: Config, tops: set<Key>, w: World, e: Event, k: Key)
    requires k in w.server.ingresses
    ensures !e.Reconciles? ==> SightedAt(w, e, k)
  {
  }
}
