/** The lifetime of the endpoint probe over whole runs: from before the first proxy of a
    generation until that generation has been ready. */
module Lifetime {
  import opened Model
  import opened EndpointProbe
  import opened Outputs
  import opened Conditions
  import opened Cluster
  import opened Reconcile
  import opened Framing
  import opened Rollout
  import opened Steps
  import opened Worlds
  import opened Histories

  /** A reconcile of `k` with a proxy cache in sync, an ingress cache that does not show a
      child that is gone, and a spec whose wanted proxies are pairwise distinct. */
  ghost predicate Fresh(cfg: Config, w: World, e: Event, k: Key) {
    e.Reconciles? && e.k == k && k in w.server.ingresses ==>
      && Synced(w.server, w.views.proxies, w.server.ingresses[k].ing)
      && (ChildKey(cfg, k) in w.views.ingresses ==> ChildKey(cfg, k) in w.server.ingresses)
      && Separate(Targets(cfg, w.server.ingresses[k].ing))
  }

  /** A reconcile of `k` at this generation that reaches readiness. */
  ghost predicate Readies(cfg: Config, w: World, e: Event, k: Key, generation: nat) {
    && e.Reconciles? && e.k == k && k in w.server.ingresses
    && w.server.ingresses[k].ing.generation == generation
    && IsReady(Attempt(cfg, w.server, w.views, k, e.env).status, generation)
  }

  ghost predicate BeenReady(cfg: Config, ws: seq<World>, es: seq<Event>, i: nat, k: Key, generation: nat)
    requires i <= |es| < |ws|
  {
    exists j :: 0 <= j < i && Readies(cfg, ws[j], es[j], k, generation)
  }

  ghost predicate Rolled(s: Server, k: Key, generation: nat) {
    exists x :: x in s.proxies && Labelled(s.proxies[x], k, generation)
  }

  // ---- Events other than a reconcile of `k` ----------------------------------------

  lemma OtherEventKeeps(cfg: Config, tops: set<Key>, w: World, e: Event, k: Key, generation: nat)
    requires WellNamed(cfg, tops) && Inv(cfg, tops, w) && Possible(cfg, tops, w, e) && k in tops
    requires !e.Reconciles?
    ensures var t := Next(cfg, tops, w, e).server;
            && (Rolled(t, k, generation) ==> Rolled(w.server, k, generation))
            && (ChildKey(cfg, k) in w.server.ingresses ==> ChildKey(cfg, k) in t.ingresses)
  {
    hide Tidy, Shaped, ChildKey, WellNamed, IngressHistory, Faithful;
    var s, t := w.server, Next(cfg, tops, w, e).server;
    if x :| x in t.proxies && Labelled(t.proxies[x], k, generation) {
      assert x in s.proxies && Labelled(s.proxies[x], k, generation);
    }
  }

  lemma OtherReconcileKeeps(cfg: Config, tops: set<Key>, w: World, r: Key, env: Environment, k: Key, generation: nat)
    requires WellNamed(cfg, tops) && Inv(cfg, tops, w) && Possible(cfg, tops, w, Reconciles(r, env)) && k in tops
    requires r != k
    ensures var t := Step(cfg, w.server, w.views, r, env);
            && (Rolled(t, k, generation) ==> Rolled(w.server, k, generation))
            && (ChildKey(cfg, k) in w.server.ingresses ==> ChildKey(cfg, k) in t.ingresses)
  {
    var s, t := w.server, Step(cfg, w.server, w.views, r, env);
    TouchedChild(cfg, tops, s, w.views, r);
    StoredWasSeen(s, r);
    TouchesOnlyItsChild(cfg, tops, s, w.views, r, k);
    hide Step, Attempt, Tidy, AllShaped, TopNames, ChildKey, Faithful, History, ProxyFrame, IngressFrame, NewChild,
         Rolled, Touched;
    StepFrame(cfg, s, w.views, r, env);
    StepAdds(cfg, s, w.views, r, env);
    OthersProxiesStay(s, t, s.ingresses[r].ing, k, generation);
    OthersStay(s, t, Touched(cfg, s.ingresses[r].ing), r, ChildKey(cfg, k));
  }

  lemma OthersProxiesStay(s: Server, t: Server, ing: Ingress, k: Key, generation: nat)
    requires ProxyFrame(s, t, ing) && IngressKey(ing) != k
    ensures Rolled(t, k, generation) ==> Rolled(s, k, generation)
  {
    hide ProxyHistory;
    if x :| x in t.proxies && Labelled(t.proxies[x], k, generation) {
      assert x in s.proxies && Labelled(s.proxies[x], k, generation);
    }
  }

  lemma OthersStay(s: Server, t: Server, touched: set<Key>, r: Key, x: Key)
    requires IngressFrame(s, t, touched + {r}) && x !in touched && r in t.ingresses
    ensures x in s.ingresses ==> x in t.ingresses
  {
  }

  lemma TouchesOnlyItsChild(cfg: Config, tops: set<Key>, s: Server, views: Views, r: Key, k: Key)
    requires WellNamed(cfg, tops) && History(s, views) && AllShaped(cfg, tops, s) && k in tops && r in s.ingresses
    requires r != k
    ensures ChildKey(cfg, k) !in Touched(cfg, s.ingresses[r].ing)
  {
    TouchedChild(cfg, tops, s, views, r);
    hide ChildKey, Shaped, History;
  }

  // ---- A reconcile of `k` ----------------------------------------------------------

  lemma PreparedHere(cfg: Config, tops: set<Key>, w: World, k: Key, env: Environment)
    requires WellNamed(cfg, tops) && Inv(cfg, tops, w) && Possible(cfg, tops, w, Reconciles(k, env)) && k in tops
    requires Fresh(cfg, w, Reconciles(k, env), k)
    ensures k in w.server.ingresses && Prepared(cfg, w.server, w.views.proxies, w.server.ingresses[k].ing, env.desired)
    ensures forall d :: d in env.desired ==> Own(d, w.server.ingresses[k].ing)
  {
    FaithfulIdentified(cfg, w.server.ingresses[k].ing, env);
    hide Tidy, Faithful, Identified, Targets, Separate, Synced, CollisionFree, TopNames, Shaped, ChildKey, ProxyHistory,
         IngressHistory;
  }

  /** Exactness over runs: whatever happened before, a reconcile with fresh caches that returns
      without error past the gate leaves exactly the wanted proxies. */
  lemma ExactOverRuns(cfg: Config, tops: set<Key>, ws: seq<World>, es: seq<Event>, i: nat, k: Key)
    requires WellNamed(cfg, tops) && Run(cfg, tops, ws, es) && i < |es| && k in tops
    requires es[i].Reconciles? && es[i].k == k && k in ws[i].server.ingresses && Fresh(cfg, ws[i], es[i], k)
    requires Attempt(cfg, ws[i].server, ws[i].views, k, es[i].env).ending == Finished
    ensures Exact(ws[i + 1].server, ws[i].server.ingresses[k].ing, es[i].env.desired)
    ensures TargetsOf(es[i].env.desired) == Targets(cfg, ws[i].server.ingresses[k].ing)
  {
    hide Attempt, Step, Prepared, Exact, WellNamed, AllShaped, AllTidy, Init, Fresh, Faithful, Targets;
    RunInv(cfg, tops, ws, es, i);
    var w, env := ws[i], es[i].env;
    assert Possible(cfg, tops, w, Reconciles(k, env)) && ws[i + 1].server == Step(cfg, w.server, w.views, k, env);
    PreparedHere(cfg, tops, w, k, env);
    FinishedIsExact(cfg, w.server, w.views, k, env);
    FaithfulIdentified(cfg, w.server.ingresses[k].ing, env);
  }

  /** No gap over runs: a reconcile with fresh caches, however it ends, keeps every proxy that
      serves a wanted target, and keeps it serving that target. */
  lemma NoGapOverRuns(cfg: Config, tops: set<Key>, ws: seq<World>, es: seq<Event>, i: nat, k: Key, d: HTTPProxy, x: Key)
    requires WellNamed(cfg, tops) && Run(cfg, tops, ws, es) && i < |es| && k in tops
    requires es[i].Reconciles? && es[i].k == k && Fresh(cfg, ws[i], es[i], k)
    requires d in es[i].env.desired && x in ws[i].server.proxies && SameTarget(ws[i].server.proxies[x], d)
    ensures x in ws[i + 1].server.proxies && SameTarget(ws[i + 1].server.proxies[x], d)
  {
    hide Step, Prepared, WellNamed, AllShaped, AllTidy, Init, Fresh, Faithful, SameTarget;
    RunInv(cfg, tops, ws, es, i);
    var w, env := ws[i], es[i].env;
    assert Possible(cfg, tops, w, Reconciles(k, env)) && ws[i + 1].server == Step(cfg, w.server, w.views, k, env);
    PreparedHere(cfg, tops, w, k, env);
    NoGap(cfg, w.server, w.views, k, env, d, x);
  }

  /** If the reconcile removes the child, it has reached readiness, and only proxies of its
      own generation are left. */
  lemma RemovalStep(cfg: Config, tops: set<Key>, w: World, k: Key, env: Environment, generation: nat)
    requires WellNamed(cfg, tops) && Inv(cfg, tops, w) && Possible(cfg, tops, w, Reconciles(k, env)) && k in tops
    requires Fresh(cfg, w, Reconciles(k, env), k)
    requires var t := Step(cfg, w.server, w.views, k, env);
             ChildKey(cfg, k) in w.server.ingresses && ChildKey(cfg, k) !in t.ingresses && Rolled(t, k, generation)
    ensures Readies(cfg, w, Reconciles(k, env), k, generation)
  {
    var s, t := w.server, Step(cfg, w.server, w.views, k, env);
    var ing := s.ingresses[k].ing;
    PreparedHere(cfg, tops, w, k, env);
    StoredWasSeen(s, k);
    hide Step, Attempt, Prepared, Tidy, Shaped, Faithful, ChildKey, ProxyHistory, WellNamed, Fresh, IngressHistory;
    ChildRemoved(cfg, s, w.views, k, env);
    var x :| x in t.proxies && Labelled(t.proxies[x], k, generation);
    assert OfParent(t.proxies[x], ing);
    var d :| d in env.desired && Holds(t.proxies[x], d);
    assert Own(d, ing);
  }

  /** Without a child, a reconcile writes proxies only when some of its generation are there. */
  lemma ChildlessStep(cfg: Config, tops: set<Key>, w: World, k: Key, env: Environment, generation: nat)
    requires WellNamed(cfg, tops) && Inv(cfg, tops, w) && Possible(cfg, tops, w, Reconciles(k, env)) && k in tops
    requires Fresh(cfg, w, Reconciles(k, env), k) && ChildKey(cfg, k) !in w.server.ingresses
    requires Rolled(Step(cfg, w.server, w.views, k, env), k, generation)
    ensures Rolled(w.server, k, generation)
  {
    var s, t := w.server, Step(cfg, w.server, w.views, k, env);
    var ing := s.ingresses[k].ing;
    TouchedChild(cfg, tops, s, w.views, k);
    StoredWasSeen(s, k);
    hide Step, Attempt, Tidy, AllShaped, Faithful, ChildKey, WellNamed, IngressFrame, ProxyFrame, GateOpens,
         ProxyHistory, IngressHistory, Rolled;
    StepFrame(cfg, s, w.views, k, env);
    RolledBeforeOrNow(s, t, ing, generation);
    if !Rolled(s, k, generation) {
      NoChildNoGate(cfg, w.views, ing);
      if CurrentProxies(w.views.proxies, ing) == [] {
        ClosedGate(cfg, s, w.views, k, env);
        SameRolled(s, t, k, generation);
      } else {
        CurrentRolled(s, w.views.proxies, ing);
      }
    }
  }

  lemma RolledBeforeOrNow(s: Server, t: Server, ing: Ingress, generation: nat)
    requires ProxyFrame(s, t, ing) && Rolled(t, IngressKey(ing), generation)
    ensures Rolled(s, IngressKey(ing), generation) || ing.generation == generation
  {
    hide ProxyHistory;
    var k := IngressKey(ing);
    var x :| x in t.proxies && Labelled(t.proxies[x], k, generation);
    if x in s.proxies && t.proxies[x] == s.proxies[x] {
      assert Labelled(s.proxies[x], k, generation);
    }
  }

  lemma SameRolled(s: Server, t: Server, k: Key, generation: nat)
    requires SameProxies(s, t)
    ensures Rolled(t, k, generation) <==> Rolled(s, k, generation)
  {
  }

  lemma NoChildNoGate(cfg: Config, views: Views, ing: Ingress)
    ensures ChildKey(cfg, IngressKey(ing)) !in views.ingresses ==> !GateOpens(cfg, views, ing)
  {
    hide ChildSpec, ChildKey;
  }

  lemma CurrentRolled(s: Server, view: seq<HTTPProxy>, ing: Ingress)
    requires Synced(s, view, ing) && CurrentProxies(view, ing) != []
    ensures Rolled(s, IngressKey(ing), ing.generation)
  {
    var q := CurrentProxies(view, ing)[0];
    assert q in CurrentProxies(view, ing);
    assert KeyOf(q) in s.proxies && Labelled(s.proxies[KeyOf(q)], IngressKey(ing), ing.generation);
  }

  // ---- Runs ------------------------------------------------------------------------

  lemma LifetimeStep(cfg: Config, tops: set<Key>, w: World, e: Event, k: Key, generation: nat)
    requires WellNamed(cfg, tops) && Inv(cfg, tops, w) && Possible(cfg, tops, w, e) && k in tops && Fresh(cfg, w, e, k)
    requires var t := Next(cfg, tops, w, e).server;
             Rolled(t, k, generation) && ChildKey(cfg, k) !in t.ingresses
    ensures Readies(cfg, w, e, k, generation)
      || (Rolled(w.server, k, generation) && ChildKey(cfg, k) !in w.server.ingresses)
  {
    hide Step, Inv, WellNamed, Fresh, Rolled, Readies, ChildKey, Faithful;
    if !e.Reconciles? {
      OtherEventKeeps(cfg, tops, w, e, k, generation);
    } else if e.k != k {
      OtherReconcileKeeps(cfg, tops, w, e.k, e.env, k, generation);
    } else if ChildKey(cfg, k) in w.server.ingresses {
      RemovalStep(cfg, tops, w, k, e.env, generation);
    } else {
      ChildlessStep(cfg, tops, w, k, e.env, generation);
    }
  }

  /** Child lifetime: in every run whose reconciles of `k` meet fresh caches, as long as a
      proxy of `k` is at a generation that has not been ready yet, the child exists. */
  lemma {:induction false} FreshChildLifetime(cfg: Config, tops: set<Key>, ws: seq<World>, es: seq<Event>, i: nat,
                                              k: Key, generation: nat)
    requires WellNamed(cfg, tops) && Run(cfg, tops, ws, es) && i < |ws| && k in tops
    requires forall j :: 0 <= j < i ==> Fresh(cfg, ws[j], es[j], k)
    requires Rolled(ws[i].server, k, generation) && !BeenReady(cfg, ws, es, i, k, generation)
    ensures ChildKey(cfg, k) in ws[i].server.ingresses
  {
    hide Inv, Next, Possible, WellNamed, Fresh, Rolled, Readies, ChildKey;
    if i == 0 {
      NothingRolled(cfg, tops, ws[0], k, generation);
    } else if ChildKey(cfg, k) !in ws[i].server.ingresses {
      RunInv(cfg, tops, ws, es, i - 1);
      LifetimeStep(cfg, tops, ws[i - 1], es[i - 1], k, generation);
      FreshChildLifetime(cfg, tops, ws, es, i - 1, k, generation);
    }
  }

  lemma NothingRolled(cfg: Config, tops: set<Key>, w: World, k: Key, generation: nat)
    requires Init(cfg, tops, w)
    ensures !Rolled(w.server, k, generation)
  {
    hide ViewsSeen, IngressHistory, ObservedBounded;
  }
}
