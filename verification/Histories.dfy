/** Safety over whole runs: any number of events, in any order, from a start without children
    and without proxies of ours. */
module Histories {
  import opened Model
  import opened Outputs
  import opened Cluster
  import opened Reconcile
  import opened Framing
  import opened Rollout
  import opened Steps
  import opened Worlds

  // ---- Every event keeps the invariant ---------------------------------------------

  /** Events on proxies leave the ingress side alone. */
  lemma ProxyEventInv(cfg: Config, tops: set<Key>, w: World, t: Server)
    requires Inv(cfg, tops, w) && ProxyHistory(t)
    requires t.ingresses == w.server.ingresses && t.seenIngresses == w.server.seenIngresses
    requires w.server.revision <= t.revision && w.server.seen <= t.seen
    requires forall x :: x in tops ==> Tidy(cfg, t, w.server.ingresses[x].ing)
    ensures Inv(cfg, tops, w.(server := t))
  {
    hide Tidy, Shaped, ProxyHistory;
  }

  lemma PutProxyHistory(s: Server, p: HTTPProxy)
    requires ProxyHistory(s)
    ensures ProxyHistory(PutProxy(s, p))
  {
  }

  lemma EditInv(cfg: Config, tops: set<Key>, w: World, k: Key, spec: IngressSpec)
    requires Inv(cfg, tops, w) && Possible(cfg, tops, w, EditsSpec(k, spec))
    ensures Inv(cfg, tops, Next(cfg, tops, w, EditsSpec(k, spec)))
  {
    var s := w.server;
    var o := s.ingresses[k];
    var edited := o.(ing := Respecced(o.ing, spec));
    var t := PutIngress(s, edited);
    EditHistory(s, w.views, k, spec);
    ShapeOf(cfg, tops, s, w.views, k);
    PutIngressSeen(s, edited);
    hide Tidy, History, PutIngress;
    EditShaped(cfg, tops, s, t, edited.ing);
    hide AllShaped;
    forall x | x in tops
      ensures x in t.ingresses && Tidy(cfg, t, t.ingresses[x].ing)
    {
      if x == k {
        TidyAfterEdit(cfg, s, t, o.ing, spec);
      } else {
        TidySameSeen(cfg, s, t, s.ingresses[x].ing);
      }
    }
  }

  lemma EditShaped(cfg: Config, tops: set<Key>, s: Server, t: Server, edited: Ingress)
    requires AllShaped(cfg, tops, s) && s.ingresses.Keys <= t.ingresses.Keys && Shaped(cfg, tops, edited)
    requires forall x :: x in t.seenIngresses ==> x in s.seenIngresses || x.ing == edited
    ensures AllShaped(cfg, tops, t)
  {
    hide Shaped;
  }

  lemma PutIngressSeen(s: Server, o: IngressObject)
    ensures var t := PutIngress(s, o);
            && t.seen == s.seen
            && (forall x :: x in t.seenIngresses ==> x in s.seenIngresses || x.ing == o.ing)
            && t.ingresses.Keys == s.ingresses.Keys + {IngressKey(o.ing)}
            && t.ingresses[IngressKey(o.ing)].ing == o.ing
            && (forall x :: x in s.ingresses && x != IngressKey(o.ing) ==> t.ingresses[x] == s.ingresses[x])
  {
  }

  lemma EditHistory(s: Server, views: Views, k: Key, spec: IngressSpec)
    requires History(s, views) && k in s.ingresses
    ensures History(PutIngress(s, s.ingresses[k].(ing := Respecced(s.ingresses[k].ing, spec))), views)
    ensures IngressKey(s.ingresses[k].ing) == k
  {
    var edited := s.ingresses[k].(ing := Respecced(s.ingresses[k].ing, spec));
    PutIngressFrame(s, edited);
    SameProxiesHistory(s, PutIngress(s, edited));
    hide ProxyHistory, IngressHistory;
    assert s.ingresses[k] in s.seenIngresses && IngressKey(s.ingresses[k].ing) == k by {
      StoredWasSeen(s, k);
    }
  }

  /** No proxy is at the generation that an edit has just created. */
  lemma TidyAfterEdit(cfg: Config, s: Server, t: Server, ing: Ingress, spec: IngressSpec)
    requires Tidy(cfg, s, ing) && s.seen == t.seen
    ensures Tidy(cfg, t, Respecced(ing, spec))
  {
    hide Targets, Canonical;
  }

  lemma TidySameSeen(cfg: Config, s: Server, t: Server, ing: Ingress)
    requires Tidy(cfg, s, ing) && s.seen == t.seen
    ensures Tidy(cfg, t, ing)
  {
    hide Targets, Canonical;
  }

  lemma ReportInv(cfg: Config, tops: set<Key>, w: World, k: Key, status: string)
    requires Inv(cfg, tops, w) && Possible(cfg, tops, w, ContourReports(k, status))
    ensures Inv(cfg, tops, Next(cfg, tops, w, ContourReports(k, status)))
  {
    var s := w.server;
    var reported := s.proxies[k].(status := status);
    PutProxyHistory(s, reported);
    assert s.proxies[k] in s.seen;
    hide Tidy, Shaped, ProxyHistory;
    forall x | x in tops
      ensures Tidy(cfg, PutProxy(s, reported), s.ingresses[x].ing)
    {
      TidyAfterReport(cfg, s, s.ingresses[x].ing, k, status);
    }
    ProxyEventInv(cfg, tops, w, PutProxy(s, reported));
  }

  lemma TidyAfterReport(cfg: Config, s: Server, ing: Ingress, k: Key, status: string)
    requires Tidy(cfg, s, ing) && k in s.proxies && s.proxies[k] in s.seen
    ensures Tidy(cfg, PutProxy(s, s.proxies[k].(status := status)), ing)
  {
    hide Targets;
  }

  lemma OthersInv(cfg: Config, tops: set<Key>, w: World, e: Event)
    requires Inv(cfg, tops, w) && Possible(cfg, tops, w, e) && (e.OthersPut? || e.OthersDelete?)
    ensures Inv(cfg, tops, Next(cfg, tops, w, e))
  {
    var s, t := w.server, Next(cfg, tops, w, e).server;
    assert ProxyHistory(t) by {
      if e.OthersPut? {
        PutProxyHistory(s, e.p);
      }
    }
    hide Tidy, Shaped, ProxyHistory;
    forall x | x in tops
      ensures Tidy(cfg, t, s.ingresses[x].ing)
    {
      TidyAfterOthers(cfg, s, t, s.ingresses[x].ing);
    }
    ProxyEventInv(cfg, tops, w, t);
  }

  lemma TidyAfterOthers(cfg: Config, s: Server, t: Server, ing: Ingress)
    requires Tidy(cfg, s, ing) && forall p :: p in t.seen ==> p in s.seen || p.labels.parent == None
    ensures Tidy(cfg, t, ing)
  {
    hide Targets, Canonical;
  }

  lemma NextInv(cfg: Config, tops: set<Key>, w: World, e: Event)
    requires CollisionFree(cfg) && TopNames(cfg, tops) && Inv(cfg, tops, w) && Possible(cfg, tops, w, e)
    ensures Inv(cfg, tops, Next(cfg, tops, w, e))
  {
    match e
    case Reconciles(k, env) => ReconcileInv(cfg, tops, w, k, env);
    case EditsSpec(k, spec) => EditInv(cfg, tops, w, k, spec);
    case RefreshesProxies(listing) => hide Tidy, Shaped;
    case RefreshesIngresses(index) => hide Tidy, Shaped;
    case ContourReports(k, status) => ReportInv(cfg, tops, w, k, status);
    case OthersPut(p) => OthersInv(cfg, tops, w, e);
    case OthersDelete(k) => OthersInv(cfg, tops, w, e);
  }

  // ---- Runs ------------------------------------------------------------------------

  ghost predicate Run(cfg: Config, tops: set<Key>, ws: seq<World>, es: seq<Event>) {
    && |ws| == |es| + 1
    && Init(cfg, tops, ws[0])
    && forall i :: 0 <= i < |es| ==> Possible(cfg, tops, ws[i], es[i]) && ws[i + 1] == Next(cfg, tops, ws[i], es[i])
  }

  /** The standing assumptions about names and hashes. */
  ghost predicate WellNamed(cfg: Config, tops: set<Key>) {
    CollisionFree(cfg) && TopNames(cfg, tops)
  }

  lemma {:induction false} RunInv(cfg: Config, tops: set<Key>, ws: seq<World>, es: seq<Event>, i: nat)
    requires WellNamed(cfg, tops) && Run(cfg, tops, ws, es) && i < |ws|
    ensures Inv(cfg, tops, ws[i])
  {
    hide Inv, Possible, Next, Init;
    if i == 0 {
      InitInv(cfg, tops, ws[0]);
    } else {
      RunInv(cfg, tops, ws, es, i - 1);
      NextInv(cfg, tops, ws[i - 1], es[i - 1]);
    }
  }

  // ---- Make before break -----------------------------------------------------------

  ghost predicate Labelled(p: HTTPProxy, k: Key, generation: nat) {
    p.ns == k.ns && p.labels.parent == Some(k.name) && p.labels.generation == Some(generation)
  }

  /** A reconcile of `k` at this generation found the child ready, with exactly the spec that
      `MakeEndpointProbeIngress` gives for this generation. */
  ghost predicate OpensGate(cfg: Config, w: World, e: Event, k: Key, generation: nat) {
    && e.Reconciles? && e.k == k && k in w.server.ingresses
    && w.server.ingresses[k].ing.generation == generation
    && GateOpens(cfg, w.views, w.server.ingresses[k].ing)
  }

  ghost predicate Opened(cfg: Config, ws: seq<World>, es: seq<Event>, i: nat, k: Key, generation: nat)
    requires i <= |es| < |ws|
  {
    exists j :: 0 <= j < i && OpensGate(cfg, ws[j], es[j], k, generation)
  }

  /** A proxy that an event adds was allowed by the gate, or repeats the labels of one that
      was seen before. */
  lemma NewProxyAllowed(cfg: Config, tops: set<Key>, w: World, e: Event, k: Key, generation: nat, p: HTTPProxy)
    requires WellNamed(cfg, tops) && Inv(cfg, tops, w) && Possible(cfg, tops, w, e) && k in tops
    requires p in Next(cfg, tops, w, e).server.seen && p !in w.server.seen && Labelled(p, k, generation)
    ensures OpensGate(cfg, w, e, k, generation) || exists q :: q in w.server.seen && Labelled(q, k, generation)
  {
    var s := w.server;
    if e.ContourReports? {
      assert s.proxies[e.k] in s.seen && Labelled(s.proxies[e.k], k, generation);
    } else if e.Reconciles? {
      var ing := s.ingresses[e.k].ing;
      ReconciledProxyAllowed(cfg, tops, w, e.k, e.env, k, generation, p);
    }
  }

  lemma ReconciledProxyAllowed(cfg: Config, tops: set<Key>, w: World, r: Key, env: Environment, k: Key, generation: nat,
                               p: HTTPProxy)
    requires WellNamed(cfg, tops) && Inv(cfg, tops, w) && Possible(cfg, tops, w, Reconciles(r, env)) && k in tops
    requires p in Step(cfg, w.server, w.views, r, env).seen && p !in w.server.seen && Labelled(p, k, generation)
    ensures OpensGate(cfg, w, Reconciles(r, env), k, generation)
      || exists q :: q in w.server.seen && Labelled(q, k, generation)
  {
    var s := w.server;
    var ing := s.ingresses[r].ing;
    assert IngressKey(ing) == r;
    TouchedChild(cfg, tops, s, w.views, r);
    StepFrame(cfg, s, w.views, r, env);
    hide Step, Faithful, GateOpens, Tidy, Shaped, IngressFrame, ChildKey;
    assert Own(p, ing);
    assert r == k && ing.generation == generation;
    if CurrentProxies(w.views.proxies, ing) == [] && !GateOpens(cfg, w.views, ing) {
      ClosedGate(cfg, s, w.views, r, env);
    } else if CurrentProxies(w.views.proxies, ing) != [] {
      var q := CurrentProxies(w.views.proxies, ing)[0];
      assert q in CurrentProxies(w.views.proxies, ing);
      assert q in s.seen && Labelled(q, k, generation);
    }
  }

  lemma {:induction false} SeenWasAllowed(cfg: Config, tops: set<Key>, ws: seq<World>, es: seq<Event>, i: nat, k: Key,
                                          generation: nat, p: HTTPProxy)
    requires WellNamed(cfg, tops) && Run(cfg, tops, ws, es) && i < |ws| && k in tops
    requires p in ws[i].server.seen && Labelled(p, k, generation)
    ensures Opened(cfg, ws, es, i, k, generation)
  {
    hide Next, Possible, OpensGate, Inv, WellNamed;
    if i > 0 {
      RunInv(cfg, tops, ws, es, i - 1);
      if p in ws[i - 1].server.seen {
        SeenWasAllowed(cfg, tops, ws, es, i - 1, k, generation, p);
      } else {
        NewProxyAllowed(cfg, tops, ws[i - 1], es[i - 1], k, generation, p);
        if !OpensGate(cfg, ws[i - 1], es[i - 1], k, generation) {
          var q :| q in ws[i - 1].server.seen && Labelled(q, k, generation);
          SeenWasAllowed(cfg, tops, ws, es, i - 1, k, generation, q);
        }
      }
    }
  }

  /** Make before break: in every run, a stored proxy labelled with a parent and a generation
      implies that an earlier reconcile of that parent at that generation found its endpoint
      probe ready with the spec of that very generation. */
  lemma MakeBeforeBreak(cfg: Config, tops: set<Key>, ws: seq<World>, es: seq<Event>, i: nat, k: Key, generation: nat,
                        x: Key)
    requires WellNamed(cfg, tops) && Run(cfg, tops, ws, es) && i < |ws| && k in tops
    requires x in ws[i].server.proxies && Labelled(ws[i].server.proxies[x], k, generation)
    ensures Opened(cfg, ws, es, i, k, generation)
  {
    RunInv(cfg, tops, ws, es, i);
    SeenWasAllowed(cfg, tops, ws, es, i, k, generation, ws[i].server.proxies[x]);
  }

  // ---- No recursion ----------------------------------------------------------------

  /** In every run, every ingress ever stored is a top-level one without the probe annotation
      or the annotated child of a top-level one; in particular, none is a child of a child. */
  lemma NoRecursion(cfg: Config, tops: set<Key>, ws: seq<World>, es: seq<Event>, i: nat, o: IngressObject)
    requires WellNamed(cfg, tops) && Run(cfg, tops, ws, es) && i < |ws| && o in ws[i].server.seenIngresses
    ensures IsEndpointProbe(o.ing) <==> IngressKey(o.ing) !in tops
    ensures IsEndpointProbe(o.ing) ==> exists t :: t in tops && IngressKey(o.ing) == ChildKey(cfg, t)
  {
    RunInv(cfg, tops, ws, es, i);
    hide ChildKey;
    assert Shaped(cfg, tops, o.ing);
  }

  /** A reconcile of a child changes no ingress but its own status: it neither creates nor
      deletes a child. */
  lemma ChildrenHaveNoChildren(cfg: Config, tops: set<Key>, w: World, k: Key, env: Environment)
    requires WellNamed(cfg, tops) && Inv(cfg, tops, w) && Possible(cfg, tops, w, Reconciles(k, env)) && k !in tops
    ensures var t := Step(cfg, w.server, w.views, k, env);
            && t.ingresses.Keys == w.server.ingresses.Keys
            && t.ingresses[k].ing == w.server.ingresses[k].ing
            && forall x :: x in t.ingresses && x != k ==> t.ingresses[x] == w.server.ingresses[x]
  {
    var s := w.server;
    hide Step, Attempt, Faithful, ProxyFrame, Tidy, Shaped, ChildKey, ProxyHistory, IngressHistory, NewChild, TopNames;
    TouchedChild(cfg, tops, s, w.views, k);
    StepFrame(cfg, s, w.views, k, env);
    StepAdds(cfg, s, w.views, k, env);
  }
}
