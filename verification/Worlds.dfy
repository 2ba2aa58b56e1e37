/** The whole system: the server, the caches, and every event that may happen, in any order.
    All ingresses, children included, are reconciled by the same controller. */
module Worlds {
  import opened Model
  import opened EndpointProbe
  import opened Outputs
  import opened Conditions
  import opened Cluster
  import opened Reconcile
  import opened Framing
  import opened Rollout
  import opened Steps

  datatype World = World(server: Server, views: Views)

  /** Reconciles of any ingress with any failures; edits of top-level specs; cache refreshes;
      Contour reporting on a proxy; and others writing or deleting proxies without our labels. */
  datatype Event =
    | Reconciles(k: Key, env: Environment)
    | EditsSpec(k: Key, spec: IngressSpec)
    | RefreshesProxies(listing: seq<HTTPProxy>)
    | RefreshesIngresses(index: map<Key, IngressObject>)
    | ContourReports(k: Key, status: string)
    | OthersPut(p: HTTPProxy)
    | OthersDelete(k: Key)

  ghost predicate Possible(cfg: Config, tops: set<Key>, w: World, e: Event) {
    var s := w.server;
    match e
    case Reconciles(k, env) => k in s.ingresses && Faithful(cfg, s.ingresses[k].ing, env)
    case EditsSpec(k, _) => k in tops && k in s.ingresses
    case RefreshesProxies(listing) => forall p :: p in listing ==> p in s.seen
    case RefreshesIngresses(index) => forall k :: k in index
                                                  ==> index[k] in s.seenIngresses && IngressKey(index[k].ing) == k
    case ContourReports(k, _) => k in s.proxies
    case OthersPut(p) => p.labels.parent == None
      && (KeyOf(p) in s.proxies ==> s.proxies[KeyOf(p)].labels.parent == None)
    case OthersDelete(k) => k in s.proxies && s.proxies[k].labels.parent == None
  }

  ghost function Next(cfg: Config, tops: set<Key>, w: World, e: Event): World
    requires Possible(cfg, tops, w, e)
  {
    var s := w.server;
    match e
    case Reconciles(k, env) => w.(server := Step(cfg, s, w.views, k, env))
    case EditsSpec(k, spec) =>
      w.(server := PutIngress(s, s.ingresses[k].(ing := Respecced(s.ingresses[k].ing, spec))))
    case RefreshesProxies(listing) => w.(views := w.views.(proxies := listing))
    case RefreshesIngresses(index) => w.(views := w.views.(ingresses := index))
    case ContourReports(k, status) => w.(server := PutProxy(s, s.proxies[k].(status := status)))
    case OthersPut(p) => w.(server := PutProxy(s, p))
    case OthersDelete(k) => w.(server := RemoveProxies(s, {k}))
  }

  // ---- Invariant -------------------------------------------------------------------

  /** Child names do not clash with top-level names or with each other. */
  ghost predicate TopNames(cfg: Config, tops: set<Key>) {
    && (forall t :: t in tops ==> ChildKey(cfg, t) !in tops)
    && (forall t, u :: t in tops && u in tops && ChildKey(cfg, t) == ChildKey(cfg, u) ==> t == u)
  }

  /** A top-level ingress without the probe annotation, or the annotated child of one. */
  ghost predicate Shaped(cfg: Config, tops: set<Key>, ing: Ingress) {
    || (IngressKey(ing) in tops && !IsEndpointProbe(ing))
    || (IsEndpointProbe(ing) && exists t :: t in tops && IngressKey(ing) == ChildKey(cfg, t))
  }

  ghost predicate AllShaped(cfg: Config, tops: set<Key>, s: Server) {
    && (forall t :: t in tops ==> t in s.ingresses)
    && (forall o :: o in s.seenIngresses ==> Shaped(cfg, tops, o.ing))
  }

  ghost predicate AllTidy(cfg: Config, tops: set<Key>, s: Server)
    requires forall t :: t in tops ==> t in s.ingresses
  {
    forall t :: t in tops ==> Tidy(cfg, s, s.ingresses[t].ing)
  }

  ghost predicate History(s: Server, views: Views) {
    ProxyHistory(s) && IngressHistory(s) && ViewsSeen(s, views) && ObservedBounded(s)
  }

  ghost predicate Inv(cfg: Config, tops: set<Key>, w: World) {
    History(w.server, w.views) && AllShaped(cfg, tops, w.server) && AllTidy(cfg, tops, w.server)
  }

  /** A start without children, and without proxies that carry our labels. */
  ghost predicate Init(cfg: Config, tops: set<Key>, w: World) {
    && History(w.server, w.views)
    && w.server.ingresses.Keys == tops
    && (forall o :: o in w.server.seenIngresses ==> IngressKey(o.ing) in tops && !IsEndpointProbe(o.ing))
    && (forall p :: p in w.server.seen ==> p.labels.parent == None)
  }

  // ---- What a reconcile adds to the history ----------------------------------------

  /** A new state of the child, with the spec that this generation wants: created by the gate, or
      an update of the state the cache had. */
  ghost predicate NewChild(cfg: Config, views: Views, ing: Ingress, o: IngressObject) {
    var ck := ChildKey(cfg, IngressKey(ing));
    && IngressKey(o.ing) == ck
    && (IsEndpointProbe(o.ing) || (ck in views.ingresses && o.ing.annotations == views.ingresses[ck].ing.annotations))
    && o.ing.spec == ChildSpec(cfg, ing, OlderProxies(views.proxies, ing))
    && o.status.observed <= o.ing.generation
  }

  lemma GateAdds(cfg: Config, s: Server, views: Views, ing: Ingress, env: Environment)
    requires IngressHistory(s) && ViewsSeen(s, views) && ObservedBounded(s)
    ensures forall o :: o in RunGate(cfg, s, views, ing, env).server.seenIngresses && o !in s.seenIngresses
                    ==> !IsEndpointProbe(ing) && NewChild(cfg, views, ing, o)
  {
    hide ChildSpec, ChildIngressName;
  }

  lemma KindAdds(cfg: Config, s: Server, views: Views, ing: Ingress, status: Status, env: Environment)
    requires History(s, views) && (forall d :: d in env.desired ==> Own(d, ing))
    ensures forall o :: o in Kind(cfg, s, views, ing, status, env).server.seenIngresses && o !in s.seenIngresses
                    ==> !IsEndpointProbe(ing) && NewChild(cfg, views, ing, o)
  {
    hide RunGate, Program, NewChild, Own, ProxyHistory, IngressHistory, IngressFrame, ServicesKnown;
    GateAdds(cfg, s, views, ing, env);
    GateFrame(cfg, s, views, ing, env);
    var gate := RunGate(cfg, s, views, ing, env);
    SameProxiesHistory(s, gate.server);
    ProgramFrame(gate.server, views.proxies, ing, gate.calls, env);
  }

  lemma SameProxiesHistory(s: Server, t: Server)
    requires ProxyHistory(s) && SameProxies(s, t)
    ensures ProxyHistory(t)
  {
  }

  /** A reconcile keeps its own ingress, changes at most its status, and adds to the history
      at most that status and a state of the child. */
  lemma StepAdds(cfg: Config, s: Server, views: Views, k: Key, env: Environment)
    requires History(s, views) && k in s.ingresses && Faithful(cfg, s.ingresses[k].ing, env)
    requires k !in Touched(cfg, s.ingresses[k].ing)
    ensures var o, t := s.ingresses[k], Step(cfg, s, views, k, env);
            var status := PostProcess(Attempt(cfg, s, views, k, env).status, o.ing.generation);
            && k in t.ingresses && t.ingresses[k].ing == o.ing
            && (t.ingresses[k].status == o.status || t.ingresses[k].status == status)
            && (env.reply(Attempt(cfg, s, views, k, env).calls) == Accept ==> t.ingresses[k].status == status)
            && (forall x :: x in t.seenIngresses && x !in s.seenIngresses ==>
                  (x.ing == o.ing && x.status == status) || (!IsEndpointProbe(o.ing) && NewChild(cfg, views, o.ing, x)))
  {
    var o := s.ingresses[k];
    var status := PreProcess(o.status, o.ing.generation);
    FaithfulIdentified(cfg, o.ing, env);
    StoredWasSeen(s, k);
    hide Kind, ProxyFrame, IngressFrame, NewChild, Faithful, Touched, Step, IngressHistory, ProxyHistory, ViewsSeen,
         Own;
    KindAdds(cfg, s, views, o.ing, status, env);
    KindFrame(cfg, s, views, o.ing, status, env);
    FrameKeeps(s, Attempt(cfg, s, views, k, env).server, Touched(cfg, o.ing), k);
    StatusWriteAdds(cfg, s, views, k, env);
  }

  lemma StoredWasSeen(s: Server, k: Key)
    requires IngressHistory(s) && k in s.ingresses
    ensures s.ingresses[k] in s.seenIngresses && IngressKey(s.ingresses[k].ing) == k
  {
  }

  lemma FrameKeeps(s: Server, t: Server, ks: set<Key>, k: Key)
    requires IngressFrame(s, t, ks) && k !in ks && k in s.ingresses
    ensures k in t.ingresses && t.ingresses[k] == s.ingresses[k]
  {
  }

  lemma StatusWriteAdds(cfg: Config, s: Server, views: Views, k: Key, env: Environment)
    requires k in s.ingresses && IngressKey(s.ingresses[k].ing) == k
    requires var mid := Attempt(cfg, s, views, k, env).server;
             k in mid.ingresses && mid.ingresses[k] == s.ingresses[k]
    ensures var o, a, t := s.ingresses[k], Attempt(cfg, s, views, k, env), Step(cfg, s, views, k, env);
            var status := PostProcess(a.status, o.ing.generation);
            && k in t.ingresses && t.ingresses[k].ing == o.ing
            && (t.ingresses[k].status == o.status || t.ingresses[k].status == status)
            && (env.reply(a.calls) == Accept ==> t.ingresses[k].status == status)
            && (forall x :: x in t.seenIngresses && x !in a.server.seenIngresses
                            ==> x.ing == o.ing && x.status == status)
  {
    hide Attempt;
  }

  // ---- Tidiness --------------------------------------------------------------------

  /** The cache shows the wanted targets only under the wanted names. */
  ghost predicate NamesAgree(view: seq<HTTPProxy>, ds: seq<HTTPProxy>) {
    forall d, m :: d in ds && m in view && SameTarget(m, d) ==> KeyOf(m) == KeyOf(d)
  }

  ghost predicate AddsOnly(s: Server, t: Server, ds: seq<HTTPProxy>) {
    forall p :: p in t.seen && p !in s.seen ==> exists d :: d in ds && Holds(p, d)
  }

  lemma ApplyOneAdds(s: Server, view: seq<HTTPProxy>, d: HTTPProxy, calls: nat, env: Environment)
    requires NamesAgree(view, [d])
    ensures AddsOnly(s, ApplyOne(s, view, d, calls, env).server, [d])
  {
    var matches := Matches(view, d);
    assert d in [d];
    if matches != [] {
      assert matches[0] in matches;
    }
  }

  lemma {:induction false} ApplyAllAdds(s: Server, view: seq<HTTPProxy>, ds: seq<HTTPProxy>, calls: nat,
                                        env: Environment)
    requires NamesAgree(view, ds)
    ensures AddsOnly(s, ApplyAll(s, view, ds, calls, env).server, ds)
    decreases |ds|
  {
    if ds != [] {
      hide ApplyOne, Holds;
      assert forall d :: d in ds <==> d == ds[0] || d in ds[1..];
      ApplyOneAdds(s, view, ds[0], calls, env);
      var p := ApplyOne(s, view, ds[0], calls, env);
      ApplyAllAdds(p.server, view, ds[1..], p.calls, env);
    }
  }

  lemma StepAddsProxies(cfg: Config, s: Server, views: Views, k: Key, env: Environment)
    requires k in s.ingresses && IngressHistory(s) && ViewsSeen(s, views) && NamesAgree(views.proxies, env.desired)
    ensures AddsOnly(s, Step(cfg, s, views, k, env), env.desired)
  {
    var ing := s.ingresses[k].ing;
    hide Kind, Program, RunGate, Holds, Step, AddsOnly, NamesAgree, IngressHistory, ViewsSeen;
    StatusWriteKeepsProxies(cfg, s, views, k, env);
    KindProxies(cfg, s, views, ing, PreProcess(s.ingresses[k].status, ing.generation), env);
    var gate := RunGate(cfg, s, views, ing, env);
    ProgramAdds(gate.server, views.proxies, ing, gate.calls, env);
    AddsSame(s, gate.server, Step(cfg, s, views, k, env),
             Program(gate.server, views.proxies, ing, gate.calls, env).server, env.desired);
  }

  lemma ProgramAdds(s: Server, view: seq<HTTPProxy>, ing: Ingress, calls: nat, env: Environment)
    requires NamesAgree(view, env.desired)
    ensures AddsOnly(s, Program(s, view, ing, calls, env).server, env.desired)
  {
    hide ApplyAll, Holds, NamesAgree, OlderProxies, Leftovers;
    ApplyAllAdds(s, view, env.desired, calls, env);
  }

  lemma AddsSame(s: Server, mid: Server, t: Server, done: Server, ds: seq<HTTPProxy>)
    requires s.seen == mid.seen && AddsOnly(mid, done, ds) && (t.seen == done.seen || t.seen == mid.seen)
    ensures AddsOnly(s, t, ds)
  {
  }

  lemma TidyNames(cfg: Config, s: Server, view: seq<HTTPProxy>, ing: Ingress, ds: seq<HTTPProxy>)
    requires CollisionFree(cfg) && Wanted(cfg, ing, ds) && Tidy(cfg, s, ing) && (forall p :: p in view ==> p in s.seen)
    ensures NamesAgree(view, ds)
  {
    hide Targets, Canonical, CollisionFree;
    forall d, m | d in ds && m in view && SameTarget(m, d)
      ensures KeyOf(m) == KeyOf(d)
    {
      assert OfParent(m, ing);
      TargetFixesName(cfg, ing, m, d);
    }
  }

  lemma HeldIsTidy(cfg: Config, ing: Ingress, ds: seq<HTTPProxy>, p: HTTPProxy, d: HTTPProxy)
    requires Wanted(cfg, ing, ds) && d in ds && Holds(p, d)
    ensures Canonical(cfg, ing.name, p) && p.labels.generation == Some(ing.generation)
    ensures TargetOf(p) in Targets(cfg, ing)
  {
    hide Targets;
    var i :| 0 <= i < |ds| && ds[i] == d;
    assert TargetsOf(ds)[i] == TargetOf(d) == TargetOf(p);
  }

  lemma OwnStepTidy(cfg: Config, s: Server, views: Views, k: Key, env: Environment)
    requires CollisionFree(cfg) && History(s, views) && k in s.ingresses && Faithful(cfg, s.ingresses[k].ing, env)
    requires Tidy(cfg, s, s.ingresses[k].ing)
    ensures Tidy(cfg, Step(cfg, s, views, k, env), s.ingresses[k].ing)
  {
    var ing := s.ingresses[k].ing;
    FaithfulIdentified(cfg, ing, env);
    hide Faithful, Step, Targets, TargetsOf, CollisionFree, Holds, Canonical, Identified, IngressHistory, ProxyHistory;
    TidyNames(cfg, s, views.proxies, ing, env.desired);
    StepAddsProxies(cfg, s, views, k, env);
    forall p | p in Step(cfg, s, views, k, env).seen && p !in s.seen
      ensures Canonical(cfg, ing.name, p) && p.labels.generation == Some(ing.generation)
      ensures TargetOf(p) in Targets(cfg, ing)
    {
      var d :| d in env.desired && Holds(p, d);
      HeldIsTidy(cfg, ing, env.desired, p, d);
    }
  }

  lemma OtherStepTidy(cfg: Config, s: Server, t: Server, ing: Ingress, other: Ingress)
    requires ProxyFrame(s, t, ing) && Tidy(cfg, s, other) && IngressKey(ing) != IngressKey(other)
    ensures Tidy(cfg, t, other)
  {
    hide Targets, Canonical;
  }

  // ---- Preservation ----------------------------------------------------------------

  lemma InitInv(cfg: Config, tops: set<Key>, w: World)
    requires Init(cfg, tops, w)
    ensures Inv(cfg, tops, w)
  {
    hide Targets, Canonical;
  }

  /** The keys that the reconcile of a stored ingress touches besides its own. */
  lemma TouchedChild(cfg: Config, tops: set<Key>, s: Server, views: Views, k: Key)
    requires TopNames(cfg, tops) && History(s, views) && AllShaped(cfg, tops, s) && k in s.ingresses
    ensures k !in Touched(cfg, s.ingresses[k].ing)
    ensures forall t :: t in tops ==> t !in Touched(cfg, s.ingresses[k].ing)
    ensures k in tops <==> !IsEndpointProbe(s.ingresses[k].ing)
    ensures k in tops ==> Touched(cfg, s.ingresses[k].ing) == {ChildKey(cfg, k)}
  {
    hide ChildKey;
    var o := s.ingresses[k];
    assert IngressKey(o.ing) == k && o in s.seenIngresses && Shaped(cfg, tops, o.ing);
  }

  lemma NewChildShaped(cfg: Config, tops: set<Key>, s: Server, views: Views, k: Key, x: IngressObject)
    requires TopNames(cfg, tops) && History(s, views) && AllShaped(cfg, tops, s) && k in s.ingresses
    requires !IsEndpointProbe(s.ingresses[k].ing) && NewChild(cfg, views, s.ingresses[k].ing, x)
    ensures Shaped(cfg, tops, x.ing)
  {
    TouchedChild(cfg, tops, s, views, k);
    hide ChildKey, ChildSpec;
    var ck := ChildKey(cfg, k);
    if ck in views.ingresses {
      assert Shaped(cfg, tops, views.ingresses[ck].ing);
    }
  }

  lemma ReconcileInv(cfg: Config, tops: set<Key>, w: World, k: Key, env: Environment)
    requires CollisionFree(cfg) && TopNames(cfg, tops) && Inv(cfg, tops, w)
    requires Possible(cfg, tops, w, Reconciles(k, env))
    ensures Inv(cfg, tops, Next(cfg, tops, w, Reconciles(k, env)))
  {
    var s, t := w.server, Step(cfg, w.server, w.views, k, env);
    TouchedChild(cfg, tops, s, w.views, k);
    hide Step, Attempt, Faithful, CollisionFree, ChildKey, NewChild, Touched, ProxyFrame, IngressFrame, History,
         AllShaped, TopNames, Tidy;
    StepFrame(cfg, s, w.views, k, env);
    StepAdds(cfg, s, w.views, k, env);
    HistoryKept(cfg, s, w.views, k, env, t);
    TopsKept(cfg, tops, s, t, w.views, k);
    ShapesKept(cfg, tops, s, t, w.views, k);
    forall o | o in tops
      ensures Tidy(cfg, t, t.ingresses[o].ing)
    {
      if o == k {
        OwnStepTidy(cfg, s, w.views, k, env);
      } else {
        StoredWasSeen(s, o);
        StoredWasSeen(s, k);
        OtherStepTidy(cfg, s, t, s.ingresses[k].ing, s.ingresses[o].ing);
      }
    }
  }

  /** A reconcile keeps the top-level ingresses, all but its own unchanged. */
  lemma TopsKept(cfg: Config, tops: set<Key>, s: Server, t: Server, views: Views, k: Key)
    requires k in s.ingresses && AllShaped(cfg, tops, s) && IngressFrame(s, t, Touched(cfg, s.ingresses[k].ing) + {k})
    requires k in t.ingresses && t.ingresses[k].ing == s.ingresses[k].ing
    requires forall o :: o in tops ==> o !in Touched(cfg, s.ingresses[k].ing)
    ensures forall o :: o in tops ==> o in s.ingresses && o in t.ingresses && t.ingresses[o].ing == s.ingresses[o].ing
  {
    hide Touched, Shaped, IngressHistory;
  }

  lemma ShapesKept(cfg: Config, tops: set<Key>, s: Server, t: Server, views: Views, k: Key)
    requires TopNames(cfg, tops) && History(s, views) && AllShaped(cfg, tops, s) && k in s.ingresses
    requires forall o :: o in tops ==> o in t.ingresses
    requires forall x :: x in t.seenIngresses && x !in s.seenIngresses ==>
               x.ing == s.ingresses[k].ing
                 || (!IsEndpointProbe(s.ingresses[k].ing) && NewChild(cfg, views, s.ingresses[k].ing, x))
    ensures AllShaped(cfg, tops, t)
  {
    hide Shaped, NewChild, History, TopNames;
    ShapeOf(cfg, tops, s, views, k);
    forall x | x in t.seenIngresses && x !in s.seenIngresses
      ensures Shaped(cfg, tops, x.ing)
    {
      if x.ing != s.ingresses[k].ing {
        NewChildShaped(cfg, tops, s, views, k, x);
      }
    }
  }

  lemma ShapeOf(cfg: Config, tops: set<Key>, s: Server, views: Views, k: Key)
    requires History(s, views) && AllShaped(cfg, tops, s) && k in s.ingresses
    ensures Shaped(cfg, tops, s.ingresses[k].ing)
  {
    hide Shaped;
    assert s.ingresses[k] in s.seenIngresses;
  }

  lemma HistoryKept(cfg: Config, s: Server, views: Views, k: Key, env: Environment, t: Server)
    requires History(s, views) && k in s.ingresses && t == Step(cfg, s, views, k, env)
    requires ProxyFrame(s, t, s.ingresses[k].ing) && IngressFrame(s, t, Touched(cfg, s.ingresses[k].ing) + {k})
    requires forall x :: x in t.seenIngresses && x !in s.seenIngresses ==>
               || (x.ing == s.ingresses[k].ing && x.status.observed == x.ing.generation)
               || NewChild(cfg, views, s.ingresses[k].ing, x)
    ensures History(t, views)
  {
    hide Step, Touched, ChildKey, ChildSpec;
  }
}
