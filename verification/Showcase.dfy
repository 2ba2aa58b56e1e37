/** Convergence at work: a run of the small cluster, from an admitted ingress that was never
    reconciled, that meets all the premises of convergence together. */
module Showcase {
  import opened Model
  import opened EndpointProbe
  import opened Cluster
  import opened Reconcile
  import opened Framing
  import opened Rollout
  import opened Worlds
  import opened Histories
  import opened Lifetime
  import opened Convergence
  import opened Cooperation
  import opened Scenario
  import opened Stage
  import opened Unrest

  /** A run from a fresh ingress in which everything cooperates. */
  ghost predicate Willing(cfg: Config, k: Key, ds: seq<HTTPProxy>, ws: seq<World>, es: seq<Event>) {
    Run(cfg, {k}, ws, es) && Begins(ws[0], k) && CooperativeFrom(cfg, ws, es, 0, |es|, k, ds)
  }

  /** One more cooperative event. */
  lemma WillingNext(cfg: Config, k: Key, ds: seq<HTTPProxy>, ws: seq<World>, es: seq<Event>, e: Event)
    requires Willing(cfg, k, ds, ws, es) && Possible(cfg, {k}, ws[|es|], e) && Cooperative(cfg, ws[|es|], e, k, ds)
    ensures Willing(cfg, k, ds, ws + [Next(cfg, {k}, ws[|es|], e)], es + [e])
  {
    hide Possible, Next, Init, Begins, Cooperative;
    var ws', es' := ws + [Next(cfg, {k}, ws[|es|], e)], es + [e];
    forall j | 0 <= j < |es'|
      ensures Possible(cfg, {k}, ws'[j], es'[j]) && ws'[j + 1] == Next(cfg, {k}, ws'[j], es'[j])
      ensures Cooperative(cfg, ws'[j], es'[j], k, ds)
    {
      if j < |es| {
        assert ws'[j] == ws[j] && ws'[j + 1] == ws[j + 1] && es'[j] == es[j];
      }
    }
    assert ws'[0] == ws[0];
  }

  /** Both caches catch up. */
  lemma WillingSync(cfg: Config, k: Key, ds: seq<HTTPProxy>, ws: seq<World>, es: seq<Event>, ing: Ingress)
    returns (more: seq<World>, events: seq<Event>)
    requires Small(cfg) && Willing(cfg, k, ds, ws, es) && At(cfg, k, Never(), ws[|es|], ing)
    ensures |more| == 2 == |events| && Willing(cfg, k, ds, ws + more, es + events)
    ensures At(cfg, k, Never(), more[1], ing) && SyncedAll(more[1]) && more[1].server == ws[|es|].server
  {
    hide Small, Inv, AllCanonical, Population, Reaches, Willing, ProxyHistory, IngressHistory, ViewsSeen, Never,
         BadOnlyAt, KeyOf;
    NeverBad(k);
    WillingLength(cfg, k, ds, ws, es);
    var w := ws[|es|];
    InvHistories(cfg, k, w);
    var listing := FullListing(w.server);
    var e := RefreshesProxies(listing);
    var u := Refreshes(cfg, k, Never(), w, ing, e);
    WillingNext(cfg, k, ds, ws, es, e);
    InvHistories(cfg, k, u);
    IndexPossible(cfg, k, u);
    var e' := RefreshesIngresses(u.server.ingresses);
    var v := Refreshes(cfg, k, Never(), u, ing, e');
    assert (ws + [u])[|es + [e]|] == u;
    WillingNext(cfg, k, ds, ws + [u], es + [e], e');
    more, events := [u, v], [e, e'];
    assert ws + [u] + [v] == ws + more && es + [e] + [e'] == es + events;
  }

  lemma WillingLength(cfg: Config, k: Key, ds: seq<HTTPProxy>, ws: seq<World>, es: seq<Event>)
    requires Willing(cfg, k, ds, ws, es)
    ensures |ws| == |es| + 1
  {
    hide Init, Possible, Next, Begins, Cooperative;
  }

  /** A driven reconcile of the parent or of the child is possible and cooperative. */
  lemma DrivenIsWilling(cfg: Config, k: Key, ds: seq<HTTPProxy>, w: World, e: Event)
    requires e.Reconciles? && e.k in w.server.ingresses && Faithful(cfg, w.server.ingresses[e.k].ing, e.env)
    requires k in w.server.ingresses
    requires DrivesParent(cfg, w, e, k, ds) || DrivesChild(cfg, w, e, k)
    ensures Possible(cfg, {k}, w, e) && Cooperative(cfg, w, e, k, ds)
    ensures Next(cfg, {k}, w, e) == w.(server := Step(cfg, w.server, w.views, e.k, e.env))
  {
    hide Faithful, DrivesParent, DrivesChild, Step;
  }

  /** At the start nothing is listed, so the wish for the child is steady. */
  lemma StartOnTrack(cfg: Config, k: Key, ds: seq<HTTPProxy>, w: World, ing: Ingress)
    requires At(cfg, k, Never(), w, ing) && w.server.proxies == map[]
    ensures OnTrack(cfg, w.server, k, ds, ChildSpec(cfg, ing, []))
  {
    hide Inv, AllCanonical, Population, Reaches, Never, ChildSpec, Settled, Rolled;
    InvHistories(cfg, k, w);
    EmptySteady(cfg, w.server, ing);
  }

  /** The parent is reconciled, the caches catch up. */
  lemma WillingParent(cfg: Config, k: Key, ws: seq<World>, es: seq<Event>, ing: Ingress, hosts: seq<string>,
                      service: string)
    returns (more: seq<World>, events: seq<Event>)
    requires Small(cfg) && One(cfg, ing, hosts, service) && Willing(cfg, k, WantedIn(cfg, ing, service), ws, es)
    requires At(cfg, k, Never(), ws[|es|], ing) && SyncedAll(ws[|es|])
    requires ChildKey(cfg, k) !in ws[|es|].server.ingresses && !Rolled(ws[|es|].server, k, ing.generation)
    ensures |more| == 3 == |events| && Willing(cfg, k, WantedIn(cfg, ing, service), ws + more, es + events)
    ensures DrivesParent(cfg, ws[|es|], events[0], k, WantedIn(cfg, ing, service))
    ensures At(cfg, k, Never(), more[2], ing) && SyncedAll(more[2])
    ensures ChildHas(cfg, more[2].server, k, WantedChild(ing, service))
  {
    hide Small, One, Inv, AllCanonical, Population, Reaches, Willing, Never, BadOnlyAt, SyncedAll, Env, ChildKey,
         Rolled, DrivesParent, CurrentProxies, WantedChild, Step, Suits, Faithful, ServicesKnown, Possible, Next;
    WillingLength(cfg, k, WantedIn(cfg, ing, service), ws, es);
    var ds, w, env := WantedIn(cfg, ing, service), ws[|es|], Env(cfg, ing, service, Yes(), ProbeReady);
    NeverBad(k);
    NoneCurrent(w, ing);
    SyncedIndex(w);
    SceneDrives(cfg, k, Never(), w, ing, hosts, service);
    EnvFitsOne(cfg, ing, k, hosts, service, Yes(), ProbeReady);
    DrivenIsWilling(cfg, k, ds, w, Reconciles(k, env));
    var v := WaitStep(cfg, k, Never(), w, ing, hosts, service, ProbeReady);
    WillingNext(cfg, k, ds, ws, es, Reconciles(k, env));
    assert (ws + [v])[|es + [Reconciles(k, env)]|] == v;
    var m, n := WillingSync(cfg, k, ds, ws + [v], es + [Reconciles(k, env)], ing);
    more, events := [v] + m, [Reconciles(k, env)] + n;
    assert ws + [v] + m == ws + more && es + [Reconciles(k, env)] + n == es + events;
  }

  /** The child is reconciled, the caches catch up. */
  lemma WillingChild(cfg: Config, k: Key, ds: seq<HTTPProxy>, ws: seq<World>, es: seq<Event>, ing: Ingress,
                     service: string)
    returns (more: seq<World>, events: seq<Event>)
    requires Small(cfg) && Willing(cfg, k, ds, ws, es) && At(cfg, k, Never(), ws[|es|], ing) && SyncedAll(ws[|es|])
    requires ChildHas(cfg, ws[|es|].server, k, WantedChild(ing, service))
    ensures |more| == 3 == |events| && Willing(cfg, k, ds, ws + more, es + events)
    ensures DrivesChild(cfg, ws[|es|], events[0], k)
    ensures At(cfg, k, Never(), more[2], ing) && SyncedAll(more[2])
    ensures ChildHas(cfg, more[2].server, k, WantedChild(ing, service)) && ChildReady(cfg, more[2].server, k)
  {
    hide Small, Inv, AllCanonical, Population, Reaches, Willing, Never, BadOnlyAt, SyncedAll, Env, ChildKey,
         DrivesChild, WantedChild, Step, Suits, Faithful, Synced, Helps, Possible, Next;
    WillingLength(cfg, k, ds, ws, es);
    var w := ws[|es|];
    var ck, child := ChildKey(cfg, k), w.server.ingresses[ChildKey(cfg, k)].ing;
    var e := Reconciles(ck, Env(cfg, child, service, Yes(), ProbeReady));
    NeverBad(k);
    SyncedForAll(w, child);
    ChildDriven(cfg, k, Never(), w, ing, ing, service);
    DrivenIsWilling(cfg, k, ds, w, e);
    var v := ChildStep(cfg, k, Never(), w, ing, ing, service);
    WillingNext(cfg, k, ds, ws, es, e);
    assert (ws + [v])[|es + [e]|] == v;
    var m, n := WillingSync(cfg, k, ds, ws + [v], es + [e], ing);
    more, events := [v] + m, [e] + n;
    assert ws + [v] + m == ws + more && es + [e] + n == es + events;
  }

  /** All the premises of convergence of runs, in one run. */
  ghost predicate ConvergencePremises(cfg: Config, k: Key, ws: seq<World>, es: seq<Event>, a: nat, b: nat, c: nat,
                                      ds: seq<HTTPProxy>, want: IngressSpec) {
    && WellNamed(cfg, {k}) && Run(cfg, {k}, ws, es) && a < b < c < |es| && ds != []
    && CooperativeFrom(cfg, ws, es, a, |es|, k, ds) && OnTrack(cfg, ws[a].server, k, ds, want)
    && DrivesParent(cfg, ws[a], es[a], k, ds) && DrivesChild(cfg, ws[b], es[b], k)
    && DrivesParent(cfg, ws[c], es[c], k, ds)
  }

  lemma WantsSome(cfg: Config, k: Key, ing: Ingress, host: string, service: string)
    requires Small(cfg) && IngressKey(ing) == k && One(cfg, ing, [host], service)
    ensures WantedIn(cfg, ing, service) != []
  {
    hide Small, Plain, SmallSpec, Env, Suits, Faithful, ServicesKnown, Separate;
    EnvFits(cfg, ing, k, [host], service, Yes(), ProbeReady);
  }

  lemma StartWilling(cfg: Config, k: Key, ds: seq<HTTPProxy>, w: World)
    requires Init(cfg, {k}, w) && Begins(w, k)
    ensures Willing(cfg, k, ds, [w], [])
  {
    hide Init, Begins;
  }

  /** The parent is reconciled once more, and settles. */
  lemma WillingEnd(cfg: Config, k: Key, ws: seq<World>, es: seq<Event>, ing: Ingress, hosts: seq<string>,
                   service: string)
    returns (v: World, e: Event)
    requires Small(cfg) && One(cfg, ing, hosts, service) && Willing(cfg, k, WantedIn(cfg, ing, service), ws, es)
    requires At(cfg, k, Never(), ws[|es|], ing) && SyncedAll(ws[|es|])
    requires ChildHas(cfg, ws[|es|].server, k, WantedChild(ing, service)) && ChildReady(cfg, ws[|es|].server, k)
    ensures Willing(cfg, k, WantedIn(cfg, ing, service), ws + [v], es + [e])
    ensures DrivesParent(cfg, ws[|es|], e, k, WantedIn(cfg, ing, service))
  {
    hide Small, One, Inv, AllCanonical, Population, Reaches, Willing, Never, SyncedAll, Env, ChildKey, DrivesParent,
         WantedChild, Step, Suits, Faithful, ServicesKnown, Possible, Next;
    WillingLength(cfg, k, WantedIn(cfg, ing, service), ws, es);
    var ds, w, env := WantedIn(cfg, ing, service), ws[|es|], Env(cfg, ing, service, Yes(), ProbeReady);
    SceneDrives(cfg, k, Never(), w, ing, hosts, service);
    EnvFitsOne(cfg, ing, k, hosts, service, Yes(), ProbeReady);
    e := Reconciles(k, env);
    DrivenIsWilling(cfg, k, ds, w, e);
    v := Next(cfg, {k}, w, e);
    WillingNext(cfg, k, ds, ws, es, e);
  }

  lemma WillingPremises(cfg: Config, k: Key, ws: seq<World>, es: seq<Event>, ds: seq<HTTPProxy>, want: IngressSpec)
    requires WellNamed(cfg, {k}) && |es| == 7 && ds != [] && Willing(cfg, k, ds, ws, es)
    requires OnTrack(cfg, ws[0].server, k, ds, want)
    requires DrivesParent(cfg, ws[0], es[0], k, ds) && DrivesChild(cfg, ws[3], es[3], k)
    requires DrivesParent(cfg, ws[6], es[6], k, ds)
    ensures Begins(ws[0], k) && ConvergencePremises(cfg, k, ws, es, 0, 3, 6, ds, want)
  {
    hide WellNamed, OnTrack, DrivesParent, DrivesChild, Cooperative, Begins, Init, Possible, Next;
  }

  /** A fresh admitted ingress with a host, reconciled, its child reconciled, and reconciled
      again, meets them, and so it settles. */
  lemma ConvergenceRun(cfg: Config, k: Key, front: string, service: string)
    returns (ws: seq<World>, es: seq<Event>, ds: seq<HTTPProxy>, want: IngressSpec)
    requires Small(cfg) && service != ""
    ensures |ws| > 0 && Begins(ws[0], k) && ConvergencePremises(cfg, k, ws, es, 0, 3, 6, ds, want)
    ensures |es| < |ws| && Settled(cfg, ws[|es|].server, k, ds)
  {
    hide Small, One, Inv, AllCanonical, Population, Reaches, Never, SyncedAll, Env, ChildKey, Rolled, DrivesParent,
         DrivesChild, WantedChild, Begins, Admitted, OneSpec, Settled, WellNamed, OnTrack, Willing, Cooperative,
         Possible, Next, Init, WantedIn, ChildHas, ChildReady;
    var host := front + ".example";
    var ing := Simple(k, 1, host, service);
    SimpleIsOne(cfg, k, 1, front, service);
    OneSpecAdmitted([host], service);
    SmallNames(cfg, k);
    ChildElsewhere(cfg, k);
    ds, want := WantedIn(cfg, ing, service), ChildSpec(cfg, ing, []);
    WantsSome(cfg, k, ing, host, service);
    hide Simple;
    var w := Begin(cfg, k, Never(), ing);
    NothingStored(w.server, k, 1);
    StartOnTrack(cfg, k, ds, w, ing);
    StartWilling(cfg, k, ds, w);
    var m, n := WillingParent(cfg, k, [w], [], ing, [host], service);
    var m', n' := WillingChild(cfg, k, ds, [w] + m, [] + n, ing, service);
    var v, e := WillingEnd(cfg, k, [w] + m + m', [] + n + n', ing, [host], service);
    ws, es := [w] + m + m' + [v], [] + n + n' + [e];
    assert ws[0] == w && ws[3] == m[2] && ws[6] == m'[2] && es[0] == n[0] && es[3] == n'[0] && es[6] == e;
    WillingPremises(cfg, k, ws, es, ds, want);
    ConvergesInRuns(cfg, {k}, ws, es, 0, 3, 6, 7, k, ds, want);
  }

  /** Such a run exists, without any premise. */
  lemma SomeConvergenceRun()
    returns (cfg: Config, k: Key, ws: seq<World>, es: seq<Event>, ds: seq<HTTPProxy>, want: IngressSpec)
    ensures |ws| > 0 && Begins(ws[0], k) && ConvergencePremises(cfg, k, ws, es, 0, 3, 6, ds, want)
  {
    hide Small, Begins, ConvergencePremises, Settled;
    cfg := SmallExists();
    k := Key("default", "app");
    ws, es, ds, want := ConvergenceRun(cfg, k, "app", "service");
  }
}
