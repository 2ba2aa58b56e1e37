/** Convergence: without failures, with caches in sync and an environment that gets the child
    ready, an ingress settles within two rounds, and a settled ingress causes no more writes. */
module Convergence {
  import opened Model
  import opened EndpointProbe
  import opened ProbeIdentity
  import opened Outputs
  import opened Conditions
  import opened Cluster
  import opened Reconcile
  import opened Framing
  import opened Rollout
  import opened Steps
  import opened Worlds
  import opened Histories
  import opened Readiness
  import opened Lifetime

  // ---- Writing without failures ----------------------------------------------------

  ghost predicate AllAccepted(env: Environment) {
    forall n :: env.reply(n) == Accept
  }

  /** No foreign object occupies the name of a wanted proxy. */
  ghost predicate Unclaimed(s: Server, ds: seq<HTTPProxy>) {
    forall d :: d in ds && KeyOf(d) in s.proxies ==> SameTarget(s.proxies[KeyOf(d)], d)
  }

  /** What the cache does not show is free to be created. */
  ghost predicate Creatable(s: Server, view: seq<HTTPProxy>, ds: seq<HTTPProxy>) {
    forall d :: d in ds && Matches(view, d) == [] ==> KeyOf(d) !in s.proxies
  }

  lemma ApplyOneAccepted(s: Server, view: seq<HTTPProxy>, d: HTTPProxy, calls: nat, env: Environment)
    requires AllAccepted(env) && Aligned(s, view, [d]) && Creatable(s, view, [d])
    ensures ApplyOne(s, view, d, calls, env).ok
  {
    var matches := Matches(view, d);
    assert d in [d];
    if matches != [] {
      assert matches[0] in matches;
      assert KeyOf(matches[0]) == KeyOf(d);
    }
  }

  lemma {:induction false} ApplyAllAccepted(s: Server, view: seq<HTTPProxy>, ds: seq<HTTPProxy>, calls: nat,
                                            env: Environment)
    requires AllAccepted(env) && Aligned(s, view, ds) && Creatable(s, view, ds) && DistinctKeys(ds)
    ensures ApplyAll(s, view, ds, calls, env).ok
    decreases |ds|
  {
    if ds != [] {
      var d, rest := ds[0], ds[1..];
      assert ds == [d] + rest;
      hide ApplyOne, Holds, SameTarget, Matches;
      assert d in ds;
      ApplyOneAccepted(s, view, d, calls, env);
      ApplyOneEffect(s, view, d, calls, env);
      var one := ApplyOne(s, view, d, calls, env);
      AlignedRest(s, one.server, view, d, rest);
      RestMisses(d, rest);
      ApplyAllAccepted(one.server, view, rest, one.calls, env);
    }
  }

  lemma SyncedCreatable(cfg: Config, s: Server, view: seq<HTTPProxy>, ing: Ingress, ds: seq<HTTPProxy>)
    requires Prepared(cfg, s, view, ing, ds) && Unclaimed(s, ds)
    ensures Creatable(s, view, ds)
  {
    hide Tidy, CollisionFree, Separate, Targets;
    forall d | d in ds && KeyOf(d) in s.proxies
      ensures s.proxies[KeyOf(d)] in Matches(view, d)
    {
      var p := s.proxies[KeyOf(d)];
      assert Identified(cfg, ing, d);
      assert OfParent(p, ing) && KeyOf(p) == KeyOf(d);
    }
  }

  lemma ProgramAccepted(cfg: Config, s: Server, view: seq<HTTPProxy>, ing: Ingress, calls: nat, env: Environment)
    requires Prepared(cfg, s, view, ing, env.desired) && Unclaimed(s, env.desired) && AllAccepted(env)
    ensures Program(s, view, ing, calls, env).ok
  {
    hide ApplyAll, Tidy, Targets, Creatable, Unclaimed, OlderProxies, Leftovers;
    SyncedCreatable(cfg, s, view, ing, env.desired);
    SyncedAligned(cfg, s, view, ing, env.desired);
    WantedKeys(cfg, ing, env.desired);
    ApplyAllAccepted(s, view, env.desired, calls, env);
  }

  // ---- Writing nothing -------------------------------------------------------------

  lemma {:induction false} ApplyAllCalls(s: Server, view: seq<HTTPProxy>, ds: seq<HTTPProxy>, calls: nat,
                                         env: Environment)
    ensures var p := ApplyAll(s, view, ds, calls, env);
            p.calls >= calls && (p.calls == calls ==> p.server == s && p.ok)
    decreases |ds|
  {
    if ds != [] {
      var one := ApplyOne(s, view, ds[0], calls, env);
      ApplyAllCalls(one.server, view, ds[1..], one.calls, env);
    }
  }

  lemma {:induction false} ApplyAllIdle(s: Server, view: seq<HTTPProxy>, ds: seq<HTTPProxy>, calls: nat,
                                        env: Environment)
    requires Aligned(s, view, ds) && AllHeld(s, ds) && forall d :: d in ds ==> Matches(view, d) != []
    ensures ApplyAll(s, view, ds, calls, env) == Progress(s, calls, true)
    decreases |ds|
  {
    if ds != [] {
      var d, rest := ds[0], ds[1..];
      var matches := Matches(view, d);
      assert d in ds && matches[0] in matches;
      assert s.proxies[KeyOf(d)] == matches[0];
      hide Matches;
      ApplyAllIdle(s, view, rest, calls, env);
    }
  }

  /** With the proxies already exact, the rollout makes no call. */
  lemma ProgramIdle(cfg: Config, s: Server, view: seq<HTTPProxy>, ing: Ingress, calls: nat, env: Environment)
    requires Prepared(cfg, s, view, ing, env.desired) && Exact(s, ing, env.desired)
    ensures Program(s, view, ing, calls, env) == Progress(s, calls, true)
  {
    hide ApplyAll, Tidy, Targets, Separate, CollisionFree, Leftovers, Identified;
    SyncedAligned(cfg, s, view, ing, env.desired);
    forall d | d in env.desired
      ensures Matches(view, d) != []
    {
      ExactListed(cfg, s, view, ing, env.desired, d);
    }
    ApplyAllIdle(s, view, env.desired, calls, env);
    ExactNoOlder(cfg, s, view, ing, env.desired);
  }

  lemma ExactListed(cfg: Config, s: Server, view: seq<HTTPProxy>, ing: Ingress, ds: seq<HTTPProxy>, d: HTTPProxy)
    requires Prepared(cfg, s, view, ing, ds) && Exact(s, ing, ds) && d in ds
    ensures Matches(view, d) != [] && CurrentProxies(view, ing) != []
  {
    hide Tidy, Targets, Separate, CollisionFree;
    var p := s.proxies[KeyOf(d)];
    assert Identified(cfg, ing, d);
    assert Holds(p, d);
    assert OfParent(p, ing) && KeyOf(p) == KeyOf(d);
    assert p in view;
    assert p in Matches(view, d) && p in CurrentProxies(view, ing);
  }

  lemma ExactNoOlder(cfg: Config, s: Server, view: seq<HTTPProxy>, ing: Ingress, ds: seq<HTTPProxy>)
    requires Prepared(cfg, s, view, ing, ds) && Exact(s, ing, ds)
    ensures OlderProxies(view, ing) == []
  {
    hide Tidy, Targets, Separate, CollisionFree;
    forall p | p in view && OfParent(p, ing)
      ensures AtGeneration(p, ing)
    {
      assert WantedAt(ds, KeyOf(p), p);
      var d :| d in ds && Holds(p, d);
      assert Identified(cfg, ing, d);
    }
  }

  // ---- Rounds ----------------------------------------------------------------------

  ghost predicate ChildCached(cfg: Config, s: Server, views: Views, k: Key) {
    var ck := ChildKey(cfg, k);
    (ck in views.ingresses <==> ck in s.ingresses) && (ck in s.ingresses ==> views.ingresses[ck] == s.ingresses[ck])
  }

  /** A top-level ingress with its caches in sync and its wanted names free. */
  ghost predicate Calm(cfg: Config, s: Server, views: Views, k: Key, ds: seq<HTTPProxy>) {
    && k in s.ingresses && IngressKey(s.ingresses[k].ing) == k && !IsEndpointProbe(s.ingresses[k].ing)
    && ChildKey(cfg, k) != k && ChildCached(cfg, s, views, k)
    && IngressHistory(s) && ViewsSeen(s, views) && ObservedBounded(s)
    && Prepared(cfg, s, views.proxies, s.ingresses[k].ing, ds) && Unclaimed(s, ds)
  }

  /** No call fails, the services exist, the prober confirms. */
  ghost predicate Cooperates(ing: Ingress, env: Environment, ds: seq<HTTPProxy>) {
    AllAccepted(env) && env.probe == ProbeReady && ServicesKnown(ing, env.services) && env.desired == ds
  }

  /** The proxies match, the child is gone, and the ingress is ready. */
  ghost predicate Settled(cfg: Config, s: Server, k: Key, ds: seq<HTTPProxy>) {
    && k in s.ingresses && ChildKey(cfg, k) !in s.ingresses
    && Exact(s, s.ingresses[k].ing, ds)
    && s.ingresses[k].status == Status(IsTrue, IsTrue, IsTrue, s.ingresses[k].ing.generation)
  }

  ghost predicate ChildHas(cfg: Config, s: Server, k: Key, want: IngressSpec) {
    ChildKey(cfg, k) in s.ingresses && s.ingresses[ChildKey(cfg, k)].ing.spec == want
  }

  ghost predicate ChildReady(cfg: Config, s: Server, k: Key) {
    var ck := ChildKey(cfg, k);
    ck in s.ingresses && IsReady(s.ingresses[ck].status, s.ingresses[ck].ing.generation)
  }

  /** How far the rollout is: 4 the child is missing or outdated, 3 it is up to date but not
      ready, 2 it is ready but nothing is rolled out, 1 part of the generation is rolled out,
      0 everything is settled. */
  ghost function Phase(cfg: Config, s: Server, k: Key, ds: seq<HTTPProxy>, want: IngressSpec): nat
    requires k in s.ingresses
  {
    if Settled(cfg, s, k, ds) then 0
    else if Rolled(s, k, s.ingresses[k].ing.generation) then 1
    else if !ChildHas(cfg, s, k, want) then 4
    else if !ChildReady(cfg, s, k) then 3
    else 2
  }

  /** Between two reconciles: the child, if there is one, becomes ready; Contour may report on
      proxies of the current generation; older ones stay as they are. */
  ghost predicate Helps(cfg: Config, s: Server, t: Server, k: Key)
    requires k in s.ingresses
  {
    var ing, ck := s.ingresses[k].ing, ChildKey(cfg, k);
    && k in t.ingresses && t.ingresses[k].ing == ing && t.ingresses[k].status == s.ingresses[k].status
    && (ck in t.ingresses <==> ck in s.ingresses)
    && (ck in s.ingresses ==> t.ingresses[ck].ing == s.ingresses[ck].ing && ChildReady(cfg, t, k))
    && Reported(s, t, ing)
  }

  ghost predicate Reported(s: Server, t: Server, ing: Ingress) {
    && (forall x :: x in t.proxies && OfParent(t.proxies[x], ing) ==> x in s.proxies && OfParent(s.proxies[x], ing))
    && (forall x :: x in s.proxies && OfParent(s.proxies[x], ing) ==>
          && x in t.proxies && Holds(t.proxies[x], s.proxies[x])
          && (t.proxies[x] == s.proxies[x] || AtGeneration(s.proxies[x], ing)))
  }

  /** The spec that the child should have, whichever order the cache lists the proxies in. */
  ghost predicate Steady(cfg: Config, s: Server, ing: Ingress, want: IngressSpec) {
    forall view :: Synced(s, view, ing) ==> ChildSpec(cfg, ing, OlderProxies(view, ing)) == want
  }

  /** It is steady whenever the older proxies agree about the services that are dropped. */
  lemma AgreementIsSteady(cfg: Config, s: Server, view: seq<HTTPProxy>, ing: Ingress)
    requires Synced(s, view, ing) && OldProxiesAgree(cfg, ing, OlderProxies(view, ing))
    ensures Steady(cfg, s, ing, ChildSpec(cfg, ing, OlderProxies(view, ing)))
  {
    hide ChildSpec, OldProxiesAgree;
    forall other | Synced(s, other, ing)
      ensures ChildSpec(cfg, ing, OlderProxies(other, ing)) == ChildSpec(cfg, ing, OlderProxies(view, ing))
    {
      ListingIrrelevant(cfg, ing, OlderProxies(view, ing), OlderProxies(other, ing));
    }
  }

  // ---- Settled is quiet ------------------------------------------------------------

  /** With proxies of the generation listed, the gate is open and makes no call. */
  lemma RolledGate(cfg: Config, s: Server, views: Views, ing: Ingress, env: Environment)
    requires !IsEndpointProbe(ing) && CurrentProxies(views.proxies, ing) != []
    ensures RunGate(cfg, s, views, ing, env) == Gate(s, 0, Open(ChildKey(cfg, IngressKey(ing)) in views.ingresses))
  {
    hide ChildIngressName, ProbeGate;
  }

  lemma OpenKind(cfg: Config, s: Server, views: Views, ing: Ingress, status: Status, env: Environment)
    requires RunGate(cfg, s, views, ing, env).verdict.Open?
    ensures var gate, o := RunGate(cfg, s, views, ing, env), Kind(cfg, s, views, ing, status, env);
            if !ServicesKnown(ing, env.services) then o == Outcome(gate.server, gate.calls, status, Failed, false)
            else
              var done := Program(gate.server, views.proxies, ing, gate.calls, env);
              var configured := MarkNetworkConfigured(status);
              done.ok ==> o == Conclude(cfg, done.server, done.calls, ing, configured, gate.verdict.haveProbe, env)
  {
    hide RunGate, Program, Conclude, ServicesKnown;
  }

  lemma NothingWritten(cfg: Config, s: Server, views: Views, k: Key, env: Environment)
    requires k in s.ingresses
    requires var a := Attempt(cfg, s, views, k, env);
             a.server == s && PostProcess(a.status, s.ingresses[k].ing.generation) == s.ingresses[k].status
    ensures Step(cfg, s, views, k, env) == s
  {
    hide Attempt;
  }

  lemma ConcludeQuiet(cfg: Config, s: Server, ing: Ingress, status: Status, env: Environment)
    requires status == Status(IsTrue, IsTrue, IsTrue, ing.generation)
    ensures Conclude(cfg, s, 0, ing, MarkNetworkConfigured(status), false, env)
      == Outcome(s, 0, status, Finished, false)
  {
  }

  /** A settled ingress causes no call, whatever the environment would answer. */
  lemma SettledIsQuiet(cfg: Config, s: Server, views: Views, k: Key, env: Environment, ds: seq<HTTPProxy>)
    requires Calm(cfg, s, views, k, ds) && env.desired == ds && ds != [] && Settled(cfg, s, k, ds)
    ensures Attempt(cfg, s, views, k, env).calls == 0
    ensures Step(cfg, s, views, k, env) == s
  {
    var ing, status := s.ingresses[k].ing, s.ingresses[k].status;
    hide Program, Prepared, Exact, Unclaimed, ChildIngressName, CurrentProxies, ViewsSeen, IngressHistory,
         ServicesKnown, Kind, RunGate, Step, Conclude;
    ExactListed(cfg, s, views.proxies, ing, ds, ds[0]);
    ProgramIdle(cfg, s, views.proxies, ing, 0, env);
    RolledGate(cfg, s, views, ing, env);
    OpenKind(cfg, s, views, ing, status, env);
    ConcludeQuiet(cfg, s, ing, status, env);
    NothingWritten(cfg, s, views, k, env);
  }

  // ---- Progress --------------------------------------------------------------------

  /** Past an open gate, if no call fails, a reconcile programs the proxies and concludes. */
  lemma OpenGateRuns(cfg: Config, s: Server, views: Views, k: Key, env: Environment, ds: seq<HTTPProxy>)
    requires Calm(cfg, s, views, k, ds) && AllAccepted(env) && ServicesKnown(s.ingresses[k].ing, env.services)
    requires env.desired == ds
    requires RunGate(cfg, s, views, s.ingresses[k].ing, env).verdict.Open?
    ensures var ing, done := s.ingresses[k].ing, Program(s, views.proxies, s.ingresses[k].ing, 0, env);
            && done.ok && done.server.ingresses == s.ingresses
            && Attempt(cfg, s, views, k, env) == Conclude(cfg, done.server, done.calls, ing,
                 MarkNetworkConfigured(PreProcess(s.ingresses[k].status, ing.generation)), ChildKey(cfg,
                                                            k) in s.ingresses, env)
  {
    var ing := s.ingresses[k].ing;
    hide Program, Prepared, Unclaimed, ChildKey, ViewsSeen, IngressHistory, ServicesKnown, Kind, RunGate, Conclude,
         ObservedBounded, CurrentProxies, GateOpens, AllAccepted;
    OpenGate(cfg, s, views, ing, env);
    ProgramAccepted(cfg, s, views.proxies, ing, 0, env);
    OpenKind(cfg, s, views, ing, PreProcess(s.ingresses[k].status, ing.generation), env);
    ProgramKeepsIngresses(cfg, s, views.proxies, ing, env);
  }

  /** Once the gate is open, a cooperative reconcile settles everything. */
  lemma OpenGateSettles(cfg: Config, s: Server, views: Views, k: Key, env: Environment, ds: seq<HTTPProxy>)
    requires Calm(cfg, s, views, k, ds) && Cooperates(s.ingresses[k].ing, env, ds)
    requires RunGate(cfg, s, views, s.ingresses[k].ing, env).verdict.Open?
    ensures Settled(cfg, Step(cfg, s, views, k, env), k, ds)
    ensures Step(cfg, s, views, k, env).ingresses[k].ing == s.ingresses[k].ing
  {
    hide Program, Prepared, Exact, Unclaimed, ChildKey, ViewsSeen, IngressHistory, ServicesKnown, Attempt, RunGate,
         Conclude, Step, ObservedBounded, ChildCached, ProxyHistory;
    var ing := s.ingresses[k].ing;
    OpenGateRuns(cfg, s, views, k, env, ds);
    var done := Program(s, views.proxies, ing, 0, env);
    var configured := MarkNetworkConfigured(PreProcess(s.ingresses[k].status, ing.generation));
    ConcludeSettles(cfg, done.server, done.calls, ing, configured, ChildKey(cfg, k) in s.ingresses, env);
    FinishedIsExact(cfg, s, views, k, env);
    StatusArrives(cfg, s, views, k, env);
  }

  lemma ProgramKeepsIngresses(cfg: Config, s: Server, view: seq<HTTPProxy>, ing: Ingress, env: Environment)
    requires Prepared(cfg, s, view, ing, env.desired)
    ensures Program(s, view, ing, 0, env).server.ingresses == s.ingresses
  {
    PreparedHistory(cfg, s, view, ing, env.desired);
    PreparedOwn(cfg, s, view, ing, env.desired);
    hide Program, Prepared, ProxyHistory, ProxyFrame, Own;
    ProgramFrame(s, view, ing, 0, env);
  }

  lemma PreparedOwn(cfg: Config, s: Server, view: seq<HTTPProxy>, ing: Ingress, ds: seq<HTTPProxy>)
    requires Prepared(cfg, s, view, ing, ds)
    ensures forall d :: d in ds ==> Own(d, ing)
  {
    hide Tidy, Targets, Separate, CollisionFree, Synced, Canonical;
    assert forall d :: d in ds ==> Identified(cfg, ing, d);
  }

  lemma ConcludeSettles(cfg: Config, s: Server, calls: nat, ing: Ingress, configured: Status, haveProbe: bool,
                        env: Environment)
    requires AllAccepted(env) && env.probe == ProbeReady && configured.network == IsTrue
    requires haveProbe <==> ChildKey(cfg, IngressKey(ing)) in s.ingresses
    ensures var c := Conclude(cfg, s, calls, ing, configured, haveProbe, env);
            && c.ending == Finished && c.status == Status(IsTrue, IsTrue, IsTrue, ing.generation)
            && c.server.ingresses == s.ingresses - {ChildKey(cfg, IngressKey(ing))}
  {
    hide ChildKey;
  }

  /** The status write of a cooperative reconcile. */
  lemma StatusArrives(cfg: Config, s: Server, views: Views, k: Key, env: Environment)
    requires k in s.ingresses && IngressKey(s.ingresses[k].ing) == k && AllAccepted(env)
    requires var a := Attempt(cfg, s, views, k, env);
             k in a.server.ingresses && a.server.ingresses[k] == s.ingresses[k]
    ensures var a, t := Attempt(cfg, s, views, k, env), Step(cfg, s, views, k, env);
            && t.ingresses.Keys == a.server.ingresses.Keys
            && t.ingresses[k].ing == s.ingresses[k].ing
            && t.ingresses[k].status == PostProcess(a.status, s.ingresses[k].ing.generation)
            && (forall x :: x in t.ingresses && x != k ==> t.ingresses[x] == a.server.ingresses[x])
  {
    hide Attempt;
  }

  // ---- Rounds decrease the phase ---------------------------------------------------

  /** The closed gate brings the child up to date and touches nothing else. */
  lemma ClosedGateProgress(cfg: Config, s: Server, views: Views, k: Key, env: Environment, ds: seq<HTTPProxy>,
                           want: IngressSpec)
    requires Calm(cfg, s, views, k, ds) && Cooperates(s.ingresses[k].ing, env, ds)
    requires want == ChildSpec(cfg, s.ingresses[k].ing, OlderProxies(views.proxies, s.ingresses[k].ing))
    requires !RunGate(cfg, s, views, s.ingresses[k].ing, env).verdict.Open?
    ensures var t := Step(cfg, s, views, k, env);
            && k in t.ingresses && t.ingresses[k].ing == s.ingresses[k].ing
            && t.proxies == s.proxies && ChildHas(cfg, t, k, want)
    ensures CurrentProxies(views.proxies, s.ingresses[k].ing) == []
    ensures !(ChildHas(cfg, s, k, want) && ChildReady(cfg, s, k))
  {
    var ing := s.ingresses[k].ing;
    hide Kind, Prepared, Unclaimed, ChildKey, ViewsSeen, ServicesKnown, RunGate, Step, CurrentProxies, ChildSpec,
         IngressHistory;
    GateBringsChild(cfg, s, views, ing, env);
    ClosedKind(cfg, s, views, ing, PreProcess(s.ingresses[k].status, ing.generation), env);
    StatusArrives(cfg, s, views, k, env);
    StatusWriteKeepsProxies(cfg, s, views, k, env);
  }

  lemma ClosedKind(cfg: Config, s: Server, views: Views, ing: Ingress, status: Status, env: Environment)
    requires !RunGate(cfg, s, views, ing, env).verdict.Open?
    ensures Kind(cfg, s, views, ing, status, env).server == RunGate(cfg, s, views, ing, env).server
  {
    hide RunGate, Program, Conclude;
  }

  lemma GateBringsChild(cfg: Config, s: Server, views: Views, ing: Ingress, env: Environment)
    requires !IsEndpointProbe(ing) && IngressHistory(s) && AllAccepted(env)
    requires ChildCached(cfg, s, views, IngressKey(ing)) && ChildKey(cfg, IngressKey(ing)) != IngressKey(ing)
    requires !RunGate(cfg, s, views, ing, env).verdict.Open?
    ensures var t, k := RunGate(cfg, s, views, ing, env).server, IngressKey(ing);
            && t.proxies == s.proxies
            && ChildHas(cfg, t, k, ChildSpec(cfg, ing, OlderProxies(views.proxies, ing)))
            && (k in s.ingresses ==> k in t.ingresses && t.ingresses[k] == s.ingresses[k])
    ensures CurrentProxies(views.proxies, ing) == []
    ensures !(ChildHas(cfg, s, IngressKey(ing), ChildSpec(cfg, ing, OlderProxies(views.proxies, ing)))
              && ChildReady(cfg, s, IngressKey(ing)))
  {
    hide ChildSpec, ChildIngressName;
  }

  lemma HelpedSettled(cfg: Config, s: Server, t: Server, k: Key, ds: seq<HTTPProxy>)
    requires Settled(cfg, s, k, ds) && Helps(cfg, s, t, k) && forall d :: d in ds ==> Own(d, s.ingresses[k].ing)
    ensures Settled(cfg, t, k, ds)
  {
    hide ChildKey;
    var ing := s.ingresses[k].ing;
    forall x | x in t.proxies && OfParent(t.proxies[x], ing)
      ensures WantedAt(ds, x, t.proxies[x])
    {
      assert WantedAt(ds, x, s.proxies[x]);
    }
  }

  /** While nothing of the generation is rolled out, the older proxies keep the same wish. */
  lemma HelpedSteady(cfg: Config, s: Server, t: Server, ing: Ingress, want: IngressSpec)
    requires Steady(cfg, s, ing, want) && Reported(s, t, ing) && ProxyHistory(s) && ProxyHistory(t)
    requires !Rolled(s, IngressKey(ing), ing.generation)
    ensures Steady(cfg, t, ing, want) && !Rolled(t, IngressKey(ing), ing.generation)
  {
    hide ChildSpec, OlderProxies;
    forall view | Synced(t, view, ing)
      ensures Synced(s, view, ing)
    {
      forall p | OfParent(p, ing)
        ensures p in view <==> KeyOf(p) in s.proxies && s.proxies[KeyOf(p)] == p
      {
      }
    }
  }

  lemma RolledIsListed(cfg: Config, s: Server, view: seq<HTTPProxy>, ing: Ingress, ds: seq<HTTPProxy>)
    requires Prepared(cfg, s, view, ing, ds)
    ensures Rolled(s, IngressKey(ing), ing.generation) <==> CurrentProxies(view, ing) != []
  {
    hide Tidy, Targets, Separate, CollisionFree, Wanted;
    if x :| x in s.proxies && Labelled(s.proxies[x], IngressKey(ing), ing.generation) {
      var p := s.proxies[x];
      assert OfParent(p, ing) && KeyOf(p) == x;
      assert p in CurrentProxies(view, ing);
    }
    if CurrentProxies(view, ing) != [] {
      CurrentRolled(s, view, ing);
    }
  }

  /** A reconcile followed by the environment's help. */
  ghost predicate Round(cfg: Config, s: Server, views: Views, env: Environment, u: Server, k: Key, ds: seq<HTTPProxy>) {
    && Calm(cfg, s, views, k, ds) && Cooperates(s.ingresses[k].ing, env, ds)
    && k in Step(cfg, s, views, k, env).ingresses
    && Helps(cfg, Step(cfg, s, views, k, env), u, k) && ProxyHistory(u)
  }

  /** From an open gate, or from the settled state itself, a round ends settled. */
  lemma SettlingRound(cfg: Config, s: Server, views: Views, env: Environment, u: Server, k: Key, ds: seq<HTTPProxy>)
    requires Round(cfg, s, views, env, u, k, ds) && ds != []
    requires Settled(cfg, s, k, ds) || RunGate(cfg, s, views, s.ingresses[k].ing, env).verdict.Open?
    ensures Settled(cfg, u, k, ds) && u.ingresses[k].ing == s.ingresses[k].ing
  {
    var ing, t := s.ingresses[k].ing, Step(cfg, s, views, k, env);
    PreparedOwn(cfg, s, views.proxies, ing, ds);
    hide Step, RunGate, Exact, ChildKey, Prepared, ViewsSeen, IngressHistory, ChildCached, Unclaimed, Own, ProxyHistory,
         Reported, ObservedBounded;
    if Settled(cfg, s, k, ds) {
      SettledIsQuiet(cfg, s, views, k, env, ds);
    } else {
      OpenGateSettles(cfg, s, views, k, env, ds);
    }
    HelpedSettled(cfg, t, u, k, ds);
  }

  /** From a closed gate, a round ends with the right child, ready, and the gate still closed
      at its start: nothing was rolled out. */
  lemma WaitingRound(cfg: Config, s: Server, views: Views, env: Environment, u: Server, k: Key, ds: seq<HTTPProxy>,
                     want: IngressSpec)
    requires Round(cfg, s, views, env, u, k, ds) && Steady(cfg, s, s.ingresses[k].ing, want)
    requires !RunGate(cfg, s, views, s.ingresses[k].ing, env).verdict.Open?
    ensures k in u.ingresses && u.ingresses[k].ing == s.ingresses[k].ing
    ensures !Rolled(s, k, s.ingresses[k].ing.generation) && !(ChildHas(cfg, s, k, want) && ChildReady(cfg, s, k))
    ensures !Rolled(u, k, s.ingresses[k].ing.generation) && ChildHas(cfg, u, k, want) && ChildReady(cfg, u, k)
    ensures Steady(cfg, u, u.ingresses[k].ing, want)
  {
    var ing, t := s.ingresses[k].ing, Step(cfg, s, views, k, env);
    SteadyHere(cfg, s, views.proxies, ing, ds, want);
    RolledIsListed(cfg, s, views.proxies, ing, ds);
    hide Step, RunGate, ChildKey, Prepared, ViewsSeen, IngressHistory, ChildCached, Unclaimed, Steady, Rolled,
         ChildSpec, CurrentProxies, OlderProxies, ObservedBounded, ProxyHistory;
    ClosedGateProgress(cfg, s, views, k, env, ds, want);
    ReportedSame(s, t, u, ing);
    hide Reported;
    PreparedHistory(cfg, s, views.proxies, ing, ds);
    HelpedSteady(cfg, s, u, ing, want);
  }

  lemma ReportedSame(s: Server, t: Server, u: Server, ing: Ingress)
    requires Reported(t, u, ing) && t.proxies == s.proxies
    ensures Reported(s, u, ing)
  {
  }

  lemma SteadyHere(cfg: Config, s: Server, view: seq<HTTPProxy>, ing: Ingress, ds: seq<HTTPProxy>, want: IngressSpec)
    requires Steady(cfg, s, ing, want) && Prepared(cfg, s, view, ing, ds)
    ensures want == ChildSpec(cfg, ing, OlderProxies(view, ing))
  {
    hide ChildSpec, OlderProxies, Tidy, Targets, CollisionFree, Wanted, Synced, ProxyHistory, Separate;
  }

  /** A round from an unsettled state reaches a strictly smaller phase: from a closed gate to
      an open one, and from an open gate to the end. */
  lemma RoundProgress(cfg: Config, s: Server, views: Views, env: Environment, u: Server, k: Key, ds: seq<HTTPProxy>,
                      want: IngressSpec)
    requires Round(cfg, s, views, env, u, k, ds) && Steady(cfg, s, s.ingresses[k].ing, want) && ds != []
    ensures k in u.ingresses && u.ingresses[k].ing == s.ingresses[k].ing
    ensures Phase(cfg, s, k, ds, want) > 0 ==> Phase(cfg, u, k, ds, want) < Phase(cfg, s, k, ds, want)
    ensures Phase(cfg, s, k, ds, want) <= 2 ==> Phase(cfg, u, k, ds, want) == 0
    ensures Phase(cfg, u, k, ds, want) == 0
      || (Phase(cfg, u, k, ds, want) == 2 && Steady(cfg, u, u.ingresses[k].ing, want))
  {
    var ing := s.ingresses[k].ing;
    if Settled(cfg, s, k, ds) || RunGate(cfg, s, views, ing, env).verdict.Open? {
      SettlingRound(cfg, s, views, env, u, k, ds);
    } else {
      WaitingRound(cfg, s, views, env, u, k, ds, want);
    }
    hide Round, Steady, RunGate, Rolled, ChildHas, ChildReady, Exact, ChildKey;
  }

  ghost predicate Rounds(cfg: Config, ss: seq<Server>, views: seq<Views>, envs: seq<Environment>, k: Key,
                         ds: seq<HTTPProxy>) {
    && |ss| == |views| + 1 == |envs| + 1
    && forall i :: 0 <= i < |views| ==> Round(cfg, ss[i], views[i], envs[i], ss[i + 1], k, ds)
  }

  /** Bounded convergence: in every sequence of cooperative rounds, from whatever state the
      failures of the past have left, the ingress is settled after two rounds and from then on
      no reconcile makes any call. */
  lemma {:induction false} Converges(cfg: Config, ss: seq<Server>, views: seq<Views>, envs: seq<Environment>, k: Key,
                                     ds: seq<HTTPProxy>, want: IngressSpec, i: nat)
    requires Rounds(cfg, ss, views, envs, k, ds) && ds != [] && i < |ss|
    requires k in ss[0].ingresses && Steady(cfg, ss[0], ss[0].ingresses[k].ing, want)
    ensures k in ss[i].ingresses && ss[i].ingresses[k].ing == ss[0].ingresses[k].ing
    ensures Steady(cfg, ss[i], ss[i].ingresses[k].ing, want) || Settled(cfg, ss[i], k, ds)
    ensures i >= 1 ==> Phase(cfg, ss[i], k, ds, want) <= 2
    ensures i >= 2 ==> Settled(cfg, ss[i], k, ds)
    ensures 2 <= i < |views|
         ==> Attempt(cfg, ss[i], views[i], k, envs[i]).calls == 0 && Step(cfg, ss[i], views[i], k, envs[i]) == ss[i]
  {
    hide Calm, Attempt, Step, Steady, Rolled, Helps, ChildHas, ChildReady, Exact, ChildKey, Cooperates;
    if i > 0 {
      Converges(cfg, ss, views, envs, k, ds, want, i - 1);
      assert Round(cfg, ss[i - 1], views[i - 1], envs[i - 1], ss[i], k, ds);
      ConvergesStep(cfg, ss[i - 1], views[i - 1], envs[i - 1], ss[i], k, ds, want);
    }
    if 2 <= i < |views| {
      QuietRound(cfg, ss[i], views[i], envs[i], ss[i + 1], k, ds);
    }
  }

  lemma ConvergesStep(cfg: Config, s: Server, views: Views, env: Environment, u: Server, k: Key, ds: seq<HTTPProxy>,
                      want: IngressSpec)
    requires Round(cfg, s, views, env, u, k, ds) && ds != []
    requires Steady(cfg, s, s.ingresses[k].ing, want) || Settled(cfg, s, k, ds)
    ensures k in u.ingresses && u.ingresses[k].ing == s.ingresses[k].ing
    ensures Steady(cfg, u, u.ingresses[k].ing, want) || Settled(cfg, u, k, ds)
    ensures Phase(cfg, u, k, ds, want) <= 2
    ensures Phase(cfg, s, k, ds, want) <= 2 ==> Settled(cfg, u, k, ds)
  {
    if Settled(cfg, s, k, ds) {
      SettlingRound(cfg, s, views, env, u, k, ds);
    } else {
      RoundProgress(cfg, s, views, env, u, k, ds, want);
    }
    hide Round, Steady, Rolled, ChildHas, ChildReady, Exact, ChildKey;
  }

  lemma QuietRound(cfg: Config, s: Server, views: Views, env: Environment, u: Server, k: Key, ds: seq<HTTPProxy>)
    requires Round(cfg, s, views, env, u, k, ds) && ds != [] && Settled(cfg, s, k, ds)
    ensures Attempt(cfg, s, views, k, env).calls == 0 && Step(cfg, s, views, k, env) == s
  {
    hide Calm, Settled, Step, Helps, ProxyHistory, Attempt;
    SettledIsQuiet(cfg, s, views, k, env, ds);
  }

  // ---- Exactly when a reconcile is quiet -------------------------------------------

  /** A cooperative reconcile that does not find its child waiting leaves the server untouched
      if and only if everything is settled and the ingress wants at least one proxy. An ingress
      that wants none has its child created and deleted forever. */
  lemma QuietExactly(cfg: Config, s: Server, views: Views, k: Key, env: Environment, ds: seq<HTTPProxy>)
    requires Calm(cfg, s, views, k, ds) && Cooperates(s.ingresses[k].ing, env, ds)
    requires ChildKey(cfg, k) in s.ingresses ==> ChildReady(cfg, s, k)
    ensures Step(cfg, s, views, k, env) == s <==> ds != [] && Settled(cfg, s, k, ds)
  {
    var ing := s.ingresses[k].ing;
    hide Step, RunGate, Prepared, ViewsSeen, IngressHistory, Unclaimed, ChildSpec, CurrentProxies, OlderProxies,
         ObservedBounded, Exact, ChildKey;
    if RunGate(cfg, s, views, ing, env).verdict.Open? {
      OpenGateSettles(cfg, s, views, k, env, ds);
      OpenGate(cfg, s, views, ing, env);
      NoChildNoGate(cfg, views, ing);
      if Settled(cfg, s, k, ds) {
        ListedIsWanted(cfg, s, views.proxies, ing, ds);
      }
    } else {
      ClosedGateProgress(cfg, s, views, k, env, ds, ChildSpec(cfg, ing, OlderProxies(views.proxies, ing)));
    }
    if ds != [] && Settled(cfg, s, k, ds) {
      SettledIsQuiet(cfg, s, views, k, env, ds);
    }
  }

  lemma ListedIsWanted(cfg: Config, s: Server, view: seq<HTTPProxy>, ing: Ingress, ds: seq<HTTPProxy>)
    requires Prepared(cfg, s, view, ing, ds) && Exact(s, ing, ds) && CurrentProxies(view, ing) != []
    ensures ds != []
  {
    hide Tidy, Targets, Separate, CollisionFree, Wanted, Holds;
    var q := CurrentProxies(view, ing)[0];
    assert q in CurrentProxies(view, ing) && q in view && OfParent(q, ing);
    assert WantedAt(ds, KeyOf(q), q);
  }

  // ---- An ingress that wants nothing -----------------------------------------------

  /** With no proxy wanted, two cooperative rounds from a settled state create the child and
      delete it again, and end in the same settled state: this goes on forever. */
  lemma EmptyOscillates(cfg: Config, s: Server, views: Views, env: Environment, t: Server, views': Views,
                        env': Environment, u: Server, k: Key)
    requires Round(cfg, s, views, env, t, k, []) && Round(cfg, t, views', env', u, k, []) && Settled(cfg, s, k, [])
    ensures ChildReady(cfg, t, k) && !Settled(cfg, t, k, [])
    ensures Settled(cfg, u, k, []) && u.ingresses[k].ing == s.ingresses[k].ing
    ensures u.ingresses[k].status == s.ingresses[k].status
  {
    var ing := s.ingresses[k].ing;
    EmptySteady(cfg, s, ing);
    EmptyClosed(cfg, s, views, k, env);
    var want := ChildSpec(cfg, ing, []);
    hide Round, Steady, ChildSpec, RunGate, Rolled, ChildKey, Exact;
    WaitingRound(cfg, s, views, env, t, k, [], want);
    if RunGate(cfg, t, views', t.ingresses[k].ing, env').verdict.Open? {
      OpenRound(cfg, t, views', env', u, k);
    } else {
      WaitingRound(cfg, t, views', env', u, k, [], want);
    }
  }

  lemma OpenRound(cfg: Config, s: Server, views: Views, env: Environment, u: Server, k: Key)
    requires Round(cfg, s, views, env, u, k, []) && RunGate(cfg, s, views, s.ingresses[k].ing, env).verdict.Open?
    ensures Settled(cfg, u, k, []) && u.ingresses[k].ing == s.ingresses[k].ing
  {
    hide Step, RunGate, Exact, ChildKey, Prepared, ViewsSeen, IngressHistory, ChildCached, Unclaimed, ProxyHistory,
         Reported, ObservedBounded;
    OpenGateSettles(cfg, s, views, k, env, []);
    HelpedSettled(cfg, Step(cfg, s, views, k, env), u, k, []);
  }

  lemma EmptySteady(cfg: Config, s: Server, ing: Ingress)
    requires Exact(s, ing, [])
    ensures Steady(cfg, s, ing, ChildSpec(cfg, ing, []))
  {
    hide ChildSpec, Holds;
    forall view | Synced(s, view, ing)
      ensures OlderProxies(view, ing) == []
    {
      EmptyView(s, view, ing);
    }
  }

  lemma EmptyView(s: Server, view: seq<HTTPProxy>, ing: Ingress)
    requires Exact(s, ing, []) && Synced(s, view, ing)
    ensures OlderProxies(view, ing) == [] && CurrentProxies(view, ing) == []
  {
    hide Holds;
    assert forall p :: OfParent(p, ing) ==> p !in view;
  }

  lemma EmptyClosed(cfg: Config, s: Server, views: Views, k: Key, env: Environment)
    requires Calm(cfg, s, views, k, []) && Settled(cfg, s, k, [])
    ensures !RunGate(cfg, s, views, s.ingresses[k].ing, env).verdict.Open?
  {
    var ing := s.ingresses[k].ing;
    EmptyView(s, views.proxies, ing);
    hide RunGate, Prepared, Exact, ViewsSeen, IngressHistory, ObservedBounded, ChildKey, GateOpens, Unclaimed,
         CurrentProxies;
    NoChildNoGate(cfg, views, ing);
    if RunGate(cfg, s, views, ing, env).verdict.Open? {
      OpenGate(cfg, s, views, ing, env);
    }
  }

  // ---- Why wanted targets must differ ----------------------------------------------

  lemma {:induction false} FilterSame<T(!new)>(xs: seq<T>, f: T -> bool, g: T -> bool)
    requires forall x :: f(x) == g(x)
    ensures Filter(xs, f) == Filter(xs, g)
  {
    if xs != [] {
      FilterSame(xs[1..], f, g);
    }
  }

  /** A rollout without calls found every wanted proxy in place. */
  lemma {:induction false} IdleMeansHeld(s: Server, view: seq<HTTPProxy>, ds: seq<HTTPProxy>, calls: nat,
                                         env: Environment, d: HTTPProxy)
    requires ApplyAll(s, view, ds, calls, env).calls == calls && d in ds
    ensures Matches(view, d) != [] && Refreshed(Matches(view, d)[0], d) == Matches(view, d)[0]
    decreases |ds|
  {
    hide Matches, Send, CreateProxy, UpdateProxy;
    var one := ApplyOne(s, view, ds[0], calls, env);
    ApplyAllCalls(one.server, view, ds[1..], one.calls, env);
    if d != ds[0] {
      IdleMeansHeld(s, view, ds[1..], calls, env, d);
    }
  }

  /** Every wanted proxy is listed with the wanted content. */
  ghost predicate InPlace(view: seq<HTTPProxy>, ds: seq<HTTPProxy>) {
    forall d :: d in ds ==> Matches(view, d) != [] && Refreshed(Matches(view, d)[0], d) == Matches(view, d)[0]
  }

  lemma {:induction false} InPlaceIdle(s: Server, view: seq<HTTPProxy>, ds: seq<HTTPProxy>, calls: nat,
                                       env: Environment)
    requires InPlace(view, ds)
    ensures ApplyAll(s, view, ds, calls, env) == Progress(s, calls, true)
    decreases |ds|
  {
    if ds != [] {
      hide Matches, Send, CreateProxy, UpdateProxy;
      assert ds[0] in ds;
      InPlaceIdle(s, view, ds[1..], calls, env);
    }
  }

  /** A rollout makes no call exactly when everything wanted is listed and nothing older is. */
  lemma RestsExactly(s: Server, view: seq<HTTPProxy>, ing: Ingress, calls: nat, env: Environment)
    ensures Program(s, view, ing, calls, env).calls == calls
       <==> InPlace(view, env.desired) && OlderProxies(view, ing) == []
  {
    hide Matches, OlderProxies, Leftovers, ApplyAll, InPlace;
    ApplyAllCalls(s, view, env.desired, calls, env);
    if InPlace(view, env.desired) {
      InPlaceIdle(s, view, env.desired, calls, env);
    } else if ApplyAll(s, view, env.desired, calls, env).calls == calls {
      IdleInPlace(s, view, env.desired, calls, env);
    }
  }

  lemma IdleInPlace(s: Server, view: seq<HTTPProxy>, ds: seq<HTTPProxy>, calls: nat, env: Environment)
    requires ApplyAll(s, view, ds, calls, env).calls == calls
    ensures InPlace(view, ds)
  {
    hide Matches, ApplyAll;
    forall d | d in ds
      ensures Matches(view, d) != [] && Refreshed(Matches(view, d)[0], d) == Matches(view, d)[0]
    {
      IdleMeansHeld(s, view, ds, calls, env, d);
    }
  }

  /** Wanted proxies with the same (host, class) want the same content. */
  ghost predicate Consistent(ds: seq<HTTPProxy>) {
    forall d, e :: d in ds && e in ds && SameTarget(d, e) ==> Refreshed(d, e) == d
  }

  /** A wanted list, with or without repeated targets, can come to rest if and only if proxies
      wanted for the same target are wanted with the same content. */
  lemma RestPossible(ing: Ingress, env: Environment)
    requires forall d :: d in env.desired ==> Own(d, ing)
    ensures (exists s: Server, view :: Program(s, view, ing, 0, env).calls == 0) <==> Consistent(env.desired)
  {
    var ds := env.desired;
    hide Program;
    if Consistent(ds) {
      var s := Server(map[], {}, map[], {}, 0);
      RestsExactly(s, ds, ing, 0, env);
      forall d | d in ds
        ensures Matches(ds, d) != [] && Refreshed(Matches(ds, d)[0], d) == Matches(ds, d)[0]
      {
        assert d in Matches(ds, d);
        assert Matches(ds, d)[0] in Matches(ds, d);
      }
      assert Program(s, ds, ing, 0, env).calls == 0;
    }
    if s: Server, view :| Program(s, view, ing, 0, env).calls == 0 {
      RestsExactly(s, view, ing, 0, env);
      InPlaceConsistent(view, ds);
    }
  }

  lemma InPlaceConsistent(view: seq<HTTPProxy>, ds: seq<HTTPProxy>)
    requires InPlace(view, ds)
    ensures Consistent(ds)
  {
    forall d, e | d in ds && e in ds && SameTarget(d, e)
      ensures Refreshed(d, e) == d
    {
      FilterSame(view, p => SameTarget(p, d), p => SameTarget(p, e));
      assert Matches(view, d) == Matches(view, e);
      var m := Matches(view, d)[0];
      assert Refreshed(m, d) == m && Refreshed(m, e) == m;
    }
  }

  /** An ingress that wants two different specs for one (host, class) is never at rest: from
      every state, with every cache, its rollout makes a call. */
  lemma ConflictNeverRests(s: Server, view: seq<HTTPProxy>, calls: nat, env: Environment, ing: Ingress, d: HTTPProxy,
                           e: HTTPProxy)
    requires d in env.desired && e in env.desired && SameTarget(d, e) && d.spec != e.spec
    ensures Program(s, view, ing, calls, env).calls > calls
  {
    FilterSame(view, p => SameTarget(p, d), p => SameTarget(p, e));
    assert Matches(view, d) == Matches(view, e);
    hide Matches, OlderProxies, Leftovers, ApplyAll;
    ApplyAllCalls(s, view, env.desired, calls, env);
    if ApplyAll(s, view, env.desired, calls, env).calls == calls {
      IdleMeansHeld(s, view, env.desired, calls, env, d);
      IdleMeansHeld(s, view, env.desired, calls, env, e);
    }
  }

  // ---- The child's own reconcile ---------------------------------------------------

  /** The environment's help is at hand: a reconcile of the child itself that ends well, with
      a confirming prober and an accepted status write, is such a help. */
  lemma ChildHelps(cfg: Config, tops: set<Key>, w: World, k: Key, env: Environment)
    requires WellNamed(cfg, tops) && Inv(cfg, tops, w) && k in tops && k in w.server.ingresses
    requires Possible(cfg, tops, w, Reconciles(ChildKey(cfg, k), env)) && env.probe == ProbeReady
    requires var a := Attempt(cfg, w.server, w.views, ChildKey(cfg, k), env);
             a.ending == Finished && env.reply(a.calls) == Accept
    ensures Helps(cfg, w.server, Step(cfg, w.server, w.views, ChildKey(cfg, k), env), k)
  {
    var s, ck := w.server, ChildKey(cfg, k);
    var t := Step(cfg, s, w.views, ck, env);
    TouchedChild(cfg, tops, s, w.views, ck);
    StoredWasSeen(s, ck);
    StoredWasSeen(s, k);
    hide Step, Attempt, Tidy, AllShaped, Faithful, History, ProxyFrame, IngressFrame, NewChild, Touched, ChildKey;
    StepFrame(cfg, s, w.views, ck, env);
    StepAdds(cfg, s, w.views, ck, env);
    ChildFinished(cfg, s, w.views, ck, env);
    FrameReports(s, t, s.ingresses[ck].ing, s.ingresses[k].ing);
    FrameKeeps(s, t, Touched(cfg, s.ingresses[ck].ing) + {ck}, k);
  }

  lemma ChildFinished(cfg: Config, s: Server, views: Views, ck: Key, env: Environment)
    requires ck in s.ingresses && env.probe == ProbeReady && Attempt(cfg, s, views, ck, env).ending == Finished
    ensures IsReady(PostProcess(Attempt(cfg, s, views, ck, env).status, s.ingresses[ck].ing.generation),
                    s.ingresses[ck].ing.generation)
  {
    var o := s.ingresses[ck];
    KindStatus(cfg, s, views, o.ing, PreProcess(o.status, o.ing.generation), env);
    hide Kind;
  }

  lemma FrameReports(s: Server, t: Server, other: Ingress, ing: Ingress)
    requires ProxyFrame(s, t, other) && IngressKey(other) != IngressKey(ing)
    ensures Reported(s, t, ing)
  {
    hide ProxyHistory;
  }

  // ---- Rounds and runs -------------------------------------------------------------

  /** Rounds can begin at every point of every run: once the caches are in sync, the wanted
      names free and the wanted targets distinct, the ingress is calm. */
  lemma CalmInRuns(cfg: Config, tops: set<Key>, w: World, k: Key, env: Environment)
    requires WellNamed(cfg, tops) && Inv(cfg, tops, w) && Possible(cfg, tops, w, Reconciles(k, env)) && k in tops
    requires Fresh(cfg, w, Reconciles(k, env), k) && ChildCached(cfg, w.server, w.views, k)
    requires Unclaimed(w.server, env.desired)
    ensures Calm(cfg, w.server, w.views, k, env.desired)
  {
    TouchedChild(cfg, tops, w.server, w.views, k);
    StoredWasSeen(w.server, k);
    hide Faithful, Prepared, Unclaimed, ChildCached, ChildKey, IngressHistory, ProxyHistory, AllTidy, AllShaped;
    PreparedHere(cfg, tops, w, k, env);
  }

  /** In particular at the start: an ingress alone on the server, with any wanted list that the
      compiler may return for distinct targets, is calm, and its world begins a run. */
  lemma StartIsCalm(cfg: Config, k: Key, ing: Ingress, env: Environment) returns (w: World)
    requires CollisionFree(cfg) && ChildKey(cfg, k) != k && IngressKey(ing) == k && !IsEndpointProbe(ing)
    requires Faithful(cfg, ing, env) && Separate(Targets(cfg, ing))
    ensures WellNamed(cfg, {k}) && Init(cfg, {k}, w)
    ensures k in w.server.ingresses && w.server.ingresses[k] == IngressObject(ing, INITIAL_STATUS, 0)
    ensures Calm(cfg, w.server, w.views, k, env.desired)
  {
    var o := IngressObject(ing, INITIAL_STATUS, 0);
    w := World(Server(map[], {}, map[k := o], {o}, 1), Views([], map[k := o]));
    StartBeginsRun(cfg, k, o, w);
    hide Faithful, CollisionFree, TopNames, ChildKey, Separate, Targets, Calm, Inv, Init, Synced;
    InitInv(cfg, {k}, w);
    CalmInRuns(cfg, {k}, w, k, env);
  }

  lemma StartBeginsRun(cfg: Config, k: Key, o: IngressObject, w: World)
    requires CollisionFree(cfg) && ChildKey(cfg, k) != k && IngressKey(o.ing) == k && !IsEndpointProbe(o.ing)
    requires o.status == INITIAL_STATUS && o.resourceVersion == 0
    requires w == World(Server(map[], {}, map[k := o], {o}, 1), Views([], map[k := o]))
    ensures WellNamed(cfg, {k}) && Init(cfg, {k}, w) && Synced(w.server, [], o.ing)
  {
    hide CollisionFree, ChildKey;
  }

  /** A round keeps the wanted names free. */
  lemma NamesStayFree(cfg: Config, s: Server, views: Views, k: Key, env: Environment)
    requires Calm(cfg, s, views, k, env.desired)
    ensures Unclaimed(Step(cfg, s, views, k, env), env.desired)
  {
    var ing, ds, t := s.ingresses[k].ing, env.desired, Step(cfg, s, views, k, env);
    hide Kind, RunGate, Prepared, Step, ChildKey, IngressHistory, ViewsSeen, ObservedBounded, SameTarget, Holds,
         Program;
    StatusWriteKeepsProxies(cfg, s, views, k, env);
    KindProxies(cfg, s, views, ing, PreProcess(s.ingresses[k].status, ing.generation), env);
    var gate := RunGate(cfg, s, views, ing, env);
    PreparedSame(cfg, s, gate.server, views.proxies, ing, ds);
    ProgramWritesWanted(cfg, gate.server, views.proxies, ing, gate.calls, env);
    var done := Program(gate.server, views.proxies, ing, gate.calls, env).server;
    forall d | d in ds && KeyOf(d) in done.proxies
      ensures SameTarget(done.proxies[KeyOf(d)], d)
    {
      if WantedAt(ds, KeyOf(d), done.proxies[KeyOf(d)]) {
        SameKeySameProxy(ds, d, KeyOf(d), done.proxies[KeyOf(d)]);
        HeldIsTarget(done.proxies[KeyOf(d)], d);
      }
    }
  }

  lemma ProgramWritesWanted(cfg: Config, s: Server, view: seq<HTTPProxy>, ing: Ingress, calls: nat, env: Environment)
    requires Prepared(cfg, s, view, ing, env.desired)
    ensures DistinctKeys(env.desired)
    ensures var t := Program(s, view, ing, calls, env).server;
            forall x :: x in t.proxies
                        ==> (x in s.proxies && t.proxies[x] == s.proxies[x]) || WantedAt(env.desired, x, t.proxies[x])
  {
    WantedDistinct(cfg, s, view, ing, env.desired);
    hide Prepared, ApplyAll, Sweep, WantedAt, AllHeld, Own, DistinctKeys, KeyOf;
    PreparedApply(cfg, s, view, ing, calls, env);
    var applied := ApplyAll(s, view, env.desired, calls, env);
    SweepRemoves(applied.server, view, ing, applied.calls, env);
  }

  lemma WantedDistinct(cfg: Config, s: Server, view: seq<HTTPProxy>, ing: Ingress, ds: seq<HTTPProxy>)
    requires Prepared(cfg, s, view, ing, ds)
    ensures DistinctKeys(ds)
  {
    hide DistinctKeys, Targets, Tidy, Synced, ProxyHistory, CollisionFree, Separate, Wanted;
    WantedKeys(cfg, ing, ds);
  }

  lemma SweepRemoves(s: Server, view: seq<HTTPProxy>, ing: Ingress, calls: nat, env: Environment)
    ensures var t := Sweep(s, view, ing, calls, env).server;
            forall x :: x in t.proxies ==> x in s.proxies && t.proxies[x] == s.proxies[x]
  {
    hide OlderProxies, Leftovers;
  }
}
