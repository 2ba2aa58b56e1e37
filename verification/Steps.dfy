/** Properties of one whole reconcile, status write included. */
module Steps {
  import opened Model
  import opened EndpointProbe
  import opened Outputs
  import opened Conditions
  import opened Cluster
  import opened Reconcile
  import opened Framing
  import opened Rollout

  // ---- The gate --------------------------------------------------------------------

  /** The child, as cached, is ready and has the spec that this generation wants next to the
      older proxies in the cache. */
  ghost predicate GateOpens(cfg: Config, views: Views, ing: Ingress) {
    var k := ChildKey(cfg, IngressKey(ing));
    && k in views.ingresses
    && views.ingresses[k].ing.spec == ChildSpec(cfg, ing, OlderProxies(views.proxies, ing))
    && IsReady(views.ingresses[k].status, views.ingresses[k].ing.generation)
  }

  /** No stored ingress claims to have observed a generation it has not reached. */
  ghost predicate ObservedBounded(s: Server) {
    forall o :: o in s.seenIngresses ==> o.status.observed <= o.ing.generation
  }

  /** A child that was just created or updated is never taken for ready. */
  lemma OpenGate(cfg: Config, s: Server, views: Views, ing: Ingress, env: Environment)
    requires IngressHistory(s) && ViewsSeen(s, views) && ObservedBounded(s)
    requires RunGate(cfg, s, views, ing, env).verdict.Open?
    ensures RunGate(cfg, s, views, ing, env).server == s && RunGate(cfg, s, views, ing, env).calls == 0
    ensures IsEndpointProbe(ing) || CurrentProxies(views.proxies, ing) != [] || GateOpens(cfg, views, ing)
    ensures !IsEndpointProbe(ing) ==>
              (RunGate(cfg, s, views, ing, env).verdict.haveProbe
               <==> ChildKey(cfg, IngressKey(ing)) in views.ingresses)
  {
    hide ChildSpec, ChildIngressName;
  }

  /** While the gate is closed, a reconcile leaves every proxy as it is. */
  lemma ClosedGate(cfg: Config, s: Server, views: Views, k: Key, env: Environment)
    requires IngressHistory(s) && ViewsSeen(s, views) && ObservedBounded(s) && k in s.ingresses
    requires !IsEndpointProbe(s.ingresses[k].ing)
    requires CurrentProxies(views.proxies, s.ingresses[k].ing) == [] && !GateOpens(cfg, views, s.ingresses[k].ing)
    ensures SameProxies(s, Step(cfg, s, views, k, env))
    ensures Attempt(cfg, s, views, k, env).ending != Finished
  {
    var ing := s.ingresses[k].ing;
    hide GateOpens, RunGate, Program, Conclude, IngressFrame;
    GateFrame(cfg, s, views, ing, env);
    if RunGate(cfg, s, views, ing, env).verdict.Open? {
      OpenGate(cfg, s, views, ing, env);
    }
    StatusWriteKeepsProxies(cfg, s, views, k, env);
  }

  lemma StatusWriteKeepsProxies(cfg: Config, s: Server, views: Views, k: Key, env: Environment)
    requires k in s.ingresses
    ensures SameProxies(Attempt(cfg, s, views, k, env).server, Step(cfg, s, views, k, env))
  {
    hide Attempt;
  }

  // ---- Exactness, no gap -----------------------------------------------------------

  lemma PreparedSame(cfg: Config, s: Server, t: Server, view: seq<HTTPProxy>, ing: Ingress, ds: seq<HTTPProxy>)
    requires Prepared(cfg, s, view, ing, ds) && SameProxies(s, t)
    ensures Prepared(cfg, t, view, ing, ds)
  {
    hide Targets, CollisionFree, Separate, Wanted;
  }

  /** What `Kind` does after an open gate, as far as the proxies are concerned. */
  lemma KindProxies(cfg: Config, s: Server, views: Views, ing: Ingress, status: Status, env: Environment)
    requires IngressHistory(s) && ViewsSeen(s, views)
    ensures var gate, o := RunGate(cfg, s, views, ing, env), Kind(cfg, s, views, ing, status, env);
            SameProxies(s, gate.server)
            && if gate.verdict.Open? && ServicesKnown(ing, env.services) then
                 var done := Program(gate.server, views.proxies, ing, gate.calls, env);
                 done.server.proxies == o.server.proxies && done.server.seen == o.server.seen
                   && (o.ending == Finished ==> done.ok)
                 && (!done.ok ==> o == Outcome(done.server, done.calls, status, Failed, false))
               else
                 o.server == gate.server && o.ending != Finished
  {
    hide RunGate, Program, IngressFrame, IngressHistory, ViewsSeen, Conclude, ServicesKnown;
    GateFrame(cfg, s, views, ing, env);
    var gate := RunGate(cfg, s, views, ing, env);
    if gate.verdict.Open? {
      var done := Program(gate.server, views.proxies, ing, gate.calls, env);
      ConcludeProxies(cfg, done.server, done.calls, ing, MarkNetworkConfigured(status), gate.verdict.haveProbe, env);
    }
  }

  lemma ConcludeProxies(cfg: Config, s: Server, calls: nat, ing: Ingress, configured: Status, haveProbe: bool,
                        env: Environment)
    ensures var t := Conclude(cfg, s, calls, ing, configured, haveProbe, env).server;
            t.proxies == s.proxies && t.seen == s.seen
  {
  }

  /** Exactness of a reconcile that returns without error past the gate. */
  lemma FinishedIsExact(cfg: Config, s: Server, views: Views, k: Key, env: Environment)
    requires k in s.ingresses && IngressHistory(s) && ViewsSeen(s, views)
    requires Prepared(cfg, s, views.proxies, s.ingresses[k].ing, env.desired)
    requires Attempt(cfg, s, views, k, env).ending == Finished
    ensures Exact(Step(cfg, s, views, k, env), s.ingresses[k].ing, env.desired)
  {
    var ing := s.ingresses[k].ing;
    hide Kind, Program, RunGate, Prepared, Exact;
    KindProxies(cfg, s, views, ing, PreProcess(s.ingresses[k].status, ing.generation), env);
    var gate := RunGate(cfg, s, views, ing, env);
    PreparedSame(cfg, s, gate.server, views.proxies, ing, env.desired);
    ProgramExact(cfg, gate.server, views.proxies, ing, gate.calls, env);
    var done := Program(gate.server, views.proxies, ing, gate.calls, env);
    ExactProxies(done.server, Step(cfg, s, views, k, env), ing, env.desired);
  }

  lemma ExactProxies(s: Server, t: Server, ing: Ingress, ds: seq<HTTPProxy>)
    requires Exact(s, ing, ds) && s.proxies == t.proxies
    ensures Exact(t, ing, ds)
  {
  }

  /** No gap during a whole reconcile, whatever fails. */
  lemma NoGap(cfg: Config, s: Server, views: Views, k: Key, env: Environment, d: HTTPProxy, x: Key)
    requires k in s.ingresses && IngressHistory(s) && ViewsSeen(s, views)
    requires Prepared(cfg, s, views.proxies, s.ingresses[k].ing, env.desired)
    requires d in env.desired && x in s.proxies && SameTarget(s.proxies[x], d)
    ensures var t := Step(cfg, s, views, k, env);
            x in t.proxies && SameTarget(t.proxies[x], d)
  {
    var ing := s.ingresses[k].ing;
    hide Kind, Program, RunGate, Prepared, Step, SameTarget, IngressHistory, ViewsSeen;
    StatusWriteKeepsProxies(cfg, s, views, k, env);
    KindProxies(cfg, s, views, ing, PreProcess(s.ingresses[k].status, ing.generation), env);
    var gate := RunGate(cfg, s, views, ing, env);
    PreparedSame(cfg, s, gate.server, views.proxies, ing, env.desired);
    ProgramNoGap(cfg, gate.server, views.proxies, ing, gate.calls, env, d, x);
  }

  // ---- The child -------------------------------------------------------------------

  /** If a reconcile removes the child, it has programmed the proxies and reached readiness at
      its generation, whatever its caches showed. */
  lemma ChildRemovedReady(cfg: Config, s: Server, views: Views, k: Key, env: Environment)
    requires k in s.ingresses && ProxyHistory(s) && IngressHistory(s) && ViewsSeen(s, views)
    requires ChildKey(cfg, k) in s.ingresses && ChildKey(cfg, k) !in Step(cfg, s, views, k, env).ingresses
    requires IngressKey(s.ingresses[k].ing) == k && (forall d :: d in env.desired ==> Own(d, s.ingresses[k].ing))
    ensures IsReady(Attempt(cfg, s, views, k, env).status, s.ingresses[k].ing.generation)
    ensures var gate := RunGate(cfg, s, views, s.ingresses[k].ing, env);
            var done := Program(gate.server, views.proxies, s.ingresses[k].ing, gate.calls, env);
            SameProxies(s, gate.server) && done.ok && Step(cfg, s, views, k, env).proxies == done.server.proxies
  {
    hide Kind, RunGate, Program, Own, IngressHistory, ChildIngressName, Step, ProxyFrame;
    var ing := s.ingresses[k].ing;
    var status := PreProcess(s.ingresses[k].status, ing.generation);
    GateKeepsChild(cfg, s, views, ing, env);
    KindProxies(cfg, s, views, ing, status, env);
    var gate := RunGate(cfg, s, views, ing, env);
    ProgramFrame(gate.server, views.proxies, ing, gate.calls, env);
    StatusWriteKeepsIngresses(cfg, s, views, k, env);
    KindChildRemoved(cfg, s, views, ing, status, env);
    StatusWriteKeepsProxies(cfg, s, views, k, env);
  }

  /** With a synced cache it has also made the proxies exact. */
  lemma ChildRemoved(cfg: Config, s: Server, views: Views, k: Key, env: Environment)
    requires k in s.ingresses && IngressHistory(s) && ViewsSeen(s, views)
    requires Prepared(cfg, s, views.proxies, s.ingresses[k].ing, env.desired)
    requires ChildKey(cfg, k) in s.ingresses && ChildKey(cfg, k) !in Step(cfg, s, views, k, env).ingresses
    requires IngressKey(s.ingresses[k].ing) == k && (forall d :: d in env.desired ==> Own(d, s.ingresses[k].ing))
    ensures Exact(Step(cfg, s, views, k, env), s.ingresses[k].ing, env.desired)
    ensures IsReady(Attempt(cfg, s, views, k, env).status, s.ingresses[k].ing.generation)
  {
    var ing := s.ingresses[k].ing;
    hide Attempt, Step, RunGate, Program, Prepared, Exact, Own, IngressHistory, ViewsSeen, ChildIngressName,
         ProxyHistory;
    PreparedHistory(cfg, s, views.proxies, ing, env.desired);
    ChildRemovedReady(cfg, s, views, k, env);
    var gate := RunGate(cfg, s, views, ing, env);
    PreparedSame(cfg, s, gate.server, views.proxies, ing, env.desired);
    ProgramExact(cfg, gate.server, views.proxies, ing, gate.calls, env);
    ExactProxies(Program(gate.server, views.proxies, ing, gate.calls, env).server, Step(cfg, s, views, k, env), ing,
                 env.desired);
  }

  lemma GateKeepsChild(cfg: Config, s: Server, views: Views, ing: Ingress, env: Environment)
    requires ChildKey(cfg, IngressKey(ing)) in s.ingresses
    ensures ChildKey(cfg, IngressKey(ing)) in RunGate(cfg, s, views, ing, env).server.ingresses
  {
    hide ChildSpec, ChildIngressName;
  }

  lemma StatusWriteKeepsIngresses(cfg: Config, s: Server, views: Views, k: Key, env: Environment)
    requires k in s.ingresses
    ensures Attempt(cfg, s, views, k, env).server.ingresses.Keys <= Step(cfg, s, views, k, env).ingresses.Keys
  {
    hide Attempt;
  }

  /** The only place that removes the child: after programming, when ready. */
  lemma KindChildRemoved(cfg: Config, s: Server, views: Views, ing: Ingress, status: Status, env: Environment)
    requires var gate := RunGate(cfg, s, views, ing, env);
             var ck := ChildKey(cfg, IngressKey(ing));
             && ck in gate.server.ingresses
             && ck in Program(gate.server, views.proxies, ing, gate.calls, env).server.ingresses
             && ck !in Kind(cfg, s, views, ing, status, env).server.ingresses
    ensures var gate := RunGate(cfg, s, views, ing, env);
            && gate.verdict.Open? && ServicesKnown(ing, env.services)
            && Program(gate.server, views.proxies, ing, gate.calls, env).ok
    ensures IsReady(Kind(cfg, s, views, ing, status, env).status, ing.generation)
  {
    hide RunGate, Program, ChildIngressName;
  }

  lemma PreparedHistory(cfg: Config, s: Server, view: seq<HTTPProxy>, ing: Ingress, ds: seq<HTTPProxy>)
    requires Prepared(cfg, s, view, ing, ds)
    ensures ProxyHistory(s) && (forall p :: p in view ==> p in s.seen)
  {
  }
}
