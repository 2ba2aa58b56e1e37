/** What a reconcile may touch, however stale its caches and whichever calls fail: only its
    own proxies, and none that is already at the current generation is ever lost. */
module Framing {
  import opened Model
  import opened Compiler
  import opened EndpointProbe
  import opened Outputs
  import opened Conditions
  import opened Cluster
  import opened Reconcile

  // ---- History ---------------------------------------------------------------------

  /** Stored proxies are filed under their own key and have been seen; a resource version
      identifies one state of one object. */
  ghost predicate ProxyHistory(s: Server) {
    && (forall k :: k in s.proxies ==> KeyOf(s.proxies[k]) == k && s.proxies[k] in s.seen)
    && (forall p :: p in s.seen ==> p.resourceVersion < s.revision)
    && (forall p, q :: p in s.seen && q in s.seen && p.resourceVersion == q.resourceVersion ==> p == q)
  }

  ghost predicate IngressHistory(s: Server) {
    && (forall k :: k in s.ingresses ==> IngressKey(s.ingresses[k].ing) == k && s.ingresses[k] in s.seenIngresses)
    && (forall o :: o in s.seenIngresses ==> o.resourceVersion < s.revision)
    && (forall o, q :: o in s.seenIngresses && q in s.seenIngresses && o.resourceVersion == q.resourceVersion
                       ==> o == q)
  }

  /** The caches hold objects that were on the server at some time, in any combination. */
  ghost predicate ViewsSeen(s: Server, views: Views) {
    && (forall p :: p in views.proxies ==> p in s.seen)
    && (forall k :: k in views.ingresses
                    ==> views.ingresses[k] in s.seenIngresses && IngressKey(views.ingresses[k].ing) == k)
  }

  // ---- Proxies ---------------------------------------------------------------------

  /** A proxy of the ingress, labelled with its current generation. */
  ghost predicate Own(p: HTTPProxy, ing: Ingress) {
    OfParent(p, ing) && AtGeneration(p, ing)
  }

  /** The effect of a reconcile of `ing` on the proxies, whatever happened:
      new objects are its own at its generation; objects of other parents or namespaces are
      untouched; its objects at the current generation survive, at that generation. */
  ghost predicate ProxyFrame(s: Server, t: Server, ing: Ingress) {
    && ProxyHistory(t)
    && s.revision <= t.revision
    && s.seen <= t.seen
    && (forall p :: p in t.seen && p !in s.seen ==> Own(p, ing))
    && (forall k :: k in t.proxies ==> (k in s.proxies && t.proxies[k] == s.proxies[k]) || Own(t.proxies[k], ing))
    && (forall k :: k in s.proxies && !OfParent(s.proxies[k], ing) ==> k in t.proxies && t.proxies[k] == s.proxies[k])
    && (forall k :: k in s.proxies && Own(s.proxies[k], ing) ==> k in t.proxies && Own(t.proxies[k], ing))
  }

  lemma ProxyFrameTransitive(s: Server, t: Server, u: Server, ing: Ingress)
    requires ProxyFrame(s, t, ing) && ProxyFrame(t, u, ing)
    ensures ProxyFrame(s, u, ing)
  {
  }

  /** Steps that leave the proxies alone. */
  ghost predicate SameProxies(s: Server, t: Server) {
    t.proxies == s.proxies && t.seen == s.seen && s.revision <= t.revision
  }

  lemma SameProxiesFrame(s: Server, t: Server, ing: Ingress)
    requires ProxyHistory(s) && SameProxies(s, t)
    ensures ProxyFrame(s, t, ing)
  {
  }

  lemma PutFrame(s: Server, p: HTTPProxy, ing: Ingress)
    requires ProxyHistory(s) && Own(p, ing)
    requires KeyOf(p) in s.proxies ==> OfParent(s.proxies[KeyOf(p)], ing)
    ensures ProxyFrame(s, PutProxy(s, p), ing)
  {
  }

  lemma RemoveFrame(s: Server, ks: set<Key>, ing: Ingress)
    requires ProxyHistory(s) && ks <= Leftovers(s, ing)
    ensures ProxyFrame(s, RemoveProxies(s, ks), ing)
  {
  }

  lemma ApplyOneFrame(s: Server, view: seq<HTTPProxy>, d: HTTPProxy, calls: nat, env: Environment, ing: Ingress)
    requires ProxyHistory(s) && (forall p :: p in view ==> p in s.seen) && Own(d, ing)
    ensures ProxyFrame(s, ApplyOne(s, view, d, calls, env).server, ing)
    ensures ApplyOne(s, view, d, calls, env).server.ingresses == s.ingresses
    ensures ApplyOne(s, view, d, calls, env).server.seenIngresses == s.seenIngresses
  {
    hide ProxyFrame;
    SameProxiesFrame(s, s, ing);
    var matches := Matches(view, d);
    if matches == [] {
      if KeyOf(d) !in s.proxies {
        PutFrame(s, d, ing);
      }
    } else {
      // The match was seen; if the server still has that resource version, it is the match.
      assert matches[0] in matches;
      var update := Refreshed(matches[0], d);
      if KeyOf(update) in s.proxies && s.proxies[KeyOf(update)].resourceVersion == update.resourceVersion {
        assert s.proxies[KeyOf(update)] == matches[0];
        PutFrame(s, update, ing);
      }
    }
  }

  lemma {:induction false} ApplyAllFrame(s: Server, view: seq<HTTPProxy>, ds: seq<HTTPProxy>, calls: nat,
                                         env: Environment, ing: Ingress)
    requires ProxyHistory(s) && (forall p :: p in view ==> p in s.seen) && (forall d :: d in ds ==> Own(d, ing))
    ensures ProxyFrame(s, ApplyAll(s, view, ds, calls, env).server, ing)
    ensures ApplyAll(s, view, ds, calls, env).server.ingresses == s.ingresses
    ensures ApplyAll(s, view, ds, calls, env).server.seenIngresses == s.seenIngresses
    decreases |ds|
  {
    if ds == [] {
      SameProxiesFrame(s, s, ing);
    } else {
      hide ApplyOne;
      assert ds[0] in ds;
      ApplyOneFrame(s, view, ds[0], calls, env, ing);
      var p := ApplyOne(s, view, ds[0], calls, env);
      if p.ok {
        ApplyAllFrame(p.server, view, ds[1..], p.calls, env, ing);
        ProxyFrameTransitive(s, p.server, ApplyAll(p.server, view, ds[1..], p.calls, env).server, ing);
      }
    }
  }

  lemma SweepFrame(s: Server, view: seq<HTTPProxy>, ing: Ingress, calls: nat, env: Environment)
    requires ProxyHistory(s)
    ensures ProxyFrame(s, Sweep(s, view, ing, calls, env).server, ing)
    ensures Sweep(s, view, ing, calls, env).server.ingresses == s.ingresses
    ensures Sweep(s, view, ing, calls, env).server.seenIngresses == s.seenIngresses
  {
    hide ProxyFrame, Leftovers;
    SameProxiesFrame(s, s, ing);
    RemoveFrame(s, Leftovers(s, ing), ing);
    RemoveFrame(s, Leftovers(s, ing) * env.partial, ing);
  }

  lemma ProgramFrame(s: Server, view: seq<HTTPProxy>, ing: Ingress, calls: nat, env: Environment)
    requires ProxyHistory(s) && (forall p :: p in view ==> p in s.seen)
    requires (forall d :: d in env.desired ==> Own(d, ing))
    ensures ProxyFrame(s, Program(s, view, ing, calls, env).server, ing)
    ensures Program(s, view, ing, calls, env).server.ingresses == s.ingresses
    ensures Program(s, view, ing, calls, env).server.seenIngresses == s.seenIngresses
  {
    hide ApplyAll, Sweep;
    ApplyAllFrame(s, view, env.desired, calls, env, ing);
    var applied := ApplyAll(s, view, env.desired, calls, env);
    if applied.ok {
      SweepFrame(applied.server, view, ing, applied.calls, env);
      ProxyFrameTransitive(s, applied.server, Sweep(applied.server, view, ing, applied.calls, env).server, ing);
    }
  }

  // ---- Ingresses -------------------------------------------------------------------

  /** Only the ingresses `ks` may have changed. */
  ghost predicate IngressFrame(s: Server, t: Server, ks: set<Key>) {
    && IngressHistory(t)
    && s.revision <= t.revision
    && s.seenIngresses <= t.seenIngresses
    && (forall k :: k !in ks ==> (k in t.ingresses <==> k in s.ingresses))
    && (forall k :: k !in ks && k in s.ingresses ==> t.ingresses[k] == s.ingresses[k])
  }

  lemma IngressFrameTransitive(s: Server, t: Server, u: Server, a: set<Key>, b: set<Key>)
    requires IngressFrame(s, t, a) && IngressFrame(t, u, b)
    ensures IngressFrame(s, u, a + b)
  {
  }

  lemma SameIngressesFrame(s: Server, t: Server)
    requires IngressHistory(s) && t.ingresses == s.ingresses && t.seenIngresses == s.seenIngresses
    requires s.revision <= t.revision
    ensures IngressFrame(s, t, {})
  {
  }

  lemma PutIngressFrame(s: Server, o: IngressObject)
    requires IngressHistory(s)
    ensures IngressFrame(s, PutIngress(s, o), {IngressKey(o.ing)}) && SameProxies(s, PutIngress(s, o))
  {
  }

  lemma DeleteIngressFrame(s: Server, k: Key)
    requires IngressHistory(s) && k in s.ingresses
    ensures IngressFrame(s, DeleteIngress(s, k).value, {k}) && SameProxies(s, DeleteIngress(s, k).value)
  {
  }

  /** A call either leaves the server alone or has its effect. */
  lemma SendCases(reply: Reply, s: Server, effect: Option<Server>)
    ensures var c := Send(reply, s, effect);
            (c.server == s && !c.ok) || (effect.Some? && c.server == effect.value)
  {
  }

  /** The gate touches no proxy and, at most, the child. */
  lemma GateFrame(cfg: Config, s: Server, views: Views, ing: Ingress, env: Environment)
    requires IngressHistory(s) && ViewsSeen(s, views)
    ensures var t := RunGate(cfg, s, views, ing, env).server;
            SameProxies(s, t)
              && IngressFrame(s, t, if IsEndpointProbe(ing) then {} else {ChildKey(cfg, IngressKey(ing))})
  {
    hide ChildSpec, IngressHistory, IngressFrame, ChildIngressName, Send, Judge, PutIngress;
    SameIngressesFrame(s, s);
    WidenFrame(s, s, {ChildKey(cfg, IngressKey(ing))});
    if !IsEndpointProbe(ing) && CurrentProxies(views.proxies, ing) == [] {
      var want := ProbeIngress(cfg, ing, OlderProxies(views.proxies, ing));
      var k := ChildKey(cfg, IngressKey(ing));
      if k !in views.ingresses {
        SendCases(env.reply(0), s, CreateIngress(s, want));
        PutIngressFrame(s, IngressObject(want.(generation := 1), INITIAL_STATUS, 0));
      } else {
        SendCases(env.reply(0), s, UpdateIngress(s, views.ingresses[k], want.spec));
        if k in s.ingresses {
          PutIngressFrame(s, IngressObject(Respecced(views.ingresses[k].ing, want.spec), s.ingresses[k].status, 0));
        }
      }
    }
  }

  lemma WidenFrame(s: Server, t: Server, ks: set<Key>)
    requires IngressFrame(s, t, {})
    ensures IngressFrame(s, t, ks)
  {
  }

  lemma ConcludeFrame(cfg: Config, s: Server, calls: nat, ing: Ingress, configured: Status, haveProbe: bool,
                      env: Environment)
    requires IngressHistory(s)
    ensures var t := Conclude(cfg, s, calls, ing, configured, haveProbe, env).server;
            SameProxies(s, t) && IngressFrame(s, t, if haveProbe then {ChildKey(cfg, IngressKey(ing))} else {})
  {
    hide IngressHistory, IngressFrame, ChildIngressName, Send, DeleteIngress;
    var k := ChildKey(cfg, IngressKey(ing));
    SameIngressesFrame(s, s);
    WidenFrame(s, s, {k});
    SendCases(env.reply(calls), s, DeleteIngress(s, k));
    if DeleteIngress(s, k).Some? {
      DeletedWasThere(s, k);
      DeleteIngressFrame(s, k);
    }
  }

  lemma DeletedWasThere(s: Server, k: Key)
    requires DeleteIngress(s, k).Some?
    ensures k in s.ingresses
  {
  }

  // ---- The whole reconcile ---------------------------------------------------------

  /** The wanted proxies all belong to the ingress at its generation. */
  lemma FaithfulIdentified(cfg: Config, ing: Ingress, env: Environment)
    requires Faithful(cfg, ing, env)
    ensures forall d :: d in env.desired ==> Identified(cfg, ing, d) && Own(d, ing)
    ensures TargetsOf(env.desired) == Targets(cfg, ing)
  {
    var protos := Protocols.IngressProtocols(cfg, ing, env.services);
    var compiled := Compile(cfg, ing, protos);
    CompileIdentified(cfg, ing, protos);
    TargetsStable(cfg, ing, protos);
    hide Compile;
    forall d | d in env.desired
      ensures Identified(cfg, ing, d)
    {
      var i :| 0 <= i < |env.desired| && env.desired[i] == d;
      assert ProxyLike(d, compiled[i]) && compiled[i] in compiled;
    }
    assert forall i :: 0 <= i < |compiled| ==> ProxyLike(env.desired[i], compiled[i]);
  }

  /** The list may be the compiled one itself. */
  lemma CompileFaithful(cfg: Config, ing: Ingress, env: Environment)
    requires env.desired == Compile(cfg, ing, Protocols.IngressProtocols(cfg, ing, env.services))
    ensures Faithful(cfg, ing, env)
  {
    hide Compile, Protocols.IngressProtocols;
    forall i | 0 <= i < |env.desired|
      ensures ProxyLike(env.desired[i], env.desired[i])
    {
      ProxyLikeItself(cfg, ing, Protocols.IngressProtocols(cfg, ing, env.services), env.desired[i]);
    }
  }

  lemma ProxyLikeItself(cfg: Config, ing: Ingress, protos: map<string, string>, p: HTTPProxy)
    requires p in Compile(cfg, ing, protos)
    ensures ProxyLike(p, p)
  {
    hide Compile, CertificateFor, Headers.Conditions, Headers.PreSplitHeaders, ServiceOf, ExpandedHosts, PermitInsecure;
    var rule, originalHost, host := CompileSound(cfg, ing, protos, p);
    forall r | r in p.spec.routes
      ensures RouteLike(r, r)
    {
      var i :| 0 <= i < |p.spec.routes| && p.spec.routes[i] == r;
      Headers.PreSplitHeadersAllowed(ProbedRule(rule, SpecHash(cfg, ing)).paths[i]);
    }
  }

  /** The ingresses that a reconcile of `ing` may touch. */
  function Touched(cfg: Config, ing: Ingress): set<Key> {
    if IsEndpointProbe(ing) then {} else {ChildKey(cfg, IngressKey(ing))}
  }

  lemma ProgramKeepsFrames(cfg: Config, s: Server, mid: Server, views: Views, ing: Ingress, calls: nat,
                           env: Environment)
    requires ProxyHistory(s) && ViewsSeen(s, views) && (forall d :: d in env.desired ==> Own(d, ing))
    requires SameProxies(s, mid) && IngressFrame(s, mid, Touched(cfg, ing))
    ensures var t := Program(mid, views.proxies, ing, calls, env).server;
            ProxyFrame(s, t, ing) && IngressFrame(s, t, Touched(cfg, ing))
  {
    SameProxiesFrame(s, mid, ing);
    ProxyFrameHistory(s, mid, ing);
    FrameHistory(s, mid, Touched(cfg, ing));
    hide Program, IngressFrame, ProxyFrame, ProxyHistory, IngressHistory, Own, Touched;
    ProgramFrame(mid, views.proxies, ing, calls, env);
    var t := Program(mid, views.proxies, ing, calls, env).server;
    ProxyFrameTransitive(s, mid, t, ing);
    FrameRevision(mid, t, ing);
    SameIngressesFrame(mid, t);
    IngressFrameTransitive(s, mid, t, Touched(cfg, ing), {});
    assert Touched(cfg, ing) + {} == Touched(cfg, ing);
  }

  lemma ConcludeKeepsFrames(cfg: Config, s: Server, mid: Server, calls: nat, ing: Ingress, configured: Status,
                            haveProbe: bool, env: Environment)
    requires ProxyFrame(s, mid, ing) && IngressFrame(s, mid, Touched(cfg, ing)) && (haveProbe ==> !IsEndpointProbe(ing))
    ensures var t := Conclude(cfg, mid, calls, ing, configured, haveProbe, env).server;
            ProxyFrame(s, t, ing) && IngressFrame(s, t, Touched(cfg, ing))
  {
    ProxyFrameHistory(s, mid, ing);
    FrameHistory(s, mid, Touched(cfg, ing));
    hide Conclude, IngressFrame, ProxyFrame, ProxyHistory, IngressHistory, ChildKey;
    ConcludeFrame(cfg, mid, calls, ing, configured, haveProbe, env);
    var t := Conclude(cfg, mid, calls, ing, configured, haveProbe, env).server;
    SameProxiesFrame(mid, t, ing);
    ProxyFrameTransitive(s, mid, t, ing);
    var last: set<Key> := if haveProbe then {ChildKey(cfg, IngressKey(ing))} else {};
    IngressFrameTransitive(s, mid, t, Touched(cfg, ing), last);
    assert Touched(cfg, ing) + last == Touched(cfg, ing);
  }

  lemma FrameRevision(s: Server, t: Server, ing: Ingress)
    requires ProxyFrame(s, t, ing)
    ensures s.revision <= t.revision
  {
  }

  lemma GateProbe(cfg: Config, s: Server, views: Views, ing: Ingress, env: Environment)
    ensures var v := RunGate(cfg, s, views, ing, env).verdict;
            v.Open? && v.haveProbe ==> !IsEndpointProbe(ing)
  {
    hide ProbeGate, ChildKey, CurrentProxies;
  }

  lemma KindFrame(cfg: Config, s: Server, views: Views, ing: Ingress, status: Status, env: Environment)
    requires ProxyHistory(s) && IngressHistory(s) && ViewsSeen(s, views)
    requires (forall d :: d in env.desired ==> Own(d, ing))
    ensures var t := Kind(cfg, s, views, ing, status, env).server;
            ProxyFrame(s, t, ing) && IngressFrame(s, t, Touched(cfg, ing))
  {
    hide RunGate, Program, Conclude, IngressFrame, ProxyFrame, ProxyHistory, IngressHistory, Own, ServicesKnown,
         ViewsSeen;
    var gate := RunGate(cfg, s, views, ing, env);
    GateFrame(cfg, s, views, ing, env);
    GateProbe(cfg, s, views, ing, env);
    SameProxiesFrame(s, gate.server, ing);
    if gate.verdict.Open? && ServicesKnown(ing, env.services) {
      ProgramKeepsFrames(cfg, s, gate.server, views, ing, gate.calls, env);
      var done := Program(gate.server, views.proxies, ing, gate.calls, env);
      ConcludeKeepsFrames(cfg, s, done.server, done.calls, ing, MarkNetworkConfigured(status), gate.verdict.haveProbe,
                          env);
    }
  }

  lemma FrameHistory(s: Server, t: Server, ks: set<Key>)
    requires IngressFrame(s, t, ks)
    ensures IngressHistory(t)
  {
  }

  /** Deletion safety and framing, for arbitrarily stale caches and any failing calls: a
      reconcile never loses a proxy of the current generation, and never creates over,
      updates or deletes an object of another parent or namespace, even if names clash. */
  lemma StepFrame(cfg: Config, s: Server, views: Views, k: Key, env: Environment)
    requires ProxyHistory(s) && IngressHistory(s) && ViewsSeen(s, views)
    requires k in s.ingresses && Faithful(cfg, s.ingresses[k].ing, env)
    ensures var ing, t := s.ingresses[k].ing, Step(cfg, s, views, k, env);
            ProxyFrame(s, t, ing) && IngressFrame(s, t, Touched(cfg, ing) + {k})
  {
    var o := s.ingresses[k];
    FaithfulIdentified(cfg, o.ing, env);
    hide Faithful, Kind, IngressFrame, ProxyFrame, ProxyHistory, IngressHistory, Step, Own, Touched;
    var status := PreProcess(o.status, o.ing.generation);
    KindFrame(cfg, s, views, o.ing, status, env);
    var mid, t := Attempt(cfg, s, views, k, env).server, Step(cfg, s, views, k, env);
    FrameHistory(s, mid, Touched(cfg, o.ing));
    ProxyFrameHistory(s, mid, o.ing);
    StatusWriteFrame(cfg, s, views, k, env);
    IngressFrameTransitive(s, mid, t, Touched(cfg, o.ing), {k});
    SameProxiesFrame(mid, t, o.ing);
    ProxyFrameTransitive(s, mid, t, o.ing);
  }

  /** The status write touches the own ingress only, and no proxy. */
  lemma StatusWriteFrame(cfg: Config, s: Server, views: Views, k: Key, env: Environment)
    requires k in s.ingresses && IngressHistory(Attempt(cfg, s, views, k, env).server)
    ensures var mid, t := Attempt(cfg, s, views, k, env).server, Step(cfg, s, views, k, env);
            SameProxies(mid, t) && IngressFrame(mid, t, {k})
  {
    hide Attempt, IngressFrame;
    var a := Attempt(cfg, s, views, k, env);
    SameIngressesFrame(a.server, a.server);
    WidenFrame(a.server, a.server, {k});
    if k in a.server.ingresses {
      PutIngressFrame(a.server, a.server.ingresses[k].(status := PostProcess(a.status, s.ingresses[k].ing.generation)));
    }
  }

  lemma ProxyFrameHistory(s: Server, t: Server, ing: Ingress)
    requires ProxyFrame(s, t, ing)
    ensures ProxyHistory(t)
  {
  }
}
