/** The API server and the status field by field: what each call does to the stored objects, what
    the controller writes, and which status a reconcile leaves behind. */
module ServerFields {
  import opened Model
  import opened EndpointProbe
  import opened Conditions
  import opened Cluster
  import opened Reconcile
  import opened Framing
  import opened Steps
  import opened Readiness

  // ---- Calls -----------------------------------------------------------------------

  /** A call reports success exactly when it is possible and accepted, and takes effect exactly
      when it is possible and not rejected. */
  lemma SendFields(reply: Reply, s: Server, effect: Option<Server>)
    ensures Send(reply, s, effect).ok <==> effect.Some? && reply == Accept
    ensures effect.Some? && (reply == Accept || reply == Lose) ==> Send(reply, s, effect).server == effect.value
    ensures effect.None? || reply == Reject ==> Send(reply, s, effect).server == s
  {
  }

  lemma ProxyCalls(s: Server, p: HTTPProxy)
    ensures CreateProxy(s, p).None? <==> Key(p.ns, p.name) in s.proxies
    ensures UpdateProxy(s, p).Some? <==>
              Key(p.ns, p.name) in s.proxies && s.proxies[Key(p.ns, p.name)].resourceVersion == p.resourceVersion
    ensures forall t :: CreateProxy(s, p) == Some(t) || UpdateProxy(s, p) == Some(t) ==>
              && t.proxies == s.proxies[Key(p.ns, p.name) := p.(resourceVersion := s.revision)]
              && t.ingresses == s.ingresses && t.revision == s.revision + 1
  {
  }

  lemma IngressCalls(s: Server, ing: Ingress, o: IngressObject, spec: IngressSpec, k: Key, status: Status)
    ensures CreateIngress(s, ing).None? <==> Key(ing.ns, ing.name) in s.ingresses
    ensures CreateIngress(s, ing).Some? ==>
              var t := CreateIngress(s, ing).value;
              && t.ingresses == s.ingresses[Key(ing.ns, ing.name) := IngressObject(
                   Ingress(ing.ns, ing.name, 1, ing.annotations, ing.spec), Status(IsUnknown, IsUnknown, IsUnknown,
                                                            0), s.revision)]
              && t.proxies == s.proxies && t.revision == s.revision + 1
    ensures var x := Key(o.ing.ns, o.ing.name);
            UpdateIngress(s, o, spec).Some? <==> x in s.ingresses && s.ingresses[x].resourceVersion == o.resourceVersion
    ensures UpdateIngress(s, o, spec).Some? ==>
              var t, x := UpdateIngress(s, o, spec).value, Key(o.ing.ns, o.ing.name);
              var generation := if o.ing.spec == spec then o.ing.generation else o.ing.generation + 1;
              && t.ingresses == s.ingresses[x := IngressObject(
                   Ingress(o.ing.ns, o.ing.name, generation, o.ing.annotations,
                           spec), s.ingresses[x].status, s.revision)]
              && t.proxies == s.proxies && t.revision == s.revision + 1
    ensures DeleteIngress(s, k).Some? <==> k in s.ingresses
    ensures DeleteIngress(s, k).Some? ==>
              var t := DeleteIngress(s, k).value;
              t.ingresses.Keys == s.ingresses.Keys - {k} && t.proxies == s.proxies
              && forall x :: x in t.ingresses ==> t.ingresses[x] == s.ingresses[x]
    ensures UpdateStatus(s, k, status).Some? <==> k in s.ingresses
    ensures k in s.ingresses && Key(s.ingresses[k].ing.ns, s.ingresses[k].ing.name) == k ==>
              var t := UpdateStatus(s, k, status).value;
              t.ingresses == s.ingresses[k := IngressObject(s.ingresses[k].ing, status, s.revision)]
                && t.proxies == s.proxies
  {
  }

  lemma {:induction false} FilterOrder<T(!new)>(xs: seq<T>, y: T, f: T -> bool)
    ensures Filter(xs + [y], f) == Filter(xs, f) + if f(y) then [y] else []
  {
    if xs == [] {
      assert xs + [y] == [y];
    } else {
      FilterOrder(xs[1..], y, f);
      assert (xs + [y])[1..] == xs[1..] + [y];
    }
  }

  /** The selectors keep the order of the listing: proxies of the ingress at its generation, those
      at any other, and those for the same target as a wanted one. */
  lemma SelectorFields(view: seq<HTTPProxy>, p: HTTPProxy, ing: Ingress, d: HTTPProxy)
    ensures CurrentProxies([], ing) == OlderProxies([], ing) == Matches([], d) == []
    ensures var own := p.ns == ing.ns && p.labels.parent == Some(ing.name);
            var current := p.labels.generation == Some(ing.generation);
            && CurrentProxies(view + [p], ing) == CurrentProxies(view, ing) + (if own && current then [p] else [])
            && OlderProxies(view + [p], ing) == OlderProxies(view, ing) + (if own && !current then [p] else [])
    ensures var same := p.ns == d.ns && p.labels.parent == d.labels.parent
              && p.labels.domainHash == d.labels.domainHash && p.labels.ingressClass == d.labels.ingressClass;
            Matches(view + [p], d) == Matches(view, d) + if same then [p] else []
  {
    FilterOrder(view, p, q => OfParent(q, ing) && AtGeneration(q, ing));
    FilterOrder(view, p, q => OfParent(q, ing) && !AtGeneration(q, ing));
    FilterOrder(view, p, q => SameTarget(q, d));
  }

  // ---- Writing one wanted proxy ----------------------------------------------------

  /** Found by parent, host hash and class in its namespace: nothing found, the wanted proxy is
      created; found with the wanted labels, annotations and spec, nothing is done; otherwise the
      first match is updated to those, and keeps its name, version and status. */
  lemma WriteFields(s: Server, view: seq<HTTPProxy>, d: HTTPProxy, calls: nat, env: Environment)
    ensures var found := Matches(view, d);
            && (forall m :: m in found <==>
                  && m in view && m.ns == d.ns && m.labels.parent == d.labels.parent
                  && m.labels.domainHash == d.labels.domainHash && m.labels.ingressClass == d.labels.ingressClass)
            && (found == [] ==>
                  var c := Send(env.reply(calls), s, CreateProxy(s, d));
                  ApplyOne(s, view, d, calls, env) == Progress(c.server, calls + 1, c.ok))
            && (found != [] && found[0].labels == d.labels && found[0].annotations == d.annotations
                && found[0].spec == d.spec ==>
                  ApplyOne(s, view, d, calls, env) == Progress(s, calls, true))
            && (found != []
                && !(found[0].labels == d.labels && found[0].annotations == d.annotations
                     && found[0].spec == d.spec) ==>
                  var m := found[0];
                  var update := HTTPProxy(m.ns, m.name, m.resourceVersion, d.labels, d.annotations, d.spec, m.status);
                  var c := Send(env.reply(calls), s, UpdateProxy(s, update));
                  ApplyOne(s, view, d, calls, env) == Progress(c.server, calls + 1, c.ok))
  {
    hide Send, CreateProxy, UpdateProxy;
  }

  /** The loop goes on exactly as long as nothing fails. */
  lemma {:induction false} LoopFields(s: Server, view: seq<HTTPProxy>, ds: seq<HTTPProxy>, d: HTTPProxy, calls: nat,
                                      env: Environment)
    ensures ApplyAll(s, view, [], calls, env) == Progress(s, calls, true)
    ensures var before := ApplyAll(s, view, ds, calls, env);
            ApplyAll(s, view, ds + [d], calls, env)
            == if before.ok then ApplyOne(before.server, view, d, before.calls, env) else before
    decreases |ds|
  {
    hide ApplyOne;
    if ds == [] {
      assert ds + [d] == [d];
    } else {
      var first := ApplyOne(s, view, ds[0], calls, env);
      LoopFields(first.server, view, ds[1..], d, first.calls, env);
      assert (ds + [d])[1..] == ds[1..] + [d];
    }
  }

  /** What the delete-collection selects. */
  lemma SweepFields(s: Server, ing: Ingress, k: Key)
    ensures k in Leftovers(s, ing) <==>
              && k in s.proxies && s.proxies[k].ns == ing.ns && s.proxies[k].labels.parent == Some(ing.name)
              && s.proxies[k].labels.generation != Some(ing.generation)
  {
  }

  /** The sweep: no call if the cache shows nothing of another generation; otherwise one, which
      deletes the selection, or any part of it when it is rejected. */
  lemma SweepCall(s: Server, view: seq<HTTPProxy>, ing: Ingress, calls: nat, env: Environment)
    ensures var p := Sweep(s, view, ing, calls, env);
            var shown := exists x :: x in view && x.ns == ing.ns && x.labels.parent == Some(ing.name)
                                     && x.labels.generation != Some(ing.generation);
            && (!shown ==> p == Progress(s, calls, true))
            && (shown ==>
                  && p.calls == calls + 1 && (p.ok <==> env.reply(calls) == Accept)
                  && p.server.ingresses == s.ingresses && p.server.proxies == s.proxies -
                     (if env.reply(calls) == Reject then Leftovers(s, ing) * env.partial else Leftovers(s, ing)))
  {
    hide Leftovers;
    var older := OlderProxies(view, ing);
    assert older != [] ==> older[0] in older;
  }

  // ---- The gate and the end --------------------------------------------------------

  /** The gate does nothing for a probe ingress, and for one with proxies of its generation listed
      it only looks the child up. */
  lemma GatePasses(cfg: Config, s: Server, views: Views, ing: Ingress, env: Environment)
    ensures var gate, k := RunGate(cfg, s, views, ing, env), Key(ing.ns, cfg.childName(ing.name + "--", "ep"));
            var listed := exists p :: p in views.proxies && p.ns == ing.ns && p.labels.parent == Some(ing.name)
                                      && p.labels.generation == Some(ing.generation);
            if "contour.networking.knative.dev/endpointsProbe" in ing.annotations then gate == Gate(s, 0, Open(false))
            else listed ==> gate == Gate(s, 0, Open(k in views.ingresses))
  {
    hide ProbeGate;
  }

  /** What the gate does when it has to bring the child up to date or wait for it. */
  lemma GateFields(cfg: Config, s: Server, views: Views, ing: Ingress, env: Environment)
    requires IngressHistory(s) && ViewsSeen(s, views) && ObservedBounded(s)
    requires "contour.networking.knative.dev/endpointsProbe" !in ing.annotations
    requires CurrentProxies(views.proxies, ing) == []
    ensures var gate, k := RunGate(cfg, s, views, ing, env), Key(ing.ns, cfg.childName(ing.name + "--", "ep"));
            var want := ProbeIngress(cfg, ing, OlderProxies(views.proxies, ing));
            if k !in views.ingresses then
              var c := Send(env.reply(0), s, CreateIngress(s, want));
              gate == Gate(c.server, 1, if c.ok then Wait else Error)
            else if views.ingresses[k].ing.spec != want.spec then
              var c := Send(env.reply(0), s, UpdateIngress(s, views.ingresses[k], want.spec));
              gate == Gate(c.server, 1, if c.ok then Wait else Error)
            else
              gate == Gate(s, 0, if IsReady(views.ingresses[k].status, views.ingresses[k].ing.generation)
                           then Open(true) else Wait)
  {
    hide ChildSpec, CurrentProxies, OlderProxies;
  }

  /** The prober is asked exactly when the ingress is not ready already; the child is deleted
      exactly when there is one and the ingress is ready in the end. */
  lemma ConcludeFields(cfg: Config, s: Server, calls: nat, ing: Ingress, configured: Status, haveProbe: bool,
                       env: Environment)
    requires configured.network == IsTrue && configured == Recomputed(configured)
    ensures var o, k := Conclude(cfg, s, calls, ing, configured, haveProbe, env), Key(ing.ns,
                                                            cfg.childName(ing.name + "--", "ep"));
            var already := configured.observed == ing.generation && configured.loadBalancer == IsTrue;
            var ready := already || env.probe == ProbeReady;
            if !already && env.probe == ProbeError then o == Outcome(s, calls, configured, Failed, false)
            else if haveProbe && ready then
              var c := Send(env.reply(calls), s, DeleteIngress(s, k));
              o == Outcome(c.server, calls + 1, Status(IsTrue, IsTrue, IsTrue, ing.generation),
                           if c.ok then Finished else Failed, !already)
            else
              var verdict := if ready then IsTrue else IsUnknown;
              o == Outcome(s, calls, Status(IsTrue, verdict, verdict, ing.generation), Finished, !already)
  {
  }

  /** A gate that is not open ends the reconcile where it left the server. */
  lemma ClosedFields(cfg: Config, s: Server, views: Views, ing: Ingress, status: Status, env: Environment)
    ensures var gate, o := RunGate(cfg, s, views, ing, env), Kind(cfg, s, views, ing, status, env);
            && (!gate.verdict.Open? ==> o.server == gate.server && o.calls == gate.calls && !o.asked)
            && (gate.verdict.Error? ==> o.ending == Failed && o.status == status)
            && (gate.verdict.Wait? <==> o.ending == Waiting)
  {
    hide RunGate, Program, ServicesKnown;
  }

  // ---- The status ------------------------------------------------------------------

  /** The status that a reconcile computes, condition by condition. */
  lemma StatusFields(cfg: Config, s: Server, views: Views, ing: Ingress, status: Status, env: Environment)
    ensures var o := Kind(cfg, s, views, ing, status, env);
            && (o.ending == Waiting ==>
                  && o.status.network == status.network && o.status.loadBalancer == IsUnknown
                  && o.status.ready == (if status.network == IsFalse then IsFalse else IsUnknown)
                  && o.status.observed == status.observed)
            && (o.ending == Finished ==>
                  && o.status.network == IsTrue && o.status.observed == ing.generation
                  && o.status.loadBalancer == (if o.asked && env.probe != ProbeReady then IsUnknown else IsTrue)
                  && o.status.ready == o.status.loadBalancer)
            && (o.ending == Finished && !o.asked ==> status.loadBalancer == IsTrue && status.observed == ing.generation)
            && (o.ending == Failed && !o.asked ==>
                  o.status.loadBalancer == status.loadBalancer
                    || (status.observed == ing.generation && o.status.ready == IsTrue))
  {
    KindStatus(cfg, s, views, ing, status, env);
    hide Kind;
  }

  /** Around a reconcile: a new generation makes Ready unknown, unless a condition has failed, and
      afterwards the generation counts as observed. */
  lemma ProcessFields(status: Status, generation: nat)
    ensures var pre := PreProcess(status, generation);
            && pre.network == status.network && pre.loadBalancer == status.loadBalancer
            && pre.observed == status.observed
            && pre.ready == (if status.observed == generation then status.ready
                             else if status.network == IsFalse || status.loadBalancer == IsFalse then IsFalse
                             else IsUnknown)
    ensures PostProcess(status, generation) == Status(status.network, status.loadBalancer, status.ready, generation)
    ensures IsReady(status, generation) <==> status.observed == generation && status.ready == IsTrue
  {
  }

  /** A reconcile with what is around it: it starts from the preprocessed status; afterwards only
      the status of the ingress itself is written, exactly when it has changed, whatever the
      ending. */
  lemma StepFields(cfg: Config, s: Server, views: Views, k: Key, env: Environment)
    requires k in s.ingresses
    ensures var ing, status := s.ingresses[k].ing, s.ingresses[k].status;
            var o, t := Kind(cfg, s, views, ing, PreProcess(status, ing.generation), env), Step(cfg, s, views, k, env);
            var written := Status(o.status.network, o.status.loadBalancer, o.status.ready, ing.generation);
            var stored := k in o.server.ingresses && o.server.ingresses[k].ing == ing && Key(ing.ns, ing.name) == k;
            && t.proxies == o.server.proxies
            && (written == status || env.reply(o.calls) == Reject ==> t == o.server)
            && (written != status && env.reply(o.calls) != Reject && stored ==>
                  t.ingresses == o.server.ingresses[k := IngressObject(ing, written, o.server.revision)])
  {
    hide Kind;
  }
}
