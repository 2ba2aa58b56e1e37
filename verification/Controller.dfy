/** The controller itself: `ReconcileKind` as it runs, step by step against an API server, and
    the generated reconciler around it. Each method is proved to do what `Reconcile` says. */
module Controller {
  import opened Sorting
  import opened Model
  import opened Compiler
  import opened EndpointProbe
  import opened Protocols
  import opened Conditions
  import opened Cluster
  import opened Reconcile
  import opened Framing
  import opened Services

  /** The API server, with an oracle for the fate of each call of the running reconcile. */
  class ApiServer {
    var proxies: map<Key, HTTPProxy>
    var ingresses: map<Key, IngressObject>
    var revision: nat
    var calls: nat
    var reply: nat -> Reply
    var partial: set<Key>
    ghost var seen: set<HTTPProxy>
    ghost var seenIngresses: set<IngressObject>

    ghost function State(): Server
      reads this
    {
      Server(proxies, seen, ingresses, seenIngresses, revision)
    }

    /** The calls made so far, for the same oracle. */
    twostate predicate Called(n: nat)
      reads this
    {
      calls == old(calls) + n && reply == old(reply) && partial == old(partial)
    }

    /** A reconcile begins: what its calls will meet. */
    method Arm(reply: nat -> Reply, partial: set<Key>)
      modifies this
      ensures State() == old(State()) && calls == 0 && this.reply == reply && this.partial == partial
    {
      this.reply, this.partial, calls := reply, partial, 0;
    }

    method StoreProxy(p: HTTPProxy)
      modifies this
      ensures State() == PutProxy(old(State()), p) && Called(0)
    {
      var q := p.(resourceVersion := revision);
      proxies := proxies[KeyOf(q) := q];
      seen := seen + {q};
      revision := revision + 1;
    }

    method CreateProxy(p: HTTPProxy) returns (ok: bool)
      modifies this
      ensures var c := Send(reply(old(calls)), old(State()), Cluster.CreateProxy(old(State()), p));
              State() == c.server && ok == c.ok && Called(1)
    {
      var r := reply(calls);
      calls := calls + 1;
      if KeyOf(p) in proxies || r == Reject {
        return false;
      }
      StoreProxy(p);
      ok := r == Accept;
    }

    method UpdateProxy(p: HTTPProxy) returns (ok: bool)
      modifies this
      ensures var c := Send(reply(old(calls)), old(State()), Cluster.UpdateProxy(old(State()), p));
              State() == c.server && ok == c.ok && Called(1)
    {
      var r := reply(calls);
      calls := calls + 1;
      if KeyOf(p) !in proxies || proxies[KeyOf(p)].resourceVersion != p.resourceVersion || r == Reject {
        return false;
      }
      StoreProxy(p);
      ok := r == Accept;
    }

    /** Delete-collection of the proxies of the ingress that are not at its generation. */
    method DeleteOlder(ing: Ingress) returns (ok: bool)
      modifies this
      ensures Called(1) && ok == (reply(old(calls)) == Accept)
      ensures State() == RemoveProxies(old(State()),
                if reply(old(calls)) == Reject then Leftovers(old(State()), ing) * partial
                  else Leftovers(old(State()), ing))
    {
      var r := reply(calls);
      calls := calls + 1;
      var selected := set k | k in proxies && OfParent(proxies[k], ing) && !AtGeneration(proxies[k], ing);
      if r == Reject {
        selected := selected * partial;
      }
      proxies := proxies - selected;
      revision := revision + 1;
      ok := r == Accept;
    }

    method StoreIngress(o: IngressObject)
      modifies this
      ensures State() == PutIngress(old(State()), o) && Called(0)
    {
      var q := o.(resourceVersion := revision);
      ingresses := ingresses[IngressKey(q.ing) := q];
      seenIngresses := seenIngresses + {q};
      revision := revision + 1;
    }

    method CreateIngress(ing: Ingress) returns (ok: bool)
      modifies this
      ensures var c := Send(reply(old(calls)), old(State()), Cluster.CreateIngress(old(State()), ing));
              State() == c.server && ok == c.ok && Called(1)
      ensures ok ==> IngressKey(ing) in ingresses
    {
      var r := reply(calls);
      calls := calls + 1;
      if IngressKey(ing) in ingresses || r == Reject {
        return false;
      }
      StoreIngress(IngressObject(ing.(generation := 1), INITIAL_STATUS, 0));
      ok := r == Accept;
    }

    method UpdateIngress(o: IngressObject, spec: IngressSpec) returns (ok: bool)
      modifies this
      ensures var c := Send(reply(old(calls)), old(State()), Cluster.UpdateIngress(old(State()), o, spec));
              State() == c.server && ok == c.ok && Called(1)
      ensures ok ==> IngressKey(o.ing) in ingresses
    {
      var r, k := reply(calls), IngressKey(o.ing);
      calls := calls + 1;
      if k !in ingresses || ingresses[k].resourceVersion != o.resourceVersion || r == Reject {
        return false;
      }
      StoreIngress(IngressObject(Respecced(o.ing, spec), ingresses[k].status, 0));
      ok := r == Accept;
    }

    method DeleteIngress(k: Key) returns (ok: bool)
      modifies this
      ensures var c := Send(reply(old(calls)), old(State()), Cluster.DeleteIngress(old(State()), k));
              State() == c.server && ok == c.ok && Called(1)
    {
      var r := reply(calls);
      calls := calls + 1;
      if k !in ingresses || r == Reject {
        return false;
      }
      ingresses := ingresses - {k};
      revision := revision + 1;
      ok := r == Accept;
    }

    method UpdateStatus(k: Key, status: Status) returns (ok: bool)
      modifies this
      ensures var c := Send(reply(old(calls)), old(State()), Cluster.UpdateStatus(old(State()), k, status));
              State() == c.server && ok == c.ok && Called(1)
    {
      var r := reply(calls);
      calls := calls + 1;
      if k !in ingresses || r == Reject {
        return false;
      }
      StoreIngress(ingresses[k].(status := status));
      ok := r == Accept;
    }
  }

  /** The gate makes at most the first call, and nothing else of the environment matters. */
  lemma GateEnvironment(cfg: Config, s: Server, views: Views, ing: Ingress, a: Environment, b: Environment)
    requires a.reply == b.reply
    ensures RunGate(cfg, s, views, ing, a) == RunGate(cfg, s, views, ing, b)
  {
    hide ChildSpec, ChildIngressName, CurrentProxies, OlderProxies;
  }

  /** The reconciler, with its informer caches. */
  class Reconciler {
    const cfg: Config
    const api: ApiServer
    var proxyCache: seq<HTTPProxy>
    var ingressCache: map<Key, IngressObject>

    constructor (cfg: Config, api: ApiServer)
      ensures this.cfg == cfg && this.api == api && proxyCache == [] && ingressCache == map[]
    {
      this.cfg, this.api, proxyCache, ingressCache := cfg, api, [], map[];
    }

    function CacheViews(): Views
      reads this
    {
      Views(proxyCache, ingressCache)
    }

    /** No proxies of this generation are listed: `ProbeGate`. */
    method ReconcileEndpointProbe(ing: Ingress, ghost env: Environment) returns (verdict: Verdict)
      requires DistinctClasses(cfg) && api.calls == 0 && api.reply == env.reply
      modifies api
      ensures var g := ProbeGate(cfg, old(api.State()), CacheViews(), ing, env);
              api.State() == g.server && api.calls == g.calls && verdict == g.verdict
      ensures api.reply == old(api.reply) && api.partial == old(api.partial)
    {
      hide ChildSpec, ChildIngressName, PutIngress, OlderProxies, DistinctClasses;
      var oldGeneration := OlderProxies(proxyCache, ing);
      var desired := MakeEndpointProbeIngress(cfg, ing, oldGeneration);
      var k := Key(desired.ns, desired.name);
      var actual;
      if k !in ingressCache {
        var ok := api.CreateIngress(desired);
        if !ok {
          return Error;
        }
        actual := api.ingresses[k];
      } else {
        actual := ingressCache[k];
        if actual.ing.spec != desired.spec {
          var ok := api.UpdateIngress(actual, desired.spec);
          if !ok || k !in api.ingresses {
            return Error;
          }
          actual := api.ingresses[k];
        }
      }
      verdict := if IsReady(actual.status, actual.ing.generation) then Open(true) else Wait;
    }

    method ReconcileGate(ing: Ingress, ghost env: Environment) returns (verdict: Verdict)
      requires DistinctClasses(cfg) && api.calls == 0 && api.reply == env.reply
      modifies api
      ensures var g := RunGate(cfg, old(api.State()), CacheViews(), ing, env);
              api.State() == g.server && api.calls == g.calls && verdict == g.verdict
      ensures api.reply == old(api.reply) && api.partial == old(api.partial)
    {
      hide ProbeGate, ChildIngressName;
      var haveEndpointProbe := false;
      if ENDPOINTS_PROBE_KEY in ing.annotations {
        return Open(haveEndpointProbe);
      }
      var currentGeneration := CurrentProxies(proxyCache, ing);
      if |currentGeneration| == 0 {
        verdict := ReconcileEndpointProbe(ing, env);
      } else {
        haveEndpointProbe := Key(ing.ns, ChildIngressName(cfg, ing.name)) in ingressCache;
        verdict := Open(haveEndpointProbe);
      }
    }

    /** The protocol of each service; false when a service is missing. */
    method ReconcileServices(ing: Ingress,
                             services: map<string, seq<string>>) returns (ok: bool, protos: map<string, string>)
      ensures ok <==> forall rule, path, split ::
                        rule in ing.spec.rules && path in rule.paths && split in path.splits ==>
                        split.service in services
      ensures ok <==> ServicesKnown(ing, services)
      ensures ok ==> protos == IngressProtocols(cfg, ing, services)
    {
      hide AbsorbAll, Ascending;
      var info := ServiceNames(ing);
      var names := SortedList(info.Keys);
      ok, protos := EstablishProtocols(cfg.internalTLS, names, services);
      assert (set n | n in names) == info.Keys;
      KnownExactly(ing, services);
    }

    /** The create/update loop. */
    method ReconcileProxies(desired: seq<HTTPProxy>, ghost env: Environment) returns (ok: bool)
      requires api.reply == env.reply
      modifies api
      ensures var p := ApplyAll(old(api.State()), proxyCache, desired, old(api.calls), env);
              api.State() == p.server && api.calls == p.calls && ok == p.ok
      ensures api.reply == old(api.reply) && api.partial == old(api.partial)
    {
      hide Matches, PutProxy;
      for i := 0 to |desired|
        invariant ApplyAll(old(api.State()), proxyCache, desired, old(api.calls), env)
               == ApplyAll(api.State(), proxyCache, desired[i..], api.calls, env)
        invariant api.reply == old(api.reply) && api.partial == old(api.partial)
      {
        var proxy := desired[i];
        assert desired[i..][0] == proxy && desired[i..][1..] == desired[i + 1..];
        var matches := Matches(proxyCache, proxy);
        if |matches| == 0 {
          ok := api.CreateProxy(proxy);
          if !ok {
            return;
          }
          continue;
        }
        var update := matches[0].(annotations := proxy.annotations, labels := proxy.labels, spec := proxy.spec);
        if matches[0] == update {
          continue;
        }
        ok := api.UpdateProxy(update);
        if !ok {
          return;
        }
      }
      ok := true;
    }

    method DeleteLeftovers(ing: Ingress, ghost env: Environment) returns (ok: bool)
      requires api.reply == env.reply && api.partial == env.partial
      modifies api
      ensures var p := Sweep(old(api.State()), proxyCache, ing, old(api.calls), env);
              api.State() == p.server && api.calls == p.calls && ok == p.ok
      ensures api.reply == old(api.reply) && api.partial == old(api.partial)
    {
      var leftovers := OlderProxies(proxyCache, ing);
      ok := true;
      if |leftovers| != 0 {
        ok := api.DeleteOlder(ing);
      }
    }

    /** Readiness, and the removal of the child. */
    method ReconcileStatus(ing: Ingress, configured: Status, haveEndpointProbe: bool, probe: ProbeAnswer,
                           ghost env: Environment)
      returns (status: Status, ending: Ending, asked: bool)
      requires api.reply == env.reply && probe == env.probe
      modifies api
      ensures var c := Conclude(cfg, old(api.State()), old(api.calls), ing, configured, haveEndpointProbe, env);
              api.State() == c.server && api.calls == c.calls && status == c.status && ending == c.ending
                && asked == c.asked
      ensures api.reply == old(api.reply)
    {
      hide ChildIngressName;
      status, ending, asked := configured, Finished, false;
      var ready := IsReady(status, ing.generation);
      if !ready {
        if probe == ProbeError {
          return status, Failed, false;
        }
        asked := true;
        ready := probe == ProbeReady;
      }
      if ready {
        status := MarkLoadBalancerReady(status);
      } else {
        status := MarkLoadBalancerNotReady(status);
      }
      status := status.(observed := ing.generation);
      if haveEndpointProbe {
        if IsReady(status, ing.generation) {
          var ok := api.DeleteIngress(Key(ing.ns, ChildIngressName(cfg, ing.name)));
          if !ok {
            ending := Failed;
          }
        }
      }
    }

    /** `ReconcileKind`. The ghost environment records what the reconcile met, including the
        list that the compiler returned. */
    method ReconcileKind(ing: Ingress, status: Status, services: map<string, seq<string>>, probe: ProbeAnswer)
      returns (computed: Status, ending: Ending, asked: bool, ghost env: Environment)
      requires DistinctClasses(cfg) && api.calls == 0
      modifies api
      ensures env.reply == old(api.reply) && env.partial == old(api.partial) && env.probe == probe
      ensures env.services == services
      ensures Faithful(cfg, ing, env)
      ensures (NoHostConflict(ing) ==> env.desired == Compile(cfg, ing, IngressProtocols(cfg, ing, services)))
      ensures var o := Kind(cfg, old(api.State()), CacheViews(), ing, status, env);
              && api.State() == o.server && api.calls == o.calls
              && computed == o.status && ending == o.ending && asked == o.asked
      ensures api.reply == old(api.reply)
    {
      hide RunGate, ServicesKnown, ApplyAll, Sweep, Conclude, Compile, IngressProtocols, DistinctClasses,
           NoHostConflict;
      env := Environment(api.reply, api.partial, probe, services,
                         Compile(cfg, ing, IngressProtocols(cfg, ing, services)));
      CompileFaithful(cfg, ing, env);
      computed, ending, asked := status, Failed, false;
      var verdict := ReconcileGate(ing, env);
      if verdict == Error {
        return;
      }
      if verdict == Wait {
        computed := MarkIngressNotReady(MarkLoadBalancerNotReady(status));
        ending := Waiting;
        return;
      }
      var known, protos := ReconcileServices(ing, services);
      if !known {
        return;
      }
      var desired := MakeHTTPProxies(cfg, ing, protos);
      ghost var before := env;
      env := env.(desired := desired);
      GateEnvironment(cfg, old(api.State()), CacheViews(), ing, before, env);
      var ok := ReconcileProxies(desired, env);
      if !ok {
        return;
      }
      ok := DeleteLeftovers(ing, env);
      if !ok {
        return;
      }
      computed := MarkNetworkConfigured(status);
      computed, ending, asked := ReconcileStatus(ing, computed, verdict.haveProbe, probe, env);
    }

    /** The generated reconciler: one reconcile of a stored ingress, status write included. */
    method ReconcileStored(k: Key, reply: nat -> Reply, partial: set<Key>, services: map<string, seq<string>>,
                           probe: ProbeAnswer)
      returns (ghost env: Environment)
      requires DistinctClasses(cfg) && k in api.ingresses
      modifies api
      ensures env.reply == reply && env.partial == partial && env.probe == probe && env.services == services
      ensures Faithful(cfg, old(api.ingresses)[k].ing, env)
      ensures api.State() == Step(cfg, old(api.State()), CacheViews(), k, env)
    {
      hide Kind, DistinctClasses, NoHostConflict, Faithful, Compile, IngressProtocols;
      api.Arm(reply, partial);
      var o := api.ingresses[k];
      var status, ending, asked;
      status, ending, asked, env := ReconcileKind(o.ing, PreProcess(o.status, o.ing.generation), services, probe);
      status := PostProcess(status, o.ing.generation);
      if status != o.status {
        var ok := api.UpdateStatus(k, status);
      }
    }
  }
}
