/** Every instant of a rollout: the server between any two calls is one that some failing
    reconcile leaves behind, so what holds however a reconcile ends holds all the way through. */
module Instants {
  import opened Model
  import opened Cluster
  import opened Reconcile
  import opened Rollout

  /** The servers after each call of the create/update loop. */
  ghost function ApplyTrace(s: Server, view: seq<HTTPProxy>, ds: seq<HTTPProxy>, calls: nat,
                            env: Environment): seq<Server>
    decreases |ds|
  {
    if ds == [] then []
    else
      var one := ApplyOne(s, view, ds[0], calls, env);
      (if one.calls > calls then [one.server] else [])
      + (if one.ok then ApplyTrace(one.server, view, ds[1..], one.calls, env) else [])
  }

  /** The servers after each call of the whole rollout. */
  ghost function ProgramTrace(s: Server, view: seq<HTTPProxy>, ing: Ingress, calls: nat,
                              env: Environment): seq<Server> {
    var applied := ApplyAll(s, view, env.desired, calls, env);
    ApplyTrace(s, view, env.desired, calls, env)
    + (if applied.ok
       && OlderProxies(view, ing) != [] then [Sweep(applied.server, view, ing, applied.calls, env).server] else [])
  }

  /** The server after the first `n` calls of a trace. */
  ghost function After(s: Server, trace: seq<Server>, n: nat): Server
    requires n <= |trace|
  {
    if n == 0 then s else trace[n - 1]
  }

  /** The same environment, but call `n` and all later ones are rejected without effect. */
  ghost function Cut(env: Environment, n: nat): Environment {
    env.(reply := (m: nat) => if m < n then env.reply(m) else Reject, partial := {})
  }

  /** One wanted proxy, with and without the cut. */
  lemma OneCut(s: Server, view: seq<HTTPProxy>, d: HTTPProxy, calls: nat, env: Environment, n: nat)
    ensures var one, cut := ApplyOne(s, view, d, calls, env), ApplyOne(s, view, d, calls, Cut(env, calls + n));
            && one.calls in {calls, calls + 1}
            && (one.calls == calls ==> one.server == s && one.ok)
            && (one.calls == calls || n > 0 ==> cut == one)
            && (one.calls > calls && n == 0 ==> !cut.ok && cut.server == s)
  {
    hide Matches, CreateProxy, UpdateProxy, Refreshed;
  }

  lemma {:induction false} ApplyCut(s: Server, view: seq<HTTPProxy>, ds: seq<HTTPProxy>, calls: nat, env: Environment,
                                    n: nat)
    requires n <= |ApplyTrace(s, view, ds, calls, env)|
    ensures ApplyAll(s, view, ds, calls, Cut(env, calls + n)).server == After(s, ApplyTrace(s, view, ds, calls, env), n)
    ensures n < |ApplyTrace(s, view, ds, calls, env)| ==> !ApplyAll(s, view, ds, calls, Cut(env, calls + n)).ok
    decreases |ds|
  {
    if ds != [] {
      var one, cut := ApplyOne(s, view, ds[0], calls, env), ApplyOne(s, view, ds[0], calls, Cut(env, calls + n));
      OneCut(s, view, ds[0], calls, env, n);
      hide ApplyOne, Cut, After;
      if one.calls == calls {
        ApplyCut(s, view, ds[1..], calls, env, n);
      } else if n == 0 {
        AfterNone(s, ApplyTrace(s, view, ds, calls, env));
        assert !cut.ok && cut.server == s;
      } else {
        assert one.calls == calls + 1 && cut == one;
        if one.ok {
          ApplyCut(one.server, view, ds[1..], one.calls, env, n - 1);
          AfterNext(s, one.server, ApplyTrace(one.server, view, ds[1..], one.calls, env), n);
        }
      }
    }
  }

  lemma AfterNone(s: Server, trace: seq<Server>)
    ensures After(s, trace, 0) == s
  {
  }

  lemma AfterNext(s: Server, next: Server, rest: seq<Server>, n: nat)
    requires 0 < n <= |rest| + 1
    ensures After(s, [next] + rest, n) == After(next, rest, n - 1)
  {
  }

  lemma {:induction false} ApplyTraceCalls(s: Server, view: seq<HTTPProxy>, ds: seq<HTTPProxy>, calls: nat,
                                           env: Environment)
    ensures var p, trace := ApplyAll(s, view, ds, calls, env), ApplyTrace(s, view, ds, calls, env);
            |trace| == p.calls - calls && After(s, trace, |trace|) == p.server
    decreases |ds|
  {
    if ds != [] {
      hide Matches, Send, CreateProxy, UpdateProxy, Refreshed;
      var one := ApplyOne(s, view, ds[0], calls, env);
      if one.ok {
        ApplyTraceCalls(one.server, view, ds[1..], one.calls, env);
      }
    }
  }

  /** Past the end of the loop, cutting later calls changes nothing about it. */
  lemma {:induction false} ApplyUncut(s: Server, view: seq<HTTPProxy>, ds: seq<HTTPProxy>, calls: nat, env: Environment,
                                      n: nat)
    requires n >= ApplyAll(s, view, ds, calls, env).calls
    ensures ApplyAll(s, view, ds, calls, Cut(env, n)) == ApplyAll(s, view, ds, calls, env)
    decreases |ds|
  {
    if ds != [] {
      var one := ApplyOne(s, view, ds[0], calls, env);
      ApplyTraceCalls(one.server, view, ds[1..], one.calls, env);
      hide Matches, CreateProxy, UpdateProxy, Refreshed;
      assert ApplyOne(s, view, ds[0], calls, Cut(env, n)) == one;
      if one.ok {
        ApplyUncut(one.server, view, ds[1..], one.calls, env, n);
      }
    }
  }

  /** The proxies after the first `n` calls are those that the reconcile leaves behind when call
      `n` is the one that fails. */
  lemma ProgramCut(s: Server, view: seq<HTTPProxy>, ing: Ingress, calls: nat, env: Environment, n: nat)
    requires n <= |ProgramTrace(s, view, ing, calls, env)|
    ensures After(s, ProgramTrace(s, view, ing, calls, env), n).proxies
         == if n == |ProgramTrace(s, view, ing, calls, env)| then Program(s, view, ing, calls, env).server.proxies
            else Program(s, view, ing, calls, Cut(env, calls + n)).server.proxies
  {
    var trace := ApplyTrace(s, view, env.desired, calls, env);
    var applied := ApplyAll(s, view, env.desired, calls, env);
    hide ApplyAll, ApplyTrace, OlderProxies, Leftovers;
    ApplyTraceCalls(s, view, env.desired, calls, env);
    if n < |trace| {
      ApplyCut(s, view, env.desired, calls, env, n);
    } else if n == |trace| && n < |ProgramTrace(s, view, ing, calls, env)| {
      ApplyUncut(s, view, env.desired, calls, env, calls + n);
    }
  }

  /** No gap at any instant: after every call of the rollout, and at every stage of its
      delete-collection, a stored proxy that serves a wanted target is there and serves it. */
  lemma NoGapAtAnyInstant(cfg: Config, s: Server, view: seq<HTTPProxy>, ing: Ingress, calls: nat, env: Environment,
                          d: HTTPProxy, k: Key, n: nat)
    requires Prepared(cfg, s, view, ing, env.desired) && n <= |ProgramTrace(s, view, ing, calls, env)|
    requires d in env.desired && k in s.proxies && SameTarget(s.proxies[k], d)
    ensures var t := After(s, ProgramTrace(s, view, ing, calls, env), n);
            k in t.proxies && SameTarget(t.proxies[k], d)
  {
    hide Prepared, Program, ProgramTrace, SameTarget;
    ProgramCut(s, view, ing, calls, env, n);
    ProgramNoGap(cfg, s, view, ing, calls, env, d, k);
    ProgramNoGap(cfg, s, view, ing, calls, Cut(env, calls + n), d, k);
  }

  /** The delete-collection deletes its selection object by object, in any order. */
  lemma NoGapWhileDeleting(cfg: Config, s: Server, view: seq<HTTPProxy>, ing: Ingress, calls: nat, env: Environment,
                           deleted: set<Key>, d: HTTPProxy, k: Key)
    requires Prepared(cfg, s, view, ing, env.desired) && ApplyAll(s, view, env.desired, calls, env).ok
    requires OlderProxies(view, ing) != []
    requires deleted <= Leftovers(ApplyAll(s, view, env.desired, calls, env).server, ing)
    requires d in env.desired && k in s.proxies && SameTarget(s.proxies[k], d)
    ensures var t := RemoveProxies(ApplyAll(s, view, env.desired, calls, env).server, deleted);
            k in t.proxies && SameTarget(t.proxies[k], d)
  {
    var applied := ApplyAll(s, view, env.desired, calls, env);
    var half := Cut(env, applied.calls).(partial := deleted);
    hide Prepared, ApplyAll, SameTarget, OlderProxies, Leftovers;
    ApplyUncut(s, view, env.desired, calls, env, applied.calls);
    ApplyPartial(s, view, env.desired, calls, Cut(env, applied.calls), deleted);
    ProgramNoGap(cfg, s, view, ing, calls, half, d, k);
    assert Leftovers(applied.server, ing) * deleted == deleted;
  }

  lemma {:induction false} ApplyPartial(s: Server, view: seq<HTTPProxy>, ds: seq<HTTPProxy>, calls: nat,
                                        env: Environment, ks: set<Key>)
    ensures ApplyAll(s, view, ds, calls, env.(partial := ks)) == ApplyAll(s, view, ds, calls, env)
    decreases |ds|
  {
    if ds != [] {
      hide Matches, Send, CreateProxy, UpdateProxy, Refreshed;
      var one := ApplyOne(s, view, ds[0], calls, env);
      if one.ok {
        ApplyPartial(one.server, view, ds[1..], one.calls, env, ks);
      }
    }
  }
}
