/** One reconcile of an ingress, as a function of the server, the informer views and what the
    environment answers. `Controller.ReconcileKind` is the imperative form. */
module Reconcile {
  import opened Model
  import opened Compiler
  import opened EndpointProbe
  import opened Protocols
  import opened Conditions
  import opened Cluster

  /** The informer caches: a listing of proxies and an index of ingresses. */
  datatype Views = Views(proxies: seq<HTTPProxy>, ingresses: map<Key, IngressObject>)

  datatype ProbeAnswer = ProbeReady | ProbeNotReady | ProbeError

  /** What one reconcile meets: the fate of its n-th API call, what a failing
      delete-collection deleted all the same, the status prober's answer, the port names of
      the services, and the list that `MakeHTTPProxies` returned. */
  datatype Environment = Environment(
    reply: nat -> Reply,
    partial: set<Key>,
    probe: ProbeAnswer,
    services: map<string, seq<string>>,
    desired: seq<HTTPProxy>)

  /** The list is one that the compiler may return for this ingress and these services. */
  ghost predicate Faithful(cfg: Config, ing: Ingress, env: Environment) {
    ProxiesLike(env.desired, Compile(cfg, ing, IngressProtocols(cfg, ing, env.services)))
  }

  function ChildKey(cfg: Config, k: Key): Key {
    Key(k.ns, ChildIngressName(cfg, k.name))
  }

  predicate IsEndpointProbe(ing: Ingress) {
    ENDPOINTS_PROBE_KEY in ing.annotations
  }

  // ---- The gate --------------------------------------------------------------------

  datatype Verdict = Error | Wait | Open(haveProbe: bool)

  datatype Gate = Gate(server: Server, calls: nat, verdict: Verdict)

  function Judge(child: IngressObject): Verdict {
    if IsReady(child.status, child.ing.generation) then Open(true) else Wait
  }

  function Judged(c: Call, k: Key, calls: nat): Gate {
    Gate(c.server, calls, if c.ok && k in c.server.ingresses then Judge(c.server.ingresses[k]) else Error)
  }

  /** No proxies of this generation are listed: bring the child up to date and wait for it. */
  ghost function ProbeGate(cfg: Config, s: Server, views: Views, ing: Ingress, env: Environment): Gate {
    var want := ProbeIngress(cfg, ing, OlderProxies(views.proxies, ing));
    var k := ChildKey(cfg, IngressKey(ing));
    if k !in views.ingresses then
      Judged(Send(env.reply(0), s, CreateIngress(s, want)), k, 1)
    else if views.ingresses[k].ing.spec != want.spec then
      Judged(Send(env.reply(0), s, UpdateIngress(s, views.ingresses[k], want.spec)), k, 1)
    else
      Gate(s, 0, Judge(views.ingresses[k]))
  }

  ghost function RunGate(cfg: Config, s: Server, views: Views, ing: Ingress, env: Environment): Gate {
    if IsEndpointProbe(ing) then Gate(s, 0, Open(false))
    else if CurrentProxies(views.proxies, ing) != [] then
      Gate(s, 0, Open(ChildKey(cfg, IngressKey(ing)) in views.ingresses))
    else ProbeGate(cfg, s, views, ing, env)
  }

  // ---- Writing the proxies ---------------------------------------------------------

  datatype Progress = Progress(server: Server, calls: nat, ok: bool)

  /** The stored object with the wanted annotations, labels and spec. */
  function Refreshed(m: HTTPProxy, d: HTTPProxy): HTTPProxy {
    m.(annotations := d.annotations, labels := d.labels, spec := d.spec)
  }

  function Sent(c: Call, calls: nat): Progress {
    Progress(c.server, calls + 1, c.ok)
  }

  function ApplyOne(s: Server, view: seq<HTTPProxy>, d: HTTPProxy, calls: nat, env: Environment): Progress {
    var matches := Matches(view, d);
    if matches == [] then Sent(Send(env.reply(calls), s, CreateProxy(s, d)), calls)
    else if Refreshed(matches[0], d) == matches[0] then Progress(s, calls, true)
    else Sent(Send(env.reply(calls), s, UpdateProxy(s, Refreshed(matches[0], d))), calls)
  }

  function ApplyAll(s: Server, view: seq<HTTPProxy>, ds: seq<HTTPProxy>, calls: nat, env: Environment): Progress
    decreases |ds|
  {
    if ds == [] then Progress(s, calls, true)
    else
      var p := ApplyOne(s, view, ds[0], calls, env);
      if !p.ok then p else ApplyAll(p.server, view, ds[1..], p.calls, env)
  }

  /** The stored proxies of the ingress that are not at its generation. */
  function Leftovers(s: Server, ing: Ingress): set<Key> {
    set k | k in s.proxies && OfParent(s.proxies[k], ing) && !AtGeneration(s.proxies[k], ing)
  }

  /** Delete-collection; a rejected one may have deleted some of the selected objects. */
  function Sweep(s: Server, view: seq<HTTPProxy>, ing: Ingress, calls: nat, env: Environment): Progress {
    if OlderProxies(view, ing) == [] then Progress(s, calls, true)
    else
      match env.reply(calls)
      case Accept => Progress(RemoveProxies(s, Leftovers(s, ing)), calls + 1, true)
      case Lose => Progress(RemoveProxies(s, Leftovers(s, ing)), calls + 1, false)
      case Reject => Progress(RemoveProxies(s, Leftovers(s, ing) * env.partial), calls + 1, false)
  }

  /** Creates, updates and deletes: everything between the gate and the status. */
  function Program(s: Server, view: seq<HTTPProxy>, ing: Ingress, calls: nat, env: Environment): Progress {
    var applied := ApplyAll(s, view, env.desired, calls, env);
    if !applied.ok then applied else Sweep(applied.server, view, ing, applied.calls, env)
  }

  // ---- The whole reconcile ---------------------------------------------------------

  datatype Ending = Failed | Waiting | Finished

  /** How a reconcile ended: the server, the number of API calls, the status it computed, and
      whether it got an answer from the prober. */
  datatype Outcome = Outcome(server: Server, calls: nat, status: Status, ending: Ending, asked: bool)

  /** Readiness and removal of the child, once the proxies are programmed. */
  function Conclude(cfg: Config, s: Server, calls: nat, ing: Ingress, configured: Status, haveProbe: bool,
                    env: Environment)
    : Outcome
  {
    var skip := IsReady(configured, ing.generation);
    if !skip && env.probe == ProbeError then Outcome(s, calls, configured, Failed, false)
    else
      var marked := if skip
        || env.probe == ProbeReady then MarkLoadBalancerReady(configured) else MarkLoadBalancerNotReady(configured);
      var status := marked.(observed := ing.generation);
      if haveProbe && IsReady(status, ing.generation) then
        var c := Send(env.reply(calls), s, DeleteIngress(s, ChildKey(cfg, IngressKey(ing))));
        Outcome(c.server, calls + 1, status, if c.ok then Finished else Failed, !skip)
      else
        Outcome(s, calls, status, Finished, !skip)
  }

  predicate ServicesKnown(ing: Ingress, services: map<string, seq<string>>) {
    forall n :: n in ServiceTable(ing) ==> n in services
  }

  /** `ReconcileKind`, from the preprocessed status on. */
  ghost function Kind(cfg: Config, s: Server, views: Views, ing: Ingress, status: Status, env: Environment): Outcome {
    var gate := RunGate(cfg, s, views, ing, env);
    match gate.verdict
    case Error => Outcome(gate.server, gate.calls, status, Failed, false)
    case Wait => Outcome(gate.server, gate.calls, MarkIngressNotReady(MarkLoadBalancerNotReady(status)), Waiting, false)
    case Open(haveProbe) =>
      if !ServicesKnown(ing, env.services) then Outcome(gate.server, gate.calls, status, Failed, false)
      else
        var done := Program(gate.server, views.proxies, ing, gate.calls, env);
        if !done.ok then Outcome(done.server, done.calls, status, Failed, false)
        else Conclude(cfg, done.server, done.calls, ing, MarkNetworkConfigured(status), haveProbe, env)
  }

  /** The run of `ReconcileKind` for the stored ingress `k`. */
  ghost function Attempt(cfg: Config, s: Server, views: Views, k: Key, env: Environment): Outcome
    requires k in s.ingresses
  {
    var o := s.ingresses[k];
    Kind(cfg, s, views, o.ing, PreProcess(o.status, o.ing.generation), env)
  }

  /** The generated reconciler around it: the status is written back if it changed, also after
      a failure, and always records the generation as observed. */
  ghost function Step(cfg: Config, s: Server, views: Views, k: Key, env: Environment): Server
    requires k in s.ingresses
  {
    var o := s.ingresses[k];
    var outcome := Attempt(cfg, s, views, k, env);
    var status := PostProcess(outcome.status, o.ing.generation);
    if status == o.status then outcome.server
    else Send(env.reply(outcome.calls), outcome.server, UpdateStatus(outcome.server, k, status)).server
  }
}
