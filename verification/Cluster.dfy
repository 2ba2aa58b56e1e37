/** The API server as the controller sees it. Every write gets a fresh resource version;
    creates refuse existing names, updates refuse stale resource versions, and
    delete-collection is evaluated on the server. */
module Cluster {
  import opened Model
  import opened Conditions

  datatype Key = Key(ns: string, name: string)

  function KeyOf(p: HTTPProxy): Key {
    Key(p.ns, p.name)
  }

  datatype IngressObject = IngressObject(ing: Ingress, status: Status, resourceVersion: nat)

  function IngressKey(ing: Ingress): Key {
    Key(ing.ns, ing.name)
  }

  /** The stored objects, everything that was ever stored, and the next resource version. */
  datatype Server = Server(
    proxies: map<Key, HTTPProxy>,
    seen: set<HTTPProxy>,
    ingresses: map<Key, IngressObject>,
    seenIngresses: set<IngressObject>,
    revision: nat)

  // ---- HTTPProxies -----------------------------------------------------------------

  function PutProxy(s: Server, p: HTTPProxy): Server {
    var q := p.(resourceVersion := s.revision);
    s.(proxies := s.proxies[KeyOf(q) := q], seen := s.seen + {q}, revision := s.revision + 1)
  }

  function CreateProxy(s: Server, p: HTTPProxy): Option<Server> {
    if KeyOf(p) in s.proxies then None else Some(PutProxy(s, p))
  }

  function UpdateProxy(s: Server, p: HTTPProxy): Option<Server> {
    if KeyOf(p) in s.proxies
      && s.proxies[KeyOf(p)].resourceVersion == p.resourceVersion then Some(PutProxy(s, p)) else None
  }

  function RemoveProxies(s: Server, ks: set<Key>): Server {
    s.(proxies := s.proxies - ks, revision := s.revision + 1)
  }

  // ---- Ingresses -------------------------------------------------------------------

  function PutIngress(s: Server, o: IngressObject): Server {
    var q := o.(resourceVersion := s.revision);
    s.(ingresses := s.ingresses[IngressKey(q.ing) := q], seenIngresses := s.seenIngresses
       + {q}, revision := s.revision + 1)
  }

  /** A created ingress starts at generation 1 with an empty status. */
  function CreateIngress(s: Server, ing: Ingress): Option<Server> {
    if IngressKey(ing) in s.ingresses then None
    else Some(PutIngress(s, IngressObject(ing.(generation := 1), INITIAL_STATUS, 0)))
  }

  function Respecced(ing: Ingress, spec: IngressSpec): Ingress {
    ing.(spec := spec, generation := if ing.spec == spec then ing.generation else ing.generation + 1)
  }

  /** An update of the spec; the status is a separate subresource and stays. */
  function UpdateIngress(s: Server, o: IngressObject, spec: IngressSpec): Option<Server> {
    var k := IngressKey(o.ing);
    if k in s.ingresses && s.ingresses[k].resourceVersion == o.resourceVersion then
      Some(PutIngress(s, IngressObject(Respecced(o.ing, spec), s.ingresses[k].status, 0)))
    else
      None
  }

  function DeleteIngress(s: Server, k: Key): Option<Server> {
    if k in s.ingresses then Some(s.(ingresses := s.ingresses - {k}, revision := s.revision + 1)) else None
  }

  function UpdateStatus(s: Server, k: Key, status: Status): Option<Server> {
    if k in s.ingresses then Some(PutIngress(s, s.ingresses[k].(status := status))) else None
  }

  // ---- Calls -----------------------------------------------------------------------

  /** What becomes of a call: it takes effect; it has no effect and returns an error; or it
      takes effect but the reply is lost and an error is returned. */
  datatype Reply = Accept | Reject | Lose

  datatype Call = Call(server: Server, ok: bool)

  function Send(reply: Reply, s: Server, effect: Option<Server>): Call {
    if effect.None? || reply == Reject then Call(s, false) else Call(effect.value, reply == Accept)
  }

  // ---- Selectors -------------------------------------------------------------------

  predicate OfParent(p: HTTPProxy, ing: Ingress) {
    p.ns == ing.ns && p.labels.parent == Some(ing.name)
  }

  predicate AtGeneration(p: HTTPProxy, ing: Ingress) {
    p.labels.generation == Some(ing.generation)
  }

  /** The selector by which the reconciler finds the stored form of a wanted proxy. */
  predicate SameTarget(p: HTTPProxy, d: HTTPProxy) {
    && p.ns == d.ns
    && p.labels.parent == d.labels.parent
    && p.labels.domainHash == d.labels.domainHash
    && p.labels.ingressClass == d.labels.ingressClass
  }

  function Filter<T(!new)>(xs: seq<T>, f: T -> bool): (r: seq<T>)
    ensures forall x :: x in r <==> x in xs && f(x)
    ensures r != [] ==> r[0] in xs && f(r[0])
  {
    if xs == [] then []
    else if f(xs[0]) then [xs[0]] + Filter(xs[1..], f)
    else Filter(xs[1..], f)
  }

  function CurrentProxies(view: seq<HTTPProxy>, ing: Ingress): seq<HTTPProxy> {
    Filter(view, p => OfParent(p, ing) && AtGeneration(p, ing))
  }

  function OlderProxies(view: seq<HTTPProxy>, ing: Ingress): seq<HTTPProxy> {
    Filter(view, p => OfParent(p, ing) && !AtGeneration(p, ing))
  }

  function Matches(view: seq<HTTPProxy>, d: HTTPProxy): seq<HTTPProxy> {
    Filter(view, p => SameTarget(p, d))
  }
}
