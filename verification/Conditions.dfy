/** The status conditions of an ingress and the knative condition set that manages them.
    `Ready` is the top-level condition over NetworkConfigured and LoadBalancerReady. */
module Conditions {

  datatype Condition = IsTrue | IsFalse | IsUnknown

  datatype Status = Status(network: Condition, loadBalancer: Condition, ready: Condition, observed: nat)

  const INITIAL_STATUS := Status(IsUnknown, IsUnknown, IsUnknown, 0)

  /** `IsReady()`: the latest spec has been observed and the Ready condition is true. */
  predicate IsReady(s: Status, generation: nat) {
    s.observed == generation && s.ready == IsTrue
  }

  /** Propagates the dependents to Ready: false trumps unknown trumps true. */
  function Recomputed(s: Status): Status {
    s.(ready := if s.network == IsFalse || s.loadBalancer == IsFalse then IsFalse
                else if s.network == IsUnknown || s.loadBalancer == IsUnknown then IsUnknown
                else IsTrue)
  }

  function MarkNetworkConfigured(s: Status): Status {
    Recomputed(s.(network := IsTrue))
  }

  function MarkLoadBalancerReady(s: Status): Status {
    Recomputed(s.(loadBalancer := IsTrue))
  }

  function MarkLoadBalancerNotReady(s: Status): Status {
    s.(loadBalancer := IsUnknown, ready := if s.network == IsFalse then IsFalse else IsUnknown)
  }

  /** Marks Ready itself unknown, unless a dependent has failed. */
  function MarkIngressNotReady(s: Status): Status {
    s.(ready := if s.network == IsFalse || s.loadBalancer == IsFalse then IsFalse else IsUnknown)
  }

  /** What the generated reconciler does before `ReconcileKind`: a new generation resets Ready. */
  function PreProcess(s: Status, generation: nat): Status {
    if s.observed != generation then MarkIngressNotReady(s) else s
  }

  /** What it does afterwards, whether or not the reconcile failed. */
  function PostProcess(s: Status, generation: nat): Status {
    s.(observed := generation)
  }
}
