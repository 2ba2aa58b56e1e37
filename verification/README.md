# net-contour: a verified model of the rollout controller

net-contour turns a Knative `KIngress` into Contour `HTTPProxy` objects and moves traffic from one
generation of the ingress to the next make-before-break. This project models the three parts that
have to fit together for that, and proves what they promise over every input and every run:

- the **compiler** (`MakeHTTPProxies`): `Headers`, `Compiler`, `Outputs`, `Routing`, `Protocols`;
- the **decompiler** (`ServiceNames`, `MakeEndpointProbeIngress`), which reverse engineers the prior
  generation from its proxies: `EndpointProbe`, `ProbeCoverage`, `Decompile`, `ProbeIdentity`;
- the **reconcile protocol** (`ReconcileKind`), a restartable state machine over an API server,
  informer caches, a child "endpoint probe" ingress and status conditions: `Conditions`, `Cluster`,
  `Reconcile` (the pure step), `Controller` (the imperative form, a class, proved to refine it),
  `Framing`, `Rollout`, `Instants`, `Steps` (one reconcile), `Worlds`, `Histories`, `Readiness`,
  `Lifetime`, `ChildOrigin` (every run), `Convergence`, `Cooperation`;
- and the **probe targets** (`ListProbeTargets`): `ProbeTargets`.

Each operation is proved equal to a specification function. What those functions mean is proved in
`CompiledFields`, `CompiledOrder`, `Certificates`, `ProbeFields`, `TargetFields`, `Services` and
`ServerFields`: field by field, in the words of the ingress and with the constants written out.

`Faithfulness` and `Conflicts` say when the compiler's answer is unique and when an ingress can rest.
`Scenario` and `Stage` describe a small cluster and build runs of it; `Showcase` is a run that
converges; `Unprobed`, `Blindness`, `Forgotten`, `StaleSelf`, `Unrest` and `Witnesses` are runs and
inputs at which something goes wrong. `Text`, `Sorting` and `Model` hold strings, sorted lists and the resources.

## How runs are modelled

A world is a server and the informer caches. An event is a reconcile of any stored ingress (children
are reconciled by the same controller), an edit of a top-level spec, a cache refresh to any objects
that were ever stored, a status report by Contour, or a write by others to proxies without our
labels. Within a reconcile each API call may be accepted, rejected, or take effect with its reply
lost, and a failing delete-collection may have deleted any part of its selection. The server between
two calls is the one that a reconcile leaves behind when the next call fails (`Instants`).

Go's map iteration is an arbitrary choice in the methods (`:|`), so that an `ensures` that fixes the
result is a proof of determinism.

Assumptions, each a visible premise:

- `DistinctClasses`: visibility classes are non-empty and pairwise different, and fixed in a run.
- `CollisionFree`, `TopNames` (together `WellNamed`): SHA-1 has no collisions on hosts; child names
  clash neither with top-level names nor with each other.
- `Separate`: the wanted (host, class) pairs of an ingress, and their names, are pairwise different.
  `Convergence.ConflictNeverRests` shows why.
- The API server bumps the generation when the spec changes; a top-level ingress is not deleted.
- A reconcile reads its own ingress fresh. The caches of proxies and of the child may be stale,
  except where `Synced`, `Fresh` or `Calm` says otherwise, and do not change during a reconcile.

Findings, each with a failing input and its exact condition:

- Ready does not imply probed (`Unprobed.ReadyUnprobed`): the skip at contour.go:262-272 together
  with the unconditional bump of the observed generation lets a failed reconcile carry an old load
  balancer verdict over to a new generation. `HonestExactly` says when, before the reconcile, this
  cannot happen; `GuardedRunsAreHonest` carries it to runs. The comment in the source says that an
  ingress marked ready must have been probed; the code is followed.
- A proxy cache that shows no older proxies lets the child go while some are left
  (`Blindness.BlindRemoval`; `RemovalLeaves` is the condition, `ChildLifetime` the theorem under it).
- A child without rules is the same for every generation, so that one which is long gone but still
  cached can open a gate (`Forgotten.ForgottenChild`; `OpeningExactly`).
- A reconcile that reads an outdated copy of its own ingress can delete newer proxies
  (`StaleSelf.StaleDeletes`; `StaleDeletionExactly`).
- The child may depend on the order in which the cache lists old proxies (`Unrest.ListingMatters`;
  `ListingOrder`).
- Header lists, and with them the wanted proxies, are nondeterministic when `AppendHeaders` has its own
  `Host` (`Witnesses.TwoLists`; `PreSplitDeterministic`, `FaithfulExactly`).
- An ingress that wants no proxy has its child created and deleted forever (`Unrest.HostlessUnrest`;
  `QuietExactly`).
- An ingress that wants two contents for one host and class is never at rest
  (`Witnesses.TwinsNeverRest`; `Conflicts.RestExactly`).
- Cluster-domain hosts under a rule of another visibility are probed at the wrong gateways
  (`Witnesses.LocalHostUnprobed`; `ServedHostsProbed`).

## Model

| member | source | states |
|---|---|---|
| `Headers.PreSplitDeterministic` | pkg/reconciler/contour/resources/httpproxy.go:153-173 | the sorted request-header list is the same for every iteration order of AppendHeaders if and only if AppendHeaders carries no `Host` with a value other than the rewritten host |
| `Faithfulness.FaithfulExactly` | pkg/reconciler/contour/resources/httpproxy.go:118-362 | for fixed services the compiler always returns the same list if and only if no path behind an exposed host has conflicting Host headers |
| `Faithfulness.FaithfulDetermined` | pkg/reconciler/contour/resources/httpproxy.go:118-362 | without such a conflict all reconciles at the same services want the same list, as convergence asks |
| `Faithfulness.WrittenAgain` | pkg/reconciler/contour/contour.go:222-230 | an ingress that has settled on one of the possible lists is written again as soon as the compiler returns another |
| `Witnesses.TwoLists` | pkg/reconciler/contour/resources/httpproxy.go:153-173 | an admitted ingress, with a rewritten host and a Host header of its own, for which the compiler may return two different lists |
| `Headers.MakePreSplitHeaders` | pkg/reconciler/contour/resources/httpproxy.go:153-173 | for every iteration order the result is a name-ordered permutation of the entries plus the rewritten host, and a function of the path when there is no such conflict |
| `Headers.SortConditions` | pkg/reconciler/contour/resources/httpproxy.go:257-269 | sorting with the source's comparator, which is only called on pairs it may compare: it never reads the header of the prefix condition; the result is strictly ordered with the same members |
| `Headers.MakeConditions` | pkg/reconciler/contour/resources/httpproxy.go:242-269 | for every iteration order of Headers: the prefix first, then one exact match per header by descending name |
| `Headers.ConditionsSorted` | pkg/reconciler/contour/resources/httpproxy.go:242-269 | the specified list is strictly ordered by the comparator and holds exactly the prefix condition of a non-empty path and one match per header |
| `Compiler.AddHostEntries` | pkg/reconciler/contour/resources/httpproxy.go:100-106 | the map holds exactly the old and the listed hosts; a listed host has the last certificate that lists it |
| `Compiler.TLSEntries` | pkg/reconciler/contour/resources/httpproxy.go:108-116 | each host gets its last cluster-local certificate, else its last external one, else none |
| `Compiler.MakeService` | pkg/reconciler/contour/resources/httpproxy.go:176-239 | equal to the specified backend for every iteration order of the split's AppendHeaders; `CompiledFields.ProxyRoutes` and `Protocols.UpstreamEndToEnd` say what its fields are |
| `Compiler.MakeRoute` | pkg/reconciler/contour/resources/httpproxy.go:141-283 | equal to the specified route unless the Host headers conflict, and then equal up to the order of those two entries |
| `Compiler.MakeHTTPProxies` | pkg/reconciler/contour/resources/httpproxy.go:118-362 | with every map iterated in arbitrary order, the list is the specified `Compile` of the ingress, exactly so when no path has conflicting Host headers; `Outputs.CompileSound`, `Outputs.CompileComplete`, `CompiledFields.ProxyMeta`, `CompiledFields.ProxyRoutes` and `Certificates.ProxySecret` say what it holds |
| `Compiler.ProbesKeepHosts` | vendor/knative.dev/networking/pkg/ingress/ingress.go:52-70 | inserting the probe paths introduces no Host conflict |
| `Outputs.CompileSound` | pkg/reconciler/contour/resources/httpproxy.go:137-359 | every compiled proxy comes from a rule, one of its hosts and an expansion of that host |
| `Outputs.CompileComplete` | pkg/reconciler/contour/resources/httpproxy.go:137-359 | every rule, host and expansion has its proxy in the list |
| `CompiledOrder.CompiledInOrder` | pkg/reconciler/contour/resources/httpproxy.go:137-359 | the list has exactly one proxy per rule, host of the rule and expansion, repetitions included, ordered by rule, then host, then expansion |
| `Outputs.CompileIdentified` | pkg/reconciler/contour/resources/httpproxy.go:286-345 | in every output, parent, generation and host-hash labels are the ingress's, the class label equals the class annotation, and the name derives from parent, class and fqdn |
| `Outputs.TargetsStable` | pkg/reconciler/contour/resources/httpproxy.go:292-345 | names and labels of the outputs depend on the ingress and the classes alone, not on the service protocols |
| `CompiledFields.ExpandedExactly` | vendor/knative.dev/networking/pkg/ingress/ingress.go:92-132 | the expansions of a host are itself and its cluster-DNS short names, as far as their last label has at most 63 characters and not only digits |
| `CompiledFields.ServingClass` | pkg/reconciler/contour/resources/httpproxy.go:313-320 | the class of a host: the cluster-local one for hosts ending in the cluster domain, otherwise that of the rule's visibility |
| `CompiledFields.ProxyMeta` | pkg/reconciler/contour/resources/httpproxy.go:286-345 | name, labels and annotations of every compiled proxy, with all the annotations of the ingress except for the class |
| `CompiledFields.ProxyRoutes` | pkg/reconciler/contour/resources/httpproxy.go:141-283 | the routes of every compiled proxy: probe copies first, then one per path; each with the prefix and header conditions of its path, request headers with the rewritten Host, insecure access exactly with HTTP enabled or under a cluster-local rule, and per split its service, port, weight and own headers by ascending name |
| `Certificates.ProxySecret` | pkg/reconciler/contour/resources/httpproxy.go:347-354 | the secret of every compiled proxy, from the ingress alone: namespace/name of the last TLS entry that covers a cluster-local rule and lists the host, else of the last one for an external rule, else the default secret exactly under external rules, else none |
| `Certificates.LastInRules` | vendor/knative.dev/networking/pkg/apis/networking/v1alpha1/ingress_helpers.go:27-55 | a host is in the TLS list of a visibility if and only if some entry covers all hosts of a rule of that visibility and lists it, no rule without hosts having come before; the last such pair decides |
| `Routing.RoutingPreserved` | pkg/reconciler/contour/resources/httpproxy.go:121-356 | for every request, fqdn and class, a compiled route matches with given backends, ports and weights if and only if a path of a rule exposing that fqdn under that effective class matches with those splits, or its probe copy does |
| `Routing.OrdinaryRoutingPreserved` | pkg/reconciler/contour/resources/httpproxy.go:121-356 | requests without the probe header are routed exactly by the original paths |
| `Routing.ProbesAreMarked` | vendor/knative.dev/networking/pkg/ingress/ingress.go:43-73 | a probe request is answered by a route that appends the hash of this very ingress |
| `Protocols.SelectProtocol` | pkg/reconciler/contour/contour.go:187-201 | the port loop with its breaks equals: first port alone with internal TLS, any http2 port without |
| `Protocols.EstablishProtocols` | pkg/reconciler/contour/contour.go:174-202 | succeeds exactly when every service exists, and then maps exactly the services that have a protocol |
| `Protocols.UpstreamEndToEnd` | pkg/reconciler/contour/resources/httpproxy.go:207-237 | from port names to compiled backends, probe copies included: none on ACME challenge paths; with internal TLS h2c for a rewritten host with K-Original-Host on the split, else h2 or tls by whether the first port is http2; without it h2c when any port is http2; upstream validation exactly with internal TLS off challenge paths |
| `EndpointProbe.ServiceNames` | pkg/reconciler/contour/resources/httpproxy.go:61-81 | the nested loops compute the merge of all mentions of services in rule, path, split order |
| `EndpointProbe.AbsorbAllSummary` | pkg/reconciler/contour/resources/httpproxy.go:66-76 | the merge has exactly the mentioned services, each with port, host and path of its first mention and the visibilities of all its mentions |
| `EndpointProbe.FindVisibility` | pkg/reconciler/contour/resources/kingress.go:65-71 | the class lookup finds a visibility of that class for every map iteration order; a unique one when classes are distinct |
| `EndpointProbe.AbsorbPrevious` | pkg/reconciler/contour/resources/kingress.go:56-96 | the loops over prior proxies, routes and services add exactly the mentions of the valid proxies of known class |
| `EndpointProbe.MakeEndpointProbeIngress` | pkg/reconciler/contour/resources/kingress.go:38-147 | the child is a function of the ingress and the listed proxies, whatever the map iteration orders; `ProbeFields.ChildRuleFields`, `ProbeFields.ChildTLS` and `ProbeFields.ChildMeta` say what its fields are |
| `ProbeCoverage.ExactCoverage` | pkg/reconciler/contour/resources/kingress.go:98-132 | the child's rules are sorted, free of duplicates and exactly one per (service, visibility) mentioned, for services whose first mention has no path; `ProbeFields.ChildRuleFields` says what each one is |
| `ProbeFields.ChildRuleFields` | pkg/reconciler/contour/resources/kingress.go:54-132 | every rule of the child has one probe host, one path without prefix and header matches, one split at 100 percent; service, port and rewritten host are those of the first split of the ingress that names the service or, if none does, of the first backend in the valid old proxies of a known class, in a path without prefix |
| `ProbeFields.ChildRuleExists` | pkg/reconciler/contour/resources/kingress.go:54-132 | conversely, every service and visibility named by the ingress or by such a proxy has its rule, unless the first mention has a prefix |
| `ProbeFields.ChildTLS` | pkg/reconciler/contour/resources/kingress.go:134-144 | the child is probed over HTTPS if and only if HTTP is redirected and there is an external certificate or a default one; then its TLS entries are exactly those that cover an external rule, for all the child's hosts |
| `ProbeFields.ChildSecrets` | pkg/reconciler/contour/resources/kingress.go:140-143 | the child's certificates keep their order, and their hosts that of the rules |
| `ProbeFields.ChildMeta` | pkg/reconciler/contour/resources/kingress.go:39-52 | the child's name and annotations: all those of the ingress, and the probe mark |
| `Decompile.DecompileAfterCompile` | pkg/reconciler/contour/resources/kingress.go:54-132 | if the listed proxies are the valid deployed form of any list the compiler may return for the prior ingress and no path is non-empty, the child has a rule for a (service, visibility) if and only if the new ingress routes to it or the prior one exposed it at that effective visibility |
| `ProbeIdentity.ProbeHostInjective` | pkg/reconciler/contour/resources/kingress.go:112-112 | for a fixed ingress name the probe host determines service and generation |
| `ProbeIdentity.GenerationSeparation` | pkg/reconciler/contour/resources/kingress.go:105-131 | child specs of different generations differ, unless they have no rule |
| `ProbeIdentity.ChildProxiesDistinct` | pkg/reconciler/contour/resources/kingress.go:105-131 | the child's own compiled proxies differ pairwise in (host, class) |
| `ProbeIdentity.ListingOrder` | pkg/reconciler/contour/resources/kingress.go:83-93 | the child is independent of the order in which the old proxies are listed if and only if they agree about every service that the new generation drops |
| `ProbeIdentity.ListingIrrelevant` | pkg/reconciler/contour/resources/kingress.go:54-132 | under that agreement, listings with the same members give the same child |
| `Unrest.MixedPathsDisagree` | pkg/reconciler/contour/resources/kingress.go:76-93 | old proxies that reach a dropped service by a plain path here and by a prefix there disagree |
| `Unrest.ListingMatters` | pkg/reconciler/contour/resources/kingress.go:54-132 | two valid proxies compiled from one admitted prior ingress, and two orders of listing them that give the admitted next generation different children |
| `ProbeTargets.HostsPerVisibility` | vendor/knative.dev/networking/pkg/ingress/ingress.go:77-90 | maps each key with hosts to exactly the expanded hosts of the rules whose visibility has the key |
| `TargetFields.ExposedExactly` | vendor/knative.dev/networking/pkg/ingress/ingress.go:77-90 | which hosts a key has, in terms of the rules and the configured keys |
| `ProbeTargets.ListSubsets` | pkg/reconciler/contour/lister.go:58-102 | succeeds exactly when the key, its service, its endpoints and all ports resolve; then one target per subset, with that subset's addresses and each host once |
| `ProbeTargets.ListProbeTargets` | pkg/reconciler/contour/lister.go:43-106 | succeeds if and only if every key with hosts resolves, in whatever order keys are visited; then exactly one target per such key and subset, whose fields `TargetFields.TargetFieldsOf` gives |
| `TargetFields.TargetFieldsOf` | pkg/reconciler/contour/lister.go:49-102 | every target of a key: https and 443 exactly when HTTP is redirected and the key is not cluster-local, else http and 80; the pod port is the first of the subset that has the name of the service's first port of that number; the addresses of the subset; one URL per host of the key |
| `TargetFields.FlattenExactly` | pkg/reconciler/contour/lister.go:85-105 | the results are the targets of the keys, one key after the other |
| `TargetFields.ResolvableExactly` | pkg/reconciler/contour/lister.go:58-90 | a key resolves if and only if it denotes a service with endpoints, the service has a port of that number, and every subset has a port of its name |
| `TargetFields.SplitKeyExactly` | pkg/reconciler/contour/lister.go:58-61 | a key denotes a name, or a namespace and a name with one slash in between, and nothing else |
| `TargetFields.SecureExactly` | pkg/reconciler/contour/lister.go:50-56 | scheme and port of a key |
| `ProbeTargets.ProbedHosts` | pkg/reconciler/contour/lister.go:49-76 | the hosts probed under a key are exactly the fqdns of the proxies compiled from rules of that key's visibility |
| `ProbeTargets.EveryProxyProbed` | pkg/reconciler/contour/lister.go:49-102 | when the targets are listed, the fqdn of each compiled proxy is among the URLs of every target of every key of its rule's visibility |
| `ProbeTargets.ServedHostsProbed` | pkg/reconciler/contour/resources/httpproxy.go:315-320 | with keys of different visibilities disjoint, the gateways that serve a host are asked about it if and only if some rule exposes the host under the visibility that serves it |
| `ProbeTargets.ServedHostUnprobed` | pkg/reconciler/contour/resources/httpproxy.go:315-320 | the gap: a cluster-domain host that no cluster-local rule exposes is compiled into the cluster-local class and not asked about there |
| `Witnesses.LocalHostUnprobed` | pkg/reconciler/contour/resources/httpproxy.go:315-320 | an admitted ingress with a cluster-domain host under an external rule, compiled into the cluster-local class and not asked about at the cluster-local gateways |
| `ProbeTargets.OverriddenHostsUnprobed` | pkg/reconciler/contour/resources/httpproxy.go:315-320 | in particular, if no rule shares a key with the cluster-local visibility, its gateways are asked about nothing |
| `Controller.ApiServer.CreateProxy` | pkg/reconciler/contour/contour.go:215-215 | refused when the name is taken; otherwise stored with a fresh resource version, unless the call is lost on the way |
| `Controller.ApiServer.UpdateProxy` | pkg/reconciler/contour/contour.go:230-230 | refused unless the stored resource version is the caller's |
| `Controller.ApiServer.DeleteOlder` | pkg/reconciler/contour/contour.go:253-254 | deletes on the server what the selector selects there; a failing one may have deleted any part of it |
| `Controller.ApiServer.CreateIngress` | pkg/reconciler/contour/contour.go:124-124 | a created ingress starts at generation 1 with an empty status |
| `Controller.ApiServer.UpdateIngress` | pkg/reconciler/contour/contour.go:135-135 | optimistic update of the spec; the generation grows exactly when the spec changes |
| `Controller.ApiServer.DeleteIngress` | pkg/reconciler/contour/contour.go:298-299 | removes the ingress; an error when it is missing |
| `Controller.ApiServer.UpdateStatus` | vendor/knative.dev/networking/pkg/client/injection/reconciler/networking/v1alpha1/ingress/reconciler.go:343-372 | replaces the status only |
| `ServerFields.ProxyCalls` | pkg/reconciler/contour/contour.go:215-230 | creates and updates of proxies: when they are possible, and the stored objects afterwards |
| `ServerFields.IngressCalls` | pkg/reconciler/contour/contour.go:124-135 | the same for creates, spec updates, deletes and status updates of ingresses |
| `ServerFields.SendFields` | pkg/reconciler/contour/contour.go:215-218 | a call reports success exactly when it is possible and accepted, and takes effect exactly when it is possible and not rejected |
| `Controller.Reconciler.ReconcileEndpointProbe` | pkg/reconciler/contour/contour.go:97-155 | refines `Reconcile.ProbeGate` for every fate of its call |
| `Controller.Reconciler.ReconcileGate` | pkg/reconciler/contour/contour.go:83-164 | refines `Reconcile.RunGate` |
| `Controller.Reconciler.ReconcileServices` | pkg/reconciler/contour/contour.go:167-202 | fails exactly when some split of the ingress names a service that does not exist; otherwise the protocols the compiler is given |
| `Controller.Reconciler.ReconcileProxies` | pkg/reconciler/contour/contour.go:204-239 | the create/update loop with its early returns refines `Reconcile.ApplyAll` |
| `Controller.Reconciler.DeleteLeftovers` | pkg/reconciler/contour/contour.go:241-257 | refines `Reconcile.Sweep` |
| `Controller.Reconciler.ReconcileStatus` | pkg/reconciler/contour/contour.go:260-306 | refines `Reconcile.Conclude` |
| `Controller.Reconciler.ReconcileKind` | pkg/reconciler/contour/contour.go:75-308 | the whole method refines the pure `Reconcile.Kind`: same server, number of calls, status, ending; the wanted list is one the compiler may return; the lemmas of `Services` and `ServerFields` say what `Kind` does |
| `Controller.Reconciler.ReconcileStored` | vendor/knative.dev/networking/pkg/client/injection/reconciler/networking/v1alpha1/ingress/reconciler.go:248-311 | with the status pre- and postprocessing and the status write it refines `Reconcile.Step`, the step of the run theorems |
| `Services.KnownExactly` | pkg/reconciler/contour/contour.go:167-186 | no service is missing if and only if every split of every path of every rule names an existing one |
| `Services.MissingServiceFails` | pkg/reconciler/contour/contour.go:174-186 | behind an open gate, a split whose service does not exist makes the reconcile fail, with server, calls and status as the gate left them |
| `Services.ServedGoesOn` | pkg/reconciler/contour/contour.go:174-258 | if every split's service exists, the reconcile goes on to the rollout and, if that succeeds, to the verdict |
| `ServerFields.SelectorFields` | pkg/reconciler/contour/contour.go:91-115 | the selectors: proxies of the ingress at its generation, at any other, and for one target, in the order of the listing |
| `ServerFields.WriteFields` | pkg/reconciler/contour/contour.go:204-239 | a wanted proxy is created when nothing matches parent, host hash and class; skipped when the first match has its labels, annotations and spec; otherwise the first match is updated to those |
| `ServerFields.LoopFields` | pkg/reconciler/contour/contour.go:204-239 | the loop continues exactly as long as no call fails |
| `ServerFields.SweepCall` | pkg/reconciler/contour/contour.go:241-257 | no call when the cache shows nothing of another generation; otherwise one, which deletes what the server has of other generations |
| `ServerFields.SweepFields` | pkg/reconciler/contour/contour.go:253-254 | what the delete-collection selects on the server |
| `ServerFields.GatePasses` | pkg/reconciler/contour/contour.go:86-164 | the gate does nothing for a probe ingress, and with proxies of the generation listed it only looks the child up |
| `ServerFields.GateFields` | pkg/reconciler/contour/contour.go:100-156 | otherwise it creates the child, or updates its spec, or waits until it is ready |
| `ServerFields.ClosedFields` | pkg/reconciler/contour/contour.go:123-151 | a gate that is not open ends the reconcile where it left the server |
| `ServerFields.ConcludeFields` | pkg/reconciler/contour/contour.go:258-307 | the prober is asked exactly when the ingress is not ready at its generation; the child is deleted exactly when there is one and the ingress is ready in the end; the status literally |
| `ServerFields.StatusFields` | pkg/reconciler/contour/contour.go:146-292 | the status of a reconcile, condition by condition, for every ending |
| `ServerFields.ProcessFields` | vendor/knative.dev/pkg/reconciler/reconcile_common.go:51-91 | a new generation makes Ready unknown unless a condition has failed; afterwards the generation counts as observed |
| `ServerFields.StepFields` | vendor/knative.dev/networking/pkg/client/injection/reconciler/networking/v1alpha1/ingress/reconciler.go:263-311 | a reconcile starts from the preprocessed status, and afterwards writes its own status and nothing else, exactly when it has changed, whatever the ending |
| `Framing.GateFrame` | pkg/reconciler/contour/contour.go:83-164 | the gate touches no proxy and at most the child |
| `Framing.ProgramFrame` | pkg/reconciler/contour/contour.go:204-257 | creates, updates and deletes respect the proxy frame, wherever they stop |
| `Framing.StepFrame` | pkg/reconciler/contour/contour.go:205-257 | deletion safety and framing for arbitrarily stale caches and any failures: no proxy at the current generation is lost, nothing of another parent or namespace is overwritten, updated or deleted even when names clash, and only the own ingress and its child are touched |
| `Rollout.ApplyAllEffect` | pkg/reconciler/contour/contour.go:204-239 | the loop, also when it stops half way, removes nothing and changes only wanted names into wanted content; when it completes, every wanted proxy is held |
| `Rollout.ProgramExact` | pkg/reconciler/contour/contour.go:204-257 | exactness of the creates, updates and deletes: exactly the wanted proxies with the wanted labels, annotations and spec remain |
| `Rollout.ProgramNoGap` | pkg/reconciler/contour/contour.go:204-257 | a stored proxy that serves a wanted target stays and keeps serving it, whichever call fails |
| `Steps.OpenGate` | pkg/reconciler/contour/contour.go:119-164 | the gate opens only for a probe ingress, with proxies of the generation listed, or with the cached child ready and its spec right; never in a reconcile that wrote the child |
| `Steps.ClosedGate` | pkg/reconciler/contour/contour.go:146-151 | while the gate is closed, a reconcile leaves every proxy as it is |
| `Steps.FinishedIsExact` | pkg/reconciler/contour/contour.go:204-257 | with a synced cache, a reconcile that returns without error past the gate leaves exactly the wanted proxies of the parent |
| `Steps.NoGap` | pkg/reconciler/contour/contour.go:204-257 | no gap in a whole reconcile, however it ends |
| `Instants.ProgramCut` | pkg/reconciler/contour/contour.go:204-257 | the proxies after the first n calls of a rollout are those that are left when call n is the one that fails |
| `Instants.NoGapAtAnyInstant` | pkg/reconciler/contour/contour.go:204-257 | no gap after any number of calls of a rollout |
| `Instants.NoGapWhileDeleting` | pkg/reconciler/contour/contour.go:253-256 | no gap at any stage of the delete-collection |
| `Steps.ChildRemoved` | pkg/reconciler/contour/contour.go:294-306 | the child is removed only by a reconcile that made the proxies exact and reached readiness at its generation |
| `Worlds.StepAdds` | pkg/reconciler/contour/contour.go:75-308 | a reconcile keeps its own ingress, writes at most its status, and adds at most that status and one state of the child to the history |
| `Worlds.ReconcileInv` | pkg/reconciler/contour/contour.go:75-308 | every reconcile, with any caches and failures, keeps the run invariant: tidy proxies, shaped ingresses, bounded observed generations, unique resource versions |
| `Histories.NextInv` | pkg/reconciler/contour/contour.go:75-308 | every event keeps the run invariant |
| `Histories.RunInv` | pkg/reconciler/contour/contour.go:75-308 | the invariant holds in every state of every run |
| `Histories.MakeBeforeBreak` | pkg/reconciler/contour/contour.go:86-156 | in every run, a stored proxy labelled with a parent and generation implies an earlier reconcile of that parent at that generation that saw the child ready with the spec `MakeEndpointProbeIngress` gives for it |
| `Histories.NoRecursion` | pkg/reconciler/contour/contour.go:83-90 | in every run, every ingress ever stored is an unannotated top-level one or the annotated child of one |
| `Histories.ChildrenHaveNoChildren` | pkg/reconciler/contour/contour.go:83-90 | a reconcile of a child neither creates, updates nor deletes any other ingress |
| `Lifetime.ExactOverRuns` | pkg/reconciler/contour/contour.go:204-257 | exactness at every point of every run |
| `Lifetime.NoGapOverRuns` | pkg/reconciler/contour/contour.go:204-257 | no gap at every point of every run |
| `Lifetime.FreshChildLifetime` | pkg/reconciler/contour/contour.go:153-306 | in every run whose reconciles of the ingress meet fresh caches, while a proxy is at a generation that has not been ready yet, the child exists, even one without rules |
| `Steps.ChildRemovedReady` | pkg/reconciler/contour/contour.go:294-306 | for arbitrarily stale caches, a reconcile that removes the child has programmed the proxies and reached readiness at its generation |
| `ChildOrigin.RunBorn` | pkg/reconciler/contour/contour.go:119-137 | in every run, every state a child ever had was made by `MakeEndpointProbeIngress` for a generation that its parent had reached |
| `ChildOrigin.CurrentChildLifetime` | pkg/reconciler/contour/contour.go:153-306 | in every run, with arbitrarily stale caches and any failures: while proxies of the current generation are out and it has not been ready, the child exists, provided each child that opened its gate probes something or was still stored then |
| `ChildOrigin.LeftBehind` | pkg/reconciler/contour/contour.go:241-257 | after a rollout that went through, proxies of older generations are left if and only if the cache showed none and the server had some |
| `ChildOrigin.RemovalLeaves` | pkg/reconciler/contour/contour.go:241-306 | a reconcile that removes the child leaves older proxies if and only if its cache was blind to them |
| `ChildOrigin.ChildLifetime` | pkg/reconciler/contour/contour.go:153-306 | child lifetime for every generation, current or older, in every run with stale caches in which no reconcile of a later generation is blind to older proxies |
| `Blindness.BlindRemoval` | pkg/reconciler/contour/contour.go:241-306 | without that condition it fails: a run from a fresh admitted ingress in which a lagging proxy cache lets the child go while a proxy of a never-ready generation is left |
| `Blindness.SomeBlindRemoval` | pkg/reconciler/contour/contour.go:241-306 | such a run exists, without any premise |
| `Forgotten.OpeningExactly` | pkg/reconciler/contour/contour.go:119-156 | where the gate opens for a rollout that can go through, every environment keeps a child beside a generation that is not ready if and only if the child is stored at the start |
| `Forgotten.ForgottenChild` | pkg/reconciler/contour/contour.go:119-156 | a run from a fresh admitted ingress whose only path has a prefix, so that its child has no rules: a cached child that is gone opens the gate of the second generation, which is rolled out and not ready without a child |
| `Forgotten.SomeForgottenChild` | pkg/reconciler/contour/contour.go:119-156 | such a run exists, without any premise |
| `StaleSelf.StaleDeletionExactly` | pkg/reconciler/contour/contour.go:241-257 | a reconcile that reads an outdated copy of its own ingress keeps a proxy of another generation, newer ones included, whatever it meets, if and only if its proxy cache shows none of another generation or the gate stays closed for that copy |
| `StaleSelf.StaleDeletes` | pkg/reconciler/contour/contour.go:241-257 | a run from a fresh admitted ingress to a state in which a reconcile of the first generation's copy deletes the proxy of the second |
| `Readiness.KindStatus` | pkg/reconciler/contour/contour.go:258-292 | the complete list of statuses a reconcile may leave, with the ending and the prober's answer that led there |
| `Readiness.SkipsProbe` | pkg/reconciler/contour/contour.go:260-281 | a finished reconcile skips the prober exactly when the load balancer was ready at an observed current generation, and then it reports ready |
| `Readiness.HonestOutcome` | pkg/reconciler/contour/contour.go:262-272 | from an honest status, the recorded status is honest again if and only if the reconcile did not fail before its verdict with a ready load balancer observed at an older, unprobed generation |
| `Readiness.HonestExactly` | pkg/reconciler/contour/contour.go:262-272 | an honest status stays honest whatever the reconcile meets if and only if, before it starts, the load balancer is not ready, or speaks about the current or a confirmed generation, or the cached child has the wanted spec and is not ready |
| `Readiness.LoadBalancerLost` | pkg/reconciler/contour/contour.go:146-151 | a closed gate or a denying prober leaves the load balancer not ready once the status is written |
| `Readiness.LoadBalancerNeedsProbe` | pkg/reconciler/contour/contour.go:258-292 | in every run, between a not-ready and a later ready load balancer there is a reconcile whose prober confirmed |
| `Readiness.ReadyImpliesProbed` | pkg/reconciler/contour/contour.go:258-292 | in every run without a skewing reconcile, ready at a generation implies that the prober confirmed that very generation |
| `Readiness.GuardedRunsAreHonest` | pkg/reconciler/contour/contour.go:258-292 | the same with the condition on what is visible before each reconcile |
| `Unprobed.ReadyUnprobed` | pkg/reconciler/contour/contour.go:262-272 | without that condition it fails: a run from a fresh admitted ingress with a rule, a host and a backend, to a second generation that is rolled out and recorded as ready although the prober never confirmed it |
| `Unprobed.SomeReadyUnprobed` | pkg/reconciler/contour/contour.go:262-272 | such a run exists, without any premise |
| `Scenario.SmallExists` | pkg/reconciler/contour/resources/httpproxy.go:322-345 | the configuration of the small cluster exists: names are concatenated, host hashes do not collide |
| `Scenario.PrefixSpecAdmitted` | vendor/knative.dev/networking/pkg/apis/networking/v1alpha1/ingress_validation.go:35-104 | the same for the ingresses whose path has a prefix |
| `Scenario.OneSpecAdmitted` | vendor/knative.dev/networking/pkg/apis/networking/v1alpha1/ingress_validation.go:35-104 | the ingresses of these runs pass admission |
| `Convergence.AgreementIsSteady` | pkg/reconciler/contour/resources/kingress.go:54-132 | the wanted child spec does not depend on the cache's listing order when the old proxies agree |
| `Convergence.ProgramAccepted` | pkg/reconciler/contour/contour.go:204-257 | without failures, with a synced cache and free names, no create or update is refused |
| `Convergence.SettledIsQuiet` | pkg/reconciler/contour/contour.go:222-229 | a settled ingress causes no call and no write, whatever the environment would answer |
| `Convergence.RoundProgress` | pkg/reconciler/contour/contour.go:91-306 | a cooperative round from an unsettled state strictly decreases the phase |
| `Convergence.Converges` | pkg/reconciler/contour/contour.go:91-306 | in every sequence of cooperative rounds the ingress is settled after two, and from then on no reconcile makes a call |
| `Convergence.QuietExactly` | pkg/reconciler/contour/contour.go:86-164 | a cooperative reconcile that does not find its child waiting changes nothing if and only if everything is settled and at least one proxy is wanted |
| `Convergence.RestsExactly` | pkg/reconciler/contour/contour.go:222-257 | a rollout makes no call if and only if everything wanted is listed with the wanted content and nothing older is |
| `Convergence.RestPossible` | pkg/reconciler/contour/contour.go:222-229 | a wanted list, with or without repeated targets, can come to rest if and only if proxies wanted for the same (host, class) are wanted with the same content |
| `Conflicts.ConsistentExactly` | pkg/reconciler/contour/resources/httpproxy.go:309-356 | the compiled list is consistent if and only if rules that expose the same host under the same class want the same content for it |
| `Conflicts.RestExactly` | pkg/reconciler/contour/contour.go:222-257 | an ingress can come to rest if and only if its rules agree in that sense |
| `Witnesses.TwinsNeverRest` | pkg/reconciler/contour/contour.go:222-230 | an admitted ingress whose two rules send one host to two services: every rollout makes a call, from every state and with every cache |
| `Convergence.ConflictNeverRests` | pkg/reconciler/contour/contour.go:222-229 | two different specs wanted for one (host, class) make every rollout issue a call, from every state |
| `Convergence.EmptyOscillates` | pkg/reconciler/contour/contour.go:86-164 | with no proxy wanted, any two cooperative rounds from a settled state create the child and delete it again, and end as they began |
| `Unrest.HostlessUnrest` | pkg/reconciler/contour/contour.go:86-164 | an admitted ingress whose rule has no hosts, in a run to rest, and the two rounds after which it is at rest again |
| `Unrest.RoundsExist` | pkg/reconciler/contour/contour.go:91-306 | from the start of an admitted ingress, two cooperative rounds in a row lead to rest |
| `Convergence.ChildHelps` | pkg/reconciler/contour/contour.go:83-87 | a reconcile of the child itself that ends well is the help that the rounds ask of the environment |
| `Cooperation.RunCanonical` | pkg/reconciler/contour/resources/httpproxy.go:286-345 | in every run, every proxy with a parent label, a child's included, has the name and labels that follow from parent, class and fqdn |
| `Cooperation.ProbeFinishes` | pkg/reconciler/contour/contour.go:83-87 | a reconcile of a probe ingress without failures, with its names free or its own, ends well |
| `Cooperation.ChildStepHelps` | pkg/reconciler/contour/contour.go:83-87 | a cooperative reconcile of the child, as an event of a run, gets it ready and disturbs nothing of its parent |
| `Cooperation.CooperativeStep` | pkg/reconciler/contour/contour.go:91-306 | no cooperative event raises the phase of a rollout; reconciles of parent and child lower it |
| `Cooperation.ConvergesInRuns` | pkg/reconciler/contour/contour.go:91-306 | in every cooperative stretch of a run, once parent, child and parent have been reconciled in this order, whatever else happens in between, the ingress is settled and stays so, and further reconciles of it make no call |
| `Showcase.ConvergenceRun` | pkg/reconciler/contour/contour.go:91-306 | a run from a fresh admitted ingress that meets all the premises of convergence together, and so settles |
| `Showcase.SomeConvergenceRun` | pkg/reconciler/contour/contour.go:91-306 | such a run exists, without any premise |
| `Convergence.CalmInRuns` | pkg/reconciler/contour/contour.go:91-306 | at every point of every run, synced caches, free names and distinct targets are all that rounds need to begin |
| `Convergence.StartIsCalm` | pkg/reconciler/contour/contour.go:91-306 | the premises are met from the start: every ingress with distinct targets, alone on a server, is calm and begins a run |
| `Convergence.NamesStayFree` | pkg/reconciler/contour/contour.go:204-257 | a reconcile, however it ends, leaves the wanted names free of foreign objects |
| `Sorting.SortedList` | pkg/reconciler/contour/resources/httpproxy.go:310-310 | `sets.List`: the one strictly ascending list of the members |
| `Text.LessExactly` | pkg/reconciler/contour/resources/httpproxy.go:172-172 | Go's string order: a proper prefix comes first, and otherwise the first difference decides |
| `Text.ContainsExactly` | pkg/reconciler/contour/resources/httpproxy.go:233-233 | `strings.Contains`: the text stands somewhere in between |
| `Text.ItoaValue` | pkg/reconciler/contour/resources/httpproxy.go:296-296 | the printed numeral denotes the number and has no leading zero |
| `Text.ItoaInjective` | pkg/reconciler/contour/resources/httpproxy.go:296-296 | decimal numerals determine the number, so the generation label can be represented by it |

## Left out

- Interleaving of two reconciles call by call: reconciles are atomic, with arbitrary failures inside.
- Runs in which reconciles read an outdated copy of their own ingress from the lister: a single such reconcile is treated in `StaleSelf`, but it is not an event of the runs.
- Deletion and re-creation of a top-level ingress, owner-reference garbage collection, finalizers, leader election.
- Reasons, messages and transition times of conditions, and the load balancer addresses in the status.
- The status prober's own cache and HTTP probing: its answer is a parameter.
- Fields that are copied through (timeouts, retries, CORS, extension services, websockets, service namespaces, owner references, labels of the child).
- The internals of SHA-1, `ChildName` and the hash of `InsertProbe`, which are functions in `Config`; rules without an HTTP block.
- Parsing of the configuration, event wiring, logging and diffs.
- Envoy's choice between several matching routes, and case-insensitive header names: routing is stated as which routes match, with exact names.
- Labels other than the four that the controller selects on.
- Errors of listers other than "not found".
- Scenario.OneSpecAdmitted: as for the prefix form, the service namespace, which admission compares with the ingress's own, is not part of the model.
- Convergence.Converges: each round asks for free names and synced caches; Cooperation.ConvergesInRuns asks the same of each reconcile of the parent and of the child.
- Histories.MakeBeforeBreak: the child it speaks of is the one in the reconciler's cache, which may be stale.
- Unprobed.ReadyUnprobed: the runs of the small cluster leave the first child's proxies in place, since garbage collection by owner reference is not modelled.
