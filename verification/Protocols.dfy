/** The upstream protocol of a service: chosen from its port names by the reconciler, applied
    by the compiler. */
module Protocols {
  import opened Text
  import opened Model
  import opened Headers
  import opened Compiler
  import opened Outputs
  import opened EndpointProbe

  const H2C := "h2c"
  const INTERNAL_H2 := "h2"
  const INTERNAL_TLS := "tls"

  /** With internal TLS the first port alone decides; otherwise any http2 port does. */
  function PortProtocol(internalTLS: bool, ports: seq<string>): Option<string> {
    if internalTLS then
      if ports == [] then None else if ports[0] == PORT_NAME_H2C then Some(INTERNAL_H2) else Some(INTERNAL_TLS)
    else
      if PORT_NAME_H2C in ports then Some(H2C) else None
  }

  /** The loop over a service's ports. */
  method SelectProtocol(internalTLS: bool, ports: seq<string>) returns (r: Option<string>)
    ensures r == PortProtocol(internalTLS, ports)
  {
    r := None;
    for i := 0 to |ports|
      invariant r == None && PORT_NAME_H2C !in ports[..i]
      invariant internalTLS ==> i == 0
    {
      if ports[i] == PORT_NAME_H2C {
        if internalTLS {
          r := Some(INTERNAL_H2);
        } else {
          r := Some(H2C);
        }
        return;
      } else if internalTLS {
        r := Some(INTERNAL_TLS);
        return;
      }
    }
  }

  /** The protocols of the named services, where they exist and have one. */
  function ProtocolMap(internalTLS: bool, names: set<string>, services: map<string, seq<string>>): map<string, string> {
    map n | n in names && n in services
      && PortProtocol(internalTLS, services[n]).Some? :: PortProtocol(internalTLS, services[n]).value
  }

  /** The loop over the services of an ingress; it stops at the first one that is missing. */
  method EstablishProtocols(internalTLS: bool, names: seq<string>, services: map<string, seq<string>>)
    returns (ok: bool, protos: map<string, string>)
    ensures ok <==> forall n :: n in names ==> n in services
    ensures ok ==> protos == ProtocolMap(internalTLS, (set n | n in names), services)
  {
    protos := map[];
    for i := 0 to |names|
      invariant forall n :: n in names[..i] ==> n in services
      invariant protos == ProtocolMap(internalTLS, (set n | n in names[..i]), services)
    {
      assert names[..i + 1] == names[..i] + [names[i]];
      if names[i] !in services {
        return false, protos;
      }
      var proto := SelectProtocol(internalTLS, services[names[i]]);
      if proto.Some? {
        protos := protos[names[i] := proto.value];
      }
    }
    assert names[..|names|] == names;
    ok := true;
  }

  /** The protocols the compiler is given for an ingress. */
  function IngressProtocols(cfg: Config, ing: Ingress, services: map<string, seq<string>>): map<string, string> {
    ProtocolMap(cfg.internalTLS, ServiceTable(ing).Keys, services)
  }

  /** The path of an ACME http-01 challenge, section 8.3 of RFC 8555. */
  ghost predicate LeadsToChallenge(path: string) {
    exists front, rest :: path == front + "/.well-known/acme-challenge" + rest
  }

  /** The protocol a backend ends up with, in closed form. */
  ghost function UpstreamProtocol(internalTLS: bool, ports: seq<string>, path: Path, split: Split): Option<string> {
    if LeadsToChallenge(path.path) then None
    else if internalTLS then
      if ports == [] then None
      else if path.rewriteHost != "" && "K-Original-Host" in split.appendHeaders then Some("h2c")
      else if ports[0] == "http2" then Some("h2")
      else Some("tls")
    else
      if "http2" in ports then Some("h2c") else None
  }

  lemma ChallengeExactly(path: Path)
    ensures IsHTTPChallenge(path) <==> LeadsToChallenge(path.path)
  {
    hide Contains;
    ContainsExactly(path.path, HTTP_CHALLENGE_PATH);
  }

  lemma {:induction false} SplitInTable(rules: seq<Rule>, rule: Rule, path: Path, split: Split)
    requires rule in rules && path in rule.paths && split in path.splits
    ensures split.service in AbsorbAll(map[], RuleOccurrences(rules))
  {
    var os := RuleOccurrences(rules);
    if rule != rules[|rules| - 1] {
      SplitInTable(rules[..|rules| - 1], rule, path, split);
      AbsorbAllSummary(RuleOccurrences(rules[..|rules| - 1]), split.service);
    } else {
      SplitInPaths(rule.visibility, rule.paths, path, split);
    }
    AbsorbAllSummary(os, split.service);
  }

  lemma {:induction false} SplitInPaths(visibility: string, paths: seq<Path>, path: Path, split: Split)
    requires path in paths && split in path.splits
    ensures Mentions(PathOccurrences(visibility, paths), split.service)
  {
    if path != paths[|paths| - 1] {
      SplitInPaths(visibility, paths[..|paths| - 1], path, split);
    } else {
      var i :| 0 <= i < |path.splits| && path.splits[i] == split;
      assert SplitOccurrences(visibility, path, path.splits)[i].service == split.service;
    }
  }

  /** End to end, from port names to the compiled proxy: every backend of every route, probe
      copies included, has the closed-form protocol, and validates its upstream exactly when
      internal TLS is on and the path is not an ACME challenge. */
  lemma UpstreamEndToEnd(cfg: Config, ing: Ingress, services: map<string, seq<string>>,
                         rule: Rule, originalHost: string, host: string, path: Path, split: Split, j: nat, i: nat)
    requires Exposes(cfg, ing, rule, originalHost, host)
    requires j < |rule.paths| && rule.paths[j] == path && i < |path.splits| && path.splits[i] == split
    requires split.service in services
    ensures var routes := ProxyFor(cfg, ing, IngressProtocols(cfg, ing, services), rule, originalHost,
                                   host).spec.routes;
            && |routes| == 2 * |rule.paths|
            && forall r :: r in {routes[j], routes[|rule.paths| + j]} ==>
                 && |r.services| == |path.splits|
                 && r.services[i].protocol == UpstreamProtocol(cfg.internalTLS, services[split.service], path, split)
                 && r.services[i].upstreamValidation == (cfg.internalTLS && !LeadsToChallenge(path.path))
  {
    var protos, hash := IngressProtocols(cfg, ing, services), SpecHash(cfg, ing);
    SplitInTable(ing.spec.rules, rule, path, split);
    KnownProtocol(cfg, ing, services, split.service);
    hide IngressProtocols, AbsorbAll, RuleOccurrences, ProxyFor, RouteOf, UpstreamProtocol, Exposes, PortProtocol,
         IsHTTPChallenge;
    RoutesAt(cfg, ing, protos, rule, originalHost, host, j);
    BackendProtocol(cfg, protos, services, ing.spec.httpOption, rule.visibility, path, split, i);
    BackendProtocol(cfg, protos, services, ing.spec.httpOption, rule.visibility, ProbePath(path, hash), split, i);
    ProbeProtocol(cfg, services, path, split, hash);
  }

  lemma KnownProtocol(cfg: Config, ing: Ingress, services: map<string, seq<string>>, service: string)
    requires service in ServiceTable(ing) && service in services
    ensures var protos, proto := IngressProtocols(cfg, ing, services), PortProtocol(cfg.internalTLS, services[service]);
            if service in protos then proto == Some(protos[service]) else proto == None
  {
    hide AbsorbAll, RuleOccurrences;
  }

  /** The routes of a path: its probe copy in the first half, the path itself in the second. */
  lemma RoutesAt(cfg: Config, ing: Ingress, protos: map<string, string>, rule: Rule, originalHost: string, host: string,
                 j: nat)
    requires j < |rule.paths|
    ensures var routes, n := ProxyFor(cfg, ing, protos, rule, originalHost, host).spec.routes, |rule.paths|;
            && |routes| == 2 * n
            && routes[j]
              == RouteOf(cfg, protos, ing.spec.httpOption, rule.visibility,
                         ProbePath(rule.paths[j], SpecHash(cfg, ing)))
            && routes[n + j] == RouteOf(cfg, protos, ing.spec.httpOption, rule.visibility, rule.paths[j])
  {
    hide CertificateFor, RouteOf, ProbePath;
    var paths := WithProbes(rule.paths, SpecHash(cfg, ing));
    assert paths[j] == ProbePath(rule.paths[j], SpecHash(cfg, ing)) && paths[|rule.paths| + j] == rule.paths[j];
  }

  lemma BackendProtocol(cfg: Config, protos: map<string, string>, services: map<string, seq<string>>,
                        option: HTTPOption, visibility: string, path: Path, split: Split, i: nat)
    requires i < |path.splits| && path.splits[i] == split && split.service in services
    requires var proto := PortProtocol(cfg.internalTLS, services[split.service]);
             if split.service in protos then proto == Some(protos[split.service]) else proto == None
    ensures var r := RouteOf(cfg, protos, option, visibility, path);
            && |r.services| == |path.splits|
            && r.services[i].protocol == UpstreamProtocol(cfg.internalTLS, services[split.service], path, split)
            && r.services[i].upstreamValidation == (cfg.internalTLS && !LeadsToChallenge(path.path))
  {
    ChallengeExactly(path);
    hide HeaderList, Conditions, PreSplitHeaders, Contains, LeadsToChallenge;
  }

  lemma ProbeProtocol(cfg: Config, services: map<string, seq<string>>, path: Path, split: Split, hash: string)
    requires split.service in services
    ensures UpstreamProtocol(cfg.internalTLS, services[split.service], ProbePath(path, hash), split)
         == UpstreamProtocol(cfg.internalTLS, services[split.service], path, split)
    ensures LeadsToChallenge(ProbePath(path, hash).path) <==> LeadsToChallenge(path.path)
  {
    hide LeadsToChallenge;
  }
}
