/** The probe targets field by field, in the words of the ingress, the configuration and the
    listers. */
module TargetFields {
  import opened Text
  import opened Model
  import opened ProbeTargets

  // ---- Keys and ports --------------------------------------------------------------

  /** The key is a name, or a namespace and a name with one slash in between. */
  ghost predicate Denotes(key: string, nn: NamespacedName) {
    || ('/' !in key && nn.ns == "" && nn.name == key)
    || (key == nn.ns + "/" + nn.name && '/' !in nn.ns && '/' !in nn.name)
  }

  lemma SplitKeyExactly(key: string)
    ensures forall nn :: SplitKey(key) == Some(nn) <==> Denotes(key, nn)
  {
    var i := FirstSlash(key);
    forall nn
      ensures SplitKey(key) == Some(nn) <==> Denotes(key, nn)
    {
      if i == |key| {
        assert key[..i] == key;
      } else {
        assert key == key[..i] + "/" + key[i + 1..];
        assert key[i] in key;
        if key == nn.ns + "/" + nn.name && '/' !in nn.ns && '/' !in nn.name {
          assert key[|nn.ns|] == '/' && key[..|nn.ns|] == nn.ns;
          SlashUnique(key, i, |nn.ns|);
          assert key[i + 1..] == nn.name;
        }
      }
    }
  }

  lemma SlashUnique(key: string, i: nat, j: nat)
    requires i < |key| && j < |key| && key[i] == '/' && key[j] == '/' && '/' !in key[..i] && '/' !in key[..j]
    ensures i == j
  {
  }

  /** The first port with this number. */
  ghost predicate FirstNumbered(ports: seq<ServicePort>, a: int, number: nat) {
    0 <= a < |ports| && ports[a].number == number && forall i :: 0 <= i < a ==> ports[i].number != number
  }

  /** The first port with this name. */
  ghost predicate FirstCalled(ports: seq<ServicePort>, b: int, name: string) {
    0 <= b < |ports| && ports[b].name == name && forall i :: 0 <= i < b ==> ports[i].name != name
  }

  lemma {:induction false} NumberedExactly(ports: seq<ServicePort>, number: nat) returns (a: int)
    ensures NameForPortNumber(ports, number).Some? ==>
              FirstNumbered(ports, a, number) && NameForPortNumber(ports, number).value == ports[a].name
    ensures NameForPortNumber(ports, number).None? ==> forall i :: 0 <= i < |ports| ==> ports[i].number != number
  {
    a := 0;
    if ports != [] && ports[0].number != number {
      a := NumberedExactly(ports[1..], number);
      a := a + 1;
      assert forall i :: 0 < i < |ports| ==> ports[i] == ports[1..][i - 1];
    }
  }

  lemma {:induction false} CalledExactly(ports: seq<ServicePort>, name: string) returns (b: int)
    ensures PortNumberForName(ports, name).Some? ==>
              FirstCalled(ports, b, name) && PortNumberForName(ports, name).value == ports[b].number
    ensures PortNumberForName(ports, name).None? ==> forall i :: 0 <= i < |ports| ==> ports[i].name != name
  {
    b := 0;
    if ports != [] && ports[0].name != name {
      b := CalledExactly(ports[1..], name);
      b := b + 1;
      assert forall i :: 0 < i < |ports| ==> ports[i] == ports[1..][i - 1];
    }
  }

  // ---- Which keys are probed over HTTPS, and about which hosts ---------------------

  /** HTTP is redirected, and the key is not one of the cluster-local gateways. */
  ghost predicate OverHTTPS(cfg: Config, ing: Ingress, key: string) {
    ing.spec.httpOption == Redirected && !("ClusterLocal" in cfg.keys && key in cfg.keys["ClusterLocal"])
  }

  lemma SecureExactly(cfg: Config, ing: Ingress, key: string)
    ensures Secure(cfg, ing, key) <==> OverHTTPS(cfg, ing, key)
    ensures ProbePort(Secure(cfg, ing, key)) == if OverHTTPS(cfg, ing, key) then 443 else 80
    ensures Scheme(Secure(cfg, ing, key)) == if OverHTTPS(cfg, ing, key) then "https" else "http"
    ensures Itoa(ProbePort(Secure(cfg, ing, key))) == if OverHTTPS(cfg, ing, key) then "443" else "80"
  {
    assert Itoa(4) == "4" && Itoa(44) == "44" && Itoa(443) == "443";
    assert Itoa(8) == "8" && Itoa(80) == "80";
  }

  /** A rule whose visibility has the key exposes the host. */
  lemma ExposedExactly(cfg: Config, rules: seq<Rule>, key: string, host: string)
    ensures ExposedUnder(cfg, rules, key, host) <==>
              exists rule, original ::
                && rule in rules && original in rule.hosts && rule.visibility in cfg.keys
                && key in cfg.keys[rule.visibility] && host in ExpandedHosts(cfg.clusterDomain, original)
  {
    hide ExpandedHosts;
  }

  /** The key denotes a service with endpoints, whose first port of this number is `a`, and every
      subset has a port of that port's name. */
  ghost predicate ResolvesTo(g: Gateways, key: string, port: nat, nn: NamespacedName, a: int) {
    && Denotes(key, nn) && nn in g.services && nn in g.endpoints && FirstNumbered(g.services[nn], a, port)
    && forall sub :: sub in g.endpoints[nn] ==> exists b :: FirstCalled(sub.ports, b, g.services[nn][a].name)
  }

  lemma ResolvableExactly(g: Gateways, key: string, port: nat)
    ensures Resolvable(g, key, port) <==> exists nn, a :: ResolvesTo(g, key, port, nn, a)
  {
    SplitKeyExactly(key);
    hide SplitKey, NameForPortNumber, PortNumberForName, Denotes;
    if Resolvable(g, key, port) {
      var nn := SplitKey(key).value;
      var a := NumberedExactly(g.services[nn], port);
      forall sub | sub in g.endpoints[nn]
        ensures exists b :: FirstCalled(sub.ports, b, g.services[nn][a].name)
      {
        var b := CalledExactly(sub.ports, g.services[nn][a].name);
      }
      assert ResolvesTo(g, key, port, nn, a);
    }
    if nn, a :| ResolvesTo(g, key, port, nn, a) {
      assert SplitKey(key) == Some(nn);
      var a' := NumberedExactly(g.services[nn], port);
      assert a' == a;
      forall sub | sub in g.endpoints[nn]
        ensures PortNumberForName(sub.ports, g.services[nn][a].name).Some?
      {
        var b :| FirstCalled(sub.ports, b, g.services[nn][a].name);
        var b' := CalledExactly(sub.ports, g.services[nn][a].name);
      }
    }
  }

  // ---- The targets -----------------------------------------------------------------

  /** The results are the targets of the keys, one key after the other. */
  lemma {:induction false} FlattenExactly(a: seq<seq<ProbeTarget>>, b: seq<seq<ProbeTarget>>, ts: seq<ProbeTarget>)
    ensures Flatten([ts]) == ts && Flatten(a + b) == Flatten(a) + Flatten(b)
  {
    assert [ts][..0] == [];
    if b == [] {
      assert a + b == a;
    } else {
      FlattenExactly(a, b[..|b| - 1], ts);
      assert (a + b)[..|a + b| - 1] == a + b[..|b| - 1];
    }
  }

  /** Every listed target: it belongs to a subset of the endpoints of the service that the key
      denotes; over HTTPS with port 443 or plain with port 80, as the key demands; at the first
      pod port with the name of the service's port; and about every host of the key. */
  lemma TargetFieldsOf(cfg: Config, ing: Ingress, g: Gateways, keys: seq<string>, parts: seq<seq<ProbeTarget>>, i: nat,
                       n: nat)
    returns (nn: NamespacedName, a: int, b: int)
    requires AllTargets(cfg, ing, g, keys, parts) && i < |keys| && n < |parts[i]|
    ensures Denotes(keys[i], nn) && nn in g.services && nn in g.endpoints && |parts[i]| == |g.endpoints[nn]|
    ensures var sub, t, https := g.endpoints[nn][n], parts[i][n], OverHTTPS(cfg, ing, keys[i]);
            && FirstNumbered(g.services[nn], a, if https then 443 else 80)
            && FirstCalled(sub.ports, b, g.services[nn][a].name) && t.podPort == Itoa(sub.ports[b].number)
            && t.port == (if https then "443" else "80")
            && (forall ip :: ip in t.podIPs <==> ip in sub.addresses)
            && (forall u :: u in t.urls <==>
                  u.scheme == (if https then "https" else "http") && ExposedUnder(cfg, ing.spec.rules, keys[i], u.host))
            && (forall x, y :: 0 <= x < y < |t.urls| ==> t.urls[x] != t.urls[y])
  {
    hide ExposedUnder, NoDuplicates, HasHosts, SplitKey, NameForPortNumber, PortNumberForName, Itoa;
    var key := keys[i];
    var secure := Secure(cfg, ing, key);
    SecureExactly(cfg, ing, key);
    SplitKeyExactly(key);
    assert Complete(cfg, ing, g, key, parts[i]);
    var hosts :| HostsOf(cfg, ing, key, hosts) && TargetsFor(g, key, secure, hosts, parts[i]);
    hide Secure, ProbePort, Scheme, Denotes, OverHTTPS;
    nn := SplitKey(key).value;
    var sub := g.endpoints[nn][n];
    assert sub in g.endpoints[nn];
    a := NumberedExactly(g.services[nn], ProbePort(secure));
    b := CalledExactly(sub.ports, g.services[nn][a].name);
    assert TargetFor(g, key, secure, hosts, sub, parts[i][n]);
  }
}
