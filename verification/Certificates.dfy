/** Which certificate a host gets, read off the rules and TLS entries of the ingress. */
module Certificates {
  import opened Model
  import opened Compiler
  import opened Outputs

  /** Entry `j` covers all hosts of rule `i`, which has this visibility; and no rule of this
      visibility up to it is without hosts. */
  ghost predicate Covers(tls: seq<TLS>, rules: seq<Rule>, visibility: string, i: int, j: int) {
    && 0 <= i < |rules| && 0 <= j < |tls|
    && rules[i].visibility == visibility
    && (forall n :: 0 <= n <= i && rules[n].visibility == visibility ==> rules[n].hosts != [])
    && (forall h :: h in rules[i].hosts ==> h in tls[j].hosts)
  }

  /** ... and lists the host. */
  ghost predicate CertifiedBy(tls: seq<TLS>, rules: seq<Rule>, visibility: string, host: string, i: int, j: int) {
    Covers(tls, rules, visibility, i, j) && host in tls[j].hosts
  }

  /** The last such pair: the last rule, and for it the last entry. */
  ghost predicate LastCertified(tls: seq<TLS>, rules: seq<Rule>, visibility: string, host: string, i: int, j: int) {
    && CertifiedBy(tls, rules, visibility, host, i, j)
    && forall m, n :: CertifiedBy(tls, rules, visibility, host, m, n) ==> m < i || (m == i && n <= j)
  }

  // ---- The list of certificates ----------------------------------------------------

  lemma {:induction false} ListedConcat(a: seq<TLS>, b: seq<TLS>, host: string)
    ensures Listed(a + b, host) <==> Listed(a, host) || Listed(b, host)
    ensures Listed(a + b, host)
         ==> LastFor(a + b, host) == if Listed(b, host) then LastFor(b, host) else LastFor(a, host)
  {
    if b == [] {
      assert a + b == a;
    } else {
      ListedConcat(a, b[..|b| - 1], host);
      assert (a + b)[..|a + b| - 1] == a + b[..|b| - 1];
    }
  }

  /** The last entry of a list that covers the hosts and lists this one. */
  lemma {:induction false} LastCovering(tls: seq<TLS>, hosts: seq<string>, host: string) returns (j: int)
    ensures Listed(Covering(tls, hosts), host) ==> 0 <= j < |tls| && LastFor(Covering(tls, hosts), host) == tls[j]
    ensures Listed(Covering(tls, hosts), host)
         ==> (forall h :: h in hosts ==> h in tls[j].hosts) && host in tls[j].hosts
    ensures forall n :: 0 <= n < |tls| && (forall h :: h in hosts ==> h in tls[n].hosts) && host in tls[n].hosts ==>
              Listed(Covering(tls, hosts), host) && n <= j
  {
    j := -1;
    if tls != [] {
      var first := if CoversHosts(tls[0], hosts) then [tls[0]] else [];
      var k := LastCovering(tls[1..], hosts, host);
      ListedConcat(first, Covering(tls[1..], hosts), host);
      assert first != [] ==> first[..0] == [];
      j := if Listed(Covering(tls[1..], hosts), host) then k + 1 else 0;
      forall n | 0 <= n < |tls| && (forall h :: h in hosts ==> h in tls[n].hosts) && host in tls[n].hosts
        ensures Listed(Covering(tls, hosts), host) && n <= j
      {
        if n > 0 {
          assert tls[1..][n - 1] == tls[n];
        }
      }
    }
  }

  lemma CertifiedShift(tls: seq<TLS>, rules: seq<Rule>, visibility: string, host: string, i: int, j: int)
    requires rules != []
    ensures 0 < i && (rules[0].visibility != visibility || rules[0].hosts != []) ==>
              (CertifiedBy(tls, rules, visibility, host, i, j)
               <==> CertifiedBy(tls, rules[1..], visibility, host, i - 1, j))
    ensures rules[0].visibility == visibility && rules[0].hosts == []
         ==> !CertifiedBy(tls, rules, visibility, host, i, j)
  {
    if 0 < i < |rules| {
      assert rules[1..][i - 1] == rules[i];
      assert forall n :: 0 < n <= i ==> rules[1..][n - 1] == rules[n];
      assert forall n :: 0 <= n <= i - 1 ==> rules[1..][n] == rules[n + 1];
    }
  }

  /** A host is listed exactly when some pair certifies it, and the list's last entry for it is
      the one of the last such pair. */
  lemma {:induction false} LastInRules(tls: seq<TLS>, rules: seq<Rule>, visibility: string, host: string)
    returns (i: int, j: int)
    ensures var list := TLSForRules(tls, rules, visibility);
            && (Listed(list, host)
                ==> LastCertified(tls, rules, visibility, host, i, j) && LastFor(list, host) == tls[j])
            && (!Listed(list, host) ==> forall m, n :: !CertifiedBy(tls, rules, visibility, host, m, n))
  {
    i, j := -1, -1;
    if rules != [] {
      var list := TLSForRules(tls, rules, visibility);
      forall m, n
        ensures 0 < m && (rules[0].visibility != visibility || rules[0].hosts != []) ==>
                  (CertifiedBy(tls, rules, visibility, host, m, n)
                   <==> CertifiedBy(tls, rules[1..], visibility, host, m - 1, n))
        ensures rules[0].visibility == visibility && rules[0].hosts == []
                ==> !CertifiedBy(tls, rules, visibility, host, m, n)
      {
        CertifiedShift(tls, rules, visibility, host, m, n);
      }
      if rules[0].visibility != visibility || rules[0].hosts != [] {
        var a, b := LastInRules(tls, rules[1..], visibility, host);
        var c := LastCovering(tls, rules[0].hosts, host);
        ListedConcat(Covering(tls, rules[0].hosts), TLSForRules(tls, rules[1..], visibility), host);
        var later := TLSForRules(tls, rules[1..], visibility);
        hide TLSForRules, Covering, Listed, LastFor, CertifiedBy;
        if Listed(later, host) {
          i, j := a + 1, b;
        } else if rules[0].visibility == visibility && Listed(Covering(tls, rules[0].hosts), host) {
          i, j := 0, c;
        }
        FirstOnly(tls, rules, visibility, host);
      }
    }
  }

  lemma FirstOnly(tls: seq<TLS>, rules: seq<Rule>, visibility: string, host: string)
    requires rules != []
    ensures forall m, n :: CertifiedBy(tls, rules, visibility, host, m, n) ==> m >= 0
    ensures forall n :: CertifiedBy(tls, rules, visibility, host, 0, n)
              <==> 0 <= n < |tls| && rules[0].visibility == visibility && rules[0].hosts != []
                   && (forall h :: h in rules[0].hosts ==> h in tls[n].hosts) && host in tls[n].hosts
  {
  }

  // ---- The secret of a proxy -------------------------------------------------------

  /** No entry certifies the host under this visibility. */
  ghost predicate Uncertified(spec: IngressSpec, visibility: string, host: string) {
    forall i, j :: !CertifiedBy(spec.tls, spec.rules, visibility, host, i, j)
  }

  /** Inserting the probe paths does not matter. */
  lemma ProbesCertify(cfg: Config, ing: Ingress, visibility: string, host: string, i: int, j: int)
    ensures var probed := InsertProbe(cfg, ing).spec;
            CertifiedBy(probed.tls, probed.rules, visibility, host, i, j)
            <==> CertifiedBy(ing.spec.tls, ing.spec.rules, visibility, host, i, j)
  {
    hide WithProbes, SpecHash;
    var probed := InsertProbe(cfg, ing).spec;
    assert forall n :: 0 <= n < |ing.spec.rules| ==>
             probed.rules[n].hosts == ing.spec.rules[n].hosts
               && probed.rules[n].visibility == ing.spec.rules[n].visibility;
  }

  lemma CertificateExactly(cfg: Config, ing: Ingress, visibility: string, host: string) returns (i: int, j: int)
    ensures var list := TLSForVisibility(InsertProbe(cfg, ing).spec, visibility);
            && (Listed(list, host) ==>
                  LastCertified(ing.spec.tls, ing.spec.rules, visibility, host, i, j)
                    && LastFor(list, host) == ing.spec.tls[j])
            && (!Listed(list, host) ==> Uncertified(ing.spec, visibility, host))
  {
    var probed := InsertProbe(cfg, ing).spec;
    i, j := LastInRules(probed.tls, probed.rules, visibility, host);
    hide TLSForRules, Listed, LastFor, CertifiedBy;
    forall m, n
      ensures CertifiedBy(probed.tls, probed.rules, visibility, host, m, n)
         <==> CertifiedBy(ing.spec.tls, ing.spec.rules, visibility, host, m, n)
    {
      ProbesCertify(cfg, ing, visibility, host, m, n);
    }
    assert probed.tls == ing.spec.tls;
  }

  /** The secret of a compiled proxy: that of the last entry which covers a cluster-local rule and
      lists the host, as namespace/name; else that of the last one for an external rule; else
      the default secret, exactly under external rules; else none. */
  lemma ProxySecret(cfg: Config, ing: Ingress, protos: map<string, string>, rule: Rule, original: string, host: string)
    returns (visibility: string, i: int, j: int)
    ensures var secret := ProxyFor(cfg, ing, protos, rule, original, host).spec.tlsSecret;
            || (visibility == "ClusterLocal"
                && LastCertified(ing.spec.tls, ing.spec.rules, "ClusterLocal", host, i, j)
                && secret == Some(ing.spec.tls[j].secretNamespace + "/" + ing.spec.tls[j].secretName))
            || (visibility == "ExternalIP" && Uncertified(ing.spec, "ClusterLocal", host)
                && LastCertified(ing.spec.tls, ing.spec.rules, "ExternalIP", host, i, j)
                && secret == Some(ing.spec.tls[j].secretNamespace + "/" + ing.spec.tls[j].secretName))
            || (visibility == "" && Uncertified(ing.spec, "ClusterLocal", host)
                && Uncertified(ing.spec, "ExternalIP", host)
                && secret == if rule.visibility == "ExternalIP" then cfg.defaultTLSSecret else None)
  {
    hide RoutesOf, TLSForRules, Listed, LastFor, LastCertified, Uncertified;
    var a, b := CertificateExactly(cfg, ing, CLUSTER_LOCAL, host);
    var c, d := CertificateExactly(cfg, ing, EXTERNAL_IP, host);
    var probed := InsertProbe(cfg, ing).spec;
    if Listed(TLSForVisibility(probed, CLUSTER_LOCAL), host) {
      visibility, i, j := "ClusterLocal", a, b;
    } else if Listed(TLSForVisibility(probed, EXTERNAL_IP), host) {
      visibility, i, j := "ExternalIP", c, d;
    } else {
      visibility, i, j := "", -1, -1;
    }
  }
}
