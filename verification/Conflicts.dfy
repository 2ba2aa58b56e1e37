/** When an ingress can come to rest at all, read off its rules. */
module Conflicts {
  import opened Model
  import opened Compiler
  import opened Outputs
  import opened Cluster
  import opened Reconcile
  import opened Framing
  import opened Rollout
  import opened Convergence

  /** Rules that expose the same host under the same class want the same content for it. */
  ghost predicate RulesAgree(cfg: Config, ing: Ingress, protos: map<string, string>) {
    forall r, o, r', o', h ::
      Exposes(cfg, ing, r, o, h) && Exposes(cfg, ing, r', o', h)
        && EffectiveClass(cfg, r, o) == EffectiveClass(cfg, r', o')
      ==> ProxyFor(cfg, ing, protos, r, o, h).spec == ProxyFor(cfg, ing, protos, r', o', h).spec
  }

  lemma ProxyIdentity(cfg: Config, ing: Ingress, protos: map<string, string>, r: Rule, o: string, h: string)
    ensures var p, class_ := ProxyFor(cfg, ing, protos, r, o, h), EffectiveClass(cfg, r, o);
            && p.ns == ing.ns
            && p.labels == Labels(Some(ing.name), Some(ing.generation), Some(cfg.sha1(h)), Some(class_))
            && p.annotations == ing.annotations[CLASS_KEY := class_] && p.spec.fqdn == h
  {
    hide RoutesOf, CertificateFor;
  }

  lemma SameTargetSpecs(cfg: Config, ing: Ingress, protos: map<string, string>, r: Rule, o: string, h: string, r': Rule,
                        o': string, h': string)
    requires CollisionFree(cfg)
    ensures var p, p' := ProxyFor(cfg, ing, protos, r, o, h), ProxyFor(cfg, ing, protos, r', o', h');
            && (SameTarget(p, p') <==> h == h' && EffectiveClass(cfg, r, o) == EffectiveClass(cfg, r', o'))
            && (SameTarget(p, p') ==> (Refreshed(p, p') == p <==> p.spec == p'.spec))
  {
    hide ProxyFor, EffectiveClass;
    ProxyIdentity(cfg, ing, protos, r, o, h);
    ProxyIdentity(cfg, ing, protos, r', o', h');
  }

  /** The compiled list is consistent exactly when the rules agree. */
  lemma ConsistentExactly(cfg: Config, ing: Ingress, protos: map<string, string>)
    requires CollisionFree(cfg)
    ensures Consistent(Compile(cfg, ing, protos)) <==> RulesAgree(cfg, ing, protos)
  {
    var ps := Compile(cfg, ing, protos);
    hide Compile, ProxyFor, Exposes, EffectiveClass, SameTarget, CollisionFree, Refreshed;
    if RulesAgree(cfg, ing, protos) {
      forall d, e | d in ps && e in ps && SameTarget(d, e)
        ensures Refreshed(d, e) == d
      {
        var r, o, h := CompileSound(cfg, ing, protos, d);
        var r', o', h' := CompileSound(cfg, ing, protos, e);
        SameTargetSpecs(cfg, ing, protos, r, o, h, r', o', h');
      }
    }
    if Consistent(ps) {
      forall r, o, r', o', h | Exposes(cfg, ing, r, o, h) && Exposes(cfg, ing, r', o', h)
                            && EffectiveClass(cfg, r, o) == EffectiveClass(cfg, r', o')
        ensures ProxyFor(cfg, ing, protos, r, o, h).spec == ProxyFor(cfg, ing, protos, r', o', h).spec
      {
        CompileComplete(cfg, ing, protos, r, o, h);
        CompileComplete(cfg, ing, protos, r', o', h);
        SameTargetSpecs(cfg, ing, protos, r, o, h, r', o', h);
      }
    }
  }

  /** An ingress can come to rest, in some state, if and only if rules that expose the same host
      under the same class want the same content for it. */
  lemma RestExactly(cfg: Config, ing: Ingress, env: Environment)
    requires CollisionFree(cfg) && env.desired == Compile(cfg, ing, Protocols.IngressProtocols(cfg, ing, env.services))
    ensures (exists s: Server, view :: Program(s, view, ing, 0, env).calls == 0)
       <==> RulesAgree(cfg, ing, Protocols.IngressProtocols(cfg, ing, env.services))
  {
    hide Compile, RulesAgree, Consistent, Program, CollisionFree, Protocols.IngressProtocols, Faithful, Identified, Own;
    ConsistentExactly(cfg, ing, Protocols.IngressProtocols(cfg, ing, env.services));
    CompileFaithful(cfg, ing, env);
    FaithfulIdentified(cfg, ing, env);
    RestPossible(ing, env);
  }
}
