/** The services of an ingress, read off its rules: a reconcile that passes the gate fails exactly
    when a split of the ingress names a service that does not exist. */
module Services {
  import opened Model
  import opened EndpointProbe
  import opened ProbeCoverage
  import opened Conditions
  import opened Cluster
  import opened Reconcile

  /** Every split of the ingress names a service that exists. */
  ghost predicate AllServed(ing: Ingress, services: map<string, seq<string>>) {
    forall rule, path, split ::
      rule in ing.spec.rules && path in rule.paths && split in path.splits ==> split.service in services
  }

  lemma MentionedExactly(ing: Ingress, n: string)
    ensures n in ServiceTable(ing)
       <==> exists rule, path, split ::
              rule in ing.spec.rules && path in rule.paths && split in path.splits && split.service == n
  {
    var os := RuleOccurrences(ing.spec.rules);
    AbsorbAllSummary(os, n);
    hide RuleOccurrences, AbsorbAll;
    if n in ServiceTable(ing) {
      var o :| o in os && o.service == n;
      RuleOccurrencesMembers(ing.spec.rules, o);
    }
    if rule, path, split :| rule in ing.spec.rules && path in rule.paths && split in path.splits && split.service == n {
      var o := Occurrence(split.service, split.port, rule.visibility, path.rewriteHost, path.path != "");
      RuleOccurrencesMembers(ing.spec.rules, o);
      assert o in os;
    }
  }

  lemma KnownExactly(ing: Ingress, services: map<string, seq<string>>)
    ensures ServicesKnown(ing, services) <==> AllServed(ing, services)
  {
    hide ServiceTable;
    if ServicesKnown(ing, services) {
      forall rule, path, split | rule in ing.spec.rules && path in rule.paths && split in path.splits
        ensures split.service in services
      {
        MentionedExactly(ing, split.service);
      }
    }
    if AllServed(ing, services) {
      forall n | n in ServiceTable(ing)
        ensures n in services
      {
        MentionedExactly(ing, n);
      }
    }
  }

  /** Behind an open gate, a split whose service does not exist makes the reconcile fail, with the
      server, the number of calls and the status as the gate left them. */
  lemma MissingServiceFails(cfg: Config, s: Server, views: Views, ing: Ingress, status: Status, env: Environment,
                            rule: Rule, path: Path, split: Split)
    requires rule in ing.spec.rules && path in rule.paths && split in path.splits
    requires split.service !in env.services && RunGate(cfg, s, views, ing, env).verdict.Open?
    ensures var gate, o := RunGate(cfg, s, views, ing, env), Kind(cfg, s, views, ing, status, env);
            && o.server == gate.server && o.calls == gate.calls && o.status == status
            && o.ending == Failed && !o.asked
  {
    hide RunGate, Program, Conclude, ServicesKnown;
    KnownExactly(ing, env.services);
  }

  /** If all of them exist, it goes on to program the proxies. */
  lemma ServedGoesOn(cfg: Config, s: Server, views: Views, ing: Ingress, status: Status, env: Environment)
    requires AllServed(ing, env.services) && RunGate(cfg, s, views, ing, env).verdict.Open?
    ensures var gate, o := RunGate(cfg, s, views, ing, env), Kind(cfg, s, views, ing, status, env);
            var done := Program(gate.server, views.proxies, ing, gate.calls, env);
            var configured := MarkNetworkConfigured(status);
            if done.ok then
              o == Conclude(cfg, done.server, done.calls, ing, configured, gate.verdict.haveProbe, env)
            else
              o == Outcome(done.server, done.calls, status, Failed, false)
  {
    hide RunGate, Program, Conclude, ServicesKnown;
    KnownExactly(ing, env.services);
  }
}
