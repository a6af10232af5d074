/** What is recorded stays recorded, whatever the outside world answers. */
module AgentHistory {
  import opened Contracts
  import opened AgentTypes
  import opened AgentModel

  /** The native history is only extended, and no logged row is lost or changed. */
  ghost predicate Extended(d: Durable, e: Durable) {
    && d.trace <= e.trace
    && forall c :: c in d.outcomes ==> c in e.outcomes && e.outcomes[c] == d.outcomes[c]
  }

  lemma BodyExtends(env: Env, cfg: Config, g: Graph, s: St)
    ensures Extended(s.d, Body(env, cfg, g, s).s.d)
  {
    hide Body;
    var r := Body(env, cfg, g, s);
    assert Taught(cfg, g, s, r);
    if r.s.d.outcomes != s.d.outcomes {
      forall c | c in s.d.outcomes ensures c in r.s.d.outcomes && r.s.d.outcomes[c] == s.d.outcomes[c] {
        assert c in r.s.d.outcomes - {g.cycle};
      }
    }
  }

  lemma StepExtends(env: Env, cfg: Config, g: Graph, s: St)
    ensures Extended(s.d, Step(env, cfg, g, s).s.d)
  {
    hide Body;
    hide Failed;
    hide DrawOutside;
    BodyExtends(env, cfg, g, s);
  }

  lemma {:induction false} InvokeExtends(env: Env, cfg: Config, g: Graph, s: St, limit: nat)
    ensures Extended(s.d, Invoke(env, cfg, g, s, limit).s.d)
    decreases limit
  {
    hide Step;
    if !g.next.End? && limit > 0 {
      StepExtends(env, cfg, g, s);
      var r := Step(env, cfg, g, s);
      if r.Ok? { InvokeExtends(env, cfg, r.v, r.s, limit - 1); }
    }
  }

  lemma RunExtends(env: Env, cfg: Config, s: St)
    ensures Extended(s.d, Run(env, cfg, s).s.d)
  {
    hide Ready;
    hide Invoke;
    hide Cleanup;
    hide AdapterRestore;
    hide DrawOutside;
    hide Retaining;
    ReadyExtends(env, cfg, s);
    var r := Ready(env, cfg, s);
    if r.Ok? { InvokeExtends(env, cfg, r.v, r.s, RecursionLimit(cfg)); }
  }

  lemma ReadyExtends(env: Env, cfg: Config, s: St)
    ensures Extended(s.d, Ready(env, cfg, s).s.d)
  {
    hide DrawOutside;
  }

  /** No later invocation, crash or error takes back a native event or a logged outcome. */
  lemma {:induction false} HistoryOnlyGrows(env: Env, cfgs: nat -> Config, k: nat, m: nat)
    requires k <= m
    ensures Extended(Life(env, cfgs, k).d, Life(env, cfgs, m).d)
    decreases m
  {
    hide Run;
    if k < m {
      HistoryOnlyGrows(env, cfgs, k, m - 1);
      RunExtends(env, cfgs(m - 1), Life(env, cfgs, m - 1));
    }
  }
}
