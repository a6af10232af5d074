/** Every run ends: at most twelve node steps per cycle whatever happens, and in fact at most seven. */
module AgentTermination {
  import opened Contracts
  import opened AgentTypes
  import opened AgentModel
  import opened AgentInvariant
  import opened AgentSteps
  import opened AgentChecks
  import opened AgentRuns

  // ---------------------------------------------------------------- the measure

  predicate TimelyLessons(cfg: Config, lessons: map<nat, LessonPatch>) {
    forall c :: c in lessons ==> lessons[c] == LessonPatch(c + 1 >= cfg.maxCycles)
  }

  /** What keeps the measure meaningful, without any assumption on the outside world. */
  predicate Timely(cfg: Config, g: Graph, lessons: map<nat, LessonPatch>) {
    g.attempt <= 1 && (g.next.End? || g.cycle < cfg.maxCycles) && TimelyLessons(cfg, lessons)
  }

  /** Nodes left in the current attempt. */
  function NodesLeft(g: Graph): nat {
    match g.next
    case Planner => 6
    case Executor => if g.operation.Restore? then 2 else 4
    case Validator => if g.phase.Precheck? then 5 else if g.phase.Postcheck? then 3 else 1
    case End => 0
  }

  /** Cycles, then attempts, then nodes. */
  function StepsLeft(cfg: Config, g: Graph): nat
    requires g.attempt <= 1 && (g.next.End? || g.cycle < cfg.maxCycles)
  {
    if g.next.End? then 0 else (cfg.maxCycles - 1 - g.cycle) * 12 + (1 - g.attempt) * 6 + NodesLeft(g)
  }

  /** The same, when only the planner's own proposal is ever retried. */
  function QuietStepsLeft(cfg: Config, g: Graph): nat
    requires g.next.End? || g.cycle < cfg.maxCycles
  {
    if g.next.End? then 0
    else (cfg.maxCycles - 1 - g.cycle) * 7 + if g.next.Planner? && g.attempt == 0 then 7 else NodesLeft(g)
  }

  /** `g1` is further along than `g`, by both measures. */
  predicate Further(cfg: Config, g: Graph, g1: Graph, lessons: map<nat, LessonPatch>)
    requires g.attempt <= 1 && (g.next.End? || g.cycle < cfg.maxCycles)
  {
    Timely(cfg, g1, lessons) && StepsLeft(cfg, g1) < StepsLeft(cfg, g) && QuietStepsLeft(cfg, g1) < QuietStepsLeft(cfg, g)
  }

  // ---------------------------------------------------------------- one node

  lemma PlannerAdvances(env: Env, cfg: Config, g: Graph, s: St)
    requires Timely(cfg, g, s.d.lessons) && g.next.Planner?
    ensures var r := PlannerNode(env, cfg, g, s); r.Ok? ==> Further(cfg, g, r.v, r.s.d.lessons)
  {
    hide CycleInputs;
    hide Propose;
    hide Offer;
    hide AcceptedBefore;
    hide TimelyLessons;
  }

  lemma PrecheckAdvances(env: Env, cfg: Config, g: Graph, s: St)
    requires Timely(cfg, g, s.d.lessons) && g.next.Validator? && g.phase.Precheck?
    ensures var r := PrecheckNode(env, cfg, g, s); r.Ok? ==> Further(cfg, g, r.v, r.s.d.lessons)
  {
    hide CheckProposal;
    hide Offer;
    hide Put;
    hide TimelyLessons;
    hide PolicyAction;
  }

  lemma ExecutorAdvances(env: Env, cfg: Config, g: Graph, s: St)
    requires Timely(cfg, g, s.d.lessons) && g.next.Executor?
    ensures var r := ExecutorNode(env, cfg, g, s); r.Ok? ==> Further(cfg, g, r.v, r.s.d.lessons)
  {
    hide Execution;
    hide TimelyLessons;
    hide RequestMatches;
    hide KeyOf;
    hide BindingOf;
  }

  /** A finished cycle: the lesson ends the run exactly at the limit. */
  lemma FinishAdvances(env: Env, cfg: Config, g: Graph, g1: Graph, s: St)
    requires Timely(cfg, g, s.d.lessons) && g.next.Validator? && g1.cycle == g.cycle
    ensures var r := Finish(env, cfg, g1, s); r.Ok? ==> Further(cfg, g, r.v, r.s.d.lessons)
  {
    hide Learn;
  }

  lemma ValidatorAdvances(env: Env, cfg: Config, g: Graph, s: St)
    requires Timely(cfg, g, s.d.lessons) && g.next.Validator?
    ensures var r := ValidatorNode(env, cfg, g, s); r.Ok? ==> Further(cfg, g, r.v, r.s.d.lessons)
  {
    hide CheckEffect;
    hide CheckRestoration;
    hide PrecheckNode;
    hide Finish;
    hide TimelyLessons;
    hide PolicyAction;
    hide Put;
    if g.phase.Precheck? {
      PrecheckAdvances(env, cfg, g, s);
    } else if g.phase.Postcheck? {
      var r1 := if g.cycle in s.d.postchecks then Ok(s, s.d.postchecks[g.cycle]) else CheckEffect(env, cfg, g, s);
      if r1.Ok? { FinishAdvances(env, cfg, g, Postchecked(g, r1.v), r1.s); }
    } else if g.phase.RestoreCheck? {
      var r1 := if g.cycle in s.d.restorations then Ok(s, s.d.restorations[g.cycle]) else CheckRestoration(env, cfg, g, s);
      if r1.Ok? { FinishAdvances(env, cfg, g, g.(active := NoRef, verdict := r1.v.verdict), r1.s); }
    }
  }

  lemma BodyAdvances(env: Env, cfg: Config, g: Graph, s: St)
    requires Timely(cfg, g, s.d.lessons) && !g.next.End?
    ensures var r := Body(env, cfg, g, s);
      TimelyLessons(cfg, r.s.d.lessons) && (r.Ok? ==> Further(cfg, g, r.v, r.s.d.lessons))
  {
    hide PlannerNode;
    hide ExecutorNode;
    hide ValidatorNode;
    hide Further;
    match g.next
    case Planner => PlannerAdvances(env, cfg, g, s);
    case Executor => ExecutorAdvances(env, cfg, g, s);
    case Validator => ValidatorAdvances(env, cfg, g, s);
  }

  /** A failed node: the retry starts a shorter attempt, and any other failure ends the graph. */
  lemma FailedAdvances(cfg: Config, g: Graph, code: Code, lessons: map<nat, LessonPatch>)
    requires Timely(cfg, g, lessons) && !g.next.End?
    ensures Timely(cfg, Failed(g, code), lessons) && StepsLeft(cfg, Failed(g, code)) < StepsLeft(cfg, g)
    ensures (Retryable(code) ==> g.next.Planner?) ==> QuietStepsLeft(cfg, Failed(g, code)) < QuietStepsLeft(cfg, g)
  {
    hide TimelyLessons;
  }

  /** One step moves the checkpoint forward whatever the outside world does. */
  lemma StepAdvances(env: Env, cfg: Config, g: Graph, s: St)
    requires Timely(cfg, g, s.d.lessons) && !g.next.End?
    ensures var r := Step(env, cfg, g, s);
      r.s.d.context == s.d.context && TimelyLessons(cfg, r.s.d.lessons)
      && (r.Fail? ==> r.s.d.graph == s.d.graph)
      && (r.Ok? ==> r.s.d.graph == Some(r.v) && Timely(cfg, r.v, r.s.d.lessons) && StepsLeft(cfg, r.v) < StepsLeft(cfg, g))
  {
    hide Body;
    hide TimelyLessons;
    hide DrawOutside;
    hide Failed;
    BodyAdvances(env, cfg, g, s);
    var r := Body(env, cfg, g, s);
    if r.Fail? && r.why.Raise? { FailedAdvances(cfg, g, r.why.code, r.s.d.lessons); }
  }

  /** From a reachable checkpoint, also by the smaller measure. */
  lemma StepQuiet(env: Env, cfg: Config, g: Graph, s: St)
    requires cfg.Valid() && Quiet(env) && s.d.graph == Some(g) && Stored(cfg, s.d)
    requires Timely(cfg, g, s.d.lessons) && !g.next.End?
    ensures var r := Step(env, cfg, g, s);
      r.Ok? ==> (r.v.next.End? || r.v.cycle < cfg.maxCycles) && QuietStepsLeft(cfg, r.v) < QuietStepsLeft(cfg, g)
  {
    hide Body;
    hide TimelyLessons;
    hide DrawOutside;
    hide Failed;
    hide Inv;
    BodyAdvances(env, cfg, g, s);
    BodyKeep(env, cfg, g, s);
    var r := Body(env, cfg, g, s);
    if r.Fail? && r.why.Raise? { FailedAdvances(cfg, g, r.why.code, r.s.d.lessons); }
  }

  // ---------------------------------------------------------------- one invocation of the graph

  /** How many nodes graph.invoke runs. */
  function Visited(env: Env, cfg: Config, g: Graph, s: St, limit: nat): nat
    decreases limit
  {
    if g.next.End? || limit == 0 then 0
    else
      match Step(env, cfg, g, s)
      case Ok(s1, g1) => 1 + Visited(env, cfg, g1, s1, limit - 1)
      case Fail(_, _) => 1
  }

  lemma {:induction false} VisitsBounded(env: Env, cfg: Config, g: Graph, s: St, limit: nat)
    requires Timely(cfg, g, s.d.lessons)
    ensures Visited(env, cfg, g, s, limit) <= StepsLeft(cfg, g)
    decreases limit
  {
    hide Step;
    hide TimelyLessons;
    if !g.next.End? && limit > 0 {
      StepAdvances(env, cfg, g, s);
      var r := Step(env, cfg, g, s);
      if r.Ok? { VisitsBounded(env, cfg, r.v, r.s, limit - 1); }
    }
  }

  /** A larger recursion limit changes nothing. */
  lemma {:induction false} LimitIrrelevant(env: Env, cfg: Config, g: Graph, s: St, limit: nat, larger: nat)
    requires Timely(cfg, g, s.d.lessons) && StepsLeft(cfg, g) <= limit <= larger
    ensures Invoke(env, cfg, g, s, limit) == Invoke(env, cfg, g, s, larger)
    decreases limit
  {
    hide Step;
    hide TimelyLessons;
    if !g.next.End? {
      StepAdvances(env, cfg, g, s);
      var r := Step(env, cfg, g, s);
      if r.Ok? { LimitIrrelevant(env, cfg, r.v, r.s, limit - 1, larger - 1); }
    }
  }

  lemma {:induction false} QuietVisitsBounded(env: Env, cfg: Config, g: Graph, s: St, limit: nat)
    requires cfg.Valid() && Quiet(env) && s.d.graph == Some(g) && Stored(cfg, s.d) && Timely(cfg, g, s.d.lessons)
    ensures Visited(env, cfg, g, s, limit) <= QuietStepsLeft(cfg, g)
    decreases limit
  {
    hide Step;
    hide Stored;
    hide TimelyLessons;
    if !g.next.End? && limit > 0 {
      StepAdvances(env, cfg, g, s);
      StepKeep(env, cfg, g, s);
      StepQuiet(env, cfg, g, s);
      var r := Step(env, cfg, g, s);
      if r.Ok? { QuietVisitsBounded(env, cfg, r.v, r.s, limit - 1); }
    }
  }

  // ---------------------------------------------------------------- a whole life

  ghost predicate TimelyState(d: Durable) {
    match d.context
    case None => d.graph.None? && d.lessons == map[]
    case Some(cfg) => cfg.Valid() && Timely(cfg, Checkpoint(cfg, d), d.lessons)
  }

  lemma {:induction false} InvokeTimely(env: Env, cfg: Config, g: Graph, s: St, limit: nat)
    requires cfg.Valid() && s.d.context == Some(cfg) && s.d.graph == Some(g) && Timely(cfg, g, s.d.lessons)
    ensures var r := Invoke(env, cfg, g, s, limit);
      TimelyState(r.s.d) && (r.Ok? ==> r.s.d.context == Some(cfg) && r.s.d.graph == Some(r.v))
    decreases limit
  {
    hide Step;
    hide StepsLeft;
    hide TimelyLessons;
    if !g.next.End? && limit > 0 {
      StepAdvances(env, cfg, g, s);
      var r := Step(env, cfg, g, s);
      if r.Ok? { InvokeTimely(env, cfg, r.v, r.s, limit - 1); }
    }
  }

  lemma ReadyTimely(env: Env, cfg: Config, s: St)
    requires cfg.Valid() && TimelyState(s.d)
    ensures var r := Ready(env, cfg, s);
      TimelyState(r.s.d)
      && (r.Ok? ==> r.s.d.context == Some(cfg) && r.s.d.graph == Some(r.v) && Timely(cfg, r.v, r.s.d.lessons))
  {
    hide Draw;
  }

  lemma RunTimely(env: Env, cfg: Config, s: St)
    requires cfg.Valid() && TimelyState(s.d)
    ensures TimelyState(Run(env, cfg, s).s.d)
  {
    hide Ready;
    hide Invoke;
    hide Cleanup;
    hide DrawOutside;
    hide AdapterRestore;
    hide TimelyLessons;
    hide Retaining;
    ReadyTimely(env, cfg, s);
    var r := Ready(env, cfg, s);
    if r.Ok? { InvokeTimely(env, cfg, r.v, r.s, RecursionLimit(cfg)); }
  }

  lemma {:induction false} LifeIsTimely(env: Env, cfgs: nat -> Config, k: nat)
    requires ValidRuns(cfgs)
    ensures TimelyState(Life(env, cfgs, k).d)
  {
    hide Run;
    hide Timely;
    if k > 0 {
      LifeIsTimely(env, cfgs, k - 1);
      RunTimely(env, cfgs(k - 1), Life(env, cfgs, k - 1));
    }
  }

  /** The nodes one invocation of run visits. */
  function NodeSteps(env: Env, cfg: Config, s: St, limit: nat): nat {
    match Ready(env, cfg, s)
    case Fail(_, _) => 0
    case Ok(s1, g) => Visited(env, cfg, g, s1, limit)
  }

  lemma MeasureStart(cfg: Config, g: Graph)
    requires g.attempt <= 1 && (g.next.End? || g.cycle < cfg.maxCycles)
    ensures StepsLeft(cfg, g) <= 12 * cfg.maxCycles
    ensures QuietStepsLeft(cfg, g) <= 7 * cfg.maxCycles
  {
  }

  /**
   After any history of crashes, errors and configurations, and with any answers, the next
   invocation visits at most twelve nodes per cycle; its recursion limit never takes effect.
   */
  lemma RunsAreShort(env: Env, cfgs: nat -> Config, k: nat, limit: nat)
    requires ValidRuns(cfgs)
    ensures var cfg, s := cfgs(k), Life(env, cfgs, k);
      NodeSteps(env, cfg, s, limit) <= 12 * cfg.maxCycles
      && (limit >= 12 * cfg.maxCycles ==> Resume(env, cfg, s, limit) == Resume(env, cfg, s, RecursionLimit(cfg)))
  {
    hide Life;
    hide Ready;
    hide Visited;
    hide Invoke;
    hide TimelyLessons;
    hide StepsLeft;
    LifeIsTimely(env, cfgs, k);
    var cfg, s := cfgs(k), Life(env, cfgs, k);
    ReadyTimely(env, cfg, s);
    var r := Ready(env, cfg, s);
    if r.Ok? {
      MeasureStart(cfg, r.v);
      VisitsBounded(env, cfg, r.v, r.s, limit);
      var limit0 := 12 * cfg.maxCycles;
      LimitIrrelevant(env, cfg, r.v, r.s, limit0, RecursionLimit(cfg));
      if limit >= limit0 { LimitIrrelevant(env, cfg, r.v, r.s, limit0, limit); }
    }
  }

  /** When only the planner's own tool raises its two codes, seven nodes per cycle are enough. */
  lemma QuietRunsAreShorter(env: Env, cfgs: nat -> Config, k: nat, limit: nat)
    requires Quiet(env) && ValidRuns(cfgs)
    ensures NodeSteps(env, cfgs(k), Life(env, cfgs, k), limit) <= 7 * cfgs(k).maxCycles
  {
    hide Life;
    hide Ready;
    hide Visited;
    hide TimelyLessons;
    hide QuietStepsLeft;
    hide Sound;
    hide Stored;
    LifeIsTimely(env, cfgs, k);
    LifeIsSound(env, cfgs, k);
    var cfg, s := cfgs(k), Life(env, cfgs, k);
    ReadyTimely(env, cfg, s);
    ReadyKeep(env, cfg, s);
    var r := Ready(env, cfg, s);
    if r.Ok? {
      MeasureStart(cfg, r.v);
      QuietVisitsBounded(env, cfg, r.v, r.s, limit);
    }
  }
}
