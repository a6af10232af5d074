/** Every new checkpoint a node may publish satisfies the invariant. */
module AgentCommits {
  import opened Contracts
  import opened AgentTypes
  import opened AgentModel
  import opened HoldVerifier
  import opened AgentInvariant
  import opened AgentWrites

  // ---------------------------------------------------------------- where the decision comes from

  predicate ProvenanceOf(g: Graph, d: Durable) {
    Provenance(g, d.prechecks, d.executions, d.windows, d.postchecks, d.outcomes)
  }

  /** Outside the execution of a decision only the logged rows have a provenance. */
  lemma IdleSourced(g: Graph, d: Durable, g1: Graph)
    requires ProvenanceOf(g, d) && !AfterPrecheck(g1)
    ensures ProvenanceOf(g1, d)
  {
    hide Sourced;
    hide FrozenProof;
  }

  lemma NewestProof(g: Graph, d: Durable)
    requires NoFuture(g.cycle, g.attempt, d) && g.attempt <= 1 && (g.cycle, g.attempt) in d.prechecks
    ensures FrozenProof(d.prechecks, g.cycle) == d.prechecks[(g.cycle, g.attempt)].validated
  {
  }

  lemma PrecheckedSourced(cfg: Config, g: Graph, d: Durable, g1: Graph)
    requires Inv(cfg, g, d) && g.next.Validator? && g.phase.Precheck? && (g.cycle, g.attempt) in d.prechecks
    requires g1 == g.(validated := d.prechecks[(g.cycle, g.attempt)].validated, operation := g1.operation,
                      request := g1.request, next := Executor)
    requires g1.operation.Restore? ==> g1.validated.Validated? && g1.validated.replace
    ensures ProvenanceOf(g1, d)
  {
    hide Superseded;
    hide Log;
    hide Budget;
    hide Owned;
    hide Sourced;
    hide SealHolds;
    hide NativeFor;
    hide CanChange;
    hide CycleReady;
    NewestProof(g, d);
    hide FrozenProof;
    hide NoFuture;
  }

  lemma ExecutedSourced(g: Graph, d: Durable)
    requires ProvenanceOf(g, d) && g.next.Executor? && KeyOf(g) in d.executions
    requires if g.operation.Restore? then !d.executions[KeyOf(g)].Held? else g.cycle !in d.postchecks
    ensures ProvenanceOf(Executed'(g, d.executions[KeyOf(g)]), d)
  {
    hide Sourced;
    hide FrozenProof;
  }

  lemma UnverifiedSourced(g: Graph, d: Durable, g1: Graph)
    requires ProvenanceOf(g, d) && g.next.Validator? && g.phase.Postcheck? && g.cycle in d.postchecks
    requires d.postchecks[g.cycle].verdict.Verdict? && d.postchecks[g.cycle].verdict.held.None?
    requires g1.next.Executor? && g1.operation.Restore? && g1.cycle == g.cycle && g1.validated == g.validated
    ensures ProvenanceOf(g1, d)
  {
    hide Sourced;
    hide FrozenProof;
  }

  /** The planner's patch. */
  lemma CommitPlanned(cfg: Config, g: Graph, d: Durable)
    requires Inv(cfg, g, d) && g.next.Planner?
    requires g.cycle in d.inputs && (g.cycle, g.attempt) in d.proposals
    ensures Inv(cfg, Planned(g, d.inputs[g.cycle], d.proposals[(g.cycle, g.attempt)]), d)
  {
    hide Superseded;
    hide Provenance;
    hide Log;
    hide Writes;
    hide Settled;
    hide Alternating;
    hide Spaced;
    hide NothingLive;
    IdleSourced(g, d, Planned(g, d.inputs[g.cycle], d.proposals[(g.cycle, g.attempt)]));
  }

  /** An approved decision. */
  lemma CommitDecision(cfg: Config, g: Graph, d: Durable)
    requires Inv(cfg, g, d) && g.next.Validator? && g.phase.Precheck? && (g.cycle, g.attempt) in d.prechecks
    requires !d.prechecks[(g.cycle, g.attempt)].replace
    ensures var v := d.prechecks[(g.cycle, g.attempt)].validated;
      v.Validated? && v in d.artifacts
      && Inv(cfg, g.(validated := v, operation := if v.selected.Some? then Apply else Hold, next := Executor), d)
  {
    hide Superseded;
    hide Provenance;
    hide Log;
    hide Writes;
    hide Settled;
    hide Alternating;
    hide Spaced;
    hide NothingLive;
    hide SealHolds;
    hide NativeFor;
    var v := d.prechecks[(g.cycle, g.attempt)].validated;
    PrecheckedSourced(cfg, g, d, g.(validated := v, operation := if v.selected.Some? then Apply else Hold, next := Executor));
  }

  /** A decision that must first undo the owned policy. */
  lemma CommitReplace(cfg: Config, g: Graph, d: Durable, g1: Graph, request: Artifact)
    requires Inv(cfg, g, d) && g.next.Validator? && g.phase.Precheck? && (g.cycle, g.attempt) in d.prechecks
    requires d.prechecks[(g.cycle, g.attempt)].replace
    requires g1 == g.(validated := d.prechecks[(g.cycle, g.attempt)].validated)
    requires request in d.artifacts
    requires request == RestoreRequest(cfg.round, cfg.generation, g.cycle, PolicyAction(g1), g1.plan, ReplacePolicy)
    ensures Inv(cfg, g1.(operation := Restore, request := request, next := Executor), d)
    ensures PolicyAction(g1) != NoRef
  {
    hide Superseded;
    hide Provenance;
    hide Log;
    hide Writes;
    hide Settled;
    hide Alternating;
    hide Spaced;
    hide NothingLive;
    hide SealHolds;
    hide NativeFor;
    PrecheckedSourced(cfg, g, d, g1.(operation := Restore, request := request, next := Executor));
  }

  /** What a published execution of a decision is made of. */
  lemma ExecutedOwns(cfg: Config, g: Graph, d: Durable)
    requires Inv(cfg, g, d) && AtDecision(g) && KeyOf(g) in d.executions
    ensures var g1 := Executed'(g, d.executions[KeyOf(g)]);
      Shape(cfg, g1, d.artifacts) && Budget(cfg, g1, d.trace, d.operations.Keys) && Owned(g1, d.adapter, d.trace)
  {
    hide Superseded;
    hide Provenance;
    hide NoFuture;
    hide Log;
    hide Writes;
    hide Settled;
    hide Alternating;
    hide Spaced;
    hide NothingLive;
    hide SealHolds;
    hide NativeFor;
  }

  lemma HeldPoint(cfg: Config, g: Graph, d: Durable)
    requires DecisionPoint(cfg, g, d) && KeyOf(g) in d.executions && d.executions[KeyOf(g)].Held?
    ensures PostcheckPoint(cfg, Executed'(g, d.executions[KeyOf(g)]), d)
  {
    hide GoodPlan;
    hide GoodInputs;
    hide SealHolds;
    hide NativeFor;
    hide WriteState;
  }

  lemma AppliedPoint(cfg: Config, g: Graph, d: Durable)
    requires DecisionPoint(cfg, g, d) && AtDecision(g) && KeyOf(g) in d.executions && !d.executions[KeyOf(g)].Held?
    requires InTable(d.artifacts, g.active)
    ensures PostcheckPoint(cfg, Executed'(g, d.executions[KeyOf(g)]), d)
  {
    hide GoodPlan;
    hide GoodInputs;
    hide SealHolds;
    hide NativeFor;
    hide WriteState;
    hide Newest;
    hide Writes;
    hide NothingLive;
  }

  lemma ExecutedPoint(cfg: Config, g: Graph, d: Durable)
    requires Inv(cfg, g, d) && AtDecision(g) && KeyOf(g) in d.executions
    ensures g.cycle !in d.postchecks && Point(cfg, Executed'(g, d.executions[KeyOf(g)]), d)
  {
    hide Superseded;
    hide Provenance;
    hide NoFuture;
    hide Log;
    hide Budget;
    hide Owned;
    hide PostcheckPoint;
    if d.executions[KeyOf(g)].Held? { HeldPoint(cfg, g, d); } else { AppliedPoint(cfg, g, d); }
    hide GoodExec;
    hide GoodProof;
    hide CycleReady;
    hide WriteState;
  }

  /** An executed decision: only now does the checkpoint count the write and own the action. */
  lemma CommitExecuted(cfg: Config, g: Graph, d: Durable)
    requires Inv(cfg, g, d) && AtDecision(g) && KeyOf(g) in d.executions
    ensures Inv(cfg, Executed'(g, d.executions[KeyOf(g)]), d)
  {
    hide Superseded;
    hide Provenance;
    hide Log;
    hide Budget;
    hide Owned;
    hide Point;
    hide Shape;
    ExecutedOwns(cfg, g, d);
    ExecutedPoint(cfg, g, d);
    ExecutedSourced(g, d);
  }

  /** A finished restoration. */
  lemma CommitUndone(cfg: Config, g: Graph, d: Durable)
    requires Inv(cfg, g, d) && g.next.Executor? && g.operation.Restore? && KeyOf(g) in d.executions
    ensures Inv(cfg, Executed'(g, d.executions[KeyOf(g)]), d)
  {
    hide Superseded;
    hide Provenance;
    hide Log;
    hide Writes;
    hide Settled;
    hide Alternating;
    hide Spaced;
    hide NothingLive;
    ExecutedSourced(g, d);
  }

  /** A verdict that asks for restoration. */
  lemma CommitUnverified(cfg: Config, g: Graph, d: Durable, g1: Graph, request: Artifact)
    requires Inv(cfg, g, d) && g.next.Validator? && g.phase.Postcheck? && g.cycle in d.postchecks
    requires d.postchecks[g.cycle].restore && g1 == Postchecked(g, d.postchecks[g.cycle])
    requires request in d.artifacts
    requires request == RestoreRequest(cfg.round, cfg.generation, g.cycle, PolicyAction(g1), g1.plan, EffectNotVerified)
    ensures Inv(cfg, g1.(operation := Restore, request := request, next := Executor), d)
    ensures PolicyAction(g1) != NoRef
  {
    hide Superseded;
    hide Provenance;
    hide Log;
    hide Writes;
    hide Settled;
    hide Alternating;
    hide Spaced;
    hide NothingLive;
    hide GoodHeld;
    hide SealHolds;
    hide NativeFor;
    UnverifiedSourced(g, d, g1.(operation := Restore, request := request, next := Executor));
  }

  function NextCycle(g1: Graph, last: bool): Graph {
    g1.(cycle := g1.cycle + 1, attempt := 0, next := if last then End else Planner,
        stop := if last then CycleLimit else g1.stop)
  }

  /** What the state after learning owes to the point it came from. */
  ghost predicate Learned(g1: Graph, d: Durable) {
    && InTable(d.artifacts, g1.active) && InTable(d.artifacts, g1.after) && InTable(d.artifacts, g1.action)
    && (g1.after == NoRef || g1.after.Observation?)
    && !Pending(g1, d.trace)
    && (g1.active != NoRef ==> g1.verdict.Verdict? && g1.verdict.outcome.EffectVerified?)
    && (g1.active != NoRef ==> PolicyAction(g1) == g1.active)
    && g1.plan.Plan? && g1.verdict.Verdict?
    && Owned(g1, d.adapter, d.trace)
  }

  lemma LearnedOwns(cfg: Config, g: Graph, d: Durable, g1: Graph)
    requires Inv(cfg, g, d) && Learning(g, d, g1)
    ensures Learned(g1, d)
  {
    hide Superseded;
    hide Provenance;
    hide Log;
    hide Writes;
    hide Settled;
    hide Alternating;
    hide Spaced;
    hide NothingLive;
    hide GoodHeld;
    hide SealHolds;
    hide NativeFor;
  }

  lemma NextPoint(cfg: Config, g: Graph, d: Durable, g1: Graph)
    requires Inv(cfg, g, d) && Learning(g, d, g1) && g.cycle in d.lessons && Learned(g1, d)
    requires g.cycle in d.outcomes && d.outcomes[g.cycle] == OutcomeOf(g1)
    ensures Point(cfg, NextCycle(g1, d.lessons[g.cycle].last), d)
  {
    hide Superseded;
    hide Provenance;
    hide Budget;
    hide Owned;
    hide Pending;
    hide Settled;
    hide NothingLive;
    hide GoodHeld;
    hide GoodHold;
    hide GoodProof;
    hide GoodRow;
    hide GoodPost;
    hide PolicyAction;
    hide DecisionPoint;
    hide RestorePoint;
  }

  lemma LessonLogged(cfg: Config, g: Graph, d: Durable, g1: Graph)
    requires Inv(cfg, g, d) && Learning(g, d, g1) && g.cycle in d.lessons
    ensures g.cycle in d.outcomes && d.lessons[g.cycle] == LessonPatch(g.cycle + 1 >= cfg.maxCycles)
    ensures g.cycle < cfg.maxCycles && g.stop.Running? && g.error.None?
  {
    hide Superseded;
    hide Provenance;
    hide Budget;
    hide Owned;
    hide Settled;
    hide GoodPost;
    hide GoodHold;
  }

  /** A logged cycle: the next one, or the end at the limit. */
  lemma CommitLearned(cfg: Config, g: Graph, d: Durable, g1: Graph)
    requires cfg.Valid() && Inv(cfg, g, d) && Learning(g, d, g1) && g.cycle in d.lessons
    ensures Inv(cfg, NextCycle(g1, d.lessons[g.cycle].last), d)
  {
    hide Superseded;
    hide Provenance;
    hide Writes;
    hide Settled;
    hide Alternating;
    hide Spaced;
    hide NothingLive;
    hide GoodRow;
    hide PolicyAction;
    hide Point;
    LessonLogged(cfg, g, d, g1);
    LogRow(cfg, g, d, g1);
    LearnedOwns(cfg, g, d, g1);
    NextPoint(cfg, g, d, g1);
    IdleSourced(g, d, NextCycle(g1, d.lessons[g.cycle].last));
  }

  lemma StillRunning(cfg: Config, g: Graph, d: Durable)
    requires Inv(cfg, g, d) && !g.next.End?
    ensures g.error.None? && g.stop.Running? && g.cycle < cfg.maxCycles
  {
    hide Superseded;
    hide Provenance;
    hide GoodExec;
    hide GoodProof;
  }

  /** The end of the graph owes nothing but what it owned. */
  lemma CommitEnd(cfg: Config, g: Graph, d: Durable, g1: Graph)
    requires Inv(cfg, g, d) && !g.next.End?
    requires g1 == g.(next := End, stop := g1.stop, error := g1.error, after := g1.after)
    requires !g1.stop.CycleLimit? && (g1.error.Some? ==> !Internal(g1.error.value))
    requires g1.stop.ScenarioEnded? ==> g.cycle !in d.outcomes
    requires g1.after == g.after || (g1.after.Observation? && g1.after in d.artifacts)
    ensures Inv(cfg, g1, d)
  {
    hide Superseded;
    hide Provenance;
    hide Log;
    hide Writes;
    hide Settled;
    hide Alternating;
    hide Spaced;
    hide NothingLive;
    hide PlannerPoint;
    hide PrecheckPoint;
    hide PostcheckPoint;
    hide RestoreCheckPoint;
    hide DecisionPoint;
    hide RestorePoint;
    IdleSourced(g, d, g1);
  }

  /** A proposal retried once. */
  lemma CommitRetry(cfg: Config, g: Graph, d: Durable)
    requires Inv(cfg, g, d) && g.next.Planner? && g.attempt == 0
    ensures Inv(cfg, g.(attempt := 1), d)
  {
    hide Superseded;
    hide Provenance;
    hide Log;
    hide Writes;
    hide Settled;
    hide Alternating;
    hide Spaced;
    hide NothingLive;
    IdleSourced(g, d, g.(attempt := 1));
  }

  /** A failed node: one retry by the planner, otherwise the end. */
  lemma CommitFailed(cfg: Config, g: Graph, d: Durable, code: Code)
    requires Inv(cfg, g, d) && !g.next.End? && !Internal(code)
    requires Retryable(code) ==> g.next.Planner?
    ensures Inv(cfg, Failed(g, code), d)
  {
    hide Inv;
    StillRunning(cfg, g, d);
    if Retryable(code) && g.attempt < 1 {
      CommitRetry(cfg, g, d);
    } else {
      CommitEnd(cfg, g, d, Failed(g, code));
    }
  }

  /** A scenario that ended before the node finished. */
  lemma CommitEnded(cfg: Config, g: Graph, d: Durable, after: Artifact)
    requires Inv(cfg, g, d) && !g.next.End? && g.cycle !in d.outcomes
    requires after == g.after || (after.Observation? && after in d.artifacts)
    ensures Inv(cfg, g.(next := End, stop := ScenarioEnded, after := after), d)
  {
    hide Inv;
    StillRunning(cfg, g, d);
    CommitEnd(cfg, g, d, g.(next := End, stop := ScenarioEnded, after := after));
  }

  /** The cleanup's update: ownership is given up once every record reads restored. */
  lemma CommitClosed(cfg: Config, g: Graph, d: Durable)
    requires Inv(cfg, g, d) && g.next.End? && NothingLive(d.adapter)
    ensures Inv(cfg, g.(active := NoRef), d)
  {
    hide Superseded;
    hide Provenance;
    hide Log;
    hide Writes;
    hide Settled;
    hide Alternating;
    hide Spaced;
    if |d.adapter| > 0 { assert d.adapter[|d.adapter| - 1] in d.adapter; }
    IdleSourced(g, d, g.(active := NoRef));
  }
}
