/** Every write of the loop to its own tables, and to the adapter, keeps the invariant. */
module AgentWrites {
  import opened Contracts
  import opened AgentTypes
  import opened AgentModel
  import opened HoldVerifier
  import opened AgentInvariant

  // ---------------------------------------------------------------- planner and precheck

  lemma InputsPoint(cfg: Config, g: Graph, d: Durable, i: Inputs)
    requires PlannerPoint(cfg, g, d) && g.cycle !in d.inputs && GoodInputs(cfg, d.artifacts, i.before, i.seal)
    ensures PlannerPoint(cfg, g, d.(inputs := d.inputs[g.cycle := i]))
  {
    hide GoodPlan;
    hide GoodInputs;
  }

  lemma InvInputs(cfg: Config, g: Graph, d: Durable, i: Inputs)
    requires Inv(cfg, g, d) && g.next.Planner? && g.cycle !in d.inputs
    requires GoodInputs(cfg, d.artifacts, i.before, i.seal)
    ensures Inv(cfg, g, d.(inputs := d.inputs[g.cycle := i]))
  {
    hide Superseded;
    hide Provenance;
    hide Budget;
    hide Owned;
    hide Log;
    hide Shape;
    hide PlannerPoint;
    hide GoodInputs;
    InputsPoint(cfg, g, d, i);
  }

  lemma ProposalPoint(cfg: Config, g: Graph, d: Durable, plan: Artifact)
    requires PlannerPoint(cfg, g, d) && g.cycle in d.inputs && GoodPlan(d.artifacts, plan, d.inputs[g.cycle].before)
    ensures PlannerPoint(cfg, g, d.(proposals := d.proposals[(g.cycle, g.attempt) := plan]))
  {
    hide GoodPlan;
    hide GoodInputs;
  }

  lemma InvProposal(cfg: Config, g: Graph, d: Durable, plan: Artifact)
    requires Inv(cfg, g, d) && g.next.Planner? && g.cycle in d.inputs && (g.cycle, g.attempt) !in d.proposals
    requires GoodPlan(d.artifacts, plan, d.inputs[g.cycle].before)
    ensures Inv(cfg, g, d.(proposals := d.proposals[(g.cycle, g.attempt) := plan]))
  {
    hide Superseded;
    hide Provenance;
    hide Budget;
    hide Owned;
    hide Log;
    hide Shape;
    hide PlannerPoint;
    hide GoodPlan;
    ProposalPoint(cfg, g, d, plan);
  }

  lemma PrecheckSourced(g: Graph, d: Durable, p: PrecheckPatch)
    requires Provenance(g, d.prechecks, d.executions, d.windows, d.postchecks, d.outcomes)
    requires g.next.Validator? && g.phase.Precheck? && g.cycle !in d.outcomes
    ensures Provenance(g, d.prechecks[(g.cycle, g.attempt) := p], d.executions, d.windows, d.postchecks, d.outcomes)
  {
    hide SourcedRow;
    assert forall c :: c in d.outcomes ==>
        FrozenProof(d.prechecks[(g.cycle, g.attempt) := p], c) == FrozenProof(d.prechecks, c);
    hide FrozenProof;
  }

  lemma PrecheckPointWritten(cfg: Config, g: Graph, d: Durable, p: PrecheckPatch)
    requires Point(cfg, g, d) && g.next.Validator? && g.phase.Precheck?
    requires GoodPrecheck(cfg, d.artifacts, g, p)
    ensures g.cycle !in d.outcomes && Point(cfg, g, d.(prechecks := d.prechecks[(g.cycle, g.attempt) := p]))
  {
    hide GoodPrecheck;
    hide CycleReady;
  }

  lemma InvPrecheck(cfg: Config, g: Graph, d: Durable, p: PrecheckPatch)
    requires Inv(cfg, g, d) && g.next.Validator? && g.phase.Precheck? && (g.cycle, g.attempt) !in d.prechecks
    requires GoodPrecheck(cfg, d.artifacts, g, p)
    ensures Inv(cfg, g, d.(prechecks := d.prechecks[(g.cycle, g.attempt) := p]))
  {
    hide Superseded;
    hide Provenance;
    hide Budget;
    hide Owned;
    hide Log;
    hide Point;
    hide GoodPrecheck;
    PrecheckPointWritten(cfg, g, d, p);
    PrecheckSourced(g, d, p);
  }

  // ---------------------------------------------------------------- executor

  predicate AtDecision(g: Graph) {
    g.next.Executor? && (g.operation.Apply? || g.operation.Hold?)
  }

  lemma IntentPoint(cfg: Config, g: Graph, d: Durable, plan: Artifact)
    requires DecisionPoint(cfg, g, d) && AtWrite(g) && OpKey(g.cycle, g.validated) !in d.operations
    ensures DecisionPoint(cfg, g, d.(operations := d.operations[OpKey(g.cycle, g.validated) := IntentOnly(plan)]))
  {
    hide GoodProof;
    hide CycleReady;
    hide WroteFrom;
    hide Writes;
    hide GoodHold;
    hide NothingLive;
  }

  lemma BudgetIntent(cfg: Config, g: Graph, d: Durable, plan: Artifact)
    requires Budget(cfg, g, d.trace, d.operations.Keys)
    ensures Budget(cfg, g, d.trace, d.operations[OpKey(g.cycle, g.validated) := IntentOnly(plan)].Keys)
    ensures OpKey(g.cycle, g.validated) !in d.operations && AtWrite(g) ==> !Pending(g, d.trace)
  {
    hide Spaced;
    hide Writes;
    hide Alternating;
  }

  lemma InvIntent(cfg: Config, g: Graph, d: Durable, plan: Artifact)
    requires Inv(cfg, g, d) && AtWrite(g) && OpKey(g.cycle, g.validated) !in d.operations
    ensures Inv(cfg, g, d.(operations := d.operations[OpKey(g.cycle, g.validated) := IntentOnly(plan)]))
    ensures !Pending(g, d.trace)
  {
    hide Superseded;
    hide Provenance;
    hide Owned;
    hide Log;
    hide Shape;
    hide Budget;
    hide DecisionPoint;
    hide Pending;
    BudgetIntent(cfg, g, d, plan);
    IntentPoint(cfg, g, d, plan);
  }

  /** adapter.execute: one more write in the history, and at most one more record. */
  ghost predicate WroteOnce(g: Graph, d: Durable, e: Durable) {
    && g.validated.Validated? && g.validated.qerBefore.Some?
    && (e.adapter == d.adapter
        || (|e.adapter| == |d.adapter| + 1 && e.adapter[..|d.adapter|] == d.adapter
            && e.adapter[|d.adapter|].id == |d.adapter|
            && forall r :: r in d.adapter ==> Resolved(r)))
    && e == d.(adapter := e.adapter,
               trace := d.trace + [Executed(NativeWrite(g.cycle, g.attempt, |d.adapter|, g.validated.qerBefore.value))])
  }

  lemma BudgetWrote(cfg: Config, g: Graph, d: Durable, e: Durable)
    requires cfg.Valid() && Budget(cfg, g, d.trace, d.operations.Keys) && WroteOnce(g, d, e)
    requires AtWrite(g) && OpKey(g.cycle, g.validated) in d.operations && !Pending(g, d.trace)
    requires g.active == NoRef && CanChange(cfg, g) && Settled(d.trace) && g.stop.Running?
    ensures Budget(cfg, g, e.trace, e.operations.Keys) && Pending(g, e.trace) && WroteFrom(g, e.trace)
  {
    hide Writes;
    hide Alternating;
    hide Settled;
    var w := NativeWrite(g.cycle, g.attempt, |d.adapter|, g.validated.qerBefore.value);
    HistorySnoc(d.trace, Executed(w));
    var before := Writes(d.trace);
    assert Writes(e.trace) == before + [w];
    forall i | 0 <= i < |before| ensures g.cycle - before[i].cycle >= cfg.minGap {
      assert before[|before| - 1].cycle >= before[i].cycle;
    }
  }

  lemma OwnedWrote(g: Graph, d: Durable, e: Durable)
    requires Owned(g, d.adapter, d.trace) && WroteOnce(g, d, e)
    requires g.active == NoRef && !Pending(g, d.trace) && |Writes(d.trace)| == g.changes
    ensures Owned(g, e.adapter, e.trace)
    ensures e.adapter != d.adapter ==> Newest(e.adapter, Writes(e.trace), |d.adapter|)
  {
    hide Writes;
    hide Settled;
    var w := NativeWrite(g.cycle, g.attempt, |d.adapter|, g.validated.qerBefore.value);
    HistorySnoc(d.trace, Executed(w));
    assert forall i :: 0 <= i < |d.adapter| ==> d.adapter[i] in d.adapter;
    if |e.adapter| > 0 && e.adapter == d.adapter { assert e.adapter[|e.adapter| - 1] in d.adapter; }
  }

  /** A record is added only when every earlier one reads restored. */
  lemma SupersededWrote(g: Graph, d: Durable, e: Durable)
    requires Superseded(d.adapter, d.trace) && NothingLive(d.adapter) && WroteOnce(g, d, e)
    ensures Superseded(e.adapter, e.trace)
  {
    var w := Executed(NativeWrite(g.cycle, g.attempt, |d.adapter|, g.validated.qerBefore.value));
    CallSnoc(d.trace, w, |e.adapter| - 1);
    hide Incomplete;
    hide JustRestored;
    if e.adapter != d.adapter {
      forall i | 0 <= i < |d.adapter| ensures e.adapter[i].state.Restored? {
        assert e.adapter[i] == d.adapter[i] && d.adapter[i] in d.adapter;
      }
    }
  }

  /** Why the executor may write now: the journal has its intent, nothing is owed, and the budget allows it. */
  lemma MayWrite(cfg: Config, g: Graph, d: Durable)
    requires Inv(cfg, g, d) && AtWrite(g) && !Pending(g, d.trace)
    ensures g.active == NoRef && CanChange(cfg, g) && Settled(d.trace) && g.stop.Running?
    ensures NothingLive(d.adapter) && |Writes(d.trace)| == g.changes
  {
    hide Superseded;
    hide Provenance;
    hide NoFuture;
    hide Log;
    hide Spaced;
    hide Writes;
    hide Alternating;
    hide Settled;
    hide NothingLive;
    hide SealHolds;
    hide GoodExec;
    hide WriteState;
  }

  lemma WrotePoint(cfg: Config, g: Graph, d: Durable, e: Durable)
    requires DecisionPoint(cfg, g, d) && WroteOnce(g, d, e) && AtWrite(g) && !Pending(g, d.trace)
    requires OpKey(g.cycle, g.validated) in d.operations && d.operations[OpKey(g.cycle, g.validated)].IntentOnly?
    requires WroteFrom(g, e.trace) && |Writes(e.trace)| == |Writes(d.trace)| + 1
    ensures DecisionPoint(cfg, g, e)
  {
    hide GoodProof;
    hide CycleReady;
    hide WroteFrom;
    hide Writes;
    hide GoodHold;
    hide NothingLive;
  }

  lemma InvWrote(cfg: Config, g: Graph, d: Durable, e: Durable)
    requires cfg.Valid() && Inv(cfg, g, d) && WroteOnce(g, d, e)
    requires AtWrite(g) && !Pending(g, d.trace)
    requires OpKey(g.cycle, g.validated) in d.operations && d.operations[OpKey(g.cycle, g.validated)].IntentOnly?
    ensures Inv(cfg, g, e) && Pending(g, e.trace)
    ensures e.adapter != d.adapter ==> Newest(e.adapter, Writes(e.trace), |d.adapter|)
  {
    hide Superseded;
    hide Provenance;
    hide Log;
    hide Shape;
    hide Budget;
    hide Owned;
    hide DecisionPoint;
    hide Writes;
    hide Settled;
    hide NothingLive;
    hide CanChange;
    hide WroteFrom;
    hide Newest;
    MayWrite(cfg, g, d);
    BudgetWrote(cfg, g, d, e);
    OwnedWrote(g, d, e);
    SupersededWrote(g, d, e);
    WrotePoint(cfg, g, d, e);
  }

  lemma BudgetCompleted(cfg: Config, g: Graph, d: Durable, receipt: Record)
    requires Budget(cfg, g, d.trace, d.operations.Keys)
    ensures Budget(cfg, g, d.trace, d.operations[OpKey(g.cycle, g.validated) := Completed(receipt)].Keys)
  {
    hide Spaced;
    hide Writes;
    hide Alternating;
  }

  lemma CompletedPoint(cfg: Config, g: Graph, d: Durable, receipt: Record)
    requires DecisionPoint(cfg, g, d) && AtWrite(g) && Pending(g, d.trace) && Newest(d.adapter, Writes(d.trace), receipt.id)
    ensures DecisionPoint(cfg, g, d.(operations := d.operations[OpKey(g.cycle, g.validated) := Completed(receipt)]))
  {
    hide GoodProof;
    hide CycleReady;
    hide WroteFrom;
    hide Writes;
    hide GoodHold;
    hide NothingLive;
  }

  lemma InvCompleted(cfg: Config, g: Graph, d: Durable, receipt: Record)
    requires Inv(cfg, g, d) && AtWrite(g) && Pending(g, d.trace)
    requires Newest(d.adapter, Writes(d.trace), receipt.id)
    ensures Inv(cfg, g, d.(operations := d.operations[OpKey(g.cycle, g.validated) := Completed(receipt)]))
  {
    hide Superseded;
    hide Provenance;
    hide Owned;
    hide Log;
    hide Shape;
    hide Budget;
    hide DecisionPoint;
    hide Pending;
    hide Newest;
    BudgetCompleted(cfg, g, d, receipt);
    CompletedPoint(cfg, g, d, receipt);
  }

  lemma HoldDecisionPoint(cfg: Config, g: Graph, d: Durable, e: Durable)
    requires DecisionPoint(cfg, g, d) && AtDecision(g)
    requires e == d.(holds := d.holds[OpKey(g.cycle, g.validated)
                                := HoldDecision(g.validated, cfg.round, cfg.generation, g.cycle)])
    ensures DecisionPoint(cfg, g, e)
  {
    hide GoodProof;
    hide CycleReady;
    hide WroteFrom;
    hide Writes;
    if KeyOf(g) in d.executions { ExecIgnoresHolds(cfg, g, d, e, d.executions[KeyOf(g)]); }
    hide GoodExec;
  }

  /** What an execution patch says depends only on the history, the journal and the artifacts. */
  lemma ExecIgnoresHolds(cfg: Config, g: Graph, d: Durable, e: Durable, p: ExecPatch)
    requires GoodExec(cfg, g, d, p)
    requires e.artifacts == d.artifacts && e.trace == d.trace && e.adapter == d.adapter
    ensures GoodExec(cfg, g, e, p)
  {
    hide GoodHold;
    hide Writes;
    hide NothingLive;
  }

  lemma InvHoldDecision(cfg: Config, g: Graph, d: Durable)
    requires Inv(cfg, g, d) && AtDecision(g)
    requires OpKey(g.cycle, g.validated) !in d.holds
    ensures Inv(cfg, g, d.(holds := d.holds[OpKey(g.cycle, g.validated)
                             := HoldDecision(g.validated, cfg.round, cfg.generation, g.cycle)]))
  {
    hide Superseded;
    hide Provenance;
    hide Owned;
    hide Log;
    hide Budget;
    hide Shape;
    hide DecisionPoint;
    HoldDecisionPoint(cfg, g, d, d.(holds := d.holds[OpKey(g.cycle, g.validated)
                                      := HoldDecision(g.validated, cfg.round, cfg.generation, g.cycle)]));
  }

  lemma ExecutionPoint(cfg: Config, g: Graph, d: Durable, e: Durable, p: ExecPatch)
    requires Point(cfg, g, d) && g.next.Executor? && KeyOf(g) !in d.executions && GoodExec(cfg, g, d, p)
    requires e == d.(executions := d.executions[KeyOf(g) := p])
    ensures Point(cfg, g, e)
  {
    hide GoodProof;
    hide CycleReady;
    hide WroteFrom;
    hide Writes;
    ExecIgnoresHolds(cfg, g, d, e, p);
    hide GoodExec;
  }

  lemma ExecutionSourced(cfg: Config, g: Graph, d: Durable, p: ExecPatch)
    requires Provenance(g, d.prechecks, d.executions, d.windows, d.postchecks, d.outcomes)
    requires g.next.Executor? && GoodExec(cfg, g, d, p)
    ensures Provenance(g, d.prechecks, d.executions[KeyOf(g) := p], d.windows, d.postchecks, d.outcomes)
  {
    hide GoodHold;
    hide Sourced;
    hide Writes;
    hide NothingLive;
  }

  lemma InvExecution(cfg: Config, g: Graph, d: Durable, p: ExecPatch)
    requires Inv(cfg, g, d) && g.next.Executor? && KeyOf(g) !in d.executions
    requires GoodExec(cfg, g, d, p)
    ensures Inv(cfg, g, d.(executions := d.executions[KeyOf(g) := p]))
  {
    hide Superseded;
    hide Provenance;
    hide Owned;
    hide Log;
    hide Budget;
    hide Shape;
    hide Point;
    hide GoodExec;
    ExecutionPoint(cfg, g, d, d.(executions := d.executions[KeyOf(g) := p]), p);
    ExecutionSourced(cfg, g, d, p);
  }

  // ---------------------------------------------------------------- validator

  lemma WindowSourced(g: Graph, d: Durable, after: Artifact)
    requires Provenance(g, d.prechecks, d.executions, d.windows, d.postchecks, d.outcomes)
    requires g.next.Validator? && g.phase.Postcheck? && g.cycle !in d.windows
    ensures Provenance(g, d.prechecks, d.executions, d.windows[g.cycle := after], d.postchecks, d.outcomes)
  {
    hide Proven;
    hide FrozenProof;
    var more := d.windows[g.cycle := after];
    forall c | c in d.outcomes ensures SourcedRow(FrozenProof(d.prechecks, c), more, c, d.outcomes[c]) {
      assert SourcedRow(FrozenProof(d.prechecks, c), d.windows, c, d.outcomes[c]);
    }
  }

  lemma InvWindow(cfg: Config, g: Graph, d: Durable, after: Artifact)
    requires Inv(cfg, g, d) && g.next.Validator? && g.phase.Postcheck? && g.cycle !in d.windows
    requires after in d.artifacts && after.Observation?
    ensures Inv(cfg, g, d.(windows := d.windows[g.cycle := after]))
  {
    hide Superseded;
    hide Provenance;
    hide Owned;
    hide Log;
    hide GoodProof;
    hide Budget;
    hide GoodPost;
    hide GoodHold;
    WindowSourced(g, d, after);
  }

  lemma PostSourced(g: Graph, d: Durable, p: PostPatch)
    requires Provenance(g, d.prechecks, d.executions, d.windows, d.postchecks, d.outcomes)
    requires Compared(g, p.verdict, d.windows)
    ensures Provenance(g, d.prechecks, d.executions, d.windows, d.postchecks[g.cycle := p], d.outcomes)
  {
    hide Proven;
    hide Sourced;
  }

  lemma InvPost(cfg: Config, g: Graph, d: Durable, p: PostPatch)
    requires Inv(cfg, g, d) && g.next.Validator? && g.phase.Postcheck? && g.cycle !in d.postchecks
    requires GoodPost(cfg, d.artifacts, g, p) && Compared(g, p.verdict, d.windows)
    ensures Inv(cfg, g, d.(postchecks := d.postchecks[g.cycle := p]))
  {
    hide Superseded;
    hide Provenance;
    hide Owned;
    hide Log;
    hide GoodProof;
    hide Budget;
    hide GoodPost;
    hide GoodHold;
    hide Compared;
    PostSourced(g, d, p);
  }

  lemma SupersededVerified(adapter: seq<Record>, trace: seq<Event>, id: nat, native: Inventory)
    requires Superseded(adapter, trace)
    ensures Superseded(adapter, trace + [RestoreVerified(id, native)])
  {
    CallSnoc(trace, RestoreVerified(id, native), |adapter| - 1);
    hide Incomplete;
    hide JustRestored;
  }

  lemma InvVerified(cfg: Config, g: Graph, d: Durable)
    requires Inv(cfg, g, d) && g.next.Validator? && g.phase.RestoreCheck?
    ensures g.active.Action?
    ensures var e := d.(trace := d.trace + [RestoreVerified(g.active.receipt.id, g.active.baseline)]);
      Inv(cfg, g, e) && Settled(e.trace)
  {
    hide Superseded;
    hide Provenance;
    hide Log;
    hide GoodProof;
    hide Writes;
    hide Alternating;
    hide Settled;
    hide Spaced;
    var v := RestoreVerified(g.active.receipt.id, g.active.baseline);
    HistorySnoc(d.trace, v);
    SupersededVerified(d.adapter, d.trace, g.active.receipt.id, g.active.baseline);
  }

  lemma InvRestored(cfg: Config, g: Graph, d: Durable, p: RestorePatch)
    requires Inv(cfg, g, d) && g.next.Validator? && g.phase.RestoreCheck? && g.cycle !in d.restorations
    requires GoodRestored(g, d.artifacts, d.trace, p)
    ensures Inv(cfg, g, d.(restorations := d.restorations[g.cycle := p]))
  {
    hide Superseded;
    hide Provenance;
    hide Owned;
    hide Log;
    hide Budget;
    hide Settled;
  }

  /** The state whose outcome the pending validator logs. */
  ghost predicate Learning(g: Graph, d: Durable, g1: Graph) {
    && g.next.Validator?
    && (g.phase.Postcheck? || g.phase.RestoreCheck?)
    && (g.phase.Postcheck? ==>
          g.cycle in d.postchecks && !d.postchecks[g.cycle].restore
          && g1 == Postchecked(g, d.postchecks[g.cycle]))
    && (g.phase.RestoreCheck? ==>
          g.cycle in d.restorations
          && g1 == g.(active := NoRef, verdict := d.restorations[g.cycle].verdict))
  }

  lemma LogRow(cfg: Config, g: Graph, d: Durable, g1: Graph)
    requires Inv(cfg, g, d) && Learning(g, d, g1)
    ensures g1.plan.Plan? && g1.verdict.Verdict? && g1.cycle == g.cycle
    ensures GoodRow(cfg, d.artifacts, g.cycle, OutcomeOf(g1))
    ensures g.cycle in d.outcomes ==> d.outcomes[g.cycle] == OutcomeOf(g1)
    ensures {g1.plan, g1.verdict, g1.before} <= d.artifacts && InTable(d.artifacts, PolicyAction(g1))
  {
    hide Superseded;
    hide Provenance;
    hide Owned;
    hide Budget;
    hide Log;
    hide Settled;
    hide ChainAccepted;
    hide GoodProof;
    if g.phase.Postcheck? {
      var p := d.postchecks[g.cycle];
      if p.verdict.held.Some? {
        assert d.artifacts + {p.verdict} == d.artifacts;
        assert PolicyAction(g1) == NoRef;
      }
    }
  }

  lemma LoggedPoint(cfg: Config, g: Graph, d: Durable, g1: Graph, row: Outcome)
    requires Point(cfg, g, d) && Learning(g, d, g1) && g.cycle !in d.outcomes
    requires g1.plan.Plan? && g1.verdict.Verdict? && row == OutcomeOf(g1)
    ensures Point(cfg, g, d.(outcomes := d.outcomes[g.cycle := row]))
  {
    hide Settled;
    hide GoodProof;
    hide GoodPost;
    hide GoodHold;
    hide GoodApplied;
    hide CycleReady;
    hide NothingLive;
    hide PolicyAction;
    hide OutcomeOf;
    hide DecisionPoint;
    hide RestorePoint;
    hide PrecheckPoint;
    hide PlannerPoint;
    hide EndPoint;
  }

  lemma OutcomeSourced(cfg: Config, g: Graph, d: Durable, g1: Graph)
    requires Provenance(g, d.prechecks, d.executions, d.windows, d.postchecks, d.outcomes)
    requires Point(cfg, g, d) && Learning(g, d, g1) && g1.plan.Plan? && g1.verdict.Verdict?
    ensures Provenance(g, d.prechecks, d.executions, d.windows, d.postchecks, d.outcomes[g.cycle := OutcomeOf(g1)])
  {
    hide GoodLesson;
    hide CycleReady;
    hide GoodHold;
    hide GoodApplied;
    hide GoodPost;
    hide NothingLive;
    hide Settled;
    hide FrozenProof;
    hide PolicyAction;
  }

  lemma InvOutcome(cfg: Config, g: Graph, d: Durable, g1: Graph)
    requires Inv(cfg, g, d) && Learning(g, d, g1) && g.cycle !in d.outcomes
    requires g1.plan.Plan? && g1.verdict.Verdict?
    requires GoodRow(cfg, d.artifacts, g.cycle, OutcomeOf(g1))
    ensures Inv(cfg, g, d.(outcomes := d.outcomes[g.cycle := OutcomeOf(g1)]))
  {
    hide Superseded;
    hide Provenance;
    hide Point;
    hide Owned;
    hide Budget;
    hide GoodRow;
    hide Learning;
    hide OutcomeOf;
    LoggedPoint(cfg, g, d, g1, OutcomeOf(g1));
    OutcomeSourced(cfg, g, d, g1);
  }

  lemma LessonPoint(cfg: Config, g: Graph, d: Durable, g1: Graph)
    requires Point(cfg, g, d) && Learning(g, d, g1) && g.cycle in d.outcomes
    ensures Point(cfg, g, d.(lessons := d.lessons[g.cycle := LessonPatch(g.cycle + 1 >= cfg.maxCycles)]))
  {
    hide Settled;
    hide GoodProof;
    hide GoodPost;
    hide GoodHold;
    hide GoodApplied;
    hide CycleReady;
    hide NothingLive;
    hide PolicyAction;
    hide OutcomeOf;
    hide DecisionPoint;
    hide RestorePoint;
    hide PrecheckPoint;
    hide PlannerPoint;
    hide EndPoint;
  }

  lemma InvLesson(cfg: Config, g: Graph, d: Durable, g1: Graph)
    requires Inv(cfg, g, d) && Learning(g, d, g1) && g.cycle in d.outcomes
    ensures Inv(cfg, g, d.(lessons := d.lessons[g.cycle := LessonPatch(g.cycle + 1 >= cfg.maxCycles)]))
  {
    hide Superseded;
    hide Provenance;
    hide Owned;
    hide Budget;
    hide Log;
    hide Shape;
    hide Point;
    hide Learning;
    LessonPoint(cfg, g, d, g1);
  }
}
