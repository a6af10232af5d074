/** How each kind of durable write keeps the invariant of the pending checkpoint. */
module AgentFrames {
  import opened Contracts
  import opened AgentTypes
  import opened AgentModel
  import opened HoldVerifier
  import opened AgentInvariant

  // ---------------------------------------------------------------- new artifacts

  /** Only new artifacts. */
  ghost predicate Grown(d: Durable, e: Durable) {
    d.artifacts <= e.artifacts && e == d.(artifacts := e.artifacts)
  }

  lemma HeldGrown(cfg: Config, arts: set<Artifact>, more: set<Artifact>, g: Graph, verdict: Artifact)
    requires arts <= more && GoodHeld(cfg, arts, g, verdict)
    ensures GoodHeld(cfg, more, g, verdict)
  {
  }

  lemma LogGrown(cfg: Config, cycle: nat, arts: set<Artifact>, more: set<Artifact>, outcomes: map<nat, Outcome>)
    requires arts <= more && Log(cfg, cycle, arts, outcomes)
    ensures Log(cfg, cycle, more, outcomes)
  {
    forall c | c in outcomes ensures GoodRow(cfg, more, c, outcomes[c]) {
      assert GoodRow(cfg, arts, c, outcomes[c]);
    }
  }

  lemma DecisionGrown(cfg: Config, g: Graph, d: Durable, e: Durable)
    requires DecisionPoint(cfg, g, d) && Grown(d, e)
    ensures DecisionPoint(cfg, g, e)
  {
    hide GoodProof;
  }

  lemma RestoreGrown(cfg: Config, g: Graph, d: Durable, e: Durable)
    requires RestorePoint(cfg, g, d) && Grown(d, e)
    ensures RestorePoint(cfg, g, e)
  {
    hide GoodProof;
  }

  lemma PostcheckGrown(cfg: Config, g: Graph, d: Durable, e: Durable)
    requires PostcheckPoint(cfg, g, d) && Grown(d, e)
    ensures PostcheckPoint(cfg, g, e)
  {
    hide GoodProof;
    hide GoodHeld;
    if g.cycle in d.postchecks {
      HeldGrown(cfg, d.artifacts, e.artifacts, g, d.postchecks[g.cycle].verdict);
    }
  }

  lemma PrecheckGrown(cfg: Config, g: Graph, d: Durable, e: Durable)
    requires PrecheckPoint(cfg, g, d) && Grown(d, e)
    ensures PrecheckPoint(cfg, g, e)
  {
    hide GoodProof;
  }

  lemma RestoreCheckGrown(cfg: Config, g: Graph, d: Durable, e: Durable)
    requires RestoreCheckPoint(cfg, g, d) && Grown(d, e)
    ensures RestoreCheckPoint(cfg, g, e)
  {
    hide NothingLive;
    hide Settled;
    hide OutcomeOf;
    hide PolicyAction;
  }

  lemma EndsGrown(cfg: Config, g: Graph, d: Durable, e: Durable)
    requires Grown(d, e)
    ensures PlannerPoint(cfg, g, d) ==> PlannerPoint(cfg, g, e)
    ensures EndPoint(cfg, g, d) ==> EndPoint(cfg, g, e)
  {
  }

  lemma PointGrown(cfg: Config, g: Graph, d: Durable, e: Durable)
    requires Point(cfg, g, d) && Grown(d, e)
    ensures Point(cfg, g, e)
  {
    hide DecisionPoint;
    hide RestorePoint;
    hide PrecheckPoint;
    hide PostcheckPoint;
    hide RestoreCheckPoint;
    hide PlannerPoint;
    hide EndPoint;
    hide Grown;
    if g.next.Executor? {
      if g.operation.Restore? { RestoreGrown(cfg, g, d, e); } else { DecisionGrown(cfg, g, d, e); }
    } else if g.next.Validator? {
      if g.phase.Precheck? { PrecheckGrown(cfg, g, d, e); }
      else if g.phase.Postcheck? { PostcheckGrown(cfg, g, d, e); }
      else { RestoreCheckGrown(cfg, g, d, e); }
    } else {
      EndsGrown(cfg, g, d, e);
    }
  }

  lemma InvGrown(cfg: Config, g: Graph, d: Durable, e: Durable)
    requires Inv(cfg, g, d) && Grown(d, e)
    ensures Inv(cfg, g, e)
  {
    hide Superseded;
    hide Provenance;
    hide Point;
    hide Log;
    hide Budget;
    hide Owned;
    PointGrown(cfg, g, d, e);
    LogGrown(cfg, g.cycle, d.artifacts, e.artifacts, d.outcomes);
  }

  // ---------------------------------------------------------------- the adapter restores

  /** The journal after some cleanup, complete or not. */
  ghost predicate Cleaned(d: Durable, e: Durable) {
    && |e.adapter| == |d.adapter|
    && (forall i :: 0 <= i < |d.adapter| ==>
          e.adapter[i].id == d.adapter[i].id && (Live(e.adapter[i]) ==> Live(d.adapter[i])))
    && |e.trace| == |d.trace| + 1 && LastEvent(e).RestoreCalled?
    && (LastEvent(e).done ==> AllRestored(e.adapter))
    && e == d.(adapter := e.adapter, trace := d.trace + [LastEvent(e)])
  }

  function LastEvent(d: Durable): Event
    requires d.trace != []
  {
    d.trace[|d.trace| - 1]
  }

  /** What one call of the adapter's restore leaves. */
  lemma RestoreCalls(env: Env, s: St)
    ensures var r := AdapterRestore(env, s);
      && r.s.d == s.d.(adapter := SettleAll(s.d.adapter, env(s.t).settle), trace := s.d.trace + [RestoreCalled(r.Ok?)])
      && (r.Ok? ==> AllRestored(r.s.d.adapter))
      && (r.Fail? && r.why.Raise? ==> r.why.code.StageFailed?)
  {
    hide SettleAll;
    hide AllRestored;
  }

  lemma RestoreCleans(env: Env, s: St)
    ensures Cleaned(s.d, AdapterRestore(env, s).s.d)
  {
    RestoreCalls(env, s);
    hide AdapterRestore;
    hide AllRestored;
    var e := AdapterRestore(env, s).s.d;
    assert LastEvent(e) == RestoreCalled(AdapterRestore(env, s).Ok?);
  }

  lemma RestoredNotLive(adapter: seq<Record>)
    requires AllRestored(adapter)
    ensures NothingLive(adapter)
  {
  }

  lemma NothingLiveCleaned(d: Durable, e: Durable)
    requires Cleaned(d, e) && NothingLive(d.adapter)
    ensures NothingLive(e.adapter)
  {
    forall r | r in e.adapter ensures !Live(r) {
      var i :| 0 <= i < |e.adapter| && e.adapter[i] == r;
      assert d.adapter[i] in d.adapter;
    }
  }

  lemma ExecCleaned(cfg: Config, g: Graph, d: Durable, e: Durable, p: ExecPatch)
    requires GoodExec(cfg, g, d, p) && Cleaned(d, e)
    ensures GoodExec(cfg, g, e, p)
  {
    hide GoodHold;
    hide NothingLive;
    hide Writes;
    HistorySnoc(d.trace, LastEvent(e));
    if NothingLive(d.adapter) { NothingLiveCleaned(d, e); }
  }

  lemma DecisionCleaned(cfg: Config, g: Graph, d: Durable, e: Durable)
    requires DecisionPoint(cfg, g, d) && Cleaned(d, e)
    ensures DecisionPoint(cfg, g, e)
  {
    hide GoodProof;
    hide GoodExec;
    hide Writes;
    HistorySnoc(d.trace, LastEvent(e));
    if KeyOf(g) in d.executions { ExecCleaned(cfg, g, d, e, d.executions[KeyOf(g)]); }
  }

  lemma RestoreCleaned(cfg: Config, g: Graph, d: Durable, e: Durable)
    requires RestorePoint(cfg, g, d) && Cleaned(d, e)
    ensures RestorePoint(cfg, g, e)
  {
    hide GoodExec;
    if KeyOf(g) in d.executions { ExecCleaned(cfg, g, d, e, d.executions[KeyOf(g)]); }
  }

  lemma RestoreCheckCleaned(cfg: Config, g: Graph, d: Durable, e: Durable)
    requires RestoreCheckPoint(cfg, g, d) && Cleaned(d, e)
    ensures RestoreCheckPoint(cfg, g, e)
  {
    hide NothingLive;
    hide Settled;
    NothingLiveCleaned(d, e);
    HistorySnoc(d.trace, LastEvent(e));
  }

  /** The other points do not look at the adapter or at the history. */
  lemma OthersCleaned(cfg: Config, g: Graph, d: Durable, e: Durable)
    requires Cleaned(d, e)
    ensures PlannerPoint(cfg, g, d) ==> PlannerPoint(cfg, g, e)
    ensures PrecheckPoint(cfg, g, d) ==> PrecheckPoint(cfg, g, e)
    ensures PostcheckPoint(cfg, g, d) ==> PostcheckPoint(cfg, g, e)
    ensures EndPoint(cfg, g, d) ==> EndPoint(cfg, g, e)
  {
    hide CycleReady;
    hide GoodPrecheck;
    hide GoodHold;
    hide GoodApplied;
    hide GoodPost;
    hide GoodInputs;
    hide GoodPlan;
    hide OutcomeOf;
    hide Live;
    hide AllRestored;
  }

  lemma PointCleaned(cfg: Config, g: Graph, d: Durable, e: Durable)
    requires Point(cfg, g, d) && Cleaned(d, e)
    ensures Point(cfg, g, e)
  {
    hide DecisionPoint;
    hide RestorePoint;
    hide PrecheckPoint;
    hide PostcheckPoint;
    hide RestoreCheckPoint;
    hide PlannerPoint;
    hide EndPoint;
    hide Cleaned;
    if g.next.Executor? {
      if g.operation.Restore? { RestoreCleaned(cfg, g, d, e); } else { DecisionCleaned(cfg, g, d, e); }
    } else if g.next.Validator? && g.phase.RestoreCheck? {
      RestoreCheckCleaned(cfg, g, d, e);
    } else {
      OthersCleaned(cfg, g, d, e);
    }
  }

  lemma BudgetCleaned(cfg: Config, g: Graph, d: Durable, e: Durable)
    requires Budget(cfg, g, d.trace, d.operations.Keys) && Cleaned(d, e)
    ensures Budget(cfg, g, e.trace, e.operations.Keys)
  {
    hide Writes;
    hide Alternating;
    HistorySnoc(d.trace, LastEvent(e));
  }

  lemma OwnedCleaned(g: Graph, d: Durable, e: Durable)
    requires Owned(g, d.adapter, d.trace) && Cleaned(d, e)
    ensures Owned(g, e.adapter, e.trace)
  {
    hide Writes;
    hide Settled;
    hide NothingLive;
    HistorySnoc(d.trace, LastEvent(e));
    if NothingLive(d.adapter) { NothingLiveCleaned(d, e); }
  }

  /** An incomplete cleanup is on record; a complete one left every record restored. */
  lemma SupersededCleaned(d: Durable, e: Durable)
    requires Cleaned(d, e)
    ensures Superseded(e.adapter, e.trace)
  {
    CallSnoc(d.trace, LastEvent(e), |e.adapter| - 1);
    hide Incomplete;
    hide JustRestored;
    assert forall i :: 0 <= i < |e.adapter| ==> e.adapter[i] in e.adapter;
  }

  lemma InvCleaned(cfg: Config, g: Graph, d: Durable, e: Durable)
    requires Inv(cfg, g, d) && Cleaned(d, e)
    ensures Inv(cfg, g, e)
  {
    hide Superseded;
    hide Provenance;
    hide Point;
    hide Log;
    hide Budget;
    hide Owned;
    PointCleaned(cfg, g, d, e);
    SupersededCleaned(d, e);
    BudgetCleaned(cfg, g, d, e);
    OwnedCleaned(g, d, e);
  }

  // ---------------------------------------------------------------- another checkpoint

  /** The same tables under another checkpoint or context. */
  ghost predicate Recorded(d: Durable, e: Durable) {
    e == d.(graph := e.graph, context := e.context)
  }

  lemma ExecRecorded(cfg: Config, g: Graph, d: Durable, e: Durable, p: ExecPatch)
    requires GoodExec(cfg, g, d, p) && Recorded(d, e)
    ensures GoodExec(cfg, g, e, p)
  {
    hide GoodHold;
    hide NothingLive;
    hide Writes;
  }

  lemma ExecutorRecorded(cfg: Config, g: Graph, d: Durable, e: Durable)
    requires g.next.Executor? && Point(cfg, g, d) && Recorded(d, e)
    ensures Point(cfg, g, e)
  {
    hide GoodProof;
    hide GoodExec;
    hide CycleReady;
    hide WroteFrom;
    if KeyOf(g) in d.executions { ExecRecorded(cfg, g, d, e, d.executions[KeyOf(g)]); }
  }

  lemma ValidatorRecorded(cfg: Config, g: Graph, d: Durable, e: Durable)
    requires g.next.Validator? && Point(cfg, g, d) && Recorded(d, e)
    ensures Point(cfg, g, e)
  {
    hide GoodProof;
    hide GoodHeld;
    hide GoodHold;
    hide GoodApplied;
    hide GoodPost;
    hide CycleReady;
    hide OutcomeOf;
    hide NothingLive;
    hide GoodRestored;
    hide EarlierVerdict;
    hide GoodPrecheck;
    if g.phase.RestoreCheck? && g.cycle in d.restorations {
      assert GoodRestored(g, e.artifacts, e.trace, e.restorations[g.cycle]);
    }
  }

  lemma EndsRecorded(cfg: Config, g: Graph, d: Durable, e: Durable)
    requires (g.next.Planner? || g.next.End?) && Point(cfg, g, d) && Recorded(d, e)
    ensures Point(cfg, g, e)
  {
    hide GoodInputs;
    hide GoodPlan;
  }

  lemma InvRecorded(cfg: Config, g: Graph, d: Durable, e: Durable)
    requires Inv(cfg, g, d) && Recorded(d, e)
    ensures Inv(cfg, g, e)
  {
    hide Superseded;
    hide Provenance;
    hide Log;
    hide Budget;
    hide Owned;
    hide Point;
    hide Windows;
    hide Shape;
    match g.next
    case Executor => ExecutorRecorded(cfg, g, d, e);
    case Validator => ValidatorRecorded(cfg, g, d, e);
    case _ => EndsRecorded(cfg, g, d, e);
  }
}
