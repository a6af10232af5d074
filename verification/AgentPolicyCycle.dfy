/** What the nodes do while every collaborator answers: a policy without a verified effect is applied and undone. */
module AgentPolicyCycle {
  import opened Contracts
  import opened AgentTypes
  import opened AgentModel
  import opened AgentInvariant
  import opened AgentFrames
  import opened AgentCommits
  import opened AgentRuns
  import opened AgentProgress
  import Cohort

  // ---------------------------------------------------------------- executor: the write

  predicate AtApply(cfg: Config, g: Graph, d: Durable) {
    && g.next.Executor? && g.operation.Apply? && g.validated.Validated? && g.validated.selected.Some?
    && !g.validated.alreadyInstalled && g.validated.plan == g.plan && g.validated.before == g.before
    && (g.validated.round, g.validated.generation, g.validated.cycle) == (cfg.round, cfg.generation, g.cycle)
    && {g.validated, g.before, g.seal} <= d.artifacts && SealHolds(cfg, g.before, g.seal)
    && g.plan.Plan? && g.validated.qerBefore.Some?
    && OpKey(g.cycle, g.validated) !in d.operations && KeyOf(g) !in d.executions
  }

  /** The record of a write the adapter answers as installed. */
  function Written(g: Graph, d: Durable): Record
    requires g.plan.Plan? && g.validated.Validated? && g.validated.selected.Some?
  {
    Record(|d.adapter|, g.plan.response, g.validated.selected.value.id, Installed)
  }

  function WriteOf(g: Graph, d: Durable): Event
    requires g.validated.Validated? && g.validated.qerBefore.Some?
  {
    Executed(NativeWrite(g.cycle, g.attempt, |d.adapter|, g.validated.qerBefore.value))
  }

  /** The tables after the intent and the write. */
  function WrittenTables(g: Graph, d: Durable): Durable
    requires g.plan.Plan? && g.validated.Validated? && g.validated.selected.Some? && g.validated.qerBefore.Some?
  {
    d.(operations := d.operations[OpKey(g.cycle, g.validated) := IntentOnly(g.plan)],
       adapter := d.adapter + [Written(g, d)], trace := d.trace + [WriteOf(g, d)])
  }

  /** The adapter is free and answers installed. */
  predicate Installs(c: Choice, d: Durable) {
    c.fate.Proceeds? && !c.refuses && c.outcome.Installed? && forall r :: r in d.adapter ==> Resolved(r)
  }

  lemma Journals(env: Env, cfg: Config, g: Graph, s: St, t: nat, n: nat)
    requires Proceeding(env, t, n) && t <= s.t && s.t + 3 <= t + n && AtApply(cfg, g, s.d) && Installs(env(s.t + 2), s.d)
    ensures Receipt(env, g, g.validated, s) == Ok(St(WrittenTables(g, s.d), s.t + 3), Written(g, s.d))
  {
    hide Draw;
    hide SealHolds;
    hide KeyOf;
    Drawn(env, s, false, t, n);
    Drawn(env, St(s.d, s.t + 1), false, t, n);
    hide Proceeding;
    hide Resolved;
  }

  function ActionOf(g: Graph, receipt: Record, signature: Option<string>): Artifact
    requires g.validated.Validated? && g.validated.selected.Some? && g.validated.qerBefore.Some?
  {
    Action(receipt, g.validated.selected.value, g.validated.qerBefore.value, g.before, g.validated.holdSeal,
           g.validated, signature)
  }

  lemma Completes(env: Env, g: Graph, receipt: Record, response: string, s: St, t: nat, n: nat)
    requires Proceeding(env, t, n) && t <= s.t && s.t + 4 <= t + n
    requires g.validated.Validated? && g.validated.selected.Some? && g.validated.qerBefore.Some?
    ensures Complete(env, g, receipt, response, s)
         == Ok(St(s.d.(operations := s.d.operations[OpKey(g.cycle, g.validated) := Completed(receipt)],
                       artifacts := s.d.artifacts + {ActionOf(g, receipt, None)} + {ActionOf(g, receipt, Some(response))}), s.t + 4),
               Applied(ActionOf(g, receipt, Some(response)), g.changes + 1, g.cycle))
  {
    hide Draw;
    hide Put;
    Drawn(env, s, false, t, n);
    var d1 := s.d.(operations := s.d.operations[OpKey(g.cycle, g.validated) := Completed(receipt)]);
    Stores(env, St(d1, s.t + 1), ActionOf(g, receipt, None), t, n);
    var d2 := d1.(artifacts := d1.artifacts + {ActionOf(g, receipt, None)});
    Drawn(env, St(d2, s.t + 2), false, t, n);
    Stores(env, St(d2, s.t + 3), ActionOf(g, receipt, Some(response)), t, n);
  }

  /** The tables after an applied decision, with its execution not yet frozen. */
  function AppliedTables(g: Graph, response: string, d: Durable): Durable
    requires g.plan.Plan? && g.validated.Validated? && g.validated.selected.Some? && g.validated.qerBefore.Some?
  {
    var receipt := Written(g, d);
    d.(operations := d.operations[OpKey(g.cycle, g.validated) := Completed(receipt)],
       adapter := d.adapter + [receipt], trace := d.trace + [WriteOf(g, d)],
       artifacts := d.artifacts + {ActionOf(g, receipt, None)} + {ActionOf(g, receipt, Some(response))})
  }

  lemma Applies(env: Env, cfg: Config, g: Graph, s: St, t: nat, n: nat)
    requires Proceeding(env, t, n) && t <= s.t && s.t + 9 <= t + n && AtApply(cfg, g, s.d) && Installs(env(s.t + 4), s.d)
    ensures var response := env(s.t).response;
      ApplyDecision(env, cfg, g, s)
      == Ok(St(AppliedTables(g, response, s.d), s.t + 9),
            Applied(ActionOf(g, Written(g, s.d), Some(response)), g.changes + 1, g.cycle))
  {
    hide Draw;
    hide AcceptedBefore;
    hide Receipt;
    hide Complete;
    hide SealHolds;
    hide Installs;
    hide KeyOf;
    Drawn(env, s, true, t, n);
    Accepted(env, cfg, g.before, g.seal, St(s.d, s.t + 1), t, n);
    var s2 := St(s.d, s.t + 2);
    Journals(env, cfg, g, s2, t, n);
    var receipt := Written(g, s.d);
    Completes(env, g, receipt, env(s.t).response, St(WrittenTables(g, s.d), s.t + 5), t, n);
    var twice := s.d.operations[OpKey(g.cycle, g.validated) := IntentOnly(g.plan)][OpKey(g.cycle, g.validated) := Completed(receipt)];
    assert twice == s.d.operations[OpKey(g.cycle, g.validated) := Completed(receipt)];
    hide Proceeding;
    hide ActionOf;
  }

  lemma ExecutorApplies(env: Env, cfg: Config, g: Graph, s: St)
    requires Proceeding(env, s.t, 10) && AtApply(cfg, g, s.d) && Installs(env(s.t + 4), s.d)
    ensures var response := env(s.t).response;
      var patch := Applied(ActionOf(g, Written(g, s.d), Some(response)), g.changes + 1, g.cycle);
      var d1 := AppliedTables(g, response, s.d);
      ExecutorNode(env, cfg, g, s)
      == Ok(St(d1.(executions := d1.executions[KeyOf(g) := patch]), s.t + 10), Executed'(g, patch))
  {
    hide Draw;
    hide ApplyDecision;
    hide SealHolds;
    hide Executed';
    hide Installs;
    Applies(env, cfg, g, s, s.t, 10);
    Drawn(env, St(AppliedTables(g, env(s.t).response, s.d), s.t + 9), false, s.t, 10);
    hide Proceeding;
    assert Need(s, {BindingOf(g)}) == Ok(s, ());
  }

  /** A write that the adapter journaled, and then raised from. */
  function BrokenTables(g: Graph, state: RecordState, d: Durable): Durable
    requires g.plan.Plan? && g.validated.Validated? && g.validated.selected.Some? && g.validated.qerBefore.Some?
  {
    d.(operations := d.operations[OpKey(g.cycle, g.validated) := IntentOnly(g.plan)],
       adapter := d.adapter + [Written(g, d).(state := state)], trace := d.trace + [WriteOf(g, d)])
  }

  predicate Breaks(c: Choice, d: Durable) {
    c.fate.Raises? && !c.refuses && forall r :: r in d.adapter ==> Resolved(r)
  }

  lemma JournalBreaks(env: Env, cfg: Config, g: Graph, s: St, t: nat, n: nat)
    requires Proceeding(env, t, n) && t <= s.t && s.t + 2 <= t + n && AtApply(cfg, g, s.d) && Breaks(env(s.t + 2), s.d)
    ensures Receipt(env, g, g.validated, s)
         == Fail(St(BrokenTables(g, env(s.t + 2).outcome, s.d), s.t + 3), Raise(StageFailed))
  {
    hide Draw;
    hide SealHolds;
    hide KeyOf;
    Drawn(env, s, false, t, n);
    Drawn(env, St(s.d, s.t + 1), false, t, n);
    hide Proceeding;
    hide Resolved;
  }

  lemma WriteBreaks(env: Env, cfg: Config, g: Graph, s: St)
    requires Proceeding(env, s.t, 4) && AtApply(cfg, g, s.d) && Breaks(env(s.t + 4), s.d)
    ensures ApplyDecision(env, cfg, g, s)
         == Fail(St(BrokenTables(g, env(s.t + 4).outcome, s.d), s.t + 5), Raise(StageFailed))
  {
    hide Draw;
    hide AcceptedBefore;
    hide Receipt;
    hide Complete;
    hide SealHolds;
    hide Breaks;
    hide KeyOf;
    hide BrokenTables;
    Drawn(env, s, true, s.t, 4);
    Accepted(env, cfg, g.before, g.seal, St(s.d, s.t + 1), s.t, 4);
    JournalBreaks(env, cfg, g, St(s.d, s.t + 2), s.t, 4);
    hide Proceeding;
  }

  /** The executor whose write breaks publishes the end of the graph, with the record in the journal. */
  lemma BrokenTurn(env: Env, cfg: Config, g: Graph, s: St)
    requires Proceeding(env, s.t, 4) && AtApply(cfg, g, s.d) && Breaks(env(s.t + 4), s.d)
    requires env(s.t + 5).fate.Proceeds? && env(s.t + 6).fate.Proceeds?
    ensures var g1 := g.(next := End, error := Some(StageFailed));
      Step(env, cfg, g, s) == Ok(St(BrokenTables(g, env(s.t + 4).outcome, s.d).(graph := Some(g1)), s.t + 7), g1)
  {
    hide Draw;
    hide ApplyDecision;
    hide SealHolds;
    hide Breaks;
    hide KeyOf;
    hide BrokenTables;
    WriteBreaks(env, cfg, g, s);
    BrokenNode(env, cfg, g, s);
    hide ExecutorNode;
    var d1 := BrokenTables(g, env(s.t + 4).outcome, s.d);
    OutsideProceeds(env, St(d1, s.t + 5));
    OutsideProceeds(env, St(d1, s.t + 6));
    hide DrawOutside;
    hide Proceeding;
  }

  lemma BrokenNode(env: Env, cfg: Config, g: Graph, s: St)
    requires AtApply(cfg, g, s.d) && ApplyDecision(env, cfg, g, s).Fail?
    ensures var r := ApplyDecision(env, cfg, g, s);
      ExecutorNode(env, cfg, g, s) == Fail(r.s, r.why)
  {
    hide ApplyDecision;
    hide SealHolds;
    assert Need(s, {BindingOf(g)}) == Ok(s, ());
  }

  lemma OutsideProceeds(env: Env, s: St)
    requires env(s.t).fate.Proceeds?
    ensures DrawOutside(env, s) == Ok(St(s.d, s.t + 1), env(s.t))
  {
  }

  // ---------------------------------------------------------------- postcheck: not verified

  /** A policy that was applied in this cycle and is not measured yet. */
  predicate AtApplied(cfg: Config, g: Graph, d: Durable) {
    && g.next.Validator? && g.phase.Postcheck? && g.active.Action? && g.action == g.active
    && g.validated.Validated? && !g.validated.freshHold && g.before.Observation? && g.plan.Plan?
    && {g.before, g.validated, g.active, g.plan} <= d.artifacts
    && g.cycle !in d.windows && g.cycle !in d.postchecks
  }

  function UnverifiedVerdict(c: Choice, after: Artifact): Artifact {
    Verdict(c.effect, if c.effect.NoHoldout? then None else Some(c.improvement), after, true, None, None)
  }

  /** The window is live and fresh, and its effect is no verified one. */
  predicate Unverified(env: Env, cfg: Config, t: nat) {
    && env(t + 1).reading.live && Accepts(cfg, env(t + 1).reading, env(t + 1).now)
    && !env(t + 4).effect.NoOp? && !env(t + 4).effect.EffectVerified?
  }

  lemma JudgesPolicy(env: Env, cfg: Config, g: Graph, s: St, t: nat, n: nat)
    requires Proceeding(env, t, n) && t <= s.t && s.t + 5 <= t + n && AtApplied(cfg, g, s.d) && Unverified(env, cfg, s.t)
    ensures var after := BeforeOf(env(s.t + 1));
      Judge(env, cfg, g, s)
      == Ok(St(s.d.(artifacts := s.d.artifacts + {after}, windows := s.d.windows[g.cycle := after]), s.t + 5),
            UnverifiedVerdict(env(s.t + 4), after))
  {
    hide Draw;
    hide Measure;
    hide Accepts;
    hide SameScope;
    hide NativeFor;
    Drawn(env, s, true, t, n);
    Measures(env, cfg, g, St(s.d, s.t + 1), t, n);
    var after := BeforeOf(env(s.t + 1));
    var d1 := s.d.(artifacts := s.d.artifacts + {after}, windows := s.d.windows[g.cycle := after]);
    assert Need(St(d1, s.t + 4), {after}) == Ok(St(d1, s.t + 4), ());
    Drawn(env, St(d1, s.t + 4), false, t, n);
    hide Proceeding;
  }

  /** The tables after an unverified verdict. */
  function RefusedTables(g: Graph, after: Artifact, verdict: Artifact, d: Durable): Durable
    requires verdict.Verdict?
  {
    d.(artifacts := d.artifacts + {after} + {verdict}, windows := d.windows[g.cycle := after],
       postchecks := d.postchecks[g.cycle := PostPatch(verdict, after, g.active, true)])
  }

  lemma ChecksPolicy(env: Env, cfg: Config, g: Graph, s: St, t: nat, n: nat)
    requires Proceeding(env, t, n) && t <= s.t && s.t + 8 <= t + n && AtApplied(cfg, g, s.d) && Unverified(env, cfg, s.t)
    ensures var after := BeforeOf(env(s.t + 1));
      var verdict := UnverifiedVerdict(env(s.t + 4), after);
      CheckEffect(env, cfg, g, s)
      == Ok(St(RefusedTables(g, after, verdict, s.d), s.t + 8), PostPatch(verdict, after, g.active, true))
  {
    hide Draw;
    hide Judge;
    hide StoreVerdict;
    hide Unverified;
    var after := BeforeOf(env(s.t + 1));
    var verdict := UnverifiedVerdict(env(s.t + 4), after);
    assert Need(s, PostcheckRefs(g)) == Ok(s, ());
    hide PostcheckRefs;
    JudgesPolicy(env, cfg, g, s, t, n);
    var d1 := s.d.(artifacts := s.d.artifacts + {after}, windows := s.d.windows[g.cycle := after]);
    Drawn(env, St(d1, s.t + 5), false, t, n);
    StoresVerdict(env, g, verdict, env(s.t + 5).response, St(d1, s.t + 6), t, n);
    hide Proceeding;
  }

  function UndoRequest(cfg: Config, g: Graph): Artifact {
    RestoreRequest(cfg.round, cfg.generation, g.cycle, g.active, g.plan, EffectNotVerified)
  }

  /** The state in which an unverified policy is given back to the executor. */
  function Refused(cfg: Config, g: Graph, after: Artifact, verdict: Artifact): Graph {
    g.(verdict := verdict, after := after, operation := Restore, request := UndoRequest(cfg, g), next := Executor)
  }

  lemma PostcheckRefuses(env: Env, cfg: Config, g: Graph, s: St)
    requires Proceeding(env, s.t, 9) && AtApplied(cfg, g, s.d) && Unverified(env, cfg, s.t)
    ensures var after := BeforeOf(env(s.t + 1));
      var verdict := UnverifiedVerdict(env(s.t + 4), after);
      var d1 := RefusedTables(g, after, verdict, s.d);
      PostcheckNode(env, cfg, g, s)
      == Ok(St(d1.(artifacts := d1.artifacts + {UndoRequest(cfg, g)}), s.t + 9), Refused(cfg, g, after, verdict))
  {
    hide CheckEffect;
    hide Finish;
    hide Put;
    hide Unverified;
    ChecksPolicy(env, cfg, g, s, s.t, 9);
    var after := BeforeOf(env(s.t + 1));
    var d1 := RefusedTables(g, after, UnverifiedVerdict(env(s.t + 4), after), s.d);
    Stores(env, St(d1, s.t + 8), UndoRequest(cfg, g), s.t, 9);
    hide Proceeding;
  }

  // ---------------------------------------------------------------- executor: the restoration

  predicate AtUndo(cfg: Config, g: Graph, d: Durable) {
    && g.next.Executor? && g.operation.Restore? && g.active.Action? && PolicyAction(g) == g.active
    && RequestMatches(cfg, g) && g.request in d.artifacts && KeyOf(g) !in d.executions
  }

  /** The cleanup settles every record. */
  predicate Settles(c: Choice, d: Durable) {
    c.fate.Proceeds? && forall i :: 0 <= i < |d.adapter| ==> c.settle(i).Restored?
  }

  lemma RestoresAll(env: Env, s: St)
    requires Settles(env(s.t), s.d)
    ensures var settled := SettleAll(s.d.adapter, env(s.t).settle);
      AllRestored(settled)
      && AdapterRestore(env, s) == Ok(St(s.d.(adapter := settled, trace := s.d.trace + [RestoreCalled(true)]), s.t + 1), ())
  {
    var settled := SettleAll(s.d.adapter, env(s.t).settle);
    forall r | r in settled ensures r.state.Restored? {
      var i :| 0 <= i < |settled| && settled[i] == r;
    }
    hide SettleAll;
  }

  /** The tables after the restoration, with its execution frozen. */
  function UndoneTables(g: Graph, response: string, settled: seq<Record>, d: Durable): Durable {
    var restoration := Restoration(g.active, response);
    d.(adapter := settled, trace := d.trace + [RestoreCalled(true)], artifacts := d.artifacts + {restoration},
       executions := d.executions[KeyOf(g) := Undone(restoration)])
  }

  lemma ExecutorUndoes(env: Env, cfg: Config, g: Graph, s: St)
    requires Proceeding(env, s.t, 5) && AtUndo(cfg, g, s.d) && Settles(env(s.t + 1), s.d)
    ensures var settled := SettleAll(s.d.adapter, env(s.t + 1).settle);
      ExecutorNode(env, cfg, g, s)
      == Ok(St(UndoneTables(g, env(s.t).response, settled, s.d), s.t + 5), g.(next := Validator, phase := RestoreCheck))
  {
    hide Draw;
    hide Put;
    hide AdapterRestore;
    hide SettleAll;
    hide Settles;
    hide AllRestored;
    hide PolicyAction;
    hide RequestMatches;
    Drawn(env, s, false, s.t, 5);
    RestoresAll(env, St(s.d, s.t + 1));
    var d1 := s.d.(adapter := SettleAll(s.d.adapter, env(s.t + 1).settle), trace := s.d.trace + [RestoreCalled(true)]);
    Drawn(env, St(d1, s.t + 2), false, s.t, 5);
    var restoration := Restoration(g.active, env(s.t).response);
    Stores(env, St(d1, s.t + 3), restoration, s.t, 5);
    Drawn(env, St(d1.(artifacts := d1.artifacts + {restoration}), s.t + 4), false, s.t, 5);
    hide Proceeding;
    assert Need(s, {BindingOf(g)}) == Ok(s, ());
  }

  // ---------------------------------------------------------------- restore check

  predicate AtUndone(cfg: Config, g: Graph, d: Durable) {
    && g.next.Validator? && g.phase.RestoreCheck? && g.active.Action? && PolicyAction(g) == g.active
    && g.before.Observation? && g.plan.Plan? && g.verdict.Verdict?
    && {g.active, g.before, g.plan, g.verdict} <= d.artifacts && InTable(d.artifacts, g.action)
    && g.cycle !in d.restorations && g.cycle !in d.lessons && g.cycle !in d.outcomes
  }

  /** The tables after a verified restoration. */
  function CheckedBack(g: Graph, d: Durable): Durable
    requires g.active.Action?
  {
    d.(trace := d.trace + [RestoreVerified(g.active.receipt.id, g.active.baseline)],
       artifacts := d.artifacts + {g.verdict}, restorations := d.restorations[g.cycle := RestorePatch(g.verdict)])
  }

  lemma ChecksBack(env: Env, cfg: Config, g: Graph, s: St, t: nat, n: nat)
    requires Proceeding(env, t, n) && t <= s.t && s.t + 4 <= t + n && AtUndone(cfg, g, s.d)
    requires NativeFor(cfg, g.before.reading.rows, env(s.t).native) && env(s.t).native == g.active.baseline
    ensures CheckRestoration(env, cfg, g, s) == Ok(St(CheckedBack(g, s.d), s.t + 4), RestorePatch(g.verdict))
  {
    hide Draw;
    hide Put;
    hide NativeFor;
    hide PolicyAction;
    assert Need(s, {g.active, g.before}) == Ok(s, ());
    Drawn(env, s, false, t, n);
    var d1 := s.d.(trace := s.d.trace + [RestoreVerified(g.active.receipt.id, g.active.baseline)]);
    Drawn(env, St(d1, s.t + 1), false, t, n);
    Stores(env, St(d1, s.t + 2), g.verdict, t, n);
    Drawn(env, St(d1.(artifacts := d1.artifacts + {g.verdict}), s.t + 3), false, t, n);
    hide Proceeding;
  }

  /** The state an undone cycle is learned in. */
  function UndoneState(g: Graph): Graph {
    g.(active := NoRef)
  }

  lemma RestoreCheckLearns(env: Env, cfg: Config, g: Graph, s: St)
    requires Proceeding(env, s.t, 9) && AtUndone(cfg, g, s.d)
    requires NativeFor(cfg, g.before.reading.rows, env(s.t).native) && env(s.t).native == g.active.baseline
    ensures var g1 := UndoneState(g);
      RestoreCheckNode(env, cfg, g, s)
      == Ok(St(LearnedTables(cfg, g1, OutcomeOf(g1), CheckedBack(g, s.d)), s.t + 9),
            NextCycle(g1, g.cycle + 1 >= cfg.maxCycles))
  {
    hide CheckRestoration;
    hide Finish;
    hide NativeFor;
    hide OutcomeOf;
    ChecksBack(env, cfg, g, s, s.t, 9);
    var g1 := UndoneState(g);
    assert InTable(s.d.artifacts, PolicyAction(g1));
    assert g.(active := NoRef, verdict := g.verdict) == g1;
    hide PolicyAction;
    Finishes(env, cfg, g1, St(CheckedBack(g, s.d), s.t + 4), s.t, 9);
    hide Proceeding;
  }

  // ---------------------------------------------------------------- whole turns

  predicate NoRestoration(d: Durable, c: nat) {
    c !in d.restorations && forall k :: k in d.executions && k.cycle == c ==> !k.operation.Restore?
  }

  /** A decided policy that only has to be written. */
  ghost predicate PolicyDecided(cfg: Config, rows: seq<Row>, native: Inventory, g: Graph, d: Durable) {
    && AtApply(cfg, g, d) && g.active == NoRef && g.validated.qerBefore == Some(native) && !g.validated.freshHold
    && g.before.Observation? && g.before.reading.rows == rows && g.plan in d.artifacts
    && NoExecutions(d, g.cycle) && NoResult(d, g.cycle) && NoLesson(d, g.cycle)
  }

  /** A written policy that only has to be measured. */
  ghost predicate PolicyApplied(cfg: Config, rows: seq<Row>, native: Inventory, g: Graph, d: Durable) {
    && AtApplied(cfg, g, d) && g.active.baseline == native && g.before.reading.rows == rows
    && NoRestoration(d, g.cycle) && NoLesson(d, g.cycle)
  }

  /** A measured policy that only has to be undone. */
  ghost predicate PolicyRefused(cfg: Config, rows: seq<Row>, native: Inventory, g: Graph, d: Durable) {
    && AtUndo(cfg, g, d) && g.active.baseline == native && g.before.Observation? && g.before.reading.rows == rows
    && g.plan.Plan? && g.verdict.Verdict? && {g.active, g.before, g.plan, g.verdict} <= d.artifacts
    && InTable(d.artifacts, g.action) && g.cycle !in d.restorations && NoLesson(d, g.cycle)
  }

  /** An undone policy that only has to be checked. */
  ghost predicate PolicyUndone(cfg: Config, rows: seq<Row>, native: Inventory, g: Graph, d: Durable) {
    AtUndone(cfg, g, d) && g.active.baseline == native && g.before.reading.rows == rows
  }

  /** The same cycle, with the same budget and log. */
  predicate SameBudget(g: Graph, d: Durable, g1: Graph, d1: Durable) {
    && g1.cycle == g.cycle && g1.stop == g.stop && g1.error == g.error
    && g1.changes == g.changes && g1.lastChange == g.lastChange && d1.outcomes == d.outcomes
  }

  /** A precheck over this candidate. */
  lemma PolicyIsReady(cfg: Config, offer: seq<Candidate>, chosen: Candidate, native: Inventory, response: string,
                      g: Graph, d: Durable, g1: Graph, d1: Durable)
    requires AtPrecheck(cfg, g, d) && g.plan.verb.ApplyPolicy? && Find(offer, g.plan.group, g.plan.profile) == Some(chosen)
    requires CanChange(cfg, g) && NativeFor(cfg, g.before.reading.rows, native)
    requires NoExecutions(d, g.cycle) && NoResult(d, g.cycle) && NoLesson(d, g.cycle)
    requires g1.validated == Signed(Proof(cfg, g, Chosen(g, offer), native), response) && g1.validated in d1.artifacts
    requires g1 == g.(validated := g1.validated, operation := if g1.validated.selected.Some? then Apply else Hold,
                      next := Executor)
    requires d1 == d.(artifacts := d1.artifacts, prechecks := d1.prechecks, graph := Some(g1)) && d.artifacts <= d1.artifacts
    ensures PolicyDecided(cfg, g.before.reading.rows, native, g1, d1) && g1.validated.selected == Some(chosen)
  {
    hide SealHolds;
    hide NativeFor;
    hide CanChange;
  }

  lemma PolicyIsApproved(cfg: Config, offer: seq<Candidate>, native: Inventory, g: Graph, d: Durable)
    requires AtPrecheck(cfg, g, d) && CanChange(cfg, g) && NativeFor(cfg, g.before.reading.rows, native)
    ensures ProofRefusal(cfg, g, Proof(cfg, g, Chosen(g, offer), native), native).None?
  {
    hide SealHolds;
    hide NativeFor;
    hide CanChange;
    hide Chosen;
  }

  /** The tables and the state after the write was published. */
  function AppliedState(g: Graph, response: string, d: Durable): Graph
    requires g.plan.Plan? && g.validated.Validated? && g.validated.selected.Some? && g.validated.qerBefore.Some?
  {
    Executed'(g, Applied(ActionOf(g, Written(g, d), Some(response)), g.changes + 1, g.cycle))
  }

  function FrozenTables(g: Graph, response: string, d: Durable): Durable
    requires g.plan.Plan? && g.validated.Validated? && g.validated.selected.Some? && g.validated.qerBefore.Some?
  {
    var patch := Applied(ActionOf(g, Written(g, d), Some(response)), g.changes + 1, g.cycle);
    var d1 := AppliedTables(g, response, d);
    d1.(executions := d1.executions[KeyOf(g) := patch], graph := Some(AppliedState(g, response, d)))
  }

  lemma AppliedStage(cfg: Config, rows: seq<Row>, native: Inventory, response: string, g: Graph, d: Durable)
    requires PolicyDecided(cfg, rows, native, g, d)
    ensures PolicyApplied(cfg, rows, native, AppliedState(g, response, d), FrozenTables(g, response, d))
  {
    hide SealHolds;
  }

  lemma ApplyTurn(env: Env, cfg: Config, rows: seq<Row>, native: Inventory, g: Graph, s: St) returns (g1: Graph, s1: St)
    requires cfg.Valid() && Quiet(env) && At(cfg, g, s) && PolicyDecided(cfg, rows, native, g, s.d)
    requires Proceeding(env, s.t, 11) && Installs(env(s.t + 4), s.d)
    ensures Step(env, cfg, g, s) == Ok(s1, g1) && At(cfg, g1, s1) && s1.t == s.t + 11
    ensures PolicyApplied(cfg, rows, native, g1, s1.d) && g1.cycle == g.cycle && g1.stop == g.stop && g1.error == g.error
    ensures g1.changes == g.changes + 1 && g1.lastChange == g.cycle && s1.d.outcomes == s.d.outcomes
    ensures s1.d.adapter == s.d.adapter + [Written(g, s.d)] && s1.d.trace == s.d.trace + [WriteOf(g, s.d)]
    ensures g1.active.receipt == Written(g, s.d)
  {
    hide Inv;
    hide Stored;
    hide At;
    hide Step;
    hide ExecutorNode;
    hide SealHolds;
    hide Installs;
    hide Proceeding;
    hide PolicyApplied;
    AppliedStage(cfg, rows, native, env(s.t).response, g, s.d);
    ProceedingPart(env, s.t, 11);
    ExecutorApplies(env, cfg, g, s);
    var response := env(s.t).response;
    var patch := Applied(ActionOf(g, Written(g, s.d), Some(response)), g.changes + 1, g.cycle);
    var d1 := AppliedTables(g, response, s.d);
    var d2 := d1.(executions := d1.executions[KeyOf(g) := patch]);
    g1 := AppliedState(g, response, s.d);
    s1 := St(FrozenTables(g, response, s.d), s.t + 11);
    Steps(env, cfg, g, s, d2, s.t + 10, g1);
    Arrives(env, cfg, g, s, g1, s1);
  }

  lemma RefuseTurn(env: Env, cfg: Config, rows: seq<Row>, native: Inventory, g: Graph, s: St) returns (g1: Graph, s1: St)
    requires cfg.Valid() && Quiet(env) && At(cfg, g, s) && PolicyApplied(cfg, rows, native, g, s.d)
    requires Proceeding(env, s.t, 10) && Unverified(env, cfg, s.t)
    ensures Step(env, cfg, g, s) == Ok(s1, g1) && At(cfg, g1, s1) && s1.t == s.t + 10
    ensures PolicyRefused(cfg, rows, native, g1, s1.d) && SameBudget(g, s.d, g1, s1.d) && g1.active == g.active
    ensures s1.d.adapter == s.d.adapter && s1.d.trace == s.d.trace
  {
    hide Inv;
    hide Stored;
    hide At;
    hide Step;
    hide PostcheckNode;
    hide Unverified;
    hide Proceeding;
    ProceedingPart(env, s.t, 10);
    PostcheckRefuses(env, cfg, g, s);
    var after := BeforeOf(env(s.t + 1));
    var verdict := UnverifiedVerdict(env(s.t + 4), after);
    var d1 := RefusedTables(g, after, verdict, s.d);
    var d2 := d1.(artifacts := d1.artifacts + {UndoRequest(cfg, g)});
    g1 := Refused(cfg, g, after, verdict);
    s1 := St(d2.(graph := Some(g1)), s.t + 10);
    Steps(env, cfg, g, s, d2, s.t + 9, g1);
    Arrives(env, cfg, g, s, g1, s1);
  }

  lemma UndoTurn(env: Env, cfg: Config, rows: seq<Row>, native: Inventory, g: Graph, s: St) returns (g1: Graph, s1: St)
    requires cfg.Valid() && Quiet(env) && At(cfg, g, s) && PolicyRefused(cfg, rows, native, g, s.d)
    requires Proceeding(env, s.t, 6) && Settles(env(s.t + 1), s.d)
    ensures Step(env, cfg, g, s) == Ok(s1, g1) && At(cfg, g1, s1) && s1.t == s.t + 6
    ensures PolicyUndone(cfg, rows, native, g1, s1.d) && SameBudget(g, s.d, g1, s1.d) && g1.active == g.active
    ensures |s1.d.adapter| == |s.d.adapter| && AllRestored(s1.d.adapter)
    ensures s1.d.trace == s.d.trace + [RestoreCalled(true)]
  {
    hide Inv;
    hide Stored;
    hide At;
    hide Step;
    hide ExecutorNode;
    hide Settles;
    hide AllRestored;
    hide RequestMatches;
    hide Proceeding;
    hide KeyOf;
    ProceedingPart(env, s.t, 6);
    RestoresAll(env, St(s.d, s.t + 1));
    ExecutorUndoes(env, cfg, g, s);
    var d1 := UndoneTables(g, env(s.t).response, SettleAll(s.d.adapter, env(s.t + 1).settle), s.d);
    g1 := g.(next := Validator, phase := RestoreCheck);
    s1 := St(d1.(graph := Some(g1)), s.t + 6);
    Steps(env, cfg, g, s, d1, s.t + 5, g1);
    Arrives(env, cfg, g, s, g1, s1);
    hide SettleAll;
  }

  lemma LearnTurn(env: Env, cfg: Config, rows: seq<Row>, native: Inventory, g: Graph, s: St) returns (g1: Graph, s1: St)
    requires cfg.Valid() && Quiet(env) && At(cfg, g, s) && PolicyUndone(cfg, rows, native, g, s.d)
    requires Proceeding(env, s.t, 10) && NativeFor(cfg, rows, native) && env(s.t).native == native
    ensures Step(env, cfg, g, s) == Ok(s1, g1) && At(cfg, g1, s1) && s1.t == s.t + 10
    ensures g1.active == NoRef && g1.cycle == g.cycle + 1 && g1.attempt == 0 && g1.error == g.error
    ensures g1.changes == g.changes && g1.lastChange == g.lastChange
    ensures if g.cycle + 1 >= cfg.maxCycles then g1.next.End? && g1.stop.CycleLimit? else g1.next.Planner? && g1.stop == g.stop
    ensures s1.d.outcomes.Keys == s.d.outcomes.Keys + {g.cycle} && s1.d.adapter == s.d.adapter
    ensures s1.d.trace == s.d.trace + [RestoreVerified(g.active.receipt.id, native)]
    ensures s1.d.inputs == s.d.inputs && s1.d.proposals == s.d.proposals
  {
    hide Inv;
    hide Stored;
    hide At;
    hide Step;
    hide RestoreCheckNode;
    hide NativeFor;
    hide OutcomeOf;
    hide PolicyAction;
    hide Proceeding;
    ProceedingPart(env, s.t, 10);
    RestoreCheckLearns(env, cfg, g, s);
    var g2 := UndoneState(g);
    var d1 := LearnedTables(cfg, g2, OutcomeOf(g2), CheckedBack(g, s.d));
    g1 := NextCycle(g2, g.cycle + 1 >= cfg.maxCycles);
    s1 := St(d1.(graph := Some(g1)), s.t + 10);
    Steps(env, cfg, g, s, d1, s.t + 9, g1);
    Arrives(env, cfg, g, s, g1, s1);
  }

  // ---------------------------------------------------------------- a whole cycle

  /** The model asks for a candidate of the offer, and the budget allows it. */
  predicate Asks(cfg: Config, g: Graph, offer: seq<Candidate>, ask: Ask) {
    ask.verb.ApplyPolicy? && Find(offer, ask.group, ask.profile).Some? && CanChange(cfg, g)
  }

  lemma AskedNotRefused(cfg: Config, g: Graph, offer: seq<Candidate>, before: Artifact, c: Choice)
    requires Asks(cfg, g, offer, c.ask)
    ensures Refusal(cfg, g, offer, c.ask).None?
    ensures var plan := PlanOf(before, c);
      plan.verb.ApplyPolicy? && Find(offer, plan.group, plan.profile).Some?
  {
    hide Find;
    hide CanChange;
  }

  /** Planned and approved. */
  lemma PolicyDecision(env: Env, cfg: Config, rows: seq<Row>, native: Inventory, offer: seq<Candidate>, g: Graph, s: St)
      returns (g1: Graph, s1: St, g2: Graph, s2: St)
    requires cfg.Valid() && Quiet(env) && At(cfg, g, s) && g.next.Planner? && g.active == NoRef && Fresh(g, s.d)
    requires Commissionable(cfg, rows, native) && Cohort.Commissioned(rows, cfg.profiles) == Some(offer)
    requires Calm(env, cfg, rows, native, s.t, 17) && Asks(cfg, g, offer, env(s.t + 5).ask)
    ensures Step(env, cfg, g, s) == Ok(s1, g1) && !g1.next.End? && Step(env, cfg, g1, s1) == Ok(s2, g2)
    ensures At(cfg, g2, s2) && s2.t == s.t + 17
    ensures PolicyDecided(cfg, rows, native, g2, s2.d) && SameCycle(g, s.d, g2, s2.d)
  {
    hide Inv;
    hide Stored;
    hide At;
    hide Step;
    hide Refusal;
    hide Proof;
    hide Signed;
    hide ProofRefusal;
    hide Chosen;
    hide CanChange;
    hide Find;
    hide SealHolds;
    CalmPart(env, cfg, rows, native, s.t, 17, s.t, 10);
    CalmPart(env, cfg, rows, native, s.t, 17, s.t + 10, 7);
    CalmProceeds(env, cfg, rows, native, s.t + 10, 7);
    CalmAt(env, cfg, rows, native, s.t, 17, s.t);
    CalmAt(env, cfg, rows, native, s.t, 17, s.t + 10);
    hide Calm;
    hide Proceeding;
    hide NativeFor;
    hide DistinctSupis;
    AskedNotRefused(cfg, g, offer, BeforeOf(env(s.t)), env(s.t + 5));
    g1, s1 := PlannerTurn(env, cfg, rows, native, g, s);
    PrecheckPointFacts(cfg, g1, s1);
    assert Offer(cfg, g1.before) == Some(offer);
    hide Offer;
    BudgetKept(cfg, g, g1);
    PolicyIsApproved(cfg, offer, native, g1, s1.d);
    g2, s2 := PrecheckTurn(env, cfg, offer, g1, s1);
    var chosen := Find(offer, g1.plan.group, g1.plan.profile).value;
    PolicyIsReady(cfg, offer, chosen, native, env(s1.t).response, g1, s1.d, g2, s2.d);
    AtContext(cfg, g, s, g2, s2);
    hide PolicyDecided;
    hide AtPrecheck;
  }

  lemma BudgetKept(cfg: Config, g: Graph, g1: Graph)
    requires g1.cycle == g.cycle && g1.changes == g.changes && g1.lastChange == g.lastChange
    ensures CanChange(cfg, g1) <==> CanChange(cfg, g)
  {
  }

  /** What an applied and undone cycle leaves: one change spent, every record restored, one more row. */
  predicate CycleUndone(g: Graph, d: Durable, g1: Graph, d1: Durable) {
    && g1.active == NoRef && g1.cycle == g.cycle + 1 && g1.attempt == 0 && g1.error == g.error
    && g1.changes == g.changes + 1 && g1.lastChange == g.cycle
    && |d1.adapter| == |d.adapter| + 1 && AllRestored(d1.adapter) && d1.outcomes.Keys == d.outcomes.Keys + {g.cycle}
  }

  ghost predicate SettlesAll(c: Choice) {
    c.fate.Proceeds? && forall i: nat :: c.settle(i).Restored?
  }

  /** The four nodes after the decision. */
  lemma PolicyTurns(env: Env, cfg: Config, rows: seq<Row>, native: Inventory, t: nat, g: Graph, s: St, limit: nat)
      returns (g4: Graph, s4: St)
    requires cfg.Valid() && Quiet(env) && At(cfg, g, s) && PolicyDecided(cfg, rows, native, g, s.d) && limit >= 4
    requires NativeFor(cfg, rows, native) && Calm(env, cfg, rows, native, t, 37) && s.t == t
    requires Installs(env(t + 4), s.d) && Unverified(env, cfg, t + 11)
    requires SettlesAll(env(t + 22))
    ensures Invoke(env, cfg, g, s, limit) == Invoke(env, cfg, g4, s4, limit - 4)
    ensures At(cfg, g4, s4) && s4.t == t + 37 && Fresh(g4, s4.d) && CycleUndone(g, s.d, g4, s4.d)
    ensures if g.cycle + 1 >= cfg.maxCycles then g4.next.End? && g4.stop.CycleLimit? else g4.next.Planner? && g4.stop == g.stop
  {
    hide *;
    CalmProceeds(env, cfg, rows, native, t, 37);
    CalmNative(env, cfg, rows, native, t, 37, t + 27);
    ProceedingSplit(env, t, 11, 10, 6, 10);
    StagesRun(cfg, rows, native, g, s.d);
    var g1, s1 := ApplyTurn(env, cfg, rows, native, g, s);
    StagesRun(cfg, rows, native, g1, s1.d);
    var g2, s2 := RefuseTurn(env, cfg, rows, native, g1, s1);
    StagesRun(cfg, rows, native, g2, s2.d);
    SettlesThem(env(t + 22), s2.d);
    var g3, s3 := UndoTurn(env, cfg, rows, native, g2, s2);
    StagesRun(cfg, rows, native, g3, s3.d);
    NothingLater(cfg, g3, s3);
    g4, s4 := LearnTurn(env, cfg, rows, native, g3, s3);
    SameBudgetIs(g1, s1.d, g2, s2.d);
    SameBudgetIs(g2, s2.d, g3, s3.d);
    FreshNext(g3, s3.d, g4, s4.d);
    UndoneIs(g, s.d, g4, s4.d);
    FourNodes(env, cfg, g, s, limit, g1, s1, g2, s2, g3, s3, g4, s4);
  }

  lemma CalmNative(env: Env, cfg: Config, rows: seq<Row>, native: Inventory, t: nat, n: nat, u: nat)
    requires Calm(env, cfg, rows, native, t, n) && t <= u < t + n
    ensures env(u).native == native
  {
    CalmAt(env, cfg, rows, native, t, n, u);
    hide Calm;
  }

  lemma SettlesThem(c: Choice, d: Durable)
    requires SettlesAll(c)
    ensures Settles(c, d)
  {
  }

  lemma SameBudgetIs(g: Graph, d: Durable, g1: Graph, d1: Durable)
    requires SameBudget(g, d, g1, d1)
    ensures g1.cycle == g.cycle && g1.stop == g.stop && g1.error == g.error
    ensures g1.changes == g.changes && g1.lastChange == g.lastChange && d1.outcomes == d.outcomes
  {
  }

  lemma FreshNext(g: Graph, d: Durable, g1: Graph, d1: Durable)
    requires (forall c :: c in d.inputs ==> c <= g.cycle) && (forall k :: k in d.proposals ==> k.0 <= g.cycle)
    requires d1.inputs == d.inputs && d1.proposals == d.proposals && g1.cycle == g.cycle + 1
    ensures Fresh(g1, d1)
  {
  }

  lemma UndoneIs(g: Graph, d: Durable, g1: Graph, d1: Durable)
    requires g1.active == NoRef && g1.cycle == g.cycle + 1 && g1.attempt == 0 && g1.error == g.error
    requires g1.changes == g.changes + 1 && g1.lastChange == g.cycle && |d1.adapter| == |d.adapter| + 1
    requires AllRestored(d1.adapter) && d1.outcomes.Keys == d.outcomes.Keys + {g.cycle}
    ensures CycleUndone(g, d, g1, d1)
  {
    hide AllRestored;
  }

  lemma StagesRun(cfg: Config, rows: seq<Row>, native: Inventory, g: Graph, d: Durable)
    requires PolicyDecided(cfg, rows, native, g, d) || PolicyApplied(cfg, rows, native, g, d)
          || PolicyRefused(cfg, rows, native, g, d) || PolicyUndone(cfg, rows, native, g, d)
    ensures !g.next.End?
  {
    hide SealHolds;
    hide KeyOf;
  }

  lemma ProceedingSplit(env: Env, t: nat, a: nat, b: nat, c: nat, d: nat)
    requires Proceeding(env, t, a + b + c + d)
    ensures Proceeding(env, t, a) && Proceeding(env, t + a, b) && Proceeding(env, t + a + b, c)
    ensures Proceeding(env, t + a + b + c, d)
  {
  }

  /** Two nodes in a row. */
  lemma TwoNodes(env: Env, cfg: Config, g: Graph, s: St, limit: nat, g1: Graph, s1: St, g2: Graph, s2: St)
    requires limit >= 2 && !g.next.End? && !g1.next.End?
    requires Step(env, cfg, g, s) == Ok(s1, g1) && Step(env, cfg, g1, s1) == Ok(s2, g2)
    ensures Invoke(env, cfg, g, s, limit) == Invoke(env, cfg, g2, s2, limit - 2)
  {
    hide Step;
    assert Invoke(env, cfg, g, s, limit) == Invoke(env, cfg, g1, s1, limit - 1);
    assert Invoke(env, cfg, g1, s1, limit - 1) == Invoke(env, cfg, g2, s2, limit - 2);
  }

  /**
   While every collaborator answers, the model asks for an offered candidate, and the measured effect
   is no verified one, a cycle takes six nodes: one native write, its complete restoration, and a row.
   */
  lemma PolicyCycle(env: Env, cfg: Config, rows: seq<Row>, native: Inventory, offer: seq<Candidate>,
                    g: Graph, s: St, limit: nat) returns (g1: Graph, s1: St)
    requires cfg.Valid() && Quiet(env) && At(cfg, g, s) && g.next.Planner? && g.active == NoRef && Fresh(g, s.d)
    requires Commissionable(cfg, rows, native) && Cohort.Commissioned(rows, cfg.profiles) == Some(offer) && limit >= 6
    requires Calm(env, cfg, rows, native, s.t, 54) && Asks(cfg, g, offer, env(s.t + 5).ask)
    requires Installs(env(s.t + 21), s.d) && Unverified(env, cfg, s.t + 28)
    requires SettlesAll(env(s.t + 39))
    ensures Invoke(env, cfg, g, s, limit) == Invoke(env, cfg, g1, s1, limit - 6)
    ensures At(cfg, g1, s1) && s1.t == s.t + 54 && Fresh(g1, s1.d) && CycleUndone(g, s.d, g1, s1.d)
    ensures if g.cycle + 1 >= cfg.maxCycles then g1.next.End? && g1.stop.CycleLimit? else g1.next.Planner? && g1.stop == g.stop
  {
    hide *;
    CalmPart(env, cfg, rows, native, s.t, 54, s.t, 17);
    CalmPart(env, cfg, rows, native, s.t, 54, s.t + 17, 37);
    var a1, t1, a2, t2 := PolicyDecision(env, cfg, rows, native, offer, g, s);
    SameCycleKeeps(env(s.t + 21), g, s.d, a2, t2.d);
    assert NativeFor(cfg, rows, native) by { CommissionedNative(cfg, rows, native); }
    TwoNodes(env, cfg, g, s, limit, a1, t1, a2, t2);
    g1, s1 := PolicyTurns(env, cfg, rows, native, s.t + 17, a2, t2, limit - 2);
    UndoneSince(g, s.d, a2, t2.d, g1, s1.d);
  }

  lemma CommissionedNative(cfg: Config, rows: seq<Row>, native: Inventory)
    requires Commissionable(cfg, rows, native)
    ensures NativeFor(cfg, rows, native)
  {
    hide NativeFor;
  }

  lemma SameCycleKeeps(c: Choice, g: Graph, d: Durable, g1: Graph, d1: Durable)
    requires SameCycle(g, d, g1, d1) && Installs(c, d)
    ensures Installs(c, d1) && g1.cycle == g.cycle && g1.stop == g.stop
  {
  }

  lemma UndoneSince(g: Graph, d: Durable, g1: Graph, d1: Durable, g2: Graph, d2: Durable)
    requires SameCycle(g, d, g1, d1) && CycleUndone(g1, d1, g2, d2)
    ensures CycleUndone(g, d, g2, d2)
  {
    hide AllRestored;
  }
}
