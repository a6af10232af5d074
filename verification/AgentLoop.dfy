/**
 LangGraphAgentLoop in its own form: one object whose methods write the durable tables as they go.
 Every method is tied to the function of AgentModel that specifies it; Live then lives any number of
 invocations with such objects and promises of their tables what AgentTheorems proves of a life.
 */
module AgentLoop {
  import opened Contracts
  import opened AgentTypes
  import opened AgentModel
  import opened HoldVerifier
  import opened AgentInvariant
  import opened AgentRuns
  import opened AgentTheorems
  import opened AgentAgreement
  import Cohort

  /** What a method answers: a value, or why it stopped. */
  datatype Reply<+T> = Done(v: T) | Stopped(why: Why) {
    predicate IsFailure() { Stopped? }
    function PropagateFailure<U>(): Reply<U>
      requires Stopped?
    {
      Stopped(why)
    }
    function Extract(): T
      requires Done?
    {
      v
    }
  }

  function Refused<T>(code: Code): Reply<T> {
    Stopped(Raise(code))
  }

  /** An answer together with the state it left. */
  function AsRes<T>(s: St, r: Reply<T>): Res<T> {
    match r
    case Done(v) => Ok(s, v)
    case Stopped(why) => Fail(s, why)
  }

  class LangGraphAgentLoop {
    const env: Env
    const cfg: Config
    /** Everything on disk, and how many answers the outside world has given. */
    var tables: Durable
    var asked: nat
    var cleanupVerified: bool
    var policyRetained: bool

    constructor (env: Env, cfg: Config, tables: Durable, asked: nat)
      ensures this.env == env && this.cfg == cfg && State() == St(tables, asked)
    {
      this.env, this.cfg, this.tables, this.asked := env, cfg, tables, asked;
      cleanupVerified, policyRetained := false, false;
    }

    ghost function State(): St
      reads this
    {
      St(tables, asked)
    }

    // ---------------------------------------------------------------- the outside world

    method Ask(mayEnd: bool) returns (r: Reply<Choice>)
      modifies this`asked
      ensures AsRes(State(), r) == Draw(env, old(State()), mayEnd)
    {
      var c := env(asked);
      asked := asked + 1;
      match c.fate
      case Crashes => return Stopped(Crash);
      case Escapes => return Stopped(Escape);
      case Raises => return Refused(StageFailed);
      case RaisesRetryable => return Refused(UnsupportedCapability);
      case Ends => if mayEnd { return Stopped(Ended); } else { return Done(c); }
      case Proceeds => return Done(c);
    }

    method AskOutside() returns (r: Reply<Choice>)
      modifies this`asked
      ensures AsRes(State(), r) == DrawOutside(env, old(State()))
    {
      r := Ask(false);
      if r.Stopped? && r.why.Raise? {
        return Stopped(Escape);
      }
    }

    method PutArtifact(a: Artifact) returns (r: Reply<()>)
      modifies this`tables, this`asked
      ensures AsRes(State(), r) == Put(env, old(State()), a)
    {
      var _ :- Ask(false);
      tables := tables.(artifacts := tables.artifacts + {a});
      return Done(());
    }

    method GetArtifacts(refs: set<Artifact>) returns (r: Reply<()>)
      ensures AsRes(State(), r) == Need(State(), refs)
    {
      if refs <= tables.artifacts {
        return Done(());
      }
      return Refused(ReferenceOutsideRound);
    }

    method AcceptBefore(before: Artifact, seal: Artifact) returns (r: Reply<()>)
      modifies this`asked
      ensures AsRes(State(), r) == AcceptedBefore(env, cfg, before, seal, old(State()))
    {
      hide SealHolds;
      hide Draw;
      var _ :- GetArtifacts({before, seal});
      if !SealHolds(cfg, before, seal) {
        return Refused(SealInvalid);
      }
      var _ :- Ask(false);
      return Done(());
    }

    // ---------------------------------------------------------------- planner

    method CaptureBefore(g: Graph, reading: Reading, sealedAt: real) returns (r: Reply<Option<Inputs>>)
      modifies this`tables, this`asked
      ensures AsRes(State(), r) == Capture(env, g, reading, sealedAt, old(State()))
    {
      hide Draw;
      hide Put;
      var before := Observation(reading);
      var seal := Seal(before, reading.round, reading.generation, reading.sequence, reading.rows, sealedAt);
      var _ :- PutArtifact(before);
      var _ :- PutArtifact(seal);
      var _ :- Ask(false);
      if g.cycle !in tables.inputs {
        tables := tables.(inputs := tables.inputs[g.cycle := Inputs(before, seal)]);
      }
      return Done(Some(tables.inputs[g.cycle]));
    }

    method Observe(g: Graph) returns (r: Reply<Option<Inputs>>)
      modifies this`tables, this`asked
      ensures AsRes(State(), r) == CycleInputs(env, cfg, g, old(State()))
    {
      hide Draw;
      hide Capture;
      hide Accepts;
      if g.cycle in tables.inputs {
        return Done(Some(tables.inputs[g.cycle]));
      }
      var c :- Ask(false);
      if c.over {
        return Done(None);
      }
      var reading := c.reading;
      if c.reuse && g.after != NoRef {
        var _ :- GetArtifacts({g.after});
        if !g.after.Observation? {
          return Refused(StageFailed);
        }
        reading := g.after.reading;
      } else {
        var _ :- GetArtifacts({});
      }
      if !reading.live {
        return Done(None);
      }
      if !Accepts(cfg, reading, c.now) {
        return Refused(StageFailed);
      }
      if reading.round != cfg.round || reading.generation != cfg.generation {
        return Refused(RoundChanged);
      }
      r := CaptureBefore(g, reading, c.sealedAt);
    }

    method FreezePlan(g: Graph, plan: Artifact) returns (r: Reply<Artifact>)
      modifies this`tables, this`asked
      ensures AsRes(State(), r) == StorePlan(env, g, plan, old(State()))
    {
      hide Draw;
      hide Put;
      var _ :- Ask(false);
      var _ :- PutArtifact(plan);
      var _ :- Ask(false);
      var key := (g.cycle, g.attempt);
      if key !in tables.proposals {
        tables := tables.(proposals := tables.proposals[key := plan]);
      }
      return Done(tables.proposals[key]);
    }

    method DraftPlan(g: Graph, before: Artifact, offer: seq<Candidate>) returns (r: Reply<Artifact>)
      modifies this`tables, this`asked
      ensures AsRes(State(), r) == Draft(env, cfg, g, before, offer, old(State()))
    {
      hide Draw;
      hide StorePlan;
      hide Refusal;
      var c :- Ask(true);
      var refusal := Refusal(cfg, g, offer, c.ask);
      if refusal.Some? {
        return Refused(refusal.value);
      }
      r := FreezePlan(g, Plan(c.ask.verb, c.ask.group, c.ask.profile, c.response, before));
    }

    method ProposePlan(g: Graph, before: Artifact, offer: Option<seq<Candidate>>) returns (r: Reply<Artifact>)
      modifies this`tables, this`asked
      ensures AsRes(State(), r) == Propose(env, cfg, g, before, offer, old(State()))
    {
      hide Need;
      hide Draft;
      var key := (g.cycle, g.attempt);
      if key in tables.proposals {
        return Done(tables.proposals[key]);
      }
      var _ :- GetArtifacts(if g.active != NoRef then {g.active} else {});
      if offer.None? {
        return Refused(StageFailed);
      }
      r := DraftPlan(g, before, offer.value);
    }

    method CommissionedOffer(before: Artifact) returns (offer: Option<seq<Candidate>>)
      ensures offer == Offer(cfg, before)
    {
      if !before.Observation? {
        return None;
      }
      offer := Cohort.CommissionedCandidates(before.reading.rows, cfg.profiles);
    }

    method PlannerStep(g: Graph) returns (r: Reply<Graph>)
      modifies this`tables, this`asked
      ensures AsRes(State(), r) == PlannerNode(env, cfg, g, old(State()))
    {
      hide CycleInputs;
      hide Propose;
      hide AcceptedBefore;
      hide Offer;
      hide Planned;
      var inputs :- Observe(g);
      if inputs.None? {
        return Done(g.(next := End, stop := ScenarioEnded));
      }
      var _ :- AcceptBefore(inputs.value.before, inputs.value.seal);
      var offer := CommissionedOffer(inputs.value.before);
      var plan :- ProposePlan(g, inputs.value.before, offer);
      return Done(Planned(g, inputs.value, plan));
    }

    // ---------------------------------------------------------------- validator: precheck

    method FreezeProof(g: Graph, proof: Artifact, response: string) returns (r: Reply<PrecheckPatch>)
      requires proof.Validated?
      modifies this`tables, this`asked
      ensures AsRes(State(), r) == StoreProof(env, g, proof, response, old(State()))
    {
      hide Draw;
      hide Put;
      hide Signed;
      var signed := Signed(proof, response);
      var _ :- PutArtifact(proof);
      var _ :- Ask(false);
      var _ :- PutArtifact(signed);
      var _ :- Ask(false);
      var key := (g.cycle, g.attempt);
      if key !in tables.prechecks {
        tables := tables.(prechecks := tables.prechecks[key := PrecheckPatch(signed, proof.replace)]);
      }
      return Done(tables.prechecks[key]);
    }

    method CheckPlan(g: Graph, offer: Option<seq<Candidate>>) returns (r: Reply<PrecheckPatch>)
      modifies this`tables, this`asked
      ensures AsRes(State(), r) == CheckProposal(env, cfg, g, offer, old(State()))
    {
      hide Draw;
      hide Need;
      hide AcceptedBefore;
      hide StoreProof;
      hide ProofRefusal;
      hide Proof;
      hide Chosen;
      var _ :- GetArtifacts({g.plan, g.before} + if g.active != NoRef then {g.active} else {});
      if offer.None? || !g.plan.Plan? || !g.before.Observation? {
        return Refused(StageFailed);
      }
      var c :- Ask(true);
      var _ :- AcceptBefore(g.before, g.seal);
      var proof := Proof(cfg, g, Chosen(g, offer.value), c.native);
      var refusal := ProofRefusal(cfg, g, proof, c.native);
      if refusal.Some? {
        return Refused(refusal.value);
      }
      r := FreezeProof(g, proof, c.response);
    }

    method RequestRestore(g: Graph, reason: Reason) returns (r: Reply<Graph>)
      modifies this`tables, this`asked
      ensures AsRes(State(), r) == AskRestore(env, cfg, g, reason, old(State()))
    {
      hide Put;
      hide PolicyAction;
      var owned := PolicyAction(g);
      if owned == NoRef {
        return Refused(OwnedActionMissing);
      }
      var request := RestoreRequest(cfg.round, cfg.generation, g.cycle, owned, g.plan, reason);
      var _ :- PutArtifact(request);
      return Done(g.(operation := Restore, request := request, next := Executor));
    }

    method PrecheckStep(g: Graph) returns (r: Reply<Graph>)
      modifies this`tables, this`asked
      ensures AsRes(State(), r) == PrecheckNode(env, cfg, g, old(State()))
    {
      hide Need;
      hide CheckProposal;
      hide AskRestore;
      hide Offer;
      var patch: PrecheckPatch;
      if (g.cycle, g.attempt) in tables.prechecks {
        patch := tables.prechecks[(g.cycle, g.attempt)];
      } else {
        var offer := CommissionedOffer(g.before);
        patch :- CheckPlan(g, offer);
      }
      var g1 := g.(validated := patch.validated);
      if patch.replace {
        r := RequestRestore(g1, ReplacePolicy);
        return;
      }
      var _ :- GetArtifacts({patch.validated});
      if !patch.validated.Validated? {
        return Refused(StageFailed);
      }
      return Done(g1.(operation := if patch.validated.selected.Some? then Apply else Hold, next := Executor));
    }

    // ---------------------------------------------------------------- executor

    /** The adapter's execute, as seen from the loop. */
    method Execute(g: Graph, response: string, candidate: string, baseline: Inventory) returns (r: Reply<Record>)
      modifies this`tables, this`asked
      ensures AsRes(State(), r) == AdapterExecute(env, g, response, candidate, baseline, old(State()))
    {
      hide Resolved;
      var c := env(asked);
      var id := |tables.adapter|;
      var unresolved := exists r :: r in tables.adapter && !Resolved(r);
      tables := tables.(trace := tables.trace + [Executed(NativeWrite(g.cycle, g.attempt, id, baseline))]);
      asked := asked + 1;
      var failure := Stopped(if c.fate.Crashes? then Crash else if c.fate.Escapes? then Escape else Raise(StageFailed));
      if c.refuses || unresolved {
        return failure;
      }
      var completes := c.fate.Proceeds? || c.fate.Ends?;
      var record := Record(id, response, candidate, if completes then Answered(c.outcome) else c.outcome);
      tables := tables.(adapter := tables.adapter + [record]);
      if completes {
        return Done(record);
      }
      return failure;
    }

    /** The executor's restore: the adapter cleans up every record of the round. */
    method RestoreRound() returns (r: Reply<()>)
      modifies this`tables, this`asked
      ensures AsRes(State(), r) == AdapterRestore(env, old(State()))
    {
      hide SettleAll;
      var c := env(asked);
      var settled := SettleAll(tables.adapter, c.settle);
      var done := (c.fate.Proceeds? || c.fate.Ends?) && AllRestored(settled);
      tables := tables.(adapter := settled, trace := tables.trace + [RestoreCalled(done)]);
      asked := asked + 1;
      match c.fate
      case Crashes => return Stopped(Crash);
      case Escapes => return Stopped(Escape);
      case Raises => return Refused(StageFailed);
      case RaisesRetryable => return Refused(StageFailed);
      case _ =>
        if done {
          return Done(());
        }
        return Refused(StageFailed);
    }

    method MatchRecords(response: string, candidate: string) returns (found: seq<Record>)
      ensures found == Matching(tables.adapter, response, candidate)
    {
      found := [];
      for i := 0 to |tables.adapter|
        invariant found == Matching(tables.adapter[..i], response, candidate)
      {
        var record := tables.adapter[i];
        assert tables.adapter[..i + 1][..i] == tables.adapter[..i];
        if record.response == response && record.candidate == candidate {
          found := found + [record];
        }
      }
      assert tables.adapter[..|tables.adapter|] == tables.adapter;
    }

    /** The receipt a replayed operation may continue with. */
    method ReplayReceipt(g: Graph, entry: Journaled, candidate: string) returns (r: Reply<Record>)
      requires g.plan.Plan?
      ensures r == match entry
                   case Completed(receipt) => Done(receipt)
                   case IntentOnly(_) =>
                     var found := Matching(tables.adapter, g.plan.response, candidate);
                     if |found| != 1 || !found[0].state.Installed? || env(asked).uncertain then Refused(UncertainOperation)
                     else Done(found[0])
    {
      hide Matching;
      if entry.Completed? {
        return Done(entry.receipt);
      }
      var found := MatchRecords(g.plan.response, candidate);
      if |found| != 1 || !found[0].state.Installed? || env(asked).uncertain {
        return Refused(UncertainOperation);
      }
      return Done(found[0]);
    }

    method ObtainReceipt(g: Graph, proof: Artifact) returns (r: Reply<Record>)
      requires proof.Validated? && proof.selected.Some? && proof.qerBefore.Some? && g.plan.Plan?
      modifies this`tables, this`asked
      ensures AsRes(State(), r) == Receipt(env, g, proof, old(State()))
    {
      hide Draw;
      hide Matching;
      hide AdapterExecute;
      var op := OpKey(g.cycle, g.validated);
      if op in tables.operations {
        var receipt :- ReplayReceipt(g, tables.operations[op], proof.selected.value.id);
        var _ :- Ask(false);
        return Done(receipt);
      }
      var _ :- Ask(false);
      var _ :- Ask(false);
      tables := tables.(operations := tables.operations[op := IntentOnly(g.plan)]);
      r := Execute(g, g.plan.response, proof.selected.value.id, proof.qerBefore.value);
    }

    method CompleteOperation(g: Graph, receipt: Record, response: string) returns (r: Reply<ExecPatch>)
      requires g.validated.Validated? && g.validated.selected.Some? && g.validated.qerBefore.Some?
      modifies this`tables, this`asked
      ensures AsRes(State(), r) == Complete(env, g, receipt, response, old(State()))
    {
      hide Draw;
      hide Put;
      var proof := g.validated;
      var _ :- Ask(false);
      tables := tables.(operations := tables.operations[OpKey(g.cycle, proof) := Completed(receipt)]);
      var action := Action(receipt, proof.selected.value, proof.qerBefore.value, g.before, proof.holdSeal, proof, None);
      var _ :- PutArtifact(action);
      var _ :- Ask(false);
      var signed := action.(executorResponse := Some(response));
      var _ :- PutArtifact(signed);
      return Done(Applied(signed, g.changes + 1, g.cycle));
    }

    method ApplyPolicyChange(g: Graph) returns (r: Reply<ExecPatch>)
      requires g.validated.Validated? && g.validated.selected.Some?
      modifies this`tables, this`asked
      ensures AsRes(State(), r) == ApplyFresh(env, cfg, g, old(State()))
    {
      hide Draw;
      hide AcceptedBefore;
      hide Receipt;
      hide Complete;
      if !g.plan.Plan? || g.validated.qerBefore.None? {
        return Refused(StageFailed);
      }
      var c :- Ask(true);
      var _ :- AcceptBefore(g.before, g.seal);
      var receipt :- ObtainReceipt(g, g.validated);
      r := CompleteOperation(g, receipt, c.response);
    }

    method ExecuteExisting(g: Graph) returns (r: Reply<ExecPatch>)
      requires g.validated.Validated? && g.validated.selected.Some?
      modifies this`tables, this`asked
      ensures AsRes(State(), r) == ApplyExisting(env, cfg, g, old(State()))
    {
      hide Draw;
      hide Need;
      hide AcceptedBefore;
      if g.active == NoRef {
        return Refused(OwnedActionMissing);
      }
      var _ :- GetArtifacts({g.active});
      if !g.active.Action? || g.active.choice.id != g.validated.selected.value.id {
        return Refused(ValidatedPlanChanged);
      }
      var _ :- Ask(true);
      var _ :- AcceptBefore(g.before, g.seal);
      var _ :- Ask(false);
      return Done(Kept(g.active));
    }

    method FreezeHold(g: Graph, response: string) returns (r: Reply<ExecPatch>)
      requires g.validated.Validated?
      modifies this`tables, this`asked
      ensures AsRes(State(), r) == RecordHold(env, cfg, g, response, old(State()))
    {
      hide Draw;
      hide Put;
      var _ :- Ask(false);
      var decision := HoldDecision(g.validated, cfg.round, cfg.generation, g.cycle);
      var op := OpKey(g.cycle, g.validated);
      if op !in tables.holds {
        tables := tables.(holds := tables.holds[op := decision]);
      } else {
        assert tables == tables.(holds := tables.holds);
      }
      if tables.holds[op] != decision {
        return Refused(HoldDecisionChanged);
      }
      var _ :- PutArtifact(decision);
      var _ :- Ask(false);
      var confirmed := g.validated.(confirmation := Some(Confirmation(g.validated, response)));
      var _ :- PutArtifact(confirmed);
      return Done(Held(confirmed, decision));
    }

    method ExecuteHold(g: Graph) returns (r: Reply<ExecPatch>)
      requires g.validated.Validated?
      modifies this`tables, this`asked
      ensures AsRes(State(), r) == ApplyHold(env, cfg, g, old(State()))
    {
      hide Draw;
      hide AcceptedBefore;
      hide RecordHold;
      hide NativeFor;
      var proof := g.validated;
      if proof.selected.Some? || !g.plan.Plan?
         || (g.plan.verb.HoldPolicy? && (g.plan.group.Some? || g.plan.profile.Some?)) {
        return Refused(NoValidatedHold);
      }
      var c :- Ask(true);
      var _ :- AcceptBefore(g.before, g.seal);
      if !g.before.Observation? || !NativeFor(cfg, g.before.reading.rows, c.native) {
        return Refused(StageFailed);
      }
      if proof.freshHold && Some(c.native) != proof.qerBefore {
        return Refused(HoldNativeChanged);
      }
      var _ :- AcceptBefore(g.before, g.seal);
      r := FreezeHold(g, c.response);
    }

    method ApplyValidated(g: Graph) returns (r: Reply<ExecPatch>)
      requires g.validated.Validated?
      modifies this`tables, this`asked
      ensures AsRes(State(), r) == ApplyDecision(env, cfg, g, old(State()))
    {
      hide ApplyHold;
      hide ApplyExisting;
      hide ApplyFresh;
      if g.validated.plan != g.plan || g.validated.before != g.before {
        return Refused(ValidatedPlanChanged);
      }
      if g.validated.selected.None? {
        r := ExecuteHold(g);
      } else if g.validated.alreadyInstalled {
        r := ExecuteExisting(g);
      } else {
        r := ApplyPolicyChange(g);
      }
    }

    method RestorePolicy(g: Graph) returns (r: Reply<ExecPatch>)
      modifies this`tables, this`asked
      ensures AsRes(State(), r) == RestoreOwned(env, g, old(State()))
    {
      hide Draw;
      hide Put;
      hide AdapterRestore;
      hide PolicyAction;
      var owned := PolicyAction(g);
      if owned == NoRef {
        return Refused(OwnedActionMissing);
      }
      var c :- Ask(false);
      var _ :- RestoreRound();
      var _ :- Ask(false);
      var restoration := Restoration(owned, c.response);
      var _ :- PutArtifact(restoration);
      return Done(Undone(restoration));
    }

    method FreezeExecution(g: Graph, key: ExecKey) returns (r: Reply<ExecPatch>)
      requires g.operation.Restore? || g.validated.Validated?
      modifies this`tables, this`asked
      ensures AsRes(State(), r) == Execution(env, cfg, g, key, old(State()))
    {
      hide Draw;
      hide RestoreOwned;
      hide ApplyDecision;
      if key in tables.executions {
        return Done(tables.executions[key]);
      }
      var patch: ExecPatch;
      if g.operation.Restore? {
        patch :- RestorePolicy(g);
      } else {
        patch :- ApplyValidated(g);
      }
      var _ :- Ask(false);
      if key !in tables.executions {
        tables := tables.(executions := tables.executions[key := patch]);
      } else {
        assert tables == tables.(executions := tables.executions);
      }
      return Done(tables.executions[key]);
    }

    method ExecutorStep(g: Graph) returns (r: Reply<Graph>)
      modifies this`tables, this`asked
      ensures AsRes(State(), r) == ExecutorNode(env, cfg, g, old(State()))
    {
      hide Need;
      hide Execution;
      hide KeyOf;
      hide BindingOf;
      hide RequestMatches;
      hide Executed';
      if g.operation.NoOperation? {
        return Refused(OperationDenied);
      }
      var _ :- GetArtifacts({BindingOf(g)});
      if g.operation.Restore? {
        if !RequestMatches(cfg, g) {
          return Refused(RestoreRequestChanged);
        }
      } else {
        if !g.validated.Validated? {
          return Refused(StageFailed);
        }
        if (g.validated.round, g.validated.generation, g.validated.cycle) != (cfg.round, cfg.generation, g.cycle) {
          return Refused(DecisionScopeChanged);
        }
        if g.operation.Apply? != g.validated.selected.Some? {
          return Refused(OperationDenied);
        }
      }
      var patch :- FreezeExecution(g, KeyOf(g));
      return Done(Executed'(g, patch));
    }

    // ---------------------------------------------------------------- validator: postcheck

    method FreezeWindow(g: Graph, after: Artifact) returns (r: Reply<Artifact>)
      modifies this`tables, this`asked
      ensures AsRes(State(), r) == StoreWindow(env, g, after, old(State()))
    {
      hide Draw;
      hide Put;
      var _ :- PutArtifact(after);
      var _ :- Ask(false);
      if g.cycle !in tables.windows {
        tables := tables.(windows := tables.windows[g.cycle := after]);
      } else {
        assert tables == tables.(windows := tables.windows);
      }
      return Done(tables.windows[g.cycle]);
    }

    method MeasureWindow(g: Graph, needed: bool) returns (r: Reply<Artifact>)
      modifies this`tables, this`asked
      ensures AsRes(State(), r) == Measure(env, cfg, g, needed, old(State()))
    {
      hide Draw;
      hide StoreWindow;
      hide Accepts;
      if g.cycle in tables.windows {
        return Done(tables.windows[g.cycle]);
      }
      var c :- Ask(true);
      if !c.reading.live {
        if needed {
          return Refused(ResultWindowUnavailable);
        }
        return Done(NoRef);
      }
      if !Accepts(cfg, c.reading, c.now) {
        return Refused(StageFailed);
      }
      r := FreezeWindow(g, Observation(c.reading));
    }

    method CompareWindows(g: Graph, after: Artifact) returns (r: Reply<Artifact>)
      requires g.validated.Validated?
      modifies this`asked
      ensures AsRes(State(), r) == Compare(env, cfg, g, after, old(State()))
    {
      hide Draw;
      hide Accepts;
      hide SameScope;
      hide NativeFor;
      hide PolicyAction;
      var c :- Ask(false);
      if PolicyAction(g) == NoRef {
        if !g.validated.freshHold {
          return Done(Verdict(NoOp, None, after, false, None, None));
        }
        if g.validated.confirmation.None? || after == NoRef {
          return Refused(HoldConfirmationUnavailable);
        }
        if !g.before.Observation? || !after.Observation? || !Accepts(cfg, after.reading, c.now) {
          return Refused(StageFailed);
        }
        if !SameScope(g.before.reading, after.reading) {
          return Refused(HoldResultScopeChanged);
        }
        if !NativeFor(cfg, after.reading.rows, c.native) {
          return Refused(StageFailed);
        }
        if Some(c.native) != g.validated.qerBefore {
          return Refused(HoldNativeChanged);
        }
        return Done(Verdict(NoOp, None, after, false, Some(c.native), None));
      }
      if c.effect.NoOp? || !after.Observation? {
        return Refused(StageFailed);
      }
      return Done(Verdict(c.effect, if c.effect.NoHoldout? then None else Some(c.improvement), after,
                          !c.effect.EffectVerified?, None, None));
    }

    method FreezeVerdict(g: Graph, verdict: Artifact, response: string) returns (r: Reply<PostPatch>)
      requires verdict.Verdict?
      modifies this`tables, this`asked
      ensures AsRes(State(), r) == StoreVerdict(env, g, verdict, response, old(State()))
    {
      hide Draw;
      hide Put;
      hide SignedVerdict;
      hide PolicyAction;
      var signed := SignedVerdict(verdict, response);
      var _ :- PutArtifact(signed);
      var _ :- Ask(false);
      if g.cycle !in tables.postchecks {
        var patch := PostPatch(signed, verdict.after, PolicyAction(g), verdict.restore);
        tables := tables.(postchecks := tables.postchecks[g.cycle := patch]);
      } else {
        assert tables == tables.(postchecks := tables.postchecks);
      }
      return Done(tables.postchecks[g.cycle]);
    }

    method JudgeEffect(g: Graph) returns (r: Reply<Artifact>)
      requires g.validated.Validated?
      modifies this`tables, this`asked
      ensures AsRes(State(), r) == Judge(env, cfg, g, old(State()))
    {
      hide Draw;
      hide Need;
      hide Measure;
      hide Compare;
      hide PolicyAction;
      var _ :- Ask(g.cycle !in tables.windows);
      var after :- MeasureWindow(g, PolicyAction(g) != NoRef || g.validated.freshHold);
      var _ :- GetArtifacts(if after != NoRef then {after} else {});
      r := CompareWindows(g, after);
    }

    method CheckResult(g: Graph) returns (r: Reply<PostPatch>)
      modifies this`tables, this`asked
      ensures AsRes(State(), r) == CheckEffect(env, cfg, g, old(State()))
    {
      hide Draw;
      hide Need;
      hide Judge;
      hide StoreVerdict;
      hide SealHolds;
      hide PostcheckRefs;
      var _ :- GetArtifacts(PostcheckRefs(g));
      if !g.validated.Validated? {
        return Refused(StageFailed);
      }
      if g.validated.freshHold && !SealHolds(cfg, g.before, g.validated.holdSeal) {
        return Refused(SealInvalid);
      }
      var verdict :- JudgeEffect(g);
      var c :- Ask(false);
      r := FreezeVerdict(g, verdict, c.response);
    }

    method PostcheckStep(g: Graph) returns (r: Reply<Graph>)
      modifies this`tables, this`asked
      ensures AsRes(State(), r) == PostcheckNode(env, cfg, g, old(State()))
    {
      hide CheckEffect;
      hide AskRestore;
      hide Finish;
      hide Postchecked;
      var patch: PostPatch;
      if g.cycle in tables.postchecks {
        patch := tables.postchecks[g.cycle];
      } else {
        patch :- CheckResult(g);
      }
      var g1 := Postchecked(g, patch);
      if patch.restore {
        r := RequestRestore(g1, EffectNotVerified);
      } else {
        r := FinishCycle(g1);
      }
    }

    // ---------------------------------------------------------------- validator: restore check and learning

    method FreezeRestoration(g: Graph) returns (r: Reply<RestorePatch>)
      modifies this`tables, this`asked
      ensures AsRes(State(), r) == StoreRestoration(env, g, old(State()))
    {
      hide Draw;
      hide Put;
      hide FinalVerdict;
      var verdict := FinalVerdict(g);
      var _ :- Ask(false);
      var _ :- PutArtifact(verdict);
      var _ :- Ask(false);
      if g.cycle !in tables.restorations {
        tables := tables.(restorations := tables.restorations[g.cycle := RestorePatch(verdict)]);
      } else {
        assert tables == tables.(restorations := tables.restorations);
      }
      return Done(tables.restorations[g.cycle]);
    }

    method CheckRestored(g: Graph) returns (r: Reply<RestorePatch>)
      modifies this`tables, this`asked
      ensures AsRes(State(), r) == CheckRestoration(env, cfg, g, old(State()))
    {
      hide Draw;
      hide Need;
      hide StoreRestoration;
      hide NativeFor;
      hide PolicyAction;
      var owned := PolicyAction(g);
      var _ :- GetArtifacts({owned, g.before});
      if !owned.Action? || !g.before.Observation? {
        return Refused(StageFailed);
      }
      var c :- Ask(false);
      if !NativeFor(cfg, g.before.reading.rows, c.native) {
        return Refused(StageFailed);
      }
      if c.native != owned.baseline {
        return Refused(RestorationDiffers);
      }
      tables := tables.(trace := tables.trace + [RestoreVerified(owned.receipt.id, c.native)]);
      r := FreezeRestoration(g);
    }

    method RestoreCheckStep(g: Graph) returns (r: Reply<Graph>)
      modifies this`tables, this`asked
      ensures AsRes(State(), r) == RestoreCheckNode(env, cfg, g, old(State()))
    {
      hide CheckRestoration;
      hide Finish;
      var patch: RestorePatch;
      if g.cycle in tables.restorations {
        patch := tables.restorations[g.cycle];
      } else {
        patch :- CheckRestored(g);
      }
      r := FinishCycle(g.(active := NoRef, verdict := patch.verdict));
    }

    method FreezeLesson(g: Graph, row: Outcome) returns (r: Reply<LessonPatch>)
      modifies this`tables, this`asked
      ensures AsRes(State(), r) == StoreLesson(env, cfg, g, row, old(State()))
    {
      hide Draw;
      hide Put;
      var _ :- PutArtifact(LessonReceipt(row));
      var _ :- Ask(false);
      var _ :- Ask(false);
      if g.cycle !in tables.lessons {
        tables := tables.(lessons := tables.lessons[g.cycle := LessonPatch(g.cycle + 1 >= cfg.maxCycles)]);
      } else {
        assert tables == tables.(lessons := tables.lessons);
      }
      return Done(tables.lessons[g.cycle]);
    }

    method RecordLesson(g: Graph) returns (r: Reply<LessonPatch>)
      modifies this`tables, this`asked
      ensures AsRes(State(), r) == Learn(env, cfg, g, old(State()))
    {
      hide Draw;
      hide Need;
      hide StoreLesson;
      hide OutcomeOf;
      hide PolicyAction;
      var _ :- GetArtifacts({g.plan, g.verdict, g.before} + if PolicyAction(g) != NoRef then {PolicyAction(g)} else {});
      if !g.plan.Plan? || !g.verdict.Verdict? {
        return Refused(StageFailed);
      }
      var _ :- Ask(false);
      var _ :- Ask(false);
      var row := OutcomeOf(g);
      if g.cycle in tables.outcomes {
        if tables.outcomes[g.cycle] != row {
          return Refused(OutcomeChanged);
        }
        assert tables == tables.(outcomes := tables.outcomes);
      } else {
        tables := tables.(outcomes := tables.outcomes[g.cycle := row]);
      }
      r := FreezeLesson(g, row);
    }

    method FinishCycle(g: Graph) returns (r: Reply<Graph>)
      modifies this`tables, this`asked
      ensures AsRes(State(), r) == Finish(env, cfg, g, old(State()))
    {
      hide Learn;
      var lesson: LessonPatch;
      if g.cycle in tables.lessons {
        lesson := tables.lessons[g.cycle];
      } else {
        lesson :- RecordLesson(g);
      }
      return Done(g.(cycle := g.cycle + 1, attempt := 0, next := if lesson.last then End else Planner,
                     stop := if lesson.last then CycleLimit else g.stop));
    }

    method ValidatorStep(g: Graph) returns (r: Reply<Graph>)
      modifies this`tables, this`asked
      ensures AsRes(State(), r) == ValidatorNode(env, cfg, g, old(State()))
    {
      hide PrecheckNode;
      hide PostcheckNode;
      hide RestoreCheckNode;
      match g.phase
      case Precheck => r := PrecheckStep(g);
      case Postcheck => r := PostcheckStep(g);
      case RestoreCheck => r := RestoreCheckStep(g);
      case NoPhase => return Refused(PhaseDenied);
    }

    // ---------------------------------------------------------------- the graph and run

    method Checkpoint(g: Graph) returns (r: Reply<Graph>)
      modifies this`tables, this`asked
      ensures AsRes(State(), r) == Commit(env, old(State()), g)
    {
      hide DrawOutside;
      var _ :- AskOutside();
      tables := tables.(graph := Some(g));
      return Done(g);
    }

    /** The node's body, whichever it is. */
    method Dispatch(g: Graph) returns (r: Reply<Graph>)
      modifies this`tables, this`asked
      ensures AsRes(State(), r) == Body(env, cfg, g, old(State()))
    {
      hide PlannerNode;
      hide ExecutorNode;
      hide ValidatorNode;
      match g.next
      case Planner => r := PlannerStep(g);
      case Executor => r := ExecutorStep(g);
      case Validator => r := ValidatorStep(g);
      case End => return Done(g);
    }

    /** One node with its exception handler. */
    method Node(g: Graph) returns (r: Reply<Graph>)
      modifies this`tables, this`asked
      ensures AsRes(State(), r) == Step(env, cfg, g, old(State()))
    {
      hide Body;
      hide Commit;
      hide DrawOutside;
      hide Failed;
      var published := Dispatch(g);
      match published
      case Done(g1) => r := Checkpoint(g1);
      case Stopped(Raise(code)) =>
        var _ :- AskOutside();
        r := Checkpoint(Failed(g, code));
      case Stopped(Ended) =>
        var c :- AskOutside();
        var current := Observation(c.reading);
        tables := tables.(artifacts := tables.artifacts + {current});
        r := Checkpoint(g.(next := End, stop := ScenarioEnded, after := if c.reuse then current else g.after));
      case Stopped(why) => return Stopped(why);
    }

    /** graph.invoke: nodes until the end, within the recursion limit. */
    method RunGraph(g: Graph, limit: nat) returns (r: Reply<Graph>)
      modifies this`tables, this`asked
      ensures AsRes(State(), r) == Invoke(env, cfg, g, old(State()), limit)
    {
      hide Step;
      var current, left := g, limit;
      while !current.next.End? && left > 0
        invariant Invoke(env, cfg, g, old(State()), limit) == Invoke(env, cfg, current, State(), left)
        decreases left
      {
        current :- Node(current);
        left := left - 1;
      }
      if current.next.End? {
        return Done(current);
      }
      return Stopped(Escape);
    }

    /** Everything run does before the graph. */
    method Open() returns (r: Reply<Graph>)
      modifies this`tables, this`asked
      ensures AsRes(State(), r) == Ready(env, cfg, old(State()))
    {
      hide DrawOutside;
      hide Commit;
      var _ :- AskOutside();
      if tables.context.None? {
        tables := tables.(context := Some(cfg));
      } else {
        assert tables == tables.(context := tables.context);
      }
      if tables.context != Some(cfg) {
        return Stopped(Escape);
      }
      if cfg.retain && tables.graph.Some? && tables.graph.value.next.End? && tables.graph.value.stop.CycleLimit? {
        return Stopped(Escape);
      }
      if tables.graph.Some? {
        return Done(tables.graph.value);
      }
      r := Checkpoint(InitialGraph(cfg));
    }

    method ProveHolds(g: Graph) returns (r: Reply<()>)
      modifies this`tables, this`asked
      ensures AsRes(State(), r) == HoldCleanupProof(env, cfg, g, old(State()))
    {
      hide Draw;
      hide Need;
      hide Put;
      hide AllHeld;
      if !AllHeld(tables) {
        return Done(());
      }
      var verified, latest, first := VerifiedAfter(tables), LatestAfter(tables, g), FirstHold(tables);
      hide VerifiedAfter;
      hide LatestAfter;
      hide FirstHold;
      var _ :- GetArtifacts({verified, latest, first});
      if !verified.Observation? || !latest.Observation? || !first.Validated? {
        return Refused(StageFailed);
      }
      if latest.reading.sequence < verified.reading.sequence {
        return Refused(HoldResultScopeChanged);
      }
      var c :- Ask(false);
      if |c.native| != cfg.totalUes {
        return Refused(StageFailed);
      }
      if Some(c.native) != first.qerBefore {
        return Refused(HoldNativeChanged);
      }
      r := PutArtifact(HoldCleanup(latest, verified, c.native));
    }

    /** _cleanup: deterministic restoration, unless the policy is retained. */
    method CleanUp(g: Graph) returns (r: Reply<()>)
      modifies this
      ensures AsRes(State(), r) == Cleanup(env, cfg, g, old(State()))
      ensures r.Done? ==> cleanupVerified == !Retaining(cfg, g) && policyRetained == Retaining(cfg, g)
      ensures r.Stopped? ==> cleanupVerified == old(cleanupVerified) && policyRetained == old(policyRetained)
    {
      hide AdapterRestore;
      hide HoldCleanupProof;
      var retaining := Retaining(cfg, g);
      hide Retaining;
      if !retaining {
        var _ :- RestoreRound();
      }
      var _ :- ProveHolds(g);
      policyRetained := retaining;
      cleanupVerified := !retaining;
      return Done(());
    }

    /** The saved or initial checkpoint, then the graph. */
    method RunToEnd() returns (r: Reply<Graph>)
      modifies this`tables, this`asked
      ensures AsRes(State(), r) == Resume(env, cfg, old(State()), RecursionLimit(cfg))
    {
      hide Ready;
      hide Invoke;
      hide RecursionLimit;
      var g :- Open();
      r := RunGraph(g, RecursionLimit(cfg));
    }

    /** The finally block: whatever was not cleaned up or retained is restored now. */
    method LeaveRun() returns (died: bool)
      modifies this`tables, this`asked
      ensures RunEnd(State(), if died then Died else Left, policyRetained)
           == Finally(env, old(State()), cleanupVerified, policyRetained)
    {
      hide AdapterRestore;
      if cleanupVerified || policyRetained {
        return false;
      }
      var r := RestoreRound();
      return r.Stopped? && r.why.Crash?;
    }

    /** run; `died` is the death of the process, which executes nothing more, not even the finally block. */
    method RunLoop() returns (died: bool)
      modifies this
      ensures RunEnd(State(), if died then Died else Left, policyRetained) == Run(env, cfg, old(State()))
    {
      hide Resume;
      hide Cleanup;
      hide Commit;
      hide Finally;
      hide Closed;
      hide Retaining;
      hide RecursionLimit;
      cleanupVerified, policyRetained := false, false;
      var final := RunToEnd();
      if final.Stopped? {
        if final.why.Crash? {
          return true;
        }
        died := LeaveRun();
        return;
      }
      var cleaned := CleanUp(final.v);
      if cleaned.Stopped? {
        if cleaned.why.Crash? {
          return true;
        }
        died := LeaveRun();
        return;
      }
      var closed := Checkpoint(Closed(cfg, final.v));
      if closed.Stopped? && closed.why.Crash? {
        return true;
      }
      died := LeaveRun();
    }
  }

  // ---------------------------------------------------------------- the life of a thread

  /** What the tables of a thread promise, whatever happened to its invocations. */
  ghost predicate Promised(d: Durable) {
    && (if d.context.None? then Writes(d.trace) == [] else WithinBudget(d.context.value, Writes(d.trace)))
    && SingleOwner(d) && OneUnrestored(d)
    && (d.graph.Some? ==> LogExact(d.graph.value, d))
    && (d.context.Some? ==>
          forall c :: c in d.outcomes && d.outcomes[c].held.Some? ==>
            ChainAccepted(PublishedBy(d.context.value), d.artifacts, d.outcomes[c]))
  }

  lemma LifeIsPromised(env: Env, cfgs: nat -> Config, k: nat)
    requires Quiet(env) && ValidRuns(cfgs)
    ensures Promised(Life(env, cfgs, k).d)
  {
    hide Life;
    hide ValidRuns;
    hide Quiet;
    hide WithinBudget;
    hide SingleOwner;
    hide OneUnrestored;
    hide LogExact;
    hide ChainAccepted;
    hide Writes;
    hide SuccessfulStop;
    ChangeBudget(env, cfgs, k);
    OneOwner(env, cfgs, k);
    OutcomeLog(env, cfgs, k);
    HoldsPassVerifier(env, cfgs, k);
  }

  /**
   k invocations of one thread, each by a new object that opens the tables its predecessor left. After
   each the promises hold, and an invocation that left run without retaining ended with a restoration.
   */
  method Live(env: Env, cfgs: nat -> Config, k: nat) returns (loop: LangGraphAgentLoop, died: bool)
    requires Quiet(env) && ValidRuns(cfgs) && k > 0
    ensures fresh(loop) && loop.State() == Life(env, cfgs, k)
    ensures Promised(loop.tables)
    ensures !died && !loop.policyRetained ==> EndsRestored(loop.tables)
    ensures loop.policyRetained ==> VerifiedEnd(cfgs(k - 1), loop.tables)
  {
    hide Promised;
    hide Run;
    hide EndsRestored;
    hide VerifiedEnd;
    var tables, asked := EMPTY, 0;
    loop := new LangGraphAgentLoop(env, cfgs(0), tables, asked);
    died := false;
    for i := 0 to k
      invariant St(tables, asked) == Life(env, cfgs, i)
      invariant fresh(loop)
      invariant i > 0 ==> loop.State() == St(tables, asked)
      invariant i > 0 && !died && !loop.policyRetained ==> EndsRestored(loop.tables)
      invariant i > 0 && loop.policyRetained ==> VerifiedEnd(cfgs(i - 1), loop.tables)
    {
      ExitRestores(env, cfgs(i), St(tables, asked));
      RetainedIsVerified(env, cfgs, i);
      loop := new LangGraphAgentLoop(env, cfgs(i), tables, asked);
      died := loop.RunLoop();
      tables, asked := loop.tables, loop.asked;
    }
    LifeIsPromised(env, cfgs, k);
  }
}
