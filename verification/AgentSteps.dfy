/** Each planner and executor step, wherever it stops, leaves durable tables that satisfy the invariant. */
module AgentSteps {
  import opened Contracts
  import opened AgentTypes
  import opened AgentModel
  import opened HoldVerifier
  import opened AgentInvariant
  import opened AgentFrames
  import opened AgentWrites
  import opened AgentCommits

  /** The invariant still holds, and a raised code is one the loop may report here. */
  ghost predicate Safe<T>(cfg: Config, g: Graph, s: St, r: Res<T>) {
    && Inv(cfg, g, r.s.d) && r.s.d.graph == s.d.graph && r.s.d.context == s.d.context
    && (r.Fail? && r.why.Raise? ==> !Internal(r.why.code) && (Retryable(r.why.code) ==> g.next.Planner?))
  }

  // ---------------------------------------------------------------- what the primitives may do

  /** What a failing call may report. */
  predicate Mild<T>(r: Res<T>) {
    r.Fail? && r.why.Raise? ==> r.why.code.StageFailed?
  }

  lemma DrawFacts(env: Env, s: St, mayEnd: bool)
    requires Quiet(env)
    ensures var r := Draw(env, s, mayEnd);
      r.s.d == s.d && Mild(r) && (r.Ok? ==> r.v == env(s.t)) && (r.Fail? && r.why.Ended? ==> mayEnd)
  {
  }

  lemma PutKeep(env: Env, cfg: Config, g: Graph, s: St, a: Artifact)
    requires Quiet(env) && Inv(cfg, g, s.d)
    ensures var r := Put(env, s, a);
      Safe(cfg, g, s, r) && Mild(r)
      && r.s.d == (if r.Ok? then s.d.(artifacts := s.d.artifacts + {a}) else s.d)
  {
    hide Inv;
    InvGrown(cfg, g, s.d, s.d.(artifacts := s.d.artifacts + {a}));
  }

  lemma AcceptedFacts(env: Env, cfg: Config, before: Artifact, seal: Artifact, s: St)
    requires Quiet(env) && {before, seal} <= s.d.artifacts
    ensures var r := AcceptedBefore(env, cfg, before, seal, s);
      r.s.d == s.d && (r.Ok? ==> SealHolds(cfg, before, seal))
      && (r.Fail? && r.why.Raise? ==> r.why.code.StageFailed? || r.why.code.SealInvalid?)
  {
    hide SealHolds;
  }

  lemma ShapeOf(cfg: Config, g: Graph, d: Durable)
    requires Inv(cfg, g, d)
    ensures InTable(d.artifacts, g.active) && InTable(d.artifacts, g.after) && InTable(d.artifacts, g.action)
    ensures g.after == NoRef || g.after.Observation?
    ensures g.active == NoRef || g.active.Action?
  {
    hide Superseded;
    hide Provenance;
    hide Point;
    hide Log;
  }

  // ---------------------------------------------------------------- planner

  lemma PlannerFacts(cfg: Config, g: Graph, d: Durable)
    requires Inv(cfg, g, d) && g.next.Planner?
    ensures g.cycle in d.inputs ==> GoodInputs(cfg, d.artifacts, d.inputs[g.cycle].before, d.inputs[g.cycle].seal)
    ensures (g.cycle, g.attempt) in d.proposals ==> g.cycle in d.inputs
    ensures g.cycle !in d.outcomes
  {
    hide Superseded;
    hide Provenance;
    hide Budget;
    hide Owned;
    hide Log;
  }

  lemma CaptureKeep(env: Env, cfg: Config, g: Graph, reading: Reading, sealedAt: real, s: St)
    requires Quiet(env) && Inv(cfg, g, s.d) && g.next.Planner? && g.cycle !in s.d.inputs
    requires GoodReading(cfg, Observation(reading))
    ensures var r := Capture(env, g, reading, sealedAt, s);
      Safe(cfg, g, s, r)
      && (r.Ok? ==> r.v.Some? && g.cycle in r.s.d.inputs && r.s.d.inputs[g.cycle] == r.v.value)
  {
    hide Inv;
    hide Put;
    hide Draw;
    hide GoodReading;
    var before := Observation(reading);
    var seal := Seal(before, reading.round, reading.generation, reading.sequence, reading.rows, sealedAt);
    var r1 := Put(env, s, before);
    PutKeep(env, cfg, g, s, before);
    if r1.Fail? { return; }
    var r2 := Put(env, r1.s, seal);
    PutKeep(env, cfg, g, r1.s, seal);
    if r2.Fail? { return; }
    var r3 := Draw(env, r2.s, false);
    DrawFacts(env, r2.s, false);
    if r3.Fail? { return; }
    InvInputs(cfg, g, r3.s.d, Inputs(before, seal));
  }

  lemma CycleInputsKeep(env: Env, cfg: Config, g: Graph, s: St)
    requires Quiet(env) && Inv(cfg, g, s.d) && g.next.Planner?
    ensures var r := CycleInputs(env, cfg, g, s);
      Safe(cfg, g, s, r)
      && (r.Ok? && r.v.Some? ==> g.cycle in r.s.d.inputs && r.s.d.inputs[g.cycle] == r.v.value)
  {
    hide Inv;
    hide Draw;
    hide Capture;
    hide DistinctSupis;
    ShapeOf(cfg, g, s.d);
    if g.cycle in s.d.inputs { return; }
    var r1 := Draw(env, s, false);
    DrawFacts(env, s, false);
    if r1.Fail? || r1.v.over { return; }
    var reading := if r1.v.reuse && g.after != NoRef then g.after.reading else r1.v.reading;
    if GoodReading(cfg, Observation(reading)) {
      CaptureKeep(env, cfg, g, reading, r1.v.sealedAt, r1.s);
    }
  }

  lemma StorePlanKeep(env: Env, cfg: Config, g: Graph, plan: Artifact, s: St)
    requires Quiet(env) && Inv(cfg, g, s.d) && g.next.Planner? && (g.cycle, g.attempt) !in s.d.proposals
    requires g.cycle in s.d.inputs && GoodPlan({plan}, plan, s.d.inputs[g.cycle].before)
    ensures var r := StorePlan(env, g, plan, s);
      Safe(cfg, g, s, r) && r.s.d.inputs == s.d.inputs
      && (r.Ok? ==> (g.cycle, g.attempt) in r.s.d.proposals && r.s.d.proposals[(g.cycle, g.attempt)] == r.v)
  {
    hide Inv;
    hide Put;
    hide Draw;
    var r1 := Draw(env, s, false);
    DrawFacts(env, s, false);
    if r1.Fail? { return; }
    var r2 := Put(env, r1.s, plan);
    PutKeep(env, cfg, g, r1.s, plan);
    if r2.Fail? { return; }
    var r3 := Draw(env, r2.s, false);
    DrawFacts(env, r2.s, false);
    if r3.Fail? { return; }
    InvProposal(cfg, g, r3.s.d, plan);
  }

  lemma DraftKeep(env: Env, cfg: Config, g: Graph, before: Artifact, offer: seq<Candidate>, s: St)
    requires Quiet(env) && Inv(cfg, g, s.d) && g.next.Planner? && (g.cycle, g.attempt) !in s.d.proposals
    requires g.cycle in s.d.inputs && s.d.inputs[g.cycle].before == before
    ensures var r := Draft(env, cfg, g, before, offer, s);
      Safe(cfg, g, s, r) && r.s.d.inputs == s.d.inputs
      && (r.Ok? ==> (g.cycle, g.attempt) in r.s.d.proposals && r.s.d.proposals[(g.cycle, g.attempt)] == r.v)
  {
    hide Inv;
    hide Draw;
    hide StorePlan;
    hide Find;
    hide CanChange;
    var r1 := Draw(env, s, true);
    DrawFacts(env, s, true);
    if r1.Fail? || Refusal(cfg, g, offer, r1.v.ask).Some? { return; }
    var ask := r1.v.ask;
    StorePlanKeep(env, cfg, g, Plan(ask.verb, ask.group, ask.profile, r1.v.response, before), r1.s);
  }

  lemma ProposeKeep(env: Env, cfg: Config, g: Graph, before: Artifact, offer: Option<seq<Candidate>>, s: St)
    requires Quiet(env) && Inv(cfg, g, s.d) && g.next.Planner?
    requires g.cycle in s.d.inputs && s.d.inputs[g.cycle].before == before
    ensures var r := Propose(env, cfg, g, before, offer, s);
      Safe(cfg, g, s, r) && r.s.d.inputs == s.d.inputs
      && (r.Ok? ==> (g.cycle, g.attempt) in r.s.d.proposals && r.s.d.proposals[(g.cycle, g.attempt)] == r.v)
  {
    hide Inv;
    hide Draft;
    ShapeOf(cfg, g, s.d);
    if (g.cycle, g.attempt) in s.d.proposals { return; }
    var r0 := Need(s, if g.active != NoRef then {g.active} else {});
    assert r0 == Ok(s, ());
    if offer.Some? { DraftKeep(env, cfg, g, before, offer.value, s); }
  }

  lemma PlannerKeep(env: Env, cfg: Config, g: Graph, s: St)
    requires Quiet(env) && Inv(cfg, g, s.d) && g.next.Planner?
    ensures var r := PlannerNode(env, cfg, g, s);
      Safe(cfg, g, s, r) && (r.Ok? ==> Inv(cfg, r.v, r.s.d))
  {
    hide Inv;
    hide CycleInputs;
    hide Propose;
    hide Offer;
    hide AcceptedBefore;
    hide SealHolds;
    CycleInputsKeep(env, cfg, g, s);
    var r1 := CycleInputs(env, cfg, g, s);
    if r1.Fail? { return; }
    PlannerFacts(cfg, g, r1.s.d);
    if r1.v.None? {
      CommitEnded(cfg, g, r1.s.d, g.after);
      return;
    }
    var i := r1.v.value;
    var r2 := AcceptedBefore(env, cfg, i.before, i.seal, r1.s);
    AcceptedFacts(env, cfg, i.before, i.seal, r1.s);
    if r2.Fail? { return; }
    var r3 := Propose(env, cfg, g, i.before, Offer(cfg, i.before), r2.s);
    ProposeKeep(env, cfg, g, i.before, Offer(cfg, i.before), r2.s);
    if r3.Fail? { return; }
    CommitPlanned(cfg, g, r3.s.d);
  }

  // ---------------------------------------------------------------- precheck

  lemma PrecheckFacts(cfg: Config, g: Graph, d: Durable)
    requires Inv(cfg, g, d) && g.next.Validator? && g.phase.Precheck?
    ensures g.cycle < cfg.maxCycles && g.action == NoRef
    ensures GoodInputs(cfg, d.artifacts, g.before, g.seal) && GoodPlan(d.artifacts, g.plan, g.before)
    ensures (g.cycle, g.attempt) in d.prechecks ==> GoodPrecheck(cfg, d.artifacts, g, d.prechecks[(g.cycle, g.attempt)])
  {
    hide Superseded;
    hide Provenance;
    hide Budget;
    hide Owned;
    hide Log;
    hide GoodProof;
  }

  /** A refusal of the proof is one the loop reports; without one the signed proof is good. */
  lemma ProofFacts(cfg: Config, g: Graph, offer: seq<Candidate>, native: Inventory, response: string)
    requires g.plan.Plan? && g.before.Observation? && SealHolds(cfg, g.before, g.seal)
    requires g.active == NoRef || g.active.Action?
    ensures var p := Proof(cfg, g, Chosen(g, offer), native);
      var refusal := ProofRefusal(cfg, g, p, native);
      if refusal.Some? then !Internal(refusal.value) && !Retryable(refusal.value)
      else GoodProof(cfg, g, Signed(p, response))
  {
    hide SealHolds;
    hide NativeFor;
    hide CanChange;
    hide Find;
  }

  lemma StoreProofKeep(env: Env, cfg: Config, g: Graph, proof: Artifact, response: string, s: St)
    requires Quiet(env) && Inv(cfg, g, s.d) && g.next.Validator? && g.phase.Precheck?
    requires (g.cycle, g.attempt) !in s.d.prechecks
    requires proof.Validated? && GoodProof(cfg, g, Signed(proof, response))
    ensures var r := StoreProof(env, g, proof, response, s);
      Safe(cfg, g, s, r)
      && (r.Ok? ==> (g.cycle, g.attempt) in r.s.d.prechecks && r.s.d.prechecks[(g.cycle, g.attempt)] == r.v)
  {
    hide Inv;
    hide GoodProof;
    hide Put;
    hide Draw;
    var signed := Signed(proof, response);
    var r1 := Put(env, s, proof);
    PutKeep(env, cfg, g, s, proof);
    if r1.Fail? { return; }
    var r2 := Draw(env, r1.s, false);
    DrawFacts(env, r1.s, false);
    if r2.Fail? { return; }
    var r3 := Put(env, r2.s, signed);
    PutKeep(env, cfg, g, r2.s, signed);
    if r3.Fail? { return; }
    var r4 := Draw(env, r3.s, false);
    DrawFacts(env, r3.s, false);
    if r4.Fail? { return; }
    InvPrecheck(cfg, g, r4.s.d, PrecheckPatch(signed, proof.replace));
  }

  lemma CheckProposalKeep(env: Env, cfg: Config, g: Graph, offer: Option<seq<Candidate>>, s: St)
    requires Quiet(env) && Inv(cfg, g, s.d) && g.next.Validator? && g.phase.Precheck?
    requires (g.cycle, g.attempt) !in s.d.prechecks
    ensures var r := CheckProposal(env, cfg, g, offer, s);
      Safe(cfg, g, s, r)
      && (r.Ok? ==> (g.cycle, g.attempt) in r.s.d.prechecks && r.s.d.prechecks[(g.cycle, g.attempt)] == r.v)
  {
    hide Inv;
    hide Draw;
    hide AcceptedBefore;
    hide StoreProof;
    hide Proof;
    hide ProofRefusal;
    hide Chosen;
    hide GoodProof;
    ShapeOf(cfg, g, s.d);
    PrecheckFacts(cfg, g, s.d);
    var r0 := Need(s, {g.plan, g.before} + if g.active != NoRef then {g.active} else {});
    assert r0 == Ok(s, ());
    if offer.None? { return; }
    var r1 := Draw(env, s, true);
    DrawFacts(env, s, true);
    if r1.Fail? { return; }
    var r2 := AcceptedBefore(env, cfg, g.before, g.seal, r1.s);
    AcceptedFacts(env, cfg, g.before, g.seal, r1.s);
    if r2.Fail? { return; }
    var proof := Proof(cfg, g, Chosen(g, offer.value), r1.v.native);
    ProofFacts(cfg, g, offer.value, r1.v.native, r1.v.response);
    if ProofRefusal(cfg, g, proof, r1.v.native).Some? { return; }
    StoreProofKeep(env, cfg, g, proof, r1.v.response, r2.s);
  }

  lemma AskRestoreKeep(env: Env, cfg: Config, g: Graph, g1: Graph, reason: Reason, s: St)
    requires Quiet(env) && Inv(cfg, g, s.d) && PolicyAction(g1) != NoRef
    ensures var r := AskRestore(env, cfg, g1, reason, s);
      var request := RestoreRequest(cfg.round, cfg.generation, g1.cycle, PolicyAction(g1), g1.plan, reason);
      Safe(cfg, g, s, r)
      && (r.Ok? ==> r.s.d == s.d.(artifacts := s.d.artifacts + {request})
                    && r.v == g1.(operation := Restore, request := request, next := Executor))
  {
    hide Inv;
    hide Put;
    hide PolicyAction;
    PutKeep(env, cfg, g, s, RestoreRequest(cfg.round, cfg.generation, g1.cycle, PolicyAction(g1), g1.plan, reason));
  }

  /** The patch, known or checked now, is in the table. */
  lemma PrecheckPatched(env: Env, cfg: Config, g: Graph, s: St, r: Res<PrecheckPatch>)
    requires Quiet(env) && Inv(cfg, g, s.d) && g.next.Validator? && g.phase.Precheck?
    requires r == if (g.cycle, g.attempt) in s.d.prechecks then Ok(s, s.d.prechecks[(g.cycle, g.attempt)])
                  else CheckProposal(env, cfg, g, Offer(cfg, g.before), s)
    ensures Safe(cfg, g, s, r)
    ensures r.Ok? ==> (g.cycle, g.attempt) in r.s.d.prechecks && r.s.d.prechecks[(g.cycle, g.attempt)] == r.v
  {
    hide Inv;
    hide CheckProposal;
    hide Offer;
    if (g.cycle, g.attempt) !in s.d.prechecks { CheckProposalKeep(env, cfg, g, Offer(cfg, g.before), s); }
  }

  /** A replacement goes to the executor with a request that names the owned action. */
  lemma ReplaceKeep(env: Env, cfg: Config, g: Graph, s: St)
    requires Quiet(env) && Inv(cfg, g, s.d) && g.next.Validator? && g.phase.Precheck?
    requires (g.cycle, g.attempt) in s.d.prechecks && s.d.prechecks[(g.cycle, g.attempt)].replace
    ensures var g1 := g.(validated := s.d.prechecks[(g.cycle, g.attempt)].validated);
      var r := AskRestore(env, cfg, g1, ReplacePolicy, s);
      Safe(cfg, g, s, r) && (r.Ok? ==> Inv(cfg, r.v, r.s.d))
  {
    hide Inv;
    hide PolicyAction;
    hide AskRestore;
    var g1 := g.(validated := s.d.prechecks[(g.cycle, g.attempt)].validated);
    var request := RestoreRequest(cfg.round, cfg.generation, g.cycle, PolicyAction(g1), g1.plan, ReplacePolicy);
    var d1 := s.d.(artifacts := s.d.artifacts + {request});
    InvGrown(cfg, g, s.d, d1);
    CommitReplace(cfg, g, d1, g1, request);
    AskRestoreKeep(env, cfg, g, g1, ReplacePolicy, s);
  }

  lemma PrecheckKeep(env: Env, cfg: Config, g: Graph, s: St)
    requires Quiet(env) && Inv(cfg, g, s.d) && g.next.Validator? && g.phase.Precheck?
    ensures var r := PrecheckNode(env, cfg, g, s);
      Safe(cfg, g, s, r) && (r.Ok? ==> Inv(cfg, r.v, r.s.d))
  {
    hide Inv;
    hide CheckProposal;
    hide Offer;
    hide AskRestore;
    var r1 := if (g.cycle, g.attempt) in s.d.prechecks then Ok(s, s.d.prechecks[(g.cycle, g.attempt)])
              else CheckProposal(env, cfg, g, Offer(cfg, g.before), s);
    PrecheckPatched(env, cfg, g, s, r1);
    if r1.Fail? { return; }
    if r1.v.replace {
      ReplaceKeep(env, cfg, g, r1.s);
    } else {
      CommitDecision(cfg, g, r1.s.d);
    }
  }

  // ---------------------------------------------------------------- executor: the decision

  lemma DecisionFacts(cfg: Config, g: Graph, d: Durable)
    requires Inv(cfg, g, d) && AtDecision(g)
    ensures g.cycle < cfg.maxCycles && g.stop.Running?
    ensures GoodInputs(cfg, d.artifacts, g.before, g.seal) && GoodPlan(d.artifacts, g.plan, g.before)
    ensures g.validated in d.artifacts && GoodProof(cfg, g, g.validated) && !g.validated.replace
    ensures g.operation.Apply? == g.validated.selected.Some?
    ensures OpKey(g.cycle, g.validated) in d.holds ==>
              d.holds[OpKey(g.cycle, g.validated)] == HoldDecision(g.validated, cfg.round, cfg.generation, g.cycle)
    ensures AtWrite(g) ==> WriteState(g, d)
    ensures KeyOf(g) in d.executions ==> GoodExec(cfg, g, d, d.executions[KeyOf(g)])
  {
    hide Superseded;
    hide Provenance;
    hide Budget;
    hide Owned;
    hide Log;
    hide GoodProof;
    hide GoodExec;
    hide Writes;
  }

  lemma {:induction false} MatchingIsInJournal(adapter: seq<Record>, response: string, candidate: string)
    ensures forall r :: r in Matching(adapter, response, candidate) ==>
              r in adapter && r.response == response && r.candidate == candidate
  {
    if adapter != [] {
      MatchingIsInJournal(adapter[..|adapter| - 1], response, candidate);
      assert adapter == adapter[..|adapter| - 1] + [adapter[|adapter| - 1]];
    }
  }

  /** What the executor must know before it records a completed write. */
  ghost predicate HasWritten(g: Graph, d: Durable, receipt: Record) {
    Pending(g, d.trace) && Newest(d.adapter, Writes(d.trace), receipt.id) && WroteFrom(g, d.trace)
  }

  /** With only an intent left, an installed record of this choice is the one this cycle wrote. */
  lemma AdoptedIsOwn(cfg: Config, g: Graph, d: Durable, r: Record)
    requires Inv(cfg, g, d) && AtWrite(g) && r in d.adapter && r.state.Installed?
    ensures HasWritten(g, d, r)
  {
    hide Superseded;
    hide Provenance;
    hide Point;
    hide Log;
    hide Writes;
    hide Settled;
    hide WroteFrom;
    hide Budget;
    hide SealHolds;
    hide NativeFor;
    hide CanChange;
    DecisionFacts(cfg, g, d);
    var i :| 0 <= i < |d.adapter| && d.adapter[i] == r;
    assert Live(d.adapter[i]);
    assert i == |d.adapter| - 1;
  }

  /** One call of the adapter: nothing new in its journal, or one record of this write. */
  lemma AdapterWrites(env: Env, g: Graph, response: string, candidate: string, s: St)
    requires g.validated.Validated? && g.validated.qerBefore.Some?
    ensures var r := AdapterExecute(env, g, response, candidate, g.validated.qerBefore.value, s);
      WroteOnce(g, s.d, r.s.d) && Mild(r)
      && (r.Ok? ==> r.s.d.adapter != s.d.adapter && r.v.id == |s.d.adapter|)
  {
    var id := |s.d.adapter|;
    var longer := s.d.adapter + [Record(id, response, candidate, env(s.t).outcome)];
    assert longer[..id] == s.d.adapter;
    var answered := s.d.adapter + [Record(id, response, candidate, Answered(env(s.t).outcome))];
    assert answered[..id] == s.d.adapter;
  }

  /** The write itself, after its intent is in the journal. */
  lemma WriteKeep(env: Env, cfg: Config, g: Graph, candidate: string, s: St)
    requires cfg.Valid() && Quiet(env) && Inv(cfg, g, s.d) && AtWrite(g) && g.plan.Plan?
    requires OpKey(g.cycle, g.validated) !in s.d.operations && g.validated.qerBefore.Some?
    ensures var d1 := s.d.(operations := s.d.operations[OpKey(g.cycle, g.validated) := IntentOnly(g.plan)]);
      var r := AdapterExecute(env, g, g.plan.response, candidate, g.validated.qerBefore.value, s.(d := d1));
      Safe(cfg, g, s, r) && (r.Ok? ==> HasWritten(g, r.s.d, r.v))
  {
    hide AdapterExecute;
    hide Inv;
    hide Writes;
    hide GoodProof;
    hide WroteFrom;
    hide GoodExec;
    hide Newest;
    InvIntent(cfg, g, s.d, g.plan);
    var d1 := s.d.(operations := s.d.operations[OpKey(g.cycle, g.validated) := IntentOnly(g.plan)]);
    AdapterWrites(env, g, g.plan.response, candidate, s.(d := d1));
    var r := AdapterExecute(env, g, g.plan.response, candidate, g.validated.qerBefore.value, s.(d := d1));
    InvWrote(cfg, g, d1, r.s.d);
    DecisionFacts(cfg, g, r.s.d);
  }

  /** A replay that finds the write in the journal, completed or only intended. */
  lemma ReplayKeep(env: Env, cfg: Config, g: Graph, s: St)
    requires Quiet(env) && Inv(cfg, g, s.d) && AtWrite(g) && g.plan.Plan? && g.validated.qerBefore.Some?
    requires OpKey(g.cycle, g.validated) in s.d.operations
    ensures var r := Receipt(env, g, g.validated, s);
      r.s.d == s.d && Safe(cfg, g, s, r) && (r.Ok? ==> HasWritten(g, r.s.d, r.v))
  {
    hide Inv;
    hide Matching;
    hide Draw;
    hide Writes;
    hide GoodProof;
    hide WroteFrom;
    hide GoodExec;
    hide Newest;
    DecisionFacts(cfg, g, s.d);
    var found := Matching(s.d.adapter, g.plan.response, g.validated.selected.value.id);
    MatchingIsInJournal(s.d.adapter, g.plan.response, g.validated.selected.value.id);
    if |found| == 1 && found[0].state.Installed? {
      AdoptedIsOwn(cfg, g, s.d, found[0]);
    }
    DrawFacts(env, s, false);
  }

  lemma ReceiptKeep(env: Env, cfg: Config, g: Graph, s: St)
    requires cfg.Valid() && Quiet(env) && Inv(cfg, g, s.d) && AtWrite(g) && g.plan.Plan? && g.validated.qerBefore.Some?
    ensures var r := Receipt(env, g, g.validated, s);
      Safe(cfg, g, s, r) && (r.Ok? ==> HasWritten(g, r.s.d, r.v))
  {
    hide Inv;
    hide HasWritten;
    if OpKey(g.cycle, g.validated) in s.d.operations {
      ReplayKeep(env, cfg, g, s);
      hide Receipt;
    } else {
      hide Draw;
      hide AdapterExecute;
      var r1 := Draw(env, s, false);
      DrawFacts(env, s, false);
      if r1.Fail? { return; }
      var r2 := Draw(env, r1.s, false);
      DrawFacts(env, r1.s, false);
      if r2.Fail? { return; }
      WriteKeep(env, cfg, g, g.validated.selected.value.id, r2.s);
    }
  }

  lemma CompleteKeep(env: Env, cfg: Config, g: Graph, receipt: Record, response: string, s: St)
    requires Quiet(env) && Inv(cfg, g, s.d) && AtWrite(g) && g.validated.qerBefore.Some? && HasWritten(g, s.d, receipt)
    ensures var r := Complete(env, g, receipt, response, s);
      Safe(cfg, g, s, r) && (r.Ok? ==> GoodExec(cfg, g, r.s.d, r.v))
  {
    hide Inv;
    hide Put;
    hide Draw;
    hide Writes;
    var proof := g.validated;
    var r1 := Draw(env, s, false);
    DrawFacts(env, s, false);
    if r1.Fail? { return; }
    var d1 := s.d.(operations := s.d.operations[OpKey(g.cycle, proof) := Completed(receipt)]);
    InvCompleted(cfg, g, s.d, receipt);
    var s1 := r1.s.(d := d1);
    var action := Action(receipt, proof.selected.value, proof.qerBefore.value, g.before, proof.holdSeal, proof, None);
    var r2 := Put(env, s1, action);
    PutKeep(env, cfg, g, s1, action);
    if r2.Fail? { return; }
    var r3 := Draw(env, r2.s, false);
    DrawFacts(env, r2.s, false);
    if r3.Fail? { return; }
    PutKeep(env, cfg, g, r3.s, action.(executorResponse := Some(response)));
  }

  lemma ApplyFreshKeep(env: Env, cfg: Config, g: Graph, s: St)
    requires cfg.Valid() && Quiet(env) && Inv(cfg, g, s.d) && AtWrite(g)
    ensures var r := ApplyFresh(env, cfg, g, s);
      Safe(cfg, g, s, r) && (r.Ok? ==> GoodExec(cfg, g, r.s.d, r.v))
  {
    hide Inv;
    hide Draw;
    hide AcceptedBefore;
    hide Receipt;
    hide Complete;
    hide HasWritten;
    hide GoodExec;
    hide SealHolds;
    hide WriteState;
    DecisionFacts(cfg, g, s.d);
    assert g.plan.Plan? && g.validated.qerBefore.Some?;
    hide GoodProof;
    var r1 := Draw(env, s, true);
    DrawFacts(env, s, true);
    if r1.Fail? { return; }
    var r2 := AcceptedBefore(env, cfg, g.before, g.seal, r1.s);
    AcceptedFacts(env, cfg, g.before, g.seal, r1.s);
    if r2.Fail? { return; }
    var r3 := Receipt(env, g, g.validated, r2.s);
    ReceiptKeep(env, cfg, g, r2.s);
    if r3.Fail? { return; }
    CompleteKeep(env, cfg, g, r3.v, r1.v.response, r3.s);
  }

  lemma ApplyExistingKeep(env: Env, cfg: Config, g: Graph, s: St)
    requires Quiet(env) && Inv(cfg, g, s.d) && AtDecision(g)
    requires g.validated.Validated? && g.validated.selected.Some? && g.validated.alreadyInstalled
    ensures var r := ApplyExisting(env, cfg, g, s);
      Safe(cfg, g, s, r) && (r.Ok? ==> GoodExec(cfg, g, r.s.d, r.v))
  {
    hide Inv;
    hide Draw;
    hide AcceptedBefore;
    hide SealHolds;
    hide WriteState;
    DecisionFacts(cfg, g, s.d);
    ShapeOf(cfg, g, s.d);
    assert g.active.Action? && g.validated.selected.value.id == g.active.choice.id;
    hide GoodProof;
    var r1 := Draw(env, s, true);
    DrawFacts(env, s, true);
    if r1.Fail? { return; }
    var r2 := AcceptedBefore(env, cfg, g.before, g.seal, r1.s);
    AcceptedFacts(env, cfg, g.before, g.seal, r1.s);
    if r2.Fail? { return; }
    DrawFacts(env, r2.s, false);
  }

  /** A proof does not look at what was executed. */
  lemma ProofIgnoresAction(cfg: Config, g: Graph, validated: Artifact, action: Artifact)
    requires GoodProof(cfg, g, g.validated)
    ensures GoodProof(cfg, g.(validated := validated, action := action), g.validated)
  {
    hide SealHolds;
    hide NativeFor;
  }

  lemma ConfirmedIsGood(cfg: Config, g: Graph, arts: set<Artifact>, response: string, action: Artifact)
    requires GoodProof(cfg, g, g.validated) && g.validated.selected.None? && g.validated in arts && action.HoldDecision?
    ensures var confirmed := g.validated.(confirmation := Some(Confirmation(g.validated, response)));
      GoodHold(cfg, arts, g.(validated := confirmed, action := action))
  {
    assert g.validated.Validated? && g.validated.confirmation.None?;
    hide GoodProof;
    var confirmed := g.validated.(confirmation := Some(Confirmation(g.validated, response)));
    assert confirmed.(confirmation := None) == g.validated;
    ProofIgnoresAction(cfg, g, confirmed, action);
  }

  lemma HoldRecorded(cfg: Config, g: Graph, d: Durable, response: string)
    requires g.validated.Validated? && GoodProof(cfg, g, g.validated) && g.validated.selected.None?
    requires g.operation.Hold? && g.validated in d.artifacts
    ensures var decision := HoldDecision(g.validated, cfg.round, cfg.generation, g.cycle);
      var confirmed := g.validated.(confirmation := Some(Confirmation(g.validated, response)));
      var e := d.(artifacts := d.artifacts + {decision} + {confirmed});
      GoodExec(cfg, g, e, Held(confirmed, decision))
  {
    hide GoodProof;
    hide GoodHold;
    var decision := HoldDecision(g.validated, cfg.round, cfg.generation, g.cycle);
    var confirmed := g.validated.(confirmation := Some(Confirmation(g.validated, response)));
    ConfirmedIsGood(cfg, g, d.artifacts + {decision} + {confirmed}, response, decision);
  }

  lemma RecordHoldKeep(env: Env, cfg: Config, g: Graph, response: string, s: St)
    requires Quiet(env) && Inv(cfg, g, s.d) && AtDecision(g)
    requires g.validated.Validated? && g.validated.selected.None?
    ensures var r := RecordHold(env, cfg, g, response, s);
      Safe(cfg, g, s, r) && (r.Ok? ==> GoodExec(cfg, g, r.s.d, r.v))
  {
    hide Inv;
    hide Put;
    hide Draw;
    hide WriteState;
    hide GoodProof;
    DecisionFacts(cfg, g, s.d);
    var decision := HoldDecision(g.validated, cfg.round, cfg.generation, g.cycle);
    var r1 := Draw(env, s, false);
    DrawFacts(env, s, false);
    if r1.Fail? { hide GoodExec; return; }
    var frozen := FirstWrite(s.d.holds, OpKey(g.cycle, g.validated), decision);
    if OpKey(g.cycle, g.validated) !in s.d.holds { InvHoldDecision(cfg, g, s.d); }
    var s1 := r1.s.(d := s.d.(holds := frozen));
    assert frozen[OpKey(g.cycle, g.validated)] == decision;
    var r2 := Put(env, s1, decision);
    PutKeep(env, cfg, g, s1, decision);
    if r2.Fail? { hide GoodExec; return; }
    var r3 := Draw(env, r2.s, false);
    DrawFacts(env, r2.s, false);
    if r3.Fail? { hide GoodExec; return; }
    var confirmed := g.validated.(confirmation := Some(Confirmation(g.validated, response)));
    PutKeep(env, cfg, g, r3.s, confirmed);
    HoldRecorded(cfg, g, s1.d, response);
    hide GoodExec;
  }

  lemma ApplyHoldKeep(env: Env, cfg: Config, g: Graph, s: St)
    requires Quiet(env) && Inv(cfg, g, s.d) && AtDecision(g)
    requires g.validated.Validated? && g.validated.selected.None?
    ensures var r := ApplyHold(env, cfg, g, s);
      Safe(cfg, g, s, r) && (r.Ok? ==> GoodExec(cfg, g, r.s.d, r.v))
  {
    hide Inv;
    hide Draw;
    hide AcceptedBefore;
    hide RecordHold;
    hide SealHolds;
    hide WriteState;
    hide GoodProof;
    hide GoodExec;
    hide NativeFor;
    DecisionFacts(cfg, g, s.d);
    var r1 := Draw(env, s, true);
    DrawFacts(env, s, true);
    if r1.Fail? { return; }
    var r2 := AcceptedBefore(env, cfg, g.before, g.seal, r1.s);
    AcceptedFacts(env, cfg, g.before, g.seal, r1.s);
    if r2.Fail? { return; }
    var r3 := AcceptedBefore(env, cfg, g.before, g.seal, r2.s);
    AcceptedFacts(env, cfg, g.before, g.seal, r2.s);
    if r3.Fail? { return; }
    RecordHoldKeep(env, cfg, g, r1.v.response, r3.s);
  }

  lemma ApplyDecisionKeep(env: Env, cfg: Config, g: Graph, s: St)
    requires cfg.Valid() && Quiet(env) && Inv(cfg, g, s.d) && AtDecision(g) && g.validated.Validated?
    ensures var r := ApplyDecision(env, cfg, g, s);
      Safe(cfg, g, s, r) && (r.Ok? ==> GoodExec(cfg, g, r.s.d, r.v))
  {
    hide Inv;
    hide ApplyHold;
    hide ApplyExisting;
    hide ApplyFresh;
    hide GoodExec;
    hide SealHolds;
    hide WriteState;
    DecisionFacts(cfg, g, s.d);
    assert g.validated.plan == g.plan && g.validated.before == g.before;
    if g.validated.selected.None? {
      ApplyHoldKeep(env, cfg, g, s);
    } else if g.validated.alreadyInstalled {
      ApplyExistingKeep(env, cfg, g, s);
    } else {
      ApplyFreshKeep(env, cfg, g, s);
    }
    hide GoodProof;
  }

  // ---------------------------------------------------------------- executor: the restoration

  lemma RestoreFacts(cfg: Config, g: Graph, d: Durable)
    requires Inv(cfg, g, d) && g.next.Executor? && g.operation.Restore?
    ensures RequestMatches(cfg, g) && g.request in d.artifacts && PolicyAction(g) != NoRef
    ensures KeyOf(g) in d.executions ==> GoodExec(cfg, g, d, d.executions[KeyOf(g)])
  {
    hide Superseded;
    hide Provenance;
    hide Budget;
    hide Owned;
    hide Log;
    hide GoodExec;
  }

  lemma AdapterRestoreKeep(env: Env, cfg: Config, g: Graph, s: St)
    requires Inv(cfg, g, s.d)
    ensures var r := AdapterRestore(env, s);
      Safe(cfg, g, s, r) && Mild(r) && Cleaned(s.d, r.s.d)
      && (r.Ok? ==> NothingLive(r.s.d.adapter))
  {
    hide Inv;
    hide AllRestored;
    hide NothingLive;
    hide SettleAll;
    RestoreCalls(env, s);
    RestoreCleans(env, s);
    hide AdapterRestore;
    var r := AdapterRestore(env, s);
    InvCleaned(cfg, g, s.d, r.s.d);
    if r.Ok? { RestoredNotLive(r.s.d.adapter); }
    hide Cleaned;
  }

  lemma RestoreOwnedKeep(env: Env, cfg: Config, g: Graph, s: St)
    requires Quiet(env) && Inv(cfg, g, s.d) && g.next.Executor? && g.operation.Restore?
    ensures var r := RestoreOwned(env, g, s);
      Safe(cfg, g, s, r) && (r.Ok? ==> GoodExec(cfg, g, r.s.d, r.v))
  {
    hide Inv;
    hide Put;
    hide Draw;
    hide AdapterRestore;
    hide NothingLive;
    hide Cleaned;
    hide RequestMatches;
    hide KeyOf;
    hide PolicyAction;
    RestoreFacts(cfg, g, s.d);
    var r1 := Draw(env, s, false);
    DrawFacts(env, s, false);
    if r1.Fail? { return; }
    var r2 := AdapterRestore(env, r1.s);
    AdapterRestoreKeep(env, cfg, g, r1.s);
    if r2.Fail? { return; }
    var r3 := Draw(env, r2.s, false);
    DrawFacts(env, r2.s, false);
    if r3.Fail? { return; }
    PutKeep(env, cfg, g, r3.s, Restoration(PolicyAction(g), r1.v.response));
  }

  // ---------------------------------------------------------------- executor

  /** The patch the executor freezes, from whichever of its operations. */
  lemma PatchKeep(env: Env, cfg: Config, g: Graph, s: St)
    requires cfg.Valid() && Quiet(env) && Inv(cfg, g, s.d) && g.next.Executor? && !g.operation.NoOperation?
    requires g.operation.Restore? || g.validated.Validated?
    ensures var r := if g.operation.Restore? then RestoreOwned(env, g, s) else ApplyDecision(env, cfg, g, s);
      Safe(cfg, g, s, r) && (r.Ok? ==> GoodExec(cfg, g, r.s.d, r.v))
  {
    hide Inv;
    hide RestoreOwned;
    hide ApplyDecision;
    hide GoodExec;
    if g.operation.Restore? { RestoreOwnedKeep(env, cfg, g, s); } else { ApplyDecisionKeep(env, cfg, g, s); }
  }

  lemma ExecutionKeep(env: Env, cfg: Config, g: Graph, s: St)
    requires cfg.Valid() && Quiet(env) && Inv(cfg, g, s.d) && g.next.Executor? && !g.operation.NoOperation?
    requires g.operation.Restore? || g.validated.Validated?
    ensures var r := Execution(env, cfg, g, KeyOf(g), s);
      Safe(cfg, g, s, r)
      && (r.Ok? ==> KeyOf(g) in r.s.d.executions && r.s.d.executions[KeyOf(g)] == r.v)
  {
    hide Inv;
    hide Draw;
    hide RestoreOwned;
    hide ApplyDecision;
    hide GoodExec;
    if KeyOf(g) in s.d.executions { return; }
    PatchKeep(env, cfg, g, s);
    var r1 := if g.operation.Restore? then RestoreOwned(env, g, s) else ApplyDecision(env, cfg, g, s);
    if r1.Fail? { return; }
    var r2 := Draw(env, r1.s, false);
    DrawFacts(env, r1.s, false);
    if r2.Fail? { return; }
    if KeyOf(g) !in r2.s.d.executions { InvExecution(cfg, g, r2.s.d, r1.v); }
  }

  /** The operation is one the point allows, and its binding is in the table. */
  lemma ExecutorFacts(cfg: Config, g: Graph, d: Durable)
    requires Inv(cfg, g, d) && g.next.Executor?
    ensures !g.operation.NoOperation? && BindingOf(g) in d.artifacts
    ensures g.operation.Restore? ==> RequestMatches(cfg, g)
    ensures !g.operation.Restore? ==>
              && g.validated.Validated? && g.operation.Apply? == g.validated.selected.Some?
              && (g.validated.round, g.validated.generation, g.validated.cycle) == (cfg.round, cfg.generation, g.cycle)
  {
    if g.operation.NoOperation? {
      hide Budget;
      hide Owned;
      hide Log;
    } else if g.operation.Restore? {
      RestoreFacts(cfg, g, d);
      hide Inv;
    } else {
      DecisionFacts(cfg, g, d);
      hide Inv;
      hide WriteState;
      hide GoodExec;
    }
  }

  lemma ExecutorKeep(env: Env, cfg: Config, g: Graph, s: St)
    requires cfg.Valid() && Quiet(env) && Inv(cfg, g, s.d) && g.next.Executor?
    ensures var r := ExecutorNode(env, cfg, g, s);
      Safe(cfg, g, s, r) && (r.Ok? ==> Inv(cfg, r.v, r.s.d))
  {
    hide Inv;
    hide Execution;
    hide RequestMatches;
    hide Executed';
    hide KeyOf;
    hide BindingOf;
    ExecutorFacts(cfg, g, s.d);
    var r0 := Need(s, {BindingOf(g)});
    assert r0 == Ok(s, ());
    var r1 := Execution(env, cfg, g, KeyOf(g), s);
    ExecutionKeep(env, cfg, g, s);
    if r1.Fail? { return; }
    if g.operation.Restore? { CommitUndone(cfg, g, r1.s.d); } else { CommitExecuted(cfg, g, r1.s.d); }
  }
}
