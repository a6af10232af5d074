/**
 The three nodes of LangGraphAgentLoop and its run method, as functions of an oracle.

 Every collaborator (language model, observer, native reader, clock, database, adapter) is drawn
 from the oracle `env`. A draw may let the step proceed, raise inside it, raise past the node's
 handler, end the scenario, or kill the process; a killed process keeps only `Durable`.
 */
module AgentModel {
  import opened Contracts
  import opened AgentTypes
  import Cohort

  datatype Fate = Proceeds | Ends | Raises | RaisesRetryable | Escapes | Crashes

  datatype Ask = Ask(verb: Verb, group: Option<string>, profile: Option<string>)

  /** One answer of the outside world; a step reads only the fields its call returns. */
  datatype Choice = Choice(
    fate: Fate, over: bool, reuse: bool, now: real, sealedAt: real, reading: Reading,
    native: Inventory, ask: Ask, response: string, effect: Effect, improvement: real,
    refuses: bool, outcome: RecordState, uncertain: bool, settle: nat -> RecordState)

  type Env = nat -> Choice

  /** Durable state and the number of draws made so far. */
  datatype St = St(d: Durable, t: nat)

  datatype Why = Crash | Escape | Ended | Raise(code: Code)

  datatype Res<+T> = Ok(s: St, v: T) | Fail(s: St, why: Why) {
    predicate IsFailure() { Fail? }
    function PropagateFailure<U>(): Res<U>
      requires Fail?
    {
      Fail(s, why)
    }
    function Extract(): (St, T)
      requires Ok?
    {
      (s, v)
    }
  }

  // ---------------------------------------------------------------- draws and tables

  /** The lessons, the log, the checkpoint and the context are as before, and the history only grows. */
  predicate Untaught<T>(s: St, r: Res<T>) {
    && r.s.d.lessons == s.d.lessons && r.s.d.outcomes == s.d.outcomes
    && r.s.d.graph == s.d.graph && r.s.d.context == s.d.context
    && s.d.trace <= r.s.d.trace
  }

  /** At most this cycle's row and lesson are new; the lesson ends the run exactly at the cycle limit. */
  predicate Taught<T>(cfg: Config, g: Graph, s: St, r: Res<T>) {
    && r.s.d.graph == s.d.graph && r.s.d.context == s.d.context
    && s.d.trace <= r.s.d.trace
    && (r.s.d.outcomes == s.d.outcomes
        || (g.cycle !in s.d.outcomes && g.cycle in r.s.d.outcomes && r.s.d.outcomes - {g.cycle} == s.d.outcomes))
    && (r.s.d.lessons == s.d.lessons
        || r.s.d.lessons == s.d.lessons[g.cycle := LessonPatch(g.cycle + 1 >= cfg.maxCycles)])
  }

  /** One call to a collaborator or to the database. */
  function Draw(env: Env, s: St, mayEnd: bool): (r: Res<Choice>)
    ensures Untaught(s, r)
  {
    var c := env(s.t);
    var s1 := s.(t := s.t + 1);
    match c.fate
    case Crashes => Fail(s1, Crash)
    case Escapes => Fail(s1, Escape)
    case Raises => Fail(s1, Raise(StageFailed))
    case RaisesRetryable => Fail(s1, Raise(UnsupportedCapability))
    case Ends => if mayEnd then Fail(s1, Ended) else Ok(s1, c)
    case Proceeds => Ok(s1, c)
  }

  /** A call made inside an exception handler or by the graph runtime: what it raises escapes. */
  function DrawOutside(env: Env, s: St): (r: Res<Choice>)
    ensures Untaught(s, r)
  {
    match Draw(env, s, false)
    case Ok(s1, c) => Ok(s1, c)
    case Fail(s1, why) => Fail(s1, if why.Raise? then Escape else why)
  }

  function Put(env: Env, s: St, a: Artifact): (r: Res<()>)
    ensures Untaught(s, r)
  {
    var (s, _) :- Draw(env, s, false);
    Ok(s.(d := s.d.(artifacts := s.d.artifacts + {a})), ())
  }

  /** Reads of references: each must be in this thread's table. */
  function Need(s: St, refs: set<Artifact>): (r: Res<()>)
    ensures Untaught(s, r)
  {
    if refs <= s.d.artifacts then Ok(s, ()) else Fail(s, Raise(ReferenceOutsideRound))
  }

  function Refuse<T>(s: St, code: Code): Res<T> {
    Fail(s, Raise(code))
  }

  /** A reading the validator's observe accepts at time `now`. */
  predicate Accepts(cfg: Config, r: Reading, now: real) {
    -1.0 <= now - r.observedAt <= cfg.maxAge as real && |r.rows| == cfg.totalUes && DistinctSupis(r.rows)
  }

  /** An inventory the validator returns for these rows. */
  predicate NativeFor(cfg: Config, rows: seq<Row>, native: Inventory) {
    native.Keys == Supis(rows) && |native| == cfg.totalUes
  }

  /** _sealed_before_rows: the seal binds exactly this observation, and was fresh when taken. */
  predicate SealHolds(cfg: Config, before: Artifact, seal: Artifact) {
    && before.Observation? && seal.Seal?
    && seal.before == before
    && seal.round == before.reading.round
    && seal.generation == before.reading.generation
    && seal.sequence == before.reading.sequence
    && seal.sealedRows == before.reading.rows
    && -1.0 <= seal.validatedAt - before.reading.observedAt <= cfg.maxAge as real
  }

  function AcceptedBefore(env: Env, cfg: Config, before: Artifact, seal: Artifact, s: St): (r: Res<()>)
    ensures Untaught(s, r)
  {
    var (s, _) :- Need(s, {before, seal});
    if !SealHolds(cfg, before, seal) then Refuse(s, SealInvalid)
    else
      var (s, _) :- Draw(env, s, false);
      Ok(s, ())
  }

  // ---------------------------------------------------------------- planner

  /** _capture_before: the observation, its seal, and the frozen inputs of the cycle. */
  function Capture(env: Env, g: Graph, reading: Reading, sealedAt: real, s: St): (r: Res<Option<Inputs>>)
    ensures Untaught(s, r)
  {
    var before := Observation(reading);
    var seal := Seal(before, reading.round, reading.generation, reading.sequence, reading.rows, sealedAt);
    var (s, _) :- Put(env, s, before);
    var (s, _) :- Put(env, s, seal);
    var (s, _) :- Draw(env, s, false);
    var frozen := FirstWrite(s.d.inputs, g.cycle, Inputs(before, seal));
    Ok(s.(d := s.d.(inputs := frozen)), Some(frozen[g.cycle]))
  }

  /** _observe and the cycle's frozen inputs; None when the scenario is over. */
  function CycleInputs(env: Env, cfg: Config, g: Graph, s: St): (r: Res<Option<Inputs>>)
    ensures Untaught(s, r)
  {
    if g.cycle in s.d.inputs then Ok(s, Some(s.d.inputs[g.cycle]))
    else
      var (s, c) :- Draw(env, s, false);
      if c.over then Ok(s, None)
      else
        var reused := c.reuse && g.after != NoRef;
        var (s, _) :- Need(s, if reused then {g.after} else {});
        if reused && !g.after.Observation? then Refuse(s, StageFailed)
        else
          var r := if reused then g.after.reading else c.reading;
          if !r.live then Ok(s, None)
          else if !Accepts(cfg, r, c.now) then Refuse(s, StageFailed)
          else if r.round != cfg.round || r.generation != cfg.generation then Refuse(s, RoundChanged)
          else Capture(env, g, r, c.sealedAt, s)
  }

  /** The first candidate with this group and profile. */
  function Find(candidates: seq<Candidate>, group: Option<string>, profile: Option<string>): Option<Candidate> {
    if candidates == [] then None
    else if Some(candidates[0].eventId) == group && Some(candidates[0].profileId) == profile then Some(candidates[0])
    else Find(candidates[1..], group, profile)
  }

  predicate CanChange(cfg: Config, g: Graph) {
    g.changes < cfg.maxChanges && g.cycle - g.lastChange >= cfg.minGap
  }

  /** The proposal tool's refusal, if it has one. */
  function Refusal(cfg: Config, g: Graph, candidates: seq<Candidate>, ask: Ask): Option<Code> {
    var found := Find(candidates, ask.group, ask.profile);
    if ask.verb.HoldPolicy? then
      if ask.group.Some? || ask.profile.Some? then Some(HoldHasPolicyArguments) else None
    else if found.None? then Some(UnsupportedCapability)
    else if CanChange(cfg, g) || (g.active.Action? && found.value.id == g.active.choice.id) then None
    else Some(ChangeBudgetExhausted)
  }

  /** The plan, then the frozen proposal of this attempt. */
  function StorePlan(env: Env, g: Graph, plan: Artifact, s: St): (r: Res<Artifact>)
    ensures Untaught(s, r)
  {
    var (s, _) :- Draw(env, s, false);
    var (s, _) :- Put(env, s, plan);
    var (s, _) :- Draw(env, s, false);
    var frozen := FirstWrite(s.d.proposals, (g.cycle, g.attempt), plan);
    Ok(s.(d := s.d.(proposals := frozen)), frozen[(g.cycle, g.attempt)])
  }

  /** _plan: the proposal tool refuses, or its plan becomes the proposal of this attempt. */
  function Draft(env: Env, cfg: Config, g: Graph, before: Artifact, offer: seq<Candidate>, s: St): (r: Res<Artifact>)
    ensures Untaught(s, r)
  {
    var (s, c) :- Draw(env, s, true);
    var refusal := Refusal(cfg, g, offer, c.ask);
    if refusal.Some? then Refuse(s, refusal.value)
    else StorePlan(env, g, Plan(c.ask.verb, c.ask.group, c.ask.profile, c.response, before), s)
  }

  function Propose(env: Env, cfg: Config, g: Graph, before: Artifact,
                   offer: Option<seq<Candidate>>, s: St): (r: Res<Artifact>)
    ensures Untaught(s, r)
  {
    if (g.cycle, g.attempt) in s.d.proposals then Ok(s, s.d.proposals[(g.cycle, g.attempt)])
    else
      var (s, _) :- Need(s, if g.active != NoRef then {g.active} else {});
      if offer.None? then Refuse(s, StageFailed) else Draft(env, cfg, g, before, offer.value, s)
  }

  function Offer(cfg: Config, before: Artifact): Option<seq<Candidate>> {
    if before.Observation? then Cohort.Commissioned(before.reading.rows, cfg.profiles) else None
  }

  function PlannerNode(env: Env, cfg: Config, g: Graph, s: St): (r: Res<Graph>)
    ensures Untaught(s, r)
  {
    var (s, inputs) :- CycleInputs(env, cfg, g, s);
    if inputs.None? then Ok(s, g.(next := End, stop := ScenarioEnded))
    else
      var i := inputs.value;
      var (s, _) :- AcceptedBefore(env, cfg, i.before, i.seal, s);
      var (s, plan) :- Propose(env, cfg, g, i.before, Offer(cfg, i.before), s);
      Ok(s, Planned(g, i, plan))
  }

  /** The planner's patch: new inputs and proposal, every later reference of the cycle cleared. */
  function Planned(g: Graph, i: Inputs, plan: Artifact): Graph {
    g.(next := Validator, phase := Precheck, operation := NoOperation, before := i.before, seal := i.seal,
       plan := plan, validated := NoRef, action := NoRef, verdict := NoRef, request := NoRef)
  }

  // ---------------------------------------------------------------- validator: precheck

  /** The proof a proposal check stores. */
  function Proof(cfg: Config, g: Graph, chosen: Option<Candidate>, native: Inventory): (proof: Artifact)
    requires g.plan.Plan?
    ensures proof.Validated?
  {
    var owned := g.active.Action?;
    var same := owned && chosen.Some? && chosen.value.id == g.active.choice.id;
    var replace := owned && chosen.Some? && !same;
    var freshHold := g.plan.verb.HoldPolicy? && g.active == NoRef;
    Validated(g.plan, g.before, chosen, cfg.round, cfg.generation, g.cycle, replace, freshHold, same,
              if same then Some(g.active.baseline) else if freshHold || (chosen.Some? && !replace) then Some(native) else None,
              if freshHold || (chosen.Some? && !replace && !same) then g.seal else NoRef,
              None, None)
  }

  /** The candidate an apply decision names. */
  function Chosen(g: Graph, offer: seq<Candidate>): Option<Candidate>
    requires g.plan.Plan?
  {
    if g.plan.verb.ApplyPolicy? then Find(offer, g.plan.group, g.plan.profile) else None
  }

  /** The refusal of the proposal check, if it has one. */
  function ProofRefusal(cfg: Config, g: Graph, proof: Artifact, native: Inventory): Option<Code>
    requires proof.Validated? && g.before.Observation?
  {
    if proof.selected.Some? && !proof.replace && !proof.alreadyInstalled && !CanChange(cfg, g) then
      Some(ChangeBudgetExhausted)
    else if proof.qerBefore.Some? && !proof.alreadyInstalled && !NativeFor(cfg, g.before.reading.rows, native) then
      Some(StageFailed)
    else None
  }

  function Signed(proof: Artifact, response: string): (signed: Artifact)
    requires proof.Validated?
    ensures signed.Validated? && signed.selected == proof.selected
  {
    if proof.freshHold || proof.selected.Some? then proof.(precheckResponse := Some(response)) else proof
  }

  /** The proof, then the signed proof, then the frozen patch. */
  function StoreProof(env: Env, g: Graph, proof: Artifact, response: string, s: St): (r: Res<PrecheckPatch>)
    requires proof.Validated?
    ensures Untaught(s, r)
  {
    var (s, _) :- Put(env, s, proof);
    var (s, _) :- Draw(env, s, false);
    var (s, _) :- Put(env, s, Signed(proof, response));
    var (s, _) :- Draw(env, s, false);
    var frozen := FirstWrite(s.d.prechecks, (g.cycle, g.attempt), PrecheckPatch(Signed(proof, response), proof.replace));
    Ok(s.(d := s.d.(prechecks := frozen)), frozen[(g.cycle, g.attempt)])
  }

  function CheckProposal(env: Env, cfg: Config, g: Graph, offer: Option<seq<Candidate>>, s: St): (r: Res<PrecheckPatch>)
    ensures Untaught(s, r)
  {
    var (s, _) :- Need(s, {g.plan, g.before} + if g.active != NoRef then {g.active} else {});
    if offer.None? || !g.plan.Plan? || !g.before.Observation? then Refuse(s, StageFailed)
    else
      var (s, c) :- Draw(env, s, true);
      var (s, _) :- AcceptedBefore(env, cfg, g.before, g.seal, s);
      var proof := Proof(cfg, g, Chosen(g, offer.value), c.native);
      var refusal := ProofRefusal(cfg, g, proof, c.native);
      if refusal.Some? then Refuse(s, refusal.value)
      else StoreProof(env, g, proof, c.response, s)
  }

  function AskRestore(env: Env, cfg: Config, g: Graph, reason: Reason, s: St): (r: Res<Graph>)
    ensures Untaught(s, r)
  {
    if PolicyAction(g) == NoRef then Refuse(s, OwnedActionMissing)
    else
      var request := RestoreRequest(cfg.round, cfg.generation, g.cycle, PolicyAction(g), g.plan, reason);
      var (s, _) :- Put(env, s, request);
      Ok(s, g.(operation := Restore, request := request, next := Executor))
  }

  function PrecheckNode(env: Env, cfg: Config, g: Graph, s: St): (r: Res<Graph>)
    ensures Untaught(s, r)
  {
    var (s, patch) :-
      if (g.cycle, g.attempt) in s.d.prechecks then Ok(s, s.d.prechecks[(g.cycle, g.attempt)])
      else CheckProposal(env, cfg, g, Offer(cfg, g.before), s);
    var g1 := g.(validated := patch.validated);
    if patch.replace then AskRestore(env, cfg, g1, ReplacePolicy, s)
    else
      var (s, _) :- Need(s, {patch.validated});
      if !patch.validated.Validated? then Refuse(s, StageFailed)
      else Ok(s, g1.(operation := if patch.validated.selected.Some? then Apply else Hold, next := Executor))
  }

  // ---------------------------------------------------------------- the QER adapter

  predicate Resolved(r: Record) {
    r.state.Installed? || r.state.Restored?
  }

  /** What a returned receipt can say. */
  function Answered(state: RecordState): RecordState {
    if state.Installed? || state.Restored? then state else Quarantined
  }

  /**
   adapter.execute: refuses while any record is unresolved; otherwise journals one record before
   the first native write, and may raise or die with that record in any state.
   */
  function AdapterExecute(env: Env, g: Graph, response: string, candidate: string,
                          baseline: Inventory, s: St): (r: Res<Record>)
    ensures Untaught(s, r)
  {
    var c := env(s.t);
    var id := |s.d.adapter|;
    var called := s.d.(trace := s.d.trace + [Executed(NativeWrite(g.cycle, g.attempt, id, baseline))]);
    if c.refuses || exists r :: r in s.d.adapter && !Resolved(r) then
      Fail(St(called, s.t + 1), if c.fate.Crashes? then Crash else if c.fate.Escapes? then Escape else Raise(StageFailed))
    else
      var completes := c.fate.Proceeds? || c.fate.Ends?;
      var record := Record(id, response, candidate, if completes then Answered(c.outcome) else c.outcome);
      var s1 := St(called.(adapter := called.adapter + [record]), s.t + 1);
      if completes then Ok(s1, record)
      else Fail(s1, if c.fate.Crashes? then Crash else if c.fate.Escapes? then Escape else Raise(StageFailed))
  }

  /** Cleanup never puts a record back in force, and may stop halfway. */
  function Settle(r: Record, proposed: RecordState): Record {
    if proposed.Intent? || proposed.Applying? || proposed.Installed? then r else r.(state := proposed)
  }

  function SettleAll(adapter: seq<Record>, settle: nat -> RecordState): (r: seq<Record>)
    ensures |r| == |adapter|
    ensures forall i :: 0 <= i < |r| ==> r[i] == Settle(adapter[i], settle(i))
  {
    seq(|adapter|, i requires 0 <= i < |adapter| => Settle(adapter[i], settle(i)))
  }

  /** executor.restore: adapter.cleanup, refused unless every record of the round reads restored. */
  function AdapterRestore(env: Env, s: St): (r: Res<()>)
    ensures Untaught(s, r)
  {
    var c := env(s.t);
    var settled := SettleAll(s.d.adapter, c.settle);
    var done := (c.fate.Proceeds? || c.fate.Ends?) && AllRestored(settled);
    var s1 := St(s.d.(adapter := settled, trace := s.d.trace + [RestoreCalled(done)]), s.t + 1);
    match c.fate
    case Crashes => Fail(s1, Crash)
    case Escapes => Fail(s1, Escape)
    case Raises => Fail(s1, Raise(StageFailed))
    case RaisesRetryable => Fail(s1, Raise(StageFailed))
    case _ => if done then Ok(s1, ()) else Refuse(s1, StageFailed)
  }

  // ---------------------------------------------------------------- executor

  function Matching(adapter: seq<Record>, response: string, candidate: string): seq<Record> {
    if adapter == [] then []
    else
      var rest := Matching(adapter[..|adapter| - 1], response, candidate);
      var r := adapter[|adapter| - 1];
      if r.response == response && r.candidate == candidate then rest + [r] else rest
  }

  /** The receipt of this operation: replayed, adopted from the adapter, or obtained by writing now. */
  function Receipt(env: Env, g: Graph, proof: Artifact, s: St): (r: Res<Record>)
    requires proof.Validated? && proof.selected.Some? && proof.qerBefore.Some? && g.plan.Plan?
    ensures Untaught(s, r)
  {
    var op := OpKey(g.cycle, g.validated);
    if op in s.d.operations then
      var (s, receipt) :-
        match s.d.operations[op]
        case Completed(r) => Ok(s, r)
        case IntentOnly(_) =>
          var found := Matching(s.d.adapter, g.plan.response, proof.selected.value.id);
          if |found| != 1 || !found[0].state.Installed? || env(s.t).uncertain then Refuse(s, UncertainOperation)
          else Ok(s, found[0]);
      var (s, _) :- Draw(env, s, false);
      Ok(s, receipt)
    else
      var (s, _) :- Draw(env, s, false);
      var (s, _) :- Draw(env, s, false);
      var s := s.(d := s.d.(operations := s.d.operations[op := IntentOnly(g.plan)]));
      AdapterExecute(env, g, g.plan.response, proof.selected.value.id, proof.qerBefore.value, s)
  }

  /** The completed journal entry, the action, and the action with its confirmation. */
  function Complete(env: Env, g: Graph, receipt: Record, response: string, s: St): (r: Res<ExecPatch>)
    requires g.validated.Validated? && g.validated.selected.Some? && g.validated.qerBefore.Some?
    ensures Untaught(s, r)
  {
    var proof := g.validated;
    var (s, _) :- Draw(env, s, false);
    var s := s.(d := s.d.(operations := s.d.operations[OpKey(g.cycle, proof) := Completed(receipt)]));
    var action := Action(receipt, proof.selected.value, proof.qerBefore.value, g.before, proof.holdSeal, proof, None);
    var (s, _) :- Put(env, s, action);
    var (s, _) :- Draw(env, s, false);
    var signed := action.(executorResponse := Some(response));
    var (s, _) :- Put(env, s, signed);
    Ok(s, Applied(signed, g.changes + 1, g.cycle))
  }

  function ApplyFresh(env: Env, cfg: Config, g: Graph, s: St): (r: Res<ExecPatch>)
    requires g.validated.Validated? && g.validated.selected.Some?
    ensures Untaught(s, r)
  {
    var proof := g.validated;
    if !g.plan.Plan? || proof.qerBefore.None? then Refuse(s, StageFailed)
    else
      var (s, c) :- Draw(env, s, true);
      var (s, _) :- AcceptedBefore(env, cfg, g.before, g.seal, s);
      var (s, receipt) :- Receipt(env, g, proof, s);
      Complete(env, g, receipt, c.response, s)
  }

  function ApplyExisting(env: Env, cfg: Config, g: Graph, s: St): (r: Res<ExecPatch>)
    requires g.validated.Validated? && g.validated.selected.Some?
    ensures Untaught(s, r)
  {
    if g.active == NoRef then Refuse(s, OwnedActionMissing)
    else
      var (s, _) :- Need(s, {g.active});
      if !g.active.Action? || g.active.choice.id != g.validated.selected.value.id then Refuse(s, ValidatedPlanChanged)
      else
        var (s, _) :- Draw(env, s, true);
        var (s, _) :- AcceptedBefore(env, cfg, g.before, g.seal, s);
        var (s, _) :- Draw(env, s, false);
        Ok(s, Kept(g.active))
  }

  /** The frozen no-write decision, its action, and the proof with its confirmation. */
  function RecordHold(env: Env, cfg: Config, g: Graph, response: string, s: St): (r: Res<ExecPatch>)
    requires g.validated.Validated?
    ensures Untaught(s, r)
  {
    var (s, _) :- Draw(env, s, false);
    var decision := HoldDecision(g.validated, cfg.round, cfg.generation, g.cycle);
    var frozen := FirstWrite(s.d.holds, OpKey(g.cycle, g.validated), decision);
    var s := s.(d := s.d.(holds := frozen));
    if frozen[OpKey(g.cycle, g.validated)] != decision then Refuse(s, HoldDecisionChanged)
    else
      var (s, _) :- Put(env, s, decision);
      var (s, _) :- Draw(env, s, false);
      var confirmed := g.validated.(confirmation := Some(Confirmation(g.validated, response)));
      var (s, _) :- Put(env, s, confirmed);
      Ok(s, Held(confirmed, decision))
  }

  function ApplyHold(env: Env, cfg: Config, g: Graph, s: St): (r: Res<ExecPatch>)
    requires g.validated.Validated?
    ensures Untaught(s, r)
  {
    var proof := g.validated;
    if proof.selected.Some? || !g.plan.Plan? || (g.plan.verb.HoldPolicy? && (g.plan.group.Some? || g.plan.profile.Some?))
    then Refuse(s, NoValidatedHold)
    else
      var (s, c) :- Draw(env, s, true);
      var (s, _) :- AcceptedBefore(env, cfg, g.before, g.seal, s);
      if !g.before.Observation? || !NativeFor(cfg, g.before.reading.rows, c.native) then Refuse(s, StageFailed)
      else if proof.freshHold && Some(c.native) != proof.qerBefore then Refuse(s, HoldNativeChanged)
      else
        var (s, _) :- AcceptedBefore(env, cfg, g.before, g.seal, s);
        RecordHold(env, cfg, g, c.response, s)
  }

  function ApplyDecision(env: Env, cfg: Config, g: Graph, s: St): (r: Res<ExecPatch>)
    requires g.validated.Validated?
    ensures Untaught(s, r)
  {
    if g.validated.plan != g.plan || g.validated.before != g.before then Refuse(s, ValidatedPlanChanged)
    else if g.validated.selected.None? then ApplyHold(env, cfg, g, s)
    else if g.validated.alreadyInstalled then ApplyExisting(env, cfg, g, s)
    else ApplyFresh(env, cfg, g, s)
  }

  function RestoreOwned(env: Env, g: Graph, s: St): (r: Res<ExecPatch>)
    ensures Untaught(s, r)
  {
    var owned := PolicyAction(g);
    if owned == NoRef then Refuse(s, OwnedActionMissing)
    else
      var (s, c) :- Draw(env, s, false);
      var (s, _) :- AdapterRestore(env, s);
      var (s, _) :- Draw(env, s, false);
      var restoration := Restoration(owned, c.response);
      var (s, _) :- Put(env, s, restoration);
      Ok(s, Undone(restoration))
  }

  /** The frozen execution patch of this key, produced at most once. */
  function Execution(env: Env, cfg: Config, g: Graph, key: ExecKey, s: St): (r: Res<ExecPatch>)
    requires g.operation.Restore? || g.validated.Validated?
    ensures Untaught(s, r)
  {
    if key in s.d.executions then Ok(s, s.d.executions[key])
    else
      var (s, patch) :- if g.operation.Restore? then RestoreOwned(env, g, s) else ApplyDecision(env, cfg, g, s);
      var (s, _) :- Draw(env, s, false);
      var frozen := FirstWrite(s.d.executions, key, patch);
      Ok(s.(d := s.d.(executions := frozen)), frozen[key])
  }

  /** The state after an execution patch; an applied action becomes the owned one. */
  function Executed'(g: Graph, patch: ExecPatch): Graph {
    var g1 := g.(next := Validator, phase := if g.operation.Restore? then RestoreCheck else Postcheck);
    match patch
    case Held(validated, action) => g1.(validated := validated, action := action)
    case Applied(action, changes, lastChange) => g1.(action := action, active := action, changes := changes, lastChange := lastChange)
    case Kept(action) => g1.(action := action, active := action)
    case Undone(_) => g1
  }

  function BindingOf(g: Graph): Artifact {
    if g.operation.Restore? then g.request else g.validated
  }

  function KeyOf(g: Graph): ExecKey {
    ExecKey(g.cycle, g.attempt, g.operation, BindingOf(g))
  }

  predicate RequestMatches(cfg: Config, g: Graph) {
    && g.request.RestoreRequest?
    && g.request.round == cfg.round && g.request.generation == cfg.generation && g.request.cycle == g.cycle
    && g.request.owned == PolicyAction(g) && g.request.proposal == g.plan
  }

  function ExecutorNode(env: Env, cfg: Config, g: Graph, s: St): (r: Res<Graph>)
    ensures Untaught(s, r)
  {
    if g.operation.NoOperation? then Refuse(s, OperationDenied)
    else
      var (s, _) :- Need(s, {BindingOf(g)});
      if g.operation.Restore? && !RequestMatches(cfg, g) then Refuse(s, RestoreRequestChanged)
      else if !g.operation.Restore? && !g.validated.Validated? then Refuse(s, StageFailed)
      else if !g.operation.Restore? && (g.validated.round, g.validated.generation, g.validated.cycle)
                                    != (cfg.round, cfg.generation, g.cycle) then Refuse(s, DecisionScopeChanged)
      else if !g.operation.Restore? && g.operation.Apply? != g.validated.selected.Some? then Refuse(s, OperationDenied)
      else
        var (s, patch) :- Execution(env, cfg, g, KeyOf(g), s);
        Ok(s, Executed'(g, patch))
  }

  // ---------------------------------------------------------------- validator: postcheck

  /** The measurement, then the frozen window of the cycle. */
  function StoreWindow(env: Env, g: Graph, after: Artifact, s: St): (r: Res<Artifact>)
    ensures Untaught(s, r)
  {
    var (s, _) :- Put(env, s, after);
    var (s, _) :- Draw(env, s, false);
    var frozen := FirstWrite(s.d.windows, g.cycle, after);
    Ok(s.(d := s.d.(windows := frozen)), frozen[g.cycle])
  }

  /** The result window of the cycle, read once; NoRef when a no-policy cycle has none. */
  function Measure(env: Env, cfg: Config, g: Graph, needed: bool, s: St): (r: Res<Artifact>)
    ensures Untaught(s, r)
  {
    if g.cycle in s.d.windows then Ok(s, s.d.windows[g.cycle])
    else
      var (s, c) :- Draw(env, s, true);
      if !c.reading.live then
        if needed then Refuse(s, ResultWindowUnavailable) else Ok(s, NoRef)
      else if !Accepts(cfg, c.reading, c.now) then Refuse(s, StageFailed)
      else StoreWindow(env, g, Observation(c.reading), s)
  }

  predicate SameBinding(a: Row, b: Row) {
    a.eventId == b.eventId && a.slice == b.slice && a.requestedSlice == b.requestedSlice
    && a.offeredUl == b.offeredUl && a.offeredDl == b.offeredDl
  }

  /** A held policy compares the same owner, the same UEs and the same load, later. */
  predicate SameScope(before: Reading, after: Reading) {
    && before.round == after.round && before.generation == after.generation && before.revision == after.revision
    && after.sequence > before.sequence
    && Supis(before.rows) == Supis(after.rows)
    && forall a, b :: a in before.rows && b in after.rows && a.supi == b.supi ==> SameBinding(a, b)
  }

  /** The deterministic verdict over the measured window. */
  function Compare(env: Env, cfg: Config, g: Graph, after: Artifact, s: St): (r: Res<Artifact>)
    requires g.validated.Validated?
    ensures Untaught(s, r)
    ensures r.Ok? ==> r.v.Verdict?
  {
    var (s, c) :- Draw(env, s, false);
    if PolicyAction(g) == NoRef then
      if !g.validated.freshHold then Ok(s, Verdict(NoOp, None, after, false, None, None))
      else if g.validated.confirmation.None? || after == NoRef then Refuse(s, HoldConfirmationUnavailable)
      else if !g.before.Observation? || !after.Observation? || !Accepts(cfg, after.reading, c.now) then Refuse(s, StageFailed)
      else if !SameScope(g.before.reading, after.reading) then Refuse(s, HoldResultScopeChanged)
      else if !NativeFor(cfg, after.reading.rows, c.native) then Refuse(s, StageFailed)
      else if Some(c.native) != g.validated.qerBefore then Refuse(s, HoldNativeChanged)
      else Ok(s, Verdict(NoOp, None, after, false, Some(c.native), None))
    else if c.effect.NoOp? || !after.Observation? then Refuse(s, StageFailed)
    else
      Ok(s, Verdict(c.effect, if c.effect.NoHoldout? then None else Some(c.improvement), after,
                    !c.effect.EffectVerified?, None, None))
  }

  function SignedVerdict(verdict: Artifact, response: string): Artifact
    requires verdict.Verdict?
  {
    if verdict.held.Some? then verdict.(validatorResponse := Some(response)) else verdict
  }

  /** The signed verdict, then the frozen postcheck of the cycle. */
  function StoreVerdict(env: Env, g: Graph, verdict: Artifact, response: string, s: St): (r: Res<PostPatch>)
    requires verdict.Verdict?
    ensures Untaught(s, r)
  {
    var signed := SignedVerdict(verdict, response);
    var (s, _) :- Put(env, s, signed);
    var (s, _) :- Draw(env, s, false);
    var frozen := FirstWrite(s.d.postchecks, g.cycle, PostPatch(signed, verdict.after, PolicyAction(g), verdict.restore));
    Ok(s.(d := s.d.(postchecks := frozen)), frozen[g.cycle])
  }

  /** The policy in force and the sealed baseline, measured and compared. */
  function Judge(env: Env, cfg: Config, g: Graph, s: St): (r: Res<Artifact>)
    requires g.validated.Validated?
    ensures Untaught(s, r)
    ensures r.Ok? ==> r.v.Verdict?
  {
    var (s, _) :- Draw(env, s, g.cycle !in s.d.windows);
    var needed := PolicyAction(g) != NoRef || g.validated.freshHold;
    var (s, after) :- Measure(env, cfg, g, needed, s);
    var (s, _) :- Need(s, if after != NoRef then {after} else {});
    Compare(env, cfg, g, after, s)
  }

  /** What the postcheck reads before it measures. */
  function PostcheckRefs(g: Graph): set<Artifact> {
    {g.before, g.validated} + (if g.action != NoRef then {g.action} else {})
    + if g.active != NoRef then {g.active} else {}
  }

  function CheckEffect(env: Env, cfg: Config, g: Graph, s: St): (r: Res<PostPatch>)
    ensures Untaught(s, r)
  {
    var (s, _) :- Need(s, PostcheckRefs(g));
    if !g.validated.Validated? then Refuse(s, StageFailed)
    else if g.validated.freshHold && !SealHolds(cfg, g.before, g.validated.holdSeal) then Refuse(s, SealInvalid)
    else
      var (s, verdict) :- Judge(env, cfg, g, s);
      var (s, c) :- Draw(env, s, false);
      StoreVerdict(env, g, verdict, c.response, s)
  }

  function Postchecked(g: Graph, patch: PostPatch): Graph {
    g.(verdict := patch.verdict, after := patch.after, active := patch.active)
  }

  function PostcheckNode(env: Env, cfg: Config, g: Graph, s: St): (r: Res<Graph>)
    ensures Taught(cfg, g, s, r)
  {
    var (s, patch) :-
      if g.cycle in s.d.postchecks then Ok(s, s.d.postchecks[g.cycle]) else CheckEffect(env, cfg, g, s);
    var g1 := Postchecked(g, patch);
    if patch.restore then AskRestore(env, cfg, g1, EffectNotVerified, s)
    else Finish(env, cfg, g1, s)
  }

  // ---------------------------------------------------------------- validator: restore check and learning

  /** The verdict given so far, or a neutral one. */
  function FinalVerdict(g: Graph): Artifact {
    if g.verdict != NoRef then g.verdict else Verdict(NoOp, None, NoRef, false, None, None)
  }

  /** The final verdict, then the frozen restoration of the cycle. */
  function StoreRestoration(env: Env, g: Graph, s: St): (r: Res<RestorePatch>)
    ensures Untaught(s, r)
  {
    var (s, _) :- Draw(env, s, false);
    var (s, _) :- Put(env, s, FinalVerdict(g));
    var (s, _) :- Draw(env, s, false);
    var frozen := FirstWrite(s.d.restorations, g.cycle, RestorePatch(FinalVerdict(g)));
    Ok(s.(d := s.d.(restorations := frozen)), frozen[g.cycle])
  }

  function CheckRestoration(env: Env, cfg: Config, g: Graph, s: St): (r: Res<RestorePatch>)
    ensures Untaught(s, r)
  {
    var owned := PolicyAction(g);
    var (s, _) :- Need(s, {owned, g.before});
    if !owned.Action? || !g.before.Observation? then Refuse(s, StageFailed)
    else
      var (s, c) :- Draw(env, s, false);
      if !NativeFor(cfg, g.before.reading.rows, c.native) then Refuse(s, StageFailed)
      else if c.native != owned.baseline then Refuse(s, RestorationDiffers)
      else
        StoreRestoration(env, g, s.(d := s.d.(trace := s.d.trace + [RestoreVerified(owned.receipt.id, c.native)])))
  }

  function RestoreCheckNode(env: Env, cfg: Config, g: Graph, s: St): (r: Res<Graph>)
    ensures Taught(cfg, g, s, r)
  {
    var (s, patch) :-
      if g.cycle in s.d.restorations then Ok(s, s.d.restorations[g.cycle]) else CheckRestoration(env, cfg, g, s);
    Finish(env, cfg, g.(active := NoRef, verdict := patch.verdict), s)
  }

  /** The outcome row of the cycle: a function of the state alone. */
  function OutcomeOf(g: Graph): Outcome
    requires g.plan.Plan? && g.verdict.Verdict?
  {
    var checked := PolicyAction(g);
    Outcome(g.cycle, if checked.Action? then Some(checked.choice.id) else None, g.verdict.outcome,
            g.verdict.improvement, g.plan.response, checked,
            if g.verdict.held.Some?
            then Some(HeldRefs(g.plan, g.validated, g.verdict, g.before, g.verdict.after)) else None)
  }

  /** The receipt, then the frozen lesson of the cycle. */
  function StoreLesson(env: Env, cfg: Config, g: Graph, row: Outcome, s: St): (r: Res<LessonPatch>)
    ensures Taught(cfg, g, s, r)
    ensures r.Ok? ==> g.cycle in r.s.d.lessons && r.s.d.lessons[g.cycle] == r.v
  {
    var (s, _) :- Put(env, s, LessonReceipt(row));
    var (s, _) :- Draw(env, s, false);
    var (s, _) :- Draw(env, s, false);
    var frozen := FirstWrite(s.d.lessons, g.cycle, LessonPatch(g.cycle + 1 >= cfg.maxCycles));
    Ok(s.(d := s.d.(lessons := frozen)), frozen[g.cycle])
  }

  function Learn(env: Env, cfg: Config, g: Graph, s: St): (r: Res<LessonPatch>)
    ensures Taught(cfg, g, s, r)
    ensures r.Ok? ==> g.cycle in r.s.d.lessons && r.s.d.lessons[g.cycle] == r.v
  {
    var (s, _) :- Need(s, {g.plan, g.verdict, g.before} + if PolicyAction(g) != NoRef then {PolicyAction(g)} else {});
    if !g.plan.Plan? || !g.verdict.Verdict? then Refuse(s, StageFailed)
    else
      var (s, _) :- Draw(env, s, false);
      var (s, _) :- Draw(env, s, false);
      var row := OutcomeOf(g);
      if g.cycle in s.d.outcomes && s.d.outcomes[g.cycle] != row then Refuse(s, OutcomeChanged)
      else
        StoreLesson(env, cfg, g, row, s.(d := s.d.(outcomes := FirstWrite(s.d.outcomes, g.cycle, row))))
  }

  /** Learn once, then move to the next cycle or stop at the limit. */
  function Finish(env: Env, cfg: Config, g: Graph, s: St): (r: Res<Graph>)
    ensures Taught(cfg, g, s, r)
  {
    var (s, lesson) :- if g.cycle in s.d.lessons then Ok(s, s.d.lessons[g.cycle]) else Learn(env, cfg, g, s);
    Ok(s, g.(cycle := g.cycle + 1, attempt := 0, next := if lesson.last then End else Planner,
             stop := if lesson.last then CycleLimit else g.stop))
  }

  function ValidatorNode(env: Env, cfg: Config, g: Graph, s: St): (r: Res<Graph>)
    ensures Taught(cfg, g, s, r)
  {
    match g.phase
    case Precheck => PrecheckNode(env, cfg, g, s)
    case Postcheck => PostcheckNode(env, cfg, g, s)
    case RestoreCheck => RestoreCheckNode(env, cfg, g, s)
    case NoPhase => Refuse(s, PhaseDenied)
  }

  // ---------------------------------------------------------------- graph runtime

  /** The state a failed node publishes: one retry of the proposal, otherwise the end. */
  function Failed(g: Graph, code: Code): Graph {
    if Retryable(code) && !g.next.Executor? && g.attempt < 1
    then g.(next := Planner, attempt := 1)
    else g.(next := End, error := Some(code))
  }

  function Body(env: Env, cfg: Config, g: Graph, s: St): (r: Res<Graph>)
    ensures Taught(cfg, g, s, r)
  {
    match g.next
    case Planner => PlannerNode(env, cfg, g, s)
    case Executor => ExecutorNode(env, cfg, g, s)
    case Validator => ValidatorNode(env, cfg, g, s)
    case End => Ok(s, g)
  }

  function Commit(env: Env, s: St, g: Graph): Res<Graph> {
    var (s, _) :- DrawOutside(env, s);
    Ok(s.(d := s.d.(graph := Some(g))), g)
  }

  /** One node with its handler, and the checkpoint after it. */
  function Step(env: Env, cfg: Config, g: Graph, s: St): Res<Graph> {
    match Body(env, cfg, g, s)
    case Ok(s, g1) => Commit(env, s, g1)
    case Fail(s, Raise(code)) =>
      var (s, _) :- DrawOutside(env, s);
      Commit(env, s, Failed(g, code))
    case Fail(s, Ended) =>
      var (s, c) :- DrawOutside(env, s);
      var current := Observation(c.reading);
      Commit(env, s.(d := s.d.(artifacts := s.d.artifacts + {current})),
             g.(next := End, stop := ScenarioEnded, after := if c.reuse then current else g.after))
    case Fail(s, why) => Fail(s, why)
  }

  /** graph.invoke: at most `limit` node steps; one more raises out of the graph. */
  function Invoke(env: Env, cfg: Config, g: Graph, s: St, limit: nat): Res<Graph>
    decreases limit
  {
    if g.next.End? then Ok(s, g)
    else if limit == 0 then Fail(s, Escape)
    else
      var (s, g) :- Step(env, cfg, g, s);
      Invoke(env, cfg, g, s, limit - 1)
  }

  const SLACK := 20

  /** The saved checkpoint, or the initial one. */
  function Start(env: Env, cfg: Config, s: St): Res<Graph> {
    if s.d.graph.Some? then Ok(s, s.d.graph.value) else Commit(env, s, InitialGraph(cfg))
  }

  function RecursionLimit(cfg: Config): nat {
    cfg.maxCycles * 12 + SLACK
  }

  /** run's try block before the graph: the frozen context must match, and a retained end is not resumed. */
  function Ready(env: Env, cfg: Config, s: St): Res<Graph> {
    var (s, _) :- DrawOutside(env, s);
    var frozen := if s.d.context.None? then Some(cfg) else s.d.context;
    var s := s.(d := s.d.(context := frozen));
    if frozen != Some(cfg) then Fail(s, Escape)
    else if cfg.retain && s.d.graph.Some? && s.d.graph.value.next.End? && s.d.graph.value.stop.CycleLimit? then
      Fail(s, Escape)
    else Start(env, cfg, s)
  }

  /** run's try block up to the final graph state. */
  function Resume(env: Env, cfg: Config, s: St, limit: nat): Res<Graph> {
    var (s, g) :- Ready(env, cfg, s);
    Invoke(env, cfg, g, s, limit)
  }

  predicate Retaining(cfg: Config, g: Graph) {
    cfg.retain && g.stop.CycleLimit? && g.error.None?
  }

  /** Every logged cycle was a verified hold. */
  predicate AllHeld(d: Durable) {
    |d.outcomes| > 0 && 0 in d.outcomes && |d.outcomes| - 1 in d.outcomes
    && forall c :: c in d.outcomes ==> d.outcomes[c].held.Some?
  }

  /** The after-reference of the last verified hold. */
  function VerifiedAfter(d: Durable): Artifact
    requires AllHeld(d)
  {
    d.outcomes[|d.outcomes| - 1].held.value.after
  }

  function LatestAfter(d: Durable, g: Graph): Artifact
    requires AllHeld(d)
  {
    if g.after != NoRef then g.after else VerifiedAfter(d)
  }

  /** The proof of the first verified hold, whose inventory the round must still have. */
  function FirstHold(d: Durable): Artifact
    requires AllHeld(d)
  {
    d.outcomes[0].held.value.validated
  }

  /** The extra proof of a round in which every cycle was a verified hold. */
  function HoldCleanupProof(env: Env, cfg: Config, g: Graph, s: St): (r: Res<()>)
    ensures Untaught(s, r)
  {
    if !AllHeld(s.d) then Ok(s, ())
    else
      var verified, latest, first := VerifiedAfter(s.d), LatestAfter(s.d, g), FirstHold(s.d);
      var (s, _) :- Need(s, {verified, latest, first});
      if !verified.Observation? || !latest.Observation? || !first.Validated? then Refuse(s, StageFailed)
      else if latest.reading.sequence < verified.reading.sequence then Refuse(s, HoldResultScopeChanged)
      else
        var (s, c) :- Draw(env, s, false);
        if |c.native| != cfg.totalUes then Refuse(s, StageFailed)
        else if Some(c.native) != first.qerBefore then Refuse(s, HoldNativeChanged)
        else Put(env, s, HoldCleanup(latest, verified, c.native))
  }

  function Cleanup(env: Env, cfg: Config, g: Graph, s: St): (r: Res<()>)
    ensures Untaught(s, r)
  {
    var (s, _) :- if Retaining(cfg, g) then Ok(s, ()) else AdapterRestore(env, s);
    HoldCleanupProof(env, cfg, g, s)
  }

  /** The checkpoint after cleanup: ownership is released unless the policy is retained. */
  function Closed(cfg: Config, g: Graph): Graph {
    g.(next := End, active := if Retaining(cfg, g) then g.active else NoRef)
  }

  datatype Exit = Died | Left

  /** How one invocation of run ended, and whether its retention decision was reached. */
  datatype RunEnd = RunEnd(s: St, exit: Exit, retained: bool)

  /** The finally block. */
  function Finally(env: Env, s: St, cleaned: bool, retained: bool): RunEnd {
    if cleaned || retained then RunEnd(s, Left, retained)
    else
      var r := AdapterRestore(env, s);
      RunEnd(r.s, if r.Fail? && r.why.Crash? then Died else Left, false)
  }

  function Run(env: Env, cfg: Config, s: St): RunEnd {
    var r := Resume(env, cfg, s, RecursionLimit(cfg));
    if r.Fail? then
      if r.why.Crash? then RunEnd(r.s, Died, false) else Finally(env, r.s, false, false)
    else
      var g := r.v;
      var c := Cleanup(env, cfg, g, r.s);
      if c.Fail? then
        if c.why.Crash? then RunEnd(c.s, Died, false) else Finally(env, c.s, false, false)
      else
        var retained := Retaining(cfg, g);
        var done := Commit(env, c.s, Closed(cfg, g));
        if done.Fail? && done.why.Crash? then RunEnd(done.s, Died, retained)
        else Finally(env, done.s, !retained, retained)
  }

  /** The durable state after k invocations of run for one thread, each with its own configuration. */
  function Life(env: Env, cfgs: nat -> Config, k: nat): St {
    if k == 0 then St(EMPTY, 0) else Run(env, cfgs(k - 1), Life(env, cfgs, k - 1)).s
  }
}
