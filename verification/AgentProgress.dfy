/** What the nodes do while every collaborator answers: a hold cycle is carried through to its row. */
module AgentProgress {
  import opened Contracts
  import opened AgentTypes
  import opened AgentModel
  import opened HoldVerifier
  import opened AgentInvariant
  import opened AgentCommits
  import opened AgentSteps
  import opened AgentRuns
  import Cohort

  // ---------------------------------------------------------------- answers

  predicate Young(cfg: Config, r: Reading, at: real) {
    -1.0 <= at - r.observedAt <= cfg.maxAge as real
  }

  /** An answer about these rows and this inventory. */
  predicate Answer(cfg: Config, rows: seq<Row>, native: Inventory, c: Choice) {
    && c.fate.Proceeds? && !c.over && !c.reuse && c.native == native
    && c.reading.round == cfg.round && c.reading.generation == cfg.generation && c.reading.revision == 0
    && c.reading.rows == rows && c.reading.live && Young(cfg, c.reading, c.sealedAt)
  }

  /** n answers from t on, each reading later than the one before and fresh whenever it is looked at. */
  ghost predicate Calm(env: Env, cfg: Config, rows: seq<Row>, native: Inventory, t: nat, n: nat) {
    && (forall u: nat :: t <= u < t + n ==> Answer(cfg, rows, native, env(u)))
    && (forall u: nat, v: nat :: t <= u < v < t + n ==> env(u).reading.sequence < env(v).reading.sequence)
    && (forall u: nat, v: nat :: t <= u < t + n && t <= v < t + n ==> Young(cfg, env(u).reading, env(v).now))
  }

  lemma CalmAt(env: Env, cfg: Config, rows: seq<Row>, native: Inventory, t: nat, n: nat, u: nat)
    requires Calm(env, cfg, rows, native, t, n) && t <= u < t + n
    ensures Answer(cfg, rows, native, env(u)) && Young(cfg, env(u).reading, env(u).now)
  {
  }

  lemma CalmProceeds(env: Env, cfg: Config, rows: seq<Row>, native: Inventory, t: nat, n: nat)
    requires Calm(env, cfg, rows, native, t, n)
    ensures Proceeding(env, t, n)
  {
  }

  lemma CalmPart(env: Env, cfg: Config, rows: seq<Row>, native: Inventory, t: nat, n: nat, u: nat, m: nat)
    requires Calm(env, cfg, rows, native, t, n) && t <= u && u + m <= t + n
    ensures Calm(env, cfg, rows, native, u, m)
  {
  }

  /** A round that can be commissioned over these rows. */
  predicate Commissionable(cfg: Config, rows: seq<Row>, native: Inventory) {
    && |rows| == cfg.totalUes && DistinctSupis(rows) && NativeFor(cfg, rows, native)
    && Cohort.Commissioned(rows, cfg.profiles).Some?
  }

  ghost predicate Proceeding(env: Env, t: nat, n: nat) {
    forall u: nat :: t <= u < t + n ==> env(u).fate.Proceeds?
  }

  lemma Drawn(env: Env, s: St, mayEnd: bool, t: nat, n: nat)
    requires Proceeding(env, t, n) && t <= s.t < t + n
    ensures Draw(env, s, mayEnd) == Ok(St(s.d, s.t + 1), env(s.t))
  {
  }

  lemma Stores(env: Env, s: St, a: Artifact, t: nat, n: nat)
    requires Proceeding(env, t, n) && t <= s.t < t + n
    ensures Put(env, s, a) == Ok(St(s.d.(artifacts := s.d.artifacts + {a}), s.t + 1), ())
  {
  }

  lemma Accepted(env: Env, cfg: Config, before: Artifact, seal: Artifact, s: St, t: nat, n: nat)
    requires Proceeding(env, t, n) && t <= s.t < t + n
    requires before in s.d.artifacts && seal in s.d.artifacts && SealHolds(cfg, before, seal)
    ensures AcceptedBefore(env, cfg, before, seal, s) == Ok(St(s.d, s.t + 1), ())
  {
    hide SealHolds;
    assert {before, seal} <= s.d.artifacts;
    Drawn(env, s, false, t, n);
    hide Draw;
  }

  // ---------------------------------------------------------------- planner

  function BeforeOf(c: Choice): Artifact {
    Observation(c.reading)
  }

  function SealOf(c: Choice): Artifact {
    Seal(BeforeOf(c), c.reading.round, c.reading.generation, c.reading.sequence, c.reading.rows, c.sealedAt)
  }

  function PlanOf(before: Artifact, c: Choice): Artifact {
    Plan(c.ask.verb, c.ask.group, c.ask.profile, c.response, before)
  }

  lemma Captures(env: Env, cfg: Config, g: Graph, c: Choice, s: St, t: nat, n: nat)
    requires Proceeding(env, t, n) && t <= s.t && s.t + 3 <= t + n && g.cycle !in s.d.inputs
    ensures Capture(env, g, c.reading, c.sealedAt, s)
         == Ok(St(s.d.(artifacts := s.d.artifacts + {BeforeOf(c)} + {SealOf(c)},
                       inputs := s.d.inputs[g.cycle := Inputs(BeforeOf(c), SealOf(c))]), s.t + 3),
               Some(Inputs(BeforeOf(c), SealOf(c))))
  {
    hide Draw;
    hide Put;
    Stores(env, s, BeforeOf(c), t, n);
    var s1 := St(s.d.(artifacts := s.d.artifacts + {BeforeOf(c)}), s.t + 1);
    Stores(env, s1, SealOf(c), t, n);
    var s2 := St(s1.d.(artifacts := s1.d.artifacts + {SealOf(c)}), s.t + 2);
    Drawn(env, s2, false, t, n);
  }

  lemma Observes(env: Env, cfg: Config, rows: seq<Row>, native: Inventory, g: Graph, s: St)
    requires Calm(env, cfg, rows, native, s.t, 9) && Commissionable(cfg, rows, native) && g.cycle !in s.d.inputs
    ensures var c := env(s.t);
      CycleInputs(env, cfg, g, s)
      == Ok(St(s.d.(artifacts := s.d.artifacts + {BeforeOf(c)} + {SealOf(c)},
                    inputs := s.d.inputs[g.cycle := Inputs(BeforeOf(c), SealOf(c))]), s.t + 4),
            Some(Inputs(BeforeOf(c), SealOf(c))))
      && SealHolds(cfg, BeforeOf(c), SealOf(c))
  {
    CalmAt(env, cfg, rows, native, s.t, 9, s.t);
    CalmProceeds(env, cfg, rows, native, s.t, 9);
    hide Calm;
    hide Draw;
    hide Capture;
    hide NativeFor;
    hide DistinctSupis;
    Drawn(env, s, false, s.t, 9);
    Captures(env, cfg, g, env(s.t), St(s.d, s.t + 1), s.t, 9);
    hide Proceeding;
    SealIsFresh(cfg, env(s.t));
    hide SealHolds;
    hide SealOf;
    assert Need(St(s.d, s.t + 1), {}) == Ok(St(s.d, s.t + 1), ());
  }

  lemma SealIsFresh(cfg: Config, c: Choice)
    requires Young(cfg, c.reading, c.sealedAt)
    ensures SealHolds(cfg, BeforeOf(c), SealOf(c))
  {
  }

  lemma Plans(env: Env, g: Graph, plan: Artifact, s: St, t: nat, n: nat)
    requires Proceeding(env, t, n) && t <= s.t && s.t + 3 <= t + n && (g.cycle, g.attempt) !in s.d.proposals
    ensures StorePlan(env, g, plan, s)
         == Ok(St(s.d.(artifacts := s.d.artifacts + {plan},
                       proposals := s.d.proposals[(g.cycle, g.attempt) := plan]), s.t + 3), plan)
  {
    hide Draw;
    hide Put;
    Drawn(env, s, false, t, n);
    var s1 := St(s.d, s.t + 1);
    Stores(env, s1, plan, t, n);
    var s2 := St(s.d.(artifacts := s.d.artifacts + {plan}), s.t + 2);
    Drawn(env, s2, false, t, n);
  }

  /** The durable state after the planner. */
  function PlannedTables(g: Graph, i: Inputs, plan: Artifact, d: Durable): Durable {
    d.(artifacts := d.artifacts + {i.before} + {i.seal} + {plan},
       inputs := d.inputs[g.cycle := i], proposals := d.proposals[(g.cycle, g.attempt) := plan])
  }

  lemma Proposes(env: Env, cfg: Config, g: Graph, before: Artifact, offer: seq<Candidate>, s: St, t: nat, n: nat)
    requires Proceeding(env, t, n) && t <= s.t && s.t + 4 <= t + n
    requires g.active == NoRef && (g.cycle, g.attempt) !in s.d.proposals
    requires Refusal(cfg, g, offer, env(s.t).ask).None?
    ensures var plan := PlanOf(before, env(s.t));
      Propose(env, cfg, g, before, Some(offer), s)
      == Ok(St(s.d.(artifacts := s.d.artifacts + {plan},
                    proposals := s.d.proposals[(g.cycle, g.attempt) := plan]), s.t + 4), plan)
  {
    hide Draw;
    hide StorePlan;
    hide Refusal;
    Drawn(env, s, true, t, n);
    Plans(env, g, PlanOf(before, env(s.t)), St(s.d, s.t + 1), t, n);
    hide Proceeding;
  }

  /** The planner observes, seals and proposes what it was asked for. */
  lemma PlannerPlans(env: Env, cfg: Config, rows: seq<Row>, native: Inventory, g: Graph, s: St)
    requires Calm(env, cfg, rows, native, s.t, 9) && Commissionable(cfg, rows, native)
    requires g.active == NoRef && g.cycle !in s.d.inputs && (g.cycle, g.attempt) !in s.d.proposals
    requires Refusal(cfg, g, Cohort.Commissioned(rows, cfg.profiles).value, env(s.t + 5).ask).None?
    ensures var i := Inputs(BeforeOf(env(s.t)), SealOf(env(s.t)));
      var plan := PlanOf(i.before, env(s.t + 5));
      PlannerNode(env, cfg, g, s) == Ok(St(PlannedTables(g, i, plan, s.d), s.t + 9), Planned(g, i, plan))
      && SealHolds(cfg, i.before, i.seal) && i.before.Observation? && i.before.reading.rows == rows
  {
    hide CycleInputs;
    hide AcceptedBefore;
    hide Propose;
    hide SealHolds;
    hide Refusal;
    hide Planned;
    hide Proceeding;
    Observes(env, cfg, rows, native, g, s);
    CalmProceeds(env, cfg, rows, native, s.t, 9);
    CalmAt(env, cfg, rows, native, s.t, 9, s.t);
    hide Calm;
    var i := Inputs(BeforeOf(env(s.t)), SealOf(env(s.t)));
    var s1 := St(s.d.(artifacts := s.d.artifacts + {i.before} + {i.seal}, inputs := s.d.inputs[g.cycle := i]), s.t + 4);
    Accepted(env, cfg, i.before, i.seal, s1, s.t, 9);
    var s2 := St(s1.d, s.t + 5);
    var offer := Cohort.Commissioned(rows, cfg.profiles).value;
    assert Offer(cfg, i.before) == Some(offer);
    hide Offer;
    hide Commissionable;
    Proposes(env, cfg, g, i.before, offer, s2, s.t, 9);
  }

  // ---------------------------------------------------------------- precheck

  /** The proof of an approved decision on an unowned network. */
  lemma StoresProof(env: Env, g: Graph, proof: Artifact, response: string, s: St, t: nat, n: nat)
    requires Proceeding(env, t, n) && t <= s.t && s.t + 4 <= t + n
    requires proof.Validated? && (g.cycle, g.attempt) !in s.d.prechecks
    ensures var signed := Signed(proof, response);
      StoreProof(env, g, proof, response, s)
      == Ok(St(s.d.(artifacts := s.d.artifacts + {proof} + {signed},
                    prechecks := s.d.prechecks[(g.cycle, g.attempt) := PrecheckPatch(signed, proof.replace)]), s.t + 4),
            PrecheckPatch(signed, proof.replace))
  {
    hide Draw;
    hide Put;
    hide Signed;
    var signed := Signed(proof, response);
    Stores(env, s, proof, t, n);
    var s1 := St(s.d.(artifacts := s.d.artifacts + {proof}), s.t + 1);
    Drawn(env, s1, false, t, n);
    var s2 := St(s1.d, s.t + 2);
    Stores(env, s2, signed, t, n);
    var s3 := St(s1.d.(artifacts := s1.d.artifacts + {signed}), s.t + 3);
    Drawn(env, s3, false, t, n);
  }

  /** The durable state after the precheck. */
  function CheckedTables(g: Graph, proof: Artifact, signed: Artifact, d: Durable): Durable {
    d.(artifacts := d.artifacts + {proof} + {signed},
       prechecks := d.prechecks[(g.cycle, g.attempt) := PrecheckPatch(signed, false)])
  }

  predicate AtPrecheck(cfg: Config, g: Graph, d: Durable) {
    && g.next.Validator? && g.phase.Precheck? && g.active == NoRef && (g.cycle, g.attempt) !in d.prechecks
    && {g.plan, g.before, g.seal} <= d.artifacts && g.plan.Plan? && g.before.Observation? && SealHolds(cfg, g.before, g.seal)
  }

  lemma PrecheckProves(env: Env, cfg: Config, offer: seq<Candidate>, g: Graph, s: St)
    requires Proceeding(env, s.t, 6) && AtPrecheck(cfg, g, s.d) && Offer(cfg, g.before) == Some(offer)
    requires ProofRefusal(cfg, g, Proof(cfg, g, Chosen(g, offer), env(s.t).native), env(s.t).native).None?
    ensures var proof := Proof(cfg, g, Chosen(g, offer), env(s.t).native);
      var signed := Signed(proof, env(s.t).response);
      PrecheckNode(env, cfg, g, s)
      == Ok(St(CheckedTables(g, proof, signed, s.d), s.t + 6),
            g.(validated := signed, operation := if signed.selected.Some? then Apply else Hold, next := Executor))
  {
    hide Draw;
    hide AcceptedBefore;
    hide StoreProof;
    hide SealHolds;
    hide Offer;
    hide Chosen;
    hide ProofRefusal;
    hide NativeFor;
    var proof := Proof(cfg, g, Chosen(g, offer), env(s.t).native);
    assert !proof.replace;
    assert Need(s, {g.plan, g.before}) == Ok(s, ());
    Drawn(env, s, true, s.t, 6);
    var s1 := St(s.d, s.t + 1);
    Accepted(env, cfg, g.before, g.seal, s1, s.t, 6);
    StoresProof(env, g, proof, env(s.t).response, St(s.d, s.t + 2), s.t, 6);
    hide Proof;
    hide Proceeding;
  }

  // ---------------------------------------------------------------- executor: a hold

  function DecisionOf(cfg: Config, g: Graph): Artifact {
    HoldDecision(g.validated, cfg.round, cfg.generation, g.cycle)
  }

  function ConfirmedBy(g: Graph, response: string): Artifact
    requires g.validated.Validated?
  {
    g.validated.(confirmation := Some(Confirmation(g.validated, response)))
  }

  lemma RecordsHold(env: Env, cfg: Config, g: Graph, response: string, s: St, t: nat, n: nat)
    requires Proceeding(env, t, n) && t <= s.t && s.t + 4 <= t + n
    requires g.validated.Validated? && OpKey(g.cycle, g.validated) !in s.d.holds
    ensures RecordHold(env, cfg, g, response, s)
         == Ok(St(s.d.(artifacts := s.d.artifacts + {DecisionOf(cfg, g)} + {ConfirmedBy(g, response)},
                       holds := s.d.holds[OpKey(g.cycle, g.validated) := DecisionOf(cfg, g)]), s.t + 4),
               Held(ConfirmedBy(g, response), DecisionOf(cfg, g)))
  {
    hide Draw;
    hide Put;
    Drawn(env, s, false, t, n);
    var d1 := s.d.(holds := s.d.holds[OpKey(g.cycle, g.validated) := DecisionOf(cfg, g)]);
    Stores(env, St(d1, s.t + 1), DecisionOf(cfg, g), t, n);
    var d2 := d1.(artifacts := d1.artifacts + {DecisionOf(cfg, g)});
    Drawn(env, St(d2, s.t + 2), false, t, n);
    Stores(env, St(d2, s.t + 3), ConfirmedBy(g, response), t, n);
  }

  predicate AtHold(cfg: Config, g: Graph, d: Durable) {
    && g.next.Executor? && g.operation.Hold? && g.validated.Validated? && g.validated.selected.None?
    && g.validated.plan == g.plan && g.validated.before == g.before
    && (g.validated.round, g.validated.generation, g.validated.cycle) == (cfg.round, cfg.generation, g.cycle)
    && {g.validated, g.before, g.seal} <= d.artifacts && SealHolds(cfg, g.before, g.seal)
    && g.plan.Plan? && g.plan.group.None? && g.plan.profile.None? && g.before.Observation?
    && OpKey(g.cycle, g.validated) !in d.holds && KeyOf(g) !in d.executions
  }

  lemma HoldsUnchanged(env: Env, cfg: Config, g: Graph, s: St, t: nat, n: nat)
    requires Proceeding(env, t, n) && t <= s.t && s.t + 7 <= t + n && AtHold(cfg, g, s.d)
    requires NativeFor(cfg, g.before.reading.rows, env(s.t).native) && g.validated.qerBefore == Some(env(s.t).native)
    ensures ApplyDecision(env, cfg, g, s) == RecordHold(env, cfg, g, env(s.t).response, St(s.d, s.t + 3))
  {
    hide Draw;
    hide AcceptedBefore;
    hide RecordHold;
    hide SealHolds;
    hide NativeFor;
    Drawn(env, s, true, t, n);
    Accepted(env, cfg, g.before, g.seal, St(s.d, s.t + 1), t, n);
    Accepted(env, cfg, g.before, g.seal, St(s.d, s.t + 2), t, n);
    hide Proceeding;
  }

  /** The durable state after a hold. */
  function HeldTables(cfg: Config, g: Graph, response: string, d: Durable): Durable
    requires g.validated.Validated?
  {
    d.(artifacts := d.artifacts + {DecisionOf(cfg, g)} + {ConfirmedBy(g, response)},
       holds := d.holds[OpKey(g.cycle, g.validated) := DecisionOf(cfg, g)],
       executions := d.executions[KeyOf(g) := Held(ConfirmedBy(g, response), DecisionOf(cfg, g))])
  }

  lemma ExecutorHolds(env: Env, cfg: Config, g: Graph, s: St)
    requires Proceeding(env, s.t, 8) && AtHold(cfg, g, s.d)
    requires NativeFor(cfg, g.before.reading.rows, env(s.t).native) && g.validated.qerBefore == Some(env(s.t).native)
    ensures var patch := Held(ConfirmedBy(g, env(s.t).response), DecisionOf(cfg, g));
      ExecutorNode(env, cfg, g, s)
      == Ok(St(HeldTables(cfg, g, env(s.t).response, s.d), s.t + 8), Executed'(g, patch))
  {
    hide Draw;
    hide ApplyDecision;
    hide RecordHold;
    hide SealHolds;
    hide NativeFor;
    hide Executed';
    hide ConfirmedBy;
    hide DecisionOf;
    HoldsUnchanged(env, cfg, g, s, s.t, 8);
    RecordsHold(env, cfg, g, env(s.t).response, St(s.d, s.t + 3), s.t, 8);
    var d1 := s.d.(artifacts := s.d.artifacts + {DecisionOf(cfg, g)} + {ConfirmedBy(g, env(s.t).response)},
                   holds := s.d.holds[OpKey(g.cycle, g.validated) := DecisionOf(cfg, g)]);
    Drawn(env, St(d1, s.t + 7), false, s.t, 8);
    hide Proceeding;
    assert Need(s, {BindingOf(g)}) == Ok(s, ());
  }

  // ---------------------------------------------------------------- postcheck of a hold

  lemma SameRowsBind(rows: seq<Row>)
    requires DistinctSupis(rows)
    ensures forall a, b :: a in rows && b in rows && a.supi == b.supi ==> SameBinding(a, b)
  {
    forall a, b | a in rows && b in rows && a.supi == b.supi ensures SameBinding(a, b) {
      var i :| 0 <= i < |rows| && rows[i] == a;
      var j :| 0 <= j < |rows| && rows[j] == b;
      assert i == j;
    }
  }

  /** A later reading of the same rows. */
  predicate Later(before: Reading, after: Reading) {
    && after.round == before.round && after.generation == before.generation && after.revision == before.revision
    && after.rows == before.rows && after.sequence > before.sequence
  }

  lemma LaterIsSameScope(before: Reading, after: Reading)
    requires Later(before, after) && DistinctSupis(before.rows)
    ensures SameScope(before, after)
  {
    SameRowsBind(before.rows);
  }

  lemma Measures(env: Env, cfg: Config, g: Graph, s: St, t: nat, n: nat)
    requires Proceeding(env, t, n) && t <= s.t && s.t + 3 <= t + n && g.cycle !in s.d.windows
    requires env(s.t).reading.live && Accepts(cfg, env(s.t).reading, env(s.t).now)
    ensures var after := BeforeOf(env(s.t));
      Measure(env, cfg, g, true, s)
      == Ok(St(s.d.(artifacts := s.d.artifacts + {after}, windows := s.d.windows[g.cycle := after]), s.t + 3), after)
  {
    hide Draw;
    hide Put;
    hide Accepts;
    Drawn(env, s, true, t, n);
    var after := BeforeOf(env(s.t));
    Stores(env, St(s.d, s.t + 1), after, t, n);
    Drawn(env, St(s.d.(artifacts := s.d.artifacts + {after}), s.t + 2), false, t, n);
  }

  predicate AtHeld(cfg: Config, g: Graph, d: Durable) {
    && g.next.Validator? && g.phase.Postcheck? && g.active == NoRef && g.action.HoldDecision?
    && g.validated.Validated? && g.validated.freshHold && g.validated.confirmation.Some?
    && g.before.Observation? && SealHolds(cfg, g.before, g.validated.holdSeal)
    && {g.before, g.validated, g.action, g.plan} <= d.artifacts && g.plan.Plan?
    && g.cycle !in d.windows && g.cycle !in d.postchecks && g.cycle !in d.lessons && g.cycle !in d.outcomes
  }

  function HeldVerdict(after: Artifact, native: Inventory): Artifact {
    Verdict(NoOp, None, after, false, Some(native), None)
  }

  lemma JudgesHold(env: Env, cfg: Config, g: Graph, s: St, t: nat, n: nat)
    requires Proceeding(env, t, n) && t <= s.t && s.t + 5 <= t + n && AtHeld(cfg, g, s.d)
    requires env(s.t + 1).reading.live && Later(g.before.reading, env(s.t + 1).reading)
    requires Accepts(cfg, env(s.t + 1).reading, env(s.t + 1).now) && Accepts(cfg, env(s.t + 1).reading, env(s.t + 4).now)
    requires NativeFor(cfg, env(s.t + 1).reading.rows, env(s.t + 4).native)
    requires g.validated.qerBefore == Some(env(s.t + 4).native)
    ensures var after := BeforeOf(env(s.t + 1));
      Judge(env, cfg, g, s)
      == Ok(St(s.d.(artifacts := s.d.artifacts + {after}, windows := s.d.windows[g.cycle := after]), s.t + 5),
            HeldVerdict(after, env(s.t + 4).native))
  {
    hide Draw;
    hide Measure;
    hide Compare;
    hide Accepts;
    hide NativeFor;
    hide SealHolds;
    hide Later;
    Drawn(env, s, true, t, n);
    Measures(env, cfg, g, St(s.d, s.t + 1), t, n);
    var after := BeforeOf(env(s.t + 1));
    var d1 := s.d.(artifacts := s.d.artifacts + {after}, windows := s.d.windows[g.cycle := after]);
    assert Need(St(d1, s.t + 4), {after}) == Ok(St(d1, s.t + 4), ());
    ComparesAfter(env, cfg, g, after, St(s.d, s.t + 4), d1);
    hide Proceeding;
  }

  /** Comparing looks at no table. */
  lemma ComparesAfter(env: Env, cfg: Config, g: Graph, after: Artifact, s: St, d: Durable)
    requires env(s.t).fate.Proceeds? && AtHeld(cfg, g, s.d) && after.Observation?
    requires Later(g.before.reading, after.reading) && Accepts(cfg, after.reading, env(s.t).now)
    requires NativeFor(cfg, after.reading.rows, env(s.t).native) && g.validated.qerBefore == Some(env(s.t).native)
    ensures Compare(env, cfg, g, after, St(d, s.t)) == Ok(St(d, s.t + 1), HeldVerdict(after, env(s.t).native))
  {
    hide SealHolds;
    hide NativeFor;
    assert DistinctSupis(g.before.reading.rows);
    LaterIsSameScope(g.before.reading, after.reading);
    hide Accepts;
    hide SameScope;
  }

  lemma StoresVerdict(env: Env, g: Graph, verdict: Artifact, response: string, s: St, t: nat, n: nat)
    requires Proceeding(env, t, n) && t <= s.t && s.t + 2 <= t + n
    requires verdict.Verdict? && g.cycle !in s.d.postchecks
    ensures var signed := SignedVerdict(verdict, response);
      var patch := PostPatch(signed, verdict.after, PolicyAction(g), verdict.restore);
      StoreVerdict(env, g, verdict, response, s)
      == Ok(St(s.d.(artifacts := s.d.artifacts + {signed}, postchecks := s.d.postchecks[g.cycle := patch]), s.t + 2), patch)
  {
    hide Draw;
    hide Put;
    hide SignedVerdict;
    hide PolicyAction;
    var signed := SignedVerdict(verdict, response);
    Stores(env, s, signed, t, n);
    Drawn(env, St(s.d.(artifacts := s.d.artifacts + {signed}), s.t + 1), false, t, n);
  }

  /** What a finished cycle adds to the tables. */
  function LearnedTables(cfg: Config, g: Graph, row: Outcome, d: Durable): Durable {
    d.(artifacts := d.artifacts + {LessonReceipt(row)}, outcomes := d.outcomes[g.cycle := row],
       lessons := d.lessons[g.cycle := LessonPatch(g.cycle + 1 >= cfg.maxCycles)])
  }

  lemma StoresLesson(env: Env, cfg: Config, g: Graph, row: Outcome, s: St, t: nat, n: nat)
    requires Proceeding(env, t, n) && t <= s.t && s.t + 3 <= t + n && g.cycle !in s.d.lessons
    ensures var lesson := LessonPatch(g.cycle + 1 >= cfg.maxCycles);
      StoreLesson(env, cfg, g, row, s)
      == Ok(St(s.d.(artifacts := s.d.artifacts + {LessonReceipt(row)}, lessons := s.d.lessons[g.cycle := lesson]), s.t + 3),
            lesson)
  {
    hide Draw;
    hide Put;
    Stores(env, s, LessonReceipt(row), t, n);
    var d1 := s.d.(artifacts := s.d.artifacts + {LessonReceipt(row)});
    Drawn(env, St(d1, s.t + 1), false, t, n);
    Drawn(env, St(d1, s.t + 2), false, t, n);
    hide Proceeding;
  }

  lemma Learns(env: Env, cfg: Config, g: Graph, s: St, t: nat, n: nat)
    requires Proceeding(env, t, n) && t <= s.t && s.t + 5 <= t + n
    requires g.cycle !in s.d.lessons && g.cycle !in s.d.outcomes && g.plan.Plan? && g.verdict.Verdict?
    requires {g.plan, g.verdict, g.before} <= s.d.artifacts && InTable(s.d.artifacts, PolicyAction(g))
    ensures Learn(env, cfg, g, s)
         == Ok(St(LearnedTables(cfg, g, OutcomeOf(g), s.d), s.t + 5), LessonPatch(g.cycle + 1 >= cfg.maxCycles))
  {
    hide Draw;
    hide StoreLesson;
    hide PolicyAction;
    hide OutcomeOf;
    LearnNeeds(g, s);
    hide Need;
    Drawn(env, s, false, t, n);
    Drawn(env, St(s.d, s.t + 1), false, t, n);
    var row := OutcomeOf(g);
    StoresLesson(env, cfg, g, row, St(s.d.(outcomes := s.d.outcomes[g.cycle := row]), s.t + 2), t, n);
    hide Proceeding;
  }

  lemma Finishes(env: Env, cfg: Config, g: Graph, s: St, t: nat, n: nat)
    requires Proceeding(env, t, n) && t <= s.t && s.t + 5 <= t + n
    requires g.cycle !in s.d.lessons && g.cycle !in s.d.outcomes && g.plan.Plan? && g.verdict.Verdict?
    requires {g.plan, g.verdict, g.before} <= s.d.artifacts && InTable(s.d.artifacts, PolicyAction(g))
    ensures Finish(env, cfg, g, s)
         == Ok(St(LearnedTables(cfg, g, OutcomeOf(g), s.d), s.t + 5), NextCycle(g, g.cycle + 1 >= cfg.maxCycles))
  {
    hide Learn;
    hide PolicyAction;
    hide OutcomeOf;
    hide LearnedTables;
    Learns(env, cfg, g, s, t, n);
    hide Proceeding;
  }

  lemma LearnNeeds(g: Graph, s: St)
    requires {g.plan, g.verdict, g.before} <= s.d.artifacts && InTable(s.d.artifacts, PolicyAction(g))
    ensures Need(s, {g.plan, g.verdict, g.before} + if PolicyAction(g) != NoRef then {PolicyAction(g)} else {}) == Ok(s, ())
  {
    hide PolicyAction;
  }

  /** The durable state after the verdict of a hold. */
  function JudgedTables(g: Graph, after: Artifact, signed: Artifact, d: Durable): Durable
    requires signed.Verdict?
  {
    d.(artifacts := d.artifacts + {after} + {signed}, windows := d.windows[g.cycle := after],
       postchecks := d.postchecks[g.cycle := PostPatch(signed, after, NoRef, false)])
  }

  predicate Measurable(env: Env, cfg: Config, g: Graph, t: nat)
    requires g.before.Observation? && g.validated.Validated?
  {
    && env(t + 1).reading.live && Later(g.before.reading, env(t + 1).reading)
    && Accepts(cfg, env(t + 1).reading, env(t + 1).now) && Accepts(cfg, env(t + 1).reading, env(t + 4).now)
    && NativeFor(cfg, env(t + 1).reading.rows, env(t + 4).native) && g.validated.qerBefore == Some(env(t + 4).native)
  }

  lemma ChecksHold(env: Env, cfg: Config, g: Graph, s: St, t: nat, n: nat)
    requires Proceeding(env, t, n) && t <= s.t && s.t + 8 <= t + n && AtHeld(cfg, g, s.d) && Measurable(env, cfg, g, s.t)
    ensures var after := BeforeOf(env(s.t + 1));
      var signed := SignedVerdict(HeldVerdict(after, env(s.t + 4).native), env(s.t + 5).response);
      CheckEffect(env, cfg, g, s)
      == Ok(St(JudgedTables(g, after, signed, s.d), s.t + 8), PostPatch(signed, after, NoRef, false))
  {
    hide Draw;
    hide Judge;
    hide StoreVerdict;
    hide SealHolds;
    hide Accepts;
    hide Later;
    hide NativeFor;
    var after := BeforeOf(env(s.t + 1));
    var verdict := HeldVerdict(after, env(s.t + 4).native);
    assert Need(s, PostcheckRefs(g)) == Ok(s, ());
    hide PostcheckRefs;
    JudgesHold(env, cfg, g, s, t, n);
    var d1 := s.d.(artifacts := s.d.artifacts + {after}, windows := s.d.windows[g.cycle := after]);
    Drawn(env, St(d1, s.t + 5), false, t, n);
    StoresVerdict(env, g, verdict, env(s.t + 5).response, St(d1, s.t + 6), t, n);
    hide Proceeding;
  }

  /** The state a verified hold is learned in. */
  function HeldState(g: Graph, after: Artifact, signed: Artifact): Graph {
    g.(verdict := signed, after := after)
  }

  lemma PostcheckVerifies(env: Env, cfg: Config, g: Graph, s: St)
    requires Proceeding(env, s.t, 13) && AtHeld(cfg, g, s.d) && Measurable(env, cfg, g, s.t)
    ensures var after := BeforeOf(env(s.t + 1));
      var signed := SignedVerdict(HeldVerdict(after, env(s.t + 4).native), env(s.t + 5).response);
      var g1 := HeldState(g, after, signed);
      PostcheckNode(env, cfg, g, s)
      == Ok(St(LearnedTables(cfg, g1, OutcomeOf(g1), JudgedTables(g, after, signed, s.d)), s.t + 13),
            NextCycle(g1, g.cycle + 1 >= cfg.maxCycles))
  {
    hide CheckEffect;
    hide Finish;
    hide Measurable;
    hide SealHolds;
    hide OutcomeOf;
    var after := BeforeOf(env(s.t + 1));
    var signed := SignedVerdict(HeldVerdict(after, env(s.t + 4).native), env(s.t + 5).response);
    var g1 := HeldState(g, after, signed);
    ChecksHold(env, cfg, g, s, s.t, 13);
    assert PolicyAction(g1) == NoRef;
    Finishes(env, cfg, g1, St(JudgedTables(g, after, signed, s.d), s.t + 8), s.t, 13);
    hide Proceeding;
  }

  // ---------------------------------------------------------------- whole turns

  /** The checkpoint and the tables of one thread between two nodes. */
  ghost predicate At(cfg: Config, g: Graph, s: St) {
    s.d.graph == Some(g) && Stored(cfg, s.d)
  }

  /** A node that answers is checkpointed. */
  lemma Steps(env: Env, cfg: Config, g: Graph, s: St, d1: Durable, t1: nat, g1: Graph)
    requires env(t1).fate.Proceeds?
    requires match g.next
             case Planner => PlannerNode(env, cfg, g, s) == Ok(St(d1, t1), g1)
             case Executor => ExecutorNode(env, cfg, g, s) == Ok(St(d1, t1), g1)
             case Validator =>
               (g.phase.Precheck? && PrecheckNode(env, cfg, g, s) == Ok(St(d1, t1), g1))
               || (g.phase.Postcheck? && PostcheckNode(env, cfg, g, s) == Ok(St(d1, t1), g1))
               || (g.phase.RestoreCheck? && RestoreCheckNode(env, cfg, g, s) == Ok(St(d1, t1), g1))
             case End => false
    ensures Step(env, cfg, g, s) == Ok(St(d1.(graph := Some(g1)), t1 + 1), g1)
  {
    hide PlannerNode;
    hide ExecutorNode;
    hide PrecheckNode;
    hide PostcheckNode;
    hide RestoreCheckNode;
  }

  /** After a node that answers, the thread is at the state it published. */
  lemma Arrives(env: Env, cfg: Config, g: Graph, s: St, g1: Graph, s1: St)
    requires cfg.Valid() && Quiet(env) && At(cfg, g, s) && !g.next.End? && Step(env, cfg, g, s) == Ok(s1, g1)
    ensures At(cfg, g1, s1)
  {
    hide Inv;
    hide Step;
    StepKeep(env, cfg, g, s);
  }

  /** Nothing of this cycle or a later one was observed or proposed. */
  predicate Fresh(g: Graph, d: Durable) {
    (forall c :: c in d.inputs ==> c < g.cycle) && (forall k :: k in d.proposals ==> k.0 < g.cycle)
  }

  /** Every answer asks for a hold. */
  ghost predicate Holding(env: Env, t: nat, n: nat) {
    forall u: nat :: t <= u < t + n ==> env(u).ask == Ask(HoldPolicy, None, None)
  }

  predicate SameLedger(d: Durable, e: Durable) {
    e.outcomes == d.outcomes && e.trace == d.trace && e.adapter == d.adapter && e.prechecks == d.prechecks
  }

  lemma PlannerPointFacts(cfg: Config, g: Graph, s: St)
    requires At(cfg, g, s) && g.next.Planner?
    ensures NoPrechecks(s.d, g.cycle) && g.cycle < cfg.maxCycles && g.stop.Running? && g.error.None?
  {
    hide Superseded;
    hide Provenance;
    hide Log;
    hide Budget;
    hide Owned;
  }

  lemma PrecheckPointFacts(cfg: Config, g: Graph, s: St)
    requires At(cfg, g, s) && g.next.Validator? && g.phase.Precheck?
    ensures NoExecutions(s.d, g.cycle) && NoResult(s.d, g.cycle) && NoLesson(s.d, g.cycle)
    ensures {g.plan, g.before, g.seal} <= s.d.artifacts
  {
    hide Superseded;
    hide Provenance;
    hide Log;
    hide Budget;
    hide Owned;
  }

  /** A planner that was asked for something it may propose. */
  lemma PlannerTurn(env: Env, cfg: Config, rows: seq<Row>, native: Inventory, g: Graph, s: St) returns (g1: Graph, s1: St)
    requires cfg.Valid() && Quiet(env) && At(cfg, g, s) && g.next.Planner? && g.active == NoRef && Fresh(g, s.d)
    requires Commissionable(cfg, rows, native) && Calm(env, cfg, rows, native, s.t, 10)
    requires Refusal(cfg, g, Cohort.Commissioned(rows, cfg.profiles).value, env(s.t + 5).ask).None?
    ensures Step(env, cfg, g, s) == Ok(s1, g1) && At(cfg, g1, s1) && s1.t == s.t + 10
    ensures AtPrecheck(cfg, g1, s1.d) && g1.before == BeforeOf(env(s.t)) && g1.plan == PlanOf(g1.before, env(s.t + 5))
    ensures g1 == Planned(g, Inputs(g1.before, g1.seal), g1.plan)
    ensures SameLedger(s.d, s1.d)
  {
    hide Inv;
    hide Stored;
    hide Calm;
    hide Refusal;
    hide PlannerNode;
    hide Step;
    hide SealHolds;
    hide At;
    hide DistinctSupis;
    hide NativeFor;
    PlannerPointFacts(cfg, g, s);
    CalmPart(env, cfg, rows, native, s.t, 10, s.t, 9);
    CalmAt(env, cfg, rows, native, s.t, 10, s.t + 9);
    PlannerPlans(env, cfg, rows, native, g, s);
    var i := Inputs(BeforeOf(env(s.t)), SealOf(env(s.t)));
    var plan := PlanOf(i.before, env(s.t + 5));
    g1 := Planned(g, i, plan);
    var d1 := PlannedTables(g, i, plan, s.d);
    s1 := St(d1.(graph := Some(g1)), s.t + 10);
    Steps(env, cfg, g, s, d1, s.t + 9, g1);
    Arrives(env, cfg, g, s, g1, s1);
  }

  /** The precheck of a decision on an unowned network. */
  lemma PrecheckTurn(env: Env, cfg: Config, offer: seq<Candidate>, g: Graph, s: St) returns (g1: Graph, s1: St)
    requires cfg.Valid() && Quiet(env) && At(cfg, g, s) && AtPrecheck(cfg, g, s.d) && Proceeding(env, s.t, 7)
    requires Offer(cfg, g.before) == Some(offer)
    requires ProofRefusal(cfg, g, Proof(cfg, g, Chosen(g, offer), env(s.t).native), env(s.t).native).None?
    ensures Step(env, cfg, g, s) == Ok(s1, g1) && At(cfg, g1, s1) && s1.t == s.t + 7
    ensures g1.validated == Signed(Proof(cfg, g, Chosen(g, offer), env(s.t).native), env(s.t).response)
    ensures g1 == g.(validated := g1.validated, operation := if g1.validated.selected.Some? then Apply else Hold,
                     next := Executor)
    ensures g1.validated in s1.d.artifacts && s.d.artifacts <= s1.d.artifacts
    ensures s1.d == s.d.(artifacts := s1.d.artifacts, prechecks := s1.d.prechecks, graph := Some(g1))
  {
    hide Inv;
    hide Stored;
    hide At;
    hide Offer;
    hide Chosen;
    hide Proof;
    hide Signed;
    hide ProofRefusal;
    hide PrecheckNode;
    hide Step;
    hide SealHolds;
    hide Proceeding;
    ProceedingPart(env, s.t, 7);
    PrecheckProves(env, cfg, offer, g, s);
    var proof := Proof(cfg, g, Chosen(g, offer), env(s.t).native);
    var signed := Signed(proof, env(s.t).response);
    g1 := g.(validated := signed, operation := if signed.selected.Some? then Apply else Hold, next := Executor);
    var d1 := CheckedTables(g, proof, signed, s.d);
    s1 := St(d1.(graph := Some(g1)), s.t + 7);
    Steps(env, cfg, g, s, d1, s.t + 6, g1);
    Arrives(env, cfg, g, s, g1, s1);
  }

  lemma HoldTurn(env: Env, cfg: Config, g: Graph, s: St) returns (g1: Graph, s1: St)
    requires cfg.Valid() && Quiet(env) && At(cfg, g, s) && AtHold(cfg, g, s.d) && Proceeding(env, s.t, 9)
    requires NativeFor(cfg, g.before.reading.rows, env(s.t).native) && g.validated.qerBefore == Some(env(s.t).native)
    ensures Step(env, cfg, g, s) == Ok(s1, g1) && At(cfg, g1, s1) && s1.t == s.t + 9
    ensures g1 == g.(next := Validator, phase := Postcheck, action := DecisionOf(cfg, g),
                     validated := ConfirmedBy(g, env(s.t).response))
    ensures {g1.action, g1.validated} <= s1.d.artifacts && s.d.artifacts <= s1.d.artifacts
    ensures s1.d == s.d.(artifacts := s1.d.artifacts, holds := s1.d.holds, executions := s1.d.executions, graph := Some(g1))
  {
    hide Inv;
    hide Stored;
    hide At;
    hide SealHolds;
    hide NativeFor;
    hide ExecutorNode;
    hide Step;
    hide Proceeding;
    hide KeyOf;
    hide ConfirmedBy;
    hide DecisionOf;
    ProceedingPart(env, s.t, 9);
    ExecutorHolds(env, cfg, g, s);
    var response := env(s.t).response;
    g1 := Executed'(g, Held(ConfirmedBy(g, response), DecisionOf(cfg, g)));
    var d1 := HeldTables(cfg, g, response, s.d);
    s1 := St(d1.(graph := Some(g1)), s.t + 9);
    Steps(env, cfg, g, s, d1, s.t + 8, g1);
    Arrives(env, cfg, g, s, g1, s1);
  }

  lemma ProceedingPart(env: Env, t: nat, n: nat)
    requires Proceeding(env, t, n) && n > 0
    ensures env(t + n - 1).fate.Proceeds? && Proceeding(env, t, n - 1)
  {
  }

  /** What a verified hold of this cycle leaves. */
  predicate Verified(g: Graph, d: Durable, g1: Graph, d1: Durable, after: Artifact, native: Inventory) {
    && g1.active == NoRef && g1.cycle == g.cycle + 1 && g1.attempt == 0 && g1.error == g.error && g1.after == after
    && g1.changes == g.changes && g1.lastChange == g.lastChange
    && d1.inputs == d.inputs && d1.proposals == d.proposals && d1.prechecks == d.prechecks
    && d1.trace == d.trace && d1.adapter == d.adapter && d1.context == d.context
    && g.cycle in d1.outcomes && d1.outcomes == d.outcomes[g.cycle := d1.outcomes[g.cycle]]
    && var o := d1.outcomes[g.cycle];
    && o.held.Some? && NativeOf(o) == Some(native) && o.held.value.before == g.before && o.held.value.after == after
  }

  /** The row of a verified hold. */
  lemma HeldRow(g: Graph, native: Inventory)
    requires g.plan.Plan? && g.verdict.Verdict? && g.verdict.held == Some(native)
    ensures var o := OutcomeOf(g);
      o.held.Some? && NativeOf(o) == Some(native) && o.held.value.before == g.before
      && o.held.value.after == g.verdict.after
  {
    hide PolicyAction;
  }

  /** The signed verdict of a hold measured from t on. */
  function VerdictOf(env: Env, t: nat): Artifact {
    SignedVerdict(HeldVerdict(BeforeOf(env(t + 1)), env(t + 4).native), env(t + 5).response)
  }

  function VerifiedTables(env: Env, cfg: Config, g: Graph, s: St): Durable
    requires g.plan.Plan?
  {
    var after := BeforeOf(env(s.t + 1));
    var g1 := HeldState(g, after, VerdictOf(env, s.t));
    LearnedTables(cfg, g1, OutcomeOf(g1), JudgedTables(g, after, VerdictOf(env, s.t), s.d))
  }

  function VerifiedState(env: Env, cfg: Config, g: Graph, t: nat): Graph {
    NextCycle(HeldState(g, BeforeOf(env(t + 1)), VerdictOf(env, t)), g.cycle + 1 >= cfg.maxCycles)
  }

  lemma VerifiedIs(env: Env, cfg: Config, g: Graph, s: St)
    requires g.plan.Plan? && g.active == NoRef
    ensures var g1 := VerifiedState(env, cfg, g, s.t);
      Verified(g, s.d, g1, VerifiedTables(env, cfg, g, s).(graph := Some(g1)), BeforeOf(env(s.t + 1)), env(s.t + 4).native)
  {
    var after := BeforeOf(env(s.t + 1));
    var g1 := HeldState(g, after, VerdictOf(env, s.t));
    HeldRow(g1, env(s.t + 4).native);
    hide OutcomeOf;
    hide NativeOf;
  }

  lemma VerifiedTurn(env: Env, cfg: Config, g: Graph, s: St) returns (g1: Graph, s1: St)
    requires cfg.Valid() && Quiet(env) && At(cfg, g, s) && AtHeld(cfg, g, s.d) && Proceeding(env, s.t, 14)
    requires Measurable(env, cfg, g, s.t)
    ensures Step(env, cfg, g, s) == Ok(s1, g1) && At(cfg, g1, s1) && s1.t == s.t + 14
    ensures Verified(g, s.d, g1, s1.d, BeforeOf(env(s.t + 1)), env(s.t + 4).native)
    ensures if g.cycle + 1 >= cfg.maxCycles then g1.next.End? && g1.stop.CycleLimit? else g1.next.Planner? && g1.stop == g.stop
  {
    hide *;
    AtHeldIs(cfg, g, s.d);
    ProceedingPart(env, s.t, 14);
    VerifiesTo(env, cfg, g, s);
    VerifiedIs(env, cfg, g, s);
    NextIs(env, cfg, g, s.t);
    g1 := VerifiedState(env, cfg, g, s.t);
    var d1 := VerifiedTables(env, cfg, g, s);
    s1 := St(d1.(graph := Some(g1)), s.t + 14);
    Steps(env, cfg, g, s, d1, s.t + 13, g1);
    Arrives(env, cfg, g, s, g1, s1);
  }

  lemma VerifiesTo(env: Env, cfg: Config, g: Graph, s: St)
    requires Proceeding(env, s.t, 13) && AtHeld(cfg, g, s.d) && Measurable(env, cfg, g, s.t)
    ensures PostcheckNode(env, cfg, g, s)
         == Ok(St(VerifiedTables(env, cfg, g, s), s.t + 13), VerifiedState(env, cfg, g, s.t))
  {
    hide PostcheckNode;
    hide Proceeding;
    hide Measurable;
    hide SealHolds;
    hide OutcomeOf;
    hide LearnedTables;
    hide JudgedTables;
    hide NextCycle;
    PostcheckVerifies(env, cfg, g, s);
  }

  lemma NextIs(env: Env, cfg: Config, g: Graph, t: nat)
    ensures var g1 := VerifiedState(env, cfg, g, t);
      if g.cycle + 1 >= cfg.maxCycles then g1.next.End? && g1.stop.CycleLimit? else g1.next.Planner? && g1.stop == g.stop
  {
  }

  lemma AtHeldIs(cfg: Config, g: Graph, d: Durable)
    requires AtHeld(cfg, g, d)
    ensures g.next.Validator? && g.phase.Postcheck? && g.validated.Validated? && g.before.Observation?
    ensures g.plan.Plan? && g.active == NoRef
  {
    hide SealHolds;
  }

  // ---------------------------------------------------------------- a whole cycle

  predicate PlansHold(plan: Artifact) {
    plan.Plan? && plan.verb.HoldPolicy? && plan.group.None? && plan.profile.None?
  }

  /** What the precheck of a planned hold publishes is ready to be executed. */
  lemma HoldIsReady(cfg: Config, offer: seq<Candidate>, native: Inventory, response: string,
                    g: Graph, d: Durable, g1: Graph, d1: Durable)
    requires AtPrecheck(cfg, g, d) && PlansHold(g.plan) && NativeFor(cfg, g.before.reading.rows, native)
    requires NoExecutions(d, g.cycle)
    requires g1.validated == Signed(Proof(cfg, g, Chosen(g, offer), native), response) && g1.validated in d1.artifacts
    requires g1 == g.(validated := g1.validated, operation := if g1.validated.selected.Some? then Apply else Hold,
                      next := Executor)
    requires d1.holds == d.holds && d1.executions == d.executions && d.artifacts <= d1.artifacts
    ensures ProofRefusal(cfg, g, Proof(cfg, g, Chosen(g, offer), native), native).None?
    ensures AtHold(cfg, g1, d1) && g1.validated.qerBefore == Some(native) && g1.validated.freshHold
    ensures g1.validated.holdSeal == g1.seal
  {
    hide SealHolds;
    hide NativeFor;
    hide CanChange;
  }

  lemma HoldIsApproved(cfg: Config, offer: seq<Candidate>, native: Inventory, g: Graph, d: Durable)
    requires AtPrecheck(cfg, g, d) && PlansHold(g.plan) && NativeFor(cfg, g.before.reading.rows, native)
    ensures ProofRefusal(cfg, g, Proof(cfg, g, Chosen(g, offer), native), native).None?
  {
    hide SealHolds;
    hide NativeFor;
  }

  lemma HoldIsCheckable(cfg: Config, g: Graph, d: Durable, g1: Graph, d1: Durable, response: string)
    requires AtHold(cfg, g, d) && g.validated.freshHold && g.validated.holdSeal == g.seal && g.active == NoRef
    requires NoResult(d, g.cycle) && NoLesson(d, g.cycle)
    requires g1 == g.(next := Validator, phase := Postcheck, action := DecisionOf(cfg, g), validated := ConfirmedBy(g, response))
    requires {g1.action, g1.validated, g.plan} <= d1.artifacts && d.artifacts <= d1.artifacts
    requires d1 == d.(artifacts := d1.artifacts, holds := d1.holds, executions := d1.executions, graph := Some(g1))
    ensures AtHeld(cfg, g1, d1)
    ensures g1.validated.qerBefore == g.validated.qerBefore && g1.before == g.before && g1.cycle == g.cycle
  {
    hide SealHolds;
  }

  lemma CalmIsMeasurable(env: Env, cfg: Config, rows: seq<Row>, native: Inventory, g: Graph, t0: nat, n: nat, t: nat)
    requires Calm(env, cfg, rows, native, t0, n) && t0 <= t && t + 5 <= t0 + n && t0 < t
    requires g.before == BeforeOf(env(t0)) && g.validated.Validated? && g.validated.qerBefore == Some(native)
    requires |rows| == cfg.totalUes && DistinctSupis(rows) && NativeFor(cfg, rows, native)
    ensures Measurable(env, cfg, g, t)
  {
    hide DistinctSupis;
    hide NativeFor;
    CalmAt(env, cfg, rows, native, t0, n, t0);
    CalmAt(env, cfg, rows, native, t0, n, t + 1);
    CalmAt(env, cfg, rows, native, t0, n, t + 4);
    assert env(t0).reading.sequence < env(t + 1).reading.sequence;
    assert Young(cfg, env(t + 1).reading, env(t + 4).now);
    hide Calm;
  }

  lemma HoldNotRefused(cfg: Config, g: Graph, offer: seq<Candidate>, before: Artifact, c: Choice)
    requires c.ask == Ask(HoldPolicy, None, None)
    ensures Refusal(cfg, g, offer, c.ask).None? && PlansHold(PlanOf(before, c))
  {
    hide CanChange;
    hide Find;
  }

  /** A planned hold over these rows. */
  ghost predicate HoldProposed(cfg: Config, rows: seq<Row>, before: Artifact, g: Graph, d: Durable) {
    && AtPrecheck(cfg, g, d) && PlansHold(g.plan) && g.before == before && g.before.reading.rows == rows
    && NoExecutions(d, g.cycle) && NoResult(d, g.cycle) && NoLesson(d, g.cycle)
  }

  /** A decided hold that only has to be executed. */
  ghost predicate DecidedHold(cfg: Config, rows: seq<Row>, native: Inventory, before: Artifact, g: Graph, d: Durable) {
    && AtHold(cfg, g, d) && g.validated.freshHold && g.validated.holdSeal == g.seal && g.active == NoRef
    && g.validated.qerBefore == Some(native) && g.before == before && g.before.reading.rows == rows
    && NoResult(d, g.cycle) && NoLesson(d, g.cycle) && g.plan in d.artifacts
  }

  /** A hold that only has to be measured. */
  ghost predicate ExecutedHold(cfg: Config, rows: seq<Row>, native: Inventory, before: Artifact, g: Graph, d: Durable) {
    AtHeld(cfg, g, d) && g.validated.qerBefore == Some(native) && g.before == before
  }

  /** The same cycle, with nothing spent and nothing logged. */
  predicate SameCycle(g: Graph, d: Durable, g1: Graph, d1: Durable) {
    && g1.cycle == g.cycle && g1.stop == g.stop && g1.error == g.error
    && g1.changes == g.changes && g1.lastChange == g.lastChange
    && d1.outcomes == d.outcomes && d1.trace == d.trace && d1.adapter == d.adapter && d1.context == d.context
  }

  lemma HoldPlanned(env: Env, cfg: Config, rows: seq<Row>, native: Inventory, g: Graph, s: St) returns (g1: Graph, s1: St)
    requires cfg.Valid() && Quiet(env) && At(cfg, g, s) && g.next.Planner? && g.active == NoRef && Fresh(g, s.d)
    requires Commissionable(cfg, rows, native) && Calm(env, cfg, rows, native, s.t, 10)
    requires env(s.t + 5).ask == Ask(HoldPolicy, None, None)
    ensures Step(env, cfg, g, s) == Ok(s1, g1) && At(cfg, g1, s1) && s1.t == s.t + 10
    ensures HoldProposed(cfg, rows, BeforeOf(env(s.t)), g1, s1.d) && SameCycle(g, s.d, g1, s1.d)
  {
    hide Inv;
    hide Stored;
    hide At;
    hide Step;
    hide SealHolds;
    hide Refusal;
    hide DistinctSupis;
    hide NativeFor;
    CalmAt(env, cfg, rows, native, s.t, 10, s.t);
    hide Calm;
    HoldNotRefused(cfg, g, Cohort.Commissioned(rows, cfg.profiles).value, BeforeOf(env(s.t)), env(s.t + 5));
    g1, s1 := PlannerTurn(env, cfg, rows, native, g, s);
    PrecheckPointFacts(cfg, g1, s1);
    AtContext(cfg, g, s, g1, s1);
  }

  lemma AtContext(cfg: Config, g: Graph, s: St, g1: Graph, s1: St)
    requires At(cfg, g, s) && At(cfg, g1, s1)
    ensures s1.d.context == s.d.context
  {
    hide Inv;
  }

  lemma HoldApproved(env: Env, cfg: Config, rows: seq<Row>, native: Inventory, before: Artifact, g: Graph, s: St)
      returns (g1: Graph, s1: St)
    requires cfg.Valid() && Quiet(env) && At(cfg, g, s) && HoldProposed(cfg, rows, before, g, s.d)
    requires Commissionable(cfg, rows, native) && Proceeding(env, s.t, 7) && env(s.t).native == native
    ensures Step(env, cfg, g, s) == Ok(s1, g1) && At(cfg, g1, s1) && s1.t == s.t + 7
    ensures DecidedHold(cfg, rows, native, before, g1, s1.d) && SameCycle(g, s.d, g1, s1.d)
  {
    hide Inv;
    hide Stored;
    hide At;
    hide Step;
    hide Proceeding;
    hide Proof;
    hide Signed;
    hide ProofRefusal;
    hide Chosen;
    hide AtPrecheck;
    hide AtHold;
    hide NativeFor;
    hide DistinctSupis;
    AtPrecheckIs(cfg, g, s.d);
    var offer := Cohort.Commissioned(rows, cfg.profiles).value;
    assert Offer(cfg, g.before) == Some(offer);
    hide Offer;
    HoldIsApproved(cfg, offer, native, g, s.d);
    g1, s1 := PrecheckTurn(env, cfg, offer, g, s);
    HoldIsReady(cfg, offer, native, env(s.t).response, g, s.d, g1, s1.d);
    PlanStored(cfg, g, s.d);
  }

  lemma PlanStored(cfg: Config, g: Graph, d: Durable)
    requires AtPrecheck(cfg, g, d)
    ensures g.plan in d.artifacts && g.active == NoRef
  {
    hide SealHolds;
  }

  lemma HoldExecuted(env: Env, cfg: Config, rows: seq<Row>, native: Inventory, before: Artifact, g: Graph, s: St)
      returns (g1: Graph, s1: St)
    requires cfg.Valid() && Quiet(env) && At(cfg, g, s) && DecidedHold(cfg, rows, native, before, g, s.d)
    requires NativeFor(cfg, rows, native) && Proceeding(env, s.t, 9) && env(s.t).native == native
    ensures Step(env, cfg, g, s) == Ok(s1, g1) && At(cfg, g1, s1) && s1.t == s.t + 9
    ensures ExecutedHold(cfg, rows, native, before, g1, s1.d) && SameCycle(g, s.d, g1, s1.d)
  {
    hide Inv;
    hide Stored;
    hide At;
    hide Step;
    hide Proceeding;
    hide AtHeld;
    hide NativeFor;
    hide SealHolds;
    g1, s1 := HoldTurn(env, cfg, g, s);
    HoldIsCheckable(cfg, g, s.d, g1, s1.d, env(s.t).response);
    hide AtHold;
  }

  /** What a finished hold cycle leaves: one more row, verified over this inventory between these readings. */
  predicate CycleHeld(g: Graph, d: Durable, g1: Graph, d1: Durable, native: Inventory, before: Artifact, after: Artifact) {
    && g1.active == NoRef && g1.cycle == g.cycle + 1 && g1.error == g.error && g1.after == after
    && g1.changes == g.changes && g1.lastChange == g.lastChange
    && d1.trace == d.trace && d1.adapter == d.adapter && d1.context == d.context
    && g.cycle in d1.outcomes && d1.outcomes == d.outcomes[g.cycle := d1.outcomes[g.cycle]]
    && var o := d1.outcomes[g.cycle];
    && o.held.Some? && NativeOf(o) == Some(native) && o.held.value.before == before && o.held.value.after == after
  }

  lemma NothingLater(cfg: Config, g: Graph, s: St)
    requires At(cfg, g, s)
    ensures (forall c :: c in s.d.inputs ==> c <= g.cycle) && (forall k :: k in s.d.proposals ==> k.0 <= g.cycle)
  {
    hide Superseded;
    hide Provenance;
    hide Log;
    hide Budget;
    hide Owned;
    hide Point;
  }

  /** Four nodes in a row. */
  lemma FourNodes(env: Env, cfg: Config, g: Graph, s: St, limit: nat, g1: Graph, s1: St, g2: Graph, s2: St,
                  g3: Graph, s3: St, g4: Graph, s4: St)
    requires limit >= 4 && !g.next.End? && !g1.next.End? && !g2.next.End? && !g3.next.End?
    requires Step(env, cfg, g, s) == Ok(s1, g1) && Step(env, cfg, g1, s1) == Ok(s2, g2)
    requires Step(env, cfg, g2, s2) == Ok(s3, g3) && Step(env, cfg, g3, s3) == Ok(s4, g4)
    ensures Invoke(env, cfg, g, s, limit) == Invoke(env, cfg, g4, s4, limit - 4)
  {
    hide Step;
    assert Invoke(env, cfg, g, s, limit) == Invoke(env, cfg, g1, s1, limit - 1);
    assert Invoke(env, cfg, g1, s1, limit - 1) == Invoke(env, cfg, g2, s2, limit - 2);
    assert Invoke(env, cfg, g2, s2, limit - 2) == Invoke(env, cfg, g3, s3, limit - 3);
    assert Invoke(env, cfg, g3, s3, limit - 3) == Invoke(env, cfg, g4, s4, limit - 4);
  }

  /** The first half of a hold cycle: planned and approved. */
  lemma HoldDecided(env: Env, cfg: Config, rows: seq<Row>, native: Inventory, g: Graph, s: St)
      returns (g1: Graph, s1: St, g2: Graph, s2: St)
    requires cfg.Valid() && Quiet(env) && At(cfg, g, s) && g.next.Planner? && g.active == NoRef && Fresh(g, s.d)
    requires Commissionable(cfg, rows, native) && Calm(env, cfg, rows, native, s.t, 17)
    requires env(s.t + 5).ask == Ask(HoldPolicy, None, None)
    ensures Step(env, cfg, g, s) == Ok(s1, g1) && !g1.next.End? && Step(env, cfg, g1, s1) == Ok(s2, g2)
    ensures At(cfg, g2, s2) && s2.t == s.t + 17
    ensures DecidedHold(cfg, rows, native, BeforeOf(env(s.t)), g2, s2.d) && SameCycle(g, s.d, g2, s2.d)
  {
    hide Inv;
    hide Stored;
    hide At;
    hide Step;
    hide HoldProposed;
    hide DecidedHold;
    hide Commissionable;
    CalmPart(env, cfg, rows, native, s.t, 17, s.t, 10);
    CalmPart(env, cfg, rows, native, s.t, 17, s.t + 10, 7);
    CalmProceeds(env, cfg, rows, native, s.t + 10, 7);
    CalmAt(env, cfg, rows, native, s.t, 17, s.t + 10);
    hide Proceeding;
    hide Calm;
    g1, s1 := HoldPlanned(env, cfg, rows, native, g, s);
    ProposedIs(cfg, rows, BeforeOf(env(s.t)), g1, s1.d);
    g2, s2 := HoldApproved(env, cfg, rows, native, BeforeOf(env(s.t)), g1, s1);
  }

  lemma ProposedIs(cfg: Config, rows: seq<Row>, before: Artifact, g: Graph, d: Durable)
    requires HoldProposed(cfg, rows, before, g, d)
    ensures g.next.Validator?
  {
    hide SealHolds;
  }

  /** The second half: executed, measured, verified and learned. */
  lemma HoldVerified(env: Env, cfg: Config, rows: seq<Row>, native: Inventory, t: nat, g: Graph, s: St)
      returns (g1: Graph, s1: St, g2: Graph, s2: St)
    requires cfg.Valid() && Quiet(env) && At(cfg, g, s) && DecidedHold(cfg, rows, native, BeforeOf(env(t)), g, s.d)
    requires Commissionable(cfg, rows, native) && Calm(env, cfg, rows, native, t, 40) && s.t == t + 17
    ensures Step(env, cfg, g, s) == Ok(s1, g1) && !g.next.End? && !g1.next.End? && Step(env, cfg, g1, s1) == Ok(s2, g2)
    ensures At(cfg, g2, s2) && s2.t == t + 40 && Fresh(g2, s2.d)
    ensures CycleHeld(g, s.d, g2, s2.d, native, BeforeOf(env(t)), BeforeOf(env(t + 27)))
    ensures if g.cycle + 1 >= cfg.maxCycles then g2.next.End? && g2.stop.CycleLimit? else g2.next.Planner? && g2.stop == g.stop
  {
    hide Inv;
    hide Stored;
    hide At;
    hide Step;
    hide AtHold;
    hide AtHeld;
    CalmPart(env, cfg, rows, native, t, 40, t + 17, 9);
    CalmPart(env, cfg, rows, native, t, 40, t + 26, 14);
    CalmProceeds(env, cfg, rows, native, t + 17, 9);
    CalmProceeds(env, cfg, rows, native, t + 26, 14);
    CalmAt(env, cfg, rows, native, t, 40, t + 17);
    CalmAt(env, cfg, rows, native, t, 40, t + 30);
    hide Proceeding;
    hide NativeFor;
    hide DistinctSupis;
    AtHoldIs(cfg, g, s.d);
    g1, s1 := HoldExecuted(env, cfg, rows, native, BeforeOf(env(t)), g, s);
    AtHeldIs(cfg, g1, s1.d);
    CalmIsMeasurable(env, cfg, rows, native, g1, t, 40, s1.t);
    hide Calm;
    NothingLater(cfg, g1, s1);
    g2, s2 := VerifiedTurn(env, cfg, g1, s1);
    hide Measurable;
  }

  /**
   While every collaborator answers about the same rows and one inventory, and the model asks for a
   hold, a cycle takes four nodes and ends with a row that verified the hold over that inventory.
   */
  lemma HoldCycle(env: Env, cfg: Config, rows: seq<Row>, native: Inventory, g: Graph, s: St, limit: nat)
      returns (g4: Graph, s4: St)
    requires cfg.Valid() && Quiet(env) && At(cfg, g, s) && g.next.Planner? && g.active == NoRef && Fresh(g, s.d)
    requires Commissionable(cfg, rows, native) && Calm(env, cfg, rows, native, s.t, 40) && limit >= 4
    requires env(s.t + 5).ask == Ask(HoldPolicy, None, None)
    ensures Invoke(env, cfg, g, s, limit) == Invoke(env, cfg, g4, s4, limit - 4)
    ensures At(cfg, g4, s4) && s4.t == s.t + 40 && Fresh(g4, s4.d)
    ensures CycleHeld(g, s.d, g4, s4.d, native, BeforeOf(env(s.t)), BeforeOf(env(s.t + 27)))
    ensures if g.cycle + 1 >= cfg.maxCycles then g4.next.End? && g4.stop.CycleLimit? else g4.next.Planner? && g4.stop == g.stop
  {
    hide Inv;
    hide Stored;
    hide At;
    hide Step;
    hide Invoke;
    hide DecidedHold;
    hide Commissionable;
    hide Fresh;
    CalmPart(env, cfg, rows, native, s.t, 40, s.t, 17);
    hide Calm;
    var g1, s1, g2, s2 := HoldDecided(env, cfg, rows, native, g, s);
    var g3, s3;
    g3, s3, g4, s4 := HoldVerified(env, cfg, rows, native, s.t, g2, s2);
    FourNodes(env, cfg, g, s, limit, g1, s1, g2, s2, g3, s3, g4, s4);
  }

  lemma AtPrecheckIs(cfg: Config, g: Graph, d: Durable)
    requires AtPrecheck(cfg, g, d)
    ensures g.next.Validator? && g.phase.Precheck? && g.before.Observation?
  {
    hide SealHolds;
  }

  lemma AtHoldIs(cfg: Config, g: Graph, d: Durable)
    requires AtHold(cfg, g, d)
    ensures g.next.Executor?
  {
    hide SealHolds;
    hide KeyOf;
  }
}
