/**
 The durable values of one agent thread: artifacts, checkpoint, journal tables and native records.

 A content-addressed reference is `kind:digest(value)`. The digest is taken as injective, so a
 reference is modelled by the value it names: two references are equal exactly when kind and
 content are. `NoRef` is the empty reference "".
 */
module AgentTypes {
  import opened Contracts

  datatype Effect = NoOp | NoHoldout | EffectVerified | NoEffect | Regressed

  datatype Verb = ApplyPolicy | HoldPolicy

  datatype Reason = ReplacePolicy | EffectNotVerified

  /** States of one record in the QER adapter's own journal. */
  datatype RecordState = Intent | Applying | Installed | Rollback | Restored | Quarantined

  datatype Record = Record(id: nat, response: string, candidate: string, state: RecordState)

  predicate AllRestored(adapter: seq<Record>) {
    forall r :: r in adapter ==> r.state.Restored?
  }

  /** A record whose native write may be in force and is not being undone. */
  predicate Live(r: Record) {
    r.state.Intent? || r.state.Applying? || r.state.Installed?
  }

  datatype Confirmation = Confirmation(validated: Artifact, executorResponse: string)

  datatype Artifact =
    | NoRef
    | Observation(reading: Reading)
    | Seal(before: Artifact, round: string, generation: nat, sequence: nat,
           sealedRows: seq<Row>, validatedAt: real)
    | Plan(verb: Verb, group: Option<string>, profile: Option<string>, response: string, before: Artifact)
    | Validated(plan: Artifact, before: Artifact, selected: Option<Candidate>,
                round: string, generation: nat, cycle: nat,
                replace: bool, freshHold: bool, alreadyInstalled: bool,
                qerBefore: Option<Inventory>, holdSeal: Artifact,
                precheckResponse: Option<string>, confirmation: Option<Confirmation>)
    | Action(receipt: Record, choice: Candidate, baseline: Inventory, before: Artifact,
             beforeSeal: Artifact, validated: Artifact, executorResponse: Option<string>)
    | HoldDecision(validated: Artifact, round: string, generation: nat, cycle: nat)
    | Verdict(outcome: Effect, improvement: Option<real>, after: Artifact, restore: bool,
              held: Option<Inventory>, validatorResponse: Option<string>)
    | RestoreRequest(round: string, generation: nat, cycle: nat, owned: Artifact,
                     proposal: Artifact, reason: Reason)
    | Restoration(owned: Artifact, response: string)
    | LessonReceipt(lesson: Outcome)
    | HoldCleanup(after: Artifact, verifiedAfter: Artifact, native: Inventory)

  /** The five references an outcome carries when its hold was verified. */
  datatype HeldRefs = HeldRefs(
    plan: Artifact, validated: Artifact, verification: Artifact, before: Artifact, after: Artifact)

  /** One row of the outcome log. `held` is present exactly for `policy_maintained`. */
  datatype Outcome = Outcome(
    iteration: nat, candidateId: Option<string>, outcome: Effect, improvement: Option<real>,
    responseId: string, actionRef: Artifact, held: Option<HeldRefs>)

  // ---------------------------------------------------------------- graph state

  datatype Node = Planner | Executor | Validator | End

  datatype Phase = NoPhase | Precheck | Postcheck | RestoreCheck

  datatype Operation = NoOperation | Apply | Hold | Restore

  datatype Stop = Running | CycleLimit | ScenarioEnded

  /** Error codes, grouped by who may raise them. */
  datatype Code =
    // raised by the planner's own proposal tool, and the only two that are retried
    | UnsupportedCapability
    | HoldHasPolicyArguments
    // refusals that depend on native evidence, time or a collaborator
    | StageFailed
    | ChangeBudgetExhausted
    | RoundChanged
    | SealInvalid
    | UncertainOperation
    | ResultWindowUnavailable
    | HoldNativeChanged
    | HoldResultScopeChanged
    | RestorationDiffers
    // guards over the loop's own durable state
    | ReferenceOutsideRound
    | ValidatedPlanChanged
    | DecisionScopeChanged
    | OperationDenied
    | PhaseDenied
    | NoValidatedHold
    | HoldDecisionChanged
    | HoldConfirmationUnavailable
    | OwnedActionMissing
    | RestoreRequestChanged
    | OutcomeChanged

  predicate Retryable(c: Code) {
    c.UnsupportedCapability? || c.HoldHasPolicyArguments?
  }

  /** Guards that only compare durable state with durable state. */
  predicate Internal(c: Code) {
    c.ReferenceOutsideRound? || c.ValidatedPlanChanged? || c.DecisionScopeChanged? || c.OperationDenied?
    || c.PhaseDenied? || c.NoValidatedHold? || c.HoldDecisionChanged? || c.HoldConfirmationUnavailable?
    || c.OwnedActionMissing? || c.RestoreRequestChanged? || c.OutcomeChanged?
  }

  /** The checkpointed graph state; each alias pair of the source is one field (see StatePatch). */
  datatype Graph = Graph(
    next: Node, cycle: nat, attempt: nat, changes: nat, lastChange: int,
    phase: Phase, operation: Operation,
    before: Artifact, seal: Artifact, plan: Artifact, validated: Artifact, action: Artifact,
    verdict: Artifact, active: Artifact, after: Artifact, request: Artifact,
    error: Option<Code>, stop: Stop)

  function InitialGraph(cfg: Config): Graph {
    Graph(Planner, 0, 0, 0, 0 - cfg.minGap, NoPhase, NoOperation,
          NoRef, NoRef, NoRef, NoRef, NoRef, NoRef, NoRef, NoRef, NoRef, None, Running)
  }

  /** The action whose policy the state owns: the executed one unless it was a hold. */
  function PolicyAction(g: Graph): Artifact {
    if g.action != NoRef && !g.action.HoldDecision? then g.action else g.active
  }

  // ---------------------------------------------------------------- journal

  /** `apply:` + digest([thread, cycle, validated_ref]). */
  datatype OpKey = OpKey(cycle: nat, validated: Artifact)

  datatype Journaled = IntentOnly(plan: Artifact) | Completed(receipt: Record)

  /** `execution:cycle:attempt:operation:` + digest(binding). */
  datatype ExecKey = ExecKey(cycle: nat, attempt: nat, operation: Operation, binding: Artifact)

  datatype Inputs = Inputs(before: Artifact, seal: Artifact)
  datatype PrecheckPatch = PrecheckPatch(validated: Artifact, replace: bool)
  datatype ExecPatch =
    | Held(validated: Artifact, action: Artifact)
    | Applied(action: Artifact, changes: nat, lastChange: int)
    | Kept(action: Artifact)
    | Undone(restoration: Artifact)
  datatype PostPatch = PostPatch(verdict: Artifact, after: Artifact, active: Artifact, restore: bool)
  datatype RestorePatch = RestorePatch(verdict: Artifact)
  datatype LessonPatch = LessonPatch(last: bool)

  /** One call of the adapter's execute, with the inventory that the proof of its decision recorded. */
  datatype NativeWrite = NativeWrite(cycle: nat, attempt: nat, id: nat, baseline: Inventory)

  /** What happened natively, in order; a history for stating properties, read by no step. */
  datatype Event =
    | Executed(write: NativeWrite)
    | RestoreCalled(done: bool)
    | RestoreVerified(id: nat, native: Inventory)

  /** Everything that survives a crash. The snapshot table is split by key prefix. */
  datatype Durable = Durable(
    context: Option<Config>,
    artifacts: set<Artifact>,
    operations: map<OpKey, Journaled>,
    inputs: map<nat, Inputs>,
    proposals: map<(nat, nat), Artifact>,
    prechecks: map<(nat, nat), PrecheckPatch>,
    holds: map<OpKey, Artifact>,
    executions: map<ExecKey, ExecPatch>,
    windows: map<nat, Artifact>,
    postchecks: map<nat, PostPatch>,
    restorations: map<nat, RestorePatch>,
    lessons: map<nat, LessonPatch>,
    outcomes: map<nat, Outcome>,
    graph: Option<Graph>,
    adapter: seq<Record>,
    trace: seq<Event>)

  const EMPTY := Durable(None, {}, map[], map[], map[], map[], map[], map[], map[], map[], map[], map[], map[],
                         None, [], [])

  /** INSERT OR IGNORE: the first writer of a key wins. */
  function FirstWrite<K, V>(m: map<K, V>, k: K, v: V): map<K, V> {
    if k in m then m else m[k := v]
  }
}
