/** What every reachable durable state of the agent loop satisfies. */
module AgentInvariant {
  import opened Contracts
  import opened AgentTypes
  import opened AgentModel
  import opened HoldVerifier

  // ---------------------------------------------------------------- history

  /** The native writes of a history, oldest first. */
  function Writes(trace: seq<Event>): seq<NativeWrite> {
    if trace == [] then []
    else
      var e := trace[|trace| - 1];
      Writes(trace[..|trace| - 1]) + if e.Executed? then [e.write] else []
  }

  /** `reading` undoes the last of `writes`: same action, and the inventory its proof recorded. */
  predicate Undoes(writes: seq<NativeWrite>, id: nat, reading: Inventory) {
    writes != [] && writes[|writes| - 1].id == id && writes[|writes| - 1].baseline == reading
  }

  /**
   Nothing is owed: either no write ever happened, or a later independent reading equalled the
   inventory that the proof of the last write recorded.
   */
  ghost predicate Settled(trace: seq<Event>) {
    trace == []
    || var rest := trace[..|trace| - 1];
       match trace[|trace| - 1]
       case Executed(_) => false
       case RestoreCalled(_) => Settled(rest)
       case RestoreVerified(id, native) => Settled(rest) || Undoes(Writes(rest), id, native)
  }

  /** Every write found nothing owed. */
  ghost predicate Alternating(trace: seq<Event>) {
    trace == []
    || (Alternating(trace[..|trace| - 1])
        && (trace[|trace| - 1].Executed? ==> Settled(trace[..|trace| - 1])))
  }

  lemma HistorySnoc(trace: seq<Event>, e: Event)
    ensures Writes(trace + [e]) == if e.Executed? then Writes(trace) + [e.write] else Writes(trace)
    ensures Alternating(trace + [e]) <==> Alternating(trace) && (e.Executed? ==> Settled(trace))
    ensures e.RestoreCalled? ==> (Settled(trace + [e]) <==> Settled(trace))
    ensures e.RestoreVerified? ==> (Settled(trace + [e]) <==> Settled(trace) || Undoes(Writes(trace), e.id, e.native))
  {
    assert (trace + [e])[..|trace|] == trace;
    assert Writes(trace) + [] == Writes(trace);
  }

  /** The cycle of the last write, or far enough in the past for one to be allowed at once. */
  function LastCycle(cfg: Config, writes: seq<NativeWrite>): int {
    if writes == [] then 0 - cfg.minGap else writes[|writes| - 1].cycle
  }

  ghost predicate Spaced(cfg: Config, writes: seq<NativeWrite>) {
    forall i, j :: 0 <= i < j < |writes| ==> writes[j].cycle - writes[i].cycle >= cfg.minGap
  }

  // ---------------------------------------------------------------- ownership

  /** A write was made that the checkpoint does not count yet. */
  predicate Pending(g: Graph, trace: seq<Event>) {
    |Writes(trace)| == g.changes + 1
  }

  /** The executor is at a decision that may write. */
  predicate AtWrite(g: Graph) {
    g.next.Executor? && g.operation.Apply? && g.validated.Validated? && g.validated.selected.Some?
    && !g.validated.alreadyInstalled
  }

  ghost predicate Budget(cfg: Config, g: Graph, trace: seq<Event>, operations: set<OpKey>) {
    var w := Writes(trace);
    && Spaced(cfg, w) && |w| <= cfg.maxChanges
    && (forall e :: e in w ==> e.cycle <= g.cycle)
    && Alternating(trace)
    && (|w| == g.changes || |w| == g.changes + 1)
    && (|w| == g.changes ==> LastCycle(cfg, w) == g.lastChange)
    && (Pending(g, trace) ==>
          && g.active == NoRef && w[|w| - 1].cycle == g.cycle
          && (g.next.End? || (AtWrite(g) && OpKey(g.cycle, g.validated) in operations))
          && !g.stop.CycleLimit?)
  }

  /** The newest record is the one of the last write. */
  predicate Newest(adapter: seq<Record>, writes: seq<NativeWrite>, id: nat) {
    adapter != [] && writes != [] && id == |adapter| - 1 && writes[|writes| - 1].id == id
  }

  predicate NothingLive(adapter: seq<Record>) {
    forall r :: r in adapter ==> !Live(r)
  }

  /** Only the newest record can be in force, and then the state owns it or is about to. */
  ghost predicate Owned(g: Graph, adapter: seq<Record>, trace: seq<Event>) {
    var n := |adapter|;
    var w := Writes(trace);
    && (forall i :: 0 <= i < n ==> adapter[i].id == i)
    && (forall i :: 0 <= i < n - 1 ==> !Live(adapter[i]))
    && (g.active != NoRef ==>
          && g.active.Action? && !Pending(g, trace)
          && Newest(adapter, w, g.active.receipt.id) && w[|w| - 1].baseline == g.active.baseline)
    && (g.active == NoRef && !Pending(g, trace) ==> NothingLive(adapter) && (g.next.End? || Settled(trace)))
    && (Pending(g, trace) && n > 0 && Live(adapter[n - 1]) ==> Newest(adapter, w, n - 1))
  }

  // ---------------------------------------------------------------- unrestored records

  /** The last call about the record `id` was a restoration that did not complete. */
  ghost predicate Incomplete(trace: seq<Event>, id: int) {
    trace != []
    && var rest := trace[..|trace| - 1];
       match trace[|trace| - 1]
       case RestoreCalled(done) => !done
       case Executed(write) => write.id != id && Incomplete(rest, id)
       case RestoreVerified(_, _) => Incomplete(rest, id)
  }

  /** The last call of the adapter was a restoration that completed. */
  ghost predicate JustRestored(trace: seq<Event>) {
    trace != []
    && match trace[|trace| - 1]
       case RestoreCalled(done) => done
       case Executed(_) => false
       case RestoreVerified(_, _) => JustRestored(trace[..|trace| - 1])
  }

  lemma CallSnoc(trace: seq<Event>, e: Event, id: int)
    ensures Incomplete(trace + [e], id)
       <==> match e
            case RestoreCalled(done) => !done
            case Executed(write) => write.id != id && Incomplete(trace, id)
            case RestoreVerified(_, _) => Incomplete(trace, id)
    ensures JustRestored(trace + [e])
       <==> match e
            case RestoreCalled(done) => done
            case Executed(_) => false
            case RestoreVerified(_, _) => JustRestored(trace)
  {
    assert (trace + [e])[..|trace|] == trace;
  }

  /**
   Every record older than the newest is restored, unless a restoration called after the newest was
   journaled did not complete; and after a completed restoration all of them are.
   */
  ghost predicate Superseded(adapter: seq<Record>, trace: seq<Event>) {
    var n := |adapter|;
    && ((forall i :: 0 <= i < n - 1 ==> adapter[i].state.Restored?) || Incomplete(trace, n - 1))
    && (JustRestored(trace) ==> AllRestored(adapter))
  }

  // ---------------------------------------------------------------- where a row comes from

  /** The proof that the precheck of a cycle froze. */
  function FrozenProof(prechecks: map<(nat, nat), PrecheckPatch>, cycle: nat): Artifact {
    if (cycle, 1) in prechecks then prechecks[(cycle, 1)].validated
    else if (cycle, 0) in prechecks then prechecks[(cycle, 0)].validated
    else NoRef
  }

  predicate Undoing(g: Graph) {
    (g.next.Executor? && g.operation.Restore?) || (g.next.Validator? && g.phase.RestoreCheck?)
  }

  predicate AfterPrecheck(g: Graph) {
    g.next.Executor? || (g.next.Validator? && !g.phase.Precheck?)
  }

  /** The decision under way is the one the precheck froze, apart from its confirmation. */
  predicate Proven(g: Graph, prechecks: map<(nat, nat), PrecheckPatch>) {
    AfterPrecheck(g) ==>
      && g.validated.Validated? && FrozenProof(prechecks, g.cycle) == g.validated.(confirmation := None)
      && (Undoing(g) ==> !g.validated.freshHold)
  }

  /** An executed hold is the decision itself, confirmed. */
  predicate Confirmed(g: Graph, executions: map<ExecKey, ExecPatch>) {
    g.next.Executor? && !g.operation.Restore? && KeyOf(g) in executions && executions[KeyOf(g)].Held? ==>
      && g.validated.Validated? && executions[KeyOf(g)].validated.Validated?
      && executions[KeyOf(g)].validated.(confirmation := None) == g.validated.(confirmation := None)
  }

  /** A hold is verified exactly for a proof that decided it afresh, and over the cycle's own window. */
  predicate Compared(g: Graph, verdict: Artifact, windows: map<nat, Artifact>) {
    && verdict.Verdict? && g.validated.Validated? && (verdict.held.Some? <==> g.validated.freshHold)
    && (verdict.held.Some? ==> g.cycle in windows && windows[g.cycle] == verdict.after)
  }

  /** The row of a cycle says what its precheck and its window froze. */
  predicate SourcedRow(proof: Artifact, windows: map<nat, Artifact>, c: nat, o: Outcome) {
    && proof.Validated? && (o.held.Some? <==> proof.freshHold)
    && (o.held.Some? ==>
          && o.held.value.validated.Validated? && o.held.value.validated.(confirmation := None) == proof
          && c in windows && o.held.value.after == windows[c])
  }

  predicate Sourced(prechecks: map<(nat, nat), PrecheckPatch>, windows: map<nat, Artifact>, outcomes: map<nat, Outcome>) {
    forall c :: c in outcomes ==> SourcedRow(FrozenProof(prechecks, c), windows, c, outcomes[c])
  }

  predicate Provenance(g: Graph, prechecks: map<(nat, nat), PrecheckPatch>, executions: map<ExecKey, ExecPatch>,
                       windows: map<nat, Artifact>, postchecks: map<nat, PostPatch>, outcomes: map<nat, Outcome>) {
    && Proven(g, prechecks) && Confirmed(g, executions)
    && (g.next.Validator? && g.phase.Postcheck? && g.cycle in postchecks ==>
          Compared(g, postchecks[g.cycle].verdict, windows))
    && Sourced(prechecks, windows, outcomes)
  }

  // ---------------------------------------------------------------- the cycle's references

  predicate InTable(arts: set<Artifact>, a: Artifact) {
    a == NoRef || a in arts
  }

  predicate GoodReading(cfg: Config, a: Artifact) {
    a.Observation? && a.reading.round == cfg.round && a.reading.generation == cfg.generation
    && |a.reading.rows| == cfg.totalUes && DistinctSupis(a.reading.rows)
  }

  predicate GoodInputs(cfg: Config, arts: set<Artifact>, before: Artifact, seal: Artifact) {
    before in arts && seal in arts && GoodReading(cfg, before)
  }

  predicate GoodPlan(arts: set<Artifact>, plan: Artifact, before: Artifact) {
    && plan in arts && plan.Plan? && plan.before == before
    && (plan.verb.HoldPolicy? ==> plan.group.None? && plan.profile.None?)
  }

  predicate GoodProof(cfg: Config, g: Graph, v: Artifact) {
    && v.Validated? && v.plan == g.plan && v.before == g.before && g.plan.Plan? && g.before.Observation?
    && v.round == cfg.round && v.generation == cfg.generation && v.cycle == g.cycle
    && v.confirmation.None?
    && (v.freshHold <==> g.plan.verb.HoldPolicy? && g.active == NoRef)
    && (v.selected.Some? ==> g.plan.verb.ApplyPolicy?)
    && (v.replace ==> g.active.Action?)
    && (v.alreadyInstalled ==> v.selected.Some? && g.active.Action? && v.selected.value.id == g.active.choice.id)
    && (v.selected.Some? && !v.replace && !v.alreadyInstalled ==>
          g.active == NoRef && v.qerBefore.Some? && CanChange(cfg, g))
    && (v.freshHold ==>
          && v.selected.None? && !v.replace && v.holdSeal == g.seal && SealHolds(cfg, g.before, g.seal)
          && v.qerBefore.Some? && NativeFor(cfg, g.before.reading.rows, v.qerBefore.value)
          && v.precheckResponse.Some?)
  }

  /** A confirmed hold, as the postcheck finds it. */
  predicate GoodHold(cfg: Config, arts: set<Artifact>, g: Graph) {
    && g.action.HoldDecision? && g.validated.Validated? && g.validated.confirmation.Some?
    && g.validated.confirmation.value.validated in arts
    && g.validated.confirmation.value.validated == g.validated.(confirmation := None)
    && GoodProof(cfg, g, g.validated.(confirmation := None)) && g.validated.selected.None?
  }

  predicate GoodApplied(g: Graph) {
    g.action == g.active && g.active.Action? && g.validated.Validated? && !g.validated.freshHold
  }

  /** A policy is restored exactly when its effect was not verified; without one nothing is. */
  predicate GoodVerdict(verdict: Artifact, active: Artifact) {
    && verdict.Verdict?
    && (active != NoRef ==> (verdict.restore <==> verdict.outcome != EffectVerified) && verdict.held.None?)
    && (active == NoRef ==> !verdict.restore)
  }

  /** Everything the verifier reads back from a verified hold of this cycle. */
  predicate GoodHeld(cfg: Config, arts: set<Artifact>, g: Graph, verdict: Artifact) {
    verdict.Verdict? && (verdict.held.Some? ==>
      && g.plan.Plan?
      && ChainAccepted(Published(cfg.round, cfg.generation, cfg.totalUes), arts + {verdict},
           Outcome(g.cycle, None, verdict.outcome, verdict.improvement, g.plan.response, NoRef,
                   Some(HeldRefs(g.plan, g.validated, verdict, g.before, verdict.after)))))
  }

  // ---------------------------------------------------------------- what each snapshot holds

  predicate CycleReady(cfg: Config, arts: set<Artifact>, g: Graph) {
    && g.cycle < cfg.maxCycles && g.stop.Running? && g.error.None?
    && GoodInputs(cfg, arts, g.before, g.seal) && GoodPlan(arts, g.plan, g.before)
  }

  predicate GoodPrecheck(cfg: Config, arts: set<Artifact>, g: Graph, p: PrecheckPatch) {
    && p.validated in arts && GoodProof(cfg, g, p.validated) && p.replace == p.validated.replace
  }

  ghost predicate GoodExec(cfg: Config, g: Graph, d: Durable, p: ExecPatch) {
    match p
    case Held(validated, action) =>
      g.operation.Hold? && action in d.artifacts && validated in d.artifacts
      && validated.Validated? && g.validated.Validated?
      && validated.(confirmation := None) == g.validated.(confirmation := None)
      && GoodHold(cfg, d.artifacts, g.(validated := validated, action := action))
    case Applied(action, changes, lastChange) =>
      && AtWrite(g) && Pending(g, d.trace) && action in d.artifacts && action.Action?
      && changes == g.changes + 1 && lastChange == g.cycle
      && Newest(d.adapter, Writes(d.trace), action.receipt.id)
      && Writes(d.trace)[|Writes(d.trace)| - 1].baseline == action.baseline
    case Kept(action) => g.operation.Apply? && !AtWrite(g) && action == g.active && g.active.Action?
    case Undone(_) => g.operation.Restore? && NothingLive(d.adapter)
  }

  predicate GoodPost(cfg: Config, arts: set<Artifact>, g: Graph, p: PostPatch) {
    && p.verdict in arts && InTable(arts, p.after) && (p.after == NoRef || p.after.Observation?)
    && p.active == g.active && p.verdict.Verdict? && p.restore == p.verdict.restore
    && GoodVerdict(p.verdict, p.active) && GoodHeld(cfg, arts, g, p.verdict)
  }

  ghost predicate GoodRestored(g: Graph, arts: set<Artifact>, trace: seq<Event>, p: RestorePatch) {
    && p.verdict in arts && Settled(trace) && p.verdict.Verdict? && p.verdict.held.None?
  }

  predicate GoodLesson(cfg: Config, g: Graph, d: Durable) {
    g.cycle in d.lessons ==>
      g.cycle in d.outcomes && d.lessons[g.cycle] == LessonPatch(g.cycle + 1 >= cfg.maxCycles)
  }

  // ---------------------------------------------------------------- keys of the current cycle

  predicate NoPrechecks(d: Durable, c: nat) {
    forall k :: k in d.prechecks ==> k.0 != c
  }

  predicate NoExecutions(d: Durable, c: nat) {
    && (forall k :: k in d.executions ==> k.cycle != c)
    && (forall k :: k in d.operations ==> k.cycle != c)
    && (forall k :: k in d.holds ==> k.cycle != c)
  }

  predicate NoRestores(d: Durable, c: nat) {
    forall k :: k in d.executions && k.cycle == c ==> !k.operation.Restore?
  }

  predicate OnlyRestore(d: Durable, key: ExecKey) {
    forall k :: k in d.executions && k.cycle == key.cycle && k.operation.Restore? ==> k == key
  }

  predicate NoResult(d: Durable, c: nat) {
    c !in d.windows && c !in d.postchecks && c !in d.restorations
  }

  predicate NoLesson(d: Durable, c: nat) {
    c !in d.lessons && c !in d.outcomes
  }

  // ---------------------------------------------------------------- per program point

  predicate PlannerPoint(cfg: Config, g: Graph, d: Durable) {
    && g.cycle < cfg.maxCycles && g.stop.Running? && g.error.None?
    && NoPrechecks(d, g.cycle) && NoExecutions(d, g.cycle) && NoResult(d, g.cycle) && NoLesson(d, g.cycle)
    && (g.cycle in d.inputs ==>
          GoodInputs(cfg, d.artifacts, d.inputs[g.cycle].before, d.inputs[g.cycle].seal))
    && ((g.cycle, g.attempt) in d.proposals ==>
          g.cycle in d.inputs && GoodPlan(d.artifacts, d.proposals[(g.cycle, g.attempt)], d.inputs[g.cycle].before))
  }

  predicate PrecheckPoint(cfg: Config, g: Graph, d: Durable) {
    && CycleReady(cfg, d.artifacts, g)
    && g.action == NoRef && g.verdict == NoRef
    && NoExecutions(d, g.cycle) && NoResult(d, g.cycle) && NoLesson(d, g.cycle)
    && ((g.cycle, g.attempt) in d.prechecks ==>
          GoodPrecheck(cfg, d.artifacts, g, d.prechecks[(g.cycle, g.attempt)]))
  }

  /** The last write found the inventory that the current proof recorded. */
  predicate WroteFrom(g: Graph, trace: seq<Event>) {
    var w := Writes(trace);
    w != [] && g.validated.Validated? && g.validated.qerBefore == Some(w[|w| - 1].baseline)
  }

  /** The journal entry of the write the executor is about to make, made, or is replaying. */
  ghost predicate WriteState(g: Graph, d: Durable) {
    var op := OpKey(g.cycle, g.validated);
    && (op in d.operations && d.operations[op].Completed? ==>
          Pending(g, d.trace) && Newest(d.adapter, Writes(d.trace), d.operations[op].receipt.id))
    && (Pending(g, d.trace) ==> WroteFrom(g, d.trace))
  }

  ghost predicate DecisionPoint(cfg: Config, g: Graph, d: Durable) {
    && CycleReady(cfg, d.artifacts, g) && NoLesson(d, g.cycle)
    && (KeyOf(g) in d.executions ==> GoodExec(cfg, g, d, d.executions[KeyOf(g)]))
    && g.validated in d.artifacts && GoodProof(cfg, g, g.validated) && !g.validated.replace
    && g.operation.Apply? == g.validated.selected.Some?
    && g.action == NoRef && g.verdict == NoRef && NoRestores(d, g.cycle) && NoResult(d, g.cycle)
    && (OpKey(g.cycle, g.validated) in d.holds ==>
          d.holds[OpKey(g.cycle, g.validated)] == HoldDecision(g.validated, cfg.round, cfg.generation, g.cycle))
    && (AtWrite(g) ==> WriteState(g, d))
  }

  /** A verdict already given in this cycle never verified a hold when a restoration follows. */
  predicate EarlierVerdict(arts: set<Artifact>, verdict: Artifact) {
    verdict != NoRef ==> verdict in arts && verdict.Verdict? && verdict.held.None?
  }

  ghost predicate RestorePoint(cfg: Config, g: Graph, d: Durable) {
    && CycleReady(cfg, d.artifacts, g) && NoLesson(d, g.cycle)
    && (KeyOf(g) in d.executions ==> GoodExec(cfg, g, d, d.executions[KeyOf(g)]))
    && g.active.Action? && PolicyAction(g) == g.active && RequestMatches(cfg, g)
    && g.request in d.artifacts && OnlyRestore(d, KeyOf(g)) && g.cycle !in d.restorations
    && EarlierVerdict(d.artifacts, g.verdict)
  }

  predicate PostcheckPoint(cfg: Config, g: Graph, d: Durable) {
    && CycleReady(cfg, d.artifacts, g)
    && g.validated in d.artifacts && g.action in d.artifacts && g.verdict == NoRef
    && (GoodHold(cfg, d.artifacts, g) || GoodApplied(g))
    && NoRestores(d, g.cycle) && g.cycle !in d.restorations
    && (g.cycle in d.postchecks ==> GoodPost(cfg, d.artifacts, g, d.postchecks[g.cycle]))
    && GoodLesson(cfg, g, d)
    && (g.cycle in d.outcomes ==>
          && g.cycle in d.postchecks && !d.postchecks[g.cycle].restore
          && d.outcomes[g.cycle] == OutcomeOf(Postchecked(g, d.postchecks[g.cycle])))
  }

  ghost predicate RestoreCheckPoint(cfg: Config, g: Graph, d: Durable) {
    && CycleReady(cfg, d.artifacts, g)
    && g.active.Action? && PolicyAction(g) == g.active && NothingLive(d.adapter)
    && EarlierVerdict(d.artifacts, g.verdict)
    && (g.cycle in d.restorations ==> GoodRestored(g, d.artifacts, d.trace, d.restorations[g.cycle]))
    && GoodLesson(cfg, g, d)
    && (g.cycle in d.outcomes ==>
          && g.cycle in d.restorations
          && d.outcomes[g.cycle] == OutcomeOf(g.(active := NoRef, verdict := d.restorations[g.cycle].verdict)))
  }

  predicate EndPoint(cfg: Config, g: Graph, d: Durable) {
    && (g.stop.CycleLimit? ==>
          && g.error.None? && g.cycle == cfg.maxCycles && g.cycle !in d.outcomes
          && (g.active != NoRef ==>
                g.verdict.Verdict? && g.verdict.outcome.EffectVerified?
                && g.cycle > 0 && g.cycle - 1 in d.outcomes && d.outcomes[g.cycle - 1].outcome.EffectVerified?
                && d.outcomes[g.cycle - 1].actionRef == g.active))
    && (g.stop.ScenarioEnded? ==> g.cycle !in d.outcomes)
    && (g.error.Some? ==> !Internal(g.error.value))
  }

  ghost predicate Point(cfg: Config, g: Graph, d: Durable) {
    match g.next
    case Planner => PlannerPoint(cfg, g, d)
    case Validator =>
      (match g.phase
       case NoPhase => false
       case Precheck => PrecheckPoint(cfg, g, d)
       case Postcheck => PostcheckPoint(cfg, g, d)
       case RestoreCheck => RestoreCheckPoint(cfg, g, d))
    case Executor =>
      (match g.operation
       case NoOperation => false
       case Restore => RestorePoint(cfg, g, d)
       case _ => DecisionPoint(cfg, g, d))
    case End => EndPoint(cfg, g, d)
  }

  // ---------------------------------------------------------------- the invariant

  /** Nothing is keyed by a later cycle or attempt. */
  predicate NoFuture(cycle: nat, attempt: nat, d: Durable) {
    && (forall c :: c in d.inputs ==> c <= cycle)
    && (forall k :: k in d.proposals ==> k.0 < cycle || (k.0 == cycle && k.1 <= attempt))
    && (forall k :: k in d.prechecks ==> k.0 < cycle || (k.0 == cycle && k.1 <= attempt))
    && (forall k :: k in d.executions ==> k.cycle <= cycle)
    && (forall k :: k in d.operations ==> k.cycle <= cycle)
    && (forall k :: k in d.holds ==> k.cycle <= cycle)
    && (forall c :: c in d.windows ==> c <= cycle)
    && (forall c :: c in d.postchecks ==> c <= cycle)
    && (forall c :: c in d.restorations ==> c <= cycle)
    && (forall c :: c in d.lessons ==> c <= cycle)
  }

  /** The logged row of cycle c, with every hold acceptable to the independent verifier. */
  predicate GoodRow(cfg: Config, arts: set<Artifact>, c: nat, o: Outcome) {
    && o.iteration == c
    && (o.held.Some? ==> ChainAccepted(Published(cfg.round, cfg.generation, cfg.totalUes), arts, o))
  }

  /** Exactly one row for every finished cycle, and at most one for the current one. */
  predicate Log(cfg: Config, cycle: nat, arts: set<Artifact>, outcomes: map<nat, Outcome>) {
    && (forall c: nat :: c < cycle ==> c in outcomes)
    && (forall c :: c in outcomes ==> c <= cycle && GoodRow(cfg, arts, c, outcomes[c]))
  }

  predicate Windows(arts: set<Artifact>, windows: map<nat, Artifact>) {
    forall c :: c in windows ==> windows[c] in arts && windows[c].Observation?
  }

  predicate Shape(cfg: Config, g: Graph, arts: set<Artifact>) {
    && g.attempt <= 1 && g.cycle <= cfg.maxCycles
    && InTable(arts, g.active) && InTable(arts, g.after) && InTable(arts, g.action)
    && (g.after == NoRef || g.after.Observation?)
  }

  /** The invariant of a checkpoint `g` over durable tables `d`. */
  ghost predicate Inv(cfg: Config, g: Graph, d: Durable) {
    && Shape(cfg, g, d.artifacts)
    && Windows(d.artifacts, d.windows)
    && Budget(cfg, g, d.trace, d.operations.Keys)
    && Owned(g, d.adapter, d.trace)
    && Superseded(d.adapter, d.trace)
    && Provenance(g, d.prechecks, d.executions, d.windows, d.postchecks, d.outcomes)
    && NoFuture(g.cycle, g.attempt, d)
    && Log(cfg, g.cycle, d.artifacts, d.outcomes)
    && Point(cfg, g, d)
  }

  /** No collaborator raises either of the two codes that the planner's own proposal tool raises. */
  ghost predicate Quiet(env: Env) {
    forall t: nat :: !env(t).fate.RaisesRetryable?
  }
}
