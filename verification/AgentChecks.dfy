/** Each check of the validator after execution, wherever it stops, keeps the invariant. */
module AgentChecks {
  import opened Contracts
  import opened AgentTypes
  import opened AgentModel
  import opened HoldVerifier
  import opened AgentInvariant
  import opened AgentFrames
  import opened AgentWrites
  import opened AgentCommits
  import opened AgentSteps

  // ---------------------------------------------------------------- the measured window

  predicate AtPostcheck(g: Graph) {
    g.next.Validator? && g.phase.Postcheck?
  }

  lemma PostcheckFacts(cfg: Config, g: Graph, d: Durable)
    requires Inv(cfg, g, d) && AtPostcheck(g)
    ensures CycleReady(cfg, d.artifacts, g) && g.validated in d.artifacts && g.action in d.artifacts
    ensures GoodHold(cfg, d.artifacts, g) || GoodApplied(g)
    ensures g.cycle in d.postchecks ==> GoodPost(cfg, d.artifacts, g, d.postchecks[g.cycle])
    ensures g.cycle in d.windows ==> d.windows[g.cycle] in d.artifacts && d.windows[g.cycle].Observation?
  {
    hide Superseded;
    hide Provenance;
    hide Budget;
    hide Owned;
    hide Log;
    hide GoodProof;
    hide GoodPost;
  }

  /** A reference that is absent or names a stored observation. */
  predicate Measured(arts: set<Artifact>, after: Artifact) {
    after == NoRef || (after in arts && after.Observation?)
  }

  /** The window of this cycle. */
  predicate InWindow(g: Graph, windows: map<nat, Artifact>, after: Artifact) {
    g.cycle in windows && windows[g.cycle] == after
  }

  lemma StoreWindowKeep(env: Env, cfg: Config, g: Graph, after: Artifact, s: St)
    requires Quiet(env) && Inv(cfg, g, s.d) && AtPostcheck(g) && after.Observation? && g.cycle !in s.d.windows
    ensures var r := StoreWindow(env, g, after, s);
      Safe(cfg, g, s, r) && r.s.d.postchecks == s.d.postchecks
      && (r.Ok? ==> r.v == after && after in r.s.d.artifacts && InWindow(g, r.s.d.windows, after))
  {
    hide Inv;
    hide Put;
    hide Draw;
    var r1 := Put(env, s, after);
    PutKeep(env, cfg, g, s, after);
    if r1.Fail? { return; }
    var r2 := Draw(env, r1.s, false);
    DrawFacts(env, r1.s, false);
    if r2.Fail? { return; }
    InvWindow(cfg, g, r2.s.d, after);
  }

  lemma MeasureKeep(env: Env, cfg: Config, g: Graph, needed: bool, s: St)
    requires Quiet(env) && Inv(cfg, g, s.d) && AtPostcheck(g)
    ensures var r := Measure(env, cfg, g, needed, s);
      Safe(cfg, g, s, r) && r.s.d.postchecks == s.d.postchecks
      && (r.Ok? ==> Measured(r.s.d.artifacts, r.v) && (needed ==> r.v != NoRef)
                    && (r.v != NoRef ==> InWindow(g, r.s.d.windows, r.v)))
  {
    hide Inv;
    hide Draw;
    hide StoreWindow;
    hide Accepts;
    hide CycleReady;
    hide GoodHold;
    hide GoodApplied;
    hide GoodPost;
    PostcheckFacts(cfg, g, s.d);
    if g.cycle in s.d.windows { return; }
    var r1 := Draw(env, s, true);
    DrawFacts(env, s, true);
    if r1.Fail? { return; }
    StoreWindowKeep(env, cfg, g, Observation(r1.v.reading), r1.s);
  }

  // ---------------------------------------------------------------- the verdict

  /** The verdict of a confirmed hold passes the independent verifier's chain. */
  lemma HeldChain(cfg: Config, arts: set<Artifact>, g: Graph, after: Artifact, native: Inventory, response: string)
    requires cfg.Valid() && CycleReady(cfg, arts, g) && GoodHold(cfg, arts, g) && g.validated.freshHold
    requires g.validated in arts && after in arts && after.Observation?
    requires SameScope(g.before.reading, after.reading) && Some(native) == g.validated.qerBefore
    ensures GoodHeld(cfg, arts, g, Verdict(NoOp, None, after, false, Some(native), Some(response)))
  {
    hide DistinctSupis;
    hide SameBinding;
  }

  /** What the comparison may conclude. */
  ghost predicate Concluded(cfg: Config, arts: set<Artifact>, g: Graph, verdict: Artifact) {
    && verdict.Verdict? && g.validated.Validated? && (verdict.held.Some? <==> g.validated.freshHold) && Measured(arts, verdict.after) && GoodVerdict(verdict, g.active)
    && forall response :: GoodHeld(cfg, arts, g, SignedVerdict(verdict, response))
  }

  lemma PolicyIsActive(cfg: Config, arts: set<Artifact>, g: Graph)
    requires GoodHold(cfg, arts, g) || GoodApplied(g)
    ensures PolicyAction(g) == g.active
    ensures g.validated.Validated? && (g.validated.freshHold ==> GoodHold(cfg, arts, g) && g.active == NoRef)
    ensures g.active == NoRef ==> GoodHold(cfg, arts, g)
  {
    hide SealHolds;
    hide NativeFor;
  }

  /** Without a verified hold there is no chain to accept. */
  lemma NothingHeld(cfg: Config, arts: set<Artifact>, g: Graph, verdict: Artifact)
    requires verdict.Verdict? && verdict.held.None? && Measured(arts, verdict.after) && GoodVerdict(verdict, g.active)
    requires g.validated.Validated? && !g.validated.freshHold
    ensures Concluded(cfg, arts, g, verdict)
  {
  }

  lemma HoldConcluded(cfg: Config, arts: set<Artifact>, g: Graph, after: Artifact, native: Inventory)
    requires cfg.Valid() && CycleReady(cfg, arts, g) && GoodHold(cfg, arts, g) && g.validated.freshHold
    requires g.validated in arts && after in arts && after.Observation? && g.active == NoRef
    requires SameScope(g.before.reading, after.reading) && Some(native) == g.validated.qerBefore
    ensures Concluded(cfg, arts, g, Verdict(NoOp, None, after, false, Some(native), None))
  {
    assert g.validated.Validated?;
    hide GoodHeld;
    hide SameScope;
    hide CycleReady;
    hide GoodHold;
    var verdict := Verdict(NoOp, None, after, false, Some(native), None);
    forall response ensures GoodHeld(cfg, arts, g, SignedVerdict(verdict, response)) {
      HeldChain(cfg, arts, g, after, native, response);
    }
  }

  lemma CompareFacts(env: Env, cfg: Config, g: Graph, after: Artifact, s: St)
    requires cfg.Valid() && Quiet(env) && CycleReady(cfg, s.d.artifacts, g) && g.validated in s.d.artifacts
    requires GoodHold(cfg, s.d.artifacts, g) || GoodApplied(g)
    requires g.validated.Validated? && Measured(s.d.artifacts, after)
    requires (g.active != NoRef || g.validated.freshHold) ==> after != NoRef
    ensures var r := Compare(env, cfg, g, after, s);
      r.s.d == s.d
      && (r.Fail? && r.why.Raise? ==> !Internal(r.why.code) && !Retryable(r.why.code))
      && (r.Ok? ==> Concluded(cfg, s.d.artifacts, g, r.v) && r.v.after == after)
  {
    hide CycleReady;
    hide GoodApplied;
    hide Draw;
    hide Accepts;
    hide SameScope;
    hide NativeFor;
    hide Concluded;
    hide GoodProof;
    PolicyIsActive(cfg, s.d.artifacts, g);
    hide PolicyAction;
    var r0 := Draw(env, s, false);
    DrawFacts(env, s, false);
    if r0.Fail? { return; }
    var r := Compare(env, cfg, g, after, s);
    if r.Ok? {
      if r.v.held.Some? {
        hide GoodHold;
        HoldConcluded(cfg, s.d.artifacts, g, after, r.v.held.value);
      } else {
        hide GoodHold;
        NothingHeld(cfg, s.d.artifacts, g, r.v);
      }
    }
  }

  lemma HeldHasWindow(env: Env, cfg: Config, g: Graph, after: Artifact, s: St)
    requires g.validated.Validated?
    ensures var r := Compare(env, cfg, g, after, s);
      r.Ok? && r.v.held.Some? ==> after != NoRef
  {
    hide Draw;
    hide Accepts;
    hide SameScope;
    hide NativeFor;
    hide PolicyAction;
  }

  lemma JudgeKeep(env: Env, cfg: Config, g: Graph, s: St)
    requires cfg.Valid() && Quiet(env) && Inv(cfg, g, s.d) && AtPostcheck(g) && g.validated.Validated?
    ensures var r := Judge(env, cfg, g, s);
      Safe(cfg, g, s, r) && r.s.d.postchecks == s.d.postchecks
      && (r.Ok? ==> Concluded(cfg, r.s.d.artifacts, g, r.v) && Compared(g, r.v, r.s.d.windows))
  {
    hide Inv;
    hide Draw;
    hide Measure;
    hide Compare;
    hide CycleReady;
    hide GoodHold;
    hide GoodApplied;
    hide GoodPost;
    var r1 := Draw(env, s, g.cycle !in s.d.windows);
    DrawFacts(env, s, g.cycle !in s.d.windows);
    if r1.Fail? { return; }
    PostcheckFacts(cfg, g, s.d);
    PolicyIsActive(cfg, s.d.artifacts, g);
    var needed := PolicyAction(g) != NoRef || g.validated.freshHold;
    hide PolicyAction;
    var r2 := Measure(env, cfg, g, needed, r1.s);
    MeasureKeep(env, cfg, g, needed, r1.s);
    if r2.Fail? { return; }
    var r3 := Need(r2.s, if r2.v != NoRef then {r2.v} else {});
    assert r3 == Ok(r2.s, ());
    PostcheckFacts(cfg, g, r2.s.d);
    CompareFacts(env, cfg, g, r2.v, r2.s);
    HeldHasWindow(env, cfg, g, r2.v, r2.s);
    hide GoodVerdict;
    hide GoodHeld;
  }

  lemma StoreVerdictKeep(env: Env, cfg: Config, g: Graph, verdict: Artifact, response: string, s: St)
    requires Quiet(env) && Inv(cfg, g, s.d) && AtPostcheck(g) && g.cycle !in s.d.postchecks
    requires Concluded(cfg, s.d.artifacts, g, verdict) && Compared(g, verdict, s.d.windows)
    ensures var r := StoreVerdict(env, g, verdict, response, s);
      Safe(cfg, g, s, r)
      && (r.Ok? ==> g.cycle in r.s.d.postchecks && r.s.d.postchecks[g.cycle] == r.v)
  {
    hide Inv;
    hide Put;
    hide Draw;
    hide GoodHeld;
    hide CycleReady;
    hide GoodHold;
    hide GoodApplied;
    var signed := SignedVerdict(verdict, response);
    var r1 := Put(env, s, signed);
    PutKeep(env, cfg, g, s, signed);
    if r1.Fail? { return; }
    var r2 := Draw(env, r1.s, false);
    DrawFacts(env, r1.s, false);
    if r2.Fail? { return; }
    PostcheckFacts(cfg, g, r2.s.d);
    PolicyIsActive(cfg, r2.s.d.artifacts, g);
    hide PolicyAction;
    HeldGrown(cfg, s.d.artifacts, r2.s.d.artifacts, g, signed);
    InvPost(cfg, g, r2.s.d, PostPatch(signed, verdict.after, g.active, verdict.restore));
  }

  lemma CheckEffectKeep(env: Env, cfg: Config, g: Graph, s: St)
    requires cfg.Valid() && Quiet(env) && Inv(cfg, g, s.d) && AtPostcheck(g) && g.cycle !in s.d.postchecks
    ensures var r := CheckEffect(env, cfg, g, s);
      Safe(cfg, g, s, r)
      && (r.Ok? ==> g.cycle in r.s.d.postchecks && r.s.d.postchecks[g.cycle] == r.v)
  {
    hide Inv;
    hide Draw;
    hide Judge;
    hide StoreVerdict;
    hide GoodPlan;
    hide GoodHold;
    hide GoodApplied;
    hide GoodPost;
    hide SealHolds;
    hide PolicyAction;
    PostcheckFacts(cfg, g, s.d);
    PolicyIsActive(cfg, s.d.artifacts, g);
    ShapeOf(cfg, g, s.d);
    var r0 := Need(s, PostcheckRefs(g));
    assert r0 == Ok(s, ());
    hide PostcheckRefs;
    if g.validated.freshHold && !SealHolds(cfg, g.before, g.validated.holdSeal) { return; }
    var r1 := Judge(env, cfg, g, s);
    JudgeKeep(env, cfg, g, s);
    if r1.Fail? { return; }
    var r2 := Draw(env, r1.s, false);
    DrawFacts(env, r1.s, false);
    if r2.Fail? { return; }
    StoreVerdictKeep(env, cfg, g, r1.v, r2.v.response, r2.s);
  }

  // ---------------------------------------------------------------- learning

  lemma StoreLessonKeep(env: Env, cfg: Config, g: Graph, g1: Graph, row: Outcome, s: St)
    requires Quiet(env) && Inv(cfg, g, s.d) && Learning(g, s.d, g1) && g1.cycle == g.cycle
    requires g.cycle in s.d.outcomes && g.cycle !in s.d.lessons
    ensures var r := StoreLesson(env, cfg, g1, row, s);
      Safe(cfg, g, s, r) && Learning(g, r.s.d, g1)
      && (r.Ok? ==> g.cycle in r.s.d.lessons && r.s.d.lessons[g.cycle] == r.v)
  {
    hide Inv;
    hide Put;
    hide Draw;
    var r1 := Put(env, s, LessonReceipt(row));
    PutKeep(env, cfg, g, s, LessonReceipt(row));
    if r1.Fail? { return; }
    var r2 := Draw(env, r1.s, false);
    DrawFacts(env, r1.s, false);
    if r2.Fail? { return; }
    var r3 := Draw(env, r2.s, false);
    DrawFacts(env, r2.s, false);
    if r3.Fail? { return; }
    InvLesson(cfg, g, r3.s.d, g1);
  }

  /** The row is logged once, and is the one a replay would log. */
  lemma RowKeep(cfg: Config, g: Graph, g1: Graph, d: Durable)
    requires Inv(cfg, g, d) && Learning(g, d, g1)
    requires g1.plan.Plan? && g1.verdict.Verdict?
    ensures g.cycle in d.outcomes ==> d.outcomes[g.cycle] == OutcomeOf(g1)
    ensures var d2 := d.(outcomes := FirstWrite(d.outcomes, g.cycle, OutcomeOf(g1)));
      Inv(cfg, g, d2) && Learning(g, d2, g1) && g.cycle in d2.outcomes
  {
    hide Inv;
    hide OutcomeOf;
    hide GoodRow;
    LogRow(cfg, g, d, g1);
    if g.cycle !in d.outcomes {
      InvOutcome(cfg, g, d, g1);
    } else {
      assert d.(outcomes := FirstWrite(d.outcomes, g.cycle, OutcomeOf(g1))) == d;
    }
  }

  /** What Learn reads: every reference is stored. */
  function LearnRefs(g1: Graph): set<Artifact> {
    {g1.plan, g1.verdict, g1.before} + if PolicyAction(g1) != NoRef then {PolicyAction(g1)} else {}
  }

  lemma LearnReads(cfg: Config, g: Graph, d: Durable, g1: Graph)
    requires Inv(cfg, g, d) && Learning(g, d, g1)
    ensures LearnRefs(g1) <= d.artifacts
  {
    hide Inv;
    hide Learning;
    hide OutcomeOf;
    hide GoodRow;
    hide PolicyAction;
    LogRow(cfg, g, d, g1);
  }

  /** Learning once the row is in the log. */
  lemma LearnLogged(env: Env, cfg: Config, g: Graph, g1: Graph, s: St)
    requires Quiet(env) && Inv(cfg, g, s.d) && Learning(g, s.d, g1) && g.cycle !in s.d.lessons && g1.cycle == g.cycle
    requires g1.plan.Plan? && g1.verdict.Verdict?
    ensures var s2 := s.(d := s.d.(outcomes := FirstWrite(s.d.outcomes, g.cycle, OutcomeOf(g1))));
      var r := StoreLesson(env, cfg, g1, OutcomeOf(g1), s2);
      (g.cycle in s.d.outcomes ==> s.d.outcomes[g.cycle] == OutcomeOf(g1))
      && Safe(cfg, g, s, r) && Learning(g, r.s.d, g1)
      && (r.Ok? ==> g.cycle in r.s.d.lessons && r.s.d.lessons[g.cycle] == r.v)
  {
    hide Inv;
    hide StoreLesson;
    hide OutcomeOf;
    hide Learning;
    RowKeep(cfg, g, g1, s.d);
    var d2 := s.d.(outcomes := FirstWrite(s.d.outcomes, g.cycle, OutcomeOf(g1)));
    StoreLessonKeep(env, cfg, g, g1, OutcomeOf(g1), s.(d := d2));
  }

  lemma LearnKeep(env: Env, cfg: Config, g: Graph, g1: Graph, s: St)
    requires Quiet(env) && Inv(cfg, g, s.d) && Learning(g, s.d, g1) && g.cycle !in s.d.lessons
    ensures var r := Learn(env, cfg, g1, s);
      Safe(cfg, g, s, r) && Learning(g, r.s.d, g1)
      && (r.Ok? ==> g.cycle in r.s.d.lessons && r.s.d.lessons[g.cycle] == r.v)
  {
    hide Inv;
    hide Draw;
    hide StoreLesson;
    hide OutcomeOf;
    hide GoodRow;
    hide PolicyAction;
    hide Learning;
    LogRow(cfg, g, s.d, g1);
    LearnReads(cfg, g, s.d, g1);
    var r1 := Draw(env, s, false);
    DrawFacts(env, s, false);
    if r1.Fail? { return; }
    var r2 := Draw(env, r1.s, false);
    DrawFacts(env, r1.s, false);
    if r2.Fail? { return; }
    LearnLogged(env, cfg, g, g1, r2.s);
  }

  lemma FinishKeep(env: Env, cfg: Config, g: Graph, g1: Graph, s: St)
    requires cfg.Valid() && Quiet(env) && Inv(cfg, g, s.d) && Learning(g, s.d, g1) && g1.cycle == g.cycle
    ensures var r := Finish(env, cfg, g1, s);
      Safe(cfg, g, s, r) && (r.Ok? ==> Inv(cfg, r.v, r.s.d))
  {
    hide Inv;
    hide Learn;
    hide Learning;
    var r1 := if g.cycle in s.d.lessons then Ok(s, s.d.lessons[g.cycle]) else Learn(env, cfg, g1, s);
    if g.cycle !in s.d.lessons { LearnKeep(env, cfg, g, g1, s); }
    if r1.Fail? { return; }
    CommitLearned(cfg, g, r1.s.d, g1);
  }

  // ---------------------------------------------------------------- postcheck

  lemma PostcheckPatched(env: Env, cfg: Config, g: Graph, s: St, r: Res<PostPatch>)
    requires cfg.Valid() && Quiet(env) && Inv(cfg, g, s.d) && AtPostcheck(g)
    requires r == if g.cycle in s.d.postchecks then Ok(s, s.d.postchecks[g.cycle]) else CheckEffect(env, cfg, g, s)
    ensures Safe(cfg, g, s, r)
    ensures r.Ok? ==> g.cycle in r.s.d.postchecks && r.s.d.postchecks[g.cycle] == r.v
  {
    hide Inv;
    hide CheckEffect;
    if g.cycle !in s.d.postchecks { CheckEffectKeep(env, cfg, g, s); }
  }

  /** An unverified effect goes to the executor with a request that names the owned action. */
  lemma UnverifiedKeep(env: Env, cfg: Config, g: Graph, s: St)
    requires Quiet(env) && Inv(cfg, g, s.d) && AtPostcheck(g)
    requires g.cycle in s.d.postchecks && s.d.postchecks[g.cycle].restore
    ensures var r := AskRestore(env, cfg, Postchecked(g, s.d.postchecks[g.cycle]), EffectNotVerified, s);
      Safe(cfg, g, s, r) && (r.Ok? ==> Inv(cfg, r.v, r.s.d))
  {
    hide Inv;
    hide PolicyAction;
    hide AskRestore;
    var g1 := Postchecked(g, s.d.postchecks[g.cycle]);
    var request := RestoreRequest(cfg.round, cfg.generation, g.cycle, PolicyAction(g1), g1.plan, EffectNotVerified);
    var d1 := s.d.(artifacts := s.d.artifacts + {request});
    InvGrown(cfg, g, s.d, d1);
    CommitUnverified(cfg, g, d1, g1, request);
    AskRestoreKeep(env, cfg, g, g1, EffectNotVerified, s);
  }

  lemma PostcheckKeep(env: Env, cfg: Config, g: Graph, s: St)
    requires cfg.Valid() && Quiet(env) && Inv(cfg, g, s.d) && AtPostcheck(g)
    ensures var r := PostcheckNode(env, cfg, g, s);
      Safe(cfg, g, s, r) && (r.Ok? ==> Inv(cfg, r.v, r.s.d))
  {
    hide Inv;
    hide CheckEffect;
    hide AskRestore;
    hide Finish;
    var r1 := if g.cycle in s.d.postchecks then Ok(s, s.d.postchecks[g.cycle]) else CheckEffect(env, cfg, g, s);
    PostcheckPatched(env, cfg, g, s, r1);
    if r1.Fail? { return; }
    if r1.v.restore {
      UnverifiedKeep(env, cfg, g, r1.s);
    } else {
      FinishKeep(env, cfg, g, Postchecked(g, r1.v), r1.s);
    }
  }

  // ---------------------------------------------------------------- restore check

  predicate AtRestoreCheck(g: Graph) {
    g.next.Validator? && g.phase.RestoreCheck?
  }

  lemma RestoreCheckFacts(cfg: Config, g: Graph, d: Durable)
    requires Inv(cfg, g, d) && AtRestoreCheck(g)
    ensures CycleReady(cfg, d.artifacts, g) && g.active.Action? && g.active in d.artifacts && PolicyAction(g) == g.active
    ensures EarlierVerdict(d.artifacts, g.verdict)
  {
    hide Superseded;
    hide Provenance;
    hide Budget;
    hide Owned;
    hide Log;
  }

  lemma StoreRestorationKeep(env: Env, cfg: Config, g: Graph, s: St)
    requires Quiet(env) && Inv(cfg, g, s.d) && AtRestoreCheck(g) && g.cycle !in s.d.restorations && Settled(s.d.trace)
    ensures var r := StoreRestoration(env, g, s);
      Safe(cfg, g, s, r)
      && (r.Ok? ==> g.cycle in r.s.d.restorations && r.s.d.restorations[g.cycle] == r.v)
  {
    hide Inv;
    hide Put;
    hide Draw;
    hide Settled;
    hide CycleReady;
    hide PolicyAction;
    RestoreCheckFacts(cfg, g, s.d);
    var verdict := FinalVerdict(g);
    assert verdict.Verdict? && verdict.held.None?;
    hide FinalVerdict;
    hide EarlierVerdict;
    var r1 := Draw(env, s, false);
    DrawFacts(env, s, false);
    if r1.Fail? { return; }
    var r2 := Put(env, r1.s, verdict);
    PutKeep(env, cfg, g, r1.s, verdict);
    if r2.Fail? { return; }
    var r3 := Draw(env, r2.s, false);
    DrawFacts(env, r2.s, false);
    if r3.Fail? { return; }
    InvRestored(cfg, g, r3.s.d, RestorePatch(verdict));
  }

  lemma CheckRestorationKeep(env: Env, cfg: Config, g: Graph, s: St)
    requires Quiet(env) && Inv(cfg, g, s.d) && AtRestoreCheck(g) && g.cycle !in s.d.restorations
    ensures var r := CheckRestoration(env, cfg, g, s);
      Safe(cfg, g, s, r)
      && (r.Ok? ==> g.cycle in r.s.d.restorations && r.s.d.restorations[g.cycle] == r.v)
  {
    hide Inv;
    hide Draw;
    hide StoreRestoration;
    hide NativeFor;
    hide Settled;
    hide PolicyAction;
    hide GoodPlan;
    hide DistinctSupis;
    RestoreCheckFacts(cfg, g, s.d);
    var r0 := Need(s, {g.active, g.before});
    assert r0 == Ok(s, ());
    var r1 := Draw(env, s, false);
    DrawFacts(env, s, false);
    if r1.Fail? { return; }
    if !NativeFor(cfg, g.before.reading.rows, r1.v.native) || r1.v.native != g.active.baseline { return; }
    var d1 := s.d.(trace := s.d.trace + [RestoreVerified(g.active.receipt.id, g.active.baseline)]);
    InvVerified(cfg, g, s.d);
    StoreRestorationKeep(env, cfg, g, r1.s.(d := d1));
  }

  lemma RestorationPatched(env: Env, cfg: Config, g: Graph, s: St, r: Res<RestorePatch>)
    requires Quiet(env) && Inv(cfg, g, s.d) && AtRestoreCheck(g)
    requires r == if g.cycle in s.d.restorations then Ok(s, s.d.restorations[g.cycle]) else CheckRestoration(env, cfg, g, s)
    ensures Safe(cfg, g, s, r)
    ensures r.Ok? ==> g.cycle in r.s.d.restorations && r.s.d.restorations[g.cycle] == r.v
  {
    hide Inv;
    hide CheckRestoration;
    if g.cycle !in s.d.restorations { CheckRestorationKeep(env, cfg, g, s); }
  }

  lemma RestoreCheckKeep(env: Env, cfg: Config, g: Graph, s: St)
    requires cfg.Valid() && Quiet(env) && Inv(cfg, g, s.d) && AtRestoreCheck(g)
    ensures var r := RestoreCheckNode(env, cfg, g, s);
      Safe(cfg, g, s, r) && (r.Ok? ==> Inv(cfg, r.v, r.s.d))
  {
    hide Inv;
    hide CheckRestoration;
    hide Finish;
    var r1 := if g.cycle in s.d.restorations then Ok(s, s.d.restorations[g.cycle]) else CheckRestoration(env, cfg, g, s);
    RestorationPatched(env, cfg, g, s, r1);
    if r1.Fail? { return; }
    FinishKeep(env, cfg, g, g.(active := NoRef, verdict := r1.v.verdict), r1.s);
  }

  // ---------------------------------------------------------------- every node

  lemma ValidatorKeep(env: Env, cfg: Config, g: Graph, s: St)
    requires cfg.Valid() && Quiet(env) && Inv(cfg, g, s.d) && g.next.Validator?
    ensures var r := ValidatorNode(env, cfg, g, s);
      Safe(cfg, g, s, r) && (r.Ok? ==> Inv(cfg, r.v, r.s.d))
  {
    hide PrecheckNode;
    hide PostcheckNode;
    hide RestoreCheckNode;
    hide Inv;
    HasPhase(cfg, g, s.d);
    if g.phase.Precheck? {
      PrecheckKeep(env, cfg, g, s);
    } else if g.phase.Postcheck? {
      PostcheckKeep(env, cfg, g, s);
    } else {
      RestoreCheckKeep(env, cfg, g, s);
    }
  }

  // ---------------------------------------------------------------- a scenario that ends

  lemma LearnNeverEnds(env: Env, cfg: Config, g: Graph, s: St)
    ensures var r := Finish(env, cfg, g, s);
      r.Fail? ==> !r.why.Ended?
  {
    hide PolicyAction;
    hide OutcomeOf;
  }

  lemma RestorationNeverEnds(env: Env, cfg: Config, g: Graph, s: St)
    ensures var r := CheckRestoration(env, cfg, g, s);
      r.Fail? ==> !r.why.Ended?
  {
    hide PolicyAction;
    hide NativeFor;
    hide FinalVerdict;
  }

  lemma PostcheckEndsEarly(env: Env, cfg: Config, g: Graph, s: St)
    ensures var r := PostcheckNode(env, cfg, g, s);
      r.Fail? && r.why.Ended? ==> g.cycle !in s.d.postchecks && r.s.d.outcomes == s.d.outcomes
  {
    hide CheckEffect;
    hide PolicyAction;
    hide Finish;
    var r1 := if g.cycle in s.d.postchecks then Ok(s, s.d.postchecks[g.cycle]) else CheckEffect(env, cfg, g, s);
    if r1.Ok? { LearnNeverEnds(env, cfg, Postchecked(g, r1.v), r1.s); }
  }

  /** A node that finds the scenario over has logged nothing, and could not have logged this cycle before. */
  lemma EndsEarly(env: Env, cfg: Config, g: Graph, s: St)
    ensures var r := Body(env, cfg, g, s);
      r.Fail? && r.why.Ended? ==>
        && r.s.d.outcomes == s.d.outcomes
        && (g.next.Validator? ==>
              g.phase.Precheck? || (g.phase.Postcheck? && g.cycle !in s.d.postchecks))
  {
    hide PlannerNode;
    hide ExecutorNode;
    hide PrecheckNode;
    hide PostcheckNode;
    hide CheckRestoration;
    hide Finish;
    if g.next.Validator? && g.phase.Postcheck? { PostcheckEndsEarly(env, cfg, g, s); }
    if g.next.Validator? && g.phase.RestoreCheck? {
      RestorationNeverEnds(env, cfg, g, s);
      var r1 := if g.cycle in s.d.restorations then Ok(s, s.d.restorations[g.cycle]) else CheckRestoration(env, cfg, g, s);
      if r1.Ok? { LearnNeverEnds(env, cfg, g.(active := NoRef, verdict := r1.v.verdict), r1.s); }
    }
  }

  /** Until its verdict is frozen, a cycle has no row. */
  lemma Unlogged(cfg: Config, g: Graph, d: Durable)
    requires Inv(cfg, g, d) && !g.next.End?
    requires g.next.Validator? ==> g.phase.Precheck? || (g.phase.Postcheck? && g.cycle !in d.postchecks)
    ensures g.cycle !in d.outcomes
  {
    hide Superseded;
    hide Provenance;
    hide Budget;
    hide Owned;
    hide Log;
    hide GoodProof;
    hide GoodExec;
    hide GoodHold;
    hide CycleReady;
    hide WriteState;
  }

  lemma HasPhase(cfg: Config, g: Graph, d: Durable)
    requires Inv(cfg, g, d) && g.next.Validator?
    ensures !g.phase.NoPhase?
  {
    hide Superseded;
    hide Provenance;
    hide Budget;
    hide Owned;
    hide Log;
  }

  lemma BodyKeep(env: Env, cfg: Config, g: Graph, s: St)
    requires cfg.Valid() && Quiet(env) && Inv(cfg, g, s.d) && !g.next.End?
    ensures var r := Body(env, cfg, g, s);
      Safe(cfg, g, s, r) && (r.Ok? ==> Inv(cfg, r.v, r.s.d))
  {
    hide Inv;
    hide PlannerNode;
    hide ExecutorNode;
    hide ValidatorNode;
    match g.next
    case Planner => PlannerKeep(env, cfg, g, s);
    case Executor => ExecutorKeep(env, cfg, g, s);
    case Validator => ValidatorKeep(env, cfg, g, s);
  }
}
