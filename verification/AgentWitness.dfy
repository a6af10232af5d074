/** Lives in which the loop does what it may, and a stronger promise fails. */
module AgentWitness {
  import opened Contracts
  import opened AgentTypes
  import opened AgentModel
  import opened HoldVerifier
  import opened AgentInvariant
  import opened AgentFrames
  import opened AgentRuns
  import opened AgentTheorems
  import opened AgentAgreement
  import opened AgentProgress
  import opened AgentPolicyCycle
  import Cohort

  /** One UE, one profile, two cycles and two changes. */
  const ROUND := Config("round", 1, 1, ["profile"], 60, 2, 1, 2, false)
  const ROWS := [Cohort.ALONE]

  /** The inventory of that UE; the tag stands for whatever its session says. */
  function Native(tag: string): Inventory {
    map["ue" := Session(tag, "seid", "upf", [])]
  }

  function Rounds(k: nat): Config {
    ROUND
  }

  lemma RoundIsCommissionable(tag: string)
    ensures ROUND.Valid() && Commissionable(ROUND, ROWS, Native(tag))
    ensures Cohort.Commissioned(ROWS, ROUND.profiles) == Some([Cohort.LONE_OFFER])
  {
    Cohort.LoneOffer();
    assert Supis(ROWS) == {"ue"} by { assert ROWS[0] in ROWS && ROWS[0].supi == "ue"; }
    assert Native(tag).Keys == {"ue"};
    assert |Native(tag)| == |Native(tag).Keys| == 1;
  }

  /** The first checkpoint of a thread. */
  function Opened(): St {
    St(EMPTY.(context := Some(ROUND), graph := Some(InitialGraph(ROUND))), 2)
  }

  lemma Opens(env: Env)
    requires Quiet(env) && env(0).fate.Proceeds? && env(1).fate.Proceeds?
    ensures Ready(env, ROUND, St(EMPTY, 0)) == Ok(Opened(), InitialGraph(ROUND))
    ensures At(ROUND, InitialGraph(ROUND), Opened())
  {
    hide Inv;
    hide InitialGraph;
    EmptyIsSound();
    assert ROUND.Valid();
    ReadyKeep(env, ROUND, St(EMPTY, 0));
  }

  // ---------------------------------------------------------------- an inventory that drifts between cycles

  /**
   Two hold cycles, the second over the inventory `second`, each measured in the window `late` after a
   baseline in the window "early"; then a cleanup that reads the first inventory again.
   */
  function Drift(second: string, late: string): Env {
    (t: nat) =>
      Choice(Proceeds, false, false, 0.0, 0.0,
             Reading("round", 1, t, 0, 0.0, ROWS, true, if t % 40 < 20 then "early" else late),
             Native(if 42 <= t < 82 then second else "first"),
             Ask(HoldPolicy, None, None), "response", NoEffect, 0.0, false, Installed, false, (id: nat) => Restored)
  }

  lemma DriftIsQuiet(second: string, late: string)
    ensures Quiet(Drift(second, late)) && Drift(second, late)(0).fate.Proceeds? && Drift(second, late)(1).fate.Proceeds?
    ensures Drift(second, late)(7).ask == Ask(HoldPolicy, None, None) && Drift(second, late)(47).ask == Ask(HoldPolicy, None, None)
  {
  }

  lemma DriftIsCalm(second: string, late: string, t: nat)
    requires t == 2 || t == 42
    ensures Calm(Drift(second, late), ROUND, ROWS, Native(if t == 42 then second else "first"), t, 40)
  {
  }

  /** The row of cycle c verified a hold over this inventory, its result measured in the window `late`. */
  predicate HeldOver(d: Durable, c: nat, tag: string, late: string) {
    && c in d.outcomes && d.outcomes[c].held.Some? && NativeOf(d.outcomes[c]) == Some(Native(tag))
    && (FreshWindow(d.outcomes[c]) <==> late != "early")
  }

  /** A finished drift cycle that started at t. */
  lemma DriftRow(second: string, late: string, t: nat, tag: string, g: Graph, d: Durable, g1: Graph, d1: Durable)
    requires t == 2 || t == 42
    requires CycleHeld(g, d, g1, d1, Native(tag), BeforeOf(Drift(second, late)(t)), BeforeOf(Drift(second, late)(t + 27)))
    ensures HeldOver(d1, g.cycle, tag, late) && d1.outcomes.Keys == d.outcomes.Keys + {g.cycle}
    ensures g.cycle == 1 && HeldOver(d, 0, "first", late) ==> HeldOver(d1, 0, "first", late)
    ensures g1.after == d1.outcomes[g.cycle].held.value.after
    ensures g1.active == NoRef && g1.cycle == g.cycle + 1 && g1.error == g.error && d1.adapter == d.adapter
  {
    assert t % 40 == 2 && (t + 27) % 40 == 29;
    hide NativeOf;
  }

  lemma OpenedIs()
    ensures var g := InitialGraph(ROUND);
      Opened().t == 2 && Fresh(g, Opened().d) && g.next.Planner? && g.active == NoRef && g.cycle == 0 && g.error.None?
      && g.changes == 0 && g.lastChange == -1
    ensures Opened().d.outcomes == map[] && Opened().d.adapter == [] && Opened().d.trace == []
  {
  }

  lemma FirstDrift(second: string, late: string) returns (g: Graph, s: St)
    ensures Invoke(Drift(second, late), ROUND, InitialGraph(ROUND), Opened(), 44) == Invoke(Drift(second, late), ROUND, g, s, 40)
    ensures At(ROUND, g, s) && s.t == 42 && Fresh(g, s.d) && g.next.Planner? && g.active == NoRef && g.cycle == 1
    ensures g.error.None? && HeldOver(s.d, 0, "first", late) && s.d.outcomes.Keys == {0} && s.d.adapter == []
  {
    hide Inv;
    hide At;
    hide Calm;
    hide Commissionable;
    hide Invoke;
    hide HeldOver;
    hide Opened;
    hide InitialGraph;
    hide Fresh;
    OpenedIs();
    hide CycleHeld;
    hide Drift;
    DriftIsQuiet(second, late);
    hide Quiet;
    RoundIsCommissionable("first");
    Opens(Drift(second, late));
    DriftIsCalm(second, late, 2);
    g, s := HoldCycle(Drift(second, late), ROUND, ROWS, Native("first"), InitialGraph(ROUND), Opened(), 44);
    DriftRow(second, late, 2, "first", InitialGraph(ROUND), Opened().d, g, s.d);
  }

  lemma SecondDrift(second: string, late: string, g: Graph, s: St) returns (g1: Graph, s1: St)
    requires At(ROUND, g, s) && s.t == 42 && Fresh(g, s.d) && g.next.Planner? && g.active == NoRef && g.cycle == 1
    requires g.error.None? && HeldOver(s.d, 0, "first", late) && s.d.outcomes.Keys == {0} && s.d.adapter == []
    ensures Invoke(Drift(second, late), ROUND, g, s, 40) == Ok(s1, g1) && At(ROUND, g1, s1) && s1.t == 82
    ensures Drifted(second, late, g1, s1.d)
  {
    hide Inv;
    hide At;
    hide Calm;
    hide Commissionable;
    hide Invoke;
    hide HeldOver;
    hide CycleHeld;
    hide Drift;
    DriftIsQuiet(second, late);
    hide Quiet;
    hide Fresh;
    RoundIsCommissionable(second);
    DriftIsCalm(second, late, 42);
    g1, s1 := HoldCycle(Drift(second, late), ROUND, ROWS, Native(second), g, s, 40);
    DriftRow(second, late, 42, second, g, s.d, g1, s1.d);
    EndedInvoke(Drift(second, late), g1, s1, 36);
  }

  /** A round that ended at its limit with two verified holds. */
  predicate Drifted(second: string, late: string, g: Graph, d: Durable) {
    && g.next.End? && g.stop.CycleLimit? && g.error.None? && g.cycle == 2 && d.adapter == []
    && d.outcomes.Keys == {0, 1} && HeldOver(d, 0, "first", late) && HeldOver(d, 1, second, late)
    && g.after == d.outcomes[1].held.value.after
  }

  lemma DriftRuns(second: string, late: string) returns (g: Graph, s: St)
    ensures Resume(Drift(second, late), ROUND, St(EMPTY, 0), RecursionLimit(ROUND)) == Ok(s, g) && At(ROUND, g, s) && s.t == 82
    ensures Drifted(second, late, g, s.d)
  {
    hide Inv;
    hide At;
    hide Invoke;
    hide Ready;
    hide Drifted;
    hide HeldOver;
    hide Fresh;
    Opens(Drift(second, late));
    var g1, s1 := FirstDrift(second, late);
    g, s := SecondDrift(second, late, g1, s1);
    assert RecursionLimit(ROUND) == 44;
  }

  lemma EndedInvoke(env: Env, g: Graph, s: St, limit: nat)
    requires g.next.End?
    ensures Invoke(env, ROUND, g, s, limit) == Ok(s, g)
  {
  }

  /** What the verifier's chain test guarantees about the two rows. */
  lemma DriftChains(second: string, late: string, g: Graph, s: St)
    requires At(ROUND, g, s) && Drifted(second, late, g, s.d)
    ensures ChainAccepted(PublishedBy(ROUND), s.d.artifacts, s.d.outcomes[0])
    ensures ChainAccepted(PublishedBy(ROUND), s.d.artifacts, s.d.outcomes[1])
  {
    hide Inv;
    hide ChainAccepted;
    hide HeldOver;
    assert HeldOver(s.d, 0, "first", late) && HeldOver(s.d, 1, second, late);
    HeldIs(s.d, 0, "first", late);
    HeldIs(s.d, 1, second, late);
    LoggedHold(ROUND, g, s.d, 0);
    LoggedHold(ROUND, g, s.d, 1);
  }

  lemma HeldIs(d: Durable, c: nat, tag: string, late: string)
    requires HeldOver(d, c, tag, late)
    ensures c in d.outcomes && d.outcomes[c].held.Some?
  {
  }

  lemma DriftIsHeld(second: string, late: string, g: Graph, d: Durable)
    requires Drifted(second, late, g, d)
    ensures AllHeld(d) && |d.outcomes| == 2
  {
    assert |d.outcomes| == |d.outcomes.Keys| == |{0, 1}|;
  }

  /** The references that the final proof reads. */
  lemma DriftRefs(second: string, late: string, g: Graph, s: St)
    requires At(ROUND, g, s) && Drifted(second, late, g, s.d) && AllHeld(s.d) && |s.d.outcomes| == 2
    ensures VerifiedAfter(s.d) == LatestAfter(s.d, g) && VerifiedAfter(s.d).Observation?
    ensures FirstHold(s.d).Validated? && FirstHold(s.d).qerBefore == Some(Native("first"))
    ensures {VerifiedAfter(s.d), FirstHold(s.d)} <= s.d.artifacts
  {
    hide Inv;
    hide At;
    hide AllHeld;
    DriftChains(second, late, g, s);
  }

  lemma DriftProves(second: string, late: string, g: Graph, s: St)
    requires At(ROUND, g, s) && Drifted(second, late, g, s.d) && s.t == 83
    ensures var r := HoldCleanupProof(Drift(second, late), ROUND, g, s);
      r.Ok? && r.s.t == 85
  {
    hide Inv;
    hide At;
    hide Drifted;
    DriftIsHeld(second, late, g, s.d);
    DriftRefs(second, late, g, s);
    hide AllHeld;
    hide LatestAfter;
    hide VerifiedAfter;
    hide FirstHold;
    var verified, first := VerifiedAfter(s.d), FirstHold(s.d);
    assert Need(s, {verified, verified, first}) == Ok(s, ());
    assert Draw(Drift(second, late), s, false) == Ok(St(s.d, 84), Drift(second, late)(83));
    assert |Native("first")| == |Native("first").Keys| == |{"ue"}|;
  }

  lemma DriftRestores(second: string, late: string, g: Graph, s: St)
    requires At(ROUND, g, s) && Drifted(second, late, g, s.d) && s.t == 82
    ensures var r := AdapterRestore(Drift(second, late), s);
      r.Ok? && r.s.t == 83 && At(ROUND, g, r.s) && Drifted(second, late, g, r.s.d)
  {
    hide Inv;
    RestoredStored(Drift(second, late), ROUND, g, s);
  }

  lemma DriftCleans(second: string, late: string, g: Graph, s: St)
    requires At(ROUND, g, s) && Drifted(second, late, g, s.d) && s.t == 82
    ensures Cleanup(Drift(second, late), ROUND, g, s).Ok?
  {
    hide At;
    hide Drifted;
    hide AdapterRestore;
    hide HoldCleanupProof;
    DriftRestores(second, late, g, s);
    DriftProves(second, late, g, AdapterRestore(Drift(second, late), s).s);
  }

  /** A run whose graph part and cleanup answered ends with its checkpoint closed. */
  lemma ClosedRun(env: Env, g: Graph, s: St, c: St)
    requires Resume(env, ROUND, St(EMPTY, 0), RecursionLimit(ROUND)) == Ok(s, g)
    requires Cleanup(env, ROUND, g, s).Ok? && Cleanup(env, ROUND, g, s).s == c && env(c.t).fate.Proceeds?
    ensures var r := Run(env, ROUND, St(EMPTY, 0));
      r.exit.Left? && !r.retained && r.s.d == c.d.(graph := Some(Closed(ROUND, g)))
  {
    hide Resume;
    hide Cleanup;
    hide RecursionLimit;
    hide AdapterRestore;
  }

  /**
   The two rules about a whole round are not ones the loop enforces: every one of these lives runs to its
   limit without an error, both cycles are verified holds, and the cleanup is proved; the verifier accepts
   exactly those in which the second inventory is the first and the results have windows of their own.
   */
  lemma DriftEscapesTheLoop(second: string, late: string)
    ensures Quiet(Drift(second, late)) && ValidRuns(Rounds)
    ensures Run(Drift(second, late), ROUND, St(EMPTY, 0)).exit.Left?
    ensures var d := Life(Drift(second, late), Rounds, 1).d;
      && d.graph.Some? && d.graph.value.stop.CycleLimit? && d.graph.value.error.None?
      && d.outcomes.Keys == {0, 1} && d.outcomes[0].held.Some? && d.outcomes[1].held.Some?
      && EndsAsItBegan(d.graph.value, d) && Contiguous(d)
      && (HoldsAccepted(PublishedBy(ROUND), d.artifacts, Rows(d)) <==> second == "first" && late != "early")
  {
    hide Inv;
    hide At;
    hide Cleanup;
    hide Run;
    hide Resume;
    hide EndsAsItBegan;
    hide FreshWindow;
    hide NativeOf;
    hide ChainAccepted;
    DriftIsQuiet(second, late);
    assert ROUND.Valid();
    var g, s := DriftRuns(second, late);
    DriftCleans(second, late, g, s);
    var c := Cleanup(Drift(second, late), ROUND, g, s);
    CleanupKeepsLog(Drift(second, late), g, s);
    ClosedRun(Drift(second, late), g, s, c.s);
    CleanupComparesWithFirst(Drift(second, late), Rounds, 0);
    ClosedEndsAsItBegan(g, c.s.d);
    LifeOnce(Drift(second, late));
    hide Drift;
    hide RecursionLimit;
    var d := Life(Drift(second, late), Rounds, 1).d;
    TwoRows(second, late, g, s, d);
  }

  lemma LifeOnce(env: Env)
    ensures Life(env, Rounds, 0) == St(EMPTY, 0)
    ensures Life(env, Rounds, 1) == Run(env, ROUND, St(EMPTY, 0)).s
  {
    hide Run;
    assert Life(env, Rounds, 0) == St(EMPTY, 0);
  }

  lemma CleanupKeepsLog(env: Env, g: Graph, s: St)
    ensures var r := Cleanup(env, ROUND, g, s);
      r.s.d.outcomes == s.d.outcomes && s.d.artifacts <= r.s.d.artifacts
  {
    hide Retaining;
    hide AdapterRestore;
    hide HoldCleanupProof;
    assert Untaught(s, Cleanup(env, ROUND, g, s));
    RestoreKeepsArtifacts(env, s);
    ProofKeepsArtifacts(env, g, s);
    ProofKeepsArtifacts(env, g, AdapterRestore(env, s).s);
  }

  lemma RestoreKeepsArtifacts(env: Env, s: St)
    ensures AdapterRestore(env, s).s.d.artifacts == s.d.artifacts
  {
    RestoreCalls(env, s);
    hide AdapterRestore;
  }

  lemma ProofKeepsArtifacts(env: Env, g: Graph, s: St)
    ensures s.d.artifacts <= HoldCleanupProof(env, ROUND, g, s).s.d.artifacts
  {
    hide AllHeld;
    hide VerifiedAfter;
    hide LatestAfter;
    hide FirstHold;
  }

  lemma ClosedEndsAsItBegan(g: Graph, d: Durable)
    requires EndsAsItBegan(g, d)
    ensures EndsAsItBegan(Closed(ROUND, g), d.(graph := Some(Closed(ROUND, g))))
  {
    SameLog(g, d, d.(graph := Some(Closed(ROUND, g))));
    hide FrozenProof;
  }

  lemma TwoRows(second: string, late: string, g: Graph, s: St, d: Durable)
    requires At(ROUND, g, s) && Drifted(second, late, g, s.d)
    requires d.outcomes == s.d.outcomes && s.d.artifacts <= d.artifacts
    ensures Contiguous(d)
    ensures HoldsAccepted(PublishedBy(ROUND), d.artifacts, Rows(d)) <==> second == "first" && late != "early"
  {
    hide Inv;
    hide At;
    hide ChainAccepted;
    hide FreshWindow;
    hide NativeOf;
    DriftChains(second, late, g, s);
    ChainGrown(s.d.artifacts, d.artifacts, d.outcomes[0]);
    ChainGrown(s.d.artifacts, d.artifacts, d.outcomes[1]);
    LoggedIteration(g, s);
    assert |d.outcomes| == |d.outcomes.Keys| == |{0, 1}|;
    var rows := Rows(d);
    assert rows == [d.outcomes[0], d.outcomes[1]];
    assert rows[0] in rows && rows[1] in rows;
    assert Native("first")["ue"].sessionId == "first" && Native(second)["ue"].sessionId == second;
  }

  lemma ChainGrown(arts: set<Artifact>, more: set<Artifact>, o: Outcome)
    requires arts <= more && ChainAccepted(PublishedBy(ROUND), arts, o)
    ensures ChainAccepted(PublishedBy(ROUND), more, o)
  {
  }

  lemma LoggedIteration(g: Graph, s: St)
    requires At(ROUND, g, s) && s.d.outcomes.Keys == {0, 1}
    ensures s.d.outcomes[0].iteration == 0 && s.d.outcomes[1].iteration == 1
  {
    hide Inv;
    LoggedRow(ROUND, g, s.d, 0);
    LoggedRow(ROUND, g, s.d, 1);
    hide ChainAccepted;
    hide FrozenProof;
    hide NativeOf;
  }

  // ---------------------------------------------------------------- two unrestored records

  const BREAK := 77

  /**
   A policy is applied and undone; the next write breaks after it was journaled; and every cleanup from
   then on finds both records in a state it cannot account for.
   */
  function Quarantine(t: nat): Choice {
    Choice(if t == BREAK then Raises else Proceeds, false, false, 0.0, 0.0,
           Reading("round", 1, t, 0, 0.0, ROWS, true, "window"), Native("first"),
           Ask(ApplyPolicy, Some("web_browsing"), Some("profile")), "response", NoHoldout, 0.0, false, Installed, false,
           (id: nat) => if t < BREAK then Restored else Quarantined)
  }

  lemma QuarantineIsCalm()
    ensures Quiet(Quarantine)
    ensures Calm(Quarantine, ROUND, ROWS, Native("first"), 2, 54) && Calm(Quarantine, ROUND, ROWS, Native("first"), 56, 17)
    ensures Proceeding(Quarantine, 73, 4) && Quarantine(78).fate.Proceeds? && Quarantine(79).fate.Proceeds?
    ensures SettlesAll(Quarantine(41)) && Unverified(Quarantine, ROUND, 30)
    ensures Quarantine(0).fate.Proceeds? && Quarantine(1).fate.Proceeds?
  {
  }

  lemma AsksForIt(g: Graph, t: nat)
    requires g.changes < 2 && g.cycle - g.lastChange >= 1
    ensures Asks(ROUND, g, [Cohort.LONE_OFFER], Quarantine(t).ask)
  {
    assert Find([Cohort.LONE_OFFER], Some("web_browsing"), Some("profile")) == Some(Cohort.LONE_OFFER);
  }

  lemma FirstUndone() returns (g: Graph, s: St)
    ensures Invoke(Quarantine, ROUND, InitialGraph(ROUND), Opened(), 44) == Invoke(Quarantine, ROUND, g, s, 38)
    ensures At(ROUND, g, s) && s.t == 56 && Fresh(g, s.d) && g.next.Planner? && g.active == NoRef
    ensures g.cycle == 1 && g.changes == 1 && g.lastChange == 0 && |s.d.adapter| == 1 && AllRestored(s.d.adapter)
  {
    hide Inv;
    hide At;
    hide Calm;
    hide Invoke;
    hide Quarantine;
    hide Quiet;
    hide Commissionable;
    hide AllRestored;
    hide Asks;
    hide Opened;
    hide InitialGraph;
    hide Fresh;
    hide SettlesAll;
    hide Unverified;
    OpenedIs();
    QuarantineIsCalm();
    RoundIsCommissionable("first");
    Opens(Quarantine);
    AsksForIt(InitialGraph(ROUND), 7);
    assert Installs(Quarantine(23), Opened().d) by { FreeAtFirst(); }
    hide Installs;
    g, s := PolicyCycle(Quarantine, ROUND, ROWS, Native("first"), [Cohort.LONE_OFFER], InitialGraph(ROUND), Opened(), 44);
  }

  lemma FreeAtFirst()
    ensures Installs(Quarantine(23), Opened().d)
  {
  }

  /** The second write breaks, and the graph ends with two records in the journal. */
  lemma SecondBroken(g: Graph, s: St) returns (g1: Graph, s1: St)
    requires At(ROUND, g, s) && s.t == 56 && Fresh(g, s.d) && g.next.Planner? && g.active == NoRef
    requires g.cycle == 1 && g.changes == 1 && g.lastChange == 0 && |s.d.adapter| == 1 && AllRestored(s.d.adapter)
    ensures Invoke(Quarantine, ROUND, g, s, 38) == Ok(s1, g1) && s1.t == 80
    ensures g1.error.Some? && |s1.d.adapter| == 2
  {
    hide Inv;
    hide At;
    hide Calm;
    hide Step;
    hide Invoke;
    hide Quarantine;
    hide Quiet;
    hide Commissionable;
    hide Asks;
    hide Fresh;
    hide Proceeding;
    QuarantineIsCalm();
    RoundIsCommissionable("first");
    AsksForIt(g, 61);
    var a1, t1, a2, t2 := PolicyDecision(Quarantine, ROUND, ROWS, Native("first"), [Cohort.LONE_OFFER], g, s);
    TwoNodes(Quarantine, ROUND, g, s, 38, a1, t1, a2, t2);
    DecidedIs(Native("first"), a2, t2.d);
    hide PolicyDecided;
    hide AtApply;
    assert Breaks(Quarantine(77), t2.d) by { BreaksThen(t2.d); }
    hide Breaks;
    hide AllRestored;
    BrokenTurn(Quarantine, ROUND, a2, t2);
    g1 := a2.(next := End, error := Some(StageFailed));
    s1 := St(BrokenTables(a2, Quarantine(77).outcome, t2.d).(graph := Some(g1)), 80);
    OneNode(Quarantine, a2, t2, g1, s1, 36);
  }

  lemma DecidedIs(native: Inventory, g: Graph, d: Durable)
    requires PolicyDecided(ROUND, ROWS, native, g, d)
    ensures AtApply(ROUND, g, d) && g.next.Executor? && g.plan.Plan? && g.validated.Validated?
    ensures g.validated.selected.Some? && g.validated.qerBefore.Some?
  {
    hide SealHolds;
    hide KeyOf;
  }

  lemma BreaksThen(d: Durable)
    requires AllRestored(d.adapter)
    ensures Breaks(Quarantine(77), d)
  {
  }

  /** The last node before the end. */
  lemma OneNode(env: Env, g: Graph, s: St, g1: Graph, s1: St, limit: nat)
    requires !g.next.End? && limit >= 1 && Step(env, ROUND, g, s) == Ok(s1, g1) && g1.next.End?
    ensures Invoke(env, ROUND, g, s, limit) == Ok(s1, g1)
  {
    hide Step;
    EndedInvoke(env, g1, s1, limit - 1);
    assert Invoke(env, ROUND, g, s, limit) == Invoke(env, ROUND, g1, s1, limit - 1);
  }

  /** A cleanup that can account for no record. */
  lemma QuarantinesAll(s: St)
    requires s.t > BREAK && s.d.adapter != []
    ensures var r := AdapterRestore(Quarantine, s);
      r.Fail? && !r.why.Crash? && r.s.t == s.t + 1 && |r.s.d.adapter| == |s.d.adapter|
      && forall i :: 0 <= i < |r.s.d.adapter| ==> r.s.d.adapter[i].state.Quarantined?
  {
    var settled := SettleAll(s.d.adapter, Quarantine(s.t).settle);
    assert settled[0].state.Quarantined? && settled[0] in settled;
    assert !AllRestored(settled);
    hide SettleAll;
    hide AllRestored;
  }

  lemma FailedRun(env: Env, g: Graph, s: St)
    requires Resume(env, ROUND, St(EMPTY, 0), RecursionLimit(ROUND)) == Ok(s, g) && !Retaining(ROUND, g)
    requires AdapterRestore(env, s).Fail? && !AdapterRestore(env, s).why.Crash?
    ensures Run(env, ROUND, St(EMPTY, 0)).s == AdapterRestore(env, AdapterRestore(env, s).s).s
  {
    hide Resume;
    hide RecursionLimit;
    hide Retaining;
    hide AdapterRestore;
    hide HoldCleanupProof;
  }

  /**
   That at most one record is unrestored is not true of every life: here a cleanup that did not complete
   leaves the older record unrestored beside the newest. OneOwner says that nothing else can.
   */
  lemma TwoUnrestored()
    ensures Quiet(Quarantine) && ValidRuns(Rounds)
    ensures var d := Life(Quarantine, Rounds, 1).d;
      |d.adapter| == 2 && d.adapter[0].state.Quarantined? && d.adapter[1].state.Quarantined?
  {
    hide Inv;
    hide At;
    hide Invoke;
    hide Ready;
    hide Run;
    hide Quarantine;
    hide AllRestored;
    hide Fresh;
    hide AdapterRestore;
    hide Opened;
    QuarantineIsCalm();
    hide Quiet;
    assert ROUND.Valid();
    Opens(Quarantine);
    var g, s := FirstUndone();
    var g1, s1 := SecondBroken(g, s);
    assert RecursionLimit(ROUND) == 44;
    QuarantinesAll(s1);
    QuarantinesAll(AdapterRestore(Quarantine, s1).s);
    FailedRun(Quarantine, g1, s1);
    LifeOnce(Quarantine);
  }
}
