/** Whole invocations of run, and whole lives of a thread, keep the invariant. */
module AgentRuns {
  import opened Contracts
  import opened AgentTypes
  import opened AgentModel
  import opened AgentInvariant
  import opened AgentFrames
  import opened AgentCommits
  import opened AgentSteps
  import opened AgentChecks

  /** The checkpoint a run resumes from. */
  function Checkpoint(cfg: Config, d: Durable): Graph {
    if d.graph.Some? then d.graph.value else InitialGraph(cfg)
  }

  /** The frozen context fixes the configuration; before it is frozen any valid one could start. */
  ghost predicate Sound(d: Durable) {
    match d.context
    case Some(cfg) => cfg.Valid() && Inv(cfg, Checkpoint(cfg, d), d)
    case None => d.graph.None? && forall cfg: Config :: cfg.Valid() ==> Inv(cfg, InitialGraph(cfg), d)
  }

  lemma EmptyIsSound()
    ensures Sound(EMPTY)
  {
    forall cfg: Config | cfg.Valid() ensures Inv(cfg, InitialGraph(cfg), EMPTY) {
    }
  }

  /** Only the checkpoint and the tables of one thread with this configuration. */
  ghost predicate Stored(cfg: Config, d: Durable) {
    d.context == Some(cfg) && d.graph.Some? && Inv(cfg, d.graph.value, d)
  }

  lemma DrawOutsideFacts(env: Env, s: St)
    ensures var r := DrawOutside(env, s);
      r.s.d == s.d && (r.Fail? ==> r.why.Crash? || r.why.Escape?)
  {
  }

  lemma CommitKeep(env: Env, cfg: Config, g: Graph, s: St)
    requires s.d.context == Some(cfg) && Inv(cfg, g, s.d)
    ensures var r := Commit(env, s, g);
      (r.Ok? ==> Stored(cfg, r.s.d) && r.v == g && r.s.d == s.d.(graph := Some(g)))
      && (r.Fail? ==> r.s.d == s.d && (r.why.Crash? || r.why.Escape?))
  {
    hide Inv;
    hide DrawOutside;
    DrawOutsideFacts(env, s);
    InvRecorded(cfg, g, s.d, s.d.(graph := Some(g)));
  }

  lemma StepKeep(env: Env, cfg: Config, g: Graph, s: St)
    requires cfg.Valid() && Quiet(env) && s.d.graph == Some(g) && Stored(cfg, s.d) && !g.next.End?
    ensures var r := Step(env, cfg, g, s);
      Stored(cfg, r.s.d) && (r.Ok? ==> r.s.d.graph == Some(r.v)) && (r.Fail? ==> r.why.Crash? || r.why.Escape?)
  {
    hide Inv;
    hide Body;
    hide Commit;
    hide DrawOutside;
    hide Failed;
    BodyKeep(env, cfg, g, s);
    EndsEarly(env, cfg, g, s);
    var r := Body(env, cfg, g, s);
    if r.Fail? && r.why.Ended? { Unlogged(cfg, g, s.d); }
    match r
    case Ok(s1, g1) => CommitKeep(env, cfg, g1, s1);
    case Fail(s1, Raise(code)) =>
      var r2 := DrawOutside(env, s1);
      DrawOutsideFacts(env, s1);
      if r2.Ok? {
        CommitFailed(cfg, g, s1.d, code);
        CommitKeep(env, cfg, Failed(g, code), r2.s);
      }
    case Fail(s1, Ended) =>
      var r2 := DrawOutside(env, s1);
      DrawOutsideFacts(env, s1);
      if r2.Ok? {
        var current := Observation(r2.v.reading);
        var d2 := s1.d.(artifacts := s1.d.artifacts + {current});
        InvGrown(cfg, g, s1.d, d2);
        var after := if r2.v.reuse then current else g.after;
        CommitEnded(cfg, g, d2, after);
        CommitKeep(env, cfg, g.(next := End, stop := ScenarioEnded, after := after), r2.s.(d := d2));
      }
    case _ =>
  }

  lemma {:induction false} InvokeKeep(env: Env, cfg: Config, g: Graph, s: St, limit: nat)
    requires cfg.Valid() && Quiet(env) && s.d.graph == Some(g) && Stored(cfg, s.d)
    ensures var r := Invoke(env, cfg, g, s, limit);
      Stored(cfg, r.s.d) && (r.Ok? ==> r.s.d.graph == Some(r.v) && r.v.next.End?)
      && (r.Fail? ==> r.why.Crash? || r.why.Escape?)
    decreases limit
  {
    hide Stored;
    hide Step;
    if !g.next.End? && limit > 0 {
      var r := Step(env, cfg, g, s);
      StepKeep(env, cfg, g, s);
      if r.Ok? { InvokeKeep(env, cfg, r.v, r.s, limit - 1); }
    }
  }

  // ---------------------------------------------------------------- one run

  /** Freezing the context keeps what was sound, and fixes the configuration. */
  lemma FrozenIsSound(cfg: Config, d: Durable)
    requires cfg.Valid() && Sound(d)
    ensures var frozen := if d.context.None? then Some(cfg) else d.context;
      Sound(d.(context := frozen))
  {
    hide Inv;
    if d.context.None? {
      InvRecorded(cfg, InitialGraph(cfg), d, d.(context := Some(cfg)));
    } else {
      assert d.(context := d.context) == d;
    }
  }

  lemma CleanedIsSound(d: Durable, e: Durable)
    requires Sound(d) && Cleaned(d, e)
    ensures Sound(e)
  {
    hide Inv;
    hide Cleaned;
    assert e.context == d.context && e.graph == d.graph by { CleanedKeepsGraph(d, e); }
    match d.context
    case Some(cfg) => InvCleaned(cfg, Checkpoint(cfg, d), d, e);
    case None =>
      forall cfg: Config | cfg.Valid() ensures Inv(cfg, InitialGraph(cfg), e) {
        InvCleaned(cfg, InitialGraph(cfg), d, e);
      }
  }

  lemma CleanedKeepsGraph(d: Durable, e: Durable)
    requires Cleaned(d, e)
    ensures e.context == d.context && e.graph == d.graph
  {
  }

  lemma StoredIsSound(cfg: Config, d: Durable)
    requires cfg.Valid() && Stored(cfg, d)
    ensures Sound(d)
  {
    hide Inv;
  }

  lemma AdapterRestoreCleans(env: Env, s: St)
    ensures var r := AdapterRestore(env, s);
      Cleaned(s.d, r.s.d) && (r.Ok? ==> NothingLive(r.s.d.adapter))
  {
    hide AllRestored;
    hide NothingLive;
    RestoreCalls(env, s);
    RestoreCleans(env, s);
    hide AdapterRestore;
    hide Cleaned;
    if AdapterRestore(env, s).Ok? { RestoredNotLive(AdapterRestore(env, s).s.d.adapter); }
  }

  lemma StartKeep(env: Env, cfg: Config, s: St)
    requires cfg.Valid() && Sound(s.d) && s.d.context == Some(cfg)
    ensures var r := Start(env, cfg, s);
      Sound(r.s.d) && (r.Ok? ==> Stored(cfg, r.s.d) && r.s.d.graph == Some(r.v))
  {
    hide Inv;
    hide Commit;
    hide InitialGraph;
    if s.d.graph.None? {
      CommitKeep(env, cfg, InitialGraph(cfg), s);
    }
  }

  lemma ReadyKeep(env: Env, cfg: Config, s: St)
    requires cfg.Valid() && Sound(s.d)
    ensures var r := Ready(env, cfg, s);
      Sound(r.s.d) && (r.Ok? ==> Stored(cfg, r.s.d) && r.s.d.graph == Some(r.v))
  {
    hide Sound;
    hide Stored;
    hide DrawOutside;
    hide Start;
    var r1 := DrawOutside(env, s);
    DrawOutsideFacts(env, s);
    if r1.Fail? { return; }
    FrozenIsSound(cfg, s.d);
    var frozen := if s.d.context.None? then Some(cfg) else s.d.context;
    if frozen != Some(cfg) { return; }
    StartKeep(env, cfg, r1.s.(d := s.d.(context := frozen)));
  }

  lemma ResumeKeep(env: Env, cfg: Config, s: St, limit: nat)
    requires cfg.Valid() && Quiet(env) && Sound(s.d)
    ensures var r := Resume(env, cfg, s, limit);
      Sound(r.s.d) && (r.Ok? ==> Stored(cfg, r.s.d) && r.s.d.graph == Some(r.v) && r.v.next.End?)
  {
    hide Sound;
    hide Stored;
    hide Ready;
    hide Invoke;
    var r := Ready(env, cfg, s);
    ReadyKeep(env, cfg, s);
    if r.Fail? { return; }
    InvokeKeep(env, cfg, r.v, r.s, limit);
    StoredIsSound(cfg, Invoke(env, cfg, r.v, r.s, limit).s.d);
  }

  /** The proof of a no-write round, taken after the restoration. */
  lemma HoldCleanupKeep(env: Env, cfg: Config, g: Graph, s: St)
    requires Quiet(env) && s.d.graph == Some(g) && Stored(cfg, s.d)
    ensures var r := HoldCleanupProof(env, cfg, g, s);
      Stored(cfg, r.s.d) && r.s.d.graph == Some(g)
      && r.s.d.adapter == s.d.adapter && r.s.d.trace == s.d.trace
  {
    hide Inv;
    hide Draw;
    hide Put;
    hide AllHeld;
    if !AllHeld(s.d) { return; }
    var verified, latest, first := VerifiedAfter(s.d), LatestAfter(s.d, g), FirstHold(s.d);
    if !({verified, latest, first} <= s.d.artifacts) { return; }
    if !verified.Observation? || !latest.Observation? || !first.Validated? { return; }
    if latest.reading.sequence < verified.reading.sequence { return; }
    var r1 := Draw(env, s, false);
    DrawFacts(env, s, false);
    if r1.Fail? { return; }
    PutKeep(env, cfg, g, r1.s, HoldCleanup(latest, verified, r1.v.native));
  }

  lemma CleanupKeep(env: Env, cfg: Config, g: Graph, s: St)
    requires Quiet(env) && s.d.graph == Some(g) && Stored(cfg, s.d)
    ensures var r := Cleanup(env, cfg, g, s);
      Stored(cfg, r.s.d) && r.s.d.graph == Some(g)
      && (r.Ok? && !Retaining(cfg, g) ==> NothingLive(r.s.d.adapter))
  {
    hide Inv;
    hide AdapterRestore;
    hide HoldCleanupProof;
    hide Retaining;
    hide NothingLive;
    hide Cleaned;
    var r1 := if Retaining(cfg, g) then Ok(s, ()) else AdapterRestore(env, s);
    if !Retaining(cfg, g) { AdapterRestoreKeep(env, cfg, g, s); }
    if r1.Fail? { return; }
    HoldCleanupKeep(env, cfg, g, r1.s);
  }

  lemma FinallyKeep(env: Env, s: St, cleaned: bool, retained: bool)
    requires Sound(s.d)
    ensures Sound(Finally(env, s, cleaned, retained).s.d)
  {
    hide Sound;
    hide AdapterRestore;
    hide Cleaned;
    AdapterRestoreCleans(env, s);
    CleanedIsSound(s.d, AdapterRestore(env, s).s.d);
  }

  /** The checkpoint that ends a run: ownership is kept only by a retained one. */
  lemma CloseKeep(env: Env, cfg: Config, g: Graph, s: St)
    requires cfg.Valid() && s.d.graph == Some(g) && Stored(cfg, s.d) && g.next.End?
    requires !Retaining(cfg, g) ==> NothingLive(s.d.adapter)
    ensures Sound(Commit(env, s, Closed(cfg, g)).s.d)
  {
    hide Inv;
    hide Commit;
    hide NothingLive;
    if Retaining(cfg, g) {
      assert Closed(cfg, g) == g;
    } else {
      CommitClosed(cfg, g, s.d);
      assert Closed(cfg, g) == g.(active := NoRef);
    }
    CommitKeep(env, cfg, Closed(cfg, g), s);
  }

  lemma RunKeep(env: Env, cfg: Config, s: St)
    requires cfg.Valid() && Quiet(env) && Sound(s.d)
    ensures Sound(Run(env, cfg, s).s.d)
  {
    hide Inv;
    hide Sound;
    hide Resume;
    hide Cleanup;
    hide Finally;
    hide Commit;
    hide Closed;
    hide Retaining;
    hide NothingLive;
    hide RecursionLimit;
    var r := Resume(env, cfg, s, RecursionLimit(cfg));
    ResumeKeep(env, cfg, s, RecursionLimit(cfg));
    if r.Fail? {
      FinallyKeep(env, r.s, false, false);
      return;
    }
    var g := r.v;
    var c := Cleanup(env, cfg, g, r.s);
    CleanupKeep(env, cfg, g, r.s);
    StoredIsSound(cfg, c.s.d);
    if c.Fail? {
      FinallyKeep(env, c.s, false, false);
      return;
    }
    var done := Commit(env, c.s, Closed(cfg, g));
    CloseKeep(env, cfg, g, c.s);
    FinallyKeep(env, done.s, !Retaining(cfg, g), Retaining(cfg, g));
  }

  /** Every run of the thread is configured by a valid contract. */
  ghost predicate ValidRuns(cfgs: nat -> Config) {
    forall k: nat :: cfgs(k).Valid()
  }

  lemma {:induction false} LifeIsSound(env: Env, cfgs: nat -> Config, k: nat)
    requires Quiet(env) && ValidRuns(cfgs)
    ensures Sound(Life(env, cfgs, k).d)
  {
    hide Sound;
    hide Run;
    hide EMPTY;
    if k == 0 {
      EmptyIsSound();
    } else {
      LifeIsSound(env, cfgs, k - 1);
      RunKeep(env, cfgs(k - 1), Life(env, cfgs, k - 1));
    }
  }
}
