/** The loop as producer and the independent verifier as checker of the same artifacts. */
module AgentAgreement {
  import opened Contracts
  import opened AgentTypes
  import opened AgentModel
  import opened HoldVerifier
  import opened AgentInvariant
  import opened AgentSteps
  import opened AgentRuns
  import opened AgentTheorems

  // ---------------------------------------------------------------- every chain

  function PublishedBy(cfg: Config): Published {
    Published(cfg.round, cfg.generation, cfg.totalUes)
  }

  lemma LoggedHold(cfg: Config, g: Graph, d: Durable, c: nat)
    requires Inv(cfg, g, d) && c in d.outcomes && d.outcomes[c].held.Some?
    ensures ChainAccepted(PublishedBy(cfg), d.artifacts, d.outcomes[c])
  {
    hide Superseded;
    hide Provenance;
    hide Budget;
    hide Owned;
    hide Point;
    hide ChainAccepted;
  }

  /** Every hold the loop ever logs passes every check the verifier makes on its chain. */
  lemma HoldsPassVerifier(env: Env, cfgs: nat -> Config, k: nat)
    requires Quiet(env) && ValidRuns(cfgs)
    ensures var d := Life(env, cfgs, k).d;
      d.context.Some? ==>
        forall c :: c in d.outcomes && d.outcomes[c].held.Some? ==>
          ChainAccepted(PublishedBy(d.context.value), d.artifacts, d.outcomes[c])
  {
    hide Life;
    hide Inv;
    hide ChainAccepted;
    LifeIsSound(env, cfgs, k);
    var d := Life(env, cfgs, k).d;
    if d.context.Some? {
      forall c | c in d.outcomes && d.outcomes[c].held.Some?
        ensures ChainAccepted(PublishedBy(d.context.value), d.artifacts, d.outcomes[c])
      {
        LoggedHold(d.context.value, Checkpoint(d.context.value, d), d, c);
      }
    }
  }

  // ---------------------------------------------------------------- when a whole round is accepted

  /** The logged cycles are the first ones, without a gap. */
  ghost predicate Contiguous(d: Durable) {
    forall c: nat :: c in d.outcomes <==> c < |d.outcomes|
  }

  /** Every row of the log in order, as the verifier reads it. */
  ghost function Rows(d: Durable): (rows: seq<Outcome>)
    requires Contiguous(d)
  {
    seq(|d.outcomes|, c requires 0 <= c < |d.outcomes| => d.outcomes[c])
  }

  lemma {:induction false} FirstKeys(keys: set<nat>, n: nat)
    requires forall c: nat :: c in keys <==> c < n
    ensures |keys| == n
  {
    if n > 0 {
      FirstKeys(keys - {n - 1}, n - 1);
    } else {
      assert keys == {};
    }
  }

  lemma LogIsContiguous(g: Graph, d: Durable)
    requires LogExact(g, d)
    ensures Contiguous(d)
  {
    var n := if g.cycle in d.outcomes then g.cycle + 1 else g.cycle;
    FirstKeys(d.outcomes.Keys, n);
    assert |d.outcomes| == |d.outcomes.Keys|;
  }

  /** What the precheck and the measurement of cycle c froze before its row could be logged. */
  predicate Acceptable(d: Durable, c: nat) {
    var proof, first := FrozenProof(d.prechecks, c), FrozenProof(d.prechecks, 0);
    && proof.Validated? && proof.freshHold
    && first.Validated? && proof.qerBefore == first.qerBefore
    && proof.before.Observation? && c in d.windows && d.windows[c].Observation?
    && proof.before.reading.window != d.windows[c].reading.window
  }

  /** A logged row against what its cycle froze. */
  predicate RowAgrees(p: Published, arts: set<Artifact>, proof: Artifact, windows: map<nat, Artifact>, c: nat, o: Outcome) {
    && proof.Validated? && o.iteration == c && (ChainAccepted(p, arts, o) <==> proof.freshHold)
    && (proof.freshHold ==>
          && NativeOf(o) == proof.qerBefore && proof.before.Observation? && c in windows && windows[c].Observation?
          && (FreshWindow(o) <==> proof.before.reading.window != windows[c].reading.window))
  }

  lemma LoggedRow(cfg: Config, g: Graph, d: Durable, c: nat)
    requires Inv(cfg, g, d) && c in d.outcomes
    ensures RowAgrees(PublishedBy(cfg), d.artifacts, FrozenProof(d.prechecks, c), d.windows, c, d.outcomes[c])
  {
    assert Sourced(d.prechecks, d.windows, d.outcomes) && GoodRow(cfg, d.artifacts, c, d.outcomes[c]);
    hide Inv;
    hide FrozenProof;
    assert SourcedRow(FrozenProof(d.prechecks, c), d.windows, c, d.outcomes[c]);
    if d.outcomes[c].held.None? { AcceptedIsHeld(PublishedBy(cfg), d.artifacts, d.outcomes[c]); }
  }

  /** Every row of the log agrees with what its cycle froze. */
  ghost predicate RowsAgree(p: Published, d: Durable) {
    && Contiguous(d)
    && forall c: nat :: c in d.outcomes ==>
         RowAgrees(p, d.artifacts, FrozenProof(d.prechecks, c), d.windows, c, d.outcomes[c])
  }

  lemma AcceptedRound(p: Published, d: Durable, c: nat)
    requires RowsAgree(p, d) && HoldsAccepted(p, d.artifacts, Rows(d)) && c in d.outcomes
    ensures Acceptable(d, c)
  {
    hide ChainAccepted;
    hide FreshWindow;
    hide NativeOf;
    hide FrozenProof;
    var rows := Rows(d);
    assert rows[c] == d.outcomes[c] && rows[0] == d.outcomes[0];
    assert rows[c] in rows && rows[0] in rows;
    assert 0 in d.outcomes;
  }

  lemma AcceptableRound(p: Published, d: Durable)
    requires RowsAgree(p, d) && forall c: nat :: c in d.outcomes ==> Acceptable(d, c)
    ensures HoldsAccepted(p, d.artifacts, Rows(d))
  {
    hide ChainAccepted;
    hide FreshWindow;
    hide NativeOf;
    hide FrozenProof;
    var rows := Rows(d);
    forall c: nat | c < |rows| ensures ChainAccepted(p, d.artifacts, rows[c]) && FreshWindow(rows[c]) && rows[c].iteration == c {
      assert c in d.outcomes && Acceptable(d, c);
    }
    forall i, j | 0 <= i < j < |rows| ensures NativeOf(rows[i]) == NativeOf(rows[j]) {
      assert i in d.outcomes && j in d.outcomes && Acceptable(d, i) && Acceptable(d, j);
    }
  }

  /**
   The verifier accepts everything a thread logged exactly when every cycle's precheck froze a fresh
   hold over the inventory that the first cycle's precheck froze, and the result window of the cycle
   was another one than that of its baseline. AgentWitness has a life in which this fails.
   */
  lemma RoundPassesVerifier(env: Env, cfgs: nat -> Config, k: nat)
    requires Quiet(env) && ValidRuns(cfgs)
    ensures var d := Life(env, cfgs, k).d;
      d.context.Some? ==>
        && Contiguous(d)
        && (HoldsAccepted(PublishedBy(d.context.value), d.artifacts, Rows(d))
            <==> forall c: nat :: c in d.outcomes ==> Acceptable(d, c))
  {
    hide Life;
    hide Inv;
    hide RowAgrees;
    hide HoldsAccepted;
    hide Contiguous;
    hide Acceptable;
    LifeIsSound(env, cfgs, k);
    var d := Life(env, cfgs, k).d;
    if d.context.Some? {
      var cfg := d.context.value;
      var g := Checkpoint(cfg, d);
      InvLogExact(cfg, g, d);
      LogIsContiguous(g, d);
      forall c: nat | c in d.outcomes
        ensures RowAgrees(PublishedBy(cfg), d.artifacts, FrozenProof(d.prechecks, c), d.windows, c, d.outcomes[c])
      {
        LoggedRow(cfg, g, d, c);
      }
      var p := PublishedBy(cfg);
      if HoldsAccepted(p, d.artifacts, Rows(d)) {
        forall c: nat | c in d.outcomes ensures Acceptable(d, c) { AcceptedRound(p, d, c); }
      }
      if forall c: nat :: c in d.outcomes ==> Acceptable(d, c) { AcceptableRound(p, d); }
    }
  }

  lemma AcceptedIsHeld(p: Published, arts: set<Artifact>, o: Outcome)
    ensures ChainAccepted(p, arts, o) ==> o.held.Some?
  {
  }

  /** The extra proof of a no-write round that `cleaned` holds: the inventory is again the first cycle's. */
  predicate EndsAsItBegan(g: Graph, d: Durable) {
    AllHeld(d) ==>
      && FrozenProof(d.prechecks, 0).Validated? && FrozenProof(d.prechecks, 0).qerBefore.Some?
      && HoldCleanup(LatestAfter(d, g), VerifiedAfter(d), FrozenProof(d.prechecks, 0).qerBefore.value) in d.artifacts
  }

  /** The proof is put only for the inventory of the first hold. */
  lemma HoldCleanupStores(env: Env, cfg: Config, g: Graph, s: St)
    requires AllHeld(s.d)
    ensures var r := HoldCleanupProof(env, cfg, g, s);
      r.Ok? ==>
        && FirstHold(s.d).Validated? && FirstHold(s.d).qerBefore.Some?
        && r.s.d == s.d.(artifacts := r.s.d.artifacts)
        && HoldCleanup(LatestAfter(s.d, g), VerifiedAfter(s.d), FirstHold(s.d).qerBefore.value) in r.s.d.artifacts
  {
    hide AllHeld;
    hide LatestAfter;
    hide VerifiedAfter;
    hide FirstHold;
  }

  lemma SameLog(g: Graph, d: Durable, e: Durable)
    requires e.outcomes == d.outcomes
    ensures AllHeld(e) <==> AllHeld(d)
    ensures AllHeld(d) ==> LatestAfter(e, g) == LatestAfter(d, g) && VerifiedAfter(e) == VerifiedAfter(d)
  {
  }

  lemma HoldCleanupProves(env: Env, cfg: Config, g: Graph, s: St)
    requires s.d.graph == Some(g) && Stored(cfg, s.d)
    ensures var r := HoldCleanupProof(env, cfg, g, s);
      r.Ok? ==> EndsAsItBegan(g, r.s.d)
  {
    hide Inv;
    hide FrozenProof;
    hide AllHeld;
    hide LatestAfter;
    hide VerifiedAfter;
    hide FirstHold;
    var r := HoldCleanupProof(env, cfg, g, s);
    SameLog(g, s.d, r.s.d);
    if AllHeld(s.d) {
      FirstHoldIsFrozen(cfg, g, s.d);
      HoldCleanupStores(env, cfg, g, s);
    }
    hide HoldCleanupProof;
  }

  lemma FirstHoldIsFrozen(cfg: Config, g: Graph, d: Durable)
    requires Inv(cfg, g, d) && AllHeld(d)
    ensures FirstHold(d).Validated? && FrozenProof(d.prechecks, 0).Validated?
    ensures FirstHold(d).qerBefore == FrozenProof(d.prechecks, 0).qerBefore
  {
    assert Sourced(d.prechecks, d.windows, d.outcomes);
    hide Inv;
    hide FrozenProof;
    assert SourcedRow(FrozenProof(d.prechecks, 0), d.windows, 0, d.outcomes[0]);
  }

  /** What the loop does check over a whole no-write round: its last reading equals the first cycle's. */
  lemma CleanupComparesWithFirst(env: Env, cfgs: nat -> Config, k: nat)
    requires Quiet(env) && ValidRuns(cfgs)
    ensures var r := Resume(env, cfgs(k), Life(env, cfgs, k), RecursionLimit(cfgs(k)));
      r.Ok? ==>
        var c := Cleanup(env, cfgs(k), r.v, r.s);
        c.Ok? ==> EndsAsItBegan(r.v, c.s.d)
  {
    hide Life;
    hide Resume;
    hide Sound;
    hide Stored;
    hide Retaining;
    hide AdapterRestore;
    hide HoldCleanupProof;
    hide EndsAsItBegan;
    hide RecursionLimit;
    LifeIsSound(env, cfgs, k);
    ResumeKeep(env, cfgs(k), Life(env, cfgs, k), RecursionLimit(cfgs(k)));
    var r := Resume(env, cfgs(k), Life(env, cfgs, k), RecursionLimit(cfgs(k)));
    if r.Fail? { return; }
    var r1 := if Retaining(cfgs(k), r.v) then Ok(r.s, ()) else AdapterRestore(env, r.s);
    if r1.Fail? { return; }
    RestoredStored(env, cfgs(k), r.v, r.s);
    HoldCleanupProves(env, cfgs(k), r.v, r1.s);
  }

  lemma RestoredStored(env: Env, cfg: Config, g: Graph, s: St)
    requires s.d.graph == Some(g) && Stored(cfg, s.d)
    ensures Stored(cfg, AdapterRestore(env, s).s.d) && AdapterRestore(env, s).s.d.graph == Some(g)
  {
    hide Inv;
    hide AdapterRestore;
    AdapterRestoreKeep(env, cfg, g, s);
  }
}
