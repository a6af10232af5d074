/**
 What the loop promises, over every life of a thread: any number of invocations, each with its own
 configuration, each ending normally, by an error, or by the death of the process.
 */
module AgentTheorems {
  import opened Contracts
  import opened AgentTypes
  import opened AgentModel
  import opened HoldVerifier
  import opened AgentInvariant
  import opened AgentFrames
  import opened AgentSteps
  import opened AgentRuns

  // ---------------------------------------------------------------- writes

  /** What one round may do to the network. */
  ghost predicate WithinBudget(cfg: Config, writes: seq<NativeWrite>) {
    && |writes| <= cfg.maxChanges
    && forall i, j :: 0 <= i < j < |writes| ==> writes[j].cycle - writes[i].cycle >= cfg.minGap
  }

  lemma InvWithinBudget(cfg: Config, g: Graph, d: Durable)
    requires Inv(cfg, g, d)
    ensures WithinBudget(cfg, Writes(d.trace)) && Alternating(d.trace)
  {
    hide Superseded;
    hide Provenance;
    hide Point;
    hide Owned;
    hide Log;
    hide Writes;
    hide Alternating;
  }

  /** Before the context is frozen nothing was written. */
  lemma NothingBeforeContext(d: Durable)
    requires Sound(d) && d.context.None?
    ensures Writes(d.trace) == [] && Alternating(d.trace) && forall r :: r in d.adapter ==> !Live(r)
  {
    hide Inv;
    hide Writes;
    hide Alternating;
    hide InitialGraph;
    var cfg := Config("", 0, 1, [], 1, 0, 1, 1, false);
    assert cfg.Valid();
    InvWithinBudget(cfg, InitialGraph(cfg), d);
    OwnedInitially(cfg, d);
  }

  lemma OwnedInitially(cfg: Config, d: Durable)
    requires Inv(cfg, InitialGraph(cfg), d)
    ensures NothingLive(d.adapter)
  {
    hide Superseded;
    hide Provenance;
    hide Point;
    hide Log;
    hide Settled;
    hide Spaced;
    hide Alternating;
    hide NothingLive;
  }

  /**
   The change budget counts every call of the adapter, failed and replayed ones too, and two calls
   are at least the minimum number of cycles apart.
   */
  lemma ChangeBudget(env: Env, cfgs: nat -> Config, k: nat)
    requires Quiet(env) && ValidRuns(cfgs)
    ensures var d := Life(env, cfgs, k).d;
      if d.context.None? then Writes(d.trace) == [] else WithinBudget(d.context.value, Writes(d.trace))
  {
    hide Life;
    hide Writes;
    hide Inv;
    LifeIsSound(env, cfgs, k);
    var d := Life(env, cfgs, k).d;
    if d.context.None? {
      NothingBeforeContext(d);
    } else {
      InvWithinBudget(d.context.value, Checkpoint(d.context.value, d), d);
    }
  }

  /** No proposal attempt, and indeed no cycle, is written twice. */
  lemma WritesAtMostOnce(env: Env, cfgs: nat -> Config, k: nat)
    requires Quiet(env) && ValidRuns(cfgs)
    ensures var w := Writes(Life(env, cfgs, k).d.trace);
      forall i, j :: 0 <= i < j < |w| ==>
        w[i].cycle != w[j].cycle && (w[i].cycle, w[i].attempt) != (w[j].cycle, w[j].attempt)
  {
    hide Life;
    hide Writes;
    hide Inv;
    ChangeBudget(env, cfgs, k);
    LifeIsSound(env, cfgs, k);
  }

  /**
   A replay that finds an operation in the journal changes nothing at all, and so never writes:
   it repeats the completed receipt, adopts the only installed record of this choice, or stops.
   */
  lemma ReplayNeverWrites(env: Env, g: Graph, proof: Artifact, s: St)
    requires proof.Validated? && proof.selected.Some? && proof.qerBefore.Some? && g.plan.Plan?
    requires OpKey(g.cycle, g.validated) in s.d.operations
    ensures var r := Receipt(env, g, proof, s);
      var entry := s.d.operations[OpKey(g.cycle, g.validated)];
      r.s.d == s.d
      && (r.Ok? && entry.Completed? ==> r.v == entry.receipt)
      && (r.Ok? && entry.IntentOnly? ==>
            && r.v in s.d.adapter && r.v.state.Installed?
            && r.v.response == g.plan.response && r.v.candidate == proof.selected.value.id
            && forall i, j :: 0 <= i < j < |s.d.adapter| ==>
                 !(Named(s.d.adapter[i], r.v) && Named(s.d.adapter[j], r.v)))
  {
    var found := Matching(s.d.adapter, g.plan.response, proof.selected.value.id);
    MatchingIsInJournal(s.d.adapter, g.plan.response, proof.selected.value.id);
    if |found| == 1 {
      MatchingIsComplete(s.d.adapter, g.plan.response, proof.selected.value.id);
    }
    hide Matching;
  }

  predicate Named(r: Record, other: Record) {
    r.response == other.response && r.candidate == other.candidate
  }

  lemma {:induction false} MatchingIsComplete(adapter: seq<Record>, response: string, candidate: string)
    ensures |Matching(adapter, response, candidate)| == 0 ==>
              forall i :: 0 <= i < |adapter| ==> !(adapter[i].response == response && adapter[i].candidate == candidate)
    ensures |Matching(adapter, response, candidate)| == 1 ==>
              forall i, j :: 0 <= i < j < |adapter| ==>
                !(adapter[i].response == response && adapter[i].candidate == candidate
                  && adapter[j].response == response && adapter[j].candidate == candidate)
  {
    if adapter != [] {
      var rest := adapter[..|adapter| - 1];
      MatchingIsComplete(rest, response, candidate);
      assert forall i :: 0 <= i < |rest| ==> rest[i] == adapter[i];
    }
  }

  // ---------------------------------------------------------------- restorations

  /** Between a settled history and a write there is a verified restoration of that write. */
  lemma {:induction false} SettledSince(trace: seq<Event>, p: nat) returns (r: nat)
    requires Settled(trace) && Alternating(trace) && p < |trace| && trace[p].Executed?
    ensures p < r < |trace|
    ensures trace[r] == RestoreVerified(trace[p].write.id, trace[p].write.baseline)
    decreases |trace|
  {
    var n := |trace| - 1;
    var rest := trace[..n];
    if Settled(rest) {
      r := SettledSince(rest, p);
    } else {
      var q := LastWrite(rest);
      if q == p {
        r := n;
      } else {
        AlternatingBefore(trace, q);
        r := SettledSince(trace[..q], p);
      }
    }
  }

  /** Where the last write of a history is. */
  lemma {:induction false} LastWrite(trace: seq<Event>) returns (q: nat)
    requires Writes(trace) != []
    ensures q < |trace| && trace[q].Executed? && trace[q].write == Writes(trace)[|Writes(trace)| - 1]
    ensures forall i :: q < i < |trace| ==> !trace[i].Executed?
  {
    var n := |trace| - 1;
    if trace[n].Executed? {
      q := n;
    } else {
      q := LastWrite(trace[..n]);
    }
  }

  /** Each write of an alternating history found it settled. */
  lemma {:induction false} AlternatingBefore(trace: seq<Event>, q: nat)
    requires Alternating(trace) && q < |trace| && trace[q].Executed?
    ensures Settled(trace[..q]) && Alternating(trace[..q])
  {
    var n := |trace| - 1;
    if q < n {
      AlternatingBefore(trace[..n], q);
      assert trace[..n][..q] == trace[..q];
    }
  }

  /**
   Between any two calls of the adapter an independent native reading found exactly the inventory
   that the proof of the first of them recorded.
   */
  lemma RestoredBetweenWrites(env: Env, cfgs: nat -> Config, k: nat)
    requires Quiet(env) && ValidRuns(cfgs)
    ensures var trace := Life(env, cfgs, k).d.trace;
      forall p, q :: 0 <= p < q < |trace| && trace[p].Executed? && trace[q].Executed? ==>
        exists r :: p < r < q && trace[r] == RestoreVerified(trace[p].write.id, trace[p].write.baseline)
  {
    hide Life;
    hide Writes;
    hide Inv;
    hide Settled;
    LifeIsSound(env, cfgs, k);
    var d := Life(env, cfgs, k).d;
    if d.context.None? {
      NothingBeforeContext(d);
    } else {
      InvWithinBudget(d.context.value, Checkpoint(d.context.value, d), d);
    }
    hide Alternating;
    var trace := d.trace;
    forall p, q | 0 <= p < q < |trace| && trace[p].Executed? && trace[q].Executed?
      ensures exists r :: p < r < q && trace[r] == RestoreVerified(trace[p].write.id, trace[p].write.baseline)
    {
      AlternatingBefore(trace, q);
      var r := SettledSince(trace[..q], p);
      assert trace[r] == trace[..q][r];
    }
  }

  // ---------------------------------------------------------------- ownership

  /** At most one record is in force; it is the newest, and the checkpoint owns it or never counted it. */
  ghost predicate SingleOwner(d: Durable) {
    && (forall i, j :: 0 <= i < j < |d.adapter| ==> !(Live(d.adapter[i]) && Live(d.adapter[j])))
    && forall i :: 0 <= i < |d.adapter| && Live(d.adapter[i]) ==>
         && i == |d.adapter| - 1 && d.context.Some?
         && var g, w := Checkpoint(d.context.value, d), Writes(d.trace);
            w != [] && w[|w| - 1].id == d.adapter[i].id
            && (if g.active == NoRef then |w| == g.changes + 1
                else g.active.Action? && g.active.receipt.id == d.adapter[i].id && |w| == g.changes)
  }

  lemma InvSingleOwner(cfg: Config, d: Durable)
    requires d.context == Some(cfg) && Inv(cfg, Checkpoint(cfg, d), d)
    ensures SingleOwner(d)
  {
    hide Superseded;
    hide Provenance;
    hide Point;
    hide Log;
    hide Writes;
    hide Settled;
    hide Spaced;
    hide Alternating;
    assert forall i :: 0 <= i < |d.adapter| ==> d.adapter[i] in d.adapter;
  }

  /** The call of the adapter that left an older record unrestored. */
  predicate IncompleteAt(trace: seq<Event>, id: int, q: nat) {
    && q < |trace| && trace[q] == RestoreCalled(false)
    && forall p :: q < p < |trace| ==> !trace[p].RestoreCalled? && !(trace[p].Executed? && trace[p].write.id == id)
  }

  ghost predicate NeverCompleted(trace: seq<Event>, id: int) {
    exists q :: IncompleteAt(trace, id, q)
  }

  lemma {:induction false} IncompleteCall(trace: seq<Event>, id: int) returns (q: nat)
    requires Incomplete(trace, id)
    ensures IncompleteAt(trace, id, q)
  {
    q := |trace| - 1;
    if !trace[q].RestoreCalled? {
      var rest := trace[..q];
      var last := q;
      q := IncompleteCall(rest, id);
      assert forall p :: 0 <= p < last ==> trace[p] == rest[p];
    }
  }

  /** The restoration at q completed, and the adapter was not called since. */
  predicate CompletedAt(trace: seq<Event>, q: nat) {
    q < |trace| && trace[q] == RestoreCalled(true)
    && forall p :: q < p < |trace| ==> trace[p].RestoreVerified?
  }

  lemma {:induction false} CompletedIsLast(trace: seq<Event>, q: nat)
    requires CompletedAt(trace, q)
    ensures JustRestored(trace)
  {
    var n := |trace| - 1;
    if q < n {
      assert forall p :: 0 <= p < n ==> trace[..n][p] == trace[p];
      CompletedIsLast(trace[..n], q);
    }
  }

  /**
   Every record but the newest reads restored, unless a restoration called after the newest was
   journaled did not complete; and while nothing was called after a completed one, all do.
   */
  ghost predicate OneUnrestored(d: Durable) {
    && (forall i :: 0 <= i < |d.adapter| - 1 && !d.adapter[i].state.Restored? ==>
          NeverCompleted(d.trace, |d.adapter| - 1))
    && (forall q :: CompletedAt(d.trace, q) ==> AllRestored(d.adapter))
  }

  lemma InvOneUnrestored(cfg: Config, g: Graph, d: Durable)
    requires Inv(cfg, g, d)
    ensures OneUnrestored(d)
  {
    assert Superseded(d.adapter, d.trace);
    hide Inv;
    hide AllRestored;
    if Incomplete(d.trace, |d.adapter| - 1) { var q := IncompleteCall(d.trace, |d.adapter| - 1); }
    forall q | CompletedAt(d.trace, q) ensures AllRestored(d.adapter) { CompletedIsLast(d.trace, q); }
  }

  lemma OneOwner(env: Env, cfgs: nat -> Config, k: nat)
    requires Quiet(env) && ValidRuns(cfgs)
    ensures SingleOwner(Life(env, cfgs, k).d) && OneUnrestored(Life(env, cfgs, k).d)
  {
    hide Life;
    hide Inv;
    hide Writes;
    hide OneUnrestored;
    LifeIsSound(env, cfgs, k);
    var d := Life(env, cfgs, k).d;
    if d.context.None? {
      NothingBeforeContext(d);
      var cfg := Config("", 0, 1, [], 1, 0, 1, 1, false);
      assert cfg.Valid();
      InvOneUnrestored(cfg, InitialGraph(cfg), d);
    } else {
      InvSingleOwner(d.context.value, d);
      InvOneUnrestored(d.context.value, Checkpoint(d.context.value, d), d);
    }
  }

  /** Whatever the last decision was, a restore request names the action that is owned. */
  lemma RestoreNamesOwner(env: Env, cfgs: nat -> Config, k: nat)
    requires Quiet(env) && ValidRuns(cfgs)
    ensures var d := Life(env, cfgs, k).d;
      d.graph.Some? && d.graph.value.next.Executor? && d.graph.value.operation.Restore? ==>
        var g, w := d.graph.value, Writes(d.trace);
        && g.request in d.artifacts && g.request.RestoreRequest? && g.request.owned == g.active && g.active.Action?
        && w != [] && w[|w| - 1].id == g.active.receipt.id && w[|w| - 1].baseline == g.active.baseline
  {
    hide Life;
    hide Writes;
    hide Inv;
    LifeIsSound(env, cfgs, k);
    var d := Life(env, cfgs, k).d;
    if d.graph.Some? && d.graph.value.next.Executor? && d.graph.value.operation.Restore? {
      RestorePointOwner(d.context.value, d.graph.value, d);
    }
  }

  lemma RestorePointOwner(cfg: Config, g: Graph, d: Durable)
    requires Inv(cfg, g, d) && g.next.Executor? && g.operation.Restore?
    ensures g.request in d.artifacts && g.request.RestoreRequest? && g.request.owned == g.active && g.active.Action?
    ensures Newest(d.adapter, Writes(d.trace), g.active.receipt.id)
    ensures Writes(d.trace)[|Writes(d.trace)| - 1].baseline == g.active.baseline
  {
    hide Superseded;
    hide Provenance;
    hide Log;
    hide Writes;
    hide Settled;
    hide Spaced;
    hide Alternating;
    hide GoodExec;
    hide NothingLive;
  }

  // ---------------------------------------------------------------- leaving run

  /** The native history ends with the adapter's restore. */
  predicate EndsRestored(d: Durable) {
    d.trace != [] && d.trace[|d.trace| - 1].RestoreCalled?
  }

  lemma CleanupRestores(env: Env, cfg: Config, g: Graph, s: St)
    requires !Retaining(cfg, g)
    ensures var r := Cleanup(env, cfg, g, s); EndsRestored(r.s.d)
  {
    hide AdapterRestore;
    hide HoldCleanupProof;
    hide Retaining;
    RestoreIsLast(env, s);
    HoldCleanupKeepsTrace(env, cfg, g, AdapterRestore(env, s).s);
  }

  lemma RestoreIsLast(env: Env, s: St)
    ensures EndsRestored(AdapterRestore(env, s).s.d)
  {
    RestoreCalls(env, s);
    hide AdapterRestore;
  }

  lemma HoldCleanupKeepsTrace(env: Env, cfg: Config, g: Graph, s: St)
    ensures HoldCleanupProof(env, cfg, g, s).s.d.trace == s.d.trace
  {
    hide AllHeld;
    hide SettleAll;
  }

  /**
   However an invocation of run ends, short of the process dying or its policy being retained, the
   last native act is the adapter's restore: nothing was written after it.
   */
  lemma ExitRestores(env: Env, cfg: Config, s: St)
    ensures var r := Run(env, cfg, s);
      r.exit.Left? && !r.retained ==> EndsRestored(r.s.d)
  {
    hide Resume;
    hide Cleanup;
    hide AdapterRestore;
    hide Retaining;
    hide RecursionLimit;
    var r := Resume(env, cfg, s, RecursionLimit(cfg));
    RestoreIsLast(env, r.s);
    if r.Ok? {
      var c := Cleanup(env, cfg, r.v, r.s);
      RestoreIsLast(env, c.s);
      if !Retaining(cfg, r.v) { CleanupRestores(env, cfg, r.v, r.s); }
    }
  }

  /** A checkpoint that a run may retain. */
  predicate VerifiedEnd(cfg: Config, d: Durable) {
    && cfg.retain && d.context == Some(cfg) && d.graph.Some?
    && var g := d.graph.value;
    && g.next.End? && g.stop.CycleLimit? && g.error.None? && g.cycle == cfg.maxCycles
    && forall r :: r in d.adapter && Live(r) ==>
         && g.active.Action? && g.active.receipt.id == r.id
         && g.cycle > 0 && g.cycle - 1 in d.outcomes
         && d.outcomes[g.cycle - 1].outcome.EffectVerified? && d.outcomes[g.cycle - 1].actionRef == g.active
  }

  lemma RetainingIsVerified(cfg: Config, g: Graph, d: Durable)
    requires Stored(cfg, d) && d.graph == Some(g) && g.next.End? && Retaining(cfg, g)
    ensures VerifiedEnd(cfg, d)
  {
    InvSingleOwner(cfg, d);
    EndedOwner(cfg, g, d);
    hide Inv;
    hide Writes;
    forall r | r in d.adapter && Live(r) ensures g.active.Action? && g.active.receipt.id == r.id {
      var i :| 0 <= i < |d.adapter| && d.adapter[i] == r;
    }
  }

  lemma EndedOwner(cfg: Config, g: Graph, d: Durable)
    requires Inv(cfg, g, d) && g.next.End? && g.stop.CycleLimit?
    ensures EndPoint(cfg, g, d) && |Writes(d.trace)| == g.changes
  {
    hide Superseded;
    hide Provenance;
    hide Log;
    hide Writes;
    hide Settled;
    hide Spaced;
    hide Alternating;
    hide Owned;
  }

  lemma RunRetainsVerified(env: Env, cfg: Config, s: St)
    requires cfg.Valid() && Quiet(env) && Sound(s.d)
    ensures var r := Run(env, cfg, s);
      r.retained ==> VerifiedEnd(cfg, r.s.d)
  {
    hide Inv;
    hide Resume;
    hide Cleanup;
    hide AdapterRestore;
    hide RecursionLimit;
    hide Retaining;
    hide Sound;
    hide VerifiedEnd;
    var r := Resume(env, cfg, s, RecursionLimit(cfg));
    ResumeKeep(env, cfg, s, RecursionLimit(cfg));
    if r.Fail? { return; }
    var g := r.v;
    var c := Cleanup(env, cfg, g, r.s);
    CleanupKeep(env, cfg, g, r.s);
    if c.Fail? || !Retaining(cfg, g) { return; }
    RetainingIsVerified(cfg, g, c.s.d);
    assert Closed(cfg, g) == g;
    assert c.s.d.(graph := Some(g)) == c.s.d;
    hide Closed;
  }

  /**
   A policy survives a run only when retention was asked for and the cycle limit was reached without
   an error, and then the verdict of the final cycle verified the effect of exactly that policy.
   */
  lemma RetainedIsVerified(env: Env, cfgs: nat -> Config, k: nat)
    requires Quiet(env) && ValidRuns(cfgs)
    ensures var r := Run(env, cfgs(k), Life(env, cfgs, k));
      r.retained ==> VerifiedEnd(cfgs(k), r.s.d)
  {
    hide Life;
    hide Run;
    hide Sound;
    hide VerifiedEnd;
    LifeIsSound(env, cfgs, k);
    RunRetainsVerified(env, cfgs(k), Life(env, cfgs, k));
  }

  // ---------------------------------------------------------------- the outcome log

  function Iterations(d: Durable, n: nat): seq<nat>
    requires forall c: nat :: c < n ==> c in d.outcomes
  {
    seq(n, c requires 0 <= c < n => d.outcomes[c].iteration)
  }

  /** One row per finished cycle in order, at most one for the unfinished one, none beyond. */
  predicate LogExact(g: Graph, d: Durable) {
    && (forall c: nat :: c < g.cycle ==> c in d.outcomes)
    && (forall c :: c in d.outcomes ==> c <= g.cycle && d.outcomes[c].iteration == c)
    && (g.next.Planner? || g.stop.CycleLimit? || (g.next.End? && g.stop.ScenarioEnded?) ==> g.cycle !in d.outcomes)
  }

  lemma InvLogExact(cfg: Config, g: Graph, d: Durable)
    requires cfg.Valid() && Inv(cfg, g, d)
    ensures LogExact(g, d)
    ensures g.next.End? && g.stop.CycleLimit? ==> SuccessfulStop(g.stop, g.cycle, Iterations(d, g.cycle))
    ensures g.error.Some? ==> g.next.End? && !Internal(g.error.value)
  {
    hide Superseded;
    hide Provenance;
    hide Budget;
    hide Owned;
    hide GoodProof;
    hide GoodHold;
    hide GoodPost;
    hide GoodExec;
    hide WriteState;
    hide NothingLive;
    hide GoodRestored;
    hide OutcomeOf;
    hide ChainAccepted;
  }

  /**
   After any schedule of crashes and replays the log holds exactly one row per finished cycle; a run
   that stopped at its cycle limit is one the independent verifier accepts; and no run ever ends
   because the loop found its own durable state changed.
   */
  lemma OutcomeLog(env: Env, cfgs: nat -> Config, k: nat)
    requires Quiet(env) && ValidRuns(cfgs)
    ensures var d := Life(env, cfgs, k).d;
      d.graph.Some? ==>
        var g := d.graph.value;
        && LogExact(g, d)
        && (g.next.End? && g.stop.CycleLimit? ==> SuccessfulStop(g.stop, g.cycle, Iterations(d, g.cycle)))
        && (g.error.Some? ==> !Internal(g.error.value))
  {
    hide Life;
    hide Inv;
    hide SuccessfulStop;
    LifeIsSound(env, cfgs, k);
    var d := Life(env, cfgs, k).d;
    if d.graph.Some? { InvLogExact(d.context.value, d.graph.value, d); }
  }
}
