/** The independent verifier's checks over the artifacts of a no-write run (verify_ai100_e2e.py). */
module HoldVerifier {
  import opened Contracts
  import opened AgentTypes

  /** The class default of the contract, which the verifier uses whatever the contract declared. */
  const VERIFIER_AGE := 120.0

  /** The published round the artifacts are checked against. */
  datatype Published = Published(round: string, generation: nat, ues: nat)

  /** The reference, digest, seal-age and sequence checks of one hold outcome. */
  predicate ChainAccepted(p: Published, arts: set<Artifact>, o: Outcome) {
    && o.outcome.NoOp? && o.held.Some? && o.candidateId.None? && o.improvement.None?
    && var h := o.held.value;
    && h.plan in arts && h.plan.Plan?
    && h.validated in arts && h.validated.Validated?
    && h.verification in arts && h.verification.Verdict?
    && h.before in arts && h.before.Observation?
    && h.after in arts && h.after.Observation?
    && var plan, proof, verdict := h.plan, h.validated, h.verification;
    && var before, after, seal := h.before.reading, h.after.reading, h.validated.holdSeal;
    && proof.confirmation.Some?
    && proof.confirmation.value.validated in arts && proof.confirmation.value.validated.Validated?
    && plan.verb.HoldPolicy? && plan.group.None? && plan.profile.None?
    && plan.response == o.responseId && plan.before == h.before
    && proof.plan == h.plan && proof.before == h.before
    && proof.freshHold && proof.selected.None? && !proof.replace
    && proof.confirmation.value.validated == proof.(confirmation := None)
    && verdict.held.Some? && verdict.outcome.NoOp? && !verdict.restore && verdict.improvement.None?
    && verdict.after == h.after
    && proof.qerBefore.Some? && |proof.qerBefore.value| == p.ues
    && verdict.held.value == proof.qerBefore.value
    && seal.Seal? && seal.before == h.before && seal.round == before.round
    && seal.generation == before.generation && seal.sequence == before.sequence
    && seal.sealedRows == before.rows
    && -1.0 <= seal.validatedAt - before.observedAt <= VERIFIER_AGE
    && before.round == p.round && before.generation == p.generation
    && after.round == p.round && after.generation == p.generation
    && after.sequence > before.sequence && after.revision == before.revision
    && proof.precheckResponse.Some? && verdict.validatorResponse.Some?
  }

  /** _successful_graph_stop over the logged iterations. */
  predicate SuccessfulStop(stop: Stop, cycle: nat, iterations: seq<nat>) {
    stop.ScenarioEnded?
    || (stop.CycleLimit? && cycle > 0 && |iterations| == cycle
        && forall i :: 0 <= i < |iterations| ==> iterations[i] == i)
  }

  /** The digest of the native inventory the outcome was verified against. */
  function NativeOf(o: Outcome): Option<Inventory> {
    if o.held.Some? && o.held.value.verification.Verdict? then o.held.value.verification.held else None
  }

  /** The result was measured in another published traffic window than the baseline. */
  predicate FreshWindow(o: Outcome) {
    o.held.Some? && o.held.value.before.Observation? && o.held.value.after.Observation?
    && o.held.value.before.reading.window != o.held.value.after.reading.window
  }

  /** What the outcome loop accepts: every chain and window, one inventory throughout, no repeated cycle. */
  ghost predicate HoldsAccepted(p: Published, arts: set<Artifact>, outcomes: seq<Outcome>) {
    && (forall o :: o in outcomes ==> ChainAccepted(p, arts, o) && FreshWindow(o))
    && (forall i, j :: 0 <= i < j < |outcomes| ==> NativeOf(outcomes[i]) == NativeOf(outcomes[j]))
    && (forall i, j :: 0 <= i < j < |outcomes| ==> outcomes[i].iteration != outcomes[j].iteration)
  }

  lemma AcceptedHasNative(p: Published, arts: set<Artifact>, o: Outcome)
    requires ChainAccepted(p, arts, o)
    ensures NativeOf(o).Some?
  {
  }

  /** The loop over the outcomes with its running inventory digest. */
  method CheckHolds(p: Published, arts: set<Artifact>, outcomes: seq<Outcome>) returns (ok: bool)
    ensures ok <==> HoldsAccepted(p, arts, outcomes)
  {
    hide ChainAccepted;
    hide FreshWindow;
    var native: Option<Inventory> := None;
    var cycles: set<nat> := {};
    var repeated := false;
    for i := 0 to |outcomes|
      invariant forall k :: 0 <= k < i ==> ChainAccepted(p, arts, outcomes[k]) && FreshWindow(outcomes[k])
      invariant forall k :: 0 <= k < i ==> NativeOf(outcomes[k]) == native
      invariant native.Some? <==> i > 0
      invariant cycles == set k | 0 <= k < i :: outcomes[k].iteration
      invariant repeated <==> exists j, k :: 0 <= j < k < i && outcomes[j].iteration == outcomes[k].iteration
    {
      var o := outcomes[i];
      if !ChainAccepted(p, arts, o) {
        assert o in outcomes;
        return false;
      }
      AcceptedHasNative(p, arts, o);
      if native.Some? && native != NativeOf(o) {
        assert NativeOf(outcomes[0]) == native;
        return false;
      }
      native := NativeOf(o);
      if !FreshWindow(o) {
        assert o in outcomes;
        return false;
      }
      repeated := repeated || o.iteration in cycles;
      cycles := cycles + {o.iteration};
    }
    return !repeated;
  }
}
