/** The formal three-role graph over an operation's compensation journal (graph.py, FormalIntentGraph). */
module FormalGraph {
  import opened Contracts

  /** The service operations a node may call; Failure is the compensation. */
  datatype Service = Plan | Precheck | Execute | Postcheck | Failure | RestoreCheck

  /** One call that started, and whether it returned. */
  datatype Call = Call(service: Service, returned: bool)

  datatype Node = Planner | Executor | Validator | End

  datatype Phase = ToPrecheck | NeedsMeasurement | ExecutionFailed | ToPostcheck | ToRestoreCheck

  datatype Ending = NoPlan | MeasurementRequested | EffectVerified | Restored | Escaped

  /**
   One answer of the world around a port: whether the journal and the artifacts took the write,
   whether there is a model and it fails before it starts the tool, what the bound operation does,
   and whether the role fails after it.
   */
  datatype Answer = Answer(stored: bool, model: bool, modelFailsFirst: bool, completes: bool,
                           measurement: bool, failsAfter: bool, planned: bool)

  datatype PortResult = Done | Raised(measurement: bool)

  // ---------------------------------------------------------------- what a history may be

  const ORDER: seq<Service> := [Plan, Precheck, Execute, Postcheck]

  /** The forward operations in their order, each started only after the one before it returned. */
  predicate Forward(calls: seq<Call>) {
    && |calls| <= 4
    && (forall i :: 0 <= i < |calls| ==> calls[i].service == ORDER[i])
    && (forall i :: 0 <= i < |calls| - 1 ==> calls[i].returned)
  }

  /** A history that ends with the compensation, which returned. */
  predicate Compensated(calls: seq<Call>) {
    calls != [] && Forward(calls[..|calls| - 1]) && calls[|calls| - 1] == Call(Failure, true)
  }

  /** The calls of a run, by how it ended. */
  predicate History(r: Ending, calls: seq<Call>) {
    match r
    case NoPlan => calls == [Call(Plan, true)]
    case MeasurementRequested => Compensated(calls) && 2 <= |calls| <= 3
    case EffectVerified => Forward(calls) && |calls| == 4 && calls[3].returned
    case Restored =>
      calls != [] && Compensated(calls[..|calls| - 1]) && calls[|calls| - 1] == Call(RestoreCheck, true)
    case Escaped =>
      || Forward(calls)
      || (calls != [] && Forward(calls[..|calls| - 1]) && calls[|calls| - 1].service.Failure?)
      || (calls != [] && Compensated(calls[..|calls| - 1]) && calls[|calls| - 1].service.RestoreCheck?)
  }

  function Count(calls: seq<Call>, s: Service): nat {
    if calls == [] then 0
    else Count(calls[..|calls| - 1], s) + if calls[|calls| - 1].service == s then 1 else 0
  }

  lemma {:induction false} ForwardCount(calls: seq<Call>)
    requires Forward(calls)
    ensures Count(calls, Failure) == 0 && Count(calls, RestoreCheck) == 0
    ensures Count(calls, Execute) == if |calls| >= 3 then 1 else 0
  {
    if calls != [] {
      assert Forward(calls[..|calls| - 1]);
      ForwardCount(calls[..|calls| - 1]);
    }
  }

  /** What a history keeps of its forward part. */
  predicate ExecutedOnce(calls: seq<Call>, failures: nat) {
    && Count(calls, Execute) <= 1 && Count(calls, Failure) == failures
    && forall i :: 0 <= i < |calls| && calls[i].service.Execute? ==> i == 2 && calls[1] == Call(Precheck, true)
  }

  lemma ForwardExecutesOnce(calls: seq<Call>)
    requires Forward(calls)
    ensures ExecutedOnce(calls, 0)
  {
    ForwardCount(calls);
    hide Count;
  }

  lemma OneMoreCall(before: seq<Call>, last: Call, failures: nat)
    requires ExecutedOnce(before, failures) && !last.service.Execute?
    ensures ExecutedOnce(before + [last], if last.service.Failure? then failures + 1 else failures)
  {
    assert (before + [last])[..|before|] == before;
  }

  lemma FailedOnce(calls: seq<Call>)
    requires calls != [] && Forward(calls[..|calls| - 1]) && calls[|calls| - 1].service.Failure?
    ensures ExecutedOnce(calls, 1)
  {
    var before, last := calls[..|calls| - 1], calls[|calls| - 1];
    ForwardExecutesOnce(before);
    OneMoreCall(before, last, 0);
    assert calls == before + [last];
    hide ExecutedOnce;
  }

  lemma RestoredOnce(calls: seq<Call>)
    requires calls != [] && Compensated(calls[..|calls| - 1]) && calls[|calls| - 1].service.RestoreCheck?
    ensures ExecutedOnce(calls, 1)
  {
    var before, last := calls[..|calls| - 1], calls[|calls| - 1];
    FailedOnce(before);
    OneMoreCall(before, last, 1);
    assert calls == before + [last];
    hide ExecutedOnce;
  }

  /**
   Whatever the ending: the plan is executed at most once, and only after its precheck returned; the
   compensation runs exactly once in the measurement and restored endings, never when there was no plan
   or the effect was verified, and at most once when the run raised.
   */
  lemma CallCounts(r: Ending, calls: seq<Call>)
    requires History(r, calls)
    ensures Count(calls, Execute) <= 1
    ensures forall i :: 0 <= i < |calls| && calls[i].service.Execute? ==> i == 2 && calls[1] == Call(Precheck, true)
    ensures r == MeasurementRequested || r == Restored ==> Count(calls, Failure) == 1
    ensures r == NoPlan || r == EffectVerified ==> Count(calls, Failure) == 0
    ensures Count(calls, Failure) <= 1
  {
    hide Count;
    match r
    case NoPlan => ForwardExecutesOnce(calls);
    case EffectVerified => ForwardExecutesOnce(calls);
    case MeasurementRequested => FailedOnce(calls);
    case Restored => RestoredOnce(calls);
    case Escaped =>
      if Forward(calls) {
        ForwardExecutesOnce(calls);
      } else if Forward(calls[..|calls| - 1]) && calls[|calls| - 1].service.Failure? {
        FailedOnce(calls);
      } else {
        RestoredOnce(calls);
      }
  }

  /** The calls of a run that did not raise tell how it ended. */
  lemma EndingsAreDistinct(r: Ending, q: Ending, calls: seq<Call>)
    requires History(r, calls) && History(q, calls) && r != Escaped && q != Escaped
    ensures r == q
  {
    assert forall i :: 0 <= i < |calls| && Forward(calls) ==> calls[i].service == ORDER[i];
  }

  // ---------------------------------------------------------------- the graph

  /** Where the graph is, by what it has called so far and how many nodes it has run. */
  ghost predicate At(node: Node, phase: Phase, restoring: bool, calls: seq<Call>, steps: nat) {
    match node
    case Planner => calls == [] && steps == 0 && !restoring && phase.ToPrecheck?
    case Executor =>
      if restoring then Forward(calls) && 1 <= |calls| && steps <= 4
      else calls == [Call(Plan, true), Call(Precheck, true)] && steps == 2
    case Validator =>
      (match phase
       case ToPrecheck => calls == [Call(Plan, true)] && steps == 1 && !restoring
       case NeedsMeasurement => calls == [Call(Plan, false)] && steps == 1
       case ExecutionFailed => Forward(calls) && 2 <= |calls| <= 3 && steps == 3
       case ToPostcheck => Forward(calls) && |calls| == 3 && calls[2].returned && steps == 3 && !restoring
       case ToRestoreCheck => Compensated(calls) && steps <= 5)
    case End => false
  }

  class FormalIntentGraph {
    const world: nat -> Answer
    var asked: nat
    /** Every service call that was started. */
    var calls: seq<Call>
    var node: Node
    var phase: Phase
    var restoring: bool

    constructor (world: nat -> Answer)
      ensures this.world == world && calls == []
    {
      this.world, asked, calls := world, 0, [];
      node, phase, restoring := Planner, ToPrecheck, false;
    }

    method Ask() returns (a: Answer)
      modifies this`asked
      ensures a == world(old(asked))
    {
      a := world(asked);
      asked := asked + 1;
    }

    /** A direct call of the service. */
    method CallService(s: Service) returns (r: PortResult)
      modifies this`asked, this`calls
      ensures calls == old(calls) + [Call(s, r.Done?)]
    {
      var a := Ask();
      calls := calls + [Call(s, a.completes)];
      return if a.completes then Done else Raised(a.measurement);
    }

    /**
     port: the role boundary is journaled, then the role's model runs the one bound tool. Its handler
     runs at most once. Only the restore handler also runs when the model failed before starting it.
     */
    method Port(s: Service) returns (r: PortResult)
      modifies this`asked, this`calls
      ensures r.Done? ==> calls == old(calls) + [Call(s, true)]
      ensures calls == old(calls) || exists b :: calls == old(calls) + [Call(s, b)]
      ensures r.Raised? && r.measurement ==> calls == old(calls) + [Call(s, false)]
    {
      var a := Ask();
      if !a.stored {
        return Raised(false);
      }
      if a.model && a.modelFailsFirst && !s.Failure? {
        return Raised(false);
      }
      r := CallService(s);
      if r.Done? && a.failsAfter {
        return Raised(false);
      }
    }

    /** Artifacts and journal writes outside a port; a failure escapes the graph. */
    method Store() returns (ok: bool)
      modifies this`asked
    {
      var a := Ask();
      return a.stored;
    }

    method PlannerNode() returns (r: Ending, over: bool)
      requires At(Planner, phase, restoring, calls, 0)
      modifies this
      ensures over ==> History(r, calls)
      ensures !over ==> At(node, phase, restoring, calls, 1)
    {
      var stored := Store();
      if !stored {
        return Escaped, true;
      }
      var planned := CallService(Plan);
      if planned.Raised? {
        if planned.measurement {
          node, phase := Validator, NeedsMeasurement;
        } else {
          node, restoring := Executor, true;
        }
        return Escaped, false;
      }
      var a := Ask();
      if !a.planned {
        return NoPlan, true;
      }
      if !a.stored {
        return Escaped, true;
      }
      node, phase := Validator, ToPrecheck;
      return Escaped, false;
    }

    method ExecutorNode(ghost steps: nat) returns (r: Ending, over: bool)
      requires At(Executor, phase, restoring, calls, steps)
      modifies this
      ensures over ==> History(r, calls)
      ensures !over ==> At(node, phase, restoring, calls, steps + 1)
    {
      ghost var before := calls;
      node := Validator;
      if restoring {
        var restored := Port(Failure);
        if calls != before { assert calls[..|calls| - 1] == before; }
        if restored.Raised? {
          return Escaped, true;
        }
        phase := ToRestoreCheck;
        return Escaped, false;
      }
      var executed := Port(Execute);
      if executed.Raised? {
        restoring, phase := true, ExecutionFailed;
        return Escaped, false;
      }
      var stored := Store();
      if !stored {
        return Escaped, true;
      }
      phase := ToPostcheck;
      return Escaped, false;
    }

    /** A measurement request: the failure is recorded and nothing else is done. */
    method RequestMeasurement() returns (r: Ending)
      requires Forward(calls) && 1 <= |calls| <= 2
      modifies this`asked, this`calls
      ensures History(r, calls) && (r == MeasurementRequested || r == Escaped)
    {
      ghost var before := calls;
      var failed := CallService(Failure);
      assert calls[..|calls| - 1] == before;
      if failed.Raised? {
        return Escaped;
      }
      var stored := Store();
      return if stored then MeasurementRequested else Escaped;
    }

    method ValidatorNode(ghost steps: nat) returns (r: Ending, over: bool)
      requires At(Validator, phase, restoring, calls, steps)
      modifies this
      ensures over ==> History(r, calls)
      ensures !over ==> At(node, phase, restoring, calls, steps + 1)
    {
      ghost var before := calls;
      match phase
      case NeedsMeasurement =>
        var stored := Store();
        if !stored {
          return Escaped, true;
        }
        r := RequestMeasurement();
        return r, true;
      case ExecutionFailed =>
        node, restoring := Executor, true;
        return Escaped, false;
      case ToRestoreCheck =>
        var checked := Port(RestoreCheck);
        if calls != before { assert calls[..|calls| - 1] == before; }
        var stored := Store();
        if checked.Raised? || !stored {
          return Escaped, true;
        }
        return Restored, true;
      case ToPrecheck =>
        var checked := Port(Precheck);
        if checked.Raised? {
          if checked.measurement {
            r := RequestMeasurement();
            return r, true;
          }
          node, restoring := Executor, true;
          return Escaped, false;
        }
        var stored := Store();
        if !stored {
          return Escaped, true;
        }
        node := Executor;
        return Escaped, false;
      case ToPostcheck =>
        var checked := Port(Postcheck);
        if checked.Raised? {
          node, restoring := Executor, true;
          return Escaped, false;
        }
        var stored := Store();
        return if stored then EffectVerified else Escaped, true;
    }

    /** At most six nodes, in one of the four endings unless the run raised. */
    method RunSync() returns (r: Ending, steps: nat)
      requires calls == [] && node == Planner && phase == ToPrecheck && !restoring
      modifies this
      ensures History(r, calls)
      ensures steps <= 6
    {
      hide At;
      hide History;
      steps := 0;
      StartsAtPlanner();
      while steps < 6
        invariant steps <= 6
        invariant At(node, phase, restoring, calls, steps)
        decreases 6 - steps
      {
        var over := false;
        AtMeans(node, phase, restoring, calls, steps);
        match node {
          case Planner => r, over := PlannerNode();
          case Executor => r, over := ExecutorNode(steps);
          case Validator => r, over := ValidatorNode(steps);
        }
        steps := steps + 1;
        if over {
          return;
        }
      }
      AtMeans(node, phase, restoring, calls, steps);
      assert false;
    }
  }

  lemma StartsAtPlanner()
    ensures At(Planner, ToPrecheck, false, [], 0)
  {
  }

  lemma AtMeans(node: Node, phase: Phase, restoring: bool, calls: seq<Call>, steps: nat)
    requires At(node, phase, restoring, calls, steps)
    ensures steps <= 5 && node != End && (node == Planner ==> steps == 0)
  {
  }
}
