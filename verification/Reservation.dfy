/**
 The reservation, nonce and cleanup protocol of the native device smoke (free_ran_device_smoke.py):
 every await may fail, and a failed call may or may not have had its effect.
 */
module Reservation {
  import opened Contracts

  const RETRIES := 5

  /** What happened at the reservation ledger, the admission service and the native network. */
  datatype Event =
    | Reserved(id: nat)
    | Attempted(nonce: nat)
    | Known(nonce: nat)
    | Absent(nonce: nat)
    | AdmissionReleased(nonce: nat)
    | Consumed
    | StopCalled
    | NativeZero
    | Reported(row: OutcomeRow)
    | LedgerReleased
    | Retained

  datatype OutcomeRow = OutcomeRow(nonce: nat, sessionKey: nat, podUid: nat, lineage: nat)

  /** What a history says about the reservation made last, and the rows reported so far. */
  datatype View = View(
    attempted: set<nat>, known: set<nat>, cleared: set<nat>,
    consumed: bool, stopCalled: bool, zero: bool, retained: bool, reported: seq<OutcomeRow>)

  function NewReservation(reported: seq<OutcomeRow>): View {
    View({}, {}, {}, false, false, false, false, reported)
  }

  function Advance(v: View, e: Event): View {
    match e
    case Reserved(_) => NewReservation(v.reported)
    case Attempted(n) => v.(attempted := v.attempted + {n}, cleared := v.cleared - {n})
    case Known(n) => v.(known := v.known + {n}, cleared := v.cleared - {n})
    case Absent(n) => v.(cleared := v.cleared + {n})
    case AdmissionReleased(n) => v.(cleared := v.cleared + {n})
    case Consumed => v.(consumed := true)
    case StopCalled => v.(stopCalled := true)
    case NativeZero => v.(zero := true)
    case Retained => v.(retained := true)
    case Reported(row) => v.(reported := v.reported + [row])
    case _ => v
  }

  function ViewOf(trace: seq<Event>): View {
    if trace == [] then NewReservation([]) else Advance(ViewOf(trace[..|trace| - 1]), trace[|trace| - 1])
  }

  /**
   A reservation goes back to the ledger only unconsumed, when the outcome of every attempted nonce is
   known and every admission with a known outcome is gone; a cycle is reported only after a native zero.
   */
  predicate Allowed(v: View, e: Event) {
    && (e.LedgerReleased? ==> !v.consumed && v.attempted <= v.known <= v.cleared)
    && (e.Reported? ==> v.zero && v.stopCalled)
  }

  ghost predicate Safe(trace: seq<Event>) {
    forall k :: 0 <= k < |trace| ==> Allowed(ViewOf(trace[..k]), trace[k])
  }

  lemma OneMoreEvent(trace: seq<Event>, e: Event)
    requires Safe(trace) && Allowed(ViewOf(trace), e)
    ensures Safe(trace + [e]) && ViewOf(trace + [e]) == Advance(ViewOf(trace), e)
  {
    hide Allowed;
    var longer := trace + [e];
    assert longer[..|trace|] == trace;
    forall k | 0 <= k < |longer| ensures Allowed(ViewOf(longer[..k]), longer[k]) {
      assert longer[..k] == if k < |trace| then trace[..k] else trace;
    }
  }

  // ---------------------------------------------------------------- what the view means

  /** Nothing is forgotten: a nonce attempted since the reservation is in the view. */
  lemma {:induction false} AttemptsAreSeen(trace: seq<Event>, i: nat)
    requires i < |trace| && trace[i].Attempted?
    requires forall k :: i < k < |trace| ==> !trace[k].Reserved?
    ensures trace[i].nonce in ViewOf(trace).attempted
  {
    if i < |trace| - 1 { AttemptsAreSeen(trace[..|trace| - 1], i); }
  }

  /** A cleared nonce was found absent, or was released, after its outcome was last in doubt. */
  lemma {:induction false} ClearedIsEvidence(trace: seq<Event>, n: nat) returns (i: nat)
    requires n in ViewOf(trace).cleared
    ensures i < |trace| && (trace[i] == Absent(n) || trace[i] == AdmissionReleased(n))
    ensures forall k :: i < k < |trace| ==> !trace[k].Reserved? && trace[k] != Attempted(n) && trace[k] != Known(n)
  {
    var last := |trace| - 1;
    if trace[last] == Absent(n) || trace[last] == AdmissionReleased(n) {
      i := last;
    } else {
      i := ClearedIsEvidence(trace[..last], n);
    }
  }

  /** Before every release: each nonce attempted for this reservation was later found absent or released. */
  lemma ReleaseIsEvidenced(trace: seq<Event>, k: nat, i: nat) returns (j: nat)
    requires Safe(trace) && k < |trace| && trace[k].LedgerReleased?
    requires i < k && trace[i].Attempted? && forall m :: i < m < k ==> !trace[m].Reserved?
    ensures i < j < k && (trace[j] == Absent(trace[i].nonce) || trace[j] == AdmissionReleased(trace[i].nonce))
  {
    var before := trace[..k];
    assert Allowed(ViewOf(before), trace[k]);
    AttemptsAreSeen(before, i);
    j := ClearedIsEvidence(before, trace[i].nonce);
    assert before[i] == trace[i] && before[j] == trace[j];
  }

  // ---------------------------------------------------------------- the run

  /** One answer of the world: whether the await returned, whether its effect happened, and its data. */
  datatype Answer = Answer(
    ok: bool, commits: bool, unavailable: bool, foreign: bool, reported: bool,
    id: nat, nonces: seq<nat>, row: OutcomeRow)

  datatype Held = Held(id: nat, nonces: seq<nat>)

  function Elements(s: seq<nat>): set<nat> {
    set n | n in s
  }

  lemma NoElements()
    ensures Elements([]) == {}
  {
  }

  lemma ElementsSnoc(s: seq<nat>, n: nat)
    ensures Elements(s + [n]) == Elements(s) + {n}
  {
  }

  predicate DistinctNeighbours(rows: seq<OutcomeRow>) {
    forall i :: 0 < i < |rows| ==>
      && rows[i].nonce != rows[i - 1].nonce && rows[i].sessionKey != rows[i - 1].sessionKey
      && rows[i].podUid != rows[i - 1].podUid && rows[i].lineage == rows[i - 1].lineage
  }

  lemma NeighboursSnoc(rows: seq<OutcomeRow>, row: OutcomeRow)
    requires DistinctNeighbours(rows)
    requires rows != [] ==>
               var last := rows[|rows| - 1];
               row.lineage == last.lineage && row.nonce != last.nonce && row.sessionKey != last.sessionKey
               && row.podUid != last.podUid
    ensures DistinctNeighbours(rows + [row])
  {
  }

  class SmokeRun {
    const world: nat -> Answer
    var asked: nat
    var held: Option<Held>
    var handles: seq<nat>
    var pending: Option<nat>
    var consumed: bool
    var cleanupConfirmed: bool
    var outcomes: seq<OutcomeRow>
    /** How many reservations the ledger committed in this run. */
    var commits: nat
    /** The history, and what it says. */
    ghost var trace: seq<Event>
    var view: View

    constructor (world: nat -> Answer)
      ensures this.world == world && Recorded() && Tracks() && held.None? && outcomes == [] && commits == 0
      ensures !view.consumed
    {
      this.world, asked, commits := world, 0, 0;
      held, handles, pending, consumed, cleanupConfirmed := None, [], None, false, false;
      outcomes, trace, view := [], [], NewReservation([]);
    }

    ghost predicate Recorded()
      reads this
    {
      Safe(trace) && view == ViewOf(trace)
    }

    /** What the run's own variables know about the last reservation. */
    predicate Tracks()
      reads this
    {
      && DistinctNeighbours(outcomes) && outcomes == view.reported
      && (consumed ==> held.Some?)
      && (held.None? ==> !view.consumed || view.stopCalled)
      && (cleanupConfirmed && held.Some? ==> view.stopCalled && view.zero)
      && (held.Some? && !cleanupConfirmed ==>
            && view.attempted <= Elements(handles) + (if pending.Some? then {pending.value} else {})
            && view.known == Elements(handles)
            && (view.consumed ==> pending.None?)
            && (consumed ==> view.consumed))
    }

    method Ask() returns (a: Answer)
      modifies this`asked
      ensures a == world(old(asked))
    {
      a := world(asked);
      asked := asked + 1;
    }

    method Record(e: Event)
      requires Recorded() && Allowed(view, e)
      modifies this`trace, this`view
      ensures Recorded() && trace == old(trace) + [e] && view == Advance(old(view), e)
    {
      hide Safe;
      hide ViewOf;
      hide Advance;
      hide Allowed;
      OneMoreEvent(trace, e);
      trace := trace + [e];
      view := Advance(view, e);
    }

    /**
     reserve_after_native_ready: a read failure is retried only while the ledger shows no change, so
     however the attempts end, at most one reservation was committed.
     */
    method ReserveAfterNativeReady() returns (r: Option<Held>)
      requires Recorded()
      modifies this`asked, this`trace, this`view, this`commits
      ensures Recorded()
      ensures old(commits) <= commits <= old(commits) + 1
      ensures r.Some? ==> commits == old(commits) + 1 && view == NewReservation(old(view).reported)
      ensures commits == old(commits) ==> view == old(view)
      ensures commits > old(commits) ==> view == NewReservation(old(view).reported)
    {
      hide Safe;
      hide ViewOf;
      ghost var start := commits;
      for attempt := 0 to RETRIES
        invariant Recorded() && commits == start && view == old(view)
      {
        var guard := Ask();
        if !guard.ok {
          return None;
        }
        var a := Ask();
        if a.ok {
          Record(Reserved(a.id));
          commits := commits + 1;
          return Some(Held(a.id, a.nonces));
        }
        if a.commits {
          Record(Reserved(a.id));
          commits := commits + 1;
        }
        var changed := a.commits || a.foreign;
        if !a.unavailable || changed || attempt == RETRIES - 1 {
          return None;
        }
      }
      return None;
    }

    /** The attempted nonce is noted before its registration, and its handle after. */
    method InstallOne(n: nat) returns (ok: bool)
      requires Recorded() && Tracks() && held.Some? && !cleanupConfirmed && !consumed && pending.None?
      requires !view.consumed && !view.stopCalled
      modifies this`asked, this`trace, this`view, this`handles, this`pending
      ensures Recorded() && Tracks() && !view.consumed && !view.stopCalled
      ensures ok ==> pending.None? && handles == old(handles) + [n]
    {
      hide Safe;
      hide ViewOf;
      hide DistinctNeighbours;
      hide Elements;
      ElementsSnoc(handles, n);
      pending := Some(n);
      var noted := Ask();
      if !noted.ok {
        return false;
      }
      var a := Ask();
      Record(Attempted(n));
      if !a.ok {
        return false;
      }
      Record(Known(n));
      handles := handles + [n];
      pending := None;
      var written := Ask();
      return written.ok;
    }

    method InstallAll(nonces: seq<nat>) returns (ok: bool)
      requires Recorded() && Tracks() && held.Some? && !cleanupConfirmed && !consumed && pending.None?
      requires handles == [] && !view.consumed && !view.stopCalled
      modifies this`asked, this`trace, this`view, this`handles, this`pending
      ensures Recorded() && Tracks() && !view.consumed && !view.stopCalled
      ensures ok ==> pending.None? && handles == nonces
    {
      hide Safe;
      hide ViewOf;
      hide Tracks;
      for i := 0 to |nonces|
        invariant Recorded() && Tracks() && pending.None? && handles == nonces[..i] && !view.consumed && !view.stopCalled
      {
        var installed := InstallOne(nonces[i]);
        if !installed {
          return false;
        }
      }
      return true;
    }

    /** stop_owned: every pending registration is released, then an independent native zero is read. */
    method StopOwned() returns (ok: bool)
      requires Recorded()
      modifies this`asked, this`trace, this`view
      ensures Recorded() && view.stopCalled && (ok ==> view.zero && Elements(handles) <= view.cleared)
      ensures view == old(view).(stopCalled := true, zero := view.zero, cleared := view.cleared)
    {
      hide Safe;
      hide ViewOf;
      hide Elements;
      var all := handles;
      NoElements();
      assert all[..0] == [];
      Record(StopCalled);
      for i := 0 to |all|
        invariant Recorded() && view == old(view).(stopCalled := true, cleared := view.cleared)
        invariant Elements(all[..i]) <= view.cleared
      {
        ElementsSnoc(all[..i], all[i]);
        assert all[..i + 1] == all[..i] + [all[i]];
        var a := Ask();
        if !a.ok || !a.reported {
          return false;
        }
        var released := Ask();
        if !released.ok {
          return false;
        }
        Record(AdmissionReleased(all[i]));
      }
      assert all[..|all|] == all;
      var zero := Ask();
      if !zero.ok {
        return false;
      }
      Record(NativeZero);
      return true;
    }

    /** The attach and measurement part of a cycle; the consumption may be committed by a failed request. */
    method ConsumeAndAttach() returns (ok: bool)
      requires Recorded() && Tracks() && held.Some? && !cleanupConfirmed && !consumed && pending.None? && !view.stopCalled
      modifies this`asked, this`trace, this`view, this`consumed
      ensures Recorded() && Tracks() && !view.stopCalled && (ok ==> consumed)
    {
      hide Safe;
      hide ViewOf;
      hide DistinctNeighbours;
      var request := Ask();
      if request.ok || request.commits {
        Record(Consumed);
      }
      if !request.ok {
        return false;
      }
      consumed := true;
      var attached := Ask();
      return attached.ok;
    }

    /** The reservation of a cycle, once its record is written. */
    method Hold() returns (ok: bool)
      requires Recorded() && Tracks() && held.None? && !consumed
      modifies this
      ensures Recorded() && Tracks() && outcomes == old(outcomes) && old(commits) <= commits <= old(commits) + 1
      ensures ok ==> held.Some? && handles == [] && pending.None? && !consumed && !cleanupConfirmed
                     && !view.consumed && !view.stopCalled
    {
      hide Safe;
      hide ViewOf;
      hide DistinctNeighbours;
      var reserved := ReserveAfterNativeReady();
      if reserved.None? {
        return false;
      }
      held, handles, pending, consumed, cleanupConfirmed := reserved, [], None, false, false;
      var written := Ask();
      return written.ok;
    }

    /** One cycle; false is an exception somewhere on the way. */
    method Cycle() returns (ok: bool)
      requires Recorded() && Tracks() && held.None? && !consumed
      modifies this
      ensures Recorded() && Tracks()
      ensures ok ==> held.None? && !consumed && |outcomes| == |old(outcomes)| + 1
      ensures !ok ==> outcomes == old(outcomes)
      ensures commits <= old(commits) + 1
    {
      hide Safe;
      hide ViewOf;
      hide DistinctNeighbours;
      var ready := Ask();
      if !ready.ok {
        return false;
      }
      var reserved := Hold();
      if !reserved {
        return false;
      }
      var installed := InstallAll(held.value.nonces);
      if !installed {
        return false;
      }
      var attached := ConsumeAndAttach();
      if !attached {
        return false;
      }
      var stopped := StopOwned();
      if !stopped {
        return false;
      }
      cleanupConfirmed := true;
      ok := ReportOutcome();
    }

    /** The outcome is appended only after its lineage differs from the one before. */
    method ReportOutcome() returns (ok: bool)
      requires Recorded() && Tracks() && held.Some? && cleanupConfirmed
      modifies this
      ensures Recorded() && Tracks() && commits == old(commits)
      ensures ok ==> held.None? && !consumed && |outcomes| == |old(outcomes)| + 1
      ensures !ok ==> outcomes == old(outcomes)
    {
      hide Safe;
      hide ViewOf;
      hide DistinctNeighbours;
      var a := Ask();
      if !a.ok || handles == [] {
        return false;
      }
      var row := a.row.(nonce := handles[0]);
      if outcomes != [] {
        var last := outcomes[|outcomes| - 1];
        if row.lineage != last.lineage || row.nonce == last.nonce || row.sessionKey == last.sessionKey
           || row.podUid == last.podUid {
          return false;
        }
      }
      NeighboursSnoc(outcomes, row);
      Record(Reported(row));
      outcomes := outcomes + [row];
      held, handles, consumed := None, [], false;
      return true;
    }

    /** The outcome of every attempted nonce is recovered, and every admission still reported is released. */
    method ReleaseHeld()
      requires Recorded() && Tracks() && held.Some? && !cleanupConfirmed && !consumed && !view.consumed
      modifies this
      ensures Recorded() && !view.consumed && outcomes == old(outcomes) == view.reported && commits == old(commits)
    {
      hide Safe;
      hide ViewOf;
      hide DistinctNeighbours;
      ghost var rows := outcomes;
      if pending.Some? {
        var recovered := Ask();
        if !recovered.ok {
          return;
        }
        Record(Known(pending.value));
        handles := handles + [pending.value];
      }
      var all := handles;
      assert Elements(all[..0]) == {};
      for i := 0 to |all|
        invariant Recorded() && !view.consumed && outcomes == rows == view.reported && commits == old(commits)
        invariant view.attempted <= view.known == Elements(all)
        invariant Elements(all[..i]) <= view.cleared
      {
        var a := Ask();
        if !a.ok {
          return;
        }
        if a.reported {
          var released := Ask();
          if !released.ok {
            return;
          }
          Record(AdmissionReleased(all[i]));
        } else {
          Record(Absent(all[i]));
        }
        assert all[..i + 1] == all[..i] + [all[i]];
      }
      assert all[..|all|] == all;
      var ledger := Ask();
      if ledger.ok || ledger.commits {
        Record(LedgerReleased);
      }
    }

    /** The finally block. */
    method Finally()
      requires Recorded() && Tracks()
      modifies this
      ensures Recorded() && outcomes == old(outcomes) == view.reported && commits == old(commits)
      ensures view.consumed ==> view.stopCalled || view.retained
    {
      hide Safe;
      hide ViewOf;
      hide DistinctNeighbours;
      if held.Some? && !consumed && !cleanupConfirmed {
        var read := Ask();
        if !read.ok {
          Record(Retained);
          return;
        }
        if view.consumed {
          if read.foreign {
            Record(Retained);
            return;
          }
          consumed := true;
        }
      }
      if consumed && !cleanupConfirmed {
        var _ := StopOwned();
      } else if held.Some? && !cleanupConfirmed {
        ReleaseHeld();
      }
    }

    /**
     The whole run. Its history is safe; the outcomes of consecutive cycles never share a nonce, a
     session key or a Pod UID; a consumed reservation was taken to stop_owned, or is retained because
     the ledger could not be read or had changed; no more reservations than cycles were committed.
     */
    method Run(cycles: nat) returns (ok: bool)
      requires Recorded() && Tracks() && held.None? && !consumed && outcomes == [] && commits == 0
      modifies this
      ensures Safe(trace)
      ensures DistinctNeighbours(outcomes) && outcomes == ViewOf(trace).reported
      ensures ok ==> |outcomes| == cycles
      ensures ViewOf(trace).consumed ==> ViewOf(trace).stopCalled || ViewOf(trace).retained
      ensures commits <= cycles
    {
      hide Safe;
      hide ViewOf;
      hide DistinctNeighbours;
      ok := true;
      var done := 0;
      while ok && done < cycles
        invariant Recorded() && Tracks() && done <= cycles
        invariant ok ==> held.None? && !consumed && |outcomes| == done
        invariant commits <= done
        decreases cycles - done, ok
      {
        ok := Cycle();
        done := done + 1;
      }
      Finally();
    }
  }
}
