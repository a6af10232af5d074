/** The scheduling of full captures from summary polls (calibration_polling.py). */
module PollTracker {
  import opened Contracts

  const MAXIMUM_RESULTS := 3
  const CAPTURE_SPACING := 0.5

  datatype Boundary = NoCapture | FailureCapture | CleanupCapture | ResultCapture

  /** The stages the tracker tells apart; any other keeps its name. */
  datatype Stage = Completed | ResultsReady | Named(name: string)

  datatype Summary = Summary(round: string, sequence: int, revision: int, generation: Option<int>,
                             stage: Stage, failed: bool)

  /** An accepted poll with what was decided for it. */
  datatype Poll = Poll(sequence: int, stage: Stage, failed: bool, now: real, saved: bool, capture: Boundary)

  datatype Decision = Rejected | Decision(saved: bool, capture: Boundary)

  predicate Identified(s: Summary) {
    s.round != "" && s.sequence >= 0 && s.revision >= 0 && s.stage != Named("")
    && (s.generation.Some? ==> s.generation.value >= 0)
  }

  // ---------------------------------------------------------------- what a history says

  function LastSequence(h: seq<Poll>): int {
    if h == [] then -1 else h[|h| - 1].sequence
  }

  function Captured(h: seq<Poll>, b: Boundary): bool {
    exists i :: 0 <= i < |h| && h[i].capture == b
  }

  /** The sequences of the result captures. */
  function Results(h: seq<Poll>): set<int> {
    if h == [] then {}
    else Results(h[..|h| - 1]) + if h[|h| - 1].capture == ResultCapture then {h[|h| - 1].sequence} else {}
  }

  /** When a summary was last saved, and when a full capture was last reserved. */
  function LastSaved(h: seq<Poll>): Option<real> {
    if h == [] then None
    else if h[|h| - 1].saved then Some(h[|h| - 1].now)
    else LastSaved(h[..|h| - 1])
  }

  function LastFull(h: seq<Poll>): Option<real> {
    if h == [] then None
    else if h[|h| - 1].capture != NoCapture then Some(h[|h| - 1].now)
    else LastFull(h[..|h| - 1])
  }

  predicate Follows(h: seq<Poll>, sequence: int, now: real) {
    sequence >= LastSequence(h) && (h != [] ==> now >= h[|h| - 1].now)
  }

  /** Whether this poll's summary must be saved. */
  predicate MustSave(h: seq<Poll>, heartbeat: real, sequence: int, stage: Stage, now: real) {
    h == [] || sequence != LastSequence(h) || stage != h[|h| - 1].stage
    || LastSaved(h).None? || now - LastSaved(h).value >= heartbeat
  }

  /** The full capture this poll reserves: failure before cleanup before results. */
  function Reserves(h: seq<Poll>, sequence: int, stage: Stage, failed: bool, now: real): Boundary {
    if failed && !Captured(h, FailureCapture) then FailureCapture
    else if stage == Completed && !Captured(h, CleanupCapture) then CleanupCapture
    else if stage == ResultsReady && sequence !in Results(h) && |Results(h)| < MAXIMUM_RESULTS
            && (LastFull(h).None? || now - LastFull(h).value >= CAPTURE_SPACING) then ResultCapture
    else NoCapture
  }

  /** A history in which every poll was accepted and decided by the polls before it. */
  ghost predicate Planned(h: seq<Poll>, heartbeat: real) {
    forall k :: 0 <= k < |h| ==> Decided(h[..k], heartbeat, h[k])
  }

  ghost predicate Decided(h: seq<Poll>, heartbeat: real, p: Poll) {
    && p.sequence >= 0 && Follows(h, p.sequence, p.now)
    && p.saved == MustSave(h, heartbeat, p.sequence, p.stage, p.now)
    && p.capture == Reserves(h, p.sequence, p.stage, p.failed, p.now)
  }

  // ---------------------------------------------------------------- laws of every history

  lemma PlannedBefore(h: seq<Poll>, heartbeat: real, k: nat)
    requires Planned(h, heartbeat) && k <= |h|
    ensures Planned(h[..k], heartbeat)
  {
    hide Decided;
    forall i | 0 <= i < k ensures Decided(h[..k][..i], heartbeat, h[..k][i]) {
      assert h[..k][..i] == h[..i];
    }
  }

  lemma NextIsLater(h: seq<Poll>, heartbeat: real, j: nat)
    requires Planned(h, heartbeat) && 0 < j < |h|
    ensures h[j - 1].sequence <= h[j].sequence && h[j - 1].now <= h[j].now
  {
    hide MustSave;
    hide Reserves;
    var before := h[..j];
    assert Decided(before, heartbeat, h[j]);
    assert before[|before| - 1] == h[j - 1];
  }

  lemma {:induction false} Ordered(h: seq<Poll>, heartbeat: real, i: nat, j: nat)
    requires Planned(h, heartbeat) && i < j < |h|
    ensures h[i].sequence <= h[j].sequence && h[i].now <= h[j].now
    decreases j
  {
    hide Planned;
    NextIsLater(h, heartbeat, j);
    if i < j - 1 { Ordered(h, heartbeat, i, j - 1); }
  }

  /** The newest full capture is at least as late as any other. */
  lemma {:induction false} LastFullIsLatest(h: seq<Poll>, heartbeat: real, i: nat)
    requires Planned(h, heartbeat) && i < |h| && h[i].capture != NoCapture
    ensures LastFull(h).Some? && LastFull(h).value >= h[i].now
  {
    hide Planned;
    var n := |h| - 1;
    if h[n].capture != NoCapture {
      if i < n { Ordered(h, heartbeat, i, n); }
    } else {
      PlannedBefore(h, heartbeat, n);
      LastFullIsLatest(h[..n], heartbeat, i);
    }
  }

  lemma {:induction false} LastSavedIsSaved(h: seq<Poll>)
    ensures LastSaved(h).Some? ==>
              exists j :: 0 <= j < |h| && h[j].saved && h[j].now == LastSaved(h).value
  {
    if h != [] && !h[|h| - 1].saved {
      LastSavedIsSaved(h[..|h| - 1]);
      if LastSaved(h).Some? {
        var j :| 0 <= j < |h| - 1 && h[..|h| - 1][j].saved && h[..|h| - 1][j].now == LastSaved(h).value;
        assert h[j].saved;
      }
    }
  }

  lemma {:induction false} ResultsContain(h: seq<Poll>, i: nat)
    requires i < |h| && h[i].capture == ResultCapture
    ensures h[i].sequence in Results(h)
  {
    if i < |h| - 1 { ResultsContain(h[..|h| - 1], i); }
  }

  /** At most one failure and one cleanup capture. */
  lemma CapturedOnce(h: seq<Poll>, heartbeat: real, i: nat, j: nat)
    requires Planned(h, heartbeat) && i < j < |h|
    ensures h[i].capture == h[j].capture ==> h[i].capture == NoCapture || h[i].capture == ResultCapture
  {
    assert Decided(h[..j], heartbeat, h[j]);
    assert h[..j][i] == h[i];
  }

  /** What a result capture finds in the polls before it. */
  lemma ResultFinds(h: seq<Poll>, heartbeat: real, p: Poll)
    requires Decided(h, heartbeat, p) && p.capture == ResultCapture
    ensures p.sequence !in Results(h) && |Results(h)| < MAXIMUM_RESULTS
    ensures LastFull(h).None? || p.now - LastFull(h).value >= CAPTURE_SPACING
  {
    hide MustSave;
    hide Follows;
    hide Captured;
    hide Results;
    hide LastFull;
  }

  /** Result captures are of strictly increasing sequences, and wait after every full capture. */
  lemma ResultsAdvance(h: seq<Poll>, heartbeat: real, i: nat, j: nat)
    requires Planned(h, heartbeat) && i < j < |h| && h[j].capture == ResultCapture
    ensures h[i].capture == ResultCapture ==> h[i].sequence < h[j].sequence
    ensures h[i].capture != NoCapture ==> h[j].now - h[i].now >= CAPTURE_SPACING
  {
    hide Decided;
    hide Results;
    hide LastFull;
    var before := h[..j];
    assert Decided(before, heartbeat, h[j]);
    ResultFinds(before, heartbeat, h[j]);
    Ordered(h, heartbeat, i, j);
    PlannedBefore(h, heartbeat, j);
    hide Planned;
    if h[i].capture == ResultCapture { ResultsContain(before, i); }
    if h[i].capture != NoCapture { LastFullIsLatest(before, heartbeat, i); }
  }

  function CountResults(h: seq<Poll>): nat {
    if h == [] then 0
    else CountResults(h[..|h| - 1]) + if h[|h| - 1].capture == ResultCapture then 1 else 0
  }

  /** At most three result captures, each of its own sequence. */
  lemma {:induction false} ResultsBounded(h: seq<Poll>, heartbeat: real)
    requires Planned(h, heartbeat)
    ensures CountResults(h) == |Results(h)| <= MAXIMUM_RESULTS
  {
    if h != [] {
      var n := |h| - 1;
      PlannedBefore(h, heartbeat, n);
      ResultsBounded(h[..n], heartbeat);
      assert Decided(h[..n], heartbeat, h[n]);
    }
  }

  /**
   Every change of sequence or stage is saved, and a poll that is not saved is within the heartbeat
   of one that was.
   */
  lemma ChangesAreSaved(h: seq<Poll>, heartbeat: real, k: nat)
    requires Planned(h, heartbeat) && k < |h| && !h[k].saved
    ensures k > 0 && h[k].sequence == h[k - 1].sequence && h[k].stage == h[k - 1].stage
    ensures exists j :: 0 <= j < k && h[j].saved && h[k].now - h[j].now < heartbeat
  {
    assert Decided(h[..k], heartbeat, h[k]);
    LastSavedIsSaved(h[..k]);
    var j :| 0 <= j < k && h[..k][j].saved && h[..k][j].now == LastSaved(h[..k]).value;
    assert h[j].saved && h[k].now - h[j].now < heartbeat;
  }

  // ---------------------------------------------------------------- the tracker

  /** The tracker's fields. */
  datatype Fields = Fields(
    sequence: int, stage: Option<Stage>, lastSaved: Option<real>, lastPoll: Option<real>,
    failureAttempted: bool, cleanupAttempted: bool, results: set<int>, lastFull: Option<real>)

  /** The fields say of the accepted polls what the next decision needs. */
  ghost predicate Tracks(f: Fields, h: seq<Poll>, heartbeat: real) {
    && Planned(h, heartbeat)
    && f.sequence == LastSequence(h)
    && f.stage == (if h == [] then None else Some(h[|h| - 1].stage))
    && f.lastPoll == (if h == [] then None else Some(h[|h| - 1].now))
    && f.lastSaved == LastSaved(h) && f.lastFull == LastFull(h)
    && f.failureAttempted == Captured(h, FailureCapture)
    && f.cleanupAttempted == Captured(h, CleanupCapture)
    && f.results == Results(h)
  }

  function Advanced(f: Fields, p: Poll): Fields {
    Fields(p.sequence, Some(p.stage), if p.saved then Some(p.now) else f.lastSaved, Some(p.now),
           f.failureAttempted || p.capture == FailureCapture, f.cleanupAttempted || p.capture == CleanupCapture,
           if p.capture == ResultCapture then f.results + {p.sequence} else f.results,
           if p.capture != NoCapture then Some(p.now) else f.lastFull)
  }

  lemma AdvancedTracks(f: Fields, h: seq<Poll>, heartbeat: real, p: Poll)
    requires Tracks(f, h, heartbeat) && Decided(h, heartbeat, p)
    ensures Tracks(Advanced(f, p), h + [p], heartbeat)
  {
    hide Decided;
    Appended(h, heartbeat, p);
    hide Planned;
    hide LastSaved;
    hide LastFull;
    hide Captured;
    hide Results;
  }

  /** What one more decided poll adds to a history. */
  lemma Appended(h: seq<Poll>, heartbeat: real, p: Poll)
    requires Planned(h, heartbeat) && Decided(h, heartbeat, p)
    ensures Planned(h + [p], heartbeat)
    ensures LastSaved(h + [p]) == if p.saved then Some(p.now) else LastSaved(h)
    ensures LastFull(h + [p]) == if p.capture != NoCapture then Some(p.now) else LastFull(h)
    ensures forall b :: Captured(h + [p], b) == (Captured(h, b) || p.capture == b)
    ensures Results(h + [p]) == if p.capture == ResultCapture then Results(h) + {p.sequence} else Results(h)
  {
    hide Decided;
    var longer := h + [p];
    assert longer[..|h|] == h;
    forall k | 0 <= k < |longer| ensures Decided(longer[..k], heartbeat, longer[k]) {
      assert longer[..k] == if k < |h| then h[..k] else h;
    }
    assert forall i :: 0 <= i < |h| ==> longer[i] == h[i];
    assert longer[|h|] == p;
  }

  class SummaryPollTracker {
    const round: string
    const heartbeat: real
    var sequence: int
    var stage: Option<Stage>
    var lastSaved: Option<real>
    var lastPoll: Option<real>
    var failureAttempted: bool
    var cleanupAttempted: bool
    var resultSequences: set<int>
    var lastFull: Option<real>
    /** Every accepted poll. */
    ghost var history: seq<Poll>

    ghost function View(): Fields
      reads this
    {
      Fields(sequence, stage, lastSaved, lastPoll, failureAttempted, cleanupAttempted, resultSequences, lastFull)
    }

    ghost predicate Valid()
      reads this
    {
      Tracks(View(), history, heartbeat)
    }

    constructor (round: string, heartbeat: real)
      requires round != "" && 0.25 <= heartbeat <= 30.0
      ensures Valid() && history == [] && this.round == round && this.heartbeat == heartbeat
    {
      this.round, this.heartbeat := round, heartbeat;
      sequence, stage, lastSaved, lastPoll := -1, None, None, None;
      failureAttempted, cleanupAttempted, resultSequences, lastFull := false, false, {}, None;
      history := [];
    }

    /** `now` is None for a clock that is not a finite number. */
    method Plan(s: Summary, now: Option<real>) returns (d: Decision)
      requires Valid()
      modifies this
      ensures Valid()
      ensures d.Rejected? <==>
                !Identified(s) || now.None? || s.round != round || !Follows(old(history), s.sequence, now.value)
      ensures d.Rejected? ==> unchanged(this)
      ensures d.Decision? ==> history == old(history) + [Poll(s.sequence, s.stage, s.failed, now.value, d.saved, d.capture)]
    {
      hide Planned;
      hide LastSaved;
      hide LastFull;
      hide Captured;
      hide Results;
      hide Tracks;
      hide Follows;
      hide MustSave;
      hide Reserves;
      var admitted := Admits(s, now);
      if !admitted {
        return Rejected;
      }
      var at := now.value;
      ghost var before, past := View(), history;
      var saved := Save(s, at);
      var capture := Reserve(s, at);
      sequence, stage, lastPoll := s.sequence, Some(s.stage), Some(at);
      if saved {
        lastSaved := Some(at);
      }
      if capture != NoCapture {
        lastFull := Some(at);
      }
      d := Decision(saved, capture);
      ghost var poll := Poll(s.sequence, s.stage, s.failed, at, saved, capture);
      history := past + [poll];
      AdvancedTracks(before, past, heartbeat, poll);
      assert View() == Advanced(before, poll);
    }

    /** An owned, well-formed summary that goes back neither in sequence nor in time. */
    method Admits(s: Summary, now: Option<real>) returns (ok: bool)
      requires Valid()
      ensures ok <==> Identified(s) && now.Some? && s.round == round && Follows(history, s.sequence, now.value)
    {
      hide Planned;
      hide LastSaved;
      hide LastFull;
      hide Captured;
      hide Results;
      if !Identified(s) || now.None? || s.round != round || s.sequence < sequence {
        return false;
      }
      return lastPoll.None? || now.value >= lastPoll.value;
    }

    /** Whether the summary is a change, or the heartbeat is due. */
    method Save(s: Summary, at: real) returns (saved: bool)
      requires Valid()
      ensures saved == MustSave(history, heartbeat, s.sequence, s.stage, at)
    {
      hide Planned;
      hide LastSaved;
      hide LastFull;
      hide Captured;
      hide Results;
      saved := s.sequence != sequence || stage != Some(s.stage)
               || lastSaved.None? || at - lastSaved.value >= heartbeat;
    }

    /** The attempt is reserved even when the later full response fails. */
    method Reserve(s: Summary, at: real) returns (capture: Boundary)
      requires Valid()
      modifies this`failureAttempted, this`cleanupAttempted, this`resultSequences
      ensures capture == Reserves(history, s.sequence, s.stage, s.failed, at)
      ensures failureAttempted == (old(failureAttempted) || capture == FailureCapture)
      ensures cleanupAttempted == (old(cleanupAttempted) || capture == CleanupCapture)
      ensures resultSequences
           == if capture == ResultCapture then old(resultSequences) + {s.sequence} else old(resultSequences)
    {
      hide Planned;
      hide LastSaved;
      hide Captured;
      hide Results;
      hide LastFull;
      capture := NoCapture;
      if s.failed && !failureAttempted {
        capture, failureAttempted := FailureCapture, true;
      } else if s.stage == Completed && !cleanupAttempted {
        capture, cleanupAttempted := CleanupCapture, true;
      } else if s.stage == ResultsReady && s.sequence !in resultSequences
                && |resultSequences| < MAXIMUM_RESULTS
                && (lastFull.None? || at - lastFull.value >= CAPTURE_SPACING) {
        capture, resultSequences := ResultCapture, resultSequences + {s.sequence};
      }
    }
  }

  // ---------------------------------------------------------------- joining a full response

  /** The fields of a full response that bind it to its trigger. */
  datatype Full = Full(summary: Summary, projected: bool, passed: bool, observedAt: Option<real>, releasedAt: Option<real>)

  predicate Fresh(stamp: Option<real>, received: real) {
    stamp.Some? && -1.0 <= received - stamp.value <= 15.0
  }

  predicate Joined(s: Summary, f: Full, b: Boundary, received: real) {
    && Identified(s) && Identified(f.summary) && !f.projected && b != NoCapture
    && f.summary.round == s.round && f.summary.generation == s.generation
    && f.summary.revision == s.revision && f.summary.stage == s.stage && f.summary.sequence >= s.sequence
    && match b
       case ResultCapture => f.summary.stage == ResultsReady && f.passed && !f.summary.failed && Fresh(f.observedAt, received)
       case CleanupCapture => f.summary.stage == Completed && Fresh(f.releasedAt, received)
       case _ => f.summary.failed
  }

  /** No response can serve as a live result and as anything else, whatever summary triggered it. */
  lemma ResultIsOnlyResult(s: Summary, s': Summary, f: Full, b: Boundary, received: real, received': real)
    requires Joined(s, f, ResultCapture, received) && Joined(s', f, b, received')
    ensures b == ResultCapture
  {
  }
}
