/** Event cohorts and their treatment/holdout split (native_observation.py, commissioned_candidates). */
module Cohort {
  import opened Contracts

  /** The profiles of the city catalog, in catalog order. */
  const EVENTS: seq<string> :=
    ["web_browsing", "video_streaming", "realtime_control", "connected_traffic", "factory_iot"]

  const PLANNER_LIMIT := 18

  // ---------------------------------------------------------------- string order

  /** Lexicographic order by code point, the order in which strings are sorted. */
  predicate AtMost(a: string, b: string) {
    a == [] || (b != [] && (a[0] < b[0] || (a[0] == b[0] && AtMost(a[1..], b[1..]))))
  }

  lemma {:induction false} AtMostTotal(a: string, b: string)
    ensures AtMost(a, b) || AtMost(b, a)
    ensures AtMost(a, b) && AtMost(b, a) ==> a == b
  {
    if a != [] && b != [] && a[0] == b[0] {
      AtMostTotal(a[1..], b[1..]);
      assert a == [a[0]] + a[1..] && b == [b[0]] + b[1..];
    }
  }

  lemma {:induction false} AtMostTransitive(a: string, b: string, c: string)
    requires AtMost(a, b) && AtMost(b, c)
    ensures AtMost(a, c)
  {
    if a != [] && a[0] == b[0] == c[0] {
      AtMostTransitive(a[1..], b[1..], c[1..]);
    }
  }

  ghost predicate Ordered(s: seq<string>) {
    forall i, j :: 0 <= i < j < |s| ==> AtMost(s[i], s[j])
  }

  function Insert(x: string, s: seq<string>): (r: seq<string>)
    ensures multiset(r) == multiset(s) + multiset{x}
  {
    if s == [] then [x]
    else if AtMost(x, s[0]) then [x] + s
    else
      assert s == [s[0]] + s[1..];
      [s[0]] + Insert(x, s[1..])
  }

  function Sort(s: seq<string>): (r: seq<string>)
    ensures multiset(r) == multiset(s)
  {
    if s == [] then []
    else
      assert s == [s[0]] + s[1..];
      Insert(s[0], Sort(s[1..]))
  }

  lemma {:induction false} InsertOrdered(x: string, s: seq<string>)
    requires Ordered(s)
    ensures Ordered(Insert(x, s))
  {
    if s == [] {
    } else if AtMost(x, s[0]) {
      forall j | 0 <= j < |s| ensures AtMost(x, s[j]) {
        if j > 0 { AtMostTransitive(x, s[0], s[j]); }
      }
    } else {
      InsertOrdered(x, s[1..]);
      AtMostTotal(x, s[0]);
      var r := Insert(x, s[1..]);
      forall j | 0 <= j < |r| ensures AtMost(s[0], r[j]) {
        assert r[j] in multiset(r);
        if r[j] != x {
          assert r[j] in multiset(s[1..]);
        }
      }
    }
  }

  lemma {:induction false} SortOrdered(s: seq<string>)
    ensures Ordered(Sort(s))
  {
    if s != [] {
      SortOrdered(s[1..]);
      InsertOrdered(s[0], Sort(s[1..]));
    }
  }

  lemma HeadTail<T>(s: seq<T>)
    requires s != []
    ensures s == [s[0]] + s[1..]
    ensures multiset(s[1..]) == multiset(s) - multiset{s[0]}
  {
    assert s == [s[0]] + s[1..];
  }

  lemma HeadIsLeast(s: seq<string>, x: string)
    requires Ordered(s) && x in multiset(s)
    ensures AtMost(s[0], x)
  {
    var i :| 0 <= i < |s| && s[i] == x;
    AtMostTotal(x, x);
  }

  /** An ordered sequence is determined by its elements. */
  lemma {:induction false} OrderedUnique(a: seq<string>, b: seq<string>)
    requires Ordered(a) && Ordered(b) && multiset(a) == multiset(b)
    ensures a == b
  {
    if a == [] {
      assert |b| == |multiset(b)| == 0;
    } else {
      assert a[0] in multiset(b);
      assert b != [] && b[0] in multiset(a);
      HeadIsLeast(a, b[0]);
      HeadIsLeast(b, a[0]);
      AtMostTotal(a[0], b[0]);
      HeadTail(a);
      HeadTail(b);
      OrderedUnique(a[1..], b[1..]);
    }
  }

  // ---------------------------------------------------------------- specification

  /** The SUPIs of one event, in row order. */
  function EventSupis(rows: seq<Row>, event: string): seq<string> {
    if rows == [] then []
    else (if rows[0].eventId == event then [rows[0].supi] else []) + EventSupis(rows[1..], event)
  }

  /** The sorted SUPIs of one event. */
  function CohortList(rows: seq<Row>, event: string): seq<string> {
    Sort(EventSupis(rows, event))
  }

  predicate NoDuplicates<T(==)>(s: seq<T>) {
    forall i, j :: 0 <= i < j < |s| ==> s[i] != s[j]
  }

  function Split(n: nat): nat {
    if n / 2 > 1 then n / 2 else 1
  }

  function MakeCandidate(event: string, profile: string, supis: seq<string>): Candidate
    requires supis != []
  {
    Candidate(event + ":" + profile, event, profile, supis[..Split(|supis|)], supis[Split(|supis|)..])
  }

  function ForEvent(event: string, supis: seq<string>, profiles: seq<string>): (r: seq<Candidate>)
    requires supis != []
    ensures |r| == |profiles|
    ensures forall i :: 0 <= i < |r| ==> r[i] == MakeCandidate(event, profiles[i], supis)
  {
    if profiles == [] then []
    else [MakeCandidate(event, profiles[0], supis)] + ForEvent(event, supis, profiles[1..])
  }

  /** The candidates of one event; None when it holds a SUPI twice. */
  function EventOffer(rows: seq<Row>, event: string, profiles: seq<string>): Option<seq<Candidate>> {
    var supis := CohortList(rows, event);
    if !NoDuplicates(supis) then None
    else if supis == [] then Some([])
    else Some(ForEvent(event, supis, profiles))
  }

  function Join<T>(a: Option<seq<T>>, b: Option<seq<T>>): Option<seq<T>> {
    if a.None? || b.None? then None else Some(a.value + b.value)
  }

  /** The candidates of the events in order; None when any event refuses. */
  function ForEvents(rows: seq<Row>, events: seq<string>, profiles: seq<string>): Option<seq<Candidate>> {
    if events == [] then Some([])
    else Join(EventOffer(rows, events[0], profiles), ForEvents(rows, events[1..], profiles))
  }

  /** What the function returns, or None where it refuses the round. */
  function Commissioned(rows: seq<Row>, profiles: seq<string>): Option<seq<Candidate>> {
    if profiles == [] || !NoDuplicates(profiles) then None
    else
      match ForEvents(rows, EVENTS, profiles)
      case None => None
      case Some(all) => if all == [] || |all| > PLANNER_LIMIT then None else Some(all)
  }

  // ---------------------------------------------------------------- row order

  lemma {:induction false} EventSupisConcat(a: seq<Row>, b: seq<Row>, event: string)
    ensures EventSupis(a + b, event) == EventSupis(a, event) + EventSupis(b, event)
  {
    if a == [] {
      assert a + b == b;
    } else {
      var c := a + b;
      assert c[0] == a[0] && c[1..] == a[1..] + b;
      EventSupisConcat(a[1..], b, event);
      var first := if a[0].eventId == event then [a[0].supi] else [];
      assert EventSupis(c, event) == first + (EventSupis(a[1..], event) + EventSupis(b, event));
    }
  }

  /** Taking out row j takes its SUPI out of the list. */
  lemma EventSupisWithout(b: seq<Row>, j: nat, event: string)
    requires j < |b|
    ensures multiset(b[..j] + b[j + 1..]) == multiset(b) - multiset{b[j]}
    ensures multiset(EventSupis(b, event)) == multiset(EventSupis(b[..j] + b[j + 1..], event))
              + multiset(EventSupis([b[j]], event))
  {
    assert b == b[..j] + ([b[j]] + b[j + 1..]);
    EventSupisConcat(b[..j], [b[j]] + b[j + 1..], event);
    EventSupisConcat([b[j]], b[j + 1..], event);
    EventSupisConcat(b[..j], b[j + 1..], event);
  }

  lemma {:induction false} EventSupisPermuted(a: seq<Row>, b: seq<Row>, event: string)
    requires multiset(a) == multiset(b)
    ensures multiset(EventSupis(a, event)) == multiset(EventSupis(b, event))
  {
    if a == [] {
      assert |b| == |multiset(b)| == 0;
    } else {
      assert a[0] in multiset(b);
      var j :| 0 <= j < |b| && b[j] == a[0];
      EventSupisWithout(b, j, event);
      EventSupisWithout(a, 0, event);
      HeadTail(a);
      assert a[..0] + a[1..] == a[1..];
      EventSupisPermuted(a[1..], b[..j] + b[j + 1..], event);
    }
  }

  lemma {:induction false} ForEventsPermuted(a: seq<Row>, b: seq<Row>, events: seq<string>, profiles: seq<string>)
    requires multiset(a) == multiset(b)
    ensures ForEvents(a, events, profiles) == ForEvents(b, events, profiles)
  {
    if events != [] {
      var x, y := EventSupis(a, events[0]), EventSupis(b, events[0]);
      EventSupisPermuted(a, b, events[0]);
      SortOrdered(x);
      SortOrdered(y);
      OrderedUnique(Sort(x), Sort(y));
      assert EventOffer(a, events[0], profiles) == EventOffer(b, events[0], profiles);
      ForEventsPermuted(a, b, events[1..], profiles);
    }
  }

  /** The order in which native rows arrive never changes the offer. */
  lemma RowOrderIrrelevant(a: seq<Row>, b: seq<Row>, profiles: seq<string>)
    requires multiset(a) == multiset(b)
    ensures Commissioned(a, profiles) == Commissioned(b, profiles)
  {
    ForEventsPermuted(a, b, EVENTS, profiles);
  }

  // ---------------------------------------------------------------- the split

  function CohortOf(rows: seq<Row>, event: string): set<string> {
    set row | row in rows && row.eventId == event :: row.supi
  }

  function Elements(s: seq<string>): set<string> {
    set x | x in s
  }

  lemma {:induction false} EventSupisCohort(rows: seq<Row>, event: string)
    ensures Elements(EventSupis(rows, event)) == CohortOf(rows, event)
  {
    if rows != [] {
      EventSupisCohort(rows[1..], event);
      assert rows == [rows[0]] + rows[1..];
      var s, t := EventSupis(rows, event), EventSupis(rows[1..], event);
      forall x ensures x in Elements(s) <==> x in CohortOf(rows, event) {
        assert x in t <==> x in Elements(t);
        assert x in Elements(t) <==> x in CohortOf(rows[1..], event);
      }
    }
  }

  /** What an independent checker may rely on for one candidate. */
  ghost predicate ExactSplit(c: Candidate, rows: seq<Row>) {
    && c.id == c.eventId + ":" + c.profileId
    && Elements(c.treatment) !! Elements(c.holdout)
    && Elements(c.treatment) + Elements(c.holdout) == CohortOf(rows, c.eventId)
    && NoDuplicates(c.treatment + c.holdout)
    && Ordered(c.treatment + c.holdout)
    && c.treatment != []
    && -1 <= |c.treatment| - |c.holdout| <= 1
    && (c.holdout == [] <==> |CohortOf(rows, c.eventId)| == 1)
  }

  lemma {:induction false} NoDuplicatesSize(s: seq<string>)
    requires NoDuplicates(s)
    ensures |Elements(s)| == |s|
  {
    if s != [] {
      var rest := s[..|s| - 1];
      NoDuplicatesSize(rest);
      assert Elements(s) == Elements(rest) + {s[|s| - 1]};
    }
  }

  lemma ListSplits(supis: seq<string>, k: nat)
    requires NoDuplicates(supis) && k <= |supis|
    ensures Elements(supis[..k]) !! Elements(supis[k..])
    ensures Elements(supis[..k]) + Elements(supis[k..]) == Elements(supis)
    ensures supis[..k] + supis[k..] == supis
  {
    assert supis == supis[..k] + supis[k..];
  }

  lemma CohortListIs(rows: seq<Row>, event: string)
    ensures Ordered(CohortList(rows, event))
    ensures Elements(CohortList(rows, event)) == CohortOf(rows, event)
  {
    var raw := EventSupis(rows, event);
    SortOrdered(raw);
    EventSupisCohort(rows, event);
    forall x ensures x in Elements(Sort(raw)) <==> x in Elements(raw) {
      assert x in Sort(raw) <==> x in multiset(Sort(raw));
      assert x in raw <==> x in multiset(raw);
    }
  }

  lemma SplitIsExact(rows: seq<Row>, event: string, profile: string, supis: seq<string>)
    requires supis == CohortList(rows, event) && supis != [] && NoDuplicates(supis)
    ensures ExactSplit(MakeCandidate(event, profile, supis), rows)
  {
    CohortListIs(rows, event);
    ListSplits(supis, Split(|supis|));
    NoDuplicatesSize(supis);
  }

  lemma {:induction false} ForEventsExact(rows: seq<Row>, events: seq<string>, profiles: seq<string>, k: nat)
    requires ForEvents(rows, events, profiles).Some?
    requires k < |ForEvents(rows, events, profiles).value|
    ensures var c := ForEvents(rows, events, profiles).value[k];
      c.eventId in events && c.profileId in profiles && ExactSplit(c, rows)
  {
    if events != [] {
      var supis := CohortList(rows, events[0]);
      var first := EventOffer(rows, events[0], profiles).value;
      if k < |first| {
        SplitIsExact(rows, events[0], profiles[k], supis);
      } else {
        ForEventsExact(rows, events[1..], profiles, k - |first|);
      }
    }
  }

  /** Every commissioned candidate splits exactly its event cohort. */
  lemma CandidateSplitsCohort(rows: seq<Row>, profiles: seq<string>, k: nat)
    requires Commissioned(rows, profiles).Some? && k < |Commissioned(rows, profiles).value|
    ensures ExactSplit(Commissioned(rows, profiles).value[k], rows)
    ensures Commissioned(rows, profiles).value[k].eventId in EVENTS
    ensures Commissioned(rows, profiles).value[k].profileId in profiles
  {
    ForEventsExact(rows, EVENTS, profiles, k);
  }

  // ---------------------------------------------------------------- identifiers

  lemma ColonEarly(a: string, b: string, x: string, y: string)
    requires ':' !in b && |a| < |b|
    ensures a + ":" + x != b + ":" + y
  {
    assert (a + ":" + x)[|a|] == ':' && (b + ":" + y)[|a|] == b[|a|];
  }

  lemma ColonSplit(a: string, b: string, x: string, y: string)
    requires ':' !in a && ':' !in b && a + ":" + x == b + ":" + y
    ensures a == b && x == y
  {
    var s, t := a + ":" + x, b + ":" + y;
    if |a| < |b| {
      ColonEarly(a, b, x, y);
    } else if |b| < |a| {
      ColonEarly(b, a, y, x);
    } else {
      assert a == s[..|a|] && b == t[..|b|];
      assert x == s[|a| + 1..] && y == t[|b| + 1..];
    }
  }

  lemma {:induction false} ForEventsIds(rows: seq<Row>, events: seq<string>, profiles: seq<string>)
    requires ForEvents(rows, events, profiles).Some?
    requires NoDuplicates(events) && NoDuplicates(profiles)
    requires forall e :: e in events ==> ':' !in e
    ensures var all := ForEvents(rows, events, profiles).value;
      forall i, j :: 0 <= i < j < |all| ==> all[i].id != all[j].id
  {
    if events != [] {
      ForEventsIds(rows, events[1..], profiles);
      var first := EventOffer(rows, events[0], profiles).value;
      var rest := ForEvents(rows, events[1..], profiles).value;
      var all := first + rest;
      forall i, j | 0 <= i < j < |all| ensures all[i].id != all[j].id {
        if i < |first| {
          if j < |first| {
            if all[i].id == all[j].id { ColonSplit(events[0], events[0], profiles[i], profiles[j]); }
          } else {
            ForEventsExact(rows, events[1..], profiles, j - |first|);
            var c := rest[j - |first|];
            assert c.eventId in events[1..];
            if all[i].id == c.id { ColonSplit(events[0], c.eventId, profiles[i], c.profileId); }
          }
        }
      }
    }
  }

  lemma EventNames()
    ensures NoDuplicates(EVENTS)
    ensures forall e :: e in EVENTS ==> ':' !in e
  {
    assert |EVENTS| == 5;
    assert |EVENTS[0]| == 12 && |EVENTS[1]| == 15 && |EVENTS[2]| == 16 && |EVENTS[3]| == 17 && |EVENTS[4]| == 11;
    assert ':' !in "web_browsing";
    assert ':' !in "video_streaming";
    assert ':' !in "realtime_control";
    assert ':' !in "connected_traffic";
    assert ':' !in "factory_iot";
  }

  /** No two candidates share an identifier. */
  lemma CandidateIdsUnique(rows: seq<Row>, profiles: seq<string>, i: nat, j: nat)
    requires Commissioned(rows, profiles).Some? && i < j < |Commissioned(rows, profiles).value|
    ensures Commissioned(rows, profiles).value[i].id != Commissioned(rows, profiles).value[j].id
  {
    EventNames();
    ForEventsIds(rows, EVENTS, profiles);
  }

  // ---------------------------------------------------------------- the two checkers

  /** The cohort part of ValidatorAgent.proposal (validator.py). */
  predicate ProposalAccepted(c: Candidate, rows: seq<Row>, profiles: seq<string>) {
    && c.eventId in EVENTS && c.profileId in profiles
    && c.treatment != []
    && (c.holdout != [] || |CohortOf(rows, c.eventId)| == 1)
    && |c.treatment + c.holdout| == |Elements(c.treatment + c.holdout)|
    && Elements(c.treatment + c.holdout) == CohortOf(rows, c.eventId)
  }

  /** The independent verifier's journal test for one action: both groups, and exactly the cohort. */
  predicate VerifierAccepted(c: Candidate, rows: seq<Row>) {
    && c.treatment != [] && c.holdout != []
    && Elements(c.treatment) * Elements(c.holdout) == {}
    && Elements(c.treatment) + Elements(c.holdout) == CohortOf(rows, c.eventId)
  }

  /** The loop's own validator accepts every offer; the verifier accepts it exactly for two or more UEs. */
  lemma CheckersAgree(rows: seq<Row>, profiles: seq<string>, k: nat)
    requires Commissioned(rows, profiles).Some? && k < |Commissioned(rows, profiles).value|
    ensures var c := Commissioned(rows, profiles).value[k];
      ProposalAccepted(c, rows, profiles)
      && (VerifierAccepted(c, rows) <==> |CohortOf(rows, c.eventId)| >= 2)
  {
    CandidateSplitsCohort(rows, profiles, k);
    var c := Commissioned(rows, profiles).value[k];
    NoDuplicatesSize(c.treatment + c.holdout);
    assert Elements(c.treatment + c.holdout) == Elements(c.treatment) + Elements(c.holdout);
    assert c.treatment[0] in CohortOf(rows, c.eventId);
  }

  /** One UE that browses the web, in a round with one profile. */
  const ALONE := Row("ue", "web_browsing", "embb", "embb", 1.0, 1.0, 1.0)
  const LONE_OFFER := Candidate("web_browsing" + ":" + "profile", "web_browsing", "profile", ["ue"], [])

  lemma {:induction false} NobodyElse(events: seq<string>, profiles: seq<string>)
    requires forall i :: 0 <= i < |events| ==> events[i] != ALONE.eventId
    ensures ForEvents([ALONE], events, profiles) == Some([])
  {
    if events != [] {
      assert [ALONE][1..] == [];
      assert EventSupis([ALONE], events[0]) == [];
      NobodyElse(events[1..], profiles);
    }
  }

  lemma LoneEvent()
    ensures EventOffer([ALONE], "web_browsing", ["profile"]) == Some([LONE_OFFER])
  {
    assert [ALONE][1..] == [];
    assert EventSupis([ALONE], "web_browsing") == ["ue"];
    assert ["ue"][1..] == [];
    assert CohortList([ALONE], "web_browsing") == ["ue"];
    var offer := ForEvent("web_browsing", ["ue"], ["profile"]);
    assert ["ue"][..1] == ["ue"] && ["ue"][1..] == [];
    assert offer == [LONE_OFFER];
  }

  lemma LoneOffer()
    ensures Commissioned([ALONE], ["profile"]) == Some([LONE_OFFER])
  {
    hide EventOffer;
    var profiles := ["profile"];
    EventNames();
    LoneEvent();
    NobodyElse(EVENTS[1..], profiles);
    assert EVENTS[0] == "web_browsing";
    assert [LONE_OFFER] + [] == [LONE_OFFER];
    assert ForEvents([ALONE], EVENTS, profiles) == Some([LONE_OFFER]);
    hide ForEvents;
  }

  /** Such a round is commissioned, and its only candidate is one the loop accepts and the verifier rejects. */
  lemma LoneUeIsRejected()
    ensures Commissioned([ALONE], ["profile"]) == Some([LONE_OFFER])
    ensures ProposalAccepted(LONE_OFFER, [ALONE], ["profile"]) && !VerifierAccepted(LONE_OFFER, [ALONE])
  {
    LoneOffer();
    CheckersAgree([ALONE], ["profile"], 0);
  }

  // ---------------------------------------------------------------- the loop itself

  lemma JoinLaws<T>(a: Option<seq<T>>, b: Option<seq<T>>, c: Option<seq<T>>)
    ensures Join(a, Join(b, c)) == Join(Join(a, b), c)
    ensures Join(a, Some([])) == a && Join(Some([]), a) == a
  {
    if a.Some? {
      assert a.value + [] == a.value && [] + a.value == a.value;
      if b.Some? && c.Some? {
        assert a.value + (b.value + c.value) == (a.value + b.value) + c.value;
      }
    }
  }

  lemma {:induction false} ForEventsSnoc(rows: seq<Row>, events: seq<string>, last: string, profiles: seq<string>)
    ensures ForEvents(rows, events + [last], profiles)
         == Join(ForEvents(rows, events, profiles), EventOffer(rows, last, profiles))
  {
    hide EventOffer;
    var longer := events + [last];
    var tail := EventOffer(rows, last, profiles);
    assert ForEvents(rows, [], profiles) == Some([]);
    if events == [] {
      assert longer[0] == last && longer[1..] == [];
      JoinLaws(tail, tail, tail);
    } else {
      assert longer[0] == events[0] && longer[1..] == events[1..] + [last];
      ForEventsSnoc(rows, events[1..], last, profiles);
      JoinLaws(EventOffer(rows, events[0], profiles), ForEvents(rows, events[1..], profiles), tail);
    }
  }

  lemma {:induction false} ForEventsPrefix(rows: seq<Row>, events: seq<string>, k: nat, profiles: seq<string>)
    requires k <= |events| && ForEvents(rows, events[..k], profiles).None?
    ensures ForEvents(rows, events, profiles).None?
    decreases |events| - k
  {
    hide EventOffer;
    if k < |events| {
      assert events[..k + 1] == events[..k] + [events[k]];
      ForEventsSnoc(rows, events[..k], events[k], profiles);
      ForEventsPrefix(rows, events, k + 1, profiles);
    } else {
      assert events[..k] == events;
    }
  }

  /** What one turn of the outer loop adds. */
  lemma OfferStep(rows: seq<Row>, events: seq<string>, k: nat, profiles: seq<string>, before: seq<Candidate>)
    requires k < |events| && ForEvents(rows, events[..k], profiles) == Some(before)
    ensures var offer := EventOffer(rows, events[k], profiles);
      (offer.None? ==> ForEvents(rows, events, profiles).None?)
      && (offer.Some? ==> ForEvents(rows, events[..k + 1], profiles) == Some(before + offer.value))
  {
    hide EventOffer;
    assert events[..k + 1] == events[..k] + [events[k]];
    ForEventsSnoc(rows, events[..k], events[k], profiles);
    if EventOffer(rows, events[k], profiles).None? {
      ForEventsPrefix(rows, events, k + 1, profiles);
    }
  }

  /** The inner loop: one candidate for every profile. */
  method EventCandidates(event: string, supis: seq<string>, profiles: seq<string>) returns (r: seq<Candidate>)
    requires supis != []
    ensures r == ForEvent(event, supis, profiles)
  {
    r := [];
    for p := 0 to |profiles|
      invariant r == ForEvent(event, supis, profiles)[..p]
    {
      r := r + [MakeCandidate(event, profiles[p], supis)];
    }
  }

  /** The body of the outer loop: the candidates of one event, if its SUPIs are distinct. */
  method OfferEvent(rows: seq<Row>, event: string, profiles: seq<string>) returns (r: Option<seq<Candidate>>)
    ensures r == EventOffer(rows, event, profiles)
  {
    var supis := CohortList(rows, event);
    if !NoDuplicates(supis) {
      return None;
    }
    if supis == [] {
      return Some([]);
    }
    var offered := EventCandidates(event, supis, profiles);
    return Some(offered);
  }

  /** The outer loop: one group of candidates for every event that has UEs. */
  method CollectCandidates(rows: seq<Row>, events: seq<string>, profiles: seq<string>)
    returns (r: Option<seq<Candidate>>)
    ensures r == ForEvents(rows, events, profiles)
  {
    hide EventOffer;
    hide ForEvents;
    var candidates: seq<Candidate> := [];
    ForEventsNone(rows, profiles);
    assert events[..0] == [];
    for e := 0 to |events|
      invariant ForEvents(rows, events[..e], profiles) == Some(candidates)
    {
      OfferStep(rows, events, e, profiles, candidates);
      var offered := OfferEvent(rows, events[e], profiles);
      if offered.None? {
        return None;
      }
      candidates := candidates + offered.value;
    }
    assert events[..|events|] == events;
    return Some(candidates);
  }

  lemma ForEventsNone(rows: seq<Row>, profiles: seq<string>)
    ensures ForEvents(rows, [], profiles) == Some([])
  {
  }

  method CommissionedCandidates(rows: seq<Row>, profiles: seq<string>) returns (r: Option<seq<Candidate>>)
    ensures r == Commissioned(rows, profiles)
  {
    if profiles == [] || !NoDuplicates(profiles) {
      return None;
    }
    var candidates := CollectCandidates(rows, EVENTS, profiles);
    if candidates.None? || candidates.value == [] || |candidates.value| > PLANNER_LIMIT {
      return None;
    }
    return candidates;
  }
}
