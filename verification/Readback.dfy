/**
 The two readbacks of a QER action and the two judgements of its effect: the loop's own validator
 (validator.py) and the independent verifier (verify_ai100_e2e.py).
 */
module Readback {
  import opened Contracts

  /** An uplink and downlink rate. */
  datatype Rates = Rates(ul: nat, dl: nat)

  function RatesOf(q: Qer): Rates {
    Rates(q.ul, q.dl)
  }

  predicate Bounded(q: Qer) {
    q.ul != 0 || q.dl != 0
  }

  predicate DistinctIds(qers: seq<Qer>) {
    forall i, j :: 0 <= i < j < |qers| ==> qers[i].id != qers[j].id
  }

  // ---------------------------------------------------------------- sorting by id

  function Insert(q: Qer, s: seq<Qer>): (r: seq<Qer>)
    ensures multiset(r) == multiset(s) + multiset{q}
  {
    if s == [] then [q]
    else if q.id <= s[0].id then [q] + s
    else
      assert s == [s[0]] + s[1..];
      [s[0]] + Insert(q, s[1..])
  }

  function ById(s: seq<Qer>): (r: seq<Qer>)
    ensures multiset(r) == multiset(s)
  {
    if s == [] then []
    else
      assert s == [s[0]] + s[1..];
      Insert(s[0], ById(s[1..]))
  }

  ghost predicate Ascending(s: seq<Qer>) {
    forall i, j :: 0 <= i < j < |s| ==> s[i].id < s[j].id
  }

  lemma {:induction false} InsertAscending(q: Qer, s: seq<Qer>)
    requires Ascending(s) && forall i :: 0 <= i < |s| ==> s[i].id != q.id
    ensures Ascending(Insert(q, s))
  {
    if s != [] && q.id > s[0].id {
      InsertAscending(q, s[1..]);
      var r := Insert(q, s[1..]);
      forall j | 0 <= j < |r| ensures s[0].id < r[j].id {
        assert r[j] in multiset(r);
        if r[j] != q { assert r[j] in multiset(s[1..]); }
      }
    }
  }

  lemma {:induction false} ByIdAscending(s: seq<Qer>)
    requires DistinctIds(s)
    ensures Ascending(ById(s))
  {
    if s != [] {
      ByIdAscending(s[1..]);
      var r := ById(s[1..]);
      forall i | 0 <= i < |r| ensures r[i].id != s[0].id {
        assert r[i] in multiset(s[1..]);
        var j :| 0 <= j < |s[1..]| && s[1..][j] == r[i];
        assert s[j + 1] == r[i];
      }
      InsertAscending(s[0], r);
    }
  }

  lemma ByIdElements(s: seq<Qer>, q: Qer)
    ensures q in ById(s) <==> q in s
  {
    assert q in ById(s) <==> q in multiset(ById(s));
    assert q in s <==> q in multiset(s);
  }

  // ---------------------------------------------------------------- one session

  /** What the rule with the target id should have after the action; every other rule is untouched. */
  function Expected(prior: Qer, treated: bool, target: int, profile: Rates): Rates {
    if treated && prior.id == target then profile else RatesOf(prior)
  }

  /** The comparison both files make after sorting: the same rules and detection rules, and the expected rates. */
  predicate SortedMatch(prior: seq<Qer>, later: seq<Qer>, treated: bool, target: int, profile: Rates) {
    && |prior| == |later|
    && (forall i :: 0 <= i < |prior| ==> prior[i].id == later[i].id && prior[i].pdrIds == later[i].pdrIds)
    && (forall i :: 0 <= i < |prior| ==> RatesOf(later[i]) == Expected(prior[i], treated, target, profile))
  }

  /** The rule `q` as the action should leave it. */
  function After(q: Qer, treated: bool, target: int, profile: Rates): Qer {
    var r := Expected(q, treated, target, profile);
    Qer(q.id, q.pdrIds, r.ul, r.dl)
  }

  /** The meaning of the comparison, without any order: rule for rule. */
  ghost predicate RuleForRule(prior: seq<Qer>, later: seq<Qer>, treated: bool, target: int, profile: Rates) {
    && (forall q :: q in prior ==> After(q, treated, target, profile) in later)
    && (forall q :: q in later ==> exists o :: o in prior && q == After(o, treated, target, profile))
  }

  lemma SameFirst(prior: seq<Qer>, later: seq<Qer>, treated: bool, target: int, profile: Rates)
    requires Ascending(prior) && Ascending(later) && RuleForRule(prior, later, treated, target, profile)
    requires prior != []
    ensures later != [] && later[0] == After(prior[0], treated, target, profile)
  {
    var first := After(prior[0], treated, target, profile);
    assert prior[0] in prior;
    var at :| 0 <= at < |later| && later[at] == first;
    assert later[0] in later;
    var o :| o in prior && later[0] == After(o, treated, target, profile);
    var back :| 0 <= back < |prior| && prior[back] == o;
    assert prior[0].id <= prior[back].id == later[0].id;
  }

  lemma {:induction false} Aligned(prior: seq<Qer>, later: seq<Qer>, treated: bool, target: int, profile: Rates)
    requires Ascending(prior) && Ascending(later) && RuleForRule(prior, later, treated, target, profile)
    ensures |later| == |prior|
    ensures forall i :: 0 <= i < |prior| ==> later[i] == After(prior[i], treated, target, profile)
  {
    assert later == [] || later[0] in later;
    if prior != [] {
      SameFirst(prior, later, treated, target, profile);
      RestRuleForRule(prior, later, treated, target, profile);
      Aligned(prior[1..], later[1..], treated, target, profile);
      hide *;
      forall i | 0 < i < |prior| ensures later[i] == After(prior[i], treated, target, profile) {
        assert prior[i] == prior[1..][i - 1] && later[i] == later[1..][i - 1];
      }
    }
  }

  lemma RestRuleForRule(prior: seq<Qer>, later: seq<Qer>, treated: bool, target: int, profile: Rates)
    requires Ascending(prior) && Ascending(later) && RuleForRule(prior, later, treated, target, profile)
    requires prior != [] && later != [] && later[0] == After(prior[0], treated, target, profile)
    ensures RuleForRule(prior[1..], later[1..], treated, target, profile)
  {
    forall q | q in prior[1..] ensures After(q, treated, target, profile) in later[1..] {
      assert q in prior;
      var at :| 0 <= at < |later| && later[at] == After(q, treated, target, profile);
      var i :| 0 <= i < |prior[1..]| && prior[1..][i] == q;
      assert prior[i + 1] == q && prior[0].id < q.id;
      assert at > 0 && later[at] == later[1..][at - 1];
    }
    forall q | q in later[1..] ensures exists o :: o in prior[1..] && q == After(o, treated, target, profile) {
      assert q in later;
      var o :| o in prior && q == After(o, treated, target, profile);
      var i :| 0 <= i < |later[1..]| && later[1..][i] == q;
      assert later[i + 1] == q && later[0].id < q.id;
      var back :| 0 <= back < |prior| && prior[back] == o;
      assert back > 0 && prior[back] == prior[1..][back - 1];
    }
  }

  lemma MatchIsRuleForRule(prior: seq<Qer>, later: seq<Qer>, treated: bool, target: int, profile: Rates)
    requires SortedMatch(prior, later, treated, target, profile)
    ensures RuleForRule(prior, later, treated, target, profile)
  {
    forall q | q in prior ensures After(q, treated, target, profile) in later {
      var i :| 0 <= i < |prior| && prior[i] == q;
      assert later[i] == After(q, treated, target, profile);
    }
    forall q | q in later ensures exists o :: o in prior && q == After(o, treated, target, profile) {
      var i :| 0 <= i < |later| && later[i] == q;
      assert prior[i] in prior && q == After(prior[i], treated, target, profile);
    }
  }

  lemma RuleForRuleUnordered(prior: seq<Qer>, later: seq<Qer>, treated: bool, target: int, profile: Rates)
    ensures RuleForRule(ById(prior), ById(later), treated, target, profile)
       <==> RuleForRule(prior, later, treated, target, profile)
  {
    hide After;
    hide ById;
    forall q ensures (q in ById(prior) <==> q in prior) && (q in ById(later) <==> q in later) {
      ByIdElements(prior, q);
      ByIdElements(later, q);
    }
  }

  lemma AlignedMatch(prior: seq<Qer>, later: seq<Qer>, treated: bool, target: int, profile: Rates)
    requires Ascending(prior) && Ascending(later) && RuleForRule(prior, later, treated, target, profile)
    ensures SortedMatch(prior, later, treated, target, profile)
  {
    hide RuleForRule;
    hide Ascending;
    Aligned(prior, later, treated, target, profile);
  }

  /** Sorting by id makes the comparison independent of the order in which either side lists its rules. */
  lemma ReadbackMeaning(prior: seq<Qer>, later: seq<Qer>, treated: bool, target: int, profile: Rates)
    requires DistinctIds(prior) && DistinctIds(later)
    ensures SortedMatch(ById(prior), ById(later), treated, target, profile)
       <==> RuleForRule(prior, later, treated, target, profile)
  {
    hide *;
    var s, t := ById(prior), ById(later);
    ByIdAscending(prior);
    ByIdAscending(later);
    RuleForRuleUnordered(prior, later, treated, target, profile);
    if RuleForRule(s, t, treated, target, profile) { AlignedMatch(s, t, treated, target, profile); }
    if SortedMatch(s, t, treated, target, profile) { MatchIsRuleForRule(s, t, treated, target, profile); }
  }

  // ---------------------------------------------------------------- a whole inventory

  /** The ids of the bounded rules; the AMBR target is the only one. */
  function Targets(qers: seq<Qer>): seq<int> {
    if qers == [] then [] else Target(qers[0]) + Targets(qers[1..])
  }

  function Target(q: Qer): seq<int> {
    if Bounded(q) then [q.id] else []
  }

  lemma TargetsCons(q: Qer, s: seq<Qer>)
    ensures Targets([q] + s) == Target(q) + Targets(s)
  {
    assert ([q] + s)[1..] == s;
  }

  lemma {:induction false} InsertTargets(q: Qer, s: seq<Qer>)
    ensures multiset(Targets(Insert(q, s))) == multiset(Target(q)) + multiset(Targets(s))
  {
    hide Target;
    TargetsCons(q, s);
    if s != [] && q.id > s[0].id {
      InsertTargets(q, s[1..]);
      TargetsCons(s[0], Insert(q, s[1..]));
    }
  }

  lemma {:induction false} TargetsUnordered(s: seq<Qer>)
    ensures multiset(Targets(ById(s))) == multiset(Targets(s))
  {
    hide Target;
    hide Insert;
    if s != [] {
      TargetsUnordered(s[1..]);
      InsertTargets(s[0], ById(s[1..]));
    }
  }

  lemma SameSingleton(a: seq<int>, b: seq<int>, id: int)
    requires multiset(a) == multiset(b) && a == [id]
    ensures b == [id]
  {
    assert |b| == |multiset(b)|;
    assert b[0] in multiset(b);
  }

  /** It does not matter that only the loop's validator sorts before it looks for the target. */
  lemma OneTarget(s: seq<Qer>, id: int)
    ensures Targets(ById(s)) == [id] <==> Targets(s) == [id]
  {
    hide *;
    TargetsUnordered(s);
    var a, b := Targets(ById(s)), Targets(s);
    if a == [id] { SameSingleton(a, b, id); }
    if b == [id] { SameSingleton(b, a, id); }
  }

  predicate SameIdentity(a: Session, b: Session) {
    a.sessionId == b.sessionId && a.pfcpSeid == b.pfcpSeid && a.upf == b.upf
  }

  /** The installation check for one UE. */
  predicate InstalledAt(prior: Session, later: Session, treated: bool, profile: Rates) {
    && SameIdentity(prior, later)
    && |Targets(ById(prior.qers))| == 1
    && SortedMatch(ById(prior.qers), ById(later.qers), treated, Targets(ById(prior.qers))[0], profile)
  }

  ghost predicate Installed(before: Inventory, after: Inventory, treatment: set<string>, profile: Rates) {
    before.Keys == after.Keys
    && forall s :: s in before.Keys ==> InstalledAt(before[s], after[s], s in treatment, profile)
  }

  /** validator.installation over the UEs in the dictionary's order. */
  method Installation(before: Inventory, after: Inventory, order: seq<string>, treatment: set<string>, profile: Rates)
      returns (ok: bool)
    requires forall s :: s in before.Keys <==> s in order
    ensures ok <==> Installed(before, after, treatment, profile)
  {
    hide InstalledAt;
    if before.Keys != after.Keys {
      return false;
    }
    for i := 0 to |order|
      invariant forall k :: 0 <= k < i ==> InstalledAt(before[order[k]], after[order[k]], order[k] in treatment, profile)
    {
      var s := order[i];
      assert s in before.Keys;
      if !InstalledAt(before[s], after[s], s in treatment, profile) {
        return false;
      }
    }
    return true;
  }

  /** The verifier's readback for one UE; `targets` was derived from the baseline beforehand. */
  predicate MatchesAt(prior: Session, later: Session, target: int, treated: bool, profile: Rates) {
    SortedMatch(ById(prior.qers), ById(later.qers), treated, target, profile)
  }

  ghost predicate ReadMatches(baseline: Inventory, read: Inventory, targets: map<string, int>,
                              treatment: set<string>, profile: Rates, installed: bool)
    requires baseline.Keys <= read.Keys && baseline.Keys <= targets.Keys
  {
    forall s :: s in baseline.Keys ==>
      MatchesAt(baseline[s], read[s], targets[s], installed && s in treatment, profile)
  }

  /** The verifier's `matches` over one read. */
  method Matches(baseline: Inventory, read: Inventory, order: seq<string>, targets: map<string, int>,
                 treatment: set<string>, profile: Rates, installed: bool) returns (ok: bool)
    requires forall s :: s in baseline.Keys <==> s in order
    requires baseline.Keys <= read.Keys && baseline.Keys <= targets.Keys
    ensures ok <==> ReadMatches(baseline, read, targets, treatment, profile, installed)
  {
    hide MatchesAt;
    for i := 0 to |order|
      invariant forall k :: 0 <= k < i ==>
                  MatchesAt(baseline[order[k]], read[order[k]], targets[order[k]], installed && order[k] in treatment, profile)
    {
      var s := order[i];
      assert s in baseline.Keys;
      if !MatchesAt(baseline[s], read[s], targets[s], installed && s in treatment, profile) {
        return false;
      }
    }
    return true;
  }

  /** The targets the verifier derives: the one bounded rule of each baseline session, or a refusal. */
  predicate TargetsOf(baseline: Inventory, targets: map<string, int>) {
    forall s :: s in baseline.Keys ==> s in targets && Targets(baseline[s].qers) == [targets[s]]
  }

  /** The loop accepts an installation exactly when the verifier reads it as installed on the same sessions. */
  lemma ReadbacksAgree(before: Inventory, after: Inventory, targets: map<string, int>, treatment: set<string>, profile: Rates)
    requires TargetsOf(before, targets)
    ensures Installed(before, after, treatment, profile)
       <==> && before.Keys == after.Keys
            && (forall s :: s in before.Keys ==> SameIdentity(before[s], after[s]))
            && ReadMatches(before, after, targets, treatment, profile, true)
  {
    hide SortedMatch;
    hide ById;
    hide SameIdentity;
    if before.Keys == after.Keys {
      forall s | s in before.Keys
        ensures InstalledAt(before[s], after[s], s in treatment, profile)
           <==> && SameIdentity(before[s], after[s])
                && MatchesAt(before[s], after[s], targets[s], s in treatment, profile)
      {
        OneTarget(before[s].qers, targets[s]);
      }
      hide InstalledAt;
      hide MatchesAt;
    }
  }

  /** What the loop accepts as restored, the verifier reads as the baseline. */
  lemma RestoredReadsAsBaseline(baseline: Inventory, targets: map<string, int>, treatment: set<string>, profile: Rates)
    requires baseline.Keys <= targets.Keys
    ensures ReadMatches(baseline, baseline, targets, treatment, profile, false)
  {
    forall s | s in baseline.Keys ensures MatchesAt(baseline[s], baseline[s], targets[s], false, profile) {
    }
  }

  /** One read never shows both states: where the profile changes a treated rule, the two exclude each other. */
  lemma NeverBoth(baseline: Inventory, read: Inventory, targets: map<string, int>, treatment: set<string>, profile: Rates,
                  s: string, q: Qer)
    requires baseline.Keys <= read.Keys && baseline.Keys <= targets.Keys
    requires s in baseline.Keys && s in treatment && q in baseline[s].qers
    requires q.id == targets[s] && RatesOf(q) != profile
    requires ReadMatches(baseline, read, targets, treatment, profile, true)
    ensures !ReadMatches(baseline, read, targets, treatment, profile, false)
  {
    var prior, later := ById(baseline[s].qers), ById(read[s].qers);
    ByIdElements(baseline[s].qers, q);
    var i :| 0 <= i < |prior| && prior[i] == q;
    assert MatchesAt(baseline[s], read[s], targets[s], true, profile);
    assert RatesOf(later[i]) == profile;
    assert !MatchesAt(baseline[s], read[s], targets[s], false, profile);
  }

  // ---------------------------------------------------------------- the effect

  const VERIFIER_TOLERANCE := 5.0
  const VERIFIER_MINIMUM := 5.0
  const ROUNDING := 0.2

  datatype Judgement = Regressed(net: real) | Verified(net: real) | NoEffect(net: real)

  /** validator._effect_rows after the two relative changes, for a group with a holdout. */
  function Judge(tolerance: real, minimum: real, treated: real, control: real): Judgement {
    if control < -tolerance then Regressed(treated - control)
    else if treated - control >= minimum then Verified(treated - control)
    else NoEffect(treated - control)
  }

  /** The verifier's test of a decision that claims a verified effect of `improvement` percent. */
  predicate Confirmed(treated: real, control: real, improvement: real) {
    && control >= -VERIFIER_TOLERANCE && treated - control >= VERIFIER_MINIMUM
    && -ROUNDING <= improvement - (treated - control) <= ROUNDING
  }

  /**
   On the same relative changes, which are at least -100 percent, the verifier confirms every effect the
   loop verified exactly when the contract is at least as strict as the verifier's fixed thresholds. The
   contract itself only demands a positive minimum and a tolerance that is not negative.
   */
  lemma EffectsAgree(tolerance: real, minimum: real)
    requires tolerance >= 0.0 && minimum > 0.0
    ensures (forall treated, control | treated >= -100.0 && control >= -100.0 ::
               var j := Judge(tolerance, minimum, treated, control);
               j.Verified? ==> Confirmed(treated, control, j.net))
       <==> tolerance <= VERIFIER_TOLERANCE && minimum >= VERIFIER_MINIMUM
  {
    if tolerance > VERIFIER_TOLERANCE {
      var control := if tolerance <= 100.0 then -tolerance else -100.0;
      var j := Judge(tolerance, minimum, control + minimum, control);
      assert j.Verified? && !Confirmed(control + minimum, control, j.net);
    } else if minimum < VERIFIER_MINIMUM {
      var j := Judge(tolerance, minimum, minimum, 0.0);
      assert j.Verified? && !Confirmed(minimum, 0.0, j.net);
    }
  }
}
