/**
 The alias pairs of the graph state (graph.py, _state_patch). Five fields are stored under a
 canonical and an older name. This module writes down what every node, handler and update publishes,
 shows that the two names can never disagree in the state a node reads, and that AgentTypes.Graph,
 which keeps one field for each pair, takes exactly the steps of the state with both names.
 */
module StatePatch {
  import opened Contracts
  import AgentTypes
  import opened AgentModel

  datatype Field =
    | ProposalRef | PlanRef
    | VerdictRef | VerificationRef
    | ActiveActionRef | ActiveRef
    | ChangesUsed | Changes
    | LastChangeCycle | LastChange
    | Other(name: string)

  datatype Pair = Pair(canonical: Field, legacy: Field)

  const PAIRS: seq<Pair> :=
    [Pair(ProposalRef, PlanRef), Pair(VerdictRef, VerificationRef), Pair(ActiveActionRef, ActiveRef),
     Pair(ChangesUsed, Changes), Pair(LastChangeCycle, LastChange)]

  type Patch<V> = map<Field, V>

  predicate Clashes<V(==)>(patch: Patch<V>, p: Pair) {
    p.canonical in patch && p.legacy in patch && patch[p.canonical] != patch[p.legacy]
  }

  function Complete<V(==)>(patch: Patch<V>, p: Pair): Patch<V> {
    if p.canonical in patch then patch[p.legacy := patch[p.canonical]]
    else if p.legacy in patch then patch[p.canonical := patch[p.legacy]]
    else patch
  }

  /** The patch after the given pairs; None where the code raises alias_changed. */
  function Published<V(==)>(patch: Patch<V>, pairs: seq<Pair>): Option<Patch<V>>
    decreases |pairs|
  {
    if pairs == [] then Some(patch)
    else if Clashes(patch, pairs[0]) then None
    else Published(Complete(patch, pairs[0]), pairs[1..])
  }

  method StatePatch<V(==)>(raw: Patch<V>) returns (r: Option<Patch<V>>)
    ensures r == Published(raw, PAIRS)
  {
    var patch := raw;
    for i := 0 to |PAIRS|
      invariant Published(raw, PAIRS) == Published(patch, PAIRS[i..])
    {
      var p := PAIRS[i];
      assert PAIRS[i..][0] == p && PAIRS[i..][1..] == PAIRS[i + 1..];
      if Clashes(patch, p) {
        return None;
      }
      patch := Complete(patch, p);
    }
    return Some(patch);
  }

  // ---------------------------------------------------------------- what a published patch is

  /** The names of these pairs, each used once. */
  predicate Separate(pairs: seq<Pair>) {
    forall i, j :: 0 <= i < j < |pairs| ==>
      pairs[i].canonical != pairs[j].canonical && pairs[i].legacy != pairs[j].legacy
      && pairs[i].canonical != pairs[j].legacy && pairs[i].legacy != pairs[j].canonical
  }

  predicate Agrees<V(==)>(patch: Patch<V>, p: Pair) {
    (p.canonical in patch <==> p.legacy in patch) && !Clashes(patch, p)
  }

  /** Both names of every pair are present together and equal. */
  predicate Coherent<V(==)>(patch: Patch<V>) {
    forall p :: p in PAIRS ==> Agrees(patch, p)
  }

  /** Nothing the patch said is changed, and only partner names are added. */
  predicate Extends<V(==)>(raw: Patch<V>, m: Patch<V>, pairs: seq<Pair>) {
    && (forall f :: f in raw ==> f in m && m[f] == raw[f])
    && (forall f :: f in m && f !in raw ==>
          exists p :: p in pairs && ((f == p.canonical && p.legacy in raw) || (f == p.legacy && p.canonical in raw)))
  }

  /** Pairs are independent: completing one changes no other. */
  lemma CompleteOthers<V>(patch: Patch<V>, pairs: seq<Pair>, j: nat)
    requires Separate(pairs) && 0 < j < |pairs| && !Clashes(patch, pairs[0])
    ensures var m := Complete(patch, pairs[0]); var p := pairs[j];
      (p.canonical in m <==> p.canonical in patch) && (p.legacy in m <==> p.legacy in patch)
      && (Clashes(m, p) <==> Clashes(patch, p)) && (Agrees(m, p) <==> Agrees(patch, p))
  {
  }

  lemma {:induction false} PublishedIs<V>(raw: Patch<V>, pairs: seq<Pair>)
    requires Separate(pairs) && forall p :: p in pairs ==> p.canonical != p.legacy
    decreases |pairs|
    ensures var r := Published(raw, pairs);
      (r.Some? <==> forall p :: p in pairs ==> !Clashes(raw, p))
      && (r.Some? ==> Extends(raw, r.value, pairs) && forall p :: p in pairs ==> Agrees(r.value, p))
  {
    if pairs != [] && !Clashes(raw, pairs[0]) {
      var m, rest := Complete(raw, pairs[0]), pairs[1..];
      assert pairs[0] in pairs;
      assert forall i :: 0 <= i < |rest| ==> rest[i] == pairs[i + 1];
      assert Separate(rest) && forall p :: p in rest ==> p in pairs;
      PublishedIs(m, rest);
      forall p | p in rest ensures Clashes(m, p) <==> Clashes(raw, p) {
        var i :| 0 <= i < |rest| && rest[i] == p;
        CompleteOthers(raw, pairs, i + 1);
      }
      assert forall p :: p in pairs ==> p == pairs[0] || p in rest;
      var r := Published(m, rest);
      if r.Some? {
        FirstKept(raw, pairs, r.value);
      }
    } else if pairs != [] {
      assert pairs[0] in pairs;
    }
  }

  /** The first pair, once completed, stays as it is. */
  lemma FirstKept<V>(raw: Patch<V>, pairs: seq<Pair>, m: Patch<V>)
    requires Separate(pairs) && pairs != [] && pairs[0].canonical != pairs[0].legacy && !Clashes(raw, pairs[0])
    requires Extends(Complete(raw, pairs[0]), m, pairs[1..])
    ensures Agrees(m, pairs[0]) && Extends(raw, m, pairs)
  {
    var c := Complete(raw, pairs[0]);
    forall p | p in pairs[1..]
      ensures p.canonical != pairs[0].canonical && p.canonical != pairs[0].legacy
      ensures p.legacy != pairs[0].canonical && p.legacy != pairs[0].legacy
      ensures p in pairs
    {
      var i :| 0 <= i < |pairs[1..]| && pairs[1..][i] == p;
      assert pairs[i + 1] == p;
    }
    assert pairs[0] in pairs;
  }

  lemma PairNames()
    ensures Separate(PAIRS) && forall p :: p in PAIRS ==> p.canonical != p.legacy
  {
  }

  /**
   A patch is published exactly when none of its pairs clash; then it says all it said before, adds
   only the missing partners, and both names of every pair agree.
   */
  lemma PublishExact<V>(raw: Patch<V>)
    ensures var r := Published(raw, PAIRS);
      (r.Some? <==> forall p :: p in PAIRS ==> !Clashes(raw, p))
      && (r.Some? ==> Coherent(r.value) && Extends(raw, r.value, PAIRS))
  {
    PairNames();
    PublishedIs(raw, PAIRS);
  }

  lemma {:induction false} CoherentIsFixed<V>(m: Patch<V>, pairs: seq<Pair>)
    requires forall p :: p in pairs ==> Agrees(m, p)
    ensures Published(m, pairs) == Some(m)
  {
    if pairs != [] {
      assert pairs[0] in pairs;
      assert Complete(m, pairs[0]) == m;
      CoherentIsFixed(m, pairs[1..]);
    }
  }

  // ---------------------------------------------------------------- what the loop publishes

  /** The writers of the graph state, with the values they give to names that have an alias. */
  datatype Publication<+V> =
    | Proposed(plan: V, empty: V)
    | Applied(action: V, changes: V, cycle: V)
    | Kept(action: V)
    | Held
    | Undone
    | Prechecked
    | Judged(verdict: V, active: V)
    | CheckedBack(substitute: Option<V>, empty: V)
    | ScenarioOver
    | Retried
    | Failed
    | Closed(empty: V)
    | Retained

  /** The aliased names each of them uses. */
  function Says<V>(p: Publication<V>): Patch<V> {
    match p
    case Proposed(plan, empty) => map[PlanRef := plan, VerificationRef := empty]
    case Applied(action, changes, cycle) => map[ActiveRef := action, Changes := changes, LastChange := cycle]
    case Kept(action) => map[ActiveRef := action]
    case Judged(verdict, active) => map[VerificationRef := verdict, ActiveRef := active]
    case CheckedBack(substitute, empty) =>
      if substitute.Some? then map[ActiveRef := empty, VerificationRef := substitute.value] else map[ActiveRef := empty]
    case Closed(empty) => map[ActiveRef := empty, ActiveActionRef := empty]
    case _ => map[]
  }

  /** Names without an alias. */
  function Others<V>(others: map<string, V>): (r: Patch<V>)
    ensures forall f :: f in r <==> f.Other? && f.name in others
    ensures forall f :: f in r ==> r[f] == others[f.name]
  {
    map n | n in others :: Other(n) := others[n]
  }

  /** The whole patch: names without an alias may be set to anything. */
  function Raw<V>(p: Publication<V>, others: map<string, V>): Patch<V> {
    Says(p) + Others(others)
  }

  /** Only the answers of the three nodes go through _state_patch; the rest is merged as it is. */
  predicate ThroughPatch<V>(p: Publication<V>) {
    !(p.ScenarioOver? || p.Retried? || p.Failed? || p.Closed? || p.Retained?)
  }

  function Initial<V>(changes: V, lastChange: V, empty: V, others: map<string, V>): Patch<V> {
    map[Changes := changes, LastChange := lastChange, ActiveRef := empty] + Others(others)
  }

  /** The state after one publication; None once _state_patch raises, on the state read or on the patch. */
  function Merged<V(==)>(state: Patch<V>, p: Publication<V>, others: map<string, V>): Option<Patch<V>> {
    match Published(state, PAIRS)
    case None => None
    case Some(_) =>
      if !ThroughPatch(p) then Some(state + Raw(p, others))
      else
        match Published(Raw(p, others), PAIRS)
        case None => None
        case Some(patch) => Some(state + patch)
  }

  datatype Entry<+V> = Entry(publication: Publication<V>, others: map<string, V>)

  function StateAfter<V(==)>(initial: Patch<V>, entries: seq<Entry<V>>): Option<Patch<V>> {
    if entries == [] then Published(initial, PAIRS)
    else
      match StateAfter(initial, entries[..|entries| - 1])
      case None => None
      case Some(state) => Merged(state, entries[|entries| - 1].publication, entries[|entries| - 1].others)
  }

  lemma PairIs(pair: Pair)
    requires pair in PAIRS
    ensures pair == PAIRS[0] || pair == PAIRS[1] || pair == PAIRS[2] || pair == PAIRS[3] || pair == PAIRS[4]
    ensures !pair.canonical.Other? && !pair.legacy.Other?
  {
  }

  lemma SaysNoClash<V>(p: Publication<V>, pair: Pair)
    requires pair in PAIRS
    ensures !Clashes(Says(p), pair) && (!ThroughPatch(p) ==> Agrees(Says(p), pair))
  {
    PairIs(pair);
  }

  /** Names without an alias clash with nothing. */
  lemma OthersDoNotClash<V>(m: Patch<V>, others: map<string, V>, pair: Pair)
    requires pair in PAIRS
    ensures var raw := m + Others(others);
      (Clashes(raw, pair) <==> Clashes(m, pair)) && (Agrees(raw, pair) <==> Agrees(m, pair))
  {
    PairIs(pair);
  }

  lemma NoClash<V>(p: Publication<V>, others: map<string, V>)
    ensures forall pair :: pair in PAIRS ==> !Clashes(Raw(p, others), pair)
    ensures !ThroughPatch(p) ==> Coherent(Raw(p, others))
  {
    forall pair | pair in PAIRS
      ensures !Clashes(Raw(p, others), pair) && (!ThroughPatch(p) ==> Agrees(Raw(p, others), pair))
    {
      OthersDoNotClash(Says(p), others, pair);
      SaysNoClash(p, pair);
      hide Clashes;
      hide Agrees;
      hide ThroughPatch;
      hide Says;
    }
  }

  lemma InitialNoClash<V>(changes: V, lastChange: V, empty: V, others: map<string, V>)
    ensures forall pair :: pair in PAIRS ==> !Clashes(Initial(changes, lastChange, empty, others), pair)
  {
    hide Others;
    forall pair | pair in PAIRS ensures !Clashes(Initial(changes, lastChange, empty, others), pair) {
      PairIs(pair);
      OthersDoNotClash(map[Changes := changes, LastChange := lastChange, ActiveRef := empty], others, pair);
    }
  }

  lemma CoherentSum<V>(m: Patch<V>, patch: Patch<V>)
    requires Coherent(m) && Coherent(patch)
    ensures Coherent(m + patch)
  {
    forall p | p in PAIRS ensures Agrees(m + patch, p) {
      assert Agrees(m, p) && Agrees(patch, p);
    }
  }

  /**
   In every run of the loop's own publications, whatever their values, no node ever reads a state whose
   aliases disagree: graph.state_alias_changed is never raised, and reading a state does not change it.
   */
  lemma {:induction false} AliasesNeverChange<V>(changes: V, lastChange: V, empty: V, others: map<string, V>,
                                                 entries: seq<Entry<V>>)
    ensures var r := StateAfter(Initial(changes, lastChange, empty, others), entries);
      r.Some? && Coherent(r.value) && Published(r.value, PAIRS) == r
  {
    var initial := Initial(changes, lastChange, empty, others);
    hide Raw;
    hide Initial;
    hide ThroughPatch;
    hide Clashes;
    hide Extends;
    hide Coherent;
    if entries == [] {
      InitialNoClash(changes, lastChange, empty, others);
      PublishExact(initial);
    } else {
      var last := entries[|entries| - 1];
      AliasesNeverChange(changes, lastChange, empty, others, entries[..|entries| - 1]);
      NoClash(last.publication, last.others);
      PublishExact(Raw(last.publication, last.others));
      var state := StateAfter(initial, entries[..|entries| - 1]).value;
      var patch := if ThroughPatch(last.publication) then Published(Raw(last.publication, last.others), PAIRS).value
                   else Raw(last.publication, last.others);
      CoherentSum(state, patch);
      assert StateAfter(initial, entries) == Some(state + patch);
    }
    CoherentIsAgreed(StateAfter(initial, entries).value);
    CoherentIsFixed(StateAfter(initial, entries).value, PAIRS);
  }

  lemma CoherentIsAgreed<V>(m: Patch<V>)
    requires Coherent(m)
    ensures forall p :: p in PAIRS ==> Agrees(m, p)
  {
  }

  // ---------------------------------------------------------------- one field for each pair

  datatype Value = Ref(artifact: AgentTypes.Artifact) | Number(n: int)

  /** The ten names that a graph of AgentTypes stands for. */
  function Names(g: AgentTypes.Graph): (m: Patch<Value>)
    ensures Coherent(m)
  {
    map[ProposalRef := Ref(g.plan), PlanRef := Ref(g.plan),
        VerdictRef := Ref(g.verdict), VerificationRef := Ref(g.verdict),
        ActiveActionRef := Ref(g.active), ActiveRef := Ref(g.active),
        ChangesUsed := Number(g.changes), Changes := Number(g.changes),
        LastChangeCycle := Number(g.lastChange), LastChange := Number(g.lastChange)]
  }

  /** The graph `h` is what this publication makes of `g`. */
  predicate Steps(g: AgentTypes.Graph, p: Publication<Value>, h: AgentTypes.Graph) {
    Merged(Names(g), p, map[]) == Some(Names(h))
  }

  const EMPTY_REF := Ref(AgentTypes.NoRef)

  /** Some publication of the loop makes `h` of `g`. */
  ghost predicate Publishes(g: AgentTypes.Graph, h: AgentTypes.Graph) {
    exists p :: Steps(g, p, h)
  }

  /** What is completed from a patch is determined by it. */
  lemma Unique<V>(raw: Patch<V>, m: Patch<V>, other: Patch<V>)
    requires Coherent(m) && Extends(raw, m, PAIRS) && Coherent(other) && Extends(raw, other, PAIRS)
    ensures m == other
  {
    forall f | f in m ensures f in other && other[f] == m[f] { Determined(raw, m, other, f); }
    forall f | f in other ensures f in m { Determined(raw, other, m, f); }
  }

  lemma Determined<V>(raw: Patch<V>, m: Patch<V>, other: Patch<V>, f: Field)
    requires Coherent(m) && Extends(raw, m, PAIRS) && Coherent(other) && Extends(raw, other, PAIRS) && f in m
    ensures f in other && other[f] == m[f]
  {
    if f !in raw {
      var p :| p in PAIRS && ((f == p.canonical && p.legacy in raw) || (f == p.legacy && p.canonical in raw));
      assert Agrees(m, p) && Agrees(other, p);
    }
  }

  lemma MergeIs(g: AgentTypes.Graph, p: Publication<Value>, h: AgentTypes.Graph, patch: Patch<Value>)
    requires ThroughPatch(p) && Published(Names(g), PAIRS) == Some(Names(g))
    requires Published(Raw(p, map[]), PAIRS) == Some(patch) && Names(g) + patch == Names(h)
    ensures Publishes(g, h)
  {
    hide Names;
    hide Raw;
    hide Published;
    hide ThroughPatch;
    assert Steps(g, p, h);
  }

  /** The ten names after a publication that goes through _state_patch. */
  lemma Merges(g: AgentTypes.Graph, p: Publication<Value>, h: AgentTypes.Graph, patch: Patch<Value>)
    requires ThroughPatch(p) && Coherent(patch) && Extends(Says(p), patch, PAIRS)
    requires Names(g) + patch == Names(h)
    ensures Publishes(g, h)
  {
    hide *;
    NamesFixed(g);
    NoClash(p, map[]);
    PublishExact(Raw(p, map[]));
    RawIs(p);
    Unique(Says(p), patch, Published(Raw(p, map[]), PAIRS).value);
    MergeIs(g, p, h, patch);
  }

  lemma RawIs<V>(p: Publication<V>)
    ensures Raw(p, map[]) == Says(p)
  {
    hide Says;
    var none: map<string, V> := map[];
    assert forall f :: f !in Others(none);
    assert Says(p) + Others(none) == Says(p);
  }

  lemma NamesFixed(g: AgentTypes.Graph)
    ensures Published(Names(g), PAIRS) == Some(Names(g))
  {
    CoherentIsAgreed(Names(g));
    CoherentIsFixed(Names(g), PAIRS);
  }

  lemma SameNames(g: AgentTypes.Graph, h: AgentTypes.Graph)
    requires Names(h) == Names(g)
    ensures Publishes(g, h)
  {
    hide Names;
    hide Published;
    hide Raw;
    NamesFixed(g);
    RawIs<Value>(Failed);
    assert Says<Value>(Failed) == map[];
    assert Names(g) + map[] == Names(g);
    assert Steps(g, Failed, h);
  }

  // ---------------------------------------------------------------- every node of the model

  lemma ProposedPatch(plan: Value) returns (m: Patch<Value>)
    ensures m == map[PlanRef := plan, ProposalRef := plan, VerificationRef := EMPTY_REF, VerdictRef := EMPTY_REF]
    ensures Coherent(m) && Extends(Says(Proposed(plan, EMPTY_REF)), m, PAIRS)
  {
    m := map[PlanRef := plan, ProposalRef := plan, VerificationRef := EMPTY_REF, VerdictRef := EMPTY_REF];
    hide Published;
  }

  lemma ProposedPublishes(g: AgentTypes.Graph, h: AgentTypes.Graph)
    requires h.verdict == AgentTypes.NoRef
    requires h.active == g.active && h.changes == g.changes && h.lastChange == g.lastChange
    ensures Publishes(g, h)
  {
    hide Published;
    hide Coherent;
    hide Extends;
    hide Says;
    var m := ProposedPatch(Ref(h.plan));
    assert Names(g) + m == Names(h);
    hide Names;
    Merges(g, Proposed(Ref(h.plan), EMPTY_REF), h, m);
  }

  lemma AppliedPatch(a: Value, c: Value, l: Value) returns (m: Patch<Value>)
    ensures m == map[ActiveRef := a, ActiveActionRef := a, Changes := c, ChangesUsed := c,
                     LastChange := l, LastChangeCycle := l]
    ensures Coherent(m) && Extends(Says(Applied(a, c, l)), m, PAIRS)
  {
    m := map[ActiveRef := a, ActiveActionRef := a, Changes := c, ChangesUsed := c, LastChange := l, LastChangeCycle := l];
    hide Published;
  }

  lemma AppliedPublishes(g: AgentTypes.Graph, h: AgentTypes.Graph)
    requires h.plan == g.plan && h.verdict == g.verdict
    ensures Publishes(g, h)
  {
    hide Published;
    hide Coherent;
    hide Extends;
    hide Says;
    var a, c, l := Ref(h.active), Number(h.changes), Number(h.lastChange);
    var m := AppliedPatch(a, c, l);
    assert Names(g) + m == Names(h);
    hide Names;
    Merges(g, Applied(a, c, l), h, m);
  }

  lemma KeptPatch(a: Value) returns (m: Patch<Value>)
    ensures m == map[ActiveRef := a, ActiveActionRef := a]
    ensures Coherent(m) && Extends(Says(Kept(a)), m, PAIRS)
  {
    m := map[ActiveRef := a, ActiveActionRef := a];
    hide Published;
  }

  lemma KeptPublishes(g: AgentTypes.Graph, h: AgentTypes.Graph)
    requires h.plan == g.plan && h.verdict == g.verdict && h.changes == g.changes && h.lastChange == g.lastChange
    ensures Publishes(g, h)
  {
    hide Published;
    hide Coherent;
    hide Extends;
    hide Says;
    var m := KeptPatch(Ref(h.active));
    assert Names(g) + m == Names(h);
    hide Names;
    Merges(g, Kept(Ref(h.active)), h, m);
  }

  lemma JudgedPatch(v: Value, a: Value) returns (m: Patch<Value>)
    ensures m == map[VerificationRef := v, VerdictRef := v, ActiveRef := a, ActiveActionRef := a]
    ensures Coherent(m) && Extends(Says(Judged(v, a)), m, PAIRS)
    ensures a == EMPTY_REF ==> Says(CheckedBack(Some(v), EMPTY_REF)) == Says(Judged(v, a))
  {
    m := map[VerificationRef := v, VerdictRef := v, ActiveRef := a, ActiveActionRef := a];
    hide Published;
  }

  lemma JudgedPublishes(g: AgentTypes.Graph, h: AgentTypes.Graph)
    requires h.plan == g.plan && h.changes == g.changes && h.lastChange == g.lastChange
    ensures Publishes(g, h)
  {
    hide Published;
    hide Coherent;
    hide Extends;
    hide Says;
    var m := JudgedPatch(Ref(h.verdict), Ref(h.active));
    assert Names(g) + m == Names(h);
    hide Names;
    Merges(g, Judged(Ref(h.verdict), Ref(h.active)), h, m);
  }

  lemma CheckedBackPublishes(g: AgentTypes.Graph, h: AgentTypes.Graph)
    requires h.plan == g.plan && h.changes == g.changes && h.lastChange == g.lastChange && h.active == AgentTypes.NoRef
    ensures Publishes(g, h)
  {
    hide Published;
    hide Coherent;
    hide Extends;
    hide Says;
    var m := JudgedPatch(Ref(h.verdict), EMPTY_REF);
    assert Names(g) + m == Names(h);
    hide Names;
    Merges(g, CheckedBack(Some(Ref(h.verdict)), EMPTY_REF), h, m);
  }

  lemma ClosedPublishes(g: AgentTypes.Graph, h: AgentTypes.Graph)
    requires h.plan == g.plan && h.verdict == g.verdict && h.changes == g.changes && h.lastChange == g.lastChange
    requires h.active == AgentTypes.NoRef
    ensures Publishes(g, h)
  {
    hide Published;
    hide Raw;
    NamesFixed(g);
    RawIs(Closed(EMPTY_REF));
    assert Names(g) + map[ActiveRef := EMPTY_REF, ActiveActionRef := EMPTY_REF] == Names(h);
    hide Names;
    assert Steps(g, Closed(EMPTY_REF), h);
  }

  lemma PlannerPublishes(env: Env, cfg: Config, g: AgentTypes.Graph, s: St)
    ensures var r := PlannerNode(env, cfg, g, s); r.Ok? ==> Publishes(g, r.v)
  {
    hide CycleInputs;
    hide AcceptedBefore;
    hide Propose;
    hide Publishes;
    var r := PlannerNode(env, cfg, g, s);
    if r.Ok? {
      if r.v.next.End? { SameNames(g, r.v); } else { ProposedPublishes(g, r.v); }
    }
  }

  lemma ExecutedPublishes(g: AgentTypes.Graph, patch: AgentTypes.ExecPatch)
    ensures Publishes(g, Executed'(g, patch))
  {
    hide Publishes;
    var h := Executed'(g, patch);
    match patch
    case Held(_, _) => SameNames(g, h);
    case Applied(_, _, _) => AppliedPublishes(g, h);
    case Kept(_) => KeptPublishes(g, h);
    case Undone(_) => SameNames(g, h);
  }

  lemma ExecutorPublishes(env: Env, cfg: Config, g: AgentTypes.Graph, s: St)
    ensures var r := ExecutorNode(env, cfg, g, s); r.Ok? ==> Publishes(g, r.v)
  {
    hide Publishes;
    hide Execution;
    hide Executed';
    hide RequestMatches;
    if AgentTypes.NoOperation != g.operation && (g.operation.Restore? || g.validated.Validated?) {
      var e := Execution(env, cfg, g, KeyOf(g), Need(s, {BindingOf(g)}).s);
      if e.Ok? { ExecutedPublishes(g, e.v); }
    }
  }

  /** A state that only differs in names without an alias, or in the cycle's end. */
  lemma PrecheckPublishes(env: Env, cfg: Config, g: AgentTypes.Graph, s: St)
    ensures var r := PrecheckNode(env, cfg, g, s); r.Ok? ==> Publishes(g, r.v)
  {
    hide Publishes;
    hide CheckProposal;
    hide Offer;
    hide AgentTypes.PolicyAction;
    var r := PrecheckNode(env, cfg, g, s);
    if r.Ok? { SameNames(g, r.v); }
  }

  lemma PostcheckPublishes(env: Env, cfg: Config, g: AgentTypes.Graph, s: St)
    ensures var r := PostcheckNode(env, cfg, g, s); r.Ok? ==> Publishes(g, r.v)
  {
    hide Publishes;
    hide CheckEffect;
    hide Learn;
    hide AgentTypes.PolicyAction;
    var r := PostcheckNode(env, cfg, g, s);
    if r.Ok? { JudgedPublishes(g, r.v); }
  }

  lemma RestoreCheckPublishes(env: Env, cfg: Config, g: AgentTypes.Graph, s: St)
    ensures var r := RestoreCheckNode(env, cfg, g, s); r.Ok? ==> Publishes(g, r.v)
  {
    hide Publishes;
    hide CheckRestoration;
    hide Learn;
    var r := RestoreCheckNode(env, cfg, g, s);
    if r.Ok? { CheckedBackPublishes(g, r.v); }
  }

  /** Every checkpoint that a node of the model publishes is the merge of one of the loop's own patches. */
  lemma NodesPublish(env: Env, cfg: Config, g: AgentTypes.Graph, s: St)
    ensures var r := Step(env, cfg, g, s); r.Ok? ==> Publishes(g, r.v)
  {
    hide Publishes;
    hide PlannerNode;
    hide ExecutorNode;
    hide PrecheckNode;
    hide PostcheckNode;
    hide RestoreCheckNode;
    hide DrawOutside;
    PlannerPublishes(env, cfg, g, s);
    ExecutorPublishes(env, cfg, g, s);
    PrecheckPublishes(env, cfg, g, s);
    PostcheckPublishes(env, cfg, g, s);
    RestoreCheckPublishes(env, cfg, g, s);
    var r := Step(env, cfg, g, s);
    if r.Ok? && (Body(env, cfg, g, s).Fail? || g.next.End?) { SameNames(g, r.v); }
  }

  /** So is the update that closes a run. */
  lemma ClosingPublishes(cfg: Config, g: AgentTypes.Graph)
    ensures Publishes(g, AgentModel.Closed(cfg, g))
  {
    hide Publishes;
    if Retaining(cfg, g) { SameNames(g, AgentModel.Closed(cfg, g)); } else { ClosedPublishes(g, AgentModel.Closed(cfg, g)); }
  }
}
