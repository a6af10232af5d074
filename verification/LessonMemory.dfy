/** The episodic memory of validated lessons: three tables written in one transaction (memory.py). */
module LessonMemory {
  import opened Contracts

  /** The predeclared contract, and the limits that are not part of its digest. */
  datatype Contract = Contract(
    scenario: string, events: map<string, nat>, baseline: nat, metric: string, direction: string,
    improvement: real, tolerance: real, profiles: map<string, (nat, nat)>, maxAge: nat,
    qos: bool, revision: Option<string>, maxChanges: nat, minGap: nat)

  /** Digests are taken as injective: a digest is the tuple it was computed from. */
  datatype Digest = Digest(
    scenario: string, events: map<string, nat>, baseline: nat, metric: string, direction: string,
    improvement: real, tolerance: real, profiles: map<string, (nat, nat)>, maxAge: nat,
    qos: bool, revision: Option<string>)

  datatype Context = Context(
    groups: map<string, nat>, metric: string, direction: string, profiles: map<string, (nat, nat)>,
    improvement: real, tolerance: real, qos: bool, revision: Option<string>)

  function DigestOf(c: Contract): Digest {
    Digest(c.scenario, c.events, c.baseline, c.metric, c.direction, c.improvement, c.tolerance, c.profiles,
           c.maxAge, c.qos, c.revision)
  }

  /** The baseline UEs browse; an event of that name would replace them. */
  function Groups(baseline: nat, events: map<string, nat>): map<string, nat> {
    map["web_browsing" := baseline] + events
  }

  function ContextOf(c: Contract): Context {
    Context(Groups(c.baseline, c.events), c.metric, c.direction, c.profiles, c.improvement, c.tolerance, c.qos, c.revision)
  }

  /** The context a stored digest belongs to. */
  function ContextOfDigest(d: Digest): Context {
    Context(Groups(d.baseline, d.events), d.metric, d.direction, d.profiles, d.improvement, d.tolerance, d.qos, d.revision)
  }

  datatype Outcome = NoOp | NoHoldout | EffectVerified | NoEffect | Regressed | ActionFailed

  datatype Number = Finite(value: real) | NotFinite

  /** The part of an observation that identifies it, and its service-level summary. */
  datatype Identity = Identity(round: string, generation: int, sequence: int, observedAt: string)
  datatype Sla = Sla(revision: string, summary: string)
  datatype Observation = Observation(identity: Identity, sla: Option<Sla>)

  /** Everything of a row but its recording time. */
  datatype Values = Values(
    scenario: string, digest: Digest, iteration: nat, observation: Identity, candidate: Option<string>,
    outcome: Outcome, improvement: Option<Number>, response: string)

  datatype Lesson = Lesson(values: Values, recordedAt: real)

  type LessonKey = (string, nat)
  type ContextKey = (string, Digest)
  type SlaKey = (string, Digest, nat)

  datatype Tables = Tables(
    lessons: map<LessonKey, Lesson>, contexts: map<ContextKey, Context>, slas: map<SlaKey, string>)

  const EMPTY_MEMORY := Tables(map[], map[], map[])

  // ---------------------------------------------------------------- one record

  function ValuesOf(c: Contract, iteration: nat, o: Observation, candidate: Option<string>, outcome: Outcome,
                    improvement: Option<Number>, response: string): Values
  {
    Values(c.scenario, DigestOf(c), iteration, o.identity, candidate, outcome, improvement, response)
  }

  /** Only bounded outcomes enter. */
  predicate Bounded(v: Values) {
    v.response != "" && v.improvement != Some(NotFinite)
  }

  predicate LessonFits(t: Tables, v: Values) {
    (v.scenario, v.iteration) in t.lessons ==> t.lessons[(v.scenario, v.iteration)].values == v
  }

  /** With a frozen revision, the observation must carry it, and a stored summary must be the same. */
  predicate SlaFits(t: Tables, v: Values, sla: Option<Sla>) {
    v.digest.revision.Some? ==>
      && sla.Some? && sla.value.revision == v.digest.revision.value
      && var key := (v.scenario, v.digest, v.iteration);
         (key in t.slas ==> t.slas[key] == sla.value.summary)
  }

  function Added<K, V>(m: map<K, V>, k: K, v: V): map<K, V> {
    if k in m then m else m[k := v]
  }

  /** The tables after a committed record. */
  function Recorded(t: Tables, v: Values, sla: Option<Sla>, now: real): Tables
    requires v.digest.revision.Some? ==> sla.Some?
  {
    Tables(Added(t.lessons, (v.scenario, v.iteration), Lesson(v, now)),
           Added(t.contexts, (v.scenario, v.digest), ContextOfDigest(v.digest)),
           if v.digest.revision.Some? then Added(t.slas, (v.scenario, v.digest, v.iteration), sla.value.summary)
           else t.slas)
  }

  // ---------------------------------------------------------------- consistency

  /** A lesson repeats its key, and has its context row, and its summary row when it needs one. */
  predicate LessonComplete(t: Tables, k: LessonKey)
    requires k in t.lessons
  {
    var v := t.lessons[k].values;
    && k == (v.scenario, v.iteration)
    && (v.scenario, v.digest) in t.contexts
    && (v.digest.revision.Some? ==> (v.scenario, v.digest, v.iteration) in t.slas)
  }

  /** A summary belongs to a lesson that needs one. */
  predicate SlaOwned(t: Tables, k: SlaKey) {
    (k.0, k.2) in t.lessons && t.lessons[(k.0, k.2)].values.digest == k.1 && k.1.revision.Some?
  }

  ghost predicate Consistent(t: Tables) {
    && (forall k :: k in t.lessons ==> LessonComplete(t, k))
    && (forall k :: k in t.contexts ==> t.contexts[k] == ContextOfDigest(k.1))
    && (forall k :: k in t.slas ==> SlaOwned(t, k))
  }

  lemma RecordedIsConsistent(t: Tables, v: Values, sla: Option<Sla>, now: real)
    requires Consistent(t) && LessonFits(t, v) && SlaFits(t, v, sla)
    ensures Consistent(Recorded(t, v, sla, now))
  {
    hide ContextOfDigest;
    var t1 := Recorded(t, v, sla, now);
    forall k | k in t1.lessons ensures LessonComplete(t1, k) {
      if k in t.lessons { assert LessonComplete(t, k); }
    }
    forall k | k in t1.slas ensures SlaOwned(t1, k) {
      if k in t.slas { assert SlaOwned(t, k); }
    }
    hide LessonComplete;
    hide SlaOwned;
  }

  /** The same record again, at any later time, is accepted and changes nothing. */
  lemma ReplayIsIdempotent(t: Tables, v: Values, sla: Option<Sla>, now: real, later: real)
    requires Consistent(t) && LessonFits(t, v) && SlaFits(t, v, sla)
    ensures var t1 := Recorded(t, v, sla, now);
      LessonFits(t1, v) && SlaFits(t1, v, sla) && Recorded(t1, v, sla, later) == t1
  {
    hide ContextOfDigest;
  }

  /** Any other values for a recorded round and iteration are refused for good. */
  lemma ChangeIsRefused(t: Tables, v: Values, sla: Option<Sla>, now: real, w: Values)
    requires Consistent(t) && LessonFits(t, v) && SlaFits(t, v, sla)
    requires w != v && (w.scenario, w.iteration) == (v.scenario, v.iteration)
    ensures !LessonFits(Recorded(t, v, sla, now), w)
  {
  }

  // ---------------------------------------------------------------- the joins

  /** One row of the search's join. */
  datatype Found = Found(lesson: LessonKey, context: ContextKey, sla: Option<SlaKey>)

  /** The ON conditions: the context row of the lesson, and its summary row or none where there is none. */
  predicate Joins(t: Tables, f: Found, context: Context) {
    && f.lesson in t.lessons && f.context in t.contexts
    && var v := t.lessons[f.lesson].values;
    && f.context == (v.scenario, v.digest) && t.contexts[f.context] == context
    && var key := (v.scenario, v.digest, v.iteration);
    && f.sla == if key in t.slas then Some(key) else None
  }

  /** A lesson from a round with the same demand and policy context. */
  predicate Relevant(t: Tables, k: LessonKey, context: Context) {
    k in t.lessons && ContextOfDigest(t.lessons[k].values.digest) == context
  }

  function FoundFor(t: Tables, k: LessonKey): Found
    requires k in t.lessons
  {
    var v := t.lessons[k].values;
    Found(k, (v.scenario, v.digest), if v.digest.revision.Some? then Some((v.scenario, v.digest, v.iteration)) else None)
  }

  /**
   The joins neither drop nor duplicate: every relevant lesson is found in exactly one row, nothing
   else is found, and the row carries a summary exactly when the contract froze a revision.
   */
  lemma SearchIsExact(t: Tables, k: LessonKey, context: Context)
    requires Consistent(t)
    ensures Relevant(t, k, context) ==> Joins(t, FoundFor(t, k), context)
    ensures forall f :: Joins(t, f, context) && f.lesson == k ==> Relevant(t, k, context) && f == FoundFor(t, k)
  {
    hide ContextOfDigest;
  }

  /** Two contracts with one digest share their context, and so their lessons. */
  lemma DigestFixesContext(a: Contract, b: Contract)
    requires DigestOf(a) == DigestOf(b)
    ensures ContextOf(a) == ContextOf(b) == ContextOfDigest(DigestOf(a))
  {
  }

  // ---------------------------------------------------------------- the memory itself

  datatype Refusal = Unbounded | LessonChanged | SlaRevisionDiffers | SlaChanged

  datatype Result = Recorded_ | Refused(why: Refusal)

  class ValidatedMemory {
    var lessons: map<LessonKey, Lesson>
    var contexts: map<ContextKey, Context>
    var slas: map<SlaKey, string>

    ghost function Contents(): Tables
      reads this
    {
      Tables(lessons, contexts, slas)
    }

    constructor ()
      ensures Contents() == EMPTY_MEMORY && Consistent(Contents())
    {
      lessons, contexts, slas := map[], map[], map[];
    }

    /** One transaction: a refusal at any point leaves all three tables as they were. */
    method Record(c: Contract, iteration: nat, o: Observation, candidate: Option<string>, outcome: Outcome,
                  improvement: Option<Number>, response: string, now: real) returns (r: Result)
      requires Consistent(Contents())
      modifies this
      ensures Consistent(Contents())
      ensures var v := ValuesOf(c, iteration, o, candidate, outcome, improvement, response);
        && (r.Recorded_? <==> Bounded(v) && LessonFits(old(Contents()), v) && SlaFits(old(Contents()), v, o.sla))
        && (r.Recorded_? ==> Contents() == Recorded(old(Contents()), v, o.sla, now))
      ensures r.Refused? ==> Contents() == old(Contents())
    {
      hide ContextOf;
      hide ContextOfDigest;
      hide Consistent;
      DigestFixesContext(c, c);
      var v := ValuesOf(c, iteration, o, candidate, outcome, improvement, response);
      if !Bounded(v) {
        return Refused(Unbounded);
      }
      ghost var before := Contents();
      var key := (c.scenario, iteration);
      if key in lessons && lessons[key].values != v {
        return Refused(LessonChanged);
      }
      var lessons', contexts', slas' := lessons, contexts, slas;
      if key !in lessons {
        lessons' := lessons[key := Lesson(v, now)];
      }
      if (c.scenario, v.digest) !in contexts {
        contexts' := contexts[(c.scenario, v.digest) := ContextOf(c)];
      }
      if c.revision.Some? {
        if o.sla.None? || o.sla.value.revision != c.revision.value {
          return Refused(SlaRevisionDiffers);
        }
        var slaKey := (c.scenario, v.digest, iteration);
        if slaKey in slas && slas[slaKey] != o.sla.value.summary {
          return Refused(SlaChanged);
        }
        if slaKey !in slas {
          slas' := slas[slaKey := o.sla.value.summary];
        }
      }
      RecordedIsConsistent(before, v, o.sla, now);
      lessons, contexts, slas := lessons', contexts', slas';
      return Recorded_;
    }
  }
}
