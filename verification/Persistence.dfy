/** The write-once tables beside the checkpoints (persistence.py): put, get, operation, freeze and outcome. */
module Persistence {
  import opened Contracts
  import AgentTypes

  const KEY_LIMIT := 256

  /** kind + ":" + digest(value), with the digest taken as injective. */
  datatype Ref<V> = Ref(kind: string, content: V)

  datatype Refusal = ReferenceOutsideRound | OutcomeChanged | InvalidKey

  datatype Result<+T> = Ok(value: T) | Refused(why: Refusal)

  /** Every row that was there is still there, with the same value. */
  ghost predicate Grows<K, V>(m: map<K, V>, m': map<K, V>) {
    forall k :: k in m ==> k in m' && m'[k] == m[k]
  }

  /** Rows of other threads are untouched. */
  ghost predicate OnlyThread<K(!new), V>(thread: string, m: map<(string, K), V>, m': map<(string, K), V>) {
    forall k: (string, K) :: k.0 != thread ==> (k in m <==> k in m') && (k in m ==> m'[k] == m[k])
  }

  /** The SQLite file, shared by the objects of all threads. */
  class Database<V(==,!new)> {
    var artifacts: map<(string, Ref<V>), V>
    var operations: map<(string, string), V>
    var snapshots: map<(string, string), V>
    var outcomes: map<(string, nat), V>

    constructor ()
      ensures Valid() && artifacts == map[] && operations == map[] && snapshots == map[] && outcomes == map[]
    {
      artifacts, operations, snapshots, outcomes := map[], map[], map[], map[];
    }

    /** A reference only ever names the value it was made from. */
    ghost predicate Valid()
      reads this
    {
      forall k :: k in artifacts ==> artifacts[k] == k.1.content
    }
  }

  class GraphArtifacts<V(==,!new)> {
    const db: Database<V>
    const thread: string

    constructor (db: Database<V>, thread: string)
      ensures this.db == db && this.thread == thread
    {
      this.db, this.thread := db, thread;
    }

    /** The reference alone determines what every later get of this thread returns. */
    method Put(kind: string, value: V) returns (ref: Ref<V>)
      requires db.Valid()
      modifies db`artifacts
      ensures db.Valid() && ref == Ref(kind, value)
      ensures Grows(old(db.artifacts), db.artifacts) && OnlyThread(thread, old(db.artifacts), db.artifacts)
      ensures db.artifacts.Keys == old(db.artifacts).Keys + {(thread, ref)}
    {
      ref := Ref(kind, value);
      if (thread, ref) !in db.artifacts {
        db.artifacts := db.artifacts[(thread, ref) := value];
      }
    }

    /** A reference of another thread, or one never put, is refused; any other yields its content. */
    method Get(ref: Ref<V>) returns (r: Result<V>)
      requires db.Valid()
      ensures r == if (thread, ref) in db.artifacts then Ok(ref.content) else Refused(ReferenceOutsideRound)
    {
      if (thread, ref) !in db.artifacts {
        return Refused(ReferenceOutsideRound);
      }
      return Ok(db.artifacts[(thread, ref)]);
    }

    /** Upsert, then read: the only table whose rows may change. */
    method Operation(op: string, value: Option<V>) returns (r: Option<V>)
      modifies db`operations
      ensures value.Some? ==> r == value
      ensures value.None? ==> db.operations == old(db.operations)
      ensures r == if (thread, op) in db.operations then Some(db.operations[(thread, op)]) else None
      ensures OnlyThread(thread, old(db.operations), db.operations)
      ensures value.Some? ==> db.operations == old(db.operations)[(thread, op) := value.value]
    {
      if value.Some? {
        db.operations := db.operations[(thread, op) := value.value];
      }
      return if (thread, op) in db.operations then Some(db.operations[(thread, op)]) else None;
    }

    /** The first writer of a key wins for good, and every caller is told what it wrote. */
    method Freeze(key: string, value: Option<V>) returns (r: Result<Option<V>>)
      modifies db`snapshots
      ensures r.Refused? <==> key == [] || |key| > KEY_LIMIT
      ensures r.Refused? ==> db.snapshots == old(db.snapshots)
      ensures Grows(old(db.snapshots), db.snapshots) && OnlyThread(thread, old(db.snapshots), db.snapshots)
      ensures r.Ok? ==>
                if (thread, key) in old(db.snapshots) then r.value == Some(old(db.snapshots)[(thread, key)])
                else r.value == value
      ensures r.Ok? && value.Some? ==> db.snapshots == AgentTypes.FirstWrite(old(db.snapshots), (thread, key), value.value)
      ensures value.None? ==> db.snapshots == old(db.snapshots)
    {
      if key == [] || |key| > KEY_LIMIT {
        return Refused(InvalidKey);
      }
      if value.Some? && (thread, key) !in db.snapshots {
        db.snapshots := db.snapshots[(thread, key) := value.value];
      }
      return Ok(if (thread, key) in db.snapshots then Some(db.snapshots[(thread, key)]) else None);
    }

    /** A cycle's row is written once; the same row again is accepted, any other is refused. */
    method Outcome(cycle: nat, value: V) returns (r: Result<()>)
      modifies db`outcomes
      ensures Grows(old(db.outcomes), db.outcomes) && OnlyThread(thread, old(db.outcomes), db.outcomes)
      ensures r.Ok? <==> ((thread, cycle) in old(db.outcomes) ==> old(db.outcomes)[(thread, cycle)] == value)
      ensures r.Ok? ==> (thread, cycle) in db.outcomes && db.outcomes[(thread, cycle)] == value
      ensures r.Refused? ==> db.outcomes == old(db.outcomes)
      ensures db.outcomes == AgentTypes.FirstWrite(old(db.outcomes), (thread, cycle), value)
    {
      if (thread, cycle) in db.outcomes && db.outcomes[(thread, cycle)] != value {
        return Refused(OutcomeChanged);
      }
      if (thread, cycle) !in db.outcomes {
        db.outcomes := db.outcomes[(thread, cycle) := value];
      }
      return Ok(());
    }
  }

  // ---------------------------------------------------------------- the tables of the agent model

  /** No two keys of this kind share a name. */
  ghost predicate Named<K>(name: K -> string, keys: set<K>) {
    forall a, b :: a in keys && b in keys && name(a) == name(b) ==> a == b
  }

  /**
   One kind of snapshot of one thread, by its own key: what AgentTypes.Durable keeps in a table for
   each key prefix. `keys` are those in use and about to be used.
   */
  ghost function View<K, V>(m: map<(string, string), V>, thread: string, name: K -> string, keys: set<K>): map<K, V> {
    map k | k in keys && (thread, name(k)) in m :: m[(thread, name(k))]
  }

  lemma ViewIs<K(!new), V>(m: map<(string, string), V>, thread: string, name: K -> string, keys: set<K>, k: K)
    ensures var view := View(m, thread, name, keys);
      (k in view <==> k in keys && (thread, name(k)) in m) && (k in view ==> view[k] == m[(thread, name(k))])
  {
  }

  /** Setting one row of the shared table sets one row of the table of its kind. */
  lemma OperationIsUpdate<K(!new), V>(m: map<(string, string), V>, thread: string, name: K -> string, keys: set<K>, key: K, v: V)
    requires Named(name, keys) && key in keys
    ensures View(m[(thread, name(key)) := v], thread, name, keys) == View(m, thread, name, keys)[key := v]
  {
    hide View;
    var more := m[(thread, name(key)) := v];
    var a, b := View(more, thread, name, keys), View(m, thread, name, keys)[key := v];
    forall k ensures (k in a <==> k in b) && (k in a ==> a[k] == b[k]) {
      ViewIs(more, thread, name, keys, k);
      ViewIs(m, thread, name, keys, k);
      assert k in keys && k != key ==> name(k) != name(key);
    }
    assert a.Keys == b.Keys;
    assert a == b;
  }

  /** A freeze in the shared table is the agent model's first write in the table of its kind. */
  lemma FreezeIsFirstWrite<K(!new), V>(m: map<(string, string), V>, thread: string, name: K -> string, keys: set<K>, key: K, v: V)
    requires Named(name, keys) && key in keys
    ensures View(AgentTypes.FirstWrite(m, (thread, name(key)), v), thread, name, keys)
         == AgentTypes.FirstWrite(View(m, thread, name, keys), key, v)
  {
    hide View;
    ViewIs(m, thread, name, keys, key);
    OperationIsUpdate(m, thread, name, keys, key, v);
  }

  /** A freeze under any other name, or by another thread, leaves that table alone. */
  lemma FreezeElsewhere<K, V>(m: map<(string, string), V>, thread: string, name: K -> string, keys: set<K>,
                              other: (string, string), v: V)
    requires other.0 != thread || forall k :: k in keys ==> name(k) != other.1
    ensures View(AgentTypes.FirstWrite(m, other, v), thread, name, keys) == View(m, thread, name, keys)
  {
  }
}
