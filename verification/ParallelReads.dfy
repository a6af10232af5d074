/** The bounded fan-out of an already authorized read batch (tool_execution.py). */
module ParallelReads {
  import opened Contracts

  datatype Outcome<+V, +E> = Read(value: V) | Failed(error: E)

  /** What the reducer appends for one finished read. */
  datatype Entry<+V, +E> = Entry(index: nat, outcome: Outcome<V, E>)

  /** The calls in the order they were started, those in flight, and the rows in completion order. */
  datatype Batch<+V, +E> = Batch(started: seq<nat>, running: set<nat>, rows: seq<Entry<V, E>>)

  datatype Event = Start(index: nat) | Finish(index: nat)

  /** One scheduling event of a batch of n calls with at most k in flight; None when it cannot happen. */
  function Step<V, E>(b: Batch<V, E>, e: Event, n: nat, k: nat, execute: nat -> Outcome<V, E>): Option<Batch<V, E>> {
    match e
    case Start(i) =>
      if i < n && i !in b.started && |b.running| < k
      then Some(b.(started := b.started + [i], running := b.running + {i}))
      else None
    case Finish(i) =>
      if i in b.running
      then Some(b.(running := b.running - {i}, rows := b.rows + [Entry(i, execute(i))]))
      else None
  }

  /** The batch after a schedule; None when the schedule was not possible. */
  function After<V, E>(events: seq<Event>, n: nat, k: nat, execute: nat -> Outcome<V, E>): Option<Batch<V, E>> {
    if events == [] then Some(Batch([], {}, []))
    else
      match After(events[..|events| - 1], n, k, execute)
      case None => None
      case Some(b) => Step(b, events[|events| - 1], n, k, execute)
  }

  /** The batch is over when every call was started and none is in flight. */
  predicate Complete<V, E>(b: Batch<V, E>, n: nat) {
    |b.started| == n && b.running == {}
  }

  // ---------------------------------------------------------------- the invariant of every schedule

  function Elements(s: seq<nat>): set<nat> {
    if s == [] then {} else Elements(s[..|s| - 1]) + {s[|s| - 1]}
  }

  /** The calls of a batch. */
  function Calls(n: nat): set<nat> {
    if n == 0 then {} else Calls(n - 1) + {n - 1}
  }

  /** No call twice. */
  ghost predicate Once(s: seq<nat>) {
    s == [] || (Once(s[..|s| - 1]) && s[|s| - 1] !in Elements(s[..|s| - 1]))
  }

  function IndicesOf<V, E>(rows: seq<Entry<V, E>>): seq<nat> {
    seq(|rows|, j requires 0 <= j < |rows| => rows[j].index)
  }

  ghost predicate Faithful<V, E>(rows: seq<Entry<V, E>>, execute: nat -> Outcome<V, E>) {
    forall j :: 0 <= j < |rows| ==> rows[j].outcome == execute(rows[j].index)
  }

  ghost predicate Inv<V, E>(b: Batch<V, E>, n: nat, k: nat, execute: nat -> Outcome<V, E>) {
    && Once(b.started) && Elements(b.started) <= Calls(n)
    && |b.running| <= k && b.running !! Elements(IndicesOf(b.rows))
    && b.running + Elements(IndicesOf(b.rows)) == Elements(b.started)
    && Once(IndicesOf(b.rows)) && Faithful(b.rows, execute)
  }

  lemma {:induction false} CallsAre(n: nat, x: nat)
    ensures x in Calls(n) <==> x < n
  {
    if n > 0 { CallsAre(n - 1, x); }
  }

  lemma {:induction false} ElementsAre(s: seq<nat>, x: nat)
    ensures x in Elements(s) <==> x in s
  {
    if s != [] { ElementsAre(s[..|s| - 1], x); }
  }

  lemma OneMore(s: seq<nat>, x: nat)
    ensures Elements(s + [x]) == Elements(s) + {x}
    ensures Once(s + [x]) <==> Once(s) && x !in Elements(s)
  {
    assert (s + [x])[..|s|] == s;
  }

  lemma StartKeeps<V, E>(b: Batch<V, E>, i: nat, n: nat, k: nat, execute: nat -> Outcome<V, E>)
    requires Inv(b, n, k, execute) && Step(b, Start(i), n, k, execute).Some?
    ensures Inv(Step(b, Start(i), n, k, execute).value, n, k, execute)
  {
    hide Elements;
    hide Calls;
    hide Once;
    hide IndicesOf;
    OneMore(b.started, i);
    ElementsAre(b.started, i);
    CallsAre(n, i);
  }

  lemma FinishKeeps<V, E>(b: Batch<V, E>, i: nat, n: nat, k: nat, execute: nat -> Outcome<V, E>)
    requires Inv(b, n, k, execute) && Step(b, Finish(i), n, k, execute).Some?
    ensures Inv(Step(b, Finish(i), n, k, execute).value, n, k, execute)
  {
    hide Elements;
    hide Calls;
    hide Once;
    OneMore(IndicesOf(b.rows), i);
    assert IndicesOf(b.rows + [Entry(i, execute(i))]) == IndicesOf(b.rows) + [i];
    hide IndicesOf;
  }

  lemma {:induction false} AlwaysInv<V, E>(events: seq<Event>, n: nat, k: nat, execute: nat -> Outcome<V, E>)
    requires After(events, n, k, execute).Some?
    ensures Inv(After(events, n, k, execute).value, n, k, execute)
  {
    if events == [] {
    } else {
      var last := events[|events| - 1];
      AlwaysInv(events[..|events| - 1], n, k, execute);
      var b := After(events[..|events| - 1], n, k, execute).value;
      hide Inv;
      match last
      case Start(i) => StartKeeps(b, i, n, k, execute);
      case Finish(i) => FinishKeeps(b, i, n, k, execute);
    }
  }

  // ---------------------------------------------------------------- the fan-in

  /** Stable insertion by index, as sorted() orders the rows. */
  function Insert<V, E>(r: Entry<V, E>, s: seq<Entry<V, E>>): (t: seq<Entry<V, E>>)
    ensures multiset(t) == multiset(s) + multiset{r}
  {
    if s == [] then [r]
    else if r.index <= s[0].index then [r] + s
    else
      assert s == [s[0]] + s[1..];
      [s[0]] + Insert(r, s[1..])
  }

  function SortByIndex<V, E>(s: seq<Entry<V, E>>): (t: seq<Entry<V, E>>)
    ensures multiset(t) == multiset(s)
  {
    if s == [] then []
    else
      assert s == [s[0]] + s[1..];
      Insert(s[0], SortByIndex(s[1..]))
  }

  ghost predicate Ascending<V, E>(s: seq<Entry<V, E>>) {
    forall i, j :: 0 <= i < j < |s| ==> s[i].index <= s[j].index
  }

  lemma {:induction false} InsertAscending<V, E>(r: Entry<V, E>, s: seq<Entry<V, E>>)
    requires Ascending(s)
    ensures Ascending(Insert(r, s))
  {
    if s != [] && r.index > s[0].index {
      InsertAscending(r, s[1..]);
      var t := Insert(r, s[1..]);
      forall j | 0 <= j < |t| ensures s[0].index <= t[j].index {
        assert t[j] in multiset(t);
        if t[j] != r { assert t[j] in multiset(s[1..]); }
      }
    }
  }

  lemma {:induction false} SortAscending<V, E>(s: seq<Entry<V, E>>)
    ensures Ascending(SortByIndex(s))
  {
    if s != [] {
      SortAscending(s[1..]);
      InsertAscending(s[0], SortByIndex(s[1..]));
    }
  }

  datatype Answer<+V, +E> = Results(values: seq<V>) | Error(error: E)

  /** The rows in order: the first failure is raised, otherwise the results. */
  method FanIn<V, E>(rows: seq<Entry<V, E>>) returns (r: Answer<V, E>)
    ensures r == Joined(SortByIndex(rows))
  {
    hide SortByIndex;
    var ordered := SortByIndex(rows);
    var results: seq<V> := [];
    assert ordered[0..] == ordered;
    ThenNothing(Joined(ordered));
    for i := 0 to |ordered|
      invariant Joined(ordered) == Then(results, Joined(ordered[i..]))
    {
      assert ordered[i..][0] == ordered[i] && ordered[i..][1..] == ordered[i + 1..];
      match ordered[i].outcome
      case Failed(error) => return Error(error);
      case Read(value) =>
        ThenTwice(results, [value], Joined(ordered[i + 1..]));
        results := results + [value];
    }
    return Results(results);
  }

  lemma ThenNothing<V, E>(rest: Answer<V, E>)
    ensures Then([], rest) == rest
  {
    if rest.Results? { assert [] + rest.values == rest.values; }
  }

  lemma ThenTwice<V, E>(a: seq<V>, b: seq<V>, rest: Answer<V, E>)
    ensures Then(a, Then(b, rest)) == Then(a + b, rest)
  {
    if rest.Results? { assert a + (b + rest.values) == (a + b) + rest.values; }
  }

  function Then<V, E>(before: seq<V>, rest: Answer<V, E>): Answer<V, E> {
    match rest
    case Error(e) => Error(e)
    case Results(values) => Results(before + values)
  }

  function Joined<V, E>(rows: seq<Entry<V, E>>): Answer<V, E> {
    if rows == [] then Results([])
    else
      match rows[0].outcome
      case Failed(error) => Error(error)
      case Read(value) => Then([value], Joined(rows[1..]))
  }

  /** The same calls, one after the other. */
  function Sequential<V, E>(from: nat, n: nat, execute: nat -> Outcome<V, E>): Answer<V, E>
    requires from <= n
    decreases n - from
  {
    if from == n then Results([])
    else
      match execute(from)
      case Failed(error) => Error(error)
      case Read(value) => Then([value], Sequential(from + 1, n, execute))
  }

  // ---------------------------------------------------------------- refinement

  lemma {:induction false} IndexAtLeast<V, E>(s: seq<Entry<V, E>>, i: nat)
    requires i < |s| && forall a, b :: 0 <= a < b < |s| ==> s[a].index < s[b].index
    ensures s[i].index >= i
  {
    if i > 0 { IndexAtLeast(s, i - 1); }
  }

  lemma {:induction false} IndexAtMost<V, E>(s: seq<Entry<V, E>>, i: nat, n: nat)
    requires i < |s| == n && forall a, b :: 0 <= a < b < |s| ==> s[a].index < s[b].index
    requires forall a :: 0 <= a < |s| ==> s[a].index < n
    ensures s[i].index <= i
    decreases n - i
  {
    if i + 1 < n { IndexAtMost(s, i + 1, n); }
  }

  lemma {:induction false} OnceMeans(s: seq<nat>)
    ensures Once(s) ==> |Elements(s)| == |s| && forall i, j :: 0 <= i < j < |s| ==> s[i] != s[j]
  {
    if s != [] && Once(s) {
      var n := |s| - 1;
      OnceMeans(s[..n]);
      forall i, j | 0 <= i < j < |s| ensures s[i] != s[j] {
        ElementsAre(s[..n], s[i]);
        if j == n { assert s[..n][i] == s[i]; } else { assert s[..n][i] == s[i] && s[..n][j] == s[j]; }
      }
    }
  }

  lemma Twice<T>(t: seq<T>, i: nat, j: nat)
    requires i < j < |t| && t[i] == t[j]
    ensures multiset(t)[t[i]] >= 2
  {
    assert t == t[..i] + [t[i]] + t[i + 1..j] + [t[j]] + t[j + 1..];
  }

  lemma Single<V, E>(s: seq<Entry<V, E>>, a: nat)
    requires a < |s| && forall i, j :: 0 <= i < j < |s| ==> s[i].index != s[j].index
    ensures multiset(s)[s[a]] == 1
  {
    assert s == s[..a] + [s[a]] + s[a + 1..];
    assert s[a] !in s[..a] && s[a] !in s[a + 1..];
  }

  /** Rows of distinct calls stay so in any order. */
  lemma DistinctPermuted<V, E>(s: seq<Entry<V, E>>, t: seq<Entry<V, E>>, i: nat, j: nat)
    requires multiset(s) == multiset(t) && i < j < |t|
    requires forall i, j :: 0 <= i < j < |s| ==> s[i].index != s[j].index
    ensures t[i].index != t[j].index
  {
    assert t[i] in multiset(s) && t[j] in multiset(s);
    var a :| 0 <= a < |s| && s[a] == t[i];
    var b :| 0 <= b < |s| && s[b] == t[j];
    Single(s, a);
    if a == b { Twice(t, i, j); }
  }

  lemma {:induction false} JoinedIsSequential<V, E>(s: seq<Entry<V, E>>, from: nat, n: nat, execute: nat -> Outcome<V, E>)
    requires from <= n && |s| == n
    requires forall i :: 0 <= i < n ==> s[i] == Entry(i, execute(i))
    ensures Joined(s[from..]) == Sequential(from, n, execute)
    decreases n - from
  {
    if from < n {
      assert s[from..][0] == s[from] && s[from..][1..] == s[from + 1..];
      JoinedIsSequential(s, from + 1, n, execute);
    }
  }

  /** Every row of a complete batch is a call's own outcome, and every call has a row. */
  lemma CompleteRows<V, E>(b: Batch<V, E>, n: nat, k: nat, execute: nat -> Outcome<V, E>)
    requires Inv(b, n, k, execute) && Complete(b, n)
    ensures |b.rows| == n && Elements(b.started) == Calls(n)
    ensures forall j :: 0 <= j < n ==> b.rows[j].index < n && b.rows[j].outcome == execute(b.rows[j].index)
    ensures forall i, j :: 0 <= i < j < n ==> b.rows[i].index != b.rows[j].index
  {
    var indices := IndicesOf(b.rows);
    OnceMeans(b.started);
    OnceMeans(indices);
    CallsSize(n);
    hide Elements;
    hide Calls;
    hide Once;
    assert {} + Elements(indices) == Elements(indices);
    SameSize(Elements(b.started), Calls(n));
    forall j | 0 <= j < n ensures b.rows[j].index < n {
      ElementsAre(indices, indices[j]);
      CallsAre(n, indices[j]);
    }
    forall i, j | 0 <= i < j < n ensures b.rows[i].index != b.rows[j].index {
      assert indices[i] != indices[j];
    }
  }

  lemma {:induction false} CallsSize(n: nat)
    ensures |Calls(n)| == n
  {
    if n > 0 {
      CallsSize(n - 1);
      CallsAre(n - 1, n - 1);
    }
  }

  lemma {:induction false} SameSize(a: set<nat>, b: set<nat>)
    requires a <= b && |a| == |b|
    ensures a == b
  {
    if a != {} {
      var x :| x in a;
      SameSize(a - {x}, b - {x});
      assert a == (a - {x}) + {x} && b == (b - {x}) + {x};
    } else {
      assert b == {};
    }
  }

  /** The sorted rows of a complete batch are the calls in their original order. */
  lemma SortedIsOriginal<V, E>(b: Batch<V, E>, n: nat, k: nat, execute: nat -> Outcome<V, E>)
    requires Inv(b, n, k, execute) && Complete(b, n)
    ensures var s := SortByIndex(b.rows);
      |s| == n && forall i :: 0 <= i < n ==> s[i] == Entry(i, execute(i))
  {
    CompleteRows(b, n, k, execute);
    var s := SortByIndex(b.rows);
    SortAscending(b.rows);
    hide Inv;
    hide SortByIndex;
    assert |s| == |multiset(s)| == |b.rows| == n;
    forall i | 0 <= i < n ensures s[i].index < n && s[i].outcome == execute(s[i].index) {
      assert s[i] in multiset(b.rows);
      var j :| 0 <= j < |b.rows| && b.rows[j] == s[i];
    }
    forall i, j | 0 <= i < j < n ensures s[i].index < s[j].index {
      DistinctPermuted(b.rows, s, i, j);
    }
    forall i | 0 <= i < n ensures s[i] == Entry(i, execute(i)) {
      IndexAtLeast(s, i);
      IndexAtMost(s, i, n);
    }
  }

  /**
   For every schedule with at most k reads in flight: each call is executed exactly once, all of them
   drain before the answer, and the answer is the one the calls would give one after the other.
   */
  lemma RefinesSequential<V, E>(events: seq<Event>, n: nat, k: nat, execute: nat -> Outcome<V, E>)
    requires After(events, n, k, execute).Some? && Complete(After(events, n, k, execute).value, n)
    ensures var b := After(events, n, k, execute).value;
      && |b.rows| == n && Elements(b.started) == Calls(n) && Once(b.started)
      && Joined(SortByIndex(b.rows)) == Sequential(0, n, execute)
  {
    AlwaysInv(events, n, k, execute);
    var b := After(events, n, k, execute).value;
    CompleteRows(b, n, k, execute);
    SortedIsOriginal(b, n, k, execute);
    var s := SortByIndex(b.rows);
    JoinedIsSequential(s, 0, n, execute);
    assert s[0..] == s;
    hide SortByIndex;
    hide Joined;
  }

  /** At no point are more than k reads in flight, and none runs twice. */
  lemma NeverMoreThanK<V, E>(events: seq<Event>, n: nat, k: nat, execute: nat -> Outcome<V, E>)
    requires After(events, n, k, execute).Some?
    ensures |After(events, n, k, execute).value.running| <= k
    ensures Once(After(events, n, k, execute).value.started)
  {
    AlwaysInv(events, n, k, execute);
  }

  // ---------------------------------------------------------------- draining

  lemma OneMoreStep<V, E>(events: seq<Event>, e: Event, n: nat, k: nat, execute: nat -> Outcome<V, E>)
    requires After(events, n, k, execute).Some?
    ensures After(events + [e], n, k, execute) == Step(After(events, n, k, execute).value, e, n, k, execute)
  {
    assert (events + [e])[..|events|] == events;
  }

  lemma {:induction false} Smaller(a: set<nat>, b: set<nat>)
    ensures a <= b ==> |a| <= |b|
  {
    if a != {} && a <= b {
      var x :| x in a;
      Smaller(a - {x}, b - {x});
    }
  }

  /** While a call was not started, there is one to start. */
  lemma Unstarted<V, E>(b: Batch<V, E>, n: nat, k: nat, execute: nat -> Outcome<V, E>) returns (i: nat)
    requires Inv(b, n, k, execute) && |b.started| < n
    ensures i < n && i !in b.started
  {
    OnceMeans(b.started);
    CallsSize(n);
    Smaller(Calls(n), Elements(b.started));
    assert Once(b.started);
    hide *;
    assert !(Calls(n) <= Elements(b.started));
    i :| i in Calls(n) && i !in Elements(b.started);
    CallsAre(n, i);
    ElementsAre(b.started, i);
  }

  /** How much a batch still has to do. */
  function Left<V, E>(b: Batch<V, E>, n: nat): int {
    2 * (n - |b.started|) + |b.running|
  }

  lemma NeverTooMany<V, E>(b: Batch<V, E>, n: nat, k: nat, execute: nat -> Outcome<V, E>)
    requires Inv(b, n, k, execute)
    ensures |b.started| <= n && Left(b, n) >= 0
  {
    OnceMeans(b.started);
    CallsSize(n);
    Smaller(Elements(b.started), Calls(n));
    hide Once;
    hide Calls;
    hide Elements;
  }

  /** An incomplete batch can always take a step towards its end. */
  lemma NextEvent<V, E>(b: Batch<V, E>, n: nat, k: nat, execute: nat -> Outcome<V, E>) returns (e: Event)
    requires Inv(b, n, k, execute) && k >= 1 && !Complete(b, n)
    ensures Step(b, e, n, k, execute).Some? && 0 <= Left(Step(b, e, n, k, execute).value, n) < Left(b, n)
  {
    NeverTooMany(b, n, k, execute);
    if b.running != {} {
      var i :| i in b.running;
      e := Finish(i);
      assert |b.running - {i}| == |b.running| - 1;
    } else {
      var i := Unstarted(b, n, k, execute);
      e := Start(i);
      assert |b.running + {i}| == 1;
    }
    hide Inv;
  }

  lemma {:induction false} DrainsWithin<V, E>(events: seq<Event>, n: nat, k: nat, execute: nat -> Outcome<V, E>, left: nat)
      returns (rest: seq<Event>)
    requires k >= 1 && After(events, n, k, execute).Some? && Left(After(events, n, k, execute).value, n) <= left
    ensures After(events + rest, n, k, execute).Some?
    ensures Complete(After(events + rest, n, k, execute).value, n)
    decreases left
  {
    hide *;
    AlwaysInv(events, n, k, execute);
    var b := After(events, n, k, execute).value;
    rest := [];
    assert events + rest == events;
    if !Complete(b, n) {
      var e := NextEvent(b, n, k, execute);
      OneMoreStep(events, e, n, k, execute);
      var more := DrainsWithin(events + [e], n, k, execute, left - 1);
      rest := [e] + more;
      assert events + rest == (events + [e]) + more;
    }
  }

  /** With room for one read, every schedule that was possible so far can be continued until all have drained. */
  lemma AlwaysDrains<V, E>(events: seq<Event>, n: nat, k: nat, execute: nat -> Outcome<V, E>) returns (rest: seq<Event>)
    requires k >= 1 && After(events, n, k, execute).Some?
    ensures After(events + rest, n, k, execute).Some?
    ensures Complete(After(events + rest, n, k, execute).value, n)
  {
    hide After;
    AlwaysInv(events, n, k, execute);
    var b := After(events, n, k, execute).value;
    NeverTooMany(b, n, k, execute);
    hide Inv;
    rest := DrainsWithin(events, n, k, execute, Left(b, n));
  }
}
