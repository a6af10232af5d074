/** The bounded event log and its cursor (persistence.py, audit and read_events). */
module EventLog {
  import opened Contracts

  const RETAINED: nat := 10000
  const PAGE_LIMIT: nat := 500

  /** One row of graph_events. The ordinal is assigned by the database and never reused. */
  datatype Event<+V> = Event(ordinal: nat, thread: string, value: V)

  datatype Page<+V> = Page(events: seq<Event<V>>, next: nat, hasMore: bool, gap: bool,
                           oldest: Option<nat>, prunedThrough: nat)

  // ---------------------------------------------------------------- selections

  /** WHERE: the elements that satisfy the condition, in order. */
  function Filter<T>(s: seq<T>, f: T -> bool): seq<T> {
    if s == [] then []
    else if f(s[|s| - 1]) then Filter(s[..|s| - 1], f) + [s[|s| - 1]]
    else Filter(s[..|s| - 1], f)
  }

  lemma FilterSnoc<T>(s: seq<T>, x: T, f: T -> bool)
    ensures Filter(s + [x], f) == Filter(s, f) + if f(x) then [x] else []
  {
    assert (s + [x])[..|s|] == s;
  }

  lemma {:induction false} FilterConcat<T>(x: seq<T>, y: seq<T>, f: T -> bool)
    ensures Filter(x + y, f) == Filter(x, f) + Filter(y, f)
  {
    if y == [] {
      assert x + y == x;
    } else {
      var n := |y| - 1;
      assert (x + y)[..|x| + n] == x + y[..n];
      FilterConcat(x, y[..n], f);
    }
  }

  lemma {:induction false} FilterSame<T>(s: seq<T>, f: T -> bool, g: T -> bool)
    requires forall i :: 0 <= i < |s| ==> f(s[i]) == g(s[i])
    ensures Filter(s, f) == Filter(s, g)
  {
    if s != [] { FilterSame(s[..|s| - 1], f, g); }
  }

  lemma {:induction false} FilterTwice<T>(s: seq<T>, f: T -> bool, g: T -> bool, both: T -> bool)
    requires forall i :: 0 <= i < |s| ==> both(s[i]) == (f(s[i]) && g(s[i]))
    ensures Filter(Filter(s, f), g) == Filter(s, both)
  {
    if s != [] {
      FilterTwice(s[..|s| - 1], f, g, both);
      if f(s[|s| - 1]) { FilterSnoc(Filter(s[..|s| - 1], f), s[|s| - 1], g); }
    }
  }

  lemma {:induction false} FilterNone<T>(s: seq<T>, f: T -> bool)
    requires forall i :: 0 <= i < |s| ==> !f(s[i])
    ensures Filter(s, f) == []
  {
    if s != [] { FilterNone(s[..|s| - 1], f); }
  }

  lemma {:induction false} FilterAll<T>(s: seq<T>, f: T -> bool)
    requires forall i :: 0 <= i < |s| ==> f(s[i])
    ensures Filter(s, f) == s
  {
    if s != [] { FilterAll(s[..|s| - 1], f); }
  }

  ghost predicate Ascending<V>(s: seq<Event<V>>) {
    forall i, j :: 0 <= i < j < |s| ==> s[i].ordinal < s[j].ordinal
  }

  ghost predicate AtMost<V>(s: seq<Event<V>>, bound: int) {
    forall i :: 0 <= i < |s| ==> s[i].ordinal <= bound
  }

  /** A selection of ascending rows is ascending, bounded alike, and satisfies its condition. */
  lemma {:induction false} FilterRows<V>(s: seq<Event<V>>, f: Event<V> -> bool, bound: int)
    requires Ascending(s) && AtMost(s, bound)
    ensures Ascending(Filter(s, f)) && AtMost(Filter(s, f), bound)
    ensures forall i :: 0 <= i < |Filter(s, f)| ==> f(Filter(s, f)[i])
  {
    if s != [] {
      var rest := s[..|s| - 1];
      FilterRows(rest, f, s[|s| - 1].ordinal - 1);
      assert AtMost(Filter(rest, f), s[|s| - 1].ordinal - 1);
    }
  }

  function Own<V>(t: string): Event<V> -> bool {
    (e: Event<V>) => e.thread == t
  }

  /** The rows of a thread in (a, b] that a reader wants. */
  function Window<V>(t: string, a: nat, b: nat, wanted: V -> bool): Event<V> -> bool {
    (e: Event<V>) => e.thread == t && a < e.ordinal <= b && wanted(e.value)
  }

  /** What DELETE leaves: everything but the rows of `t` up to the cutoff. */
  function Above<V>(t: string, cutoff: nat): Event<V> -> bool {
    (e: Event<V>) => !(e.thread == t && e.ordinal <= cutoff)
  }

  function OfThread<V>(s: seq<Event<V>>, t: string): seq<Event<V>> {
    Filter(s, Own(t))
  }

  function Pick<V>(s: seq<Event<V>>, t: string, a: nat, b: nat, wanted: V -> bool): seq<Event<V>> {
    Filter(s, Window(t, a, b, wanted))
  }

  function Newest<T>(s: seq<T>, n: nat): seq<T> {
    if |s| <= n then s else s[|s| - n..]
  }

  /** AUTOINCREMENT over a whole history. */
  ghost predicate Numbered<V>(history: seq<Event<V>>) {
    forall i :: 0 <= i < |history| ==> history[i].ordinal == i + 1
  }

  /** A window splits at any cursor. */
  lemma {:induction false} PickSplit<V>(s: seq<Event<V>>, t: string, a: nat, m: nat, b: nat, wanted: V -> bool)
    requires Ascending(s) && a <= m <= b
    ensures Pick(s, t, a, b, wanted) == Pick(s, t, a, m, wanted) + Pick(s, t, m, b, wanted)
  {
    if s != [] {
      var e, rest := s[|s| - 1], s[..|s| - 1];
      PickSplit(rest, t, a, m, b, wanted);
      if e.ordinal <= m {
        FilterNone(s, Window(t, m, b, wanted));
        FilterNone(rest, Window(t, m, b, wanted));
      }
    }
  }

  /** The first rows of a window are the window up to the last of them. */
  lemma FirstRows<V>(s: seq<Event<V>>, t: string, a: nat, b: nat, wanted: V -> bool, k: nat)
    requires Ascending(s) && AtMost(s, b) && 0 < k <= |Pick(s, t, a, b, wanted)|
    ensures var rows := Pick(s, t, a, b, wanted);
      a < rows[k - 1].ordinal <= b && Pick(s, t, a, rows[k - 1].ordinal, wanted) == rows[..k]
  {
    hide Filter;
    var rows := Pick(s, t, a, b, wanted);
    var c := rows[k - 1].ordinal;
    FilterRows(s, Window(t, a, b, wanted), b);
    PickSplit(s, t, a, c, b, wanted);
    var left, right := Pick(s, t, a, c, wanted), Pick(s, t, c, b, wanted);
    FilterRows(s, Window(t, a, c, wanted), b);
    FilterRows(s, Window(t, c, b, wanted), b);
    assert rows == left + right;
    assert forall i :: |left| <= i < |rows| ==> rows[i] == right[i - |left|] && rows[i].ordinal > c;
    assert forall i :: 0 <= i < |left| ==> rows[i] == left[i] && rows[i].ordinal <= c;
    assert k <= |left|;
    assert k < |rows| ==> rows[k].ordinal > c;
    assert |left| == k;
  }

  // ---------------------------------------------------------------- retention

  /** How many rows of a thread are gone. */
  function Dropped<V>(history: seq<Event<V>>, t: string): nat {
    var n := |OfThread(history, t)|;
    if n <= RETAINED then 0 else n - RETAINED
  }

  /** The ordinal of the newest row of a thread that is gone, 0 when none is. */
  function PrunedThrough<V>(history: seq<Event<V>>, t: string): nat {
    var k := Dropped(history, t);
    if k == 0 then 0 else OfThread(history, t)[k - 1].ordinal
  }

  lemma NumberedAscending<V>(history: seq<Event<V>>)
    requires Numbered(history)
    ensures Ascending(history) && AtMost(history, |history|)
  {
  }

  lemma OfThreadRows<V>(history: seq<Event<V>>, t: string)
    requires Numbered(history)
    ensures Ascending(OfThread(history, t)) && AtMost(OfThread(history, t), |history|)
  {
    NumberedAscending(history);
    FilterRows(history, Own(t), |history|);
  }

  /** The watermark is passed exactly when a row after the cursor is gone. */
  lemma GapMeaning<V>(history: seq<Event<V>>, t: string, after: nat)
    requires Numbered(history)
    ensures after < PrunedThrough(history, t)
       <==> exists k :: 0 <= k < Dropped(history, t) && OfThread(history, t)[k].ordinal > after
  {
    OfThreadRows(history, t);
    hide OfThread;
    hide Numbered;
    var k := Dropped(history, t);
    if k > 0 && after < PrunedThrough(history, t) {
      assert OfThread(history, t)[k - 1].ordinal > after;
    }
  }

  // ---------------------------------------------------------------- pages

  /** What a reader sees of a history, by its meaning: the gap is a lost row after the cursor. */
  ghost predicate IsPage<V>(page: Page<V>, history: seq<Event<V>>, t: string, after: nat, limit: nat, wanted: V -> bool) {
    var rows := Pick(Newest(OfThread(history, t), RETAINED), t, after, |history|, wanted);
    && page.events == rows[..if |rows| < limit then |rows| else limit]
    && page.next == (if page.events == [] then after else page.events[|page.events| - 1].ordinal)
    && page.hasMore == (|rows| > limit)
    && (page.gap <==> exists k :: 0 <= k < Dropped(history, t) && OfThread(history, t)[k].ordinal > after)
  }

  /** Without a gap, what is retained after the cursor is all there ever was. */
  lemma NoGapIsComplete<V>(history: seq<Event<V>>, t: string, after: nat, wanted: V -> bool)
    requires forall k :: 0 <= k < Dropped(history, t) ==> OfThread(history, t)[k].ordinal <= after
    ensures Pick(Newest(OfThread(history, t), RETAINED), t, after, |history|, wanted)
         == Pick(history, t, after, |history|, wanted)
  {
    var mine, k := OfThread(history, t), Dropped(history, t);
    var window := Window(t, after, |history|, wanted);
    assert mine == mine[..k] + mine[k..];
    FilterNone(mine[..k], window);
    FilterConcat(mine[..k], mine[k..], window);
    FilterTwice(history, Own(t), window, window);
    hide Filter;
  }

  /** What lies at or below a cursor that was already reached does not change. */
  lemma PickStable<V>(h: seq<Event<V>>, longer: seq<Event<V>>, t: string, a: nat, b: nat, wanted: V -> bool)
    requires Numbered(longer) && h <= longer && b <= |h|
    ensures Pick(longer, t, a, b, wanted) == Pick(h, t, a, b, wanted)
  {
    assert longer == h + longer[|h|..];
    assert forall i :: 0 <= i < |longer[|h|..]| ==> longer[|h|..][i].ordinal == |h| + i + 1;
    FilterNone(longer[|h|..], Window(t, a, b, wanted));
    FilterConcat(h, longer[|h|..], Window(t, a, b, wanted));
  }

  lemma PickEmpty<V>(s: seq<Event<V>>, t: string, a: nat, wanted: V -> bool)
    ensures Pick(s, t, a, a, wanted) == []
  {
    PickNone(s, t, a, a, wanted);
  }

  lemma PickNone<V>(s: seq<Event<V>>, t: string, a: nat, b: nat, wanted: V -> bool)
    requires b <= a
    ensures Pick(s, t, a, b, wanted) == []
  {
    FilterNone(s, Window(t, a, b, wanted));
  }

  /** One page is the next stretch of the thread's rows. */
  lemma PageIsNext<V>(page: Page<V>, history: seq<Event<V>>, t: string, after: nat, limit: nat, wanted: V -> bool)
    requires Numbered(history) && limit > 0 && !page.gap && IsPage(page, history, t, after, limit, wanted)
    ensures after <= page.next
    ensures page.events == Pick(history, t, after, page.next, wanted)
    ensures page.events != [] ==> page.next <= |history|
    ensures page.events == [] ==> page.next == after
    ensures !page.hasMore ==> page.events == Pick(history, t, after, |history|, wanted)
  {
    hide Pick;
    hide OfThread;
    hide Newest;
    NoGapIsComplete(history, t, after, wanted);
    NumberedAscending(history);
    hide Numbered;
    if page.events == [] {
      PickEmpty(history, t, after, wanted);
    } else {
      FirstRows(history, t, after, |history|, wanted, |page.events|);
    }
  }

  /** One read of a follower: how much had been written, and the page it was given. */
  datatype Read<+V> = Read(history: seq<Event<V>>, limit: nat, page: Page<V>)

  function Cursor<V>(pages: seq<Read<V>>, start: nat): nat {
    if pages == [] then start else pages[|pages| - 1].page.next
  }

  function Collected<V>(pages: seq<Read<V>>): seq<Event<V>> {
    if pages == [] then [] else Collected(pages[..|pages| - 1]) + pages[|pages| - 1].page.events
  }

  /** Each read starts where the last one ended, sees no less than it did, and reports no gap. */
  ghost predicate Follows<V>(pages: seq<Read<V>>, t: string, start: nat, wanted: V -> bool) {
    forall n :: 0 <= n < |pages| ==>
      && Numbered(pages[n].history) && pages[n].limit > 0 && !pages[n].page.gap
      && (n > 0 ==> pages[n - 1].history <= pages[n].history)
      && IsPage(pages[n].page, pages[n].history, t, Cursor(pages[..n], start), pages[n].limit, wanted)
  }

  lemma FollowsBefore<V>(pages: seq<Read<V>>, t: string, start: nat, wanted: V -> bool)
    requires pages != [] && Follows(pages, t, start, wanted)
    ensures Follows(pages[..|pages| - 1], t, start, wanted)
  {
    hide IsPage;
    hide Cursor;
    var before := pages[..|pages| - 1];
    forall n | 0 <= n < |before| ensures before[..n] == pages[..n] && before[n] == pages[n] {
    }
  }

  /**
   Following the cursor across any interleaving of appends yields every later row of the thread that
   the reader wants, once and in order, as long as no page reported a gap; and a last page without
   more means that nothing is missing at all.
   */
  lemma {:induction false} FollowingYieldsAll<V>(pages: seq<Read<V>>, t: string, start: nat, wanted: V -> bool)
    requires pages != [] && Follows(pages, t, start, wanted)
    ensures var last := pages[|pages| - 1];
      start <= last.page.next
      && Collected(pages) == Pick(last.history, t, start, last.page.next, wanted)
      && (last.page.next == start || last.page.next <= |last.history|)
      && (!last.page.hasMore ==> Collected(pages) == Pick(last.history, t, start, |last.history|, wanted))
  {
    hide IsPage;
    hide Pick;
    var n := |pages| - 1;
    var last := pages[n];
    var at := Cursor(pages[..n], start);
    PageIsNext(last.page, last.history, t, at, last.limit, wanted);
    NumberedAscending(last.history);
    if n == 0 {
      assert Collected(pages[..0]) == [];
    } else {
      var prior := pages[n - 1];
      assert pages[..n][n - 1] == prior;
      assert prior.history <= last.history;
      FollowsBefore(pages, t, start, wanted);
      FollowingYieldsAll(pages[..n], t, start, wanted);
      hide Follows;
      if at == start {
        PickEmpty(prior.history, t, start, wanted);
        PickEmpty(last.history, t, start, wanted);
      } else {
        PickStable(prior.history, last.history, t, start, at, wanted);
      }
      PickSplit(last.history, t, start, at, last.page.next, wanted);
      if at <= |last.history| {
        PickSplit(last.history, t, start, at, |last.history|, wanted);
      } else {
        PickNone(last.history, t, start, |last.history|, wanted);
      }
    }
  }

  // ---------------------------------------------------------------- one append

  /** How the rows in the table relate to everything that was ever written. */
  ghost predicate Retains<V>(rows: seq<Event<V>>, history: seq<Event<V>>) {
    && Numbered(history) && Ascending(rows) && AtMost(rows, |history|)
    && forall t :: OfThread(rows, t) == Newest(OfThread(history, t), RETAINED)
  }

  lemma AppendRows<V>(rows: seq<Event<V>>, history: seq<Event<V>>, row: Event<V>, t: string)
    ensures OfThread(rows + [row], t) == OfThread(rows, t) + if row.thread == t then [row] else []
    ensures OfThread(history + [row], t) == OfThread(history, t) + if row.thread == t then [row] else []
  {
    FilterSnoc(rows, row, Own(t));
    FilterSnoc(history, row, Own(t));
  }

  /** Removing the thread's rows up to its row k leaves its rows after k. */
  lemma DeleteOwn<V>(s: seq<Event<V>>, t: string, k: nat, bound: int)
    requires Ascending(s) && AtMost(s, bound) && 0 < k <= |OfThread(s, t)|
    ensures OfThread(Filter(s, Above(t, OfThread(s, t)[k - 1].ordinal)), t) == OfThread(s, t)[k..]
  {
    hide Filter;
    var mine := OfThread(s, t);
    var cutoff := mine[k - 1].ordinal;
    var above := Above(t, cutoff);
    var both := (e: Event<V>) => e.thread == t && e.ordinal > cutoff;
    FilterRows(s, Own(t), bound);
    FilterTwice(s, above, Own(t), both);
    FilterTwice(s, Own(t), above, both);
    assert mine == mine[..k] + mine[k..];
    FilterConcat(mine[..k], mine[k..], above);
    FilterNone(mine[..k], above);
    FilterAll(mine[k..], above);
  }

  lemma DeleteOther<V>(s: seq<Event<V>>, t: string, cutoff: nat, other: string)
    requires other != t
    ensures OfThread(Filter(s, Above(t, cutoff)), other) == OfThread(s, other)
  {
    hide Filter;
    FilterTwice(s, Above(t, cutoff), Own(other), Own(other));
  }

  lemma AppendRetains<V>(rows: seq<Event<V>>, history: seq<Event<V>>, row: Event<V>)
    requires Retains(rows, history) && row.ordinal == |history| + 1
    requires |OfThread(rows + [row], row.thread)| <= RETAINED
    ensures Retains(rows + [row], history + [row])
    ensures forall t :: Dropped(history + [row], t) == Dropped(history, t)
                        && PrunedThrough(history + [row], t) == PrunedThrough(history, t)
  {
    hide OfThread;
    forall t
      ensures OfThread(rows + [row], t) == Newest(OfThread(history + [row], t), RETAINED)
      ensures Dropped(history + [row], t) == Dropped(history, t)
      ensures PrunedThrough(history + [row], t) == PrunedThrough(history, t)
    {
      AppendRows(rows, history, row, t);
      AppendRows(rows, history, row, row.thread);
    }
  }

  /** The row of a full thread that makes room for the new one. */
  function Cutoff<V>(rows: seq<Event<V>>, t: string): nat
    requires |OfThread(rows, t)| > RETAINED
  {
    var mine := OfThread(rows, t);
    mine[|mine| - 1 - RETAINED].ordinal
  }

  /** When the thread was full, the cutoff is exactly its oldest retained row. */
  lemma CutoffIsOldest<V>(rows: seq<Event<V>>, history: seq<Event<V>>, row: Event<V>)
    requires Retains(rows, history) && row.ordinal == |history| + 1
    requires |OfThread(rows + [row], row.thread)| > RETAINED
    ensures var t := row.thread;
      && OfThread(rows + [row], t)[1..] == Newest(OfThread(history + [row], t), RETAINED)
      && Cutoff(rows + [row], t) == OfThread(rows + [row], t)[0].ordinal == PrunedThrough(history + [row], t)
      && Cutoff(rows + [row], t) >= PrunedThrough(history, t)
      && Dropped(history + [row], t) == Dropped(history, t) + 1
  {
    var t := row.thread;
    AppendRows(rows, history, row, t);
    OfThreadRows(history, t);
    var all, mine := OfThread(history, t), OfThread(rows, t);
    hide OfThread;
    assert mine == Newest(all, RETAINED);
    hide Retains;
    assert |mine| == RETAINED && |all| >= RETAINED;
    assert (mine + [row])[0] == all[|all| - RETAINED];
    assert all[|all| - RETAINED..] + [row] == (all + [row])[|all| - RETAINED..];
  }

  /** Then exactly that row goes. */
  lemma PruneRetains<V>(rows: seq<Event<V>>, history: seq<Event<V>>, row: Event<V>)
    requires Retains(rows, history) && row.ordinal == |history| + 1
    requires |OfThread(rows + [row], row.thread)| > RETAINED
    ensures Retains(Filter(rows + [row], Above(row.thread, Cutoff(rows + [row], row.thread))), history + [row])
    ensures forall t :: t != row.thread ==>
              Dropped(history + [row], t) == Dropped(history, t) && PrunedThrough(history + [row], t) == PrunedThrough(history, t)
    ensures Dropped(history + [row], row.thread) == Dropped(history, row.thread) + 1
    ensures Cutoff(rows + [row], row.thread) == PrunedThrough(history + [row], row.thread)
    ensures Cutoff(rows + [row], row.thread) >= PrunedThrough(history, row.thread)
  {
    var longer, cutoff := rows + [row], Cutoff(rows + [row], row.thread);
    var kept := Filter(longer, Above(row.thread, cutoff));
    assert Ascending(longer) && AtMost(longer, |history| + 1) && Numbered(history + [row]);
    FilterRows(longer, Above(row.thread, cutoff), |history| + 1);
    CutoffIsOldest(rows, history, row);
    DeleteOwn(longer, row.thread, 1, |history| + 1);
    hide Filter;
    hide OfThread;
    hide Cutoff;
    forall t | t != row.thread
      ensures OfThread(kept, t) == Newest(OfThread(history + [row], t), RETAINED)
      ensures Dropped(history + [row], t) == Dropped(history, t) && PrunedThrough(history + [row], t) == PrunedThrough(history, t)
    {
      AppendRows(rows, history, row, t);
      DeleteOther(longer, row.thread, cutoff, t);
    }
    hide Newest;
    hide Ascending;
    hide AtMost;
    hide Numbered;
  }

  // ---------------------------------------------------------------- the tables

  class EventTables<V> {
    /** Rows in ordinal order, the last ordinal ever assigned, and the retention watermarks. */
    var rows: seq<Event<V>>
    var sequence: nat
    var prunedThrough: map<string, nat>
    /** Every row ever written. */
    ghost var history: seq<Event<V>>

    ghost predicate Valid()
      reads this
    {
      && sequence == |history| && Retains(rows, history)
      && (forall t :: (t in prunedThrough <==> Dropped(history, t) > 0)
                      && (t in prunedThrough ==> prunedThrough[t] == PrunedThrough(history, t)))
    }

    constructor ()
      ensures Valid() && history == []
    {
      rows, sequence, prunedThrough, history := [], 0, map[], [];
    }

    /** DELETE of the rows of one thread up to the cutoff. */
    method Delete(t: string, cutoff: nat)
      modifies this`rows
      ensures rows == Filter(old(rows), Above(t, cutoff))
    {
      var all, kept := rows, [];
      for i := 0 to |all|
        invariant kept == Filter(all[..i], Above(t, cutoff))
      {
        assert all[..i + 1] == all[..i] + [all[i]];
        FilterSnoc(all[..i], all[i], Above(t, cutoff));
        if !(all[i].thread == t && all[i].ordinal <= cutoff) {
          kept := kept + [all[i]];
        }
      }
      assert all[..|all|] == all;
      rows := kept;
    }

    /** One appended event: the newest rows of its thread are kept, and every other thread's rows. */
    method Audit(t: string, value: V) returns (ordinal: nat)
      requires Valid()
      modifies this
      ensures Valid()
      ensures ordinal == |old(history)| + 1
      ensures history == old(history) + [Event(ordinal, t, value)]
    {
      hide Retains;
      hide OfThread;
      hide Dropped;
      hide PrunedThrough;
      hide Filter;
      hide Cutoff;
      sequence := sequence + 1;
      ordinal := sequence;
      var row := Event(ordinal, t, value);
      ghost var past := history;
      if |OfThread(rows + [row], t)| > RETAINED {
        PruneRetains(rows, past, row);
        var cutoff := Cutoff(rows + [row], t);
        var known := if t in prunedThrough then prunedThrough[t] else 0;
        rows := rows + [row];
        prunedThrough := prunedThrough[t := if known > cutoff then known else cutoff];
        Delete(t, cutoff);
        assert Dropped(past, t) == 0 ==> PrunedThrough(past, t) == 0 by { PrunedNone(past, t); }
      } else {
        AppendRetains(rows, past, row);
        rows := rows + [row];
      }
      history := history + [row];
    }

    /** A read transaction over the rows after the cursor; None where the arguments are refused. */
    method ReadEvents(t: string, after: nat, limit: nat, wanted: V -> bool) returns (r: Option<Page<V>>)
      requires Valid()
      ensures r.Some? <==> 1 <= limit <= PAGE_LIMIT
      ensures r.Some? ==> IsPage(r.value, history, t, after, limit, wanted)
      ensures r.Some? ==> r.value.prunedThrough == PrunedThrough(history, t)
      ensures r.Some? ==> r.value.oldest == First(Newest(OfThread(history, t), RETAINED))
    {
      if !(1 <= limit <= PAGE_LIMIT) {
        return None;
      }
      hide Retains;
      hide Filter;
      hide OfThread;
      hide Dropped;
      hide PrunedThrough;
      var window := Window(t, after, sequence, wanted);
      FilterNone<Event<V>>([], window);
      FirstNone<V>(t);
      var found: seq<Event<V>> := [];
      var oldest: Option<nat> := None;
      for i := 0 to |rows|
        invariant found == Filter(rows[..i], window)
        invariant oldest == First(OfThread(rows[..i], t))
      {
        assert rows[..i + 1] == rows[..i] + [rows[i]];
        FilterSnoc(rows[..i], rows[i], window);
        FirstSnoc(rows[..i], rows[i], t);
        if rows[i].thread == t && oldest.None? {
          oldest := Some(rows[i].ordinal);
        }
        if window(rows[i]) {
          found := found + [rows[i]];
        }
      }
      assert rows[..|rows|] == rows;
      PageFacts(rows, history, t, after, wanted);
      var pruned := if t in prunedThrough then prunedThrough[t] else 0;
      var events := found[..if |found| < limit then |found| else limit];
      r := Some(Page(events, if events == [] then after else events[|events| - 1].ordinal,
                     |found| > limit, after < pruned, oldest, pruned));
    }
  }

  function First<V>(s: seq<Event<V>>): Option<nat> {
    if s == [] then None else Some(s[0].ordinal)
  }

  lemma FirstNone<V>(t: string)
    ensures First<V>(OfThread([], t)) == None
  {
  }

  lemma FirstSnoc<V>(s: seq<Event<V>>, e: Event<V>, t: string)
    ensures First(OfThread(s + [e], t))
         == if First(OfThread(s, t)).None? && e.thread == t then Some(e.ordinal) else First(OfThread(s, t))
  {
    FilterSnoc(s, e, Own(t));
  }

  lemma PrunedNone<V>(history: seq<Event<V>>, t: string)
    ensures Dropped(history, t) == 0 ==> PrunedThrough(history, t) == 0
  {
  }

  /** The rows a read finds are the retained ones, and its watermark test is the gap. */
  lemma PageFacts<V>(rows: seq<Event<V>>, history: seq<Event<V>>, t: string, after: nat, wanted: V -> bool)
    requires Retains(rows, history)
    ensures Filter(rows, Window(t, after, |history|, wanted))
         == Pick(Newest(OfThread(history, t), RETAINED), t, after, |history|, wanted)
    ensures after < PrunedThrough(history, t)
       <==> exists k :: 0 <= k < Dropped(history, t) && OfThread(history, t)[k].ordinal > after
    ensures Dropped(history, t) == 0 ==> PrunedThrough(history, t) == 0
    ensures OfThread(rows, t) == Newest(OfThread(history, t), RETAINED)
  {
    hide Filter;
    assert OfThread(rows, t) == Newest(OfThread(history, t), RETAINED);
    FilterTwice(rows, Own(t), Window(t, after, |history|, wanted), Window(t, after, |history|, wanted));
    GapMeaning(history, t, after);
    PrunedNone(history, t);
    hide Dropped;
    hide PrunedThrough;
  }
}
