/**
 Reading a thread backwards, some turns at a time. A page is cut by a number of turns and by a
 number of rows, and the next one resumes at a (turn, id) cursor that may lie inside a turn.
 */
module MessagePages {
  import opened Wrappers
  import opened MessageTable

  const MAX_ROWS_PER_PAGE := 150

  datatype Cursor = Cursor(turn: int, id: int)

  datatype Page = Page(rows: seq<Row>, total: nat, next: Option<Cursor>, hasMore: bool)

  /** Strictly older than the cursor. */
  predicate Before(r: Row, c: Cursor) {
    r.turn < c.turn || (r.turn == c.turn && r.id < c.id)
  }

  predicate Older(r: Row, c: Option<Cursor>) { c.None? || Before(r, c.value) }

  function CursorAt(r: Row): Cursor { Cursor(r.turn, r.id) }

  /** `SELECT DISTINCT turn_id`: the turns that start before the cursor's. */
  function Turns(rows: seq<Row>, thread: string, c: Option<Cursor>): set<int> {
    set r | r in rows && r.thread == thread && (c.None? || r.turn < c.value.turn) :: r.turn
  }

  /** `ORDER BY turn_id DESC LIMIT n`: fewer than `n` of the turns are newer. */
  predicate Recent(turns: set<int>, u: int, n: int) {
    u in turns && |Above(turns, u)| < n
  }

  function Above(turns: set<int>, u: int): set<int> {
    set v | v in turns && v > u
  }

  predicate Selected(r: Row, rows: seq<Row>, thread: string, c: Option<Cursor>, n: int) {
    && r.thread == thread
    && (|| Recent(Turns(rows, thread, c), r.turn, n)
        || (c.Some? && r.turn == c.value.turn && r.id < c.value.id))
  }

  function LastRows(rows: seq<Row>, n: nat): seq<Row> {
    if |rows| <= n then rows else rows[|rows| - n..]
  }

  function Count(rows: seq<Row>, thread: string): nat {
    |Filter(rows, (r: Row) => r.thread == thread)|
  }

  /** The positions of the thread's rows. */
  function Positions(rows: seq<Row>, thread: string): set<nat> {
    set i: nat | i < |rows| && rows[i].thread == thread
  }

  lemma {:induction false} CountIsNumber(rows: seq<Row>, thread: string)
    ensures Count(rows, thread) == |Positions(rows, thread)|
  {
    hide Count;
    hide Positions;
    LastPosition(rows, thread);
    CountLast(rows, thread);
    if rows != [] {
      CountIsNumber(rows[..|rows| - 1], thread);
    }
  }

  lemma LastPosition(rows: seq<Row>, thread: string)
    ensures rows == [] ==> Positions(rows, thread) == {}
    ensures rows != [] ==>
              var n := |rows| - 1;
              && n !in Positions(rows[..n], thread)
              && Positions(rows, thread) == Positions(rows[..n], thread) + (if rows[n].thread == thread then {n} else {})
  {
  }

  lemma CountLast(rows: seq<Row>, thread: string)
    ensures rows == [] ==> Count(rows, thread) == 0
    ensures rows != [] ==>
              var n := |rows| - 1;
              Count(rows, thread) == Count(rows[..n], thread) + (if rows[n].thread == thread then 1 else 0)
  {
  }

  predicate HasOlder(rows: seq<Row>, thread: string, c: Cursor) {
    exists r :: r in rows && r.thread == thread && Before(r, c)
  }

  function Picked(rows: seq<Row>, thread: string, c: Option<Cursor>, n: int): seq<Row> {
    Filter(rows, Picks(rows, thread, c, n))
  }

  function Picks(rows: seq<Row>, thread: string, c: Option<Cursor>, n: int): Row -> bool {
    (r: Row) => Selected(r, rows, thread, c, n)
  }

  function PageRows(rows: seq<Row>, thread: string, c: Option<Cursor>, n: int): seq<Row> {
    LastRows(Picked(rows, thread, c, n), MAX_ROWS_PER_PAGE)
  }

  /** The table as each of a fetch's three queries finds it: for the page, the count and `has_more`. */
  datatype Reads = Reads(rows: seq<Row>, counted: seq<Row>, later: seq<Row>)

  function Still(rows: seq<Row>): Reads { Reads(rows, rows, rows) }

  /** `list_messages_turn_windowed` */
  function List(q: Reads, thread: string, c: Option<Cursor>, n: int): Page {
    if n <= 0 then Page([], Count(q.counted, thread), c, false)
    else
      var page := PageRows(q.rows, thread, c, n);
      if page == [] then Page([], Count(q.counted, thread), c, false)
      else
        var next := CursorAt(page[0]);
        Page(page, Count(q.counted, thread), Some(next), HasOlder(q.later, thread, next))
  }

  /** What is left to read. */
  function Remaining(rows: seq<Row>, thread: string, c: Option<Cursor>): seq<Row> {
    Filter(rows, Left(thread, c))
  }

  function Left(thread: string, c: Option<Cursor>): Row -> bool {
    (r: Row) => r.thread == thread && Older(r, c)
  }

  // ---- a page is the newest part of what remains ----

  /** Newer turns of a selected turn are selected. */
  lemma RecentUpwards(turns: set<int>, u: int, v: int, n: int)
    requires Recent(turns, u, n) && v in turns && v >= u
    ensures Recent(turns, v, n)
  {
    assert Above(turns, v) <= Above(turns, u);
    Subset(Above(turns, v), Above(turns, u));
  }

  lemma Subset(a: set<int>, b: set<int>)
    requires a <= b
    ensures |a| <= |b|
  {
    assert b * a == a;
    assert |b - a| == |b| - |b * a|;
  }

  /** The newest turn before the cursor, if there is one. */
  lemma {:induction false} Newest(rows: seq<Row>, thread: string, c: Option<Cursor>) returns (r: Option<Row>)
    ensures r.Some? ==> r.value in rows && r.value.thread == thread && (c.None? || r.value.turn < c.value.turn)
    ensures forall x :: x in rows && x.thread == thread && (c.None? || x.turn < c.value.turn) ==> r.Some? && x.turn <= r.value.turn
  {
    r := None;
    if rows != [] {
      var n := |rows| - 1;
      assert rows == rows[..n] + [rows[n]];
      r := Newest(rows[..n], thread, c);
      if rows[n].thread == thread && (c.None? || rows[n].turn < c.value.turn) && (r.None? || r.value.turn < rows[n].turn) {
        r := Some(rows[n]);
      }
    }
  }

  /** The newest turn is always selected. */
  lemma NewestIsRecent(rows: seq<Row>, thread: string, c: Option<Cursor>, n: int, m: Row)
    requires n > 0 && m in rows && m.thread == thread && (c.None? || m.turn < c.value.turn)
    requires forall x :: x in rows && x.thread == thread && (c.None? || x.turn < c.value.turn) ==> x.turn <= m.turn
    ensures Recent(Turns(rows, thread, c), m.turn, n)
  {
    assert Above(Turns(rows, thread, c), m.turn) == {};
  }

  /** Nothing selected is at or after the cursor. */
  lemma SelectedIsOlder(r: Row, rows: seq<Row>, thread: string, c: Option<Cursor>, n: int)
    requires r in rows && Selected(r, rows, thread, c, n)
    ensures r.thread == thread && Older(r, c)
  {
  }

  /** Selection goes all the way up: what remains and is newer than a selected row is selected. */
  lemma SelectedUpwards(rows: seq<Row>, a: Row, b: Row, thread: string, c: Option<Cursor>, n: int)
    requires a in rows && b in rows && InOrder(a, b)
    requires Selected(a, rows, thread, c, n) && b.thread == thread && Older(b, c)
    ensures Selected(b, rows, thread, c, n)
  {
    hide Recent;
    if !(c.Some? && b.turn == c.value.turn && b.id < c.value.id) {
      assert b.turn in Turns(rows, thread, c);
      if Recent(Turns(rows, thread, c), a.turn, n) {
        RecentUpwards(Turns(rows, thread, c), a.turn, b.turn, n);
      }
    }
  }

  lemma {:induction false} FilterConcat(a: seq<Row>, b: seq<Row>, keep: Row -> bool)
    ensures Filter(a + b, keep) == Filter(a, keep) + Filter(b, keep)
  {
    if b == [] {
      assert a + b == a;
    } else {
      var n := |b| - 1;
      assert (a + b)[..|a + b| - 1] == a + b[..n];
      FilterConcat(a, b[..n], keep);
    }
  }

  lemma {:induction false} FilterSame(rows: seq<Row>, p: Row -> bool, q: Row -> bool)
    requires forall i :: 0 <= i < |rows| ==> p(rows[i]) == q(rows[i])
    ensures Filter(rows, p) == Filter(rows, q)
  {
    if rows != [] {
      FilterSame(rows[..|rows| - 1], p, q);
    }
  }

  lemma {:induction false} FilterNothing(rows: seq<Row>, q: Row -> bool)
    requires forall i :: 0 <= i < |rows| ==> !q(rows[i])
    ensures Filter(rows, q) == []
  {
    if rows != [] {
      FilterNothing(rows[..|rows| - 1], q);
    }
  }

  lemma FilterFirst(rows: seq<Row>, keep: Row -> bool)
    requires rows != [] && keep(rows[0])
    ensures Filter(rows, keep) != [] && Filter(rows, keep)[0] == rows[0]
  {
    assert rows == [rows[0]] + rows[1..];
    FilterConcat([rows[0]], rows[1..], keep);
    assert Filter([rows[0]], keep) == [rows[0]] by {
      assert [rows[0]][..0] == [];
    }
  }

  /** The last rows of `x + y` start with the first of `y`: they are `y`. */
  lemma LastRowsFrom(x: seq<Row>, y: seq<Row>, n: nat)
    requires y != [] && Ordered(x + y) && LastRows(x + y, n) != [] && LastRows(x + y, n)[0] == y[0]
    ensures LastRows(x + y, n) == y
  {
    var z := x + y;
    var k := if |z| <= n then 0 else |z| - n;
    assert LastRows(z, n) == z[k..];
    assert z[k] == z[|x|];
    IdsDiffer(z, k, |x|);
    assert z[|x|..] == y;
  }

  /** Where a selected row stands, everything at or after it that remains is selected. */
  lemma SelectedFrom(rows: seq<Row>, s: nat, thread: string, c: Option<Cursor>, n: int)
    requires Ordered(rows) && s < |rows| && Selected(rows[s], rows, thread, c, n)
    ensures Filter(rows[s..], Picks(rows, thread, c, n)) == Remaining(rows[s..], thread, c)
  {
    hide Selected;
    hide InOrder;
    hide Older;
    var p, q := Picks(rows, thread, c, n), Left(thread, c);
    forall i | 0 <= i < |rows[s..]| ensures p(rows[s..][i]) == q(rows[s..][i]) {
      var r := rows[s..][i];
      assert r == rows[s + i] && r in rows;
      if p(r) {
        SelectedIsOlder(r, rows, thread, c, n);
      } else if q(r) && i > 0 {
        assert InOrder(rows[s], rows[s + i]);
        SelectedUpwards(rows, rows[s], r, thread, c, n);
      }
    }
    FilterSame(rows[s..], p, q);
  }

  /** What is older than a remaining row is what stands before it. */
  lemma RemainingBefore(rows: seq<Row>, s: nat, thread: string, c: Option<Cursor>)
    requires Ordered(rows) && s < |rows| && rows[s].thread == thread && Older(rows[s], c)
    ensures Remaining(rows, thread, Some(CursorAt(rows[s]))) == Remaining(rows[..s], thread, c)
  {
    hide RowOk;
    hide Filter;
    var a, b := rows[..s], rows[s..];
    var p := Left(thread, c);
    var q := Left(thread, Some(CursorAt(rows[s])));
    assert rows == a + b;
    FilterConcat(a, b, q);
    forall i | 0 <= i < |a| ensures p(a[i]) == q(a[i]) {
      assert InOrder(rows[i], rows[s]);
    }
    FilterSame(a, p, q);
    forall i | 0 <= i < |b| ensures !q(b[i]) {
      assert b[i] == rows[s + i];
      assert i > 0 ==> InOrder(rows[s], rows[s + i]);
    }
    FilterNothing(b, q);
  }

  /** The page ends what remains, and what the next cursor leaves is exactly the rest. */
  lemma PageSplits(rows: seq<Row>, thread: string, c: Option<Cursor>, n: int)
    requires Ordered(rows) && PageRows(rows, thread, c, n) != []
    ensures var page := PageRows(rows, thread, c, n);
            && page[0].thread == thread && Older(page[0], c)
            && Remaining(rows, thread, c) == Remaining(rows, thread, Some(CursorAt(page[0]))) + page
  {
    hide Ordered;
    hide Filter;
    hide Selected;
    var keep := Picks(rows, thread, c, n);
    var picked := Filter(rows, keep);
    var page := PageRows(rows, thread, c, n);
    assert page[0] in picked;
    var s :| 0 <= s < |rows| && rows[s] == page[0];
    SelectedIsOlder(page[0], rows, thread, c, n);
    assert rows == rows[..s] + rows[s..];
    FilterConcat(rows[..s], rows[s..], Left(thread, c));
    RemainingBefore(rows, s, thread, c);
    SelectedFrom(rows, s, thread, c, n);
    FilterConcat(rows[..s], rows[s..], keep);
    FilterFirst(rows[s..], keep);
    FilterOrdered(rows, keep);
    LastRowsFrom(Filter(rows[..s], keep), Filter(rows[s..], keep), MAX_ROWS_PER_PAGE);
  }

  /** When anything remains, the page has something. */
  lemma PageNotEmpty(rows: seq<Row>, thread: string, c: Option<Cursor>, n: int)
    requires n > 0 && Remaining(rows, thread, c) != []
    ensures PageRows(rows, thread, c, n) != []
  {
    hide Filter;
    hide Recent;
    var keep := Picks(rows, thread, c, n);
    var x := Remaining(rows, thread, c)[0];
    assert x in Remaining(rows, thread, c);
    var m := Newest(rows, thread, c);
    if m.None? {
      assert x in Filter(rows, keep);
    } else {
      NewestIsRecent(rows, thread, c, n, m.value);
      assert m.value in Filter(rows, keep);
    }
  }

  /**
   One fetch, between whose queries anything may be written or deleted: its rows end what remained
   at the first of them, its cursor leaves exactly the rest, and `has_more` says whether there is
   any left by then.
   */
  lemma FetchTakesTheEnd(q: Reads, thread: string, c: Option<Cursor>, n: int)
    requires Ordered(q.rows) && n > 0
    ensures var page := List(q, thread, c, n);
            && Remaining(q.rows, thread, c) == (if page.rows == [] then [] else Remaining(q.rows, thread, page.next)) + page.rows
            && (page.hasMore <==> page.rows != [] && Remaining(q.later, thread, page.next) != [])
            && (page.rows == [] <==> Remaining(q.rows, thread, c) == [])
            && |page.rows| <= 150
            && page.next == if page.rows == [] then c else Some(CursorAt(page.rows[0]))
  {
    hide Filter;
    hide Selected;
    hide Ordered;
    var page := PageRows(q.rows, thread, c, n);
    if page == [] {
      if Remaining(q.rows, thread, c) != [] {
        PageNotEmpty(q.rows, thread, c, n);
      }
    } else {
      PageSplits(q.rows, thread, c, n);
      HasOlderMeans(q.later, thread, CursorAt(page[0]));
    }
  }

  lemma HasOlderMeans(rows: seq<Row>, thread: string, c: Cursor)
    ensures HasOlder(rows, thread, c) <==> Remaining(rows, thread, Some(c)) != []
  {
    hide Filter;
    if HasOlder(rows, thread, c) {
      var r :| r in rows && r.thread == thread && Before(r, c);
      assert r in Remaining(rows, thread, Some(c));
    }
    if Remaining(rows, thread, Some(c)) != [] {
      assert Remaining(rows, thread, Some(c))[0] in Remaining(rows, thread, Some(c));
    }
  }

  /** A turn is split between pages only when the page is full. */
  lemma SplitOnlyWhenFull(q: Reads, thread: string, c: Option<Cursor>, n: int, r: Row)
    requires Ordered(q.rows) && n > 0 && r in q.rows && r.thread == thread
    requires var page := List(q, thread, c, n);
             page.rows != [] && Before(r, page.next.value) && r.turn == page.rows[0].turn
    ensures |List(q, thread, c, n).rows| == 150
  {
    hide Filter;
    hide Recent;
    var picked := Picked(q.rows, thread, c, n);
    assert picked != [] && PageRows(q.rows, thread, c, n)[0] in picked;
    assert Selected(r, q.rows, thread, c, n);
    FilterOrdered(q.rows, Picks(q.rows, thread, c, n));
    assert picked[0] in picked && r in picked;
    NothingBeforeFirst(picked, r);
  }

  lemma NothingBeforeFirst(rows: seq<Row>, r: Row)
    requires Ordered(rows) && r in rows && rows[0].thread == r.thread
    ensures !Before(r, CursorAt(rows[0]))
  {
    hide RowOk;
    var i :| 0 <= i < |rows| && rows[i] == r;
    assert i > 0 ==> InOrder(rows[0], rows[i]);
  }

  function RecentTurns(turns: set<int>, n: nat): set<int> {
    set u | u in turns && Recent(turns, u, n)
  }

  /** The newest turn is taken, and of the others one less. */
  lemma NewestSplits(turns: set<int>, m: int, n: nat)
    requires n > 0 && m in turns && forall u :: u in turns ==> u <= m
    ensures RecentTurns(turns, n) == {m} + RecentTurns(turns - {m}, n - 1)
    ensures m !in RecentTurns(turns - {m}, n - 1)
  {
    var rest := turns - {m};
    assert Above(turns, m) == {};
    forall u | u in rest ensures |Above(turns, u)| == |Above(rest, u)| + 1 {
      assert Above(turns, u) == Above(rest, u) + {m};
    }
  }

  lemma NoTurns(turns: set<int>, n: nat)
    requires n == 0 || turns == {}
    ensures RecentTurns(turns, n) == {}
  {
  }

  lemma OneMore(s: set<int>, m: int)
    requires m !in s
    ensures |{m} + s| == 1 + |s|
  {
  }

  function Below(hi: nat): (s: set<int>)
    ensures forall u :: u in s <==> 0 <= u < hi
  {
    if hi == 0 then {} else Below(hi - 1) + {hi - 1}
  }

  lemma BelowSkips(turns: set<int>, hi: nat)
    requires hi > 0 && turns <= Below(hi) && hi - 1 !in turns
    ensures turns <= Below(hi - 1)
  {
  }

  lemma BelowNewest(turns: set<int>, hi: nat)
    requires hi > 0 && turns <= Below(hi) && hi - 1 in turns
    ensures turns - {hi - 1} <= Below(hi - 1) && |turns - {hi - 1}| == |turns| - 1
    ensures forall u :: u in turns ==> u <= hi - 1
  {
    assert turns == {hi - 1} + (turns - {hi - 1});
    OneMore(turns - {hi - 1}, hi - 1);
  }

  function Least(a: nat, b: nat): nat { if a <= b then a else b }

  lemma CountWithNewest(turns: set<int>, n: nat, hi: nat)
    requires hi > 0 && n > 0 && turns <= Below(hi) && hi - 1 in turns
    requires var rest := turns - {hi - 1}; |RecentTurns(rest, n - 1)| == Least(n - 1, |rest|)
    ensures |RecentTurns(turns, n)| == Least(n, |turns|)
  {
    hide RecentTurns;
    hide Below;
    BelowNewest(turns, hi);
    NewestSplits(turns, hi - 1, n);
    OneMore(RecentTurns(turns - {hi - 1}, n - 1), hi - 1);
  }

  /** `LIMIT n` takes `n` turns, or all there are. */
  lemma {:induction false} RecentCount(turns: set<int>, n: nat, hi: nat)
    requires turns <= Below(hi)
    ensures |RecentTurns(turns, n)| == Least(n, |turns|)
    decreases hi
  {
    hide RecentTurns;
    hide Least;
    if hi == 0 || n == 0 {
      NoneToCount(turns, n, hi);
    } else {
      hide Below;
      if hi - 1 !in turns {
        BelowSkips(turns, hi);
        RecentCount(turns, n, hi - 1);
      } else {
        BelowNewest(turns, hi);
        RecentCount(turns - {hi - 1}, n - 1, hi - 1);
        CountWithNewest(turns, n, hi);
      }
    }
  }

  lemma NoneToCount(turns: set<int>, n: nat, hi: nat)
    requires turns <= Below(hi) && (hi == 0 || n == 0)
    ensures |RecentTurns(turns, n)| == Least(n, |turns|)
  {
    NoTurns(turns, n);
  }

  /** The turns before the cursor's that a page shows rows of. */
  function TurnsShown(page: seq<Row>, c: Option<Cursor>): set<int> {
    set r | r in page && (c.None? || r.turn < c.value.turn) :: r.turn
  }

  /** Unless the cap bites, a page shows exactly as many turns as asked for, or all that are left. */
  lemma TurnsOnPage(q: Reads, thread: string, c: Option<Cursor>, n: nat)
    requires Ordered(q.rows) && n > 0
    requires |Picked(q.rows, thread, c, n)| <= MAX_ROWS_PER_PAGE
    ensures var turns := Turns(q.rows, thread, c);
            |TurnsShown(List(q, thread, c, n).rows, c)| == Least(n, |turns|)
  {
    hide Filter;
    hide Ordered;
    hide Recent;
    var turns := Turns(q.rows, thread, c);
    var page := List(q, thread, c, n).rows;
    assert page == Picked(q.rows, thread, c, n);
    forall u | u in TurnsShown(page, c) ensures u in RecentTurns(turns, n) {
      var r :| r in page && (c.None? || r.turn < c.value.turn) && r.turn == u;
      RecentIsTurn(turns, u, n);
    }
    forall u | u in RecentTurns(turns, n) ensures u in TurnsShown(page, c) {
      var r :| r in q.rows && r.thread == thread && (c.None? || r.turn < c.value.turn) && r.turn == u;
      assert r in page;
    }
    assert TurnsShown(page, c) == RecentTurns(turns, n);
    TurnsAreBounded(q.rows, thread, c);
    assert turns <= Below(MaxTurn(q.rows, thread) + 1);
    RecentCount(turns, n, MaxTurn(q.rows, thread) + 1);
  }

  lemma RecentIsTurn(turns: set<int>, u: int, n: int)
    ensures Recent(turns, u, n) ==> u in turns
  {
  }

  lemma TurnsAreBounded(rows: seq<Row>, thread: string, c: Option<Cursor>)
    requires Ordered(rows)
    ensures forall u :: u in Turns(rows, thread, c) ==> 0 <= u <= MaxTurn(rows, thread)
  {
    hide MaxTurn;
    hide InOrder;
    forall u | u in Turns(rows, thread, c) ensures 0 <= u <= MaxTurn(rows, thread) {
      var r :| r in rows && r.thread == thread && r.turn == u;
      var i :| 0 <= i < |rows| && rows[i] == r;
      assert RowOk(rows[i]);
    }
  }

  // ---- walking back through a thread that changes meanwhile ----

  /**
   A walk: fetch `k` starts where fetch `k - 1` ended, and the walk goes on just as long as there is
   more. Between any two queries anything may have been written or deleted.
   */
  predicate Walk(fetches: seq<Reads>, thread: string, limits: seq<int>, pages: seq<Page>) {
    && |fetches| == |pages| == |limits| && pages != []
    && (forall k :: 0 <= k < |pages| ==> limits[k] > 0 && Ordered(fetches[k].rows))
    && (forall k :: 0 <= k < |pages| ==> pages[k] == List(fetches[k], thread, CursorOf(pages, k), limits[k]))
    && (forall k :: 0 <= k < |pages| ==> pages[k].hasMore == (k < |pages| - 1))
  }

  function CursorOf(pages: seq<Page>, k: nat): Option<Cursor>
    requires k <= |pages|
  {
    if k == 0 then None else pages[k - 1].next
  }

  /** Cursors only move back, page by page. */
  lemma {:induction false} CursorsMoveBack(fetches: seq<Reads>, thread: string, limits: seq<int>, pages: seq<Page>,
                                           j: nat, k: nat, r: Row)
    requires Walk(fetches, thread, limits, pages) && j <= k < |pages|
    requires Older(r, CursorOf(pages, k))
    ensures Older(r, CursorOf(pages, j))
  {
    hide Ordered;
    hide List;
    if j < k {
      FetchMovesBack(fetches[k - 1], thread, CursorOf(pages, k - 1), limits[k - 1], r);
      CursorsMoveBack(fetches, thread, limits, pages, j, k - 1, r);
    }
  }

  lemma FetchMovesBack(q: Reads, thread: string, c: Option<Cursor>, n: int, r: Row)
    requires Ordered(q.rows) && n > 0 && Older(r, List(q, thread, c, n).next)
    ensures Older(r, c)
  {
    hide Ordered;
    hide Filter;
    hide List;
    FetchTakesTheEnd(q, thread, c, n);
    var page := List(q, thread, c, n);
    if page.rows != [] {
      assert page.rows[0] in Remaining(q.rows, thread, c);
    }
  }

  /** The page holds exactly the rows older than its cursor and not older than the one it returns. */
  lemma RowsBetweenCursors(q: Reads, thread: string, c: Option<Cursor>, n: int, r: Row)
    requires Ordered(q.rows) && n > 0 && List(q, thread, c, n).rows != []
    ensures var page := List(q, thread, c, n);
            && page.next.Some?
            && (r in page.rows <==> r in q.rows && r.thread == thread && Older(r, c) && !Before(r, page.next.value))
  {
    hide Filter;
    hide List;
    hide RowOk;
    FetchTakesTheEnd(q, thread, c, n);
    var page := List(q, thread, c, n);
    var all := Remaining(q.rows, thread, c);
    assert all == Remaining(q.rows, thread, page.next) + page.rows;
    FilterOrdered(q.rows, Left(thread, c));
    if r in page.rows {
      assert page.rows[0] in all && r in all;
      var i :| 0 <= i < |page.rows| && page.rows[i] == r;
      var k := |all| - |page.rows|;
      assert all[k + i] == r && all[k] == page.rows[0];
      assert i > 0 ==> InOrder(all[k], all[k + i]);
    }
  }

  /** No row is on two pages. */
  lemma PagesDisjoint(fetches: seq<Reads>, thread: string, limits: seq<int>, pages: seq<Page>, j: nat, k: nat, r: Row)
    requires Walk(fetches, thread, limits, pages) && j < k < |pages|
    requires r in pages[j].rows
    ensures r !in pages[k].rows
  {
    hide Ordered;
    hide List;
    hide Before;
    if r in pages[k].rows {
      RowsBetweenCursors(fetches[k], thread, CursorOf(pages, k), limits[k], r);
      CursorsMoveBack(fetches, thread, limits, pages, j + 1, k, r);
      RowsBetweenCursors(fetches[j], thread, CursorOf(pages, j), limits[j], r);
    }
  }

  /** The last fetch leaves nothing of what was there at all of its queries. */
  lemma LastFetch(q: Reads, thread: string, c: Option<Cursor>, n: int, r: Row)
    requires Ordered(q.rows) && n > 0 && !List(q, thread, c, n).hasMore
    requires r in q.rows && r in q.later && r.thread == thread && Older(r, c)
    ensures r in List(q, thread, c, n).rows
  {
    hide Ordered;
    hide Filter;
    hide List;
    FetchTakesTheEnd(q, thread, c, n);
    assert r in Remaining(q.rows, thread, c);
    var page := List(q, thread, c, n);
    RowsBetweenCursors(q, thread, c, n, r);
    assert Before(r, page.next.value) ==> r in Remaining(q.later, thread, page.next);
  }

  /** The row is there whenever a page is read or the rest is asked for. */
  predicate There(fetches: seq<Reads>, r: Row) {
    forall i :: 0 <= i < |fetches| ==> r in fetches[i].rows && r in fetches[i].later
  }

  /** Such a row is met by the walk from page `k` on, if it is older than its cursor. */
  lemma {:induction false} WalkMeets(fetches: seq<Reads>, thread: string, limits: seq<int>, pages: seq<Page>, k: nat, r: Row)
    requires Walk(fetches, thread, limits, pages) && k < |pages|
    requires r.thread == thread && Older(r, CursorOf(pages, k)) && There(fetches, r)
    ensures exists i :: k <= i < |pages| && r in pages[i].rows
    decreases |pages| - k
  {
    hide Ordered;
    hide List;
    if k == |pages| - 1 {
      LastFetch(fetches[k], thread, CursorOf(pages, k), limits[k], r);
    } else if r !in pages[k].rows {
      FetchTakesTheEnd(fetches[k], thread, CursorOf(pages, k), limits[k]);
      RowsBetweenCursors(fetches[k], thread, CursorOf(pages, k), limits[k], r);
      WalkMeets(fetches, thread, limits, pages, k + 1, r);
    }
  }

  /**
   Whatever is written and deleted between the queries of a walk, a message of the thread that is
   there throughout is on exactly one of its pages.
   */
  lemma WalkReturnsEachRowOnce(fetches: seq<Reads>, thread: string, limits: seq<int>, pages: seq<Page>, r: Row)
    requires Walk(fetches, thread, limits, pages) && r.thread == thread && There(fetches, r)
    ensures exists k :: 0 <= k < |pages| && r in pages[k].rows
    ensures forall j, k :: 0 <= j < |pages| && 0 <= k < |pages| && r in pages[j].rows && r in pages[k].rows ==> j == k
  {
    hide Ordered;
    hide List;
    WalkMeets(fetches, thread, limits, pages, 0, r);
    forall j, k | 0 <= j < |pages| && 0 <= k < |pages| && r in pages[j].rows && r in pages[k].rows ensures j == k {
      if j < k {
        PagesDisjoint(fetches, thread, limits, pages, j, k, r);
      } else if k < j {
        PagesDisjoint(fetches, thread, limits, pages, k, j, r);
      }
    }
  }

  /** In the order of (turn, id). */
  predicate CursorBefore(a: Cursor, b: Cursor) {
    a.turn < b.turn || (a.turn == b.turn && a.id < b.id)
  }

  /**
   However the table changes, every further fetch that finds anything returns a smaller cursor, and
   cursors are pairs of natural numbers: no walk goes on for ever.
   */
  lemma CursorsDescend(fetches: seq<Reads>, thread: string, limits: seq<int>, pages: seq<Page>, k: nat)
    requires Walk(fetches, thread, limits, pages) && k < |pages| && pages[k].rows != []
    requires forall r :: r in fetches[k].rows ==> r.id >= 1
    ensures pages[k].next.Some? && pages[k].next.value.turn >= 0 && pages[k].next.value.id >= 1
    ensures k > 0 ==> pages[k - 1].next.Some? && CursorBefore(pages[k].next.value, pages[k - 1].next.value)
  {
    hide List;
    hide Filter;
    hide InOrder;
    var q, c := fetches[k], CursorOf(pages, k);
    FetchTakesTheEnd(q, thread, c, limits[k]);
    var first := pages[k].rows[0];
    assert first in Remaining(q.rows, thread, c);
    var i :| 0 <= i < |q.rows| && q.rows[i] == first;
    assert RowOk(q.rows[i]);
    if k > 0 {
      FetchTakesTheEnd(fetches[k - 1], thread, CursorOf(pages, k - 1), limits[k - 1]);
    }
  }

  /** The pages in reading order, oldest first. */
  function Gather(pages: seq<Page>): seq<Row> {
    if pages == [] then [] else Gather(pages[1..]) + pages[0].rows
  }

  /** The pages of a walk over a table that does not change. */
  function WalkStill(rows: seq<Row>, thread: string, c: Option<Cursor>, n: int): seq<Page>
    requires Ordered(rows) && n > 0
    decreases |Remaining(rows, thread, c)|
  {
    var page := List(Still(rows), thread, c, n);
    FetchTakesTheEnd(Still(rows), thread, c, n);
    [page] + (if page.hasMore then WalkStill(rows, thread, page.next, n) else [])
  }

  /** Undisturbed, the walk ends, and its pages joined are the thread from the cursor back. */
  lemma {:induction false} WalkStillIsThread(rows: seq<Row>, thread: string, c: Option<Cursor>, n: int)
    requires Ordered(rows) && n > 0
    ensures Gather(WalkStill(rows, thread, c, n)) == Remaining(rows, thread, c)
    decreases |Remaining(rows, thread, c)|
  {
    hide Ordered;
    hide List;
    hide Remaining;
    FetchTakesTheEnd(Still(rows), thread, c, n);
    var page := List(Still(rows), thread, c, n);
    var walk := WalkStill(rows, thread, c, n);
    assert walk[0] == page;
    if page.hasMore {
      WalkStillIsThread(rows, thread, page.next, n);
      assert walk[1..] == WalkStill(rows, thread, page.next, n);
    } else {
      assert walk[1..] == [];
    }
  }

  /** Every fetch counts the thread; one that asks for no turns fetches nothing and leaves the cursor. */
  lemma FetchCounts(q: Reads, thread: string, c: Option<Cursor>, n: int)
    ensures var page := List(q, thread, c, n);
            && page.total == |Positions(q.counted, thread)|
            && (n <= 0 ==> page == Page([], page.total, c, false))
            && (page.rows == [] ==> page.next == c && !page.hasMore)
  {
    hide Count;
    hide Positions;
    CountIsNumber(q.counted, thread);
  }
}
