/** The order of a user's projects: reordering them all at once, and the order they are listed in. */
module Projects {
  import opened Wrappers

  datatype Project = Project(id: int, user: int, pinned: bool, position: int, name: string)

  /** `ORDER BY pinned DESC, position ASC, id ASC` */
  predicate Before(a: Project, b: Project) {
    if a.pinned != b.pinned then a.pinned
    else a.position < b.position || (a.position == b.position && a.id < b.id)
  }

  /** Ids are the primary key. */
  predicate UniqueIds(rows: seq<Project>) {
    forall i, j :: 0 <= i < j < |rows| ==> rows[i].id != rows[j].id
  }

  function OfUser(rows: seq<Project>, user: int): (r: seq<Project>)
    ensures forall p :: p in r <==> p in rows && p.user == user
  {
    if rows == [] then []
    else
      var n := |rows| - 1;
      var front := OfUser(rows[..n], user);
      if rows[n].user == user then front + [rows[n]] else front
  }

  function Ids(rows: seq<Project>): (ids: seq<int>)
    ensures |ids| == |rows| && forall i :: 0 <= i < |rows| ==> ids[i] == rows[i].id
  {
    seq(|rows|, i requires 0 <= i < |rows| => rows[i].id)
  }

  function Elements(ids: seq<int>): (r: set<int>)
    ensures forall x :: x in r <==> x in ids
  {
    set x | x in ids
  }

  lemma {:induction false} OfUserUnique(rows: seq<Project>, user: int)
    requires UniqueIds(rows)
    ensures UniqueIds(OfUser(rows, user))
  {
    if rows != [] {
      var n := |rows| - 1;
      OfUserUnique(rows[..n], user);
      var front := OfUser(rows[..n], user);
      forall i | 0 <= i < |front| ensures front[i].id != rows[n].id {
        assert front[i] in rows[..n];
      }
    }
  }

  // ---- listing ----

  predicate Sorted(rows: seq<Project>) {
    forall i, j :: 0 <= i < j < |rows| ==> Before(rows[i], rows[j])
  }

  /** Insert into the listing, before the first row that comes later. */
  function Insert(p: Project, rows: seq<Project>): (r: seq<Project>)
    ensures forall x :: x in r <==> x == p || x in rows
  {
    if rows == [] || Before(p, rows[0]) then [p] + rows
    else
      assert forall x :: x in rows ==> x == rows[0] || x in rows[1..];
      [rows[0]] + Insert(p, rows[1..])
  }

  function Sort(rows: seq<Project>): (r: seq<Project>)
    ensures forall x :: x in r <==> x in rows
  {
    if rows == [] then []
    else
      assert forall x :: x in rows ==> x == rows[0] || x in rows[1..];
      Insert(rows[0], Sort(rows[1..]))
  }

  /** `LIMIT l OFFSET o`; a negative limit is none, a negative offset is zero. */
  function Slice(rows: seq<Project>, limit: Option<int>, offset: int): seq<Project> {
    if limit.None? then rows
    else
      var from := if offset < 0 then 0 else if offset > |rows| then |rows| else offset;
      var rest := rows[from..];
      if limit.value < 0 || limit.value > |rest| then rest else rest[..limit.value]
  }

  function List(rows: seq<Project>, user: int, limit: Option<int>, offset: int): seq<Project> {
    Slice(Sort(OfUser(rows, user)), limit, offset)
  }

  /** The listing holds the user's projects, pinned ones first, each half by position and then by id. */
  lemma ListingOrder(rows: seq<Project>, user: int, i: nat, j: nat)
    requires UniqueIds(rows) && i < j < |List(rows, user, None, 0)|
    ensures var l := List(rows, user, None, 0);
            && (l[j].pinned ==> l[i].pinned)
            && (l[i].pinned == l[j].pinned ==>
                  l[i].position < l[j].position || (l[i].position == l[j].position && l[i].id < l[j].id))
    ensures forall p :: p in List(rows, user, None, 0) <==> p in rows && p.user == user
  {
    hide Sort;
    OfUserUnique(rows, user);
    SortSorted(OfUser(rows, user));
    var l := List(rows, user, None, 0);
    assert Before(l[i], l[j]);
  }

  /** A page of the listing holds the projects from its offset on, as many as asked for or as are left. */
  lemma ListedPage(rows: seq<Project>, user: int, limit: Option<int>, offset: int)
    ensures var all, page := List(rows, user, None, 0), List(rows, user, limit, offset);
            var from := if limit.None? || offset < 0 then 0 else offset;
            && (forall i :: 0 <= i < |page| ==> from + i < |all| && page[i] == all[from + i])
            && (limit.Some? && 0 <= limit.value ==> |page| <= limit.value)
            && ((limit.None? || limit.value < 0 || |page| < limit.value) ==> |page| == if from <= |all| then |all| - from else 0)
  {
    hide Sort;
  }

  // ---- reordering ----

  /** The requested order names each of the user's projects, as the program checks it. */
  predicate Matches(rows: seq<Project>, user: int, ids: seq<int>) {
    var current := Ids(OfUser(rows, user));
    |ids| == |current| && Elements(current) == Elements(ids)
  }

  function IndexOf(ids: seq<int>, id: int): (k: nat)
    requires id in ids
    ensures k < |ids| && ids[k] == id
  {
    if ids[0] == id then 0 else 1 + IndexOf(ids[1..], id)
  }

  /** The table after a reorder: the listed rows stand at their index, everything else as before. */
  function Reordered(rows: seq<Project>, user: int, ids: seq<int>): (r: seq<Project>)
    ensures |r| == |rows|
  {
    seq(|rows|, k requires 0 <= k < |rows| =>
      if rows[k].user == user && rows[k].id in ids then rows[k].(position := IndexOf(ids, rows[k].id)) else rows[k])
  }

  predicate Distinct(ids: seq<int>) {
    forall i, j :: 0 <= i < j < |ids| ==> ids[i] != ids[j]
  }

  lemma {:induction false} SetOfDistinct(ids: seq<int>)
    ensures |Elements(ids)| <= |ids|
    ensures |Elements(ids)| == |ids| <==> Distinct(ids)
  {
    if ids != [] {
      var n := |ids| - 1;
      var front, all := Elements(ids[..n]), Elements(ids);
      SetOfDistinct(ids[..n]);
      assert ids == ids[..n] + [ids[n]];
      assert all == front + {ids[n]};
      if Distinct(ids[..n]) && ids[n] !in ids[..n] {
        assert Distinct(ids);
      }
      if ids[n] in ids[..n] {
        assert all == front;
        var i :| 0 <= i < n && ids[i] == ids[n];
      }
    }
  }

  /** Equal length and equal sets say exactly that the request is a permutation. */
  lemma MatchesIsPermutation(rows: seq<Project>, user: int, ids: seq<int>)
    requires UniqueIds(rows)
    ensures Matches(rows, user, ids) <==> multiset(ids) == multiset(Ids(OfUser(rows, user)))
    ensures Matches(rows, user, ids) ==> Distinct(ids)
  {
    hide OfUser;
    var current := Ids(OfUser(rows, user));
    OfUserUnique(rows, user);
    assert Distinct(current);
    SetOfDistinct(current);
    SetOfDistinct(ids);
    if Matches(rows, user, ids) {
      SameElements(ids, current);
    }
    if multiset(ids) == multiset(current) {
      SameMultiset(ids, current);
    }
  }

  lemma {:induction false} DistinctCounts(ids: seq<int>, x: int)
    requires Distinct(ids)
    ensures multiset(ids)[x] == if x in ids then 1 else 0
  {
    if ids != [] {
      var n := |ids| - 1;
      assert ids == ids[..n] + [ids[n]];
      DistinctCounts(ids[..n], x);
    }
  }

  lemma SameElements(a: seq<int>, b: seq<int>)
    requires Distinct(a) && Distinct(b) && Elements(a) == Elements(b)
    ensures multiset(a) == multiset(b)
  {
    forall x: int ensures multiset(a)[x] == multiset(b)[x] {
      DistinctCounts(a, x);
      DistinctCounts(b, x);
      assert x in a <==> x in Elements(a);
      assert x in b <==> x in Elements(b);
    }
  }

  lemma SameMultiset(a: seq<int>, b: seq<int>)
    requires multiset(a) == multiset(b)
    ensures |a| == |b| && Elements(a) == Elements(b)
  {
    assert |a| == |multiset(a)| == |multiset(b)| == |b|;
    assert forall x :: x in a <==> x in multiset(a);
    assert forall x :: x in b <==> x in multiset(b);
  }

  class ProjectStore {
    var rows: seq<Project>

    constructor ()
      ensures rows == []
    {
      rows := [];
    }

    /** Refused, and nothing changed, unless `ids` is a permutation of the user's projects. */
    method UpdateProjectPositions(user: int, ids: seq<int>) returns (ok: bool)
      requires UniqueIds(rows)
      modifies this
      ensures UniqueIds(rows)
      ensures ok <==> multiset(ids) == multiset(Ids(OfUser(old(rows), user)))
      ensures !ok ==> rows == old(rows)
      ensures ok ==> rows == Reordered(old(rows), user, ids)
    {
      hide OfUser;
      hide Reordered;
      MatchesIsPermutation(rows, user, ids);
      var current := Ids(OfUser(rows, user));
      if |ids| != |current| {
        return false;
      }
      if Elements(current) != Elements(ids) {
        return false;
      }
      ghost var before := rows;
      ReorderedNone(before, user);
      assert ids[..0] == [];
      for i := 0 to |ids|
        invariant rows == Reordered(before, user, ids[..i])
      {
        PlaceOne(before, user, ids, i);
        rows := Place(rows, user, ids[i], i);
      }
      assert ids[..|ids|] == ids;
      ReorderedIds(before, user, ids);
      ok := true;
    }
  }

  /** `UPDATE projects SET position = i WHERE id = ? AND user_id = ?` */
  function Place(rows: seq<Project>, user: int, id: int, i: int): seq<Project> {
    seq(|rows|, k requires 0 <= k < |rows| =>
      if rows[k].user == user && rows[k].id == id then rows[k].(position := i) else rows[k])
  }

  lemma {:induction false} IndexIn(ids: seq<int>, i: nat)
    requires Distinct(ids) && i < |ids|
    ensures IndexOf(ids, ids[i]) == i
  {
  }

  lemma {:induction false} IndexPrefix(ids: seq<int>, i: nat, id: int)
    requires i <= |ids| && id in ids[..i]
    ensures id in ids && IndexOf(ids[..i], id) == IndexOf(ids, id)
  {
    if ids[0] != id {
      assert ids[..i][1..] == ids[1..][..i - 1];
      IndexPrefix(ids[1..], i - 1, id);
    }
  }

  lemma ReorderedNone(rows: seq<Project>, user: int)
    ensures Reordered(rows, user, []) == rows
  {
  }

  lemma PlaceOne(rows: seq<Project>, user: int, ids: seq<int>, i: nat)
    requires i < |ids| && Distinct(ids)
    ensures Place(Reordered(rows, user, ids[..i]), user, ids[i], i) == Reordered(rows, user, ids[..i + 1])
    ensures Reordered(rows, user, []) == rows
  {
    hide IndexOf;
    var a, b := Reordered(rows, user, ids[..i]), Reordered(rows, user, ids[..i + 1]);
    assert ids[..i + 1] == ids[..i] + [ids[i]];
    forall k | 0 <= k < |rows| ensures Place(a, user, ids[i], i)[k] == b[k] {
      if rows[k].user == user {
        if rows[k].id in ids[..i] {
          IndexPrefix(ids, i, rows[k].id);
          IndexPrefix(ids, i + 1, rows[k].id);
        } else if rows[k].id == ids[i] {
          IndexPrefix(ids, i + 1, ids[i]);
          IndexIn(ids, i);
        }
      }
    }
  }

  lemma ReorderedIds(rows: seq<Project>, user: int, ids: seq<int>)
    requires UniqueIds(rows)
    ensures UniqueIds(Reordered(rows, user, ids))
  {
    var r := Reordered(rows, user, ids);
    assert forall k :: 0 <= k < |rows| ==> r[k].id == rows[k].id;
  }

  // ---- after a reorder ----

  /** The user's positions are 0 to n - 1, in the requested order; nothing else has changed. */
  lemma PositionsAreIndices(rows: seq<Project>, user: int, ids: seq<int>, k: nat)
    requires UniqueIds(rows) && Matches(rows, user, ids) && k < |rows|
    ensures var r := Reordered(rows, user, ids)[k];
            if rows[k].user == user
            then 0 <= r.position < |ids| && ids[r.position] == r.id && r == rows[k].(position := r.position)
            else r == rows[k]
  {
    hide IndexOf;
    hide OfUser;
    if rows[k].user == user {
      assert rows[k] in OfUser(rows, user);
      var i :| 0 <= i < |OfUser(rows, user)| && OfUser(rows, user)[i] == rows[k];
      assert Ids(OfUser(rows, user))[i] == rows[k].id;
      assert rows[k].id in Elements(ids);
    }
  }

  /** And every index is taken. */
  lemma EveryIndexIsAPosition(rows: seq<Project>, user: int, ids: seq<int>, i: nat) returns (k: nat)
    requires UniqueIds(rows) && Matches(rows, user, ids) && i < |ids|
    ensures k < |rows|
    ensures Reordered(rows, user, ids)[k].user == user
    ensures Reordered(rows, user, ids)[k].id == ids[i] && Reordered(rows, user, ids)[k].position == i
  {
    hide IndexOf;
    hide OfUser;
    MatchesIsPermutation(rows, user, ids);
    var current := Ids(OfUser(rows, user));
    assert ids[i] in Elements(ids);
    assert ids[i] in current;
    var j :| 0 <= j < |current| && current[j] == ids[i];
    assert OfUser(rows, user)[j] in rows;
    k :| 0 <= k < |rows| && rows[k] == OfUser(rows, user)[j];
    IndexIn(ids, i);
  }

  // ---- listing after a reorder ----

  lemma BeforeTransitive(a: Project, b: Project, c: Project)
    requires Before(a, b) && Before(b, c)
    ensures Before(a, c)
  {
  }

  lemma BeforeTotal(a: Project, b: Project)
    requires a.id != b.id
    ensures Before(a, b) != Before(b, a)
  {
  }

  lemma {:induction false} InsertSorted(p: Project, rows: seq<Project>)
    requires Sorted(rows) && forall i :: 0 <= i < |rows| ==> rows[i].id != p.id
    ensures Sorted(Insert(p, rows)) && |Insert(p, rows)| == |rows| + 1
  {
    hide Before;
    var r := Insert(p, rows);
    if rows == [] {
      assert r == [p];
    } else if Before(p, rows[0]) {
      assert r == [p] + rows;
      forall j | 0 <= j < |rows| ensures Before(p, rows[j]) {
        if j > 0 { BeforeTransitive(p, rows[0], rows[j]); }
      }
    } else {
      InsertSorted(p, rows[1..]);
      BeforeTotal(p, rows[0]);
      var rest := Insert(p, rows[1..]);
      assert r == [rows[0]] + rest;
      forall j | 0 <= j < |rest| ensures Before(rows[0], rest[j]) {
        assert rest[j] in rest;
        if rest[j] != p {
          var i :| 0 <= i < |rows[1..]| && rows[1..][i] == rest[j];
          assert rows[i + 1] == rest[j];
        }
      }
    }
  }

  lemma {:induction false} SortSorted(rows: seq<Project>)
    requires UniqueIds(rows)
    ensures Sorted(Sort(rows)) && |Sort(rows)| == |rows|
  {
    hide Before;
    hide Insert;
    if rows != [] {
      SortSorted(rows[1..]);
      var rest := Sort(rows[1..]);
      forall i | 0 <= i < |rest| ensures rest[i].id != rows[0].id {
        assert rest[i] in rest;
        var j :| 0 <= j < |rows[1..]| && rows[1..][j] == rest[i];
        assert rows[j + 1] == rest[i];
      }
      InsertSorted(rows[0], rest);
    }
  }

  /** The ids that are in `chosen`, in their order. */
  function Pick(ids: seq<int>, chosen: set<int>, inside: bool): (r: seq<int>)
    ensures forall x :: x in r <==> x in ids && (x in chosen) == inside
  {
    if ids == [] then []
    else
      var n := |ids| - 1;
      assert ids == ids[..n] + [ids[n]];
      Pick(ids[..n], chosen, inside) + (if (ids[n] in chosen) == inside then [ids[n]] else [])
  }

  /** The pinned ids first, each half in the requested order. */
  function PinnedFirst(ids: seq<int>, pinned: set<int>): seq<int> {
    Pick(ids, pinned, true) + Pick(ids, pinned, false)
  }

  function PinnedIds(rows: seq<Project>, user: int): set<int> {
    set p | p in rows && p.user == user && p.pinned :: p.id
  }

  /** Where an id belongs: pinned ones before the others, each in the requested order. */
  function Rank(ids: seq<int>, pinned: set<int>, id: int): nat
    requires id in ids
  {
    (if id in pinned then 0 else |ids|) + IndexOf(ids, id)
  }

  predicate ByRank(a: seq<int>, ids: seq<int>, pinned: set<int>) {
    && (forall i :: 0 <= i < |a| ==> a[i] in ids)
    && forall i, j :: 0 <= i < j < |a| ==> Rank(ids, pinned, a[i]) < Rank(ids, pinned, a[j])
  }

  lemma SameEmpty(a: seq<int>, b: seq<int>)
    requires a != [] && forall x :: x in a <==> x in b
    ensures b != [] && a[0] in b
  {
    var x := a[0];
    assert x in a && x in b;
  }

  lemma {:induction false} RankDetermines(a: seq<int>, b: seq<int>, ids: seq<int>, pinned: set<int>)
    requires ByRank(a, ids, pinned) && ByRank(b, ids, pinned) && forall x :: x in a <==> x in b
    ensures a == b
  {
    hide Rank;
    if b != [] { SameEmpty(b, a); }
    if a != [] {
      SameEmpty(a, b);
      assert a[0] in b && b[0] in a;
      var i :| 0 <= i < |a| && a[i] == b[0];
      var j :| 0 <= j < |b| && b[j] == a[0];
      assert i == 0;
      forall x ensures x in a[1..] <==> x in b[1..] {
        TailMembers(a, x, ids, pinned);
        TailMembers(b, x, ids, pinned);
      }
      RankDetermines(a[1..], b[1..], ids, pinned);
      assert a == [a[0]] + a[1..] && b == [b[0]] + b[1..];
    }
  }

  lemma TailMembers(a: seq<int>, x: int, ids: seq<int>, pinned: set<int>)
    requires a != [] && ByRank(a, ids, pinned)
    ensures x in a[1..] <==> x in a && x != a[0]
  {
    hide Rank;
    if x in a[1..] {
      var i :| 0 <= i < |a[1..]| && a[1..][i] == x;
      assert a[i + 1] == x;
    }
    if x in a && x != a[0] {
      var i :| 0 <= i < |a| && a[i] == x;
      assert a[1..][i - 1] == x;
    }
  }

  lemma PickLast(ids: seq<int>, n: nat, chosen: set<int>, inside: bool)
    requires 0 < n <= |ids|
    ensures Pick(ids[..n], chosen, inside) ==
            Pick(ids[..n - 1], chosen, inside) + (if (ids[n - 1] in chosen) == inside then [ids[n - 1]] else [])
  {
    assert ids[..n][..n - 1] == ids[..n - 1];
  }

  /** A pick keeps the requested order. */
  lemma {:induction false} PickIncreasing(ids: seq<int>, n: nat, chosen: set<int>, inside: bool)
    requires Distinct(ids) && n <= |ids|
    ensures var r := Pick(ids[..n], chosen, inside);
            && (forall i :: 0 <= i < |r| ==> r[i] in ids && IndexOf(ids, r[i]) < n)
            && (forall i, j :: 0 <= i < j < |r| ==> IndexOf(ids, r[i]) < IndexOf(ids, r[j]))
  {
    hide IndexOf;
    if n > 0 {
      PickIncreasing(ids, n - 1, chosen, inside);
      PickLast(ids, n, chosen, inside);
      IndexIn(ids, n - 1);
      hide Pick;
      var front, r := Pick(ids[..n - 1], chosen, inside), Pick(ids[..n], chosen, inside);
      assert forall i :: 0 <= i < |front| ==> r[i] == front[i];
    }
  }

  /** Each half of the listing is ranked, the pinned one below the other. */
  lemma PickByRank(ids: seq<int>, pinned: set<int>, inside: bool)
    requires Distinct(ids)
    ensures var r := Pick(ids, pinned, inside);
            && ByRank(r, ids, pinned)
            && (forall i :: 0 <= i < |r| ==> (Rank(ids, pinned, r[i]) < |ids|) == inside)
  {
    hide IndexOf;
    hide Pick;
    assert ids[..|ids|] == ids;
    PickIncreasing(ids, |ids|, pinned, inside);
    var r := Pick(ids, pinned, inside);
    forall i | 0 <= i < |r|
      ensures r[i] in ids && Rank(ids, pinned, r[i]) == (if inside then 0 else |ids|) + IndexOf(ids, r[i])
    {
      assert r[i] in r;
    }
  }

  lemma PinnedFirstByRank(ids: seq<int>, pinned: set<int>)
    requires Distinct(ids)
    ensures ByRank(PinnedFirst(ids, pinned), ids, pinned)
    ensures forall x :: x in PinnedFirst(ids, pinned) <==> x in ids
  {
    hide Pick;
    hide ByRank;
    hide Rank;
    PickByRank(ids, pinned, true);
    PickByRank(ids, pinned, false);
    RankedIn(Pick(ids, pinned, true), ids, pinned);
    RankedIn(Pick(ids, pinned, false), ids, pinned);
    ByRankConcat(Pick(ids, pinned, true), Pick(ids, pinned, false), ids, pinned);
    assert forall x :: x in PinnedFirst(ids, pinned) <==> x in Pick(ids, pinned, true) || x in Pick(ids, pinned, false);
  }

  lemma RankedIn(a: seq<int>, ids: seq<int>, pinned: set<int>)
    requires ByRank(a, ids, pinned)
    ensures forall i :: 0 <= i < |a| ==> a[i] in ids
  {
  }

  lemma ByRankConcat(a: seq<int>, b: seq<int>, ids: seq<int>, pinned: set<int>)
    requires ByRank(a, ids, pinned) && ByRank(b, ids, pinned)
    requires forall i :: 0 <= i < |a| ==> Rank(ids, pinned, a[i]) < |ids|
    requires forall i :: 0 <= i < |b| ==> Rank(ids, pinned, b[i]) >= |ids|
    ensures ByRank(a + b, ids, pinned)
  {
    hide Rank;
    var r := a + b;
    assert forall i :: 0 <= i < |r| ==> r[i] == if i < |a| then a[i] else b[i - |a|];
  }

  /** What is true of a user's rows once they are reordered. */
  lemma ReorderedRow(rows: seq<Project>, user: int, ids: seq<int>, p: Project)
    requires UniqueIds(rows) && Matches(rows, user, ids) && p in OfUser(Reordered(rows, user, ids), user)
    ensures p.id in ids && p.position == IndexOf(ids, p.id)
    ensures p.pinned <==> p.id in PinnedIds(rows, user)
  {
    hide IndexOf;
    hide OfUser;
    MatchesIsPermutation(rows, user, ids);
    var r := Reordered(rows, user, ids);
    var k :| 0 <= k < |r| && r[k] == p;
    PositionsAreIndices(rows, user, ids, k);
    IndexIn(ids, p.position);
    assert p.pinned ==> rows[k] in rows;
    if p.id in PinnedIds(rows, user) {
      var q :| q in rows && q.user == user && q.pinned && q.id == p.id;
      var j :| 0 <= j < |rows| && rows[j] == q;
      assert j == k;
    }
  }

  /**
   After a successful reorder the projects are listed in exactly the requested order, but for the
   pinned ones, which come first in that order among themselves.
   */
  lemma ListedAsRequested(rows: seq<Project>, user: int, ids: seq<int>)
    requires UniqueIds(rows) && multiset(ids) == multiset(Ids(OfUser(rows, user)))
    ensures Ids(List(Reordered(rows, user, ids), user, None, 0)) == PinnedFirst(ids, PinnedIds(rows, user))
  {
    hide OfUser;
    hide Sort;
    hide Reordered;
    hide PinnedIds;
    hide PinnedFirst;
    MatchesIsPermutation(rows, user, ids);
    var pinned := PinnedIds(rows, user);
    ListByRank(rows, user, ids);
    PinnedFirstByRank(ids, pinned);
    ListHasAll(rows, user, ids);
    RankDetermines(Ids(List(Reordered(rows, user, ids), user, None, 0)), PinnedFirst(ids, pinned), ids, pinned);
  }

  lemma ListByRank(rows: seq<Project>, user: int, ids: seq<int>)
    requires UniqueIds(rows) && Matches(rows, user, ids)
    ensures ByRank(Ids(List(Reordered(rows, user, ids), user, None, 0)), ids, PinnedIds(rows, user))
  {
    hide OfUser;
    hide Sort;
    hide Reordered;
    hide PinnedIds;
    hide IndexOf;
    hide Matches;
    var mine := OfUser(Reordered(rows, user, ids), user);
    ReorderedIds(rows, user, ids);
    OfUserUnique(Reordered(rows, user, ids), user);
    SortSorted(mine);
    var l := Sort(mine);
    forall i | 0 <= i < |l| ensures l[i].id in ids && l[i].position == IndexOf(ids, l[i].id)
                              && (l[i].pinned <==> l[i].id in PinnedIds(rows, user)) {
      assert l[i] in l;
      ReorderedRow(rows, user, ids, l[i]);
    }
    forall i, j | 0 <= i < j < |l| ensures Rank(ids, PinnedIds(rows, user), l[i].id) < Rank(ids, PinnedIds(rows, user), l[j].id) {
      assert Before(l[i], l[j]);
    }
  }

  lemma ListHasAll(rows: seq<Project>, user: int, ids: seq<int>)
    requires UniqueIds(rows) && Matches(rows, user, ids)
    ensures forall x :: x in Ids(List(Reordered(rows, user, ids), user, None, 0)) <==> x in ids
  {
    hide OfUser;
    hide Sort;
    hide IndexOf;
    hide Matches;
    var r := Reordered(rows, user, ids);
    var l := List(r, user, None, 0);
    forall x | x in Ids(l) ensures x in ids {
      var i :| 0 <= i < |l| && l[i].id == x;
      assert l[i] in l;
      ReorderedRow(rows, user, ids, l[i]);
    }
    forall x | x in ids ensures x in Ids(l) {
      var i :| 0 <= i < |ids| && ids[i] == x;
      var k := EveryIndexIsAPosition(rows, user, ids, i);
      assert r[k] in r && r[k] in OfUser(r, user) && r[k] in l;
      var j :| 0 <= j < |l| && l[j] == r[k];
      assert Ids(l)[j] == x;
    }
  }
}
