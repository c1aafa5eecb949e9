/**
 The messages table: rows in id order, what an insert writes, what the deletes leave, and the order
 that every mix of them keeps within each thread.
 */
module MessageTable {
  import opened Wrappers

  datatype Role = User | Assistant | System | ErrorRole

  datatype Row = Row(
    id: int,
    thread: string,
    role: Role,
    turn: int,
    seqNo: int,
    clientId: Option<string>,
    body: string)

  datatype Fault = DuplicateClientMessageId

  /** `nextId` is above every id ever given out: the key is AUTOINCREMENT. */
  datatype Table = Table(rows: seq<Row>, nextId: int)

  const EMPTY_TABLE := Table([], 1)

  /** `SELECT ... WHERE keep`, in id order. */
  function Filter(rows: seq<Row>, keep: Row -> bool): (r: seq<Row>)
    ensures forall x :: x in r <==> x in rows && keep(x)
    ensures |r| <= |rows|
  {
    if rows == [] then []
    else
      var n := |rows| - 1;
      Filter(rows[..n], keep) + (if keep(rows[n]) then [rows[n]] else [])
  }

  // ---- the order within a thread ----

  /** What an earlier and a later row owe each other. */
  predicate InOrder(a: Row, b: Row) {
    && a.id < b.id
    && (a.thread == b.thread ==>
          && a.turn <= b.turn
          && (b.role == User ==> a.turn < b.turn)
          && (b.clientId.Some? ==> a.clientId != b.clientId))
  }

  predicate RowOk(r: Row) {
    r.seqNo == r.id && r.turn >= 0 && (r.role == User ==> r.turn >= 1)
  }

  predicate Ordered(rows: seq<Row>) {
    && (forall i :: 0 <= i < |rows| ==> RowOk(rows[i]))
    && (forall i, j :: 0 <= i < j < |rows| ==> InOrder(rows[i], rows[j]))
  }

  predicate TableOk(t: Table) {
    && Ordered(t.rows) && t.nextId >= 1
    && forall i :: 0 <= i < |t.rows| ==> 1 <= t.rows[i].id < t.nextId
  }

  /** What the order says of a thread's rows, without positions. */
  lemma OrderMeans(rows: seq<Row>, a: Row, b: Row)
    requires Ordered(rows) && a in rows && b in rows && a.thread == b.thread
    ensures a.seqNo == a.id
    ensures a.id < b.id ==> a.turn <= b.turn
    ensures a.id == b.id ==> a == b
    ensures a.role == User && a.turn == b.turn ==> a.id <= b.id
    ensures a.role == User && b.role == User && a.turn == b.turn ==> a == b
  {
    var i :| 0 <= i < |rows| && rows[i] == a;
    var j :| 0 <= j < |rows| && rows[j] == b;
    assert i < j ==> InOrder(rows[i], rows[j]);
    assert j < i ==> InOrder(rows[j], rows[i]);
  }

  lemma {:induction false} FilterOrdered(rows: seq<Row>, keep: Row -> bool)
    requires Ordered(rows)
    ensures Ordered(Filter(rows, keep))
  {
    hide InOrder;
    hide RowOk;
    if rows != [] {
      var n := |rows| - 1;
      FilterOrdered(rows[..n], keep);
      var front := Filter(rows[..n], keep);
      forall i | 0 <= i < |front| ensures InOrder(front[i], rows[n]) {
        assert front[i] in rows[..n];
      }
    }
  }

  // ---- the operations ----

  function MaxTurn(rows: seq<Row>, thread: string): (m: int)
    ensures m >= 0 && forall r :: r in rows && r.thread == thread ==> r.turn <= m
  {
    if rows == [] then 0
    else
      var n := |rows| - 1;
      var m := MaxTurn(rows[..n], thread);
      if rows[n].thread == thread && rows[n].turn > m then rows[n].turn else m
  }

  predicate Taken(rows: seq<Row>, thread: string, clientId: Option<string>) {
    clientId.Some? && exists r :: r in rows && r.thread == thread && r.clientId == clientId
  }

  function NewRow(t: Table, thread: string, role: Role, clientId: Option<string>, body: string): Row {
    var turn := MaxTurn(t.rows, thread) + (if role == User then 1 else 0);
    Row(t.nextId, thread, role, turn, t.nextId, clientId, body)
  }

  datatype Op =
    | Add(thread: string, role: Role, clientId: Option<string>, body: string)
    | Delete(id: int)
    | DeleteFromExcept(thread: string, id: int, keep: int)
    | DeleteAfter(thread: string, id: int)
    | DropThread(thread: string)

  predicate Kept(op: Op, r: Row) {
    match op
    case Add(_, _, _, _) => true
    case Delete(id) => r.id != id
    case DeleteFromExcept(thread, id, keep) => !(r.thread == thread && r.id >= id && r.id != keep)
    case DeleteAfter(thread, id) => !(r.thread == thread && r.id > id)
    case DropThread(thread) => r.thread != thread
  }

  /** The table after one transaction. */
  function Do(t: Table, op: Op): Table {
    if op.Add? then
      if Taken(t.rows, op.thread, op.clientId) then t
      else Table(t.rows + [NewRow(t, op.thread, op.role, op.clientId, op.body)], t.nextId + 1)
    else Table(Filter(t.rows, r => Kept(op, r)), t.nextId)
  }

  lemma AddOk(t: Table, op: Op)
    requires TableOk(t) && op.Add?
    ensures TableOk(Do(t, op))
  {
    hide MaxTurn;
    if !Taken(t.rows, op.thread, op.clientId) {
      var row := NewRow(t, op.thread, op.role, op.clientId, op.body);
      forall i | 0 <= i < |t.rows| ensures InOrder(t.rows[i], row) {
        assert t.rows[i] in t.rows;
      }
    }
  }

  lemma DeleteOk(t: Table, op: Op)
    requires TableOk(t) && !op.Add?
    ensures TableOk(Do(t, op))
  {
    hide Ordered;
    hide Kept;
    var keep := r => Kept(op, r);
    FilterOrdered(t.rows, keep);
    forall i | 0 <= i < |Filter(t.rows, keep)| ensures 1 <= Filter(t.rows, keep)[i].id < t.nextId {
      assert Filter(t.rows, keep)[i] in t.rows;
    }
  }

  // ---- which turn a message belongs to ----

  /** The newest row of the thread, by position. */
  predicate Newest(rows: seq<Row>, thread: string, i: int) {
    0 <= i < |rows| && rows[i].thread == thread && forall j :: i < j < |rows| ==> rows[j].thread != thread
  }

  /** Turns never fall, so the greatest is the newest row's. */
  lemma {:induction false} MaxTurnIsNewest(rows: seq<Row>, thread: string)
    requires Ordered(rows)
    ensures forall i :: Newest(rows, thread, i) ==> MaxTurn(rows, thread) == rows[i].turn
    ensures (forall i :: 0 <= i < |rows| ==> rows[i].thread != thread) ==> MaxTurn(rows, thread) == 0
  {
    hide Ordered;
    if rows != [] {
      var n := |rows| - 1;
      LastTurnIsGreatest(rows);
      if rows[n].thread == thread {
        MaxTurnBelow(rows[..n], thread, rows[n].turn);
      } else {
        MaxTurnIsNewest(rows[..n], thread);
        forall i | Newest(rows, thread, i) ensures Newest(rows[..n], thread, i) {
        }
      }
    }
  }

  lemma LastTurnIsGreatest(rows: seq<Row>)
    requires Ordered(rows) && rows != []
    ensures var n := |rows| - 1;
            && Ordered(rows[..n]) && rows[n].turn >= 0
            && forall r :: r in rows[..n] && r.thread == rows[n].thread ==> r.turn <= rows[n].turn
  {
    var n := |rows| - 1;
    forall r | r in rows[..n] && r.thread == rows[n].thread ensures r.turn <= rows[n].turn {
      var i :| 0 <= i < n && rows[i] == r;
      assert InOrder(rows[i], rows[n]);
    }
  }

  lemma {:induction false} MaxTurnBelow(rows: seq<Row>, thread: string, turn: int)
    requires turn >= 0 && forall r :: r in rows && r.thread == thread ==> r.turn <= turn
    ensures MaxTurn(rows, thread) <= turn
  {
    if rows != [] {
      MaxTurnBelow(rows[..|rows| - 1], thread, turn);
    }
  }

  /**
   A message that is added is stored as given, behind all others. A user message opens a turn, the
   one after that of the thread's newest row; any other message joins the newest row's turn.
   */
  lemma AddedRow(t: Table, thread: string, role: Role, clientId: Option<string>, body: string)
    requires TableOk(t) && !Taken(t.rows, thread, clientId)
    ensures var u := Do(t, Add(thread, role, clientId, body));
            && |u.rows| == |t.rows| + 1 && u.rows[..|t.rows|] == t.rows
            && var row := u.rows[|t.rows|];
               && row.thread == thread && row.role == role && row.clientId == clientId && row.body == body
               && row.id == row.seqNo == t.nextId
               && (forall i :: Newest(t.rows, thread, i) ==>
                     row.turn == if role == User then t.rows[i].turn + 1 else t.rows[i].turn)
               && ((forall i :: 0 <= i < |t.rows| ==> t.rows[i].thread != thread) ==>
                     row.turn == if role == User then 1 else 0)
  {
    hide MaxTurn;
    hide InOrder;
    hide RowOk;
    MaxTurnIsNewest(t.rows, thread);
  }

  /** The thread's user rows up to position `n`. */
  function UserRows(rows: seq<Row>, thread: string, n: nat): set<nat>
    requires n <= |rows|
  {
    set i: nat | i < n && rows[i].thread == thread && rows[i].role == User
  }

  /** Where nothing is ever deleted, a row's turn is the number of user messages up to it. */
  lemma {:induction false} TurnCountsUserRows(ops: seq<Op>, i: nat)
    requires (forall k :: 0 <= k < |ops| ==> ops[k].Add?) && i < |DoAll(EMPTY_TABLE, ops).rows|
    ensures var rows := DoAll(EMPTY_TABLE, ops).rows; rows[i].turn == |UserRows(rows, rows[i].thread, i + 1)|
  {
    hide UserRows;
    hide TableOk;
    hide Taken;
    hide Do;
    if ops != [] {
      var front, op := ops[..|ops| - 1], ops[|ops| - 1];
      var t, u := DoAll(EMPTY_TABLE, front), DoAll(EMPTY_TABLE, ops);
      EveryTableOk(front);
      AddKeepsRows(t, op);
      if i < |t.rows| {
        TurnCountsUserRows(front, i);
        SameUserRows(t.rows, u.rows, u.rows[i].thread, i + 1);
      } else {
        forall k: nat | k < i ensures t.rows[k].turn == |UserRows(t.rows, t.rows[k].thread, k + 1)| {
          TurnCountsUserRows(front, k);
        }
        NewTurnCounts(t, op);
      }
    }
  }

  lemma AddKeepsRows(t: Table, op: Op)
    requires op.Add?
    ensures var u := Do(t, op);
            if Taken(t.rows, op.thread, op.clientId) then u == t else |u.rows| == |t.rows| + 1 && u.rows[..|t.rows|] == t.rows
  {
  }

  lemma SameUserRows(rows: seq<Row>, more: seq<Row>, thread: string, n: nat)
    requires n <= |rows| <= |more| && more[..|rows|] == rows
    ensures UserRows(more, thread, n) == UserRows(rows, thread, n)
  {
    assert forall i :: 0 <= i < n ==> more[i] == more[..|rows|][i];
  }

  lemma NextUserRow(rows: seq<Row>, thread: string, n: nat)
    requires n < |rows|
    ensures UserRows(rows, thread, n + 1) ==
            UserRows(rows, thread, n) + if rows[n].thread == thread && rows[n].role == User then {n} else {}
    ensures n !in UserRows(rows, thread, n)
  {
  }

  lemma {:induction false} NewestOrNone(rows: seq<Row>, thread: string, n: nat) returns (i: int)
    requires n <= |rows|
    ensures i == -1 ==> UserRows(rows, thread, n) == {} && forall j :: 0 <= j < n ==> rows[j].thread != thread
    ensures i != -1 ==> 0 <= i < n && rows[i].thread == thread && (forall j :: i < j < n ==> rows[j].thread != thread)
                        && UserRows(rows, thread, n) == UserRows(rows, thread, i + 1)
  {
    hide UserRows;
    if n == 0 {
      i := -1;
      assert UserRows(rows, thread, 0) == {} by { NoUserRows(rows, thread); }
    } else if rows[n - 1].thread == thread {
      i := n - 1;
    } else {
      i := NewestOrNone(rows, thread, n - 1);
      NextUserRow(rows, thread, n - 1);
      assert UserRows(rows, thread, n - 1) + {} == UserRows(rows, thread, n - 1);
    }
  }

  lemma NoUserRows(rows: seq<Row>, thread: string)
    ensures UserRows(rows, thread, 0) == {}
  {
  }

  lemma NewTurnCounts(t: Table, op: Op)
    requires TableOk(t) && op.Add? && !Taken(t.rows, op.thread, op.clientId)
    requires forall k: nat :: k < |t.rows| ==> t.rows[k].turn == |UserRows(t.rows, t.rows[k].thread, k + 1)|
    ensures var u := Do(t, op);
            |u.rows| == |t.rows| + 1 && u.rows[|t.rows|].turn == |UserRows(u.rows, u.rows[|t.rows|].thread, |t.rows| + 1)|
  {
    hide Do;
    hide TableOk;
    hide Taken;
    hide UserRows;
    var u, n := Do(t, op), |t.rows|;
    AddedRow(t, op.thread, op.role, op.clientId, op.body);
    assert Add(op.thread, op.role, op.clientId, op.body) == op;
    var i := NewestOrNone(t.rows, op.thread, n);
    SameUserRows(t.rows, u.rows, op.thread, n);
    NextUserRow(u.rows, op.thread, n);
    if i != -1 {
      assert Newest(t.rows, op.thread, i);
    }
  }

  /** Deleting a thread takes its rows and no other. */
  lemma ThreadIsDropped(t: Table, thread: string)
    ensures var u := Do(t, DropThread(thread));
            u.nextId == t.nextId && forall r :: r in u.rows <==> r in t.rows && r.thread != thread
  {
    hide Filter;
  }

  function DoAll(t: Table, ops: seq<Op>): Table {
    if ops == [] then t else Do(DoAll(t, ops[..|ops| - 1]), ops[|ops| - 1])
  }

  /**
   Whatever the order in which threads are written, truncated and deleted, every thread keeps its
   turns in id order, its sequence numbers equal to the ids, and a user message first in its turn.
   */
  lemma {:induction false} EveryTableOk(ops: seq<Op>)
    ensures TableOk(DoAll(EMPTY_TABLE, ops))
  {
    hide Do;
    hide TableOk;
    if ops == [] {
      assert TableOk(EMPTY_TABLE) by { EmptyOk(); }
    } else {
      var t := DoAll(EMPTY_TABLE, ops[..|ops| - 1]);
      EveryTableOk(ops[..|ops| - 1]);
      if ops[|ops| - 1].Add? { AddOk(t, ops[|ops| - 1]); } else { DeleteOk(t, ops[|ops| - 1]); }
    }
  }

  lemma EmptyOk()
    ensures TableOk(EMPTY_TABLE)
  {
  }

  lemma {:induction false} LaterRowsAreNewer(t: Table, ops: seq<Op>, r: Row)
    requires TableOk(t) && r in DoAll(t, ops).rows && r !in t.rows
    ensures r.id >= t.nextId
  {
    hide TableOk;
    hide NewRow;
    hide Kept;
    var front := ops[..|ops| - 1];
    var before := DoAll(t, front);
    if r in before.rows {
      LaterRowsAreNewer(t, front, r);
    } else {
      NextIdGrows(t, front);
      assert r.id == before.nextId by { NewId(before, ops[|ops| - 1]); }
    }
  }

  lemma {:induction false} DoAllTwice(t: Table, early: seq<Op>, later: seq<Op>)
    ensures DoAll(t, early + later) == DoAll(DoAll(t, early), later)
  {
    hide Do;
    var all := early + later;
    if later == [] {
      assert all == early;
    } else {
      assert all[..|all| - 1] == early + later[..|later| - 1];
      DoAllTwice(t, early, later[..|later| - 1]);
    }
  }

  /** No two rows ever written share an id, even when the first is gone before the second comes. */
  lemma IdsNeverReused(early: seq<Op>, later: seq<Op>, a: Row, b: Row)
    requires a in DoAll(EMPTY_TABLE, early).rows && b in DoAll(EMPTY_TABLE, early + later).rows && a.id == b.id
    ensures a == b
  {
    hide Do;
    hide InOrder;
    hide RowOk;
    var t := DoAll(EMPTY_TABLE, early);
    EveryTableOk(early);
    DoAllTwice(EMPTY_TABLE, early, later);
    var i :| 0 <= i < |t.rows| && t.rows[i] == a;
    if b in t.rows {
      var j :| 0 <= j < |t.rows| && t.rows[j] == b;
      IdsDiffer(t.rows, i, j);
    } else {
      LaterRowsAreNewer(t, later, b);
    }
  }

  lemma IdsDiffer(rows: seq<Row>, i: nat, j: nat)
    requires Ordered(rows) && i < |rows| && j < |rows| && rows[i].id == rows[j].id
    ensures i == j
  {
    assert i < j ==> InOrder(rows[i], rows[j]);
    assert j < i ==> InOrder(rows[j], rows[i]);
  }

  lemma NewId(t: Table, op: Op)
    requires op.Add?
    ensures NewRow(t, op.thread, op.role, op.clientId, op.body).id == t.nextId
  {
  }

  lemma {:induction false} NextIdGrows(t: Table, ops: seq<Op>)
    ensures t.nextId <= DoAll(t, ops).nextId
  {
    hide NewRow;
    hide Kept;
    hide Taken;
    if ops != [] {
      NextIdGrows(t, ops[..|ops| - 1]);
    }
  }

  /**
   Edit and resend: the replacement is written first, then the old tail goes. What is left is the
   thread up to the edited message and the replacement, in a turn of its own.
   */
  lemma EditAndResend(t: Table, thread: string, at: int, clientId: Option<string>, body: string)
    requires TableOk(t) && !Taken(t.rows, thread, clientId) && at < t.nextId
    ensures var added := Do(t, Add(thread, User, clientId, body));
            var row := NewRow(t, thread, User, clientId, body);
            var after := Do(added, DeleteFromExcept(thread, at, row.id));
            && (forall r :: r in after.rows <==> r == row || (r in t.rows && (r.thread != thread || r.id < at)))
            && (forall r :: r in t.rows && r.thread == thread ==> r.turn < row.turn)
  {
    hide MaxTurn;
    hide InOrder;
    var row := NewRow(t, thread, User, clientId, body);
    var added := Do(t, Add(thread, User, clientId, body));
    forall r | r in t.rows ensures r.id < row.id {
      var i :| 0 <= i < |t.rows| && t.rows[i] == r;
    }
    assert forall r :: r in added.rows <==> r == row || r in t.rows;
  }

  // ---- the store ----

  class MessageStore {
    var rows: seq<Row>
    var nextId: int

    function Contents(): Table
      reads this
    {
      Table(rows, nextId)
    }

    constructor ()
      ensures Contents() == EMPTY_TABLE
    {
      rows, nextId := [], 1;
    }

    method AddMessage(thread: string, role: Role, clientId: Option<string>, body: string) returns (r: Result<Row, Fault>)
      requires TableOk(Contents())
      modifies this
      ensures Contents() == Do(old(Contents()), Add(thread, role, clientId, body)) && TableOk(Contents())
      ensures r.Err? <==> Taken(old(rows), thread, clientId)
      ensures r.Err? ==> Contents() == old(Contents())
      ensures r.Ok? ==> rows == old(rows) + [r.value] && r.value.thread == thread && r.value.seqNo == r.value.id
      ensures r.Ok? ==> r.value.role == role && r.value.clientId == clientId && r.value.body == body
      ensures r.Ok? ==>
                (forall i :: Newest(old(rows), thread, i) ==>
                   r.value.turn == if role == User then old(rows)[i].turn + 1 else old(rows)[i].turn)
                && ((forall i :: 0 <= i < |old(rows)| ==> old(rows)[i].thread != thread) ==>
                      r.value.turn == if role == User then 1 else 0)
    {
      hide MaxTurn;
      hide TableOk;
      AddOk(Contents(), Add(thread, role, clientId, body));
      if Taken(rows, thread, clientId) {
        return Err(DuplicateClientMessageId);
      }
      AddedRow(Contents(), thread, role, clientId, body);
      var turn := MaxTurn(rows, thread) + (if role == User then 1 else 0);
      var row := Row(nextId, thread, role, turn, MaxSeq(rows, thread) + 1, clientId, body);
      nextId := nextId + 1;
      row := row.(seqNo := row.id);
      rows := rows + [row];
      r := Ok(row);
    }

    method DeleteMessage(id: int)
      requires TableOk(Contents())
      modifies this`rows
      ensures TableOk(Contents())
      ensures forall r :: r in rows <==> r in old(rows) && r.id != id
      ensures Contents() == Do(old(Contents()), Delete(id))
    {
      hide TableOk;
      DeleteOk(Contents(), Delete(id));
      rows := Filter(rows, r => Kept(Delete(id), r));
    }

    /** Returns the number of rows deleted. */
    method DeleteMessagesFromExcept(thread: string, fromId: int, keepId: int) returns (n: nat)
      requires TableOk(Contents())
      modifies this`rows
      ensures TableOk(Contents()) && n == |old(rows)| - |rows|
      ensures forall r :: r in rows <==> r in old(rows) && (r.thread != thread || r.id < fromId || r.id == keepId)
      ensures Contents() == Do(old(Contents()), DeleteFromExcept(thread, fromId, keepId))
    {
      hide TableOk;
      DeleteOk(Contents(), DeleteFromExcept(thread, fromId, keepId));
      var before := |rows|;
      rows := Filter(rows, r => Kept(DeleteFromExcept(thread, fromId, keepId), r));
      n := before - |rows|;
    }

    method DeleteMessagesAfter(thread: string, id: int) returns (n: nat)
      requires TableOk(Contents())
      modifies this`rows
      ensures TableOk(Contents()) && n == |old(rows)| - |rows|
      ensures forall r :: r in rows <==> r in old(rows) && (r.thread != thread || r.id <= id)
      ensures Contents() == Do(old(Contents()), DeleteAfter(thread, id))
    {
      hide TableOk;
      DeleteOk(Contents(), DeleteAfter(thread, id));
      var before := |rows|;
      rows := Filter(rows, r => Kept(DeleteAfter(thread, id), r));
      n := before - |rows|;
    }
  }

  /** The value the insert first gives `seq`, before the same transaction overwrites it. */
  function MaxSeq(rows: seq<Row>, thread: string): int {
    if rows == [] then 0
    else
      var n := |rows| - 1;
      var m := MaxSeq(rows[..n], thread);
      if rows[n].thread == thread && rows[n].seqNo > m then rows[n].seqNo else m
  }
}
