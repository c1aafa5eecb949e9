/**
 Following a thread by sequence number: a consumer polls with the last number it received while
 others write and truncate.
 */
module MessageFeed {
  import opened MessageTable

  /** `ORDER BY seq`: rows come in id order, and their sequence numbers are their ids. */
  function FirstRows(rows: seq<Row>, n: int): seq<Row> {
    if n < 0 || |rows| <= n then rows else rows[..n]
  }

  function Newer(rows: seq<Row>, thread: string, since: int): seq<Row> {
    Filter(rows, (r: Row) => r.thread == thread && r.seqNo > since)
  }

  /** `list_messages_since`; a negative limit is none. */
  function ListSince(rows: seq<Row>, thread: string, since: int, limit: int): seq<Row> {
    FirstRows(Newer(rows, thread, since), limit)
  }

  /** The consumer knows the last number it received and keeps what it got. */
  datatype World = World(table: Table, last: int, got: seq<Row>)

  datatype Event = Write(op: Op) | Poll(limit: int)

  function Batch(w: World, thread: string, limit: int): seq<Row> {
    ListSince(w.table.rows, thread, w.last, limit)
  }

  function Next(w: World, thread: string, e: Event): World {
    match e
    case Write(op) => w.(table := MessageTable.Do(w.table, op))
    case Poll(limit) =>
      var batch := Batch(w, thread, limit);
      if batch == [] then w
      else World(w.table, batch[|batch| - 1].seqNo, w.got + batch)
  }

  function Run(w: World, thread: string, events: seq<Event>): World {
    if events == [] then w else Next(Run(w, thread, events[..|events| - 1]), thread, events[|events| - 1])
  }

  predicate Increasing(rows: seq<Row>) {
    forall i, j :: 0 <= i < j < |rows| ==> rows[i].seqNo < rows[j].seqNo
  }

  /** What the consumer has, if it started after `start`. */
  predicate Follows(w: World, thread: string, start: int) {
    && TableOk(w.table) && start <= w.last < w.table.nextId
    && Increasing(w.got)
    && (forall r :: r in w.got ==> r.thread == thread && start < r.seqNo <= w.last)
    && (forall r :: r in w.table.rows && r.thread == thread && start < r.seqNo <= w.last ==> r in w.got)
  }

  lemma OrderedSeq(rows: seq<Row>, i: nat, j: nat)
    requires Ordered(rows) && i < j < |rows|
    ensures rows[i].seqNo < rows[j].seqNo
  {
    assert InOrder(rows[i], rows[j]) && RowOk(rows[i]) && RowOk(rows[j]);
  }

  /** A batch is increasing and starts the rows still unread. */
  lemma BatchIsStart(w: World, thread: string, limit: int)
    requires TableOk(w.table)
    ensures var batch := Batch(w, thread, limit);
            && Increasing(batch)
            && (forall r :: r in batch ==> r in w.table.rows && r.thread == thread && r.seqNo > w.last)
            && (batch != [] ==> forall r :: r in w.table.rows && r.thread == thread && w.last < r.seqNo <= batch[|batch| - 1].seqNo ==>
                  r in batch)
  {
    hide Filter;
    hide InOrder;
    hide RowOk;
    var rows := Newer(w.table.rows, thread, w.last);
    var batch := Batch(w, thread, limit);
    FilterOrdered(w.table.rows, (r: Row) => r.thread == thread && r.seqNo > w.last);
    forall i, j | 0 <= i < j < |batch| ensures batch[i].seqNo < batch[j].seqNo {
      OrderedSeq(rows, i, j);
    }
    forall r | r in batch ensures r in rows {
    }
    if batch != [] {
      forall r | r in rows && r.seqNo <= batch[|batch| - 1].seqNo ensures r in batch {
        var k :| 0 <= k < |rows| && rows[k] == r;
        if k >= |batch| {
          OrderedSeq(rows, |batch| - 1, k);
        }
      }
    }
  }

  /**
   A batch with a limit is the oldest of what is unread, no more of it than the limit; without one
   it is all of it.
   */
  lemma BatchIsLimited(w: World, thread: string, limit: int)
    ensures var batch := Batch(w, thread, limit);
            && (limit >= 0 ==> |batch| <= limit)
            && ((limit < 0 || |batch| < limit) ==>
                  forall r :: r in w.table.rows && r.thread == thread && r.seqNo > w.last ==> r in batch)
  {
    hide Filter;
  }

  lemma PollFollows(w: World, thread: string, start: int, limit: int)
    requires Follows(w, thread, start)
    ensures Follows(Next(w, thread, Poll(limit)), thread, start)
  {
    hide TableOk;
    hide Batch;
    BatchIsStart(w, thread, limit);
    var batch := Batch(w, thread, limit);
    if batch != [] {
      assert batch[|batch| - 1] in batch;
      BelowNext(w.table, batch[|batch| - 1]);
      var v := Next(w, thread, Poll(limit));
      forall r | r in v.got ensures r.thread == thread && start < r.seqNo <= v.last {
        LastIsLargest(batch);
      }
    }
  }

  lemma LastIsLargest(rows: seq<Row>)
    requires Increasing(rows) && rows != []
    ensures forall r :: r in rows ==> r.seqNo <= rows[|rows| - 1].seqNo
  {
    forall r | r in rows ensures r.seqNo <= rows[|rows| - 1].seqNo {
      var i :| 0 <= i < |rows| && rows[i] == r;
    }
  }

  lemma BelowNext(t: Table, r: Row)
    requires TableOk(t) && r in t.rows
    ensures r.seqNo == r.id < t.nextId
  {
    var i :| 0 <= i < |t.rows| && t.rows[i] == r;
    assert RowOk(t.rows[i]);
  }

  lemma WriteFollows(w: World, thread: string, start: int, op: Op)
    requires Follows(w, thread, start)
    ensures Follows(Next(w, thread, Write(op)), thread, start)
  {
    hide TableOk;
    hide Kept;
    hide MaxTurn;
    hide Taken;
    if op.Add? {
      AddOk(w.table, op);
    } else {
      DeleteOk(w.table, op);
    }
  }

  /**
   However polls, inserts and deletes interleave, the consumer has received in increasing order, so
   never twice, and it has every message still in the thread up to the last number it received.
   */
  lemma {:induction false} ConsumerFollows(w: World, thread: string, events: seq<Event>)
    requires TableOk(w.table) && w.got == [] && w.last < w.table.nextId
    ensures Follows(Run(w, thread, events), thread, w.last)
  {
    hide TableOk;
    hide Next;
    if events != [] {
      var n := |events| - 1;
      ConsumerFollows(w, thread, events[..n]);
      match events[n] {
        case Poll(limit) => PollFollows(Run(w, thread, events[..n]), thread, w.last, limit);
        case Write(op) => WriteFollows(Run(w, thread, events[..n]), thread, w.last, op);
      }
    }
  }

  /** A poll that comes back short of its limit has caught up: nothing of the thread is unread. */
  lemma ShortPollCatchesUp(w: World, thread: string, events: seq<Event>, limit: int, r: Row)
    requires TableOk(w.table) && w.got == [] && w.last < w.table.nextId
    requires var v := Run(w, thread, events);
             |Batch(v, thread, limit)| < limit && r in v.table.rows && r.thread == thread && r.seqNo > w.last
    ensures r in Next(Run(w, thread, events), thread, Poll(limit)).got
  {
    hide TableOk;
    hide Filter;
    hide Run;
    var v := Run(w, thread, events);
    ConsumerFollows(w, thread, events);
    if r.seqNo > v.last {
      assert r in Newer(v.table.rows, thread, v.last);
    }
  }

  /** With a positive limit a poll makes progress whenever there is something unread. */
  lemma PollMakesProgress(w: World, thread: string, limit: int, r: Row)
    requires TableOk(w.table) && limit > 0 && r in w.table.rows && r.thread == thread && r.seqNo > w.last
    ensures w.last < Next(w, thread, Poll(limit)).last
  {
    hide TableOk;
    hide Filter;
    assert r in Newer(w.table.rows, thread, w.last);
    BatchIsStart(w, thread, limit);
    var batch := Batch(w, thread, limit);
    assert batch[|batch| - 1] in batch;
  }
}
