/**
 The run record and the registry as the program updates them: fields assigned in place, here one
 call at a time. `RunProtocol` covers what happens when the same calls interleave; the lemma
 `UninterruptedStatusWrite` ties the two together.
 */
module ThreadRunner {
  import opened Wrappers
  import opened RunParts
  import P = RunProtocol

  /** The runner-wide broadcast. */
  class Lifecycle {
    var events: seq<P.Event>

    constructor ()
      ensures events == []
    {
      events := [];
    }
  }

  /** The status a call of `set_status(target)` leaves: after cancelling only Stopped is written. */
  function StatusAfter(status: P.Status, cancelled: bool, target: P.Status): P.Status {
    if target != P.Stopped && cancelled then status else target
  }

  /** What that call tells subscribers: the new status if it changed, with the error of a failure. */
  function Told(run: nat, before: P.Status, error: Option<string>, after: P.Status): seq<P.Event> {
    if before == after then [] else [P.Event(run, after, if after == P.Failed then error else None)]
  }

  /** Take a step if it can be taken. */
  function Then(s: P.State, e: P.Step): P.State {
    if P.Enabled(s, e) then P.Do(s, e) else s
  }

  /** The protocol's steps of one status write, nothing else coming between them. */
  function StatusWrite(s: P.State, r: P.RunId): P.State {
    Then(Then(Then(Then(s, P.TaskAcquire(r)), P.TaskLoad(r)), P.TaskWrite(r)), P.TaskPublish(r))
  }

  lemma Acquired(s: P.State, r: P.RunId)
    requires P.Enabled(s, P.TaskAcquire(r))
    ensures var a, t := s.runs[r], Then(Then(s, P.TaskAcquire(r)), P.TaskLoad(r));
            && |t.runs| == |s.runs|
            && t == s.(runs := s.runs[r := t.runs[r]])
            && t.runs[r] == if a.cancelled then a.(lock := P.Free, task := P.AfterWrite(a.task.inner))
                            else a.(lock := P.ByTask, task := P.Writing(a.task.target, a.task.inner))
  {
  }

  lemma Written(s: P.State, r: P.RunId)
    requires P.Enabled(s, P.TaskWrite(r)) && !s.runs[r].unpublished
    ensures var a, t := s.runs[r], Then(Then(s, P.TaskWrite(r)), P.TaskPublish(r));
            && |t.runs| == |s.runs| && t.runs[r].status == a.task.target && t.runs[r].lock == P.Free
            && t.feed == s.feed + Told(r, a.status, a.error, a.task.target)
            && t.runs[r].error == a.error && t.runs[r].cancelled == a.cancelled
  {
    assert s.feed + [] == s.feed;
  }

  /** Run without interruption, the protocol's status write does what `RunState.SetStatus` does. */
  lemma UninterruptedStatusWrite(s: P.State, r: P.RunId)
    requires P.Enabled(s, P.TaskAcquire(r)) && !s.runs[r].unpublished && s.runs[r].task.target != P.Stopped
    ensures var a, t := s.runs[r], StatusWrite(s, r);
            var after := StatusAfter(a.status, a.cancelled, a.task.target);
            && |t.runs| == |s.runs| && t.runs[r].status == after && t.runs[r].lock == P.Free
            && t.feed == s.feed + Told(r, a.status, a.error, after)
            && t.runs[r].error == a.error && t.runs[r].cancelled == a.cancelled
  {
    hide Then;
    Acquired(s, r);
    var checked := Then(Then(s, P.TaskAcquire(r)), P.TaskLoad(r));
    if s.runs[r].cancelled {
      Skipped(checked, r);
      assert s.feed + [] == s.feed;
    } else {
      Written(checked, r);
    }
  }

  lemma Skipped(s: P.State, r: P.RunId)
    requires r < |s.runs| && !s.runs[r].task.Writing? && !s.runs[r].task.Publishing?
    ensures Then(Then(s, P.TaskWrite(r)), P.TaskPublish(r)) == s
  {
  }

  // ---- one call of the protocol with nothing coming between its steps ----

  /** `start`: arrive, take the map lock, read the status of the thread's run, and insert. */
  function StartAlone(s: P.State, thread: string): P.State {
    var c := |s.calls|;
    Then(Then(Then(Then(s, P.Arrive(P.StartWaiting(thread))), P.StartLock(c)), P.StartRead(c)), P.StartInsert(c))
  }

  /** `stop`: take the map lock, read, set the flag, take the status lock, write and broadcast. */
  function StopAlone(s: P.State, thread: string): P.State {
    var c := |s.calls|;
    StopDecided(Then(Then(Then(s, P.Arrive(P.StopWaiting(thread))), P.StopLock(c)), P.StopRead(c)), c)
  }

  function StopDecided(s: P.State, c: P.CallId): P.State {
    Then(Then(Then(Then(s, P.StopCancel(c)), P.StopAcquire(c)), P.StopWrite(c)), P.StopPublish(c))
  }

  /** A start by itself is refused exactly when the thread's run is Running; else its run is the thread's, and told. */
  lemma StartByItself(s: P.State, thread: string)
    requires s.mapLock == None
    requires thread in s.registry ==> s.registry[thread] < |s.runs| && s.runs[s.registry[thread]].lock == P.Free
    ensures var t, r := StartAlone(s, thread), |s.runs|;
            if thread in s.registry && s.runs[s.registry[thread]].status == P.Running
            then t == s.(calls := s.calls + [P.Done])
            else
              && |t.runs| == r + 1 && t.runs[..r] == s.runs
              && t.runs[r].thread == thread && t.runs[r].status == P.Running && !t.runs[r].cancelled
              && t.runs[r].error == None && t.runs[r].task == P.Working && t.runs[r].history == [P.Running]
              && t.registry == s.registry[thread := r] && t.mapLock == None
              && t.feed == s.feed + [P.Event(r, P.Running, None)] && t.calls == s.calls + [P.Done]
  {
    var c := |s.calls|;
    var a := Then(s, P.Arrive(P.StartWaiting(thread)));
    var b := Then(a, P.StartLock(c));
    assert b == s.(calls := s.calls + [P.StartLocked(thread)], mapLock := Some(c));
    StartFrom(s, b, thread);
  }

  lemma StartFrom(s: P.State, b: P.State, thread: string)
    requires b == s.(calls := s.calls + [P.StartLocked(thread)], mapLock := Some(|s.calls|)) && s.mapLock == None
    requires thread in s.registry ==> s.registry[thread] < |s.runs| && s.runs[s.registry[thread]].lock == P.Free
    ensures var t, r, c := Then(Then(b, P.StartRead(|s.calls|)), P.StartInsert(|s.calls|)), |s.runs|, |s.calls|;
            if thread in s.registry && s.runs[s.registry[thread]].status == P.Running
            then t == s.(calls := s.calls + [P.Done])
            else
              t == P.State(s.runs + [P.Run(thread, P.Running, None, false, false, P.Free, P.Working, false, false, [P.Running])],
                           s.registry[thread := r], None, s.calls + [P.Done], s.feed + [P.Event(r, P.Running, None)])
  {
    var c := |s.calls|;
    assert b.calls[c := P.Done] == s.calls + [P.Done];
    assert b.calls[c := P.StartClear(thread)][c := P.Done] == s.calls + [P.Done];
  }

  /** A stop by itself ends a Running run Stopped and cancelled, tells it once, and leaves a reaper behind. */
  lemma StopByItself(s: P.State, thread: string)
    requires s.mapLock == None && thread in s.registry && s.registry[thread] < |s.runs|
    requires var a := s.runs[s.registry[thread]]; a.lock == P.Free && !a.unpublished
    ensures var t, r := StopAlone(s, thread), s.registry[thread];
            var a := s.runs[r];
            if a.status != P.Running then t == s.(calls := s.calls + [P.Done])
            else
              && t.runs == s.runs[r := a.(status := P.Stopped, cancelled := true, history := a.history + [P.Stopped])]
              && t.registry == s.registry && t.mapLock == None
              && t.feed == s.feed + [P.Event(r, P.Stopped, None)] && t.calls == s.calls + [P.Done, P.Reaping(r)]
  {
    hide StopDecided;
    var c, r := |s.calls|, s.registry[thread];
    var m := s.(mapLock := Some(c));
    var b := Then(Then(s, P.Arrive(P.StopWaiting(thread))), P.StopLock(c));
    assert b == m.(calls := s.calls + [P.Stopping(P.One(r), P.Looking)]);
    if s.runs[r].status == P.Running {
      var d := m.(calls := s.calls + [P.Stopping(P.One(r), P.Cancelling)]);
      assert Then(b, P.StopRead(c)) == d by { assert b.calls[c := P.Stopping(P.One(r), P.Cancelling)] == d.calls; }
      DecidedRuns(d, c, r, s.calls);
    } else {
      var d := s.(calls := s.calls + [P.Done]);
      assert Then(b, P.StopRead(c)) == d by { assert b.calls[c := P.Done] == d.calls; }
      NotDecided(d, c);
    }
  }

  lemma NotDecided(s: P.State, c: P.CallId)
    requires c < |s.calls| && s.calls[c].Done?
    ensures StopDecided(s, c) == s
  {
  }

  lemma DecidedRuns(s: P.State, c: P.CallId, r: P.RunId, before: seq<P.Call>)
    requires c == |before| && s.calls == before + [P.Stopping(P.One(r), P.Cancelling)]
    requires r < |s.runs| && s.runs[r].lock == P.Free && !s.runs[r].unpublished && s.runs[r].status == P.Running
    ensures var t, a := StopDecided(s, c), s.runs[r];
            && t.runs == s.runs[r := a.(status := P.Stopped, cancelled := true, history := a.history + [P.Stopped])]
            && t.registry == s.registry && t.mapLock == None
            && t.feed == s.feed + [P.Event(r, P.Stopped, None)] && t.calls == before + [P.Done, P.Reaping(r)]
  {
    var a := s.runs[r];
    var locked := a.(cancelled := true, lock := P.ByCall(c));
    var t := s.(runs := s.runs[r := locked], calls := before + [P.Stopping(P.One(r), P.Locked)]);
    assert Then(Then(s, P.StopCancel(c)), P.StopAcquire(c)) == t by { StopTakes(s, c, r, before); }
    StopEnds(t, c, r, before);
    assert t.runs[r := t.runs[r].(lock := P.Free, status := P.Stopped, history := a.history + [P.Stopped])] ==
           s.runs[r := a.(status := P.Stopped, cancelled := true, history := a.history + [P.Stopped])];
  }

  lemma StopTakes(s: P.State, c: P.CallId, r: P.RunId, before: seq<P.Call>)
    requires c == |before| && s.calls == before + [P.Stopping(P.One(r), P.Cancelling)]
    requires r < |s.runs| && s.runs[r].lock == P.Free
    ensures Then(Then(s, P.StopCancel(c)), P.StopAcquire(c)) ==
            s.(runs := s.runs[r := s.runs[r].(cancelled := true, lock := P.ByCall(c))],
               calls := before + [P.Stopping(P.One(r), P.Locked)])
  {
    assert s.calls[c := P.Stopping(P.One(r), P.Queuing)] == before + [P.Stopping(P.One(r), P.Queuing)];
    assert (before + [P.Stopping(P.One(r), P.Queuing)])[c := P.Stopping(P.One(r), P.Locked)] == before + [P.Stopping(P.One(r), P.Locked)];
    var b := s.runs[r].(cancelled := true);
    assert s.runs[r := b][r := b.(lock := P.ByCall(c))] == s.runs[r := b.(lock := P.ByCall(c))];
  }

  lemma StopEnds(s: P.State, c: P.CallId, r: P.RunId, before: seq<P.Call>)
    requires c == |before| && s.calls == before + [P.Stopping(P.One(r), P.Locked)]
    requires r < |s.runs| && s.runs[r].status == P.Running && !s.runs[r].unpublished
    ensures var a := s.runs[r];
            Then(Then(s, P.StopWrite(c)), P.StopPublish(c)) ==
            s.(runs := s.runs[r := a.(lock := P.Free, status := P.Stopped, history := a.history + [P.Stopped])],
               feed := s.feed + [P.Event(r, P.Stopped, None)], calls := before + [P.Done, P.Reaping(r)], mapLock := None)
  {
    var a := s.runs[r];
    var b := a.(status := P.Stopped, history := a.history + [P.Stopped], unpublished := true);
    var t := s.(runs := s.runs[r := b], calls := before + [P.Stopping(P.One(r), P.Written)]);
    assert Then(s, P.StopWrite(c)) == t by {
      assert s.calls[c := P.Stopping(P.One(r), P.Written)] == t.calls;
    }
    assert t.calls[c := P.Done] + [P.Reaping(r)] == before + [P.Done, P.Reaping(r)];
    assert t.runs[r := b.(lock := P.Free, unpublished := false)] ==
           s.runs[r := a.(lock := P.Free, status := P.Stopped, history := a.history + [P.Stopped])];
  }

  class RunState {
    const id: nat
    const thread: string
    const feed: Lifecycle
    var status: P.Status
    var error: Option<string>
    var cancelled: bool
    var parts: seq<Part>

    constructor (id: nat, thread: string, feed: Lifecycle)
      ensures this.id == id && this.thread == thread && this.feed == feed
      ensures status == P.Running && error == None && !cancelled && parts == []
    {
      this.id, this.thread, this.feed := id, thread, feed;
      status, error, cancelled, parts := P.Running, None, false, [];
    }

    method SetStatus(target: P.Status)
      modifies this`status, feed
      ensures status == StatusAfter(old(status), cancelled, target)
      ensures feed.events == old(feed.events) + Told(id, old(status), error, status)
    {
      if target != P.Stopped && cancelled {
        return;
      }
      var changed := status != target;
      status := target;
      if changed {
        Publish(target);
      }
    }

    method Publish(s: P.Status)
      modifies feed
      ensures feed.events == old(feed.events) + [P.Event(id, s, if s == P.Failed then error else None)]
    {
      feed.events := feed.events + [P.Event(id, s, if s == P.Failed then error else None)];
    }

    method SetError(e: string)
      modifies this`error
      ensures error == if cancelled then old(error) else Some(e)
    {
      if cancelled {
        return;
      }
      error := Some(e);
    }

    /** Search for the tool's slot, as the program's `position` does. */
    method Position(id: string) returns (at: Option<nat>)
      ensures at == Slot(parts, id)
    {
      hide Slot;
      var i := 0;
      while i < |parts|
        invariant i <= |parts|
        invariant forall k :: 0 <= k < i ==> parts[k].ToolId() != Some(id)
      {
        if parts[i].ToolId() == Some(id) {
          return Some(i);
        }
        i := i + 1;
      }
      at := None;
    }

    method ApplyPart(part: Part, isUpdate: bool)
      modifies this`parts
      ensures parts == ApplyDelta(old(parts), Delta(part, isUpdate))
    {
      hide Slot;
      if part.ToolCall? {
        var at := Position(part.id);
        if at.Some? {
          parts := parts[at.value := part];
          return;
        }
      }
      if isUpdate {
        return;
      }
      if parts != [] && SameKind(parts[|parts| - 1], part) {
        parts := parts[|parts| - 1 := Merge(parts[|parts| - 1], part)];
      } else {
        parts := parts + [part];
      }
    }

    /** The body that `stop` and `stop_all` share for a run they found Running. */
    method Cancel()
      modifies this`status, this`cancelled, feed
      ensures cancelled && status == P.Stopped
      ensures feed.events == old(feed.events) + Told(id, old(status), None, P.Stopped)
    {
      cancelled := true;
      SetStatus(P.Stopped);
    }
  }

  class ThreadRunner {
    const feed: Lifecycle
    var runs: map<string, RunState>
    var started: nat

    ghost predicate Valid()
      reads this
    {
      forall t :: t in runs ==> runs[t].thread == t && runs[t].feed == feed
    }

    constructor ()
      ensures Valid() && runs == map[] && fresh(feed) && feed.events == []
    {
      feed := new Lifecycle();
      runs := map[];
      started := 0;
    }

    /** `None` when the thread's run is still Running; then nothing changes. */
    method Start(thread: string) returns (r: Option<RunState>)
      requires Valid()
      modifies this, feed
      ensures Valid()
      ensures r.None? <==> thread in old(runs) && old(runs[thread].status) == P.Running
      ensures r.None? ==> runs == old(runs) && feed.events == old(feed.events) && started == old(started)
      ensures r.Some? ==>
        && fresh(r.value) && runs == old(runs)[thread := r.value] && r.value.status == P.Running
        && !r.value.cancelled && r.value.error == None && r.value.parts == []
        && feed.events == old(feed.events) + [P.Event(r.value.id, P.Running, None)]
      ensures r.Some? ==> r.value.id == old(started) && started == old(started) + 1
    {
      if thread in runs && runs[thread].status == P.Running {
        return None;
      }
      var run := new RunState(started, thread, feed);
      started := started + 1;
      runs := runs[thread := run];
      feed.events := feed.events + [P.Event(run.id, P.Running, None)];
      r := Some(run);
    }

    /** The status the caller sees: Stopped if the run was Running, else whatever it had ended with. */
    method Stop(thread: string) returns (r: Option<P.Status>)
      requires Valid()
      modifies if thread in runs then {runs[thread], feed} else {}
      ensures Valid() && r.Some? == (thread in runs)
      ensures thread in runs ==>
        var run, was := runs[thread], old(runs[thread].status);
        && r == Some(run.status) && run.status == (if was == P.Running then P.Stopped else was)
        && run.cancelled == (old(runs[thread].cancelled) || was == P.Running)
        && feed.events == old(feed.events) + (if was == P.Running then [P.Event(run.id, P.Stopped, None)] else [])
        && run.parts == old(runs[thread].parts) && run.error == old(runs[thread].error)
    {
      if thread !in runs {
        return None;
      }
      var run := runs[thread];
      if run.status == P.Running {
        run.Cancel();
      }
      r := Some(run.status);
    }

    /** A delayed cleanup: only the very run it was made for is removed. */
    method Forget(run: RunState)
      requires Valid()
      modifies this`runs
      ensures Valid()
      ensures runs == if run.thread in old(runs) && old(runs)[run.thread] == run then old(runs) - {run.thread} else old(runs)
    {
      if run.thread in runs && runs[run.thread] == run {
        runs := runs - {run.thread};
      }
    }

    /** Stop every run of a snapshot of the registry. */
    method StopAll(all: seq<RunState>)
      requires forall k :: 0 <= k < |all| ==> all[k].feed == feed
      requires forall j, k :: 0 <= j < k < |all| ==> all[j] != all[k]
      modifies set k | 0 <= k < |all| :: all[k], feed
      ensures forall k :: 0 <= k < |all| ==> all[k].status == StoppedIfRunning(old(all[k].status))
      ensures forall k :: 0 <= k < |all| ==> all[k].cancelled == (old(all[k].cancelled) || old(all[k].status) == P.Running)
      ensures feed.events == old(feed.events) + StopEvents(old(Statuses(all)), Ids(all))
    {
      ghost var was := Statuses(all);
      for i := 0 to |all|
        invariant forall k :: 0 <= k < i ==> all[k].status == StoppedIfRunning(old(all[k].status))
        invariant forall k :: 0 <= k < i ==> all[k].cancelled == (old(all[k].cancelled) || old(all[k].status) == P.Running)
        invariant forall k :: i <= k < |all| ==> all[k].status == old(all[k].status) && all[k].cancelled == old(all[k].cancelled)
        invariant feed.events == old(feed.events) + StopEvents(was[..i], Ids(all)[..i])
      {
        if all[i].status == P.Running {
          all[i].Cancel();
        }
        assert was[..i + 1][..i] == was[..i] && Ids(all)[..i + 1][..i] == Ids(all)[..i];
      }
      assert was[..|all|] == was && Ids(all)[..|all|] == Ids(all);
    }
  }

  function StoppedIfRunning(s: P.Status): P.Status { if s == P.Running then P.Stopped else s }

  function Ids(all: seq<RunState>): (ids: seq<nat>)
    ensures |ids| == |all|
  {
    seq(|all|, i requires 0 <= i < |all| => all[i].id)
  }

  function Statuses(all: seq<RunState>): (r: seq<P.Status>)
    reads set k | 0 <= k < |all| :: all[k]
    ensures |r| == |all| && forall i :: 0 <= i < |all| ==> r[i] == all[i].status
  {
    if all == [] then [] else Statuses(all[..|all| - 1]) + [all[|all| - 1].status]
  }

  /** One Stopped broadcast for each run that was Running, in order. */
  function StopEvents(was: seq<P.Status>, ids: seq<nat>): seq<P.Event>
    requires |was| == |ids|
  {
    var n := |was| - 1;
    if was == [] then []
    else StopEvents(was[..n], ids[..n]) + (if was[n] == P.Running then [P.Event(ids[n], P.Stopped, None)] else [])
  }
}
