/**
 What dropping a `stop` at an await leaves behind: subscribers who never hear of the stop, or a run
 that stays Running after its task has ended. Each with an execution that gets there.
 */
module DroppedCalls {
  import opened Wrappers
  import opened RunProtocol

  const LEFT := FRESH_RUN.(cancelled := true)
  const UNTOLD := LEFT.(lock := ByCall(1), status := Stopped, history := [Running, Stopped], unpublished := true)

  // ---- a stop nobody hears of ----

  /** `stop` has written Stopped and waits for the timestamp's lock when its handler drops it. */
  lemma DroppedStopIsNeverTold()
    ensures exists s :: Reachable(s) && |s.runs| == 1
                        && s.runs[0].history == [Running, Stopped] && s.runs[0].lock == Free
                        && Statuses(EventsOf(s.feed, 0)) == [Running]
                        && forall c :: 0 <= c < |s.calls| ==> s.calls[c].Done?
  {
    hide Reachable;
    hide EventsOf;
    hide Statuses;
    StopWrites();
    var d := UNTOLD.(lock := Free, unpublished := false, missed := true);
    Play(Scene(UNTOLD, Stopping(One(0), Written), Some(1), STARTED), DropCall(1), Scene(d, Done, None, STARTED));
    OneEvent();
  }

  lemma StopWrites()
    ensures Reachable(Scene(UNTOLD, Stopping(One(0), Written), Some(1), STARTED))
  {
    hide Reachable;
    StopQueues();
    var m, locked := Some(1), Stopping(One(0), Locked);
    var b := LEFT.(lock := ByCall(1));
    Play(Scene(LEFT, Stopping(One(0), Queuing), m, STARTED), StopAcquire(1), Scene(b, locked, m, STARTED));
    assert [Running] + [Stopped] == [Running, Stopped];
    Play(Scene(b, locked, m, STARTED), StopWrite(1), Scene(UNTOLD, Stopping(One(0), Written), m, STARTED));
  }

  lemma StopQueues()
    ensures Reachable(Scene(LEFT, Stopping(One(0), Queuing), Some(1), STARTED))
  {
    hide Reachable;
    StopHasReadRunning();
    Play(Scene(FRESH_RUN, Stopping(One(0), Cancelling), Some(1), STARTED), StopCancel(1),
         Scene(LEFT, Stopping(One(0), Queuing), Some(1), STARTED));
  }

  lemma OneEvent()
    ensures Statuses(EventsOf(STARTED, 0)) == [Running]
  {
    assert STARTED[..0] == [];
    assert EventsOf(STARTED, 0) == [] + [STARTED[0]];
  }

  // ---- a run that is Running when its task has ended ----

  /** A stop that has cancelled the run and has yet to write. */
  predicate Cancels(s: State, c: CallId, r: RunId) {
    (StopAt(s, c, Queuing) || StopAt(s, c, Locked)) && s.calls[c].scope.Target() == r
  }

  predicate InFlight(s: State, r: RunId) {
    exists c :: 0 <= c < |s.calls| && Cancels(s, c, r)
  }

  /** Such a stop is dropped while it waits for the status. */
  predicate DropsQueued(s: State, e: Step, r: RunId) {
    e.DropCall? && StopAt(s, e.c, Queuing) && s.calls[e.c].scope.Target() == r
  }

  ghost predicate Dropped(states: seq<State>, steps: seq<Step>, n: nat, r: RunId)
    requires Execution(states, steps) && n < |states|
  {
    exists i :: 0 <= i < n && DropsQueued(states[i], steps[i], r)
  }

  lemma TaskKeepsCalls(s: State, e: Step)
    requires Enabled(s, e)
    ensures DoTask(s, e).calls == s.calls && |DoTask(s, e).runs| == |s.runs|
    ensures forall r :: 0 <= r < |s.runs| ==> DoTask(s, e).runs[r].cancelled == s.runs[r].cancelled
  {
  }

  /** Only StopCancel cancels a run. */
  lemma CancelledBefore(s: State, e: Step, r: RunId)
    requires Enabled(s, e) && r < |Do(s, e).runs| && Do(s, e).runs[r].cancelled
    ensures r < |s.runs|
    ensures s.runs[r].cancelled || (e.StopCancel? && Cancels(Do(s, e), e.c, r))
  {
    hide DoTask;
    TaskKeepsCalls(s, e);
  }

  /** The stop goes on, is dropped, or has written Stopped. */
  lemma CancelsKept(s: State, e: Step, c: CallId, r: RunId)
    requires Enabled(s, e) && c < |s.calls| && Cancels(s, c, r) && !DropsQueued(s, e, r)
    ensures Cancels(Do(s, e), c, r) || (r < |Do(s, e).runs| && Do(s, e).runs[r].status == Stopped)
  {
    hide DoTask;
    TaskKeepsCalls(s, e);
  }

  lemma RunningBefore(s: State, e: Step, r: RunId)
    requires Inv(s) && Enabled(s, e) && r < |s.runs| && s.runs[r].status != Running
    ensures r < |Do(s, e).runs| && Do(s, e).runs[r].status != Running
  {
    hide Do;
    hide Enabled;
    hide Inv;
    RunsStay(s, e);
    StatusStep(s, e, r);
    StatusIsNotIdle(s, r);
  }

  lemma StatusIsNotIdle(s: State, r: RunId)
    requires Inv(s) && r < |s.runs|
    ensures s.runs[r].status != Idle
  {
    assert RunOk(s.runs[r]);
  }

  lemma InFlightStep(s: State, e: Step, r: RunId)
    requires Inv(s) && Enabled(s, e) && !DropsQueued(s, e, r)
    requires r < |s.runs| && s.runs[r].status == Running && s.runs[r].cancelled ==> InFlight(s, r)
    requires var t := Do(s, e); r < |t.runs| && t.runs[r].status == Running && t.runs[r].cancelled
    ensures InFlight(Do(s, e), r)
  {
    hide Do;
    hide Enabled;
    hide Inv;
    hide Cancels;
    hide DropsQueued;
    CancelledBefore(s, e, r);
    if s.runs[r].status != Running {
      RunningBefore(s, e, r);
    }
    if s.runs[r].cancelled {
      var c :| 0 <= c < |s.calls| && Cancels(s, c, r);
      CancelsKept(s, e, c, r);
      CancelsMeans(Do(s, e), c, r);
    } else {
      CancelsMeans(Do(s, e), e.c, r);
    }
  }

  lemma CancelsMeans(s: State, c: CallId, r: RunId)
    ensures Cancels(s, c, r) ==> c < |s.calls| && InFlight(s, r)
  {
  }

  lemma {:induction false} CancelledSince(states: seq<State>, steps: seq<Step>, i: nat, n: nat, r: RunId)
    requires Execution(states, steps) && i <= n < |states| && r < |states[i].runs| && states[i].runs[r].cancelled
    ensures r < |states[n].runs| && states[n].runs[r].cancelled
  {
    hide Enabled;
    hide Do;
    hide Inv;
    if i < n {
      CancelledSince(states, steps, i, n - 1, r);
      ExecutionInv(states, steps, n - 1);
      RunsStay(states[n - 1], steps[n - 1]);
      StatusStep(states[n - 1], steps[n - 1], r);
    }
  }

  lemma CancelsCancelled(s: State, c: CallId, r: RunId)
    requires Inv(s) && Cancels(s, c, r)
    ensures r < |s.runs| && s.runs[r].cancelled
  {
    assert CallOk(s, c);
  }

  lemma DropsCancelled(s: State, e: Step, r: RunId)
    requires Inv(s) && DropsQueued(s, e, r)
    ensures r < |s.runs| && s.runs[r].cancelled
  {
    CancelsCancelled(s, e.c, r);
  }

  lemma {:induction false} CancelledSomehow(states: seq<State>, steps: seq<Step>, n: nat, r: RunId)
    requires Execution(states, steps) && n < |states| && r < |states[n].runs|
    requires states[n].runs[r].status == Running && states[n].runs[r].cancelled
    ensures InFlight(states[n], r) || Dropped(states, steps, n, r)
  {
    hide Enabled;
    hide Do;
    hide Inv;
    hide InFlight;
    hide DropsQueued;
    if n > 0 && !Dropped(states, steps, n, r) {
      var s, e := states[n - 1], steps[n - 1];
      ExecutionInv(states, steps, n - 1);
      assert !DropsQueued(s, e, r);
      assert !Dropped(states, steps, n - 1, r);
      if r < |s.runs| && s.runs[r].status == Running && s.runs[r].cancelled {
        CancelledSomehow(states, steps, n - 1, r);
      }
      InFlightStep(s, e, r);
    }
  }

  /**
   A run that is Running has been cancelled exactly when some stop of it has yet to write, or was
   dropped before it could.
   */
  lemma RunningAndCancelled(states: seq<State>, steps: seq<Step>, n: nat, r: RunId)
    requires Execution(states, steps) && n < |states| && r < |states[n].runs| && states[n].runs[r].status == Running
    ensures states[n].runs[r].cancelled <==> InFlight(states[n], r) || Dropped(states, steps, n, r)
  {
    hide Enabled;
    hide Do;
    hide Inv;
    hide Cancels;
    hide DropsQueued;
    ExecutionInv(states, steps, n);
    if states[n].runs[r].cancelled {
      CancelledSomehow(states, steps, n, r);
    }
    if InFlight(states[n], r) {
      var c :| 0 <= c < |states[n].calls| && Cancels(states[n], c, r);
      CancelsCancelled(states[n], c, r);
    }
    if Dropped(states, steps, n, r) {
      var i :| 0 <= i < n && DropsQueued(states[i], steps[i], r);
      ExecutionInv(states, steps, i);
      DropsCancelled(states[i], steps[i], r);
      CancelledSince(states, steps, i, n, r);
    }
  }

  /** A task that ends other than by a panic leaves its run finished, unless the run was cancelled. */
  lemma GoneStep(s: State, e: Step, r: RunId)
    requires Inv(s) && Enabled(s, e) && e != TaskPanic(r)
    requires r < |s.runs| && s.runs[r].task.Gone? && s.runs[r].status == Running ==> s.runs[r].cancelled
    requires var t := Do(s, e); r < |t.runs| && t.runs[r].task.Gone? && t.runs[r].status == Running
    ensures Do(s, e).runs[r].cancelled
  {
    hide Do;
    hide Enabled;
    hide EventsOk;
    hide LockOk;
    hide ProperHistory;
    GoneBefore(s, e, r);
    if s.runs[r].status != Running {
      RunningBefore(s, e, r);
    }
    StatusStep(s, e, r);
    assert RunOk(s.runs[r]);
    if e.ReaperAbort? || e.AbortStraggler? {
      ReapedCall(s, e);
      assert CallOk(s, e.c);
    }
  }

  lemma ReapedCall(s: State, e: Step)
    requires Enabled(s, e) && (e.ReaperAbort? || e.AbortStraggler?)
    ensures e.c < |s.calls|
    ensures e.ReaperAbort? ==> s.calls[e.c].Reaping?
    ensures e.AbortStraggler? ==> s.calls[e.c].Draining? && e.r in s.calls[e.c].runs
  {
  }

  /** How a task comes to be gone. */
  lemma GoneBefore(s: State, e: Step, r: RunId)
    requires Enabled(s, e) && e != TaskPanic(r)
    requires var t := Do(s, e); r < |t.runs| && t.runs[r].task.Gone?
    ensures r < |s.runs|
    ensures s.runs[r].task.Gone? || (e == TaskClean(r) && s.runs[r].task.Sleeping?)
            || (e.ReaperAbort? && s.calls[e.c].run == r) || (e.AbortStraggler? && e.r == r)
  {
    hide DoTask;
    TaskKeepsCalls(s, e);
    if Do(s, e) == DoTask(s, e) {
      GoneByTask(s, e, r);
    }
  }

  lemma GoneByTask(s: State, e: Step, r: RunId)
    requires Enabled(s, e) && e != TaskPanic(r) && r < |s.runs| == |DoTask(s, e).runs|
    ensures DoTask(s, e).runs[r].task.Gone? ==> s.runs[r].task.Gone? || (e == TaskClean(r) && s.runs[r].task.Sleeping?)
  {
  }

  lemma {:induction false} GoneRuns(states: seq<State>, steps: seq<Step>, n: nat, r: RunId)
    requires Execution(states, steps) && n < |states| && r < |states[n].runs|
    requires forall i :: 0 <= i < n ==> steps[i] != TaskPanic(r)
    requires states[n].runs[r].task.Gone? && states[n].runs[r].status == Running
    ensures states[n].runs[r].cancelled
  {
    hide Enabled;
    hide Do;
    hide Inv;
    if n > 0 {
      var s, e := states[n - 1], steps[n - 1];
      ExecutionInv(states, steps, n - 1);
      if r < |s.runs| && s.runs[r].task.Gone? && s.runs[r].status == Running {
        GoneRuns(states, steps, n - 1, r);
      }
      GoneStep(s, e, r);
    }
  }

  /**
   A run whose task has ended without a panic is Running only while a stop of it has yet to write,
   or if one was dropped before it could.
   */
  lemma EndedIsFinishedUnlessDropped(states: seq<State>, steps: seq<Step>, n: nat, r: RunId)
    requires Execution(states, steps) && n < |states| && r < |states[n].runs| && states[n].runs[r].task.Ended()
    requires forall i :: 0 <= i < n ==> steps[i] != TaskPanic(r)
    requires !InFlight(states[n], r) && !Dropped(states, steps, n, r)
    ensures states[n].runs[r].status in {Completed, Failed, Stopped}
  {
    hide Enabled;
    hide Do;
    hide InFlight;
    hide Dropped;
    hide EventsOk;
    hide LockOk;
    ExecutionInv(states, steps, n);
    StatusIsNotIdle(states[n], r);
    assert RunOk(states[n].runs[r]);
    if states[n].runs[r].status == Running {
      if states[n].runs[r].task.Gone? {
        GoneRuns(states, steps, n, r);
      }
      RunningAndCancelled(states, steps, n, r);
    }
  }

  /** `stop` is dropped while it waits for the status of a run it has cancelled; then the provider returns. */
  lemma DroppedStopReturns()
    ensures Reachable(Scene(LEFT.(taskDone := true, task := Returned(None)), Done, None, STARTED))
  {
    hide Reachable;
    StopQueues();
    Play(Scene(LEFT, Stopping(One(0), Queuing), Some(1), STARTED), DropCall(1), Scene(LEFT, Done, None, STARTED));
    var b := LEFT.(taskDone := true, task := Returned(None));
    Play(Scene(LEFT, Done, None, STARTED), TaskReturn(0, None), Scene(b, Done, None, STARTED));
  }

  lemma DroppedStopCloses()
    ensures Reachable(Scene(LEFT.(taskDone := true, task := Closing), Done, None, STARTED))
  {
    hide Reachable;
    DroppedStopReturns();
    var b := LEFT.(taskDone := true, task := Returned(None));
    Play(Scene(b, Done, None, STARTED), TaskCheck(0), Scene(LEFT.(taskDone := true, task := Closing), Done, None, STARTED));
  }

  lemma DroppedStopEnds()
    ensures Reachable(Scene(LEFT.(taskDone := true, task := Sleeping), Done, None, STARTED))
  {
    hide Reachable;
    DroppedStopCloses();
    var c := LEFT.(taskDone := true, task := Closing);
    Play(Scene(c, Done, None, STARTED), TaskClose(0), Scene(LEFT.(taskDone := true, task := Sleeping), Done, None, STARTED));
  }

  /** The task has ended, no call is under way, the run is Running still, and its thread cannot start another. */
  lemma DroppedStopBlocksStart()
    ensures exists s ::
      && Reachable(s) && |s.runs| == 1 && s.runs[0].status == Running && s.runs[0].task == Sleeping && s.runs[0].taskDone
      && s.calls == [Done, Done, StartLocked(s.runs[0].thread)]
      && Enabled(s, StartRead(2)) && Do(s, StartRead(2)) == s.(calls := [Done, Done, Done], mapLock := None)
  {
    hide Reachable;
    DroppedStopEnds();
    var run := LEFT.(taskDone := true, task := Sleeping);
    var s := State([run], map["t" := 0], None, [Done, Done, StartWaiting("t")], STARTED);
    Play(Scene(run, Done, None, STARTED), Arrive(StartWaiting("t")), s);
    var t := s.(calls := [Done, Done, StartLocked("t")], mapLock := Some(2));
    Play(s, StartLock(2), t);
    assert t.calls[2 := Done] == [Done, Done, Done];
  }
}
