/** When a finished run stays what it is: exactly when no stop has already decided to stop it. */
module RunFinality {
  import opened RunProtocol

  /** The call has found its run Running, and has not yet written Stopped. */
  predicate Decided(k: Call, r: RunId) {
    && k.Stopping? && (k.phase.Cancelling? || k.phase.Queuing? || k.phase.Locked?)
    && k.scope.Sane() && k.scope.Target() == r
  }

  predicate StopPending(s: State, r: RunId) {
    exists c :: 0 <= c < |s.calls| && Decided(s.calls[c], r)
  }

  /** `t` can follow `s`. */
  ghost predicate Reaches(s: State, t: State) {
    exists states, steps :: Leads(states, steps) && states[0] == s && states[|steps|] == t
  }

  ghost predicate Leads(states: seq<State>, steps: seq<Step>) {
    && |states| == |steps| + 1
    && forall i :: 0 <= i < |steps| ==> Enabled(states[i], steps[i]) && states[i + 1] == Do(states[i], steps[i])
  }

  /** Something can happen after which the run is Stopped. */
  ghost predicate CanBeStopped(s: State, r: RunId) {
    exists t :: Reaches(s, t) && r < |t.runs| && t.runs[r].status == Stopped
  }

  // ---- nothing pending: the status is final ----

  /** A call decides to stop a run only by finding it Running. */
  lemma DecidedBefore(s: State, e: Step, d: CallId, r: RunId)
    requires Enabled(s, e) && d < |Do(s, e).calls| && Decided(Do(s, e).calls[d], r)
    ensures d < |s.calls|
    ensures Decided(s.calls[d], r) || (e == StopRead(d) && r < |s.runs| && s.runs[r].status == Running)
  {
    hide DoTask;
    TaskKeepsCalls(s, e);
  }

  predicate Finished(status: Status) { status == Completed || status == Failed }

  lemma StopWriteIsDecided(s: State, e: Step)
    requires Enabled(s, e) && e.StopWrite?
    ensures e.c < |s.calls| && Decided(s.calls[e.c], s.calls[e.c].scope.Target())
  {
  }

  lemma FinalStep(s: State, e: Step, r: RunId)
    requires Inv(s) && Enabled(s, e) && r < |s.runs| && Finished(s.runs[r].status) && !StopPending(s, r)
    ensures var t := Do(s, e);
            r < |t.runs| && t.runs[r].status == s.runs[r].status && !StopPending(t, r)
  {
    hide Do;
    hide Enabled;
    hide Inv;
    hide Decided;
    var t := Do(s, e);
    RunsStay(s, e);
    StatusStep(s, e, r);
    if e.StopWrite? {
      StopWriteIsDecided(s, e);
    }
    forall d | 0 <= d < |t.calls| ensures !Decided(t.calls[d], r) {
      if Decided(t.calls[d], r) {
        DecidedBefore(s, e, d, r);
      }
    }
  }

  lemma {:induction false} Final(states: seq<State>, steps: seq<Step>, n: nat, r: RunId)
    requires Leads(states, steps) && n < |states|
    requires Inv(states[0]) && r < |states[0].runs| && Finished(states[0].runs[r].status) && !StopPending(states[0], r)
    ensures Inv(states[n]) && r < |states[n].runs| && states[n].runs[r].status == states[0].runs[r].status
    ensures !StopPending(states[n], r)
  {
    hide Inv;
    hide Enabled;
    hide Do;
    hide StopPending;
    if n > 0 {
      Final(states, steps, n - 1, r);
      StepInv(states[n - 1], steps[n - 1]);
      FinalStep(states[n - 1], steps[n - 1], r);
    }
  }

  // ---- a stop that has decided can still be carried out ----

  lemma Stays(s: State)
    ensures Reaches(s, s)
  {
    assert Leads([s], []);
  }

  lemma Then(s: State, t: State, e: Step)
    requires Reaches(s, t) && Enabled(t, e)
    ensures Reaches(s, Do(t, e))
  {
    hide Do;
    hide Enabled;
    var states, steps :| Leads(states, steps) && states[0] == s && states[|steps|] == t;
    var more, last := states + [Do(t, e)], steps + [e];
    assert Leads(more, last) && more[0] == s && more[|last|] == Do(t, e);
  }

  lemma LockedStops(s: State, t: State, c: CallId, r: RunId)
    requires Reaches(s, t) && StopAt(t, c, Locked) && t.calls[c].scope.Target() == r
    ensures CanBeStopped(s, r)
  {
    hide Reaches;
    Then(s, t, StopWrite(c));
    assert Do(t, StopWrite(c)).runs[r].status == Stopped;
  }

  lemma FreeStops(s: State, t: State, c: CallId, r: RunId)
    requires Reaches(s, t) && StopAt(t, c, Queuing) && t.calls[c].scope.Target() == r && t.runs[r].lock == Free
    ensures CanBeStopped(s, r)
  {
    hide Reaches;
    hide CanBeStopped;
    Then(s, t, StopAcquire(c));
    LockedStops(s, Do(t, StopAcquire(c)), c, r);
  }

  /** A task inside the lock, stopped from going further by nothing, comes out of it. */
  lemma PublishingStops(s: State, t: State, c: CallId, r: RunId)
    requires Reaches(s, t) && StopAt(t, c, Queuing) && t.calls[c].scope.Target() == r && t.runs[r].task.Publishing?
    ensures CanBeStopped(s, r)
  {
    hide Reaches;
    hide CanBeStopped;
    Then(s, t, TaskPublish(r));
    FreeStops(s, Do(t, TaskPublish(r)), c, r);
  }

  lemma WritingStops(s: State, t: State, c: CallId, r: RunId)
    requires Reaches(s, t) && StopAt(t, c, Queuing) && t.calls[c].scope.Target() == r && t.runs[r].task.Writing?
    ensures CanBeStopped(s, r)
  {
    hide Reaches;
    hide CanBeStopped;
    Then(s, t, TaskWrite(r));
    PublishingStops(s, Do(t, TaskWrite(r)), c, r);
  }

  lemma HoldingStops(s: State, t: State, c: CallId, r: RunId)
    requires Reaches(s, t) && StopAt(t, c, Queuing) && t.calls[c].scope.Target() == r
    requires t.runs[r].task.Holding? && t.runs[r].cancelled
    ensures CanBeStopped(s, r)
  {
    hide Reaches;
    hide CanBeStopped;
    Then(s, t, TaskLoad(r));
    FreeStops(s, Do(t, TaskLoad(r)), c, r);
  }

  /** Whoever holds the status lock of a finished run lets go of it, or stops the run itself. */
  lemma QueuingStops(s: State, t: State, c: CallId, r: RunId)
    requires Reaches(s, t) && Inv(t) && StopAt(t, c, Queuing) && t.calls[c].scope.Target() == r
    requires t.runs[r].status != Stopped
    ensures CanBeStopped(s, r)
  {
    hide Reaches;
    hide CanBeStopped;
    hide EventsOk;
    hide ProperHistory;
    hide TaskFits;
    var a := t.runs[r];
    assert CallOk(t, c) && RunOk(a) && LockOk(t, r);
    match a.lock {
      case Free => FreeStops(s, t, c, r);
      case ByCall(d) =>
        assert CallOk(t, d);
        LockedStops(s, t, d, r);
      case ByTask =>
        match a.task {
          case Holding(_, _) => HoldingStops(s, t, c, r);
          case Writing(_, _) => WritingStops(s, t, c, r);
          case Publishing(_, _) => PublishingStops(s, t, c, r);
        }
    }
  }

  lemma DecidedStops(s: State, c: CallId, r: RunId)
    requires Inv(s) && c < |s.calls| && Decided(s.calls[c], r) && r < |s.runs| && s.runs[r].status != Stopped
    ensures CanBeStopped(s, r)
  {
    hide Reaches;
    hide CanBeStopped;
    hide Inv;
    Stays(s);
    match s.calls[c].phase {
      case Locked => LockedStops(s, s, c, r);
      case Queuing => QueuingStops(s, s, c, r);
      case Cancelling =>
        Then(s, s, StopCancel(c));
        StepInv(s, StopCancel(c));
        QueuingStops(s, Do(s, StopCancel(c)), c, r);
    }
  }

  /**
   A run that has completed or failed can still be stopped exactly when some stop has found it
   Running, before it finished, and has yet to write. Otherwise its status is final.
   */
  lemma FinishedIsFinalUnlessStopPending(s: State, r: RunId)
    requires Inv(s) && r < |s.runs| && Finished(s.runs[r].status)
    ensures CanBeStopped(s, r) <==> StopPending(s, r)
    ensures !StopPending(s, r) ==> forall t :: Reaches(s, t) ==> r < |t.runs| && t.runs[r].status == s.runs[r].status
  {
    hide Inv;
    hide Decided;
    hide Enabled;
    hide Do;
    if StopPending(s, r) {
      var c :| 0 <= c < |s.calls| && Decided(s.calls[c], r);
      DecidedStops(s, c, r);
    } else {
      forall t | Reaches(s, t) ensures r < |t.runs| && t.runs[r].status == s.runs[r].status {
        var states, steps :| Leads(states, steps) && states[0] == s && states[|steps|] == t;
        Final(states, steps, |steps|, r);
      }
    }
  }

  /** The same along executions: a finished run is final from the moment no stop is pending on it. */
  lemma FinalInExecution(states: seq<State>, steps: seq<Step>, n: nat, r: RunId)
    requires Execution(states, steps) && n < |states| && r < |states[n].runs| && Finished(states[n].runs[r].status)
    ensures CanBeStopped(states[n], r) <==> StopPending(states[n], r)
  {
    hide Inv;
    hide CanBeStopped;
    hide StopPending;
    hide Enabled;
    hide Do;
    ExecutionInv(states, steps, n);
    FinishedIsFinalUnlessStopPending(states[n], r);
  }

  // ---- what a stop leaves to be done ----

  predicate ReaperWaits(s: State, r: RunId) {
    exists c :: 0 <= c < |s.calls| && s.calls[c] == Reaping(r)
  }

  predicate TaskGone(s: State, r: RunId) { r < |s.runs| && s.runs[r].task.Gone? }

  lemma ReaperStays(s: State, e: Step, c: CallId, r: RunId)
    requires Enabled(s, e) && c < |s.calls| && s.calls[c] == Reaping(r)
    ensures ReaperWaits(Do(s, e), r) || TaskGone(Do(s, e), r)
  {
    hide DoTask;
    TaskKeepsCalls(s, e);
    assert e != ReaperAbort(c) ==> c < |Do(s, e).calls| && Do(s, e).calls[c] == Reaping(r);
  }

  lemma TaskKeepsCalls(s: State, e: Step)
    requires Enabled(s, e)
    ensures DoTask(s, e).calls == s.calls
  {
  }

  lemma GoneStays(s: State, e: Step, r: RunId)
    requires Enabled(s, e) && TaskGone(s, r)
    ensures TaskGone(Do(s, e), r)
  {
  }

  lemma StopLeavesReaper(s: State, c: CallId, r: RunId)
    requires Enabled(s, StopPublish(c)) && s.calls[c].scope == One(r)
    ensures ReaperWaits(Do(s, StopPublish(c)), r)
  {
    var t := Do(s, StopPublish(c));
    assert t.calls[|s.calls|] == Reaping(r);
  }

  /** Once a `stop` is through, the run's task is gone or a reaper is there to abort it. */
  lemma {:induction false} StoppedIsReaped(states: seq<State>, steps: seq<Step>, i: nat, n: nat, r: RunId)
    requires Execution(states, steps) && i < n < |states|
    requires steps[i].StopPublish? && states[i].calls[steps[i].c].scope == One(r)
    ensures ReaperWaits(states[n], r) || TaskGone(states[n], r)
    decreases n
  {
    hide Do;
    hide ReaperWaits;
    hide TaskGone;
    var s, e := states[n - 1], steps[n - 1];
    assert Enabled(s, e);
    if n == i + 1 {
      StopLeavesReaper(s, e.c, r);
    } else {
      StoppedIsReaped(states, steps, i, n - 1, r);
      if TaskGone(s, r) {
        GoneStays(s, e, r);
      } else {
        ReaperKept(s, e, r);
      }
    }
  }

  lemma ReaperKept(s: State, e: Step, r: RunId)
    requires Enabled(s, e) && ReaperWaits(s, r)
    ensures ReaperWaits(Do(s, e), r) || TaskGone(Do(s, e), r)
  {
    hide Do;
    hide Enabled;
    var c :| 0 <= c < |s.calls| && s.calls[c] == Reaping(r);
    ReaperStays(s, e, c, r);
  }

  /** A cleanup takes its own run out of the registry, and no other. */
  lemma CleanupRemovesItsRun(s: State, e: Step, t: ThreadId)
    requires Inv(s) && Enabled(s, e) && (e.TaskClean? || e.TailClean?)
    ensures var r, m := if e.TaskClean? then e.r else s.calls[e.c].run, Do(s, e).registry;
            && (t in m <==> t in s.registry && s.registry[t] != r) && (t in m ==> m[t] == s.registry[t])
  {
    hide Do;
    hide RunOk;
    hide EventsOk;
    hide LockOk;
    hide CallOk;
    hide MapLockOk;
    CleanupsForget(s, e);
  }

  /** When `stop_all` waits for the tasks, every run of its snapshot has been seen not to run, or was stopped. */
  lemma StopAllSettlesAll(states: seq<State>, steps: seq<Step>, n: nat, c: CallId, k: nat)
    requires Execution(states, steps) && n < |states| && c < |states[n].calls|
    requires states[n].calls[c].Draining? && k < |states[n].calls[c].runs|
    ensures var r := states[n].calls[c].runs[k]; r < |states[n].runs| && states[n].runs[r].status != Running
  {
    hide RunOk;
    hide EventsOk;
    hide LockOk;
    ExecutionInv(states, steps, n);
    assert CallOk(states[n], c);
  }
}
