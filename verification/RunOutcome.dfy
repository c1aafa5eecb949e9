/** How a run ends is what its provider returned: from the steps of an execution to the status it reaches. */
module RunOutcome {
  import opened Wrappers
  import opened RunProtocol

  /** What the provider has returned so far, if it has: no error, or one. */
  type Answer = Option<Option<string>>

  ghost function Returned(steps: seq<Step>, n: nat, r: RunId): Answer
    requires n <= |steps|
  {
    if n == 0 then None
    else if steps[n - 1].TaskReturn? && steps[n - 1].r == r then Some(steps[n - 1].error)
    else Returned(steps, n - 1, r)
  }

  ghost predicate CompletedInside(steps: seq<Step>, n: nat, r: RunId)
    requires n <= |steps|
  {
    exists i :: 0 <= i < n && steps[i] == InnerComplete(r)
  }

  function Came(e: Step, r: RunId, back: Answer): Answer {
    if e.TaskReturn? && e.r == r then Some(e.error) else back
  }

  // ---- what a run keeps of the answer ----

  predicate Due(target: Status, error: Option<string>) {
    target == if error.None? then Completed else Failed
  }

  predicate TaskKnows(a: Run, back: Answer, inside: bool) {
    match a.task
    case Working => back.None? && !inside
    case Wrapping => back.None? && inside
    case Returned(e) => back == Some(e)
    case Failing(m) => back == Some(Some(m))
    case Recording(m) => back == Some(Some(m))
    case Waiting(t, inner) => TargetKnown(a, t, inner, back, inside)
    case Holding(t, inner) => TargetKnown(a, t, inner, back, inside)
    case Writing(t, inner) => TargetKnown(a, t, inner, back, inside)
    case Publishing(t, inner) => TargetKnown(a, t, inner, back, inside)
    case Closing => back.Some?
    case Sleeping => back.Some?
    case Gone => true
  }

  predicate TargetKnown(a: Run, target: Status, inner: bool, back: Answer, inside: bool) {
    if inner then back.None? && inside && target == Completed
    else back.Some? && Due(target, back.value) && (target == Failed ==> a.error == back.value || a.cancelled)
  }

  predicate OutcomeOk(a: Run, back: Answer, inside: bool) {
    && (a.error.Some? ==> back == Some(a.error))
    && (Failed in a.history ==> a.error.Some?)
    && (Completed in a.history ==> inside || back == Some(None))
    && (inside && back.Some? ==> back == Some(None))
    && TaskKnows(a, back, inside)
    && (!a.cancelled && back.Some? && a.task.Ended() ==> Due(a.status, back.value))
  }

  /** Every failure told of the run came with the run's error. */
  predicate ToldOk(s: State, r: RunId)
    requires r < |s.runs|
  {
    forall k :: 0 <= k < |s.feed| && s.feed[k].run == r && s.feed[k].status == Failed ==>
      s.feed[k].error.Some? && s.feed[k].error == s.runs[r].error
  }

  // ---- every step keeps it ----

  predicate TaskStep(e: Step) {
    QuietStep(e) || e.TaskWrite? || e.TaskPublish? || e.TaskClean?
  }

  lemma QuietOutcome(a: Run, e: Step, s: State, back: Answer, inside: bool)
    requires QuietStep(e) && Enabled(s, e) && a == s.runs[e.r] && RunOk(a) && OutcomeOk(a, back, inside)
    ensures OutcomeOk(QuietMove(a, e), Came(e, e.r, back), inside || e == InnerComplete(e.r))
    ensures a.error.Some? ==> QuietMove(a, e).error == a.error
    ensures QuietMove(a, e).history == a.history
  {
    hide ProperHistory;
  }

  lemma WriteOutcome(a: Run, back: Answer, inside: bool)
    requires RunOk(a) && OutcomeOk(a, back, inside) && a.task.Writing?
    ensures OutcomeOk(a.Write(a.task.target).(task := Publishing(a.task.target, a.task.inner)), back, inside)
  {
    hide ProperHistory;
  }

  lemma PublishOutcome(a: Run, back: Answer, inside: bool)
    requires RunOk(a) && OutcomeOk(a, back, inside) && a.task.Publishing?
    ensures OutcomeOk(a.(lock := Free, unpublished := false, task := AfterWrite(a.task.inner)), back, inside)
  {
    hide ProperHistory;
  }

  lemma OwnOutcome(s: State, e: Step, back: Answer, inside: bool)
    requires TaskStep(e) && Enabled(s, e) && RunOk(s.runs[e.r]) && OutcomeOk(s.runs[e.r], back, inside)
    ensures var t := Do(s, e);
            e.r < |t.runs| && OutcomeOk(t.runs[e.r], Came(e, e.r, back), inside || e == InnerComplete(e.r))
  {
    hide OutcomeOk;
    hide RunOk;
    hide Publish;
    if QuietStep(e) {
      hide Do;
      QuietIsDo(s, e);
      QuietOutcome(s.runs[e.r], e, s, back, inside);
    } else if e.TaskWrite? {
      WriteOutcome(s.runs[e.r], back, inside);
    } else if e.TaskPublish? {
      PublishOutcome(s.runs[e.r], back, inside);
      Publishes(s, e.r);
    } else {
      CleanOutcome(s.runs[e.r], back, inside);
    }
  }

  lemma Publishes(s: State, r: RunId)
    requires r < |s.runs|
    ensures Publish(s, r).runs == s.runs[r := s.runs[r].(lock := Free, unpublished := false)]
  {
  }

  lemma CleanOutcome(a: Run, back: Answer, inside: bool)
    requires OutcomeOk(a, back, inside) && a.task.Sleeping?
    ensures OutcomeOk(a.(task := Gone), back, inside)
  {
  }

  /** A change that leaves task, error and history alone, or writes Stopped over a cancelled run. */
  predicate Aside(a: Run, b: Run) {
    && b.error == a.error && (a.cancelled ==> b.cancelled) && b.task == a.task
    && (b.history == a.history || b.history == a.history + [Stopped])
    && (b.status == a.status || b.cancelled)
  }

  lemma AsideOutcome(a: Run, b: Run, back: Answer, inside: bool)
    requires Aside(a, b) && OutcomeOk(a, back, inside)
    ensures OutcomeOk(b, back, inside)
  {
  }

  lemma AbortOutcome(a: Run, back: Answer, inside: bool)
    requires RunOk(a) && Settled(a) && OutcomeOk(a, back, inside)
    ensures OutcomeOk(Abort(a), back, inside)
  {
    hide TaskFits;
    assert a.status in a.history;
  }

  predicate Aborts(e: Step) { e.ReaperAbort? || e.AbortStraggler? }

  predicate KeepsRuns(e: Step) { e.Arrive? || e.TailClean? || QuietCall(e) }

  lemma RunsUntouched(s: State, e: Step)
    requires Enabled(s, e) && KeepsRuns(e)
    ensures Do(s, e).runs == s.runs
  {
    hide DoTask;
  }

  lemma CallAside(s: State, e: Step, r: RunId)
    requires Inv(s) && Enabled(s, e) && !TaskStep(e) && !Aborts(e) && r < |s.runs|
    ensures var t := Do(s, e); r < |t.runs| && Aside(s.runs[r], t.runs[r])
  {
    hide Inv;
    hide Do;
    hide Enabled;
    RunsStay(s, e);
    if KeepsRuns(e) {
      RunsUntouched(s, e);
    } else {
      StopAside(s, e, r);
    }
  }

  lemma StopAside(s: State, e: Step, r: RunId)
    requires Inv(s) && Enabled(s, e) && !TaskStep(e) && !Aborts(e) && !KeepsRuns(e) && r < |s.runs|
    ensures var t := Do(s, e); r < |t.runs| && Aside(s.runs[r], t.runs[r])
  {
    hide EventsOk;
    hide LockOk;
    hide RegistryOk;
    hide MapLockOk;
    hide RunOk;
    hide DoTask;
    NotTheTask(s, e);
    if e.StopWrite? {
      assert CallOk(s, e.c);
    }
  }

  lemma NotTheTask(s: State, e: Step)
    requires Enabled(s, e) && !TaskStep(e)
    ensures DoTask(s, e) == s
  {
  }

  lemma AbortedRun(s: State, e: Step, r: RunId)
    requires Inv(s) && Enabled(s, e) && Aborts(e) && r < |s.runs|
    ensures var t := Do(s, e);
            r < |t.runs| && (t.runs[r] == s.runs[r] || (Settled(s.runs[r]) && t.runs[r] == Abort(s.runs[r])))
  {
    hide EventsOk;
    hide LockOk;
    hide RegistryOk;
    hide MapLockOk;
    hide RunOk;
    hide Abort;
    assert CallOk(s, e.c);
    if e.ReaperAbort? {
      StoppedIsSettled(s.runs[s.calls[e.c].run]);
    }
  }

  lemma OtherOutcome(s: State, e: Step, r: RunId, back: Answer, inside: bool)
    requires Inv(s) && Enabled(s, e) && !(TaskStep(e) && e.r == r) && r < |s.runs|
    requires OutcomeOk(s.runs[r], back, inside)
    ensures var t := Do(s, e); r < |t.runs| && OutcomeOk(t.runs[r], back, inside)
  {
    hide Inv;
    hide Do;
    hide Enabled;
    hide OutcomeOk;
    hide Aside;
    hide RunOk;
    RunsStay(s, e);
    if TaskStep(e) {
      OthersStatusStep(s, e, r);
    } else if Aborts(e) {
      AbortedRun(s, e, r);
      if Settled(s.runs[r]) { RunIsOk(s, r); AbortOutcome(s.runs[r], back, inside); }
    } else {
      CallAside(s, e, r);
      AsideOutcome(s.runs[r], Do(s, e).runs[r], back, inside);
    }
  }

  lemma RunIsOk(s: State, r: RunId)
    requires Inv(s) && r < |s.runs|
    ensures RunOk(s.runs[r])
  {
  }

  // ---- what is broadcast ----

  predicate Broadcasts(e: Step) { e.TaskPublish? || e.StopPublish? || e.StartInsert? }

  lemma OthersTellNothing(s: State, e: Step)
    requires Enabled(s, e) && !Broadcasts(e)
    ensures Do(s, e).feed == s.feed
  {
  }

  /** A broadcast of a failure is that of its run's error. */
  lemma TellsError(s: State, e: Step)
    requires Inv(s) && Enabled(s, e) && Broadcasts(e)
    ensures var t := Do(s, e);
            || t.feed == s.feed
            || exists x :: t.feed == s.feed + [x] && x.run < |t.runs|
                 && (x.status == Failed ==> x.run < |s.runs| && x.error == s.runs[x.run].error == t.runs[x.run].error
                                            && Failed in s.runs[x.run].history)
  {
    hide EventsOk;
    hide LockOk;
    hide RegistryOk;
    hide MapLockOk;
    hide CallOk;
    hide TaskFits;
    if e.TaskPublish? {
      assert RunOk(s.runs[e.r]);
      assert Do(s, e).feed == s.feed || Do(s, e).feed == s.feed + [Do(s, e).feed[|s.feed|]];
    } else if e.StopPublish? {
      assert RunOk(s.runs[s.calls[e.c].scope.Target()]);
      assert Do(s, e).feed == s.feed || Do(s, e).feed == s.feed + [Do(s, e).feed[|s.feed|]];
    } else {
      assert Do(s, e).feed == s.feed + [Event(|s.runs|, Running, None)];
    }
  }

  lemma ErrorStays(s: State, e: Step, r: RunId, back: Answer, inside: bool)
    requires Inv(s) && Enabled(s, e) && r < |s.runs| && OutcomeOk(s.runs[r], back, inside) && s.runs[r].error.Some?
    ensures r < |Do(s, e).runs| && Do(s, e).runs[r].error == s.runs[r].error
  {
    hide Inv;
    hide Do;
    hide Enabled;
    hide RunOk;
    hide OutcomeOk;
    RunsStay(s, e);
    RunIsOk(s, r);
    if TaskStep(e) && e.r == r {
      if QuietStep(e) {
        QuietIsDo(s, e);
        QuietOutcome(s.runs[r], e, s, back, inside);
      } else {
        LoudKeepsError(s, e);
      }
    } else if TaskStep(e) {
      OthersStatusStep(s, e, r);
    } else if Aborts(e) {
      AbortedRun(s, e, r);
    } else {
      CallAside(s, e, r);
    }
  }

  lemma LoudKeepsError(s: State, e: Step)
    requires Enabled(s, e) && TaskStep(e) && !QuietStep(e)
    ensures e.r < |Do(s, e).runs| && Do(s, e).runs[e.r].error == s.runs[e.r].error
  {
  }

  lemma ToldStep(s: State, e: Step, r: RunId, back: Answer, inside: bool)
    requires Inv(s) && Enabled(s, e) && r < |s.runs| && OutcomeOk(s.runs[r], back, inside) && ToldOk(s, r)
    ensures r < |Do(s, e).runs| && ToldOk(Do(s, e), r)
  {
    hide Inv;
    hide Do;
    hide Enabled;
    RunsStay(s, e);
    if s.runs[r].error.Some? {
      ErrorStays(s, e, r, back, inside);
    }
    if Broadcasts(e) { TellsError(s, e); } else { OthersTellNothing(s, e); }
  }

  // ---- along executions ----

  lemma NewRun(s: State, e: Step)
    requires Inv(s) && Enabled(s, e) && |s.runs| < |Do(s, e).runs|
    ensures e.StartInsert? && |Do(s, e).runs| == |s.runs| + 1
    ensures OutcomeOk(Do(s, e).runs[|s.runs|], None, false) && ToldOk(Do(s, e), |s.runs|)
  {
    hide EventsOk;
    hide LockOk;
    hide RegistryOk;
    hide MapLockOk;
    hide CallOk;
    hide RunOk;
  }

  lemma OwnStepKnowsRun(s: State, e: Step)
    requires Enabled(s, e) && TaskStep(e)
    ensures e.r < |s.runs|
  {
  }

  lemma {:induction false} Outcome(states: seq<State>, steps: seq<Step>, n: nat, r: RunId)
    requires Execution(states, steps) && n < |states|
    ensures if r < |states[n].runs|
            then OutcomeOk(states[n].runs[r], Returned(steps, n, r), CompletedInside(steps, n, r)) && ToldOk(states[n], r)
            else Returned(steps, n, r).None? && !CompletedInside(steps, n, r)
  {
    hide Inv;
    hide Do;
    hide Enabled;
    hide OutcomeOk;
    hide ToldOk;
    if n > 0 {
      var s, e := states[n - 1], steps[n - 1];
      Outcome(states, steps, n - 1, r);
      ExecutionInv(states, steps, n - 1);
      RunsStay(s, e);
      var back, inside := Returned(steps, n - 1, r), CompletedInside(steps, n - 1, r);
      assert CompletedInside(steps, n, r) <==> inside || e == InnerComplete(r);
      if TaskStep(e) { OwnStepKnowsRun(s, e); }
      if r < |s.runs| {
        RunIsOk(s, r);
        ToldStep(s, e, r, back, inside);
        if TaskStep(e) && e.r == r { OwnOutcome(s, e, back, inside); } else { OtherOutcome(s, e, r, back, inside); }
      } else if r < |states[n].runs| {
        NewRun(s, e);
      }
    }
  }

  /** A provider returns once. */
  lemma {:induction false} ReturnsOnce(states: seq<State>, steps: seq<Step>, i: nat, n: nat, r: RunId)
    requires Execution(states, steps) && i < n <= |steps| && steps[i].TaskReturn? && steps[i].r == r
    ensures Returned(steps, n, r) == Some(steps[i].error)
    ensures forall j :: 0 <= j < n && steps[j].TaskReturn? && steps[j].r == r ==> j == i
    decreases n
  {
    hide Do;
    hide OutcomeOk;
    if i == n - 1 {
      forall j | 0 <= j < i ensures !(steps[j].TaskReturn? && steps[j].r == r) {
        if steps[j].TaskReturn? && steps[j].r == r {
          ReturnsOnce(states, steps, j, i, r);
          NotBefore(states, steps, i, r);
        }
      }
    } else {
      ReturnsOnce(states, steps, i, n - 1, r);
      if steps[n - 1].TaskReturn? && steps[n - 1].r == r {
        NotBefore(states, steps, n - 1, r);
      }
    }
  }

  lemma NotBefore(states: seq<State>, steps: seq<Step>, i: nat, r: RunId)
    requires Execution(states, steps) && i < |steps| && steps[i].TaskReturn? && steps[i].r == r
    ensures Returned(steps, i, r).None?
  {
    hide Do;
    Outcome(states, steps, i, r);
    assert Enabled(states[i], steps[i]);
  }

  lemma {:induction false} ReturnedWhen(steps: seq<Step>, n: nat, r: RunId)
    requires n <= |steps| && Returned(steps, n, r).Some?
    ensures exists i :: 0 <= i < n && steps[i] == TaskReturn(r, Returned(steps, n, r).value)
  {
    if !(steps[n - 1].TaskReturn? && steps[n - 1].r == r) {
      ReturnedWhen(steps, n - 1, r);
    }
  }

  /**
   A run has failed only if its provider returned an error, and nothing else; that error is the run's
   and is what subscribers were told with the failure.
   */
  lemma FailedMeansError(states: seq<State>, steps: seq<Step>, n: nat, r: RunId)
    requires Execution(states, steps) && n < |states| && r < |states[n].runs| && Failed in states[n].runs[r].history
    ensures var s := states[n];
            && s.runs[r].error.Some?
            && (exists i :: 0 <= i < n && steps[i] == TaskReturn(r, s.runs[r].error))
            && (forall i :: 0 <= i < n && steps[i].TaskReturn? && steps[i].r == r ==> steps[i].error == s.runs[r].error)
            && (forall k :: 0 <= k < |s.feed| && s.feed[k].run == r && s.feed[k].status == Failed ==>
                  s.feed[k].error == s.runs[r].error)
  {
    Outcome(states, steps, n, r);
    ReturnedWhen(steps, n, r);
    forall i | 0 <= i < n && steps[i].TaskReturn? && steps[i].r == r ensures steps[i].error == states[n].runs[r].error {
      ReturnsOnce(states, steps, i, n, r);
    }
  }

  /** A run has completed only if its provider returned without an error, or wrote Completed itself. */
  lemma CompletedMeansNoError(states: seq<State>, steps: seq<Step>, n: nat, r: RunId)
    requires Execution(states, steps) && n < |states| && r < |states[n].runs| && Completed in states[n].runs[r].history
    ensures exists i :: 0 <= i < n && (steps[i] == TaskReturn(r, None) || steps[i] == InnerComplete(r))
    ensures forall i :: 0 <= i < n && steps[i].TaskReturn? && steps[i].r == r ==> steps[i].error == None
  {
    Outcome(states, steps, n, r);
    if !CompletedInside(steps, n, r) {
      ReturnedWhen(steps, n, r);
    } else {
      var i :| 0 <= i < n && steps[i] == InnerComplete(r);
    }
    forall i | 0 <= i < n && steps[i].TaskReturn? && steps[i].r == r ensures steps[i].error == None {
      ReturnsOnce(states, steps, i, n, r);
    }
  }

  /** A run nobody cancelled ends as its provider returned: Completed, or Failed with that error. */
  lemma EndsAsReturned(states: seq<State>, steps: seq<Step>, n: nat, r: RunId, i: nat, error: Option<string>)
    requires Execution(states, steps) && i < n < |states| && steps[i] == TaskReturn(r, error)
    requires r < |states[n].runs| && !states[n].runs[r].cancelled && states[n].runs[r].task.Ended()
    ensures states[n].runs[r].status == if error.None? then Completed else Failed
    ensures states[n].runs[r].error == error
  {
    Outcome(states, steps, n, r);
    ReturnsOnce(states, steps, i, n, r);
    ExecutionInv(states, steps, n);
    assert RunOk(states[n].runs[r]);
    assert states[n].runs[r].status in states[n].runs[r].history;
  }

  // ---- a run that fails ----

  function Alone(run: Run, feed: seq<Event>): State { Scene(run, StopWaiting("t"), None, feed) }

  const BROKEN := FRESH_RUN.(taskDone := true)
  const MARKED := BROKEN.(error := Some("boom"))

  lemma ErrorIsRecorded()
    ensures Reachable(Alone(MARKED.(task := Waiting(Failed, false)), STARTED))
  {
    hide Reachable;
    OneRunStarted();
    var x := Some("boom");
    Play(Alone(FRESH_RUN, STARTED), TaskReturn(0, x), Alone(BROKEN.(task := TaskPc.Returned(x)), STARTED));
    Play(Alone(BROKEN.(task := TaskPc.Returned(x)), STARTED), TaskCheck(0), Alone(BROKEN.(task := Failing("boom")), STARTED));
    ErrorIsRecorded2();
  }

  lemma ErrorIsRecorded2()
    requires Reachable(Alone(BROKEN.(task := Failing("boom")), STARTED))
    ensures Reachable(Alone(MARKED.(task := Waiting(Failed, false)), STARTED))
  {
    hide Reachable;
    Play(Alone(BROKEN.(task := Failing("boom")), STARTED), TaskErrorCheck(0), Alone(BROKEN.(task := Recording("boom")), STARTED));
    Play(Alone(BROKEN.(task := Recording("boom")), STARTED), TaskRecord(0), Alone(MARKED.(task := Waiting(Failed, false)), STARTED));
  }

  lemma ErrorIsAboutToBeWritten()
    ensures Reachable(Alone(MARKED.(lock := ByTask, task := Writing(Failed, false)), STARTED))
  {
    hide Reachable;
    ErrorIsRecorded();
    var a := MARKED.(task := Waiting(Failed, false));
    var b := MARKED.(lock := ByTask, task := Holding(Failed, false));
    Play(Alone(a, STARTED), TaskAcquire(0), Alone(b, STARTED));
    Play(Alone(b, STARTED), TaskLoad(0), Alone(b.(task := Writing(Failed, false)), STARTED));
  }

  lemma FailureIsWritten(a: Run, b: Run)
    requires a == MARKED.(lock := ByTask, task := Writing(Failed, false)) && Reachable(Alone(a, STARTED))
    requires b == a.(status := Failed, history := [Running, Failed], unpublished := true, task := Publishing(Failed, false))
    ensures Reachable(Alone(b, STARTED))
  {
    hide Reachable;
    assert [Running] + [Failed] == [Running, Failed];
    Play(Alone(a, STARTED), TaskWrite(0), Alone(b, STARTED));
  }

  /** A provider that returns an error: the run is Failed, and its subscribers hear the error. */
  lemma RunCanFail()
    ensures exists s :: Reachable(s) && |s.runs| == 1 && s.runs[0].history == [Running, Failed] && s.runs[0].lock == Free
                        && s.runs[0].error == Some("boom") && s.feed == STARTED + [Event(0, Failed, Some("boom"))]
  {
    hide Reachable;
    ErrorIsAboutToBeWritten();
    var a := MARKED.(lock := ByTask, task := Writing(Failed, false));
    var b := a.(status := Failed, history := [Running, Failed], unpublished := true, task := Publishing(Failed, false));
    FailureIsWritten(a, b);
    var c := b.(lock := Free, unpublished := false, task := Closing);
    var told := STARTED + [Event(0, Failed, Some("boom"))];
    Play(Alone(b, STARTED), TaskPublish(0), Alone(c, told));
    assert Alone(c, told).runs[0] == c;
  }
}
