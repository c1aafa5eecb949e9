/**
 Background runs as a protocol: provider tasks, calls of `start`, `stop` and `stop_all`, delayed
 cleanups and aborts, interleaved at every point where the code awaits or touches an atomic.

 A run's status is only written under its status lock and the registry only under the map lock;
 the `cancelled` flag is read and set without either. Sleeps are steps that may come any time later.
 The future of a `start` or a `stop` may be dropped wherever it awaits.
 */
module RunProtocol {
  import opened Wrappers

  type RunId = nat
  type CallId = nat
  type ThreadId = string

  datatype Status = Idle | Running | Completed | Failed | Stopped

  /** One lifecycle broadcast made by a status write. */
  datatype Event = Event(run: RunId, status: Status, error: Option<string>)

  datatype Holder = Free | ByTask | ByCall(call: CallId)

  /**
   Where the task of a run stands. `inner` marks the status write that the provider future makes
   itself before it returns; the task makes its own afterwards.
   */
  datatype TaskPc =
    | Working
    | Wrapping
    | Returned(error: Option<string>)
    | Failing(message: string)
    | Recording(message: string)
    | Waiting(target: Status, inner: bool)
    | Holding(target: Status, inner: bool)
    | Writing(target: Status, inner: bool)
    | Publishing(target: Status, inner: bool)
    | Closing
    | Sleeping
    | Gone
  {
    predicate InLock() { Holding? || Writing? || Publishing? }
    /** All status writes are behind it. */
    predicate Ended() { Closing? || Sleeping? || Gone? }
  }

  datatype Run = Run(
    thread: ThreadId,
    status: Status,
    error: Option<string>,
    cancelled: bool,
    taskDone: bool,
    lock: Holder,
    task: TaskPc,
    unpublished: bool,     // the lock holder has changed the status and not yet broadcast it
    missed: bool,          // a stop was dropped before it broadcast the change it had made
    history: seq<Status>   // every status the run has had
  ) {
    predicate Live() { status == Running && !cancelled }
    /** `task_finished` */
    predicate Finished() { taskDone || task.Gone? }

    /** The write under the status lock. */
    function Write(s: Status): Run {
      if status == s then this
      else this.(status := s, history := history + [s], unpublished := true)
    }

    /** The lock holder is dropped behind its write: nobody will broadcast a change. */
    function Released(): Run {
      this.(lock := Free, unpublished := false, missed := missed || unpublished)
    }
  }

  /** Whose stop: one thread's, or `stop_all` at the `i`-th run of its snapshot. */
  datatype Scope = One(run: RunId) | All(runs: seq<RunId>, i: nat) {
    predicate Sane() { All? ==> i < |runs| }
    function Target(): RunId requires Sane() { if One? then run else runs[i] }
  }

  datatype Phase = Looking | Cancelling | Queuing | Locked | Written {
    predicate InLock() { Locked? || Written? }
    predicate PastCancel() { Queuing? || InLock() }
  }

  datatype Call =
    | StartWaiting(thread: ThreadId)
    | StartLocked(thread: ThreadId)
    | StartClear(thread: ThreadId)
    | StopWaiting(thread: ThreadId)
    | StopAllWaiting
    | Stopping(scope: Scope, phase: Phase)
    | Draining(runs: seq<RunId>)
    | Reaping(run: RunId)
    | Tail(run: RunId)
    | Done
  {
    predicate HoldsMap() { StartLocked? || StartClear? || (Stopping? && scope.One?) }
    /** Waiting for a lock, or for the timestamp's on the way to the broadcast. */
    predicate AtAwait() {
      || StartWaiting? || StartLocked? || StopWaiting? || StopAllWaiting? || Draining?
      || (Stopping? && (phase.Looking? || phase.Queuing? || phase.Written?))
    }
  }

  datatype State = State(
    runs: seq<Run>,
    registry: map<ThreadId, RunId>,
    mapLock: Option<CallId>,
    calls: seq<Call>,
    feed: seq<Event>
  ) {
    function SetRun(r: RunId, run: Run): State requires r < |runs| { this.(runs := runs[r := run]) }
    function SetCall(c: CallId, call: Call): State requires c < |calls| { this.(calls := calls[c := call]) }
    function SetTask(r: RunId, pc: TaskPc): State requires r < |runs| {
      SetRun(r, runs[r].(task := pc))
    }
  }

  const Init := State([], map[], None, [], [])

  datatype Step =
    | Arrive(call: Call)
    | StartLock(c: CallId)
    | StartRead(c: CallId)
    | StartInsert(c: CallId)
    | StopLock(c: CallId)
    | AllSnapshot(c: CallId, order: seq<RunId>)
    | StopRead(c: CallId)
    | StopCancel(c: CallId)
    | StopAcquire(c: CallId)
    | StopWrite(c: CallId)
    | StopPublish(c: CallId)
    | ReaperAbort(c: CallId)
    | AbortStraggler(c: CallId, r: RunId)
    | DrainEnd(c: CallId)
    | TailClean(c: CallId)
    | DropCall(c: CallId)
    | InnerComplete(r: RunId)
    | TaskReturn(r: RunId, error: Option<string>)
    | TaskPanic(r: RunId)
    | TaskCheck(r: RunId)
    | TaskErrorCheck(r: RunId)
    | TaskRecord(r: RunId)
    | TaskAcquire(r: RunId)
    | TaskLoad(r: RunId)
    | TaskWrite(r: RunId)
    | TaskPublish(r: RunId)
    | TaskClose(r: RunId)
    | TaskClean(r: RunId)

  predicate StopAt(s: State, c: CallId, p: Phase) {
    && c < |s.calls| && s.calls[c].Stopping? && s.calls[c].phase == p
    && s.calls[c].scope.Sane() && s.calls[c].scope.Target() < |s.runs|
  }

  predicate Enabled(s: State, e: Step) {
    match e
    case Arrive(k) => k.StartWaiting? || k.StopWaiting? || k.StopAllWaiting?
    case StartLock(c) => c < |s.calls| && s.calls[c].StartWaiting? && s.mapLock == None
    case StartRead(c) =>
      && c < |s.calls| && s.calls[c].StartLocked?
      && (s.calls[c].thread in s.registry ==>
            s.registry[s.calls[c].thread] < |s.runs| && s.runs[s.registry[s.calls[c].thread]].lock == Free)
    case StartInsert(c) => c < |s.calls| && s.calls[c].StartClear?
    case StopLock(c) => c < |s.calls| && s.calls[c].StopWaiting? && s.mapLock == None
    case AllSnapshot(c, order) =>
      && c < |s.calls| && s.calls[c].StopAllWaiting? && s.mapLock == None
      && (forall r :: r in order ==> r in s.registry.Values) && (forall r :: r in s.registry.Values ==> r in order)
    case StopRead(c) => StopAt(s, c, Looking) && s.runs[s.calls[c].scope.Target()].lock == Free
    case StopCancel(c) => StopAt(s, c, Cancelling)
    case StopAcquire(c) => StopAt(s, c, Queuing) && s.runs[s.calls[c].scope.Target()].lock == Free
    case StopWrite(c) => StopAt(s, c, Locked)
    case StopPublish(c) => StopAt(s, c, Written)
    case ReaperAbort(c) => c < |s.calls| && s.calls[c].Reaping? && s.calls[c].run < |s.runs|
    case AbortStraggler(c, r) =>
      && c < |s.calls| && s.calls[c].Draining? && r in s.calls[c].runs && r < |s.runs|
      && !s.runs[r].Finished()
    case DrainEnd(c) => c < |s.calls| && s.calls[c].Draining?
    case TailClean(c) => c < |s.calls| && s.calls[c].Tail? && s.calls[c].run < |s.runs| && s.mapLock == None
    case DropCall(c) =>
      && c < |s.calls| && s.calls[c].AtAwait()
      && (s.calls[c].Stopping? ==> s.calls[c].scope.Sane() && s.calls[c].scope.Target() < |s.runs|)
    case InnerComplete(r) => r < |s.runs| && s.runs[r].task.Working?
    case TaskReturn(r, error) => r < |s.runs| && (s.runs[r].task.Working? || (s.runs[r].task.Wrapping? && error == None))
    case TaskPanic(r) => r < |s.runs| && (s.runs[r].task.Working? || s.runs[r].task.Wrapping?)
    case TaskCheck(r) => r < |s.runs| && s.runs[r].task.Returned?
    case TaskErrorCheck(r) => r < |s.runs| && s.runs[r].task.Failing?
    case TaskRecord(r) => r < |s.runs| && s.runs[r].task.Recording?
    case TaskAcquire(r) => r < |s.runs| && s.runs[r].task.Waiting? && s.runs[r].lock == Free
    case TaskLoad(r) => r < |s.runs| && s.runs[r].task.Holding?
    case TaskWrite(r) => r < |s.runs| && s.runs[r].task.Writing?
    case TaskPublish(r) => r < |s.runs| && s.runs[r].task.Publishing?
    case TaskClose(r) => r < |s.runs| && s.runs[r].task.Closing?
    case TaskClean(r) => r < |s.runs| && s.runs[r].task.Sleeping? && s.mapLock == None
  }

  /** After `stop_all` has dealt with one run: the next one, or the drain loop. */
  function Advance(scope: Scope): Call
    requires scope.All?
  {
    if scope.i + 1 < |scope.runs| then Stopping(All(scope.runs, scope.i + 1), Looking) else Draining(scope.runs)
  }

  /** Remove the thread's entry when it still is this very run. */
  function Forget(registry: map<ThreadId, RunId>, t: ThreadId, r: RunId): map<ThreadId, RunId> {
    if t in registry && registry[t] == r then registry - {t} else registry
  }

  /** A hard abort: the task ends wherever it stands and drops its lock. */
  function Abort(run: Run): Run {
    run.(task := Gone, lock := if run.lock == ByTask then Free else run.lock)
  }

  /** Where the task goes on after a status write. */
  function AfterWrite(inner: bool): TaskPc {
    if inner then Wrapping else Closing
  }

  /** A run that is not Running is left alone. */
  function ReadStatus(s: State, c: CallId): State
    requires StopAt(s, c, Looking)
  {
    var scope := s.calls[c].scope;
    if s.runs[scope.Target()].status == Running then s.SetCall(c, Stopping(scope, Cancelling))
    else if scope.One? then s.SetCall(c, Done).(mapLock := None)
    else s.SetCall(c, Advance(scope))
  }

  /** `stop` spawns a reaper for its run and lets go of the map; `stop_all` goes on to the next run. */
  function PublishStop(s: State, c: CallId): State
    requires StopAt(s, c, Written)
  {
    var scope := s.calls[c].scope;
    var r := scope.Target();
    var p := Publish(s, r);
    if scope.One?
    then p.SetCall(c, Done).(calls := p.calls[c := Done] + [Reaping(r)], mapLock := None)
    else p.SetCall(c, Advance(scope))
  }

  /** A step of a run's task. */
  function DoTask(s: State, e: Step): State
    requires Enabled(s, e)
  {
    match e
    case InnerComplete(r) => s.SetTask(r, Waiting(Completed, true))
    case TaskReturn(r, error) => s.SetRun(r, s.runs[r].(task := Returned(error), taskDone := true))
    case TaskPanic(r) => s.SetTask(r, Gone)
    case TaskCheck(r) =>
      s.SetTask(r,
        if s.runs[r].cancelled then Closing
        else if s.runs[r].task.error.None? then Waiting(Completed, false)
        else Failing(s.runs[r].task.error.value))
    case TaskErrorCheck(r) =>
      s.SetTask(r, if s.runs[r].cancelled then Waiting(Failed, false) else Recording(s.runs[r].task.message))
    case TaskRecord(r) =>
      s.SetRun(r, s.runs[r].(error := Some(s.runs[r].task.message), task := Waiting(Failed, false)))
    case TaskAcquire(r) =>
      var pc := s.runs[r].task;
      s.SetRun(r, s.runs[r].(lock := ByTask, task := Holding(pc.target, pc.inner)))
    case TaskLoad(r) =>
      var pc := s.runs[r].task;
      if s.runs[r].cancelled then s.SetRun(r, s.runs[r].(lock := Free, task := AfterWrite(pc.inner)))
      else s.SetTask(r, Writing(pc.target, pc.inner))
    case TaskWrite(r) =>
      var pc := s.runs[r].task;
      s.SetRun(r, s.runs[r].Write(pc.target).(task := Publishing(pc.target, pc.inner)))
    case TaskPublish(r) => Publish(s, r).SetTask(r, AfterWrite(s.runs[r].task.inner))
    case TaskClose(r) => s.SetTask(r, Sleeping)
    case TaskClean(r) => s.SetTask(r, Gone).(registry := Forget(s.registry, s.runs[r].thread, r))
    case _ => s
  }

  function DropCallAt(s: State, c: CallId): State
    requires Enabled(s, DropCall(c))
  {
    var k := s.calls[c];
    var t := s.SetCall(c, Done).(mapLock := if k.HoldsMap() then None else s.mapLock);
    if k.Stopping? && k.phase.Written? then t.SetRun(k.scope.Target(), t.runs[k.scope.Target()].Released()) else t
  }

  function Do(s: State, e: Step): State
    requires Enabled(s, e)
  {
    match e
    case Arrive(k) => s.(calls := s.calls + [k])
    case StartLock(c) => s.SetCall(c, StartLocked(s.calls[c].thread)).(mapLock := Some(c))
    case StartRead(c) =>
      var t := s.calls[c].thread;
      if t in s.registry && s.runs[s.registry[t]].status == Running
      then s.SetCall(c, Done).(mapLock := None)
      else s.SetCall(c, StartClear(t))
    case StartInsert(c) =>
      var t := s.calls[c].thread;
      var r := |s.runs|;
      s.SetCall(c, Done).(
        runs := s.runs + [Run(t, Running, None, false, false, Free, Working, false, false, [Running])],
        registry := s.registry[t := r],
        feed := s.feed + [Event(r, Running, None)],
        mapLock := None)
    case StopLock(c) =>
      var t := s.calls[c].thread;
      if t !in s.registry then s.SetCall(c, Done)
      else s.SetCall(c, Stopping(One(s.registry[t]), Looking)).(mapLock := Some(c))
    case AllSnapshot(c, order) =>
      s.SetCall(c, if order == [] then Draining([]) else Stopping(All(order, 0), Looking))
    case StopRead(c) => ReadStatus(s, c)
    case StopCancel(c) =>
      var scope := s.calls[c].scope;
      var r := scope.Target();
      s.SetCall(c, Stopping(scope, Queuing)).SetRun(r, s.runs[r].(cancelled := true))
    case StopAcquire(c) =>
      var scope := s.calls[c].scope;
      var r := scope.Target();
      s.SetCall(c, Stopping(scope, Locked)).SetRun(r, s.runs[r].(lock := ByCall(c)))
    case StopWrite(c) =>
      var scope := s.calls[c].scope;
      var r := scope.Target();
      s.SetCall(c, Stopping(scope, Written)).SetRun(r, s.runs[r].Write(Stopped))
    case StopPublish(c) => PublishStop(s, c)
    case ReaperAbort(c) =>
      var r := s.calls[c].run;
      s.SetCall(c, Tail(r)).SetRun(r, Abort(s.runs[r]))
    case AbortStraggler(c, r) => s.SetRun(r, Abort(s.runs[r]))
    case DrainEnd(c) => s.SetCall(c, Done)
    case TailClean(c) =>
      var r := s.calls[c].run;
      s.SetCall(c, Done).(registry := Forget(s.registry, s.runs[r].thread, r))
    case DropCall(c) => DropCallAt(s, c)
    case _ => DoTask(s, e)
  }

  /** Broadcast a changed status and release the status lock. */
  function Publish(s: State, r: RunId): State
    requires r < |s.runs|
  {
    var run := s.runs[r];
    var error := if run.status == Failed then run.error else None;
    s.SetRun(r, run.(lock := Free, unpublished := false)).(
      feed := if run.unpublished then s.feed + [Event(r, run.status, error)] else s.feed)
  }

  // ---- what every run and every call keeps ----

  /** Running, then at most one of Completed and Failed, then at most one Stopped. */
  predicate ProperHistory(h: seq<Status>) {
    && 1 <= |h| <= 3 && h[0] == Running
    && (|h| >= 2 ==> h[1] == Completed || h[1] == Failed || (h[1] == Stopped && |h| == 2))
    && (|h| == 3 ==> h[2] == Stopped)
  }

  /** The statuses the task's own write can find. */
  predicate TaskFits(run: Run) {
    match run.task
    case Working => run.status in {Running, Stopped}
    case Failing(_) => run.status in {Running, Stopped}
    case Recording(_) => run.status in {Running, Stopped}
    case Waiting(t, inner) => Pending(run, t, inner)
    case Holding(t, inner) => Pending(run, t, inner)
    case Writing(t, inner) => Pending(run, t, inner) && run.status != Stopped && (t == Failed ==> run.error.Some?)
    case Publishing(t, inner) => t in {Completed, Failed} && (inner ==> t == Completed) && run.status == t && (t == Failed ==> run.error.Some?)
    case Returned(e) => run.taskDone && (run.status in {Running, Stopped} || (run.status == Completed && e == None))
    case Wrapping => run.status in {Running, Completed, Stopped} && (run.status == Running ==> run.cancelled)
    case Closing => run.status == Running ==> run.cancelled
    case Sleeping => run.status == Running ==> run.cancelled
    case Gone => true
  }

  predicate Pending(run: Run, target: Status, inner: bool) {
    && target in {Completed, Failed}
    && (target == Failed ==> !inner && run.status in {Running, Stopped} && (run.error.Some? || run.cancelled))
    && (target == Completed ==> run.status in {Running, Stopped} || (run.status == Completed && !inner))
  }

  predicate RunOk(run: Run) {
    && ProperHistory(run.history) && run.history[|run.history| - 1] == run.status
    && (run.status == Stopped ==> run.cancelled)
    && (run.lock == ByTask <==> run.task.InLock())
    && (run.unpublished ==> run.lock != Free && (run.lock == ByTask ==> run.task.Publishing?))
    && (run.missed ==> run.status == Stopped && !run.unpublished)
    && TaskFits(run)
  }

  /** What a call relies on about the runs it works on. */
  predicate CallOk(s: State, c: CallId)
    requires c < |s.calls|
  {
    match s.calls[c]
    case Stopping(scope, phase) =>
      && scope.Sane() && scope.Target() < |s.runs|
      && (phase.PastCancel() ==> s.runs[scope.Target()].cancelled)
      && (phase.InLock() ==> s.runs[scope.Target()].lock == ByCall(c))
      && (phase.Locked? ==> !s.runs[scope.Target()].unpublished)
      && (phase.Written? ==> s.runs[scope.Target()].status == Stopped)
      && (scope.All? ==> Refs(s, scope.runs) && forall k :: 0 <= k < scope.i ==> Settled(s.runs[scope.runs[k]]))
    case Draining(runs) => Refs(s, runs) && forall k :: 0 <= k < |runs| ==> Settled(s.runs[runs[k]])
    case Reaping(r) => r < |s.runs| && s.runs[r].status == Stopped
    case Tail(r) => r < |s.runs| && s.runs[r].status == Stopped
    case _ => true
  }

  predicate Refs(s: State, runs: seq<RunId>) {
    forall k :: 0 <= k < |runs| ==> runs[k] < |s.runs|
  }

  /** Not running any more, and no status change of its task is waiting to be broadcast. */
  predicate Settled(run: Run) {
    run.status != Running && !(run.unpublished && run.lock == ByTask)
  }

  /** A status lock held by a call is held by one that is inside it on this run. */
  predicate LockOk(s: State, r: RunId)
    requires r < |s.runs|
  {
    s.runs[r].lock.ByCall? ==>
      var c := s.runs[r].lock.call;
      && c < |s.calls| && s.calls[c].Stopping? && s.calls[c].phase.InLock()
      && s.calls[c].scope.Sane() && s.calls[c].scope.Target() == r
  }

  function EventsOf(feed: seq<Event>, r: RunId): seq<Event> {
    if feed == [] then []
    else EventsOf(feed[..|feed| - 1], r) + (if feed[|feed| - 1].run == r then [feed[|feed| - 1]] else [])
  }

  function Statuses(events: seq<Event>): (h: seq<Status>)
    ensures |h| == |events|
  {
    seq(|events|, i requires 0 <= i < |events| => events[i].status)
  }

  /** What subscribers have been told: the history, up to a change being broadcast or one that never will be. */
  predicate EventsOk(s: State, r: RunId)
    requires r < |s.runs|
  {
    var h := s.runs[r].history;
    h != [] && Statuses(EventsOf(s.feed, r)) == if s.runs[r].unpublished || s.runs[r].missed then h[..|h| - 1] else h
  }

  predicate FeedOk(s: State) {
    forall i :: 0 <= i < |s.feed| ==>
      s.feed[i].run < |s.runs| && (s.feed[i].status == Failed ==> s.feed[i].error.Some?)
  }

  predicate RegistryOk(s: State) {
    && (forall t :: t in s.registry ==> s.registry[t] < |s.runs| && s.runs[s.registry[t]].thread == t)
    && (forall r :: 0 <= r < |s.runs| && s.runs[r].Live() ==>
          s.runs[r].thread in s.registry && s.registry[s.runs[r].thread] == r)
  }

  predicate MapLockOk(s: State) {
    && (s.mapLock.Some? ==> s.mapLock.value < |s.calls| && s.calls[s.mapLock.value].HoldsMap())
    && (forall c :: 0 <= c < |s.calls| && s.calls[c].HoldsMap() ==> s.mapLock == Some(c))
    && (forall c :: 0 <= c < |s.calls| && s.calls[c].StartClear? && s.calls[c].thread in s.registry ==>
          s.registry[s.calls[c].thread] < |s.runs| && s.runs[s.registry[s.calls[c].thread]].status != Running)
  }

  ghost predicate Inv(s: State) {
    && (forall r :: 0 <= r < |s.runs| ==> RunOk(s.runs[r]) && LockOk(s, r) && EventsOk(s, r))
    && (forall c :: 0 <= c < |s.calls| ==> CallOk(s, c))
    && FeedOk(s) && RegistryOk(s) && MapLockOk(s)
  }

  // ---- every step keeps the invariant ----

  /** A run only moves forward, and calls other than `c` keep the status lock they hold on it. */
  predicate Forward(a: Run, b: Run, c: CallId) {
    && b.thread == a.thread
    && (a.cancelled ==> b.cancelled)
    && (b.Live() ==> a.Live())
    && (a.status != Running ==> b.status != Running) && (a.status == Stopped ==> b.status == Stopped)
    && (Settled(a) ==> Settled(b))
    && (a.lock.ByCall? && a.lock.call != c ==> b.lock == a.lock && b.unpublished == a.unpublished)
    && (b.lock.ByCall? && b.lock.call != c ==> b.lock == a.lock)
  }

  /** A call does not notice another party's step on a run. */
  lemma CallKept(s: State, t: State, r: RunId, b: Run, c: CallId, d: CallId)
    requires r < |s.runs| && t.runs == s.runs[r := b] && Forward(s.runs[r], b, c)
    requires d < |s.calls| && d < |t.calls| && d != c && t.calls[d] == s.calls[d]
    requires CallOk(s, d)
    ensures CallOk(t, d)
  {
  }

  lemma RegistryKept(s: State, t: State, r: RunId, b: Run, c: CallId)
    requires r < |s.runs| && t.runs == s.runs[r := b] && Forward(s.runs[r], b, c)
    requires t.registry == s.registry && RegistryOk(s)
    ensures RegistryOk(t)
  {
  }

  /** The status locks of all runs, when call `c` worked on run `r` at most. */
  lemma LockKept(s: State, t: State, r: RunId, b: Run, c: CallId, q: RunId)
    requires r < |s.runs| && t.runs == s.runs[r := b] && q < |s.runs| && LockOk(s, q) && (q == r ==> LockOk(t, r))
    requires |t.calls| >= |s.calls| && forall d :: 0 <= d < |s.calls| && d != c ==> t.calls[d] == s.calls[d]
    requires c < |s.calls| && s.calls[c].Stopping? && s.calls[c].phase.InLock() && s.calls[c].scope.Sane() ==>
               s.calls[c].scope.Target() == r
    ensures LockOk(t, q)
  {
  }

  /** The map lock, when call `c` becomes `k` and holds the lock before or after, or never. */
  lemma MapLockStep(s: State, t: State, c: CallId, k: Call)
    requires MapLockOk(s) && c < |s.calls| && t.registry == s.registry
    requires |t.runs| >= |s.runs| && forall q :: 0 <= q < |s.runs| && s.runs[q].status != Running ==> t.runs[q].status != Running
    requires |t.calls| >= |s.calls| && t.calls[..|s.calls|] == s.calls[c := k]
    requires forall d :: |s.calls| <= d < |t.calls| ==> !t.calls[d].HoldsMap()
    requires || (t.mapLock == s.mapLock && k.HoldsMap() == s.calls[c].HoldsMap())
             || (t.mapLock == Some(c) && s.mapLock == None && k.HoldsMap())
             || (t.mapLock == None && s.calls[c].HoldsMap() && !k.HoldsMap())
    requires k.StartClear? && k.thread in s.registry ==>
               s.registry[k.thread] < |s.runs| && s.runs[s.registry[k.thread]].status != Running
    ensures MapLockOk(t)
  {
    forall d | 0 <= d < |s.calls| ensures t.calls[d] == if d == c then k else s.calls[d] {
      assert t.calls[d] == t.calls[..|s.calls|][d];
    }
  }

  lemma MapLockKept(s: State, t: State, r: RunId, b: Run, c: CallId)
    requires r < |s.runs| && t.runs == s.runs[r := b] && Forward(s.runs[r], b, c)
    requires t.calls == s.calls && t.registry == s.registry && t.mapLock == s.mapLock && MapLockOk(s)
    ensures MapLockOk(t)
  {
  }

  /** A step of run `r` alone, with at most its own event broadcast. */
  lemma RunStep(s: State, r: RunId, b: Run, feed: seq<Event>)
    requires Inv(s) && r < |s.runs| && RunOk(b) && Forward(s.runs[r], b, |s.calls|)
    requires b.lock.ByCall? ==> b.lock == s.runs[r].lock
    requires var t := s.SetRun(r, b).(feed := feed); FeedOk(t) && EventsOk(t, r)
    requires forall q :: q != r ==> EventsOf(feed, q) == EventsOf(s.feed, q)
    ensures Inv(s.SetRun(r, b).(feed := feed))
  {
    hide RunOk;
    hide EventsOf;
    hide Statuses;
    hide CallOk;
    hide Forward;
    hide RegistryOk;
    hide MapLockOk;
    var t := s.SetRun(r, b).(feed := feed);
    RegistryKept(s, t, r, b, |s.calls|);
    MapLockKept(s, t, r, b, |s.calls|);
    forall d | 0 <= d < |t.calls| ensures CallOk(t, d) {
      CallKept(s, t, r, b, |s.calls|, d);
    }
    forall q | 0 <= q < |t.runs| ensures RunOk(t.runs[q]) && LockOk(t, q) && EventsOk(t, q) {
      LockKept(s, t, r, b, |s.calls|, q);
    }
  }

  /** A step of call `c` on the run `r` it works on, perhaps spawning calls. */
  lemma CallStep(s: State, t: State, c: CallId, r: RunId, b: Run)
    requires Inv(s) && c < |s.calls| && r < |s.runs|
    requires t.runs == s.runs[r := b] && t.registry == s.registry && RunOk(b) && Forward(s.runs[r], b, c)
    requires |t.calls| >= |s.calls| && forall d :: 0 <= d < |s.calls| && d != c ==> t.calls[d] == s.calls[d]
    requires forall d :: d == c || |s.calls| <= d < |t.calls| ==> CallOk(t, d)
    requires s.calls[c].Stopping? && s.calls[c].phase.InLock() && s.calls[c].scope.Sane() ==> s.calls[c].scope.Target() == r
    requires LockOk(t, r) && FeedOk(t) && EventsOk(t, r) && MapLockOk(t)
    requires forall q :: q != r ==> EventsOf(t.feed, q) == EventsOf(s.feed, q)
    ensures Inv(t)
  {
    hide RunOk;
    hide EventsOf;
    hide Statuses;
    hide CallOk;
    hide Forward;
    hide RegistryOk;
    hide MapLockOk;
    hide LockOk;
    RegistryKept(s, t, r, b, c);
    forall d | 0 <= d < |t.calls| ensures CallOk(t, d) {
      if d < |s.calls| && d != c {
        CallKept(s, t, r, b, c, d);
      }
    }
    forall q | 0 <= q < |t.runs| ensures RunOk(t.runs[q]) && LockOk(t, q) && EventsOk(t, q) {
      LockKept(s, t, r, b, c, q);
    }
  }

  // ---- events ----

  lemma EventsAppend(feed: seq<Event>, e: Event, q: RunId)
    ensures EventsOf(feed + [e], q) == EventsOf(feed, q) + (if e.run == q then [e] else [])
  {
    assert (feed + [e])[..|feed|] == feed;
  }

  /** Broadcasting a run's pending change completes what subscribers know. */
  lemma Published(s: State, r: RunId)
    requires Inv(s) && r < |s.runs|
    requires s.runs[r].unpublished && s.runs[r].status == Failed ==> s.runs[r].error.Some?
    ensures var t := Publish(s, r);
            && t == s.SetRun(r, t.runs[r]).(feed := t.feed) && FeedOk(t) && EventsOk(t, r)
            && t.runs[r] == s.runs[r].(lock := Free, unpublished := false)
            && forall q :: q != r ==> EventsOf(t.feed, q) == EventsOf(s.feed, q)
  {
    hide RunOk;
    hide CallOk;
    hide EventsOf;
    hide LockOk;
    hide MapLockOk;
    hide RegistryOk;
    var a, t := s.runs[r], Publish(s, r);
    assert EventsOk(s, r) && RunOk(a);
    PendingIsNotMissed(a);
    if a.unpublished {
      var e := t.feed[|t.feed| - 1];
      assert t.feed == s.feed + [e];
      forall q ensures EventsOf(t.feed, q) == EventsOf(s.feed, q) + (if e.run == q then [e] else []) {
        EventsAppend(s.feed, e, q);
      }
      LastStatus(a);
      var h := a.history;
      var told := EventsOf(s.feed, r);
      assert Statuses(told + [e]) == Statuses(told) + [e.status];
      assert h[..|h| - 1] + [a.status] == h;
      forall q | q != r ensures EventsOf(t.feed, q) == EventsOf(s.feed, q) {
        assert EventsOf(s.feed, q) + [] == EventsOf(s.feed, q);
      }
    }
  }

  lemma PendingIsNotMissed(a: Run)
    requires RunOk(a)
    ensures !(a.unpublished && a.missed)
  {
  }

  lemma LastStatus(a: Run)
    requires RunOk(a)
    ensures a.history != [] && a.history[|a.history| - 1] == a.status
  {
  }

  // ---- the steps of a task ----

  /** The task steps that leave status, flag and history alone, as a change of the run itself. */
  function QuietMove(a: Run, e: Step): Run {
    match e
    case InnerComplete(_) => a.(task := Waiting(Completed, true))
    case TaskReturn(_, error) => a.(task := Returned(error), taskDone := true)
    case TaskPanic(_) => a.(task := Gone)
    case TaskCheck(_) =>
      if !a.task.Returned? then a
      else a.(task := if a.cancelled then Closing
                      else if a.task.error.None? then Waiting(Completed, false) else Failing(a.task.error.value))
    case TaskErrorCheck(_) =>
      if !a.task.Failing? then a
      else a.(task := if a.cancelled then Waiting(Failed, false) else Recording(a.task.message))
    case TaskRecord(_) =>
      if !a.task.Recording? then a else a.(error := Some(a.task.message), task := Waiting(Failed, false))
    case TaskAcquire(_) =>
      if !a.task.Waiting? then a else a.(lock := ByTask, task := Holding(a.task.target, a.task.inner))
    case TaskLoad(_) =>
      if !a.task.Holding? then a
      else if a.cancelled then a.(lock := Free, task := AfterWrite(a.task.inner))
      else a.(task := Writing(a.task.target, a.task.inner))
    case TaskClose(_) => a.(task := Sleeping)
    case _ => a
  }

  predicate QuietStep(e: Step) {
    e.InnerComplete? || e.TaskReturn? || e.TaskPanic? || e.TaskCheck? || e.TaskErrorCheck? || e.TaskRecord?
    || e.TaskAcquire? || e.TaskLoad? || e.TaskClose?
  }

  lemma QuietIsDo(s: State, e: Step)
    requires QuietStep(e) && Enabled(s, e)
    ensures e.r < |s.runs| && Do(s, e) == s.SetRun(e.r, QuietMove(s.runs[e.r], e)).(feed := s.feed)
  {
  }

  lemma QuietMoveOk(s: State, e: Step)
    requires QuietStep(e) && Enabled(s, e) && RunOk(s.runs[e.r])
    ensures RunOk(QuietMove(s.runs[e.r], e))
  {
    hide ProperHistory;
  }

  lemma QuietMoveForward(s: State, e: Step, c: CallId)
    requires QuietStep(e) && Enabled(s, e) && RunOk(s.runs[e.r])
    ensures var a, b := s.runs[e.r], QuietMove(s.runs[e.r], e);
            && Forward(a, b, c) && (b.lock.ByCall? ==> b.lock == a.lock)
            && b.history == a.history && b.unpublished == a.unpublished && b.missed == a.missed
  {
    hide ProperHistory;
  }

  lemma QuietStepInv(s: State, e: Step)
    requires Inv(s) && QuietStep(e) && Enabled(s, e)
    ensures Inv(Do(s, e))
  {
    hide Do;
    hide Enabled;
    hide QuietMove;
    hide RunOk;
    hide CallOk;
    hide Forward;
    hide EventsOf;
    hide Statuses;
    QuietIsDo(s, e);
    assert RunOk(s.runs[e.r]) && EventsOk(s, e.r);
    QuietMoveOk(s, e);
    QuietMoveForward(s, e, |s.calls|);
    RunStep(s, e.r, QuietMove(s.runs[e.r], e), s.feed);
  }

  lemma TaskWriteInv(s: State, r: RunId)
    requires Inv(s) && Enabled(s, TaskWrite(r))
    ensures Inv(Do(s, TaskWrite(r)))
  {
    hide CallOk;
    hide EventsOf;
    hide Statuses;
    hide RunOk;
    hide Forward;
    var a := s.runs[r];
    assert RunOk(a) && EventsOk(s, r);
    var b := a.Write(a.task.target).(task := Publishing(a.task.target, a.task.inner));
    WriteOk(a);
    assert Do(s, TaskWrite(r)) == s.SetRun(r, b).(feed := s.feed);
    RunStep(s, r, b, s.feed);
  }

  /** The task's write turns Running into its target, or finds the target already there. */
  lemma WriteOk(a: Run)
    requires RunOk(a) && a.task.Writing?
    ensures !a.unpublished && a.status in {Running, a.task.target}
    ensures var b := a.Write(a.task.target).(task := Publishing(a.task.target, a.task.inner));
            && RunOk(b) && (b.unpublished ==> b.history[..|b.history| - 1] == a.history)
            && b.lock == ByTask && b.thread == a.thread && b.cancelled == a.cancelled
            && (b.unpublished <==> a.status == Running) && (!b.unpublished ==> b.history == a.history)
            && b.history != [] && !a.missed && !b.missed && forall c :: Forward(a, b, c)
  {
  }

  /** The task leaves the lock with its status broadcast. */
  lemma PublishOk(a: Run)
    requires RunOk(a) && a.task.Publishing?
    ensures a.unpublished && a.status == Failed ==> a.error.Some?
    ensures var b := a.(lock := Free, unpublished := false, task := AfterWrite(a.task.inner));
            RunOk(b) && forall c :: Forward(a, b, c)
  {
    hide ProperHistory;
  }

  lemma TaskPublishInv(s: State, r: RunId)
    requires Inv(s) && Enabled(s, TaskPublish(r))
    ensures Inv(Do(s, TaskPublish(r)))
  {
    hide CallOk;
    hide EventsOf;
    hide Statuses;
    hide RunOk;
    hide Forward;
    hide LockOk;
    hide MapLockOk;
    hide RegistryOk;
    var a := s.runs[r];
    assert RunOk(a);
    PublishOk(a);
    Published(s, r);
    var t := Publish(s, r);
    var b := t.runs[r].(task := AfterWrite(a.task.inner));
    assert Do(s, TaskPublish(r)) == s.SetRun(r, b).(feed := t.feed);
    RunStep(s, r, b, t.feed);
  }

  // ---- removals, aborts, and a new run ----

  /** A run that is not live may lose its registry entry; its task may end. */
  lemma ForgetInv(s: State, r: RunId)
    requires Inv(s) && r < |s.runs| && !s.runs[r].Live() && s.mapLock == None
    ensures Inv(s.(registry := Forget(s.registry, s.runs[r].thread, r)))
  {
    hide RunOk;
    hide EventsOf;
    hide Statuses;
    var t := s.(registry := Forget(s.registry, s.runs[r].thread, r));
    forall d | 0 <= d < |t.calls| ensures CallOk(t, d) {
      assert CallOk(s, d);
    }
    forall q | 0 <= q < |t.runs| ensures RunOk(t.runs[q]) && LockOk(t, q) && EventsOk(t, q) {
      assert RunOk(s.runs[q]) && LockOk(s, q) && EventsOk(s, q);
    }
  }

  lemma GoneOk(a: Run, c: CallId)
    requires RunOk(a) && !(a.unpublished && a.lock == ByTask)
    ensures var b := Abort(a);
            && RunOk(b) && Forward(a, b, c) && (b.lock.ByCall? ==> b.lock == a.lock)
            && b.history == a.history && b.unpublished == a.unpublished && b.missed == a.missed
  {
    hide ProperHistory;
  }

  lemma AbortInv(s: State, r: RunId)
    requires Inv(s) && r < |s.runs| && Settled(s.runs[r])
    ensures Inv(s.SetRun(r, Abort(s.runs[r])))
  {
    hide RunOk;
    hide CallOk;
    hide Forward;
    hide EventsOf;
    hide Statuses;
    assert RunOk(s.runs[r]) && EventsOk(s, r);
    GoneOk(s.runs[r], |s.calls|);
    RunStep(s, r, Abort(s.runs[r]), s.feed);
    assert s.SetRun(r, Abort(s.runs[r])).(feed := s.feed) == s.SetRun(r, Abort(s.runs[r]));
  }

  lemma StoppedIsSettled(a: Run)
    requires RunOk(a) && a.status == Stopped
    ensures Settled(a) && a.cancelled
  {
  }

  lemma NoEventsYet(feed: seq<Event>, r: RunId)
    requires forall i :: 0 <= i < |feed| ==> feed[i].run != r
    ensures EventsOf(feed, r) == []
  {
    if feed != [] {
      NoEventsYet(feed[..|feed| - 1], r);
    }
  }

  /** The new run is known to its subscribers and nobody holds its lock. */
  lemma NewRunOk(s: State, c: CallId)
    requires Inv(s) && Enabled(s, StartInsert(c))
    ensures var t := Do(s, StartInsert(c));
            RunOk(t.runs[|s.runs|]) && LockOk(t, |s.runs|) && EventsOk(t, |s.runs|) && FeedOk(t)
  {
    hide EventsOf;
    hide CallOk;
    hide RegistryOk;
    hide MapLockOk;
    var e := Event(|s.runs|, Running, None);
    NoEventsYet(s.feed, |s.runs|);
    EventsAppend(s.feed, e, |s.runs|);
    assert Statuses([] + [e]) == [Running];
  }

  /** Only a run that is not running is displaced, so the new one is its thread's only live run. */
  lemma NewRunRegistered(s: State, c: CallId)
    requires Inv(s) && Enabled(s, StartInsert(c))
    ensures RegistryOk(Do(s, StartInsert(c))) && MapLockOk(Do(s, StartInsert(c)))
  {
    hide EventsOk;
    hide RunOk;
    hide CallOk;
    hide LockOk;
    hide FeedOk;
  }

  lemma StartInsertInv(s: State, c: CallId)
    requires Inv(s) && Enabled(s, StartInsert(c))
    ensures Inv(Do(s, StartInsert(c)))
  {
    hide EventsOk;
    hide RunOk;
    hide LockOk;
    hide CallOk;
    hide FeedOk;
    hide RegistryOk;
    hide MapLockOk;
    NewRunOk(s, c);
    NewRunRegistered(s, c);
    StartCallsKept(s, c);
    StartRunsKept(s, c);
    assert CallOk(Do(s, StartInsert(c)), c);
  }

  lemma StartCallsKept(s: State, c: CallId)
    requires Inv(s) && Enabled(s, StartInsert(c))
    ensures forall d :: 0 <= d < |s.calls| ==> CallOk(Do(s, StartInsert(c)), d)
  {
    hide RunOk;
    hide EventsOf;
    hide Statuses;
    var t := Do(s, StartInsert(c));
    forall d | 0 <= d < |s.calls| ensures CallOk(t, d) {
      assert CallOk(s, d);
    }
  }

  lemma StartRunsKept(s: State, c: CallId)
    requires Inv(s) && Enabled(s, StartInsert(c))
    ensures var t := Do(s, StartInsert(c));
            forall q :: 0 <= q < |s.runs| ==> RunOk(t.runs[q]) && LockOk(t, q) && EventsOk(t, q)
  {
    hide RunOk;
    hide EventsOf;
    hide Statuses;
    hide CallOk;
    var t := Do(s, StartInsert(c));
    forall q | 0 <= q < |s.runs| ensures RunOk(t.runs[q]) && LockOk(t, q) && EventsOk(t, q) {
      assert RunOk(s.runs[q]) && LockOk(s, q) && EventsOk(s, q);
      EventsAppend(s.feed, Event(|s.runs|, Running, None), q);
      assert EventsOf(s.feed, q) + [] == EventsOf(s.feed, q);
    }
  }

  // ---- the steps of a call ----

  /** A step of one call that touches no run: it may take, keep or release the map lock. */
  lemma QuietCallStep(s: State, c: CallId, k: Call, m: Option<CallId>)
    requires Inv(s) && c < |s.calls|
    requires !(s.calls[c].Stopping? && s.calls[c].phase.InLock())
    requires CallOk(s.SetCall(c, k).(mapLock := m), c)
    requires || (m == s.mapLock && k.HoldsMap() == s.calls[c].HoldsMap())
             || (m == Some(c) && s.mapLock == None && k.HoldsMap())
             || (m == None && s.calls[c].HoldsMap() && !k.HoldsMap())
    requires k.StartClear? && k.thread in s.registry ==>
               s.registry[k.thread] < |s.runs| && s.runs[s.registry[k.thread]].status != Running
    ensures Inv(s.SetCall(c, k).(mapLock := m))
  {
    hide RunOk;
    hide EventsOf;
    hide Statuses;
    hide MapLockOk;
    var t := s.SetCall(c, k).(mapLock := m);
    MapLockStep(s, t, c, k);
    forall d | 0 <= d < |t.calls| ensures CallOk(t, d) {
      assert d != c ==> CallOk(s, d);
    }
    forall q | 0 <= q < |t.runs| ensures RunOk(t.runs[q]) && LockOk(t, q) && EventsOk(t, q) {
      assert RunOk(s.runs[q]) && LockOk(s, q) && EventsOk(s, q);
    }
  }

  lemma ArriveInv(s: State, k: Call)
    requires Inv(s) && Enabled(s, Arrive(k))
    ensures Inv(Do(s, Arrive(k)))
  {
    hide RunOk;
    hide EventsOf;
    hide Statuses;
    var t := s.(calls := s.calls + [k]);
    forall d | 0 <= d < |t.calls| ensures CallOk(t, d) {
      assert d < |s.calls| ==> CallOk(s, d);
    }
    forall q | 0 <= q < |t.runs| ensures RunOk(t.runs[q]) && LockOk(t, q) && EventsOk(t, q) {
      assert RunOk(s.runs[q]) && LockOk(s, q) && EventsOk(s, q);
    }
  }

  predicate QuietCall(e: Step) {
    e.StartLock? || e.StartRead? || e.StopLock? || e.AllSnapshot? || e.StopRead? || e.DrainEnd?
  }

  lemma QuietCallOk(s: State, e: Step)
    requires Inv(s) && QuietCall(e) && Enabled(s, e)
    ensures CallOk(Do(s, e), e.c)
  {
    hide RunOk;
    hide EventsOk;
    hide LockOk;
    hide FeedOk;
    hide MapLockOk;
    assert CallOk(s, e.c);
    if e.AllSnapshot? {
      forall k | 0 <= k < |e.order| ensures e.order[k] < |s.runs| {
        assert e.order[k] in s.registry.Values;
      }
    }
  }

  lemma QuietCallInv(s: State, e: Step)
    requires Inv(s) && QuietCall(e) && Enabled(s, e)
    ensures Inv(Do(s, e))
  {
    hide RunOk;
    hide EventsOk;
    hide LockOk;
    hide CallOk;
    var t := Do(s, e);
    var k := t.calls[e.c];
    assert t == s.SetCall(e.c, k).(mapLock := t.mapLock);
    QuietCallOk(s, e);
    QuietCallStep(s, e.c, k, t.mapLock);
  }

  lemma CancelOk(a: Run, c: CallId)
    requires RunOk(a)
    ensures var b := a.(cancelled := true); RunOk(b) && Forward(a, b, c)
  {
    hide ProperHistory;
  }

  lemma TakeOk(a: Run, c: CallId)
    requires RunOk(a) && a.lock == Free
    ensures var b := a.(lock := ByCall(c)); RunOk(b) && Forward(a, b, c) && !a.unpublished
  {
    hide ProperHistory;
  }

  lemma StopCancelInv(s: State, c: CallId)
    requires Inv(s) && Enabled(s, StopCancel(c))
    ensures Inv(Do(s, StopCancel(c)))
  {
    hide EventsOf;
    hide Statuses;
    hide RunOk;
    hide Forward;
    hide RegistryOk;
    hide MapLockOk;
    var t := Do(s, StopCancel(c));
    var r := s.calls[c].scope.Target();
    assert CallOk(s, c) && RunOk(s.runs[r]) && LockOk(s, r) && EventsOk(s, r);
    CancelOk(s.runs[r], c);
    MapLockStep(s, t, c, t.calls[c]);
    CallStep(s, t, c, r, t.runs[r]);
  }

  lemma StopAcquireInv(s: State, c: CallId)
    requires Inv(s) && Enabled(s, StopAcquire(c))
    ensures Inv(Do(s, StopAcquire(c)))
  {
    hide EventsOf;
    hide Statuses;
    hide RunOk;
    hide Forward;
    hide RegistryOk;
    hide MapLockOk;
    var t := Do(s, StopAcquire(c));
    var r := s.calls[c].scope.Target();
    assert CallOk(s, c) && RunOk(s.runs[r]) && LockOk(s, r) && EventsOk(s, r);
    TakeOk(s.runs[r], c);
    MapLockStep(s, t, c, t.calls[c]);
    CallStep(s, t, c, r, t.runs[r]);
  }

  /** Stopping ends every history, whichever status it finds. */
  lemma StopOk(a: Run, c: CallId)
    requires RunOk(a) && a.cancelled && a.lock == ByCall(c) && !a.unpublished
    ensures var b := a.Write(Stopped);
            && RunOk(b) && Forward(a, b, c) && b.status == Stopped && b.lock == a.lock && b.cancelled
            && b.history != [] && (if b.unpublished then b.history[..|b.history| - 1] == a.history else b.history == a.history)
            && b.missed == a.missed && (b.unpublished ==> !b.missed)
  {
  }

  lemma StopWriteInv(s: State, c: CallId)
    requires Inv(s) && Enabled(s, StopWrite(c))
    ensures Inv(Do(s, StopWrite(c)))
  {
    hide EventsOf;
    hide Statuses;
    hide RunOk;
    hide Forward;
    var t := Do(s, StopWrite(c));
    var r := s.calls[c].scope.Target();
    assert CallOk(s, c) && RunOk(s.runs[r]) && LockOk(s, r) && EventsOk(s, r);
    StopOk(s.runs[r], c);
    MapLockStep(s, t, c, t.calls[c]);
    CallStep(s, t, c, r, t.runs[r]);
  }

  lemma ReleaseOk(a: Run, c: CallId)
    requires RunOk(a) && a.lock == ByCall(c) && a.status == Stopped
    ensures var b := a.(lock := Free, unpublished := false);
            RunOk(b) && Forward(a, b, c) && Settled(b)
  {
    hide ProperHistory;
  }

  lemma StopPublishShape(s: State, c: CallId)
    requires Inv(s) && Enabled(s, StopPublish(c))
    ensures var t, scope := Do(s, StopPublish(c)), s.calls[c].scope;
            var r := scope.Target();
            && s.runs[r].status == Stopped && s.runs[r].lock == ByCall(c) && RunOk(s.runs[r])
            && t.runs == s.runs[r := s.runs[r].(lock := Free, unpublished := false)]
            && t.registry == s.registry && t.feed == Publish(s, r).feed
            && (if scope.One? then t.calls == s.calls[c := Done] + [Reaping(r)] && t.mapLock == None
                else t.calls == s.calls[c := Advance(scope)] && t.mapLock == s.mapLock)
  {
    hide EventsOk;
    hide RunOk;
    assert CallOk(s, c);
  }

  /** After the broadcast the run is settled, which is what the reaper and the drain rely on. */
  lemma StopPublishCalls(s: State, c: CallId)
    requires Inv(s) && Enabled(s, StopPublish(c))
    ensures var t := Do(s, StopPublish(c));
            |t.calls| >= |s.calls| && forall d :: d == c || |s.calls| <= d < |t.calls| ==> CallOk(t, d)
  {
    hide EventsOk;
    hide RunOk;
    hide LockOk;
    hide Do;
    hide Publish;
    StopPublishShape(s, c);
    assert CallOk(s, c);
    ReleaseOk(s.runs[s.calls[c].scope.Target()], c);
  }

  lemma StopPublishInv(s: State, c: CallId)
    requires Inv(s) && Enabled(s, StopPublish(c))
    ensures Inv(Do(s, StopPublish(c)))
  {
    hide EventsOf;
    hide Statuses;
    hide RunOk;
    hide CallOk;
    hide Forward;
    hide Do;
    hide MapLockOk;
    hide RegistryOk;
    var t := Do(s, StopPublish(c));
    var r := s.calls[c].scope.Target();
    StopPublishShape(s, c);
    StopPublishCalls(s, c);
    ReleaseOk(s.runs[r], c);
    Published(s, r);
    assert t.calls[..|s.calls|] == s.calls[c := t.calls[c]];
    MapLockStep(s, t, c, t.calls[c]);
    CallStep(s, t, c, r, t.runs[r]);
  }

  lemma ReaperAbortInv(s: State, c: CallId)
    requires Inv(s) && Enabled(s, ReaperAbort(c))
    ensures Inv(Do(s, ReaperAbort(c)))
  {
    hide RunOk;
    hide EventsOk;
    hide Abort;
    var r := s.calls[c].run;
    assert CallOk(s, c) && RunOk(s.runs[r]);
    StoppedIsSettled(s.runs[r]);
    AbortInv(s, r);
    var m := s.SetRun(r, Abort(s.runs[r]));
    assert Abort(s.runs[r]).status == Stopped by { AbortKeepsStatus(s.runs[r]); }
    QuietCallStep(m, c, Tail(r), m.mapLock);
  }

  /** A stop dropped behind its write leaves the run settled, and its subscribers without the last word. */
  lemma ReleasedOk(a: Run, c: CallId)
    requires RunOk(a) && a.lock == ByCall(c) && a.status == Stopped
    ensures var b := a.Released();
            && RunOk(b) && Forward(a, b, c) && b.lock == Free && b.history == a.history
            && (b.unpublished || b.missed <==> a.unpublished || a.missed)
  {
    hide ProperHistory;
  }

  lemma DropWrittenInv(s: State, c: CallId)
    requires Inv(s) && Enabled(s, DropCall(c)) && s.calls[c].Stopping? && s.calls[c].phase.Written?
    ensures Inv(Do(s, DropCall(c)))
  {
    hide EventsOf;
    hide Statuses;
    hide RunOk;
    hide Forward;
    hide RegistryOk;
    hide MapLockOk;
    var t := Do(s, DropCall(c));
    var r := s.calls[c].scope.Target();
    assert CallOk(s, c) && RunOk(s.runs[r]) && LockOk(s, r) && EventsOk(s, r);
    ReleasedOk(s.runs[r], c);
    assert t.calls[..|s.calls|] == s.calls[c := Done];
    MapLockStep(s, t, c, Done);
    CallStep(s, t, c, r, t.runs[r]);
  }

  lemma DropQuietInv(s: State, c: CallId)
    requires Inv(s) && Enabled(s, DropCall(c)) && !(s.calls[c].Stopping? && s.calls[c].phase.Written?)
    ensures Inv(Do(s, DropCall(c)))
  {
    hide RunOk;
    hide EventsOk;
    hide LockOk;
    QuietCallStep(s, c, Done, if s.calls[c].HoldsMap() then None else s.mapLock);
  }

  lemma AbortKeepsStatus(a: Run)
    ensures Abort(a).status == a.status
  {
  }

  lemma AbortStragglerInv(s: State, c: CallId, r: RunId)
    requires Inv(s) && Enabled(s, AbortStraggler(c, r))
    ensures Inv(Do(s, AbortStraggler(c, r)))
  {
    hide RunOk;
    hide EventsOk;
    hide Abort;
    assert CallOk(s, c);
    AbortInv(s, r);
  }

  lemma TailCleanInv(s: State, c: CallId)
    requires Inv(s) && Enabled(s, TailClean(c))
    ensures Inv(Do(s, TailClean(c)))
  {
    hide RunOk;
    hide EventsOk;
    hide Forget;
    var r := s.calls[c].run;
    assert CallOk(s, c);
    ForgetInv(s, r);
    var m := s.(registry := Forget(s.registry, s.runs[r].thread, r));
    QuietCallStep(m, c, Done, m.mapLock);
  }

  lemma TaskCleanInv(s: State, r: RunId)
    requires Inv(s) && Enabled(s, TaskClean(r))
    ensures Inv(Do(s, TaskClean(r)))
  {
    hide EventsOf;
    hide Statuses;
    hide CallOk;
    hide Forget;
    hide ProperHistory;
    var a := s.runs[r];
    assert RunOk(a);
    ForgetInv(s, r);
    var m := s.(registry := Forget(s.registry, a.thread, r));
    assert EventsOk(m, r);
    assert a.(task := Gone) == Abort(a);
    GoneOk(a, |m.calls|);
    RunStep(m, r, a.(task := Gone), m.feed);
  }

  lemma DropInv(s: State, c: CallId)
    requires Inv(s) && Enabled(s, DropCall(c))
    ensures Inv(Do(s, DropCall(c)))
  {
    hide Inv;
    hide Do;
    if s.calls[c].Stopping? && s.calls[c].phase.Written? { DropWrittenInv(s, c); } else { DropQuietInv(s, c); }
  }

  /** Every step keeps the invariant. */
  lemma StepInv(s: State, e: Step)
    requires Inv(s) && Enabled(s, e)
    ensures Inv(Do(s, e))
  {
    hide Inv;
    hide Enabled;
    hide Do;
    match e {
      case Arrive(k) => ArriveInv(s, k);
      case StartInsert(c) => StartInsertInv(s, c);
      case StopCancel(c) => StopCancelInv(s, c);
      case StopAcquire(c) => StopAcquireInv(s, c);
      case StopWrite(c) => StopWriteInv(s, c);
      case StopPublish(c) => StopPublishInv(s, c);
      case ReaperAbort(c) => ReaperAbortInv(s, c);
      case AbortStraggler(c, r) => AbortStragglerInv(s, c, r);
      case TailClean(c) => TailCleanInv(s, c);
      case DropCall(c) => DropInv(s, c);
      case TaskWrite(r) => TaskWriteInv(s, r);
      case TaskPublish(r) => TaskPublishInv(s, r);
      case TaskClean(r) => TaskCleanInv(s, r);
      case _ =>
        if QuietCall(e) {
          QuietCallInv(s, e);
        } else {
          QuietStepInv(s, e);
        }
    }
  }

  // ---- whole executions ----

  /** The states an execution passes through, from the empty registry. */
  ghost predicate Execution(states: seq<State>, steps: seq<Step>) {
    && |states| == |steps| + 1 && states[0] == Init
    && forall i :: 0 <= i < |steps| ==> Enabled(states[i], steps[i]) && states[i + 1] == Do(states[i], steps[i])
  }

  lemma {:induction false} ExecutionInv(states: seq<State>, steps: seq<Step>, n: nat)
    requires Execution(states, steps) && n < |states|
    ensures Inv(states[n])
  {
    hide Enabled;
    hide Do;
    if n == 0 {
      assert Inv(Init);
    } else {
      ExecutionInv(states, steps, n - 1);
      StepInv(states[n - 1], steps[n - 1]);
    }
  }

  /** A thread has at most one run that is Running and not cancelled, and the registry knows it. */
  lemma OneLiveRunPerThread(states: seq<State>, steps: seq<Step>, n: nat, q: RunId, r: RunId)
    requires Execution(states, steps) && n < |states|
    requires q < |states[n].runs| && r < |states[n].runs|
    requires states[n].runs[q].Live() && states[n].runs[r].Live() && states[n].runs[q].thread == states[n].runs[r].thread
    ensures q == r && states[n].runs[r].thread in states[n].registry
    ensures states[n].registry[states[n].runs[r].thread] == r
  {
    ExecutionInv(states, steps, n);
  }

  lemma OthersKeepRegistry(s: State, e: Step)
    requires Enabled(s, e) && !e.TaskClean? && !e.TailClean? && !e.StartInsert?
    ensures Do(s, e).registry == s.registry
  {
  }

  lemma CleanupsForget(s: State, e: Step)
    requires Enabled(s, e) && (e.TaskClean? || e.TailClean?)
    ensures var r := if e.TaskClean? then e.r else s.calls[e.c].run;
            r < |s.runs| && Do(s, e).registry == Forget(s.registry, s.runs[r].thread, r)
  {
  }

  lemma InsertRegisters(s: State, e: Step)
    requires Enabled(s, e) && e.StartInsert?
    ensures Do(s, e).registry == s.registry[s.calls[e.c].thread := |s.runs|]
  {
  }

  /** Nothing but its own cleanup, or a newer run of its thread, takes a run out of the registry. */
  lemma RegistryStep(s: State, e: Step, t: ThreadId)
    requires Inv(s) && Enabled(s, e) && t in s.registry
    ensures var r, m := s.registry[t], Do(s, e).registry;
            || (t in m && m[t] == r)
            || (!s.runs[r].Live() && t !in m && (e == TaskClean(r) || (e.TailClean? && s.calls[e.c].run == r)))
            || (s.runs[r].status != Running && t in m && m[t] == |s.runs| && e.StartInsert?)
  {
    hide Do;
    hide EventsOk;
    hide LockOk;
    hide ProperHistory;
    if e.TaskClean? {
      CleanupsForget(s, e);
      assert RunOk(s.runs[e.r]);
    } else if e.TailClean? {
      CleanupsForget(s, e);
      assert CallOk(s, e.c) && RunOk(s.runs[s.calls[e.c].run]);
    } else if e.StartInsert? {
      InsertRegisters(s, e);
      assert CallOk(s, e.c);
    } else {
      OthersKeepRegistry(s, e);
    }
  }

  /** What a step may do to one run's status: move it forward by one entry of its history. */
  predicate StatusMove(a: Run, b: Run, stopped: bool) {
    && a.history <= b.history && |b.history| <= |a.history| + 1
    && (a.cancelled ==> b.cancelled)
    && (a.status == Stopped ==> b.status == Stopped && b.history == a.history)
    && (a.status in {Completed, Failed} && b.status != a.status ==> b.status == Stopped && stopped)
  }

  lemma QuietStatusStep(s: State, e: Step)
    requires QuietStep(e) && Enabled(s, e) && RunOk(s.runs[e.r])
    ensures StatusMove(s.runs[e.r], Do(s, e).runs[e.r], false)
  {
    hide ProperHistory;
    hide TaskFits;
    hide Do;
    QuietIsDo(s, e);
    QuietMoveForward(s, e, 0);
  }

  lemma OwnStatusStep(s: State, e: Step)
    requires Enabled(s, e) && (e.TaskWrite? || e.TaskPublish? || e.TaskClean?) && RunOk(s.runs[e.r])
    ensures StatusMove(s.runs[e.r], Do(s, e).runs[e.r], false)
  {
    hide ProperHistory;
    hide TaskFits;
    if e.TaskWrite? {
      WriteOk(s.runs[e.r]);
    }
  }

  lemma OthersStatusStep(s: State, e: Step, r: RunId)
    requires Enabled(s, e) && (QuietStep(e) || e.TaskWrite? || e.TaskPublish? || e.TaskClean?)
    requires r < |s.runs| && r != e.r
    ensures Do(s, e).runs[r] == s.runs[r]
  {
  }

  lemma CallStatusStep(s: State, e: Step, r: RunId)
    requires r < |s.runs| && Enabled(s, e) && !(QuietStep(e) || e.TaskWrite? || e.TaskPublish? || e.TaskClean?)
    ensures StatusMove(s.runs[r], Do(s, e).runs[r], e.StopWrite? && s.calls[e.c].scope.Target() == r)
  {
  }

  /**
   Statuses only move forward and Stopped is final. A completed or failed run changes status only
   when a stop that had found it Running writes Stopped over it.
   */
  lemma StatusStep(s: State, e: Step, r: RunId)
    requires Inv(s) && Enabled(s, e) && r < |s.runs|
    ensures StatusMove(s.runs[r], Do(s, e).runs[r], e.StopWrite? && s.calls[e.c].scope.Target() == r)
  {
    hide Do;
    hide RunOk;
    hide EventsOk;
    hide LockOk;
    hide CallOk;
    if QuietStep(e) || e.TaskWrite? || e.TaskPublish? || e.TaskClean? {
      if r != e.r {
        OthersStatusStep(s, e, r);
      } else if QuietStep(e) {
        QuietStatusStep(s, e);
      } else {
        OwnStatusStep(s, e);
      }
    } else {
      CallStatusStep(s, e, r);
    }
  }

  // ---- what subscribers are told ----

  /** A stop is dropped between its write of Stopped over the run's status and the broadcast of it. */
  predicate DropsUntold(s: State, e: Step, r: RunId) {
    && e.DropCall? && StopAt(s, e.c, Written)
    && s.calls[e.c].scope.Target() == r && s.runs[r].unpublished
  }

  lemma MissedByDrop(s: State, c: CallId, r: RunId)
    requires Enabled(s, DropCall(c)) && r < |s.runs| == |Do(s, DropCall(c)).runs|
    ensures Do(s, DropCall(c)).runs[r].missed <==> s.runs[r].missed || DropsUntold(s, DropCall(c), r)
  {
  }

  lemma MissedByTask(s: State, e: Step, r: RunId)
    requires Enabled(s, e) && r < |DoTask(s, e).runs|
    ensures r < |s.runs| && DoTask(s, e).runs[r].missed == s.runs[r].missed
  {
  }

  lemma MissedByOther(s: State, e: Step, r: RunId)
    requires Enabled(s, e) && !e.DropCall? && r < |Do(s, e).runs|
    ensures Do(s, e).runs[r].missed <==> r < |s.runs| && s.runs[r].missed
  {
    hide DoTask;
    if Do(s, e) == DoTask(s, e) {
      MissedByTask(s, e, r);
    }
  }

  lemma MissedStep(s: State, e: Step, r: RunId)
    requires Enabled(s, e) && r < |Do(s, e).runs|
    ensures Do(s, e).runs[r].missed <==> (r < |s.runs| && s.runs[r].missed) || DropsUntold(s, e, r)
  {
    hide Enabled;
    hide Do;
    if e.DropCall? {
      RunsKeptByDrop(s, e.c);
      MissedByDrop(s, e.c, r);
    } else {
      MissedByOther(s, e, r);
    }
  }

  lemma RunsKeptByDrop(s: State, c: CallId)
    requires Enabled(s, DropCall(c))
    ensures |Do(s, DropCall(c)).runs| == |s.runs|
  {
  }

  lemma DropsKnownRun(s: State, e: Step, r: RunId)
    requires DropsUntold(s, e, r)
    ensures r < |s.runs|
  {
  }

  lemma RunsStay(s: State, e: Step)
    requires Enabled(s, e)
    ensures |s.runs| <= |Do(s, e).runs|
  {
  }

  lemma {:induction false} RunsOnlyGrow(states: seq<State>, steps: seq<Step>, i: nat, n: nat)
    requires Execution(states, steps) && i <= n < |states|
    ensures |states[i].runs| <= |states[n].runs|
  {
    hide Enabled;
    hide Do;
    if i < n {
      RunsOnlyGrow(states, steps, i, n - 1);
      RunsStay(states[n - 1], steps[n - 1]);
    }
  }

  /** Some stop of the run was dropped, before state `n`, with its change untold. */
  ghost predicate DroppedUntold(states: seq<State>, steps: seq<Step>, n: nat, r: RunId)
    requires Execution(states, steps) && n < |states|
  {
    exists i :: 0 <= i < n && DropsUntold(states[i], steps[i], r)
  }

  /** A change of status is missed exactly when a stop is dropped between its write and its broadcast. */
  lemma {:induction false} MissedExactlyWhenDropped(states: seq<State>, steps: seq<Step>, n: nat, r: RunId)
    requires Execution(states, steps) && n < |states| && r < |states[n].runs|
    ensures states[n].runs[r].missed <==> DroppedUntold(states, steps, n, r)
  {
    hide Enabled;
    hide Do;
    hide DropsUntold;
    if n > 0 {
      var s, e := states[n - 1], steps[n - 1];
      MissedStep(s, e, r);
      if r < |s.runs| {
        MissedExactlyWhenDropped(states, steps, n - 1, r);
        assert DroppedUntold(states, steps, n, r) <==>
               DroppedUntold(states, steps, n - 1, r) || DropsUntold(s, e, r);
      } else {
        forall i | 0 <= i < n ensures !DropsUntold(states[i], steps[i], r) {
          RunsOnlyGrow(states, steps, i, n - 1);
          if DropsUntold(states[i], steps[i], r) { DropsKnownRun(states[i], steps[i], r); }
        }
      }
    }
  }

  /**
   In every reachable state a run has run, then perhaps completed or failed, then perhaps been
   stopped. Whenever its status lock is free, subscribers have been told exactly that, in order, if
   and only if no stop of it was dropped between its write and its broadcast; and if one was, they
   have been told everything but the final Stopped, and never will be. While the lock is held at most
   the last change is untold. Every failure they heard of came with its error.
   */
  lemma SubscribersKnowTheHistory(states: seq<State>, steps: seq<Step>, n: nat, r: RunId)
    requires Execution(states, steps) && n < |states| && r < |states[n].runs|
    ensures var s := states[n];
            var h, told := s.runs[r].history, Statuses(EventsOf(s.feed, r));
            && ProperHistory(h) && h[|h| - 1] == s.runs[r].status
            && (s.runs[r].lock == Free ==> (told == h <==> !DroppedUntold(states, steps, n, r)))
            && (DroppedUntold(states, steps, n, r) ==> s.runs[r].status == Stopped && told == h[..|h| - 1])
            && (told == h || told == h[..|h| - 1])
            && forall i :: 0 <= i < |s.feed| && s.feed[i].status == Failed ==> s.feed[i].error.Some?
  {
    hide EventsOf;
    hide Statuses;
    hide DropsUntold;
    hide DroppedUntold;
    ExecutionInv(states, steps, n);
    MissedExactlyWhenDropped(states, steps, n, r);
    var s := states[n];
    assert RunOk(s.runs[r]) && EventsOk(s, r);
  }

  // ---- a completed run can still end up stopped ----

  ghost predicate Reachable(s: State) {
    exists states, steps :: Execution(states, steps) && states[|states| - 1] == s
  }

  lemma Play(s: State, e: Step, t: State)
    requires Reachable(s) && Enabled(s, e) && t == Do(s, e)
    ensures Reachable(t)
  {
    hide Do;
    hide Enabled;
    var states, steps :| Execution(states, steps) && states[|states| - 1] == s;
    assert Execution(states + [t], steps + [e]);
  }

  function Scene(run: Run, call: Call, m: Option<CallId>, feed: seq<Event>): State {
    State([run], map["t" := 0], m, [Done, call], feed)
  }

  const STARTED := [Event(0, Running, None)]
  const FRESH_RUN := Run("t", Running, None, false, false, Free, Working, false, false, [Running])

  lemma OneRunStarted()
    ensures Reachable(Scene(FRESH_RUN, StopWaiting("t"), None, STARTED))
  {
    hide Reachable;
    assert Reachable(Init) by { Start(); }
    var s1 := State([], map[], None, [StartWaiting("t")], []);
    Play(Init, Arrive(StartWaiting("t")), s1);
    var s2 := State([], map[], Some(0), [StartLocked("t")], []);
    Play(s1, StartLock(0), s2);
    var s3 := State([], map[], Some(0), [StartClear("t")], []);
    Play(s2, StartRead(0), s3);
    var s4 := State([FRESH_RUN], map["t" := 0], None, [Done], STARTED);
    Play(s3, StartInsert(0), s4);
    Play(s4, Arrive(StopWaiting("t")), Scene(FRESH_RUN, StopWaiting("t"), None, STARTED));
  }

  lemma Start()
    ensures Reachable(Init)
  {
    assert Execution([Init], []);
  }

  lemma StopHasReadRunning()
    ensures Reachable(Scene(FRESH_RUN, Stopping(One(0), Cancelling), Some(1), STARTED))
  {
    hide Reachable;
    OneRunStarted();
    var look := Stopping(One(0), Looking);
    Play(Scene(FRESH_RUN, StopWaiting("t"), None, STARTED), StopLock(1), Scene(FRESH_RUN, look, Some(1), STARTED));
    Play(Scene(FRESH_RUN, look, Some(1), STARTED), StopRead(1),
         Scene(FRESH_RUN, Stopping(One(0), Cancelling), Some(1), STARTED));
  }

  /** `stop` reads Running, the task completes and publishes, and only then does `stop` write. */
  lemma CompletedCanBeOverwritten()
    ensures exists s :: Reachable(s) && |s.runs| == 1 && s.runs[0].history == [Running, Completed, Stopped]
  {
    hide Reachable;
    StopHasReadRunning();
    var m := Some(1);
    var cancel := Stopping(One(0), Cancelling);
    var b := FRESH_RUN.(task := Returned(None), taskDone := true);
    Play(Scene(FRESH_RUN, cancel, m, STARTED), TaskReturn(0, None), Scene(b, cancel, m, STARTED));
    var c := b.(task := Waiting(Completed, false));
    Play(Scene(b, cancel, m, STARTED), TaskCheck(0), Scene(c, cancel, m, STARTED));
    var d := c.(lock := ByTask, task := Holding(Completed, false));
    Play(Scene(c, cancel, m, STARTED), TaskAcquire(0), Scene(d, cancel, m, STARTED));
    CompletedWhileCancelling(d);
  }

  lemma CompletedWhileCancelling(d: Run)
    requires d == FRESH_RUN.(taskDone := true, lock := ByTask, task := Holding(Completed, false))
    requires Reachable(Scene(d, Stopping(One(0), Cancelling), Some(1), STARTED))
    ensures exists s :: Reachable(s) && |s.runs| == 1 && s.runs[0].history == [Running, Completed, Stopped]
  {
    hide Reachable;
    var m := Some(1);
    var cancel, queue := Stopping(One(0), Cancelling), Stopping(One(0), Queuing);
    var e := d.(task := Writing(Completed, false));
    Play(Scene(d, cancel, m, STARTED), TaskLoad(0), Scene(e, cancel, m, STARTED));
    var f := e.(cancelled := true);
    Play(Scene(e, cancel, m, STARTED), StopCancel(1), Scene(f, queue, m, STARTED));
    CompletedThenStopped(f);
  }

  lemma CompletedThenStopped(f: Run)
    requires f == FRESH_RUN.(taskDone := true, cancelled := true, lock := ByTask, task := Writing(Completed, false))
    requires Reachable(Scene(f, Stopping(One(0), Queuing), Some(1), STARTED))
    ensures exists s :: Reachable(s) && |s.runs| == 1 && s.runs[0].history == [Running, Completed, Stopped]
  {
    hide Reachable;
    var m := Some(1);
    var queue, locked, written := Stopping(One(0), Queuing), Stopping(One(0), Locked), Stopping(One(0), Written);
    var g := f.(status := Completed, history := [Running, Completed], unpublished := true, task := Publishing(Completed, false));
    assert [Running] + [Completed] == [Running, Completed];
    assert [Running, Completed] + [Stopped] == [Running, Completed, Stopped];
    Play(Scene(f, queue, m, STARTED), TaskWrite(0), Scene(g, queue, m, STARTED));
    var told := STARTED + [Event(0, Completed, None)];
    var h := g.(lock := Free, unpublished := false, task := Closing);
    Play(Scene(g, queue, m, STARTED), TaskPublish(0), Scene(h, queue, m, told));
    var i := h.(lock := ByCall(1));
    Play(Scene(h, queue, m, told), StopAcquire(1), Scene(i, locked, m, told));
    var j := i.(status := Stopped, history := [Running, Completed, Stopped], unpublished := true);
    Play(Scene(i, locked, m, told), StopWrite(1), Scene(j, written, m, told));
  }
}
