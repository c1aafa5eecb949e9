/**
 Concurrent writes of files under the per-path locks, interleaved at every await: an expected hash
 is checked in one step and the file written in a later one. `hash` is any function on contents.

 A request may be dropped at any await. File operations run on another thread, so one that is in
 flight then goes on by itself, after the lock has been released: it is `Detached`.
 */
module FileWrites {
  import opened Wrappers
  import opened FileLocks

  type Path = string
  type LockId = nat
  type WriterId = nat
  type Hash = string -> string

  datatype Node = File(content: string) | Directory

  datatype Outcome = Written | Deleted | Changed | IsDirectory | Failed

  datatype Pc =
    | Arrived
    | Waiting
    | Probing
    | Found
    | Comparing
    | Cleared
    | Ready
    | Reading
    | Unlocking(outcome: Outcome)
    | Dropping
    | Detached(write: bool)   // dropped while its write, or the making of its parents, was in flight
    | Gone
  {
    /** Between `lock().await` and the end of the guard. */
    predicate InLock() { Probing? || Found? || Comparing? || Cleared? || Ready? || Reading? || Unlocking? }
    predicate HasHandle() { !Arrived? && !Gone? && !Detached? }
    /** All checks done, the file not yet written. */
    predicate Checked() { Cleared? || Ready? }
  }

  /** `calm`: no detached write of the path was in flight at the compare, later at the write. */
  datatype Writer = Writer(path: Path, content: string, expected: Option<string>, lock: LockId, pc: Pc, calm: bool) {
    /** An empty expectation is none. */
    predicate Conditional() { expected.Some? && expected.value != "" }
  }

  /** One write that reached the file: what it replaced and what it left. `calm` is its writer's, if not detached. */
  datatype Record = Record(path: Path, before: Option<Node>, after: Node, writer: WriterId, complete: bool, calm: bool)

  datatype State = State(
    entries: map<Path, LockId>,      // weak references
    nextLock: LockId,
    owner: map<LockId, WriterId>,    // who is inside each lock
    files: map<Path, Node>,
    writers: seq<Writer>,
    log: seq<Record>)
  {
    function SetPc(w: WriterId, pc: Pc): State requires w < |writers| {
      this.(writers := writers[w := writers[w].(pc := pc)])
    }
    function Node(p: Path): Option<Node> { if p in files then Some(files[p]) else None }
  }

  function Init(files: map<Path, Node>): State { State(map[], 0, map[], files, [], []) }

  /** Some writer can still upgrade the weak reference. */
  predicate Alive(s: State, l: LockId) {
    exists w :: 0 <= w < |s.writers| && s.writers[w].pc.HasHandle() && s.writers[w].lock == l
  }

  datatype Step =
    | Arrive(path: Path, content: string, expected: Option<string>)
    | Take(w: WriterId)
    | Enter(w: WriterId)
    | Probe(w: WriterId, exists_: bool)
    | Stat(w: WriterId, isDir: bool)
    | Compare(w: WriterId, readOk: bool)
    | MakeParents(w: WriterId, dirs: set<Path>, ok: bool)
    | Save(w: WriterId)
    | SaveFails(w: WriterId, partial: Option<string>)
    | Reread(w: WriterId, ok: bool)
    | Unlock(w: WriterId)
    | Drop(w: WriterId)
    | Cancel(w: WriterId)
    | Detach(w: WriterId)
    | Land(w: WriterId, left: string, last: bool)
    | LandParents(w: WriterId, dirs: set<Path>, last: bool)
    | Fizzle(w: WriterId)

  predicate At(s: State, w: WriterId, pc: Pc) { w < |s.writers| && s.writers[w].pc == pc }

  /** An operation that fails answers like the negative; a positive answer is true. */
  predicate Enabled(s: State, e: Step) {
    match e
    case Arrive(_, _, _) => true
    case Take(w) => At(s, w, Arrived)
    case Enter(w) => At(s, w, Waiting) && s.writers[w].lock !in s.owner
    case Probe(w, x) => At(s, w, Probing) && (x ==> s.writers[w].path in s.files)
    case Stat(w, d) => At(s, w, Found) && (d ==> s.Node(s.writers[w].path) == Some(Directory))
    case Compare(w, ok) => At(s, w, Comparing) && (ok ==> s.writers[w].path in s.files && s.files[s.writers[w].path].File?)
    case MakeParents(w, _, _) => At(s, w, Cleared)
    case Save(w) => At(s, w, Ready) && s.Node(s.writers[w].path) != Some(Directory)
    case SaveFails(w, left) => At(s, w, Ready) && (left.Some? ==> s.Node(s.writers[w].path) != Some(Directory))
    case Reread(w, _) => At(s, w, Reading)
    case Unlock(w) => w < |s.writers| && s.writers[w].pc.Unlocking?
    case Drop(w) => At(s, w, Dropping)
    case Cancel(w) => w < |s.writers| && !s.writers[w].pc.Gone? && !s.writers[w].pc.Detached?
    case Detach(w) => w < |s.writers| && s.writers[w].pc.Checked()
    case Land(w, left, _) =>
      && At(s, w, Detached(true)) && s.Node(s.writers[w].path) != Some(Directory)
      && (s.writers[w].content == "" ==> left == "")
    case LandParents(w, _, _) => At(s, w, Detached(false))
    case Fizzle(w) => w < |s.writers| && s.writers[w].pc.Detached?
  }

  /** No detached write of the path is in flight. */
  predicate Quiet(s: State, p: Path) {
    forall v :: 0 <= v < |s.writers| && s.writers[v].pc == Detached(true) ==> s.writers[v].path != p
  }

  /** The table after `file_write_lock` has made a new lock: dead entries go when it is full. */
  function Swept(s: State): map<Path, LockId> {
    if |s.entries| < SWEEP_AT then s.entries else map p | p in s.entries && Alive(s, s.entries[p]) :: s.entries[p]
  }

  function TakeLock(s: State, w: WriterId): State
    requires w < |s.writers|
  {
    var a := s.writers[w];
    if a.path in s.entries && Alive(s, s.entries[a.path])
    then s.(writers := s.writers[w := a.(lock := s.entries[a.path], pc := Waiting)])
    else s.(entries := Swept(s)[a.path := s.nextLock], nextLock := s.nextLock + 1,
            writers := s.writers[w := a.(lock := s.nextLock, pc := Waiting)])
  }

  function Put(s: State, w: WriterId, content: string, complete: bool, pc: Pc): State
    requires w < |s.writers|
  {
    var a := s.writers[w];
    s.(writers := s.writers[w := a.(pc := pc, calm := Quiet(s, a.path))],
       files := s.files[a.path := File(content)],
       log := s.log + [Record(a.path, s.Node(a.path), File(content), w, complete, a.calm && a.pc.Ready?)])
  }

  function Compared(s: State, w: WriterId, ok: bool, hash: Hash): (b: Writer)
    requires w < |s.writers| && (ok ==> s.writers[w].path in s.files && s.files[s.writers[w].path].File?)
    ensures b == s.writers[w].(pc := b.pc, calm := b.calm) && (b.pc.Cleared? || b.pc.Unlocking?)
  {
    var a := s.writers[w];
    if !ok then a.(pc := Unlocking(Failed))
    else if Some(hash(s.files[a.path].content)) != a.expected then a.(pc := Unlocking(Changed))
    else a.(pc := Cleared, calm := Quiet(s, a.path))
  }

  function Do(s: State, e: Step, hash: Hash): State
    requires Enabled(s, e)
  {
    match e
    case Arrive(path, content, expected) =>
      s.(writers := s.writers + [Writer(path, content, expected, 0, Arrived, false)])
    case Take(w) => TakeLock(s, w)
    case Enter(w) => s.SetPc(w, Probing).(owner := s.owner[s.writers[w].lock := w])
    case Probe(w, x) =>
      s.SetPc(w, if x then Found else if s.writers[w].Conditional() then Unlocking(Deleted) else Cleared)
    case Stat(w, d) =>
      s.SetPc(w, if d then Unlocking(IsDirectory) else if s.writers[w].Conditional() then Comparing else Cleared)
    case Compare(w, ok) => s.(writers := s.writers[w := Compared(s, w, ok, hash)])
    case MakeParents(w, dirs, ok) =>
      s.SetPc(w, if ok then Ready else Unlocking(Failed)).(
        files := (map d | d in dirs :: Directory) + s.files)
    case Save(w) => Put(s, w, s.writers[w].content, true, Reading)
    case SaveFails(w, left) =>
      if left.Some? then Put(s, w, left.value, false, Unlocking(Failed)) else s.SetPc(w, Unlocking(Failed))
    case Reread(w, ok) => s.SetPc(w, Unlocking(if ok then Written else Failed))
    case Unlock(w) => s.SetPc(w, Dropping).(owner := s.owner - {s.writers[w].lock})
    case Drop(w) => s.SetPc(w, Gone)
    case Cancel(w) =>
      s.SetPc(w, Gone).(owner := if s.writers[w].pc.InLock() then s.owner - {s.writers[w].lock} else s.owner)
    case Detach(w) =>
      s.SetPc(w, Detached(s.writers[w].pc.Ready?)).(owner := s.owner - {s.writers[w].lock})
    case Land(w, left, last) =>
      Put(s, w, left, last && left == s.writers[w].content, if last then Gone else Detached(true))
    case LandParents(w, dirs, last) =>
      s.SetPc(w, if last then Gone else Detached(false)).(files := (map d | d in dirs :: Directory) + s.files)
    case Fizzle(w) => s.SetPc(w, Gone)
  }

  // ---- the invariant ----

  predicate EntriesOk(s: State) {
    && (forall p :: p in s.entries ==> s.entries[p] < s.nextLock)
    && (forall p, q :: p in s.entries && q in s.entries && s.entries[p] == s.entries[q] ==> p == q)
  }

  /** Every lock in a writer's hands is the one its path's entry refers to. */
  predicate HandleOk(s: State, a: Writer) {
    a.pc.HasHandle() ==> a.path in s.entries && s.entries[a.path] == a.lock
  }

  predicate HandlesOk(s: State) {
    forall w :: 0 <= w < |s.writers| ==> HandleOk(s, s.writers[w])
  }

  predicate OwnersOk(s: State) {
    && (forall w :: 0 <= w < |s.writers| && s.writers[w].pc.InLock() ==>
          s.writers[w].lock in s.owner && s.owner[s.writers[w].lock] == w)
    && (forall l :: l in s.owner ==>
          s.owner[l] < |s.writers| && s.writers[s.owner[l]].pc.InLock() && s.writers[s.owner[l]].lock == l)
  }

  /**
   What a calm writer has seen still holds: the compared file has the expected hash, a written one
   the content, and there is no detached write that could change that.
   */
  predicate SeenOk(s: State, a: Writer, hash: Hash) {
    a.calm && (a.pc.Reading? || (a.pc.Checked() && a.Conditional())) ==>
      && Quiet(s, a.path) && a.path in s.files && s.files[a.path].File?
      && (if a.pc.Reading? then s.files[a.path].content == a.content
          else Some(hash(s.files[a.path].content)) == a.expected)
  }

  predicate FilesOk(s: State, hash: Hash) {
    forall w :: 0 <= w < |s.writers| ==> SeenOk(s, s.writers[w], hash)
  }

  /** What the log last left at a path. */
  function LastOf(log: seq<Record>, p: Path): Option<Node> {
    if log == [] then None
    else if log[|log| - 1].path == p then Some(log[|log| - 1].after)
    else LastOf(log[..|log| - 1], p)
  }

  predicate RecordOk(s: State, i: nat, hash: Hash)
    requires i < |s.log|
  {
    var r := s.log[i];
    && r.writer < |s.writers| && s.writers[r.writer].path == r.path
    && (r.complete ==> r.after == File(s.writers[r.writer].content))
    && (r.calm && s.writers[r.writer].Conditional() ==>
          r.before.Some? && r.before.value.File? && Some(hash(r.before.value.content)) == s.writers[r.writer].expected)
    && (LastOf(s.log[..i], r.path).Some? ==> r.before == LastOf(s.log[..i], r.path))
  }

  ghost predicate LogOk(s: State, hash: Hash) {
    && (forall i :: 0 <= i < |s.log| ==> RecordOk(s, i, hash))
    && (forall p :: LastOf(s.log, p).Some? ==> s.Node(p) == LastOf(s.log, p))
  }

  ghost predicate Inv(s: State, hash: Hash) {
    EntriesOk(s) && HandlesOk(s) && OwnersOk(s) && FilesOk(s, hash) && LogOk(s, hash)
  }

  /** Two writers inside the lock of one path are the same writer. */
  lemma MutualExclusion(s: State, v: WriterId, w: WriterId)
    requires HandlesOk(s) && OwnersOk(s) && v < |s.writers| && w < |s.writers|
    requires s.writers[v].pc.InLock() && s.writers[w].pc.InLock() && s.writers[v].path == s.writers[w].path
    ensures v == w
  {
    assert HandleOk(s, s.writers[v]) && HandleOk(s, s.writers[w]);
  }

  // ---- steps that move one writer only ----

  /** The writer's request stays what it is. */
  predicate SameRequest(a: Writer, b: Writer) {
    b.path == a.path && b.content == a.content && b.expected == a.expected && b.lock == a.lock
  }

  /** The writer goes on, and the lock it is in is the lock it was in. */
  lemma MoveKeepsLocks(s: State, t: State, w: WriterId)
    requires EntriesOk(s) && HandlesOk(s) && OwnersOk(s) && w < |s.writers| == |t.writers|
    requires t.entries == s.entries && t.nextLock == s.nextLock && t.owner == s.owner
    requires t.writers == s.writers[w := t.writers[w]] && SameRequest(s.writers[w], t.writers[w])
    requires s.writers[w].pc.HasHandle() || !t.writers[w].pc.HasHandle()
    requires t.writers[w].pc.InLock() == s.writers[w].pc.InLock()
    ensures EntriesOk(t) && HandlesOk(t) && OwnersOk(t)
  {
    forall v | 0 <= v < |t.writers| ensures HandleOk(t, t.writers[v]) {
      assert HandleOk(s, s.writers[v]);
    }
  }

  predicate FilesGrow(s: State, t: State) {
    forall p :: p in s.files ==> p in t.files && t.files[p] == s.files[p]
  }

  lemma MoveKeepsLog(s: State, t: State, hash: Hash)
    requires LogOk(s, hash) && t.log == s.log && |s.writers| <= |t.writers| && FilesGrow(s, t)
    requires forall w :: 0 <= w < |s.writers| ==>
      t.writers[w].path == s.writers[w].path && t.writers[w].content == s.writers[w].content
      && t.writers[w].expected == s.writers[w].expected
    ensures LogOk(t, hash)
  {
    hide LastOf;
    forall i | 0 <= i < |t.log| ensures RecordOk(t, i, hash) {
      assert RecordOk(s, i, hash);
    }
  }

  /** No write becomes detached. */
  predicate NoneDetaches(s: State, t: State) {
    && |s.writers| <= |t.writers|
    && (forall v :: 0 <= v < |t.writers| && t.writers[v].pc == Detached(true) ==>
          v < |s.writers| && s.writers[v].pc == Detached(true) && s.writers[v].path == t.writers[v].path)
  }

  lemma QuietKept(s: State, t: State, p: Path)
    requires NoneDetaches(s, t)
    ensures Quiet(s, p) ==> Quiet(t, p)
  {
  }

  lemma SeenKept(s: State, t: State, a: Writer, hash: Hash)
    requires SeenOk(s, a, hash) && FilesGrow(s, t) && NoneDetaches(s, t)
    ensures SeenOk(t, a, hash)
  {
    hide Quiet;
    QuietKept(s, t, a.path);
  }

  lemma MoveKeepsFiles(s: State, t: State, w: WriterId, hash: Hash)
    requires FilesOk(s, hash) && w < |s.writers| == |t.writers|
    requires forall v :: 0 <= v < |s.writers| && v != w ==> t.writers[v] == s.writers[v]
    requires FilesGrow(s, t) && NoneDetaches(s, t) && SeenOk(t, t.writers[w], hash)
    ensures FilesOk(t, hash)
  {
    hide SeenOk;
    hide FilesGrow;
    hide NoneDetaches;
    forall v | 0 <= v < |t.writers| ensures SeenOk(t, t.writers[v], hash) {
      if v != w {
        SeenKept(s, t, s.writers[v], hash);
      }
    }
  }

  predicate OneWriterMoves(e: Step) {
    e.Probe? || e.Stat? || e.Compare? || e.MakeParents? || e.Reread? || e.Drop? || e.LandParents? || e.Fizzle?
  }

  lemma MovesOne(s: State, e: Step, hash: Hash)
    requires Enabled(s, e) && OneWriterMoves(e)
    ensures var t := Do(s, e, hash);
            && e.w < |s.writers| == |t.writers|
            && t == s.(writers := s.writers[e.w := t.writers[e.w]], files := t.files)
            && SameRequest(s.writers[e.w], t.writers[e.w]) && FilesGrow(s, t) && NoneDetaches(s, t)
            && (s.writers[e.w].pc.HasHandle() || !t.writers[e.w].pc.HasHandle())
            && t.writers[e.w].pc.InLock() == s.writers[e.w].pc.InLock()
  {
    hide Quiet;
    hide Compared;
  }

  lemma MovedSeesOk(s: State, e: Step, hash: Hash)
    requires Enabled(s, e) && OneWriterMoves(e) && e.w < |s.writers| && SeenOk(s, s.writers[e.w], hash)
    ensures var t := Do(s, e, hash); e.w < |t.writers| && SeenOk(t, t.writers[e.w], hash)
  {
    hide Quiet;
    MovesOne(s, e, hash);
    QuietKept(s, Do(s, e, hash), s.writers[e.w].path);
  }

  lemma MoveInv(s: State, e: Step, hash: Hash)
    requires Inv(s, hash) && Enabled(s, e) && OneWriterMoves(e)
    ensures Inv(Do(s, e, hash), hash)
  {
    hide Do;
    hide Enabled;
    hide EntriesOk;
    hide HandlesOk;
    hide OwnersOk;
    hide LogOk;
    hide SeenOk;
    hide FilesGrow;
    hide NoneDetaches;
    MovesOne(s, e, hash);
    var t := Do(s, e, hash);
    MoveKeepsLocks(s, t, e.w);
    MoveKeepsLog(s, t, hash);
    assert SeenOk(s, s.writers[e.w], hash);
    MovedSeesOk(s, e, hash);
    MoveKeepsFiles(s, t, e.w, hash);
  }

  /** Leaving the lock, with or without the handle. */
  lemma LeaveLocks(s: State, w: WriterId, pc: Pc)
    requires EntriesOk(s) && HandlesOk(s) && OwnersOk(s) && w < |s.writers| && s.writers[w].pc.InLock()
    requires pc.Dropping? || pc.Gone? || pc.Detached?
    ensures var t := s.SetPc(w, pc).(owner := s.owner - {s.writers[w].lock});
            EntriesOk(t) && HandlesOk(t) && OwnersOk(t)
  {
    var t := s.SetPc(w, pc).(owner := s.owner - {s.writers[w].lock});
    forall v | 0 <= v < |t.writers| ensures HandleOk(t, t.writers[v]) {
      assert HandleOk(s, s.writers[v]);
    }
  }

  lemma QuietElsewhere(s: State, w: WriterId, b: Writer, p: Path)
    requires w < |s.writers| && b.path != p
    ensures Quiet(s, p) ==> Quiet(s.(writers := s.writers[w := b]), p)
  {
  }

  /** A write that detaches disturbs no other writer's calm: it was the only one inside. */
  lemma LeaveKeepsSeen(s: State, w: WriterId, pc: Pc, v: WriterId, hash: Hash)
    requires HandlesOk(s) && OwnersOk(s) && FilesOk(s, hash) && w < |s.writers| && s.writers[w].pc.InLock()
    requires (pc.Dropping? || pc.Gone? || pc.Detached?) && v < |s.writers|
    ensures var t := s.SetPc(w, pc); SeenOk(t, t.writers[v], hash)
  {
    hide Quiet;
    assert SeenOk(s, s.writers[v], hash);
    if v != w && s.writers[v].pc.InLock() {
      if s.writers[v].path == s.writers[w].path {
        MutualExclusion(s, v, w);
      } else {
        QuietElsewhere(s, w, s.writers[w].(pc := pc), s.writers[v].path);
      }
    }
  }

  lemma LeaveInv(s: State, w: WriterId, pc: Pc, hash: Hash)
    requires Inv(s, hash) && w < |s.writers| && s.writers[w].pc.InLock() && (pc.Dropping? || pc.Gone? || pc.Detached?)
    ensures Inv(s.SetPc(w, pc).(owner := s.owner - {s.writers[w].lock}), hash)
  {
    hide EntriesOk;
    hide HandlesOk;
    hide OwnersOk;
    hide LogOk;
    hide SeenOk;
    var m := s.SetPc(w, pc);
    var t := m.(owner := s.owner - {s.writers[w].lock});
    LeaveLocks(s, w, pc);
    MoveKeepsLog(s, t, hash);
    forall v | 0 <= v < |t.writers| ensures SeenOk(t, t.writers[v], hash) {
      LeaveKeepsSeen(s, w, pc, v, hash);
      SeenKept(m, t, t.writers[v], hash);
    }
  }

  /** A request that never entered the lock goes away. */
  lemma AbandonInv(s: State, w: WriterId, hash: Hash)
    requires Inv(s, hash) && w < |s.writers| && !s.writers[w].pc.InLock()
    ensures Inv(s.SetPc(w, Gone), hash)
  {
    hide EntriesOk;
    hide HandlesOk;
    hide OwnersOk;
    hide LogOk;
    hide SeenOk;
    var t := s.SetPc(w, Gone);
    MoveKeepsLocks(s, t, w);
    MoveKeepsLog(s, t, hash);
    NewSeesNothing(t, t.writers[w], hash);
    MoveKeepsFiles(s, t, w, hash);
  }

  lemma ArriveInv(s: State, e: Step, hash: Hash)
    requires Inv(s, hash) && e.Arrive?
    ensures Inv(Do(s, e, hash), hash)
  {
    hide LogOk;
    hide SeenOk;
    var t := Do(s, e, hash);
    forall v | 0 <= v < |t.writers| ensures HandleOk(t, t.writers[v]) && SeenOk(t, t.writers[v], hash) {
      if v < |s.writers| {
        assert HandleOk(s, s.writers[v]);
        SeenKept(s, t, s.writers[v], hash);
      } else {
        NewSeesNothing(t, t.writers[v], hash);
      }
    }
    MoveKeepsLog(s, t, hash);
  }

  lemma NewSeesNothing(s: State, a: Writer, hash: Hash)
    requires !a.pc.Checked() && !a.pc.Reading?
    ensures SeenOk(s, a, hash)
  {
  }

  lemma EnterLocks(s: State, w: WriterId)
    requires EntriesOk(s) && HandlesOk(s) && OwnersOk(s) && At(s, w, Waiting) && s.writers[w].lock !in s.owner
    ensures var t := s.SetPc(w, Probing).(owner := s.owner[s.writers[w].lock := w]);
            EntriesOk(t) && HandlesOk(t) && OwnersOk(t)
  {
    var t := s.SetPc(w, Probing).(owner := s.owner[s.writers[w].lock := w]);
    forall v | 0 <= v < |t.writers| ensures HandleOk(t, t.writers[v]) {
      assert HandleOk(s, s.writers[v]);
    }
  }

  lemma EnterInv(s: State, e: Step, hash: Hash)
    requires Inv(s, hash) && Enabled(s, e) && e.Enter?
    ensures Inv(Do(s, e, hash), hash)
  {
    hide EntriesOk;
    hide HandlesOk;
    hide OwnersOk;
    hide LogOk;
    hide SeenOk;
    var t := Do(s, e, hash);
    EnterLocks(s, e.w);
    MoveKeepsLog(s, t, hash);
    NewSeesNothing(t, t.writers[e.w], hash);
    MoveKeepsFiles(s, t, e.w, hash);
  }

  /** An entry that is kept or replaced was dead or the path's own: no handle loses its entry. */
  lemma TakeKeepsHandle(s: State, w: WriterId, v: WriterId)
    requires EntriesOk(s) && HandlesOk(s) && At(s, w, Arrived) && v < |s.writers| && v != w
    ensures var t := TakeLock(s, w); HandleOk(t, t.writers[v])
  {
    var a, b := s.writers[w], s.writers[v];
    assert HandleOk(s, b);
    if b.pc.HasHandle() {
      assert Alive(s, b.lock);
    }
  }

  lemma TakeLocks(s: State, w: WriterId)
    requires EntriesOk(s) && HandlesOk(s) && OwnersOk(s) && At(s, w, Arrived)
    ensures var t := TakeLock(s, w); EntriesOk(t) && HandlesOk(t) && OwnersOk(t)
  {
    hide Alive;
    TakeHandles(s, w);
    TakeEntries(s, w);
  }

  lemma TakeHandles(s: State, w: WriterId)
    requires EntriesOk(s) && HandlesOk(s) && At(s, w, Arrived)
    ensures HandlesOk(TakeLock(s, w))
  {
    hide EntriesOk;
    var t := TakeLock(s, w);
    forall v | 0 <= v < |t.writers| ensures HandleOk(t, t.writers[v]) {
      if v != w {
        TakeKeepsHandle(s, w, v);
      }
    }
  }

  lemma TakeEntries(s: State, w: WriterId)
    requires EntriesOk(s) && At(s, w, Arrived)
    ensures EntriesOk(TakeLock(s, w))
  {
  }

  lemma TakeInv(s: State, w: WriterId, hash: Hash)
    requires Inv(s, hash) && At(s, w, Arrived)
    ensures Inv(TakeLock(s, w), hash)
  {
    hide EntriesOk;
    hide HandlesOk;
    hide OwnersOk;
    hide LogOk;
    hide SeenOk;
    hide Alive;
    hide Swept;
    var t := TakeLock(s, w);
    TakeLocks(s, w);
    MoveKeepsLog(s, t, hash);
    NewSeesNothing(t, t.writers[w], hash);
    MoveKeepsFiles(s, t, w, hash);
  }

  // ---- writes, under the lock or detached ----

  /** A writer about to write under the lock, or one whose write has detached. */
  predicate CanPut(s: State, w: WriterId) { At(s, w, Ready) || At(s, w, Detached(true)) }

  /** Where the write leaves its writer. */
  predicate PutGoes(a: Writer, content: string, complete: bool, pc: Pc) {
    && (complete ==> content == a.content)
    && (if a.pc.Ready? then (pc.Reading? && content == a.content) || pc.Unlocking?
        else pc.Gone? || pc == Detached(true))
  }

  lemma PutNoneDetaches(s: State, w: WriterId, content: string, complete: bool, pc: Pc)
    requires CanPut(s, w) && PutGoes(s.writers[w], content, complete, pc)
    ensures NoneDetaches(s, Put(s, w, content, complete, pc))
  {
    hide Quiet;
  }

  /** A write touches only its own path, where no other writer is both inside and calm. */
  lemma PutKeepsSeen(s: State, w: WriterId, content: string, complete: bool, pc: Pc, v: WriterId, hash: Hash)
    requires HandlesOk(s) && OwnersOk(s) && FilesOk(s, hash) && CanPut(s, w)
    requires PutGoes(s.writers[w], content, complete, pc) && v < |s.writers| && v != w
    ensures var t := Put(s, w, content, complete, pc); SeenOk(t, t.writers[v], hash)
  {
    var t := Put(s, w, content, complete, pc);
    assert SeenOk(s, s.writers[v], hash);
    PutNoneDetaches(s, w, content, complete, pc);
    QuietKept(s, t, s.writers[v].path);
    if s.writers[v].pc.InLock() && s.writers[v].path == s.writers[w].path {
      if s.writers[w].pc.Ready? {
        MutualExclusion(s, v, w);
      } else {
        assert !Quiet(s, s.writers[v].path);
      }
    }
    hide Quiet;
  }

  lemma PutSeesOwn(s: State, w: WriterId, content: string, complete: bool, pc: Pc, hash: Hash)
    requires CanPut(s, w) && PutGoes(s.writers[w], content, complete, pc)
    ensures var t := Put(s, w, content, complete, pc); SeenOk(t, t.writers[w], hash)
  {
    var t := Put(s, w, content, complete, pc);
    PutNoneDetaches(s, w, content, complete, pc);
    QuietKept(s, t, s.writers[w].path);
    hide Quiet;
  }

  /** The new record: a calm writer under the lock found what it expected. */
  lemma PutRecord(s: State, w: WriterId, content: string, complete: bool, pc: Pc, hash: Hash)
    requires LogOk(s, hash) && CanPut(s, w) && SeenOk(s, s.writers[w], hash)
    requires PutGoes(s.writers[w], content, complete, pc)
    ensures RecordOk(Put(s, w, content, complete, pc), |s.log|, hash)
  {
    hide Quiet;
    hide LastOf;
    var t := Put(s, w, content, complete, pc);
    assert t.log[..|s.log|] == s.log;
  }

  lemma LastOfAppended(log: seq<Record>, r: Record, p: Path)
    ensures LastOf(log + [r], p) == if r.path == p then Some(r.after) else LastOf(log, p)
  {
    assert (log + [r])[..|log|] == log;
  }

  lemma PutLog(s: State, w: WriterId, content: string, complete: bool, pc: Pc, hash: Hash)
    requires LogOk(s, hash) && CanPut(s, w) && SeenOk(s, s.writers[w], hash)
    requires PutGoes(s.writers[w], content, complete, pc)
    ensures LogOk(Put(s, w, content, complete, pc), hash)
  {
    hide Quiet;
    hide LastOf;
    hide SeenOk;
    var t := Put(s, w, content, complete, pc);
    var n := |s.log|;
    forall i | 0 <= i < |t.log| ensures RecordOk(t, i, hash) {
      if i < n {
        assert RecordOk(s, i, hash);
        assert t.log[..i] == s.log[..i];
      } else {
        PutRecord(s, w, content, complete, pc, hash);
      }
    }
    forall p | LastOf(t.log, p).Some? ensures t.Node(p) == LastOf(t.log, p) {
      LastOfAppended(s.log, t.log[n], p);
    }
  }

  lemma PutInv(s: State, w: WriterId, content: string, complete: bool, pc: Pc, hash: Hash)
    requires Inv(s, hash) && CanPut(s, w) && PutGoes(s.writers[w], content, complete, pc)
    ensures Inv(Put(s, w, content, complete, pc), hash)
  {
    hide EntriesOk;
    hide HandlesOk;
    hide OwnersOk;
    hide LogOk;
    hide SeenOk;
    hide Quiet;
    var t := Put(s, w, content, complete, pc);
    MoveKeepsLocks(s, t, w);
    assert SeenOk(s, s.writers[w], hash);
    PutLog(s, w, content, complete, pc, hash);
    PutSeesOwn(s, w, content, complete, pc, hash);
    forall v | 0 <= v < |t.writers| ensures SeenOk(t, t.writers[v], hash) {
      if v != w {
        PutKeepsSeen(s, w, content, complete, pc, v, hash);
      }
    }
  }

  /** A write that fails before it has touched the file. */
  lemma FailInv(s: State, w: WriterId, hash: Hash)
    requires Inv(s, hash) && At(s, w, Ready)
    ensures Inv(s.SetPc(w, Unlocking(Failed)), hash)
  {
    hide EntriesOk;
    hide HandlesOk;
    hide OwnersOk;
    hide LogOk;
    hide SeenOk;
    var t := s.SetPc(w, Unlocking(Failed));
    MoveKeepsLocks(s, t, w);
    MoveKeepsLog(s, t, hash);
    NewSeesNothing(t, t.writers[w], hash);
    MoveKeepsFiles(s, t, w, hash);
  }

  /** Every step keeps the invariant. */
  lemma StepInv(s: State, e: Step, hash: Hash)
    requires Inv(s, hash) && Enabled(s, e)
    ensures Inv(Do(s, e, hash), hash)
  {
    hide Inv;
    hide Put;
    hide TakeLock;
    match e {
      case Arrive(_, _, _) => ArriveInv(s, e, hash);
      case Take(w) => TakeInv(s, w, hash);
      case Enter(w) => EnterInv(s, e, hash);
      case Save(w) => PutInv(s, w, s.writers[w].content, true, Reading, hash);
      case SaveFails(w, left) =>
        if left.Some? { PutInv(s, w, left.value, false, Unlocking(Failed), hash); } else { FailInv(s, w, hash); }
      case Land(w, left, last) =>
        PutInv(s, w, left, last && left == s.writers[w].content, if last then Gone else Detached(true), hash);
      case Unlock(w) => LeaveInv(s, w, Dropping, hash);
      case Cancel(w) => if s.writers[w].pc.InLock() { LeaveInv(s, w, Gone, hash); } else { AbandonInv(s, w, hash); }
      case Detach(w) => LeaveInv(s, w, Detached(s.writers[w].pc.Ready?), hash);
      case _ => MoveInv(s, e, hash);
    }
  }

  // ---- whole executions ----

  ghost predicate Execution(states: seq<State>, steps: seq<Step>, hash: Hash) {
    && |states| == |steps| + 1 && states[0] == Init(states[0].files)
    && forall i :: 0 <= i < |steps| ==> Enabled(states[i], steps[i]) && states[i + 1] == Do(states[i], steps[i], hash)
  }

  lemma {:induction false} ExecutionInv(states: seq<State>, steps: seq<Step>, n: nat, hash: Hash)
    requires Execution(states, steps, hash) && n < |states|
    ensures Inv(states[n], hash)
  {
    hide Enabled;
    hide Do;
    if n == 0 {
      assert Inv(Init(states[0].files), hash);
    } else {
      ExecutionInv(states, steps, n - 1, hash);
      StepInv(states[n - 1], steps[n - 1], hash);
    }
  }

  /** At any time the locks in writers' hands for one path are one lock, and one writer is inside. */
  lemma OneLockPerPath(states: seq<State>, steps: seq<Step>, n: nat, v: WriterId, w: WriterId, hash: Hash)
    requires Execution(states, steps, hash) && n < |states|
    requires v < |states[n].writers| && w < |states[n].writers|
    requires states[n].writers[v].pc.HasHandle() && states[n].writers[w].pc.HasHandle()
    ensures states[n].writers[v].lock == states[n].writers[w].lock <==> states[n].writers[v].path == states[n].writers[w].path
    ensures v != w && states[n].writers[v].path == states[n].writers[w].path ==>
      !(states[n].writers[v].pc.InLock() && states[n].writers[w].pc.InLock())
  {
    hide FilesOk;
    hide LogOk;
    ExecutionInv(states, steps, n, hash);
    var s := states[n];
    assert HandleOk(s, s.writers[v]) && HandleOk(s, s.writers[w]);
  }

  /**
   The hash compared some steps ago is still the file's when a conditional write is made, if no
   detached write of the path was in flight when it was compared.
   */
  lemma WriteSeesExpected(states: seq<State>, steps: seq<Step>, n: nat, hash: Hash)
    requires Execution(states, steps, hash) && n < |steps| && (steps[n].Save? || steps[n].SaveFails?)
    requires states[n].writers[steps[n].w].Conditional() && states[n].writers[steps[n].w].calm
    ensures var s, a := states[n], states[n].writers[steps[n].w];
            a.path in s.files && s.files[a.path].File? && Some(hash(s.files[a.path].content)) == a.expected
  {
    hide LogOk;
    hide Quiet;
    ExecutionInv(states, steps, n, hash);
    assert SeenOk(states[n], states[n].writers[steps[n].w], hash);
  }

  /** The answer to a successful write reports the content that was sent, if none was in flight when it was made. */
  lemma ReplyReportsContent(states: seq<State>, steps: seq<Step>, n: nat, hash: Hash)
    requires Execution(states, steps, hash) && n < |steps| && steps[n].Reread?
    requires states[n].writers[steps[n].w].calm
    ensures var s, a := states[n], states[n].writers[steps[n].w];
            a.path in s.files && s.files[a.path] == File(a.content)
  {
    hide LogOk;
    hide Quiet;
    ExecutionInv(states, steps, n, hash);
    assert SeenOk(states[n], states[n].writers[steps[n].w], hash);
  }

  ghost predicate Injective(hash: Hash) {
    forall c, d :: hash(c) == hash(d) ==> c == d
  }

  lemma {:induction false} LastIsRecord(log: seq<Record>, p: Path, j: nat) returns (i: nat)
    requires j < |log| && log[j].path == p
    ensures j <= i < |log| && log[i].path == p && LastOf(log, p) == Some(log[i].after)
  {
    var n := |log| - 1;
    if log[n].path == p {
      i := n;
    } else {
      i := LastIsRecord(log[..n], p, j);
    }
  }

  /**
   No lost update: of two calm conditional writes that expected the same content of a file, the
   second went through only because the first, or a write between them, left that content again.
   */
  lemma NoLostUpdate(states: seq<State>, steps: seq<Step>, n: nat, hash: Hash, j: nat, k: nat) returns (i: nat)
    requires Execution(states, steps, hash) && n < |states| && Injective(hash)
    requires var s := states[n];
      && j < k < |s.log| && s.log[j].path == s.log[k].path && s.log[j].calm && s.log[k].calm
      && s.log[j].writer < |s.writers| && s.log[k].writer < |s.writers|
      && s.writers[s.log[j].writer].Conditional() && s.writers[s.log[k].writer].Conditional()
      && s.writers[s.log[j].writer].expected == s.writers[s.log[k].writer].expected
    ensures var log := states[n].log;
            && j <= i < k && log[i].path == log[j].path && log[j].before == Some(log[i].after)
            && log[k].before == log[j].before
  {
    hide FilesOk;
    hide OwnersOk;
    hide HandlesOk;
    ExecutionInv(states, steps, n, hash);
    var s := states[n];
    assert RecordOk(s, j, hash) && RecordOk(s, k, hash);
    i := LastIsRecord(s.log[..k], s.log[k].path, j);
  }

  /**
   Successive writes of a path, detached ones included, form a chain: each replaces what the one
   before it left. A calm conditional one expected exactly that.
   */
  lemma WritesFormAChain(states: seq<State>, steps: seq<Step>, n: nat, hash: Hash, j: nat, k: nat)
    requires Execution(states, steps, hash) && n < |states| && j < k < |states[n].log|
    requires states[n].log[j].path == states[n].log[k].path
    requires forall i :: j < i < k ==> states[n].log[i].path != states[n].log[k].path
    ensures states[n].log[k].before == Some(states[n].log[j].after)
    ensures var s, b := states[n], states[n].log[k];
            && b.writer < |s.writers|
            && (b.calm && s.writers[b.writer].Conditional() ==>
                  states[n].log[j].after.File? && s.writers[b.writer].expected == Some(hash(states[n].log[j].after.content)))
  {
    hide FilesOk;
    hide OwnersOk;
    hide HandlesOk;
    ExecutionInv(states, steps, n, hash);
    var s := states[n];
    assert RecordOk(s, k, hash);
    var i := LastIsRecord(s.log[..k], s.log[k].path, j);
    assert s.log[..k][i] == s.log[i];
  }

  // ---- executions in which no write detaches ----

  predicate WriterCalm(a: Writer) {
    && a.pc != Detached(true)
    && (a.pc.Reading? || (a.pc.Checked() && a.Conditional()) ==> a.calm)
  }

  predicate AllCalm(s: State) {
    && (forall w :: 0 <= w < |s.writers| ==> WriterCalm(s.writers[w]))
    && (forall i :: 0 <= i < |s.log| ==>
          s.log[i].writer < |s.writers| && (s.writers[s.log[i].writer].Conditional() ==> s.log[i].calm))
  }

  lemma AllQuiet(s: State, p: Path)
    requires AllCalm(s)
    ensures Quiet(s, p)
  {
    forall v | 0 <= v < |s.writers| ensures s.writers[v].pc != Detached(true) {
      assert WriterCalm(s.writers[v]);
    }
  }

  lemma CalmPut(s: State, w: WriterId, content: string, complete: bool, pc: Pc)
    requires AllCalm(s) && At(s, w, Ready) && PutGoes(s.writers[w], content, complete, pc)
    ensures AllCalm(Put(s, w, content, complete, pc))
  {
    hide Quiet;
    AllQuiet(s, s.writers[w].path);
    assert WriterCalm(s.writers[w]);
  }

  lemma CalmOne(s: State, t: State, w: WriterId)
    requires AllCalm(s) && w < |s.writers| == |t.writers| && t.log == s.log && t.writers == s.writers[w := t.writers[w]]
    requires t.writers[w].expected == s.writers[w].expected && WriterCalm(t.writers[w])
    ensures AllCalm(t)
  {
  }

  /** The step changes one writer and no file of the log, or makes a new writer. */
  lemma CalmWriter(s: State, e: Step, hash: Hash)
    requires AllCalm(s) && Enabled(s, e) && !e.Arrive? && !(e.Detach? && s.writers[e.w].pc.Ready?)
    requires !e.Save? && !(e.SaveFails? && e.partial.Some?) && !e.Land?
    ensures var t := Do(s, e, hash);
            && e.w < |s.writers| == |t.writers| && t.log == s.log && t.writers == s.writers[e.w := t.writers[e.w]]
            && t.writers[e.w].expected == s.writers[e.w].expected && WriterCalm(t.writers[e.w])
  {
    hide Swept;
    hide Alive;
    hide Quiet;
    assert WriterCalm(s.writers[e.w]);
    AllQuiet(s, s.writers[e.w].path);
  }

  lemma NothingLands(s: State, e: Step)
    requires AllCalm(s) && Enabled(s, e)
    ensures !e.Land?
  {
    forall w | 0 <= w < |s.writers| ensures !At(s, w, Detached(true)) {
      assert WriterCalm(s.writers[w]);
    }
  }

  lemma CalmStep(s: State, e: Step, hash: Hash)
    requires AllCalm(s) && Enabled(s, e) && !(e.Detach? && s.writers[e.w].pc.Ready?)
    ensures AllCalm(Do(s, e, hash))
  {
    hide Put;
    NothingLands(s, e);
    match e {
      case Arrive(_, _, _) =>
      case Save(w) => CalmPut(s, w, s.writers[w].content, true, Reading);
      case SaveFails(w, partial) =>
        if partial.Some? { CalmPut(s, w, partial.value, false, Unlocking(Failed)); } else { CalmElse(s, e, hash); }
      case _ => CalmElse(s, e, hash);
    }
  }

  lemma CalmElse(s: State, e: Step, hash: Hash)
    requires AllCalm(s) && Enabled(s, e) && !e.Arrive? && !(e.Detach? && s.writers[e.w].pc.Ready?)
    requires !e.Save? && !(e.SaveFails? && e.partial.Some?) && !e.Land?
    ensures AllCalm(Do(s, e, hash))
  {
    hide Do;
    hide WriterCalm;
    hide AllCalm;
    CalmWriter(s, e, hash);
    CalmOne(s, Do(s, e, hash), e.w);
  }

  /**
   While no request is dropped with its write in flight, every conditional write is calm: the
   results above hold of all of them.
   */
  lemma {:induction false} CalmWithoutDetaching(states: seq<State>, steps: seq<Step>, n: nat, hash: Hash)
    requires Execution(states, steps, hash) && n < |states|
    requires forall i :: 0 <= i < n ==> !(steps[i].Detach? && states[i].writers[steps[i].w].pc.Ready?)
    ensures AllCalm(states[n])
  {
    hide Enabled;
    hide Do;
    if n > 0 {
      CalmWithoutDetaching(states, steps, n - 1, hash);
      CalmStep(states[n - 1], steps[n - 1], hash);
    }
  }

  // ---- one request with nobody in its way ----

  /** The answer a request deserves, from what is at its path. */
  function Deserved(node: Option<Node>, expected: Option<string>, hash: Hash): Outcome {
    var conditional := expected.Some? && expected.value != "";
    match node
    case None => if conditional then Deleted else Written
    case Some(Directory) => IsDirectory
    case Some(File(content)) => if conditional && Some(hash(content)) != expected then Changed else Written
  }

  function Then(s: State, e: Step, hash: Hash): State {
    if Enabled(s, e) then Do(s, e, hash) else s
  }

  /** The checks inside the lock, all operations working. */
  function Check(s: State, w: WriterId, hash: Hash): State
    requires w < |s.writers|
  {
    var node := s.Node(s.writers[w].path);
    Then(Then(Then(s, Probe(w, node.Some?), hash), Stat(w, node == Some(Directory)), hash), Compare(w, true), hash)
  }

  function WriteAlone(s: State, w: WriterId, dirs: set<Path>, hash: Hash): State
    requires w < |s.writers|
  {
    Then(Then(Then(Check(s, w, hash), MakeParents(w, dirs, true), hash), Save(w), hash), Reread(w, true), hash)
  }

  lemma CheckDecides(s: State, w: WriterId, hash: Hash)
    requires At(s, w, Probing)
    ensures var a := s.writers[w];
            var o := Deserved(s.Node(a.path), a.expected, hash);
            && Check(s, w, hash).files == s.files && |Check(s, w, hash).writers| == |s.writers|
            && Check(s, w, hash).writers[w].(calm := a.calm) == a.(pc := if o == Written then Cleared else Unlocking(o))
  {
    var a := s.writers[w];
    var node := s.Node(a.path);
    var probed := Do(s, Probe(w, node.Some?), hash);
    if node.Some? {
      assert probed == s.SetPc(w, Found);
      var stated := Do(probed, Stat(w, node == Some(Directory)), hash);
      assert stated.writers[w].path == a.path;
    }
  }

  lemma PassedWrites(s: State, w: WriterId, dirs: set<Path>, hash: Hash)
    requires At(s, w, Cleared) && s.writers[w].path !in dirs && s.Node(s.writers[w].path) != Some(Directory)
    ensures var a := s.writers[w];
            var t := Then(Then(Then(s, MakeParents(w, dirs, true), hash), Save(w), hash), Reread(w, true), hash);
            && |t.writers| == |s.writers| && t.writers[w].pc == Unlocking(Written)
            && t.files == ((map d | d in dirs :: Directory) + s.files)[a.path := File(a.content)]
  {
    var parents := Do(s, MakeParents(w, dirs, true), hash);
    assert parents.writers[w] == s.writers[w].(pc := Ready);
    assert Enabled(parents, Save(w));
  }

  lemma RefusedStays(s: State, w: WriterId, dirs: set<Path>, hash: Hash)
    requires w < |s.writers| && s.writers[w].pc.Unlocking?
    ensures Then(Then(Then(s, MakeParents(w, dirs, true), hash), Save(w), hash), Reread(w, true), hash) == s
  {
  }

  /**
   A request that has the lock to itself gets the answer it deserves, and the file changes exactly
   when that is a success.
   */
  lemma AloneGetsItsAnswer(s: State, w: WriterId, dirs: set<Path>, hash: Hash)
    requires At(s, w, Probing) && s.writers[w].path !in dirs
    ensures var a, t := s.writers[w], WriteAlone(s, w, dirs, hash);
            var o := Deserved(s.Node(a.path), a.expected, hash);
            && |t.writers| == |s.writers| && t.writers[w].pc == Unlocking(o)
            && t.files == if o == Written then ((map d | d in dirs :: Directory) + s.files)[a.path := File(a.content)] else s.files
  {
    hide Then;
    hide Check;
    CheckDecides(s, w, hash);
    var t := Check(s, w, hash);
    if Deserved(s.Node(s.writers[w].path), s.writers[w].expected, hash) == Written {
      PassedWrites(t, w, dirs, hash);
    } else {
      RefusedStays(t, w, dirs, hash);
    }
  }
}
