/**
 What a write that was left behind by a dropped request does to those that come after it: exactly
 when it can spoil a compare or the re-read of what was written, and an execution in which it loses
 an update.
 */
module DetachedWrites {
  import opened Wrappers
  import opened FileWrites

  /** Some detached write of the path can still change a file that holds `c`. */
  predicate Threatened(s: State, p: Path, c: string) {
    exists v :: 0 <= v < |s.writers| && Threat(s.writers[v], p, c)
  }

  /** Only writing nothing over nothing changes nothing. */
  predicate Threat(a: Writer, p: Path, c: string) {
    a.pc == Detached(true) && a.path == p && (a.content != "" || c != "")
  }

  /** Steps that can follow a state, with the states they lead through. */
  ghost predicate Run(states: seq<State>, steps: seq<Step>, hash: Hash) {
    && |states| == |steps| + 1
    && forall i :: 0 <= i < |steps| ==> Enabled(states[i], steps[i]) && states[i + 1] == Do(states[i], steps[i], hash)
  }

  /** The writer is about to write over a file that does not have the hash it compared. */
  predicate Blind(s: State, w: WriterId, hash: Hash) {
    && Enabled(s, Save(w))
    && !(s.writers[w].path in s.files && s.files[s.writers[w].path].File?
         && Some(hash(s.files[s.writers[w].path].content)) == s.writers[w].expected)
  }

  /** Something can happen after which the writer writes blindly. */
  ghost predicate CanWriteBlind(s: State, w: WriterId, hash: Hash) {
    exists states, steps :: Run(states, steps, hash) && states[0] == s && Blind(states[|steps|], w, hash)
  }

  /** The writer is about to read again what it has written, and something else is there. */
  predicate Astray(s: State, w: WriterId) {
    At(s, w, Reading) && s.Node(s.writers[w].path) != Some(File(s.writers[w].content))
  }

  ghost predicate CanReadOther(s: State, w: WriterId, hash: Hash) {
    exists states, steps :: Run(states, steps, hash) && states[0] == s && Astray(states[|steps|], w)
  }

  // ---- without a threat the file stands still ----

  /** The steps that write a file's content. */
  predicate Puts(e: Step) { e.Save? || (e.SaveFails? && e.partial.Some?) || e.Land? }

  /** The writer relies on the file: on what it compared, or on what it has written and reads again. */
  predicate Relies(pc: Pc, reading: bool) { if reading then pc.Reading? else pc.Checked() }

  predicate Past(pc: Pc, reading: bool) {
    (pc.Reading? && !reading) || pc.Unlocking? || pc.Dropping? || pc.Detached? || pc.Gone?
  }

  lemma PastStays(s: State, e: Step, w: WriterId, reading: bool, hash: Hash)
    requires Enabled(s, e) && w < |s.writers| && Past(s.writers[w].pc, reading)
    ensures var t := Do(s, e, hash); w < |t.writers| && Past(t.writers[w].pc, reading) && t.writers[w].path == s.writers[w].path
  {
    hide Quiet;
    hide Compared;
    hide Swept;
    hide Alive;
  }

  /** The writer relies on the file, it still holds `c`, and nothing threatens it. */
  predicate Holds(s: State, w: WriterId, c: string, reading: bool) {
    && w < |s.writers| && Relies(s.writers[w].pc, reading)
    && s.Node(s.writers[w].path) == Some(File(c)) && !Threatened(s, s.writers[w].path, c)
  }

  lemma HoldsMeans(s: State, w: WriterId, c: string, reading: bool)
    requires Holds(s, w, c, reading)
    ensures w < |s.writers| && Relies(s.writers[w].pc, reading)
  {
  }

  predicate HoldsOrPast(s: State, w: WriterId, c: string, reading: bool) {
    w < |s.writers| && (Holds(s, w, c, reading) || Past(s.writers[w].pc, reading))
  }

  /** Whoever writes the path now is this writer, or a write of nothing over nothing. */
  lemma PutHarmless(s: State, v: WriterId, w: WriterId, content: string, complete: bool, pc: Pc, c: string, reading: bool)
    requires HandlesOk(s) && OwnersOk(s) && Holds(s, w, c, reading) && v != w && CanPut(s, v)
    requires PutGoes(s.writers[v], content, complete, pc)
    requires s.writers[v].pc == Detached(true) && s.writers[v].content == "" ==> content == ""
    ensures Holds(Put(s, v, content, complete, pc), w, c, reading)
  {
    hide Quiet;
    var a, b, t := s.writers[v], s.writers[w], Put(s, v, content, complete, pc);
    if a.path == b.path {
      if a.pc.Ready? {
        MutualExclusion(s, v, w);
      } else {
        assert !Threat(a, b.path, c);
      }
    }
    forall u | 0 <= u < |t.writers| ensures !Threat(t.writers[u], b.path, c) {
      assert !Threat(s.writers[u], b.path, c);
    }
  }

  lemma OwnWriteEnds(s: State, e: Step, w: WriterId, reading: bool, hash: Hash)
    requires Enabled(s, e) && w < |s.writers| && Relies(s.writers[w].pc, reading) && Puts(e) && e.w == w
    ensures var t := Do(s, e, hash); w < |t.writers| && Past(t.writers[w].pc, reading)
  {
    hide Quiet;
  }

  lemma OthersWriteHarmless(s: State, e: Step, w: WriterId, c: string, reading: bool, hash: Hash)
    requires HandlesOk(s) && OwnersOk(s) && Holds(s, w, c, reading) && Enabled(s, e)
    requires Puts(e) && e.w != w
    ensures Holds(Do(s, e, hash), w, c, reading)
  {
    hide Put;
    hide Holds;
    match e {
      case Save(v) => PutHarmless(s, v, w, s.writers[v].content, true, Reading, c, reading);
      case SaveFails(v, partial) => PutHarmless(s, v, w, partial.value, false, Unlocking(Failed), c, reading);
      case Land(v, left, last) =>
        PutHarmless(s, v, w, left, last && left == s.writers[v].content, if last then Gone else Detached(true), c, reading);
    }
  }

  /** The other steps: no file changes its content, and a write that detaches is of another path. */
  lemma NoWriteHarmless(s: State, e: Step, w: WriterId, c: string, reading: bool, hash: Hash)
    requires HandlesOk(s) && OwnersOk(s) && Holds(s, w, c, reading) && Enabled(s, e)
    requires !Puts(e)
    ensures HoldsOrPast(Do(s, e, hash), w, c, reading)
  {
    hide Do;
    hide Enabled;
    hide Holds;
    hide Threatened;
    HoldsMeans(s, w, c, reading);
    StepShape(s, e, w, reading, hash);
    var t := Do(s, e, hash);
    if Relies(t.writers[w].pc, reading) {
      ThreatKept(s, e, w, c, reading, hash);
      HoldsKept(s, t, w, c, reading);
    }
  }

  lemma HoldsKept(s: State, t: State, w: WriterId, c: string, reading: bool)
    requires Holds(s, w, c, reading) && w < |t.writers| && t.writers[w].path == s.writers[w].path && FilesGrow(s, t)
    requires Relies(t.writers[w].pc, reading) && !Threatened(t, t.writers[w].path, c)
    ensures Holds(t, w, c, reading)
  {
  }

  lemma StepShape(s: State, e: Step, w: WriterId, reading: bool, hash: Hash)
    requires Enabled(s, e) && w < |s.writers| && Relies(s.writers[w].pc, reading)
    requires !Puts(e)
    ensures var t := Do(s, e, hash);
            && w < |t.writers| && t.writers[w].path == s.writers[w].path && FilesGrow(s, t)
            && (Relies(t.writers[w].pc, reading) || Past(t.writers[w].pc, reading))
  {
    hide Quiet;
    hide Compared;
    hide Swept;
    hide Alive;
  }

  /** What is detached now was so before, or has just left its lock. */
  lemma DetachedBefore(s: State, e: Step, u: WriterId, hash: Hash)
    requires Enabled(s, e) && u < |Do(s, e, hash).writers| && Do(s, e, hash).writers[u].pc == Detached(true)
    ensures u < |s.writers| && s.writers[u].path == Do(s, e, hash).writers[u].path
    ensures s.writers[u].content == Do(s, e, hash).writers[u].content
    ensures s.writers[u].pc == Detached(true) || (e == Detach(u) && s.writers[u].pc.InLock())
  {
    hide Quiet;
    hide Compared;
    hide Swept;
    hide Alive;
  }

  /** A write can only detach from inside its lock, so never while another writer of the path is inside. */
  lemma ThreatKept(s: State, e: Step, w: WriterId, c: string, reading: bool, hash: Hash)
    requires HandlesOk(s) && OwnersOk(s) && Holds(s, w, c, reading) && Enabled(s, e)
    requires !Puts(e)
    requires var t := Do(s, e, hash); w < |t.writers| && Relies(t.writers[w].pc, reading)
    ensures !Threatened(Do(s, e, hash), s.writers[w].path, c)
  {
    hide Do;
    hide Enabled;
    var t, p := Do(s, e, hash), s.writers[w].path;
    forall u | 0 <= u < |t.writers| ensures !Threat(t.writers[u], p, c) {
      if t.writers[u].pc == Detached(true) {
        DetachedBefore(s, e, u, hash);
        assert !Threat(s.writers[u], p, c);
        if s.writers[u].pc.InLock() && s.writers[u].path == p {
          MutualExclusion(s, u, w);
        }
      }
    }
  }

  lemma StepHarmless(s: State, e: Step, w: WriterId, c: string, reading: bool, hash: Hash)
    requires HandlesOk(s) && OwnersOk(s) && HoldsOrPast(s, w, c, reading) && Enabled(s, e)
    ensures HoldsOrPast(Do(s, e, hash), w, c, reading)
  {
    hide Do;
    hide Enabled;
    hide Holds;
    hide Past;
    if Past(s.writers[w].pc, reading) {
      PastStays(s, e, w, reading, hash);
    } else if Puts(e) && e.w == w {
      HoldsMeans(s, w, c, reading);
      OwnWriteEnds(s, e, w, reading, hash);
    } else if Puts(e) {
      OthersWriteHarmless(s, e, w, c, reading, hash);
      HoldsMeans(Do(s, e, hash), w, c, reading);
    } else {
      NoWriteHarmless(s, e, w, c, reading, hash);
    }
  }

  predicate SamePut(a: Writer, b: Writer) {
    b.path == a.path && b.content == a.content && b.expected == a.expected
  }

  lemma {:induction false} RunHarmless(states: seq<State>, steps: seq<Step>, n: nat, w: WriterId, c: string, reading: bool, hash: Hash)
    requires Run(states, steps, hash) && n < |states| && Inv(states[0], hash) && Holds(states[0], w, c, reading)
    ensures Inv(states[n], hash) && HoldsOrPast(states[n], w, c, reading)
    ensures SamePut(states[0].writers[w], states[n].writers[w])
  {
    hide Enabled;
    hide Do;
    hide Holds;
    hide Past;
    hide EntriesOk;
    hide HandlesOk;
    hide OwnersOk;
    hide FilesOk;
    hide LogOk;
    HoldsMeans(states[0], w, c, reading);
    if n > 0 {
      RunHarmless(states, steps, n - 1, w, c, reading, hash);
      StepInv(states[n - 1], steps[n - 1], hash);
      StepHarmless(states[n - 1], steps[n - 1], w, c, reading, hash);
      RequestKept(states[n - 1], steps[n - 1], w, hash);
    }
  }

  lemma RequestKept(s: State, e: Step, w: WriterId, hash: Hash)
    requires Enabled(s, e) && w < |s.writers|
    ensures var t := Do(s, e, hash); w < |t.writers| && SamePut(s.writers[w], t.writers[w])
  {
    hide Quiet;
    hide Compared;
    hide Swept;
    hide Alive;
  }

  lemma HeldIsNotBlind(s: State, w: WriterId, c: string, hash: Hash)
    requires HoldsOrPast(s, w, c, false) && Some(hash(c)) == s.writers[w].expected
    ensures !Blind(s, w, hash)
  {
  }

  lemma HeldIsNotAstray(s: State, w: WriterId)
    requires w < |s.writers| && HoldsOrPast(s, w, s.writers[w].content, true)
    ensures !Astray(s, w)
  {
  }

  // ---- with a threat it need not ----

  /** One landing leaves something else in the file, and nothing else moves. */
  lemma Lands(s: State, w: WriterId, v: WriterId, c: string, hash: Hash) returns (left: string)
    requires w < |s.writers| && v < |s.writers| && (s.writers[w].pc.Checked() || s.writers[w].pc.Reading?)
    requires s.Node(s.writers[w].path) == Some(File(c)) && Threat(s.writers[v], s.writers[w].path, c)
    ensures left != c && Enabled(s, Land(v, left, true))
    ensures var t := Do(s, Land(v, left, true), hash);
            |t.writers| == |s.writers| && t.writers[w] == s.writers[w] && t.Node(s.writers[w].path) == Some(File(left))
  {
    hide Quiet;
    left := if c != "" then "" else s.writers[v].content;
  }

  lemma ParentsReady(s: State, w: WriterId, hash: Hash)
    requires At(s, w, Cleared)
    ensures Enabled(s, MakeParents(w, {}, true))
    ensures var t := Do(s, MakeParents(w, {}, true), hash);
            t.files == s.files && |t.writers| == |s.writers| && t.writers[w] == s.writers[w].(pc := Ready)
  {
    var none: set<Path> := {};
    assert (map d | d in none :: Directory) + s.files == s.files;
  }

  lemma OtherFileIsBlind(s: State, w: WriterId, c: string, left: string, hash: Hash)
    requires Injective(hash) && left != c && At(s, w, Ready)
    requires s.Node(s.writers[w].path) == Some(File(left)) && Some(hash(c)) == s.writers[w].expected
    ensures Blind(s, w, hash)
  {
  }

  lemma ThreatCanBlind(s: State, w: WriterId, c: string, hash: Hash)
    requires Injective(hash) && w < |s.writers| && s.writers[w].pc.Checked()
    requires s.Node(s.writers[w].path) == Some(File(c)) && Some(hash(c)) == s.writers[w].expected
    requires Threatened(s, s.writers[w].path, c)
    ensures CanWriteBlind(s, w, hash)
  {
    hide Enabled;
    hide Do;
    hide Blind;
    var v :| 0 <= v < |s.writers| && Threat(s.writers[v], s.writers[w].path, c);
    var left := Lands(s, w, v, c, hash);
    var t := Do(s, Land(v, left, true), hash);
    if t.writers[w].pc.Ready? {
      OtherFileIsBlind(t, w, c, left, hash);
      assert Run([s, t], [Land(v, left, true)], hash);
      assert [s, t][1] == t;
    } else {
      ParentsReady(t, w, hash);
      var r := Do(t, MakeParents(w, {}, true), hash);
      OtherFileIsBlind(r, w, c, left, hash);
      assert Run([s, t, r], [Land(v, left, true), MakeParents(w, {}, true)], hash);
      assert [s, t, r][2] == r;
    }
  }

  /**
   A compare that has succeeded is good for the write that follows, whatever happens in between,
   exactly when no detached write of the path is in flight that could change the file.
   */
  lemma CompareHoldsUnlessThreatened(s: State, w: WriterId, c: string, hash: Hash)
    requires Inv(s, hash) && Injective(hash) && w < |s.writers| && s.writers[w].pc.Checked()
    requires s.Node(s.writers[w].path) == Some(File(c)) && Some(hash(c)) == s.writers[w].expected
    ensures CanWriteBlind(s, w, hash) <==> Threatened(s, s.writers[w].path, c)
  {
    hide Inv;
    hide Threatened;
    hide Blind;
    if Threatened(s, s.writers[w].path, c) {
      ThreatCanBlind(s, w, c, hash);
    } else {
      forall states, steps | Run(states, steps, hash) && states[0] == s ensures !Blind(states[|steps|], w, hash) {
        RunHarmless(states, steps, |steps|, w, c, false, hash);
        HeldIsNotBlind(states[|steps|], w, c, hash);
      }
    }
  }

  /** The same at the moment of the compare, in every execution. */
  lemma ComparedInExecution(states: seq<State>, steps: seq<Step>, n: nat, w: WriterId, hash: Hash)
    requires Execution(states, steps, hash) && n < |steps| && steps[n] == Compare(w, true) && Injective(hash)
    requires states[n + 1].writers[w].pc.Cleared?
    ensures var s := states[n];
            var p := s.writers[w].path;
            CanWriteBlind(states[n + 1], w, hash) <==> Threatened(s, p, s.files[p].content)
  {
    hide Inv;
    hide CanWriteBlind;
    var s, t := states[n], states[n + 1];
    var c := s.files[s.writers[w].path].content;
    ExecutionInv(states, steps, n + 1, hash);
    forall v | 0 <= v < |s.writers| ensures Threat(s.writers[v], s.writers[w].path, c) == Threat(t.writers[v], s.writers[w].path, c) {
    }
    assert Threatened(s, s.writers[w].path, c) == Threatened(t, s.writers[w].path, c);
    CompareHoldsUnlessThreatened(t, w, c, hash);
  }

  /**
   What a writer reads again behind its write is what it wrote, whatever happens in between, exactly
   when no detached write of the path is in flight that could change the file.
   */
  lemma RereadHoldsUnlessThreatened(s: State, w: WriterId, hash: Hash)
    requires Inv(s, hash) && At(s, w, Reading) && s.Node(s.writers[w].path) == Some(File(s.writers[w].content))
    ensures CanReadOther(s, w, hash) <==> Threatened(s, s.writers[w].path, s.writers[w].content)
  {
    hide Inv;
    hide Threatened;
    var c := s.writers[w].content;
    if Threatened(s, s.writers[w].path, c) {
      ThreatCanLeadAstray(s, w, hash);
    } else {
      forall states, steps | Run(states, steps, hash) && states[0] == s ensures !Astray(states[|steps|], w) {
        RunHarmless(states, steps, |steps|, w, c, true, hash);
        HeldIsNotAstray(states[|steps|], w);
      }
    }
  }

  lemma ThreatCanLeadAstray(s: State, w: WriterId, hash: Hash)
    requires At(s, w, Reading) && s.Node(s.writers[w].path) == Some(File(s.writers[w].content))
    requires Threatened(s, s.writers[w].path, s.writers[w].content)
    ensures CanReadOther(s, w, hash)
  {
    hide Enabled;
    hide Do;
    var c := s.writers[w].content;
    var v :| 0 <= v < |s.writers| && Threat(s.writers[v], s.writers[w].path, c);
    var left := Lands(s, w, v, c, hash);
    var t := Do(s, Land(v, left, true), hash);
    assert Run([s, t], [Land(v, left, true)], hash);
    assert [s, t][1] == t;
  }

  /** The same at the moment of the write, in every execution. */
  lemma WrittenInExecution(states: seq<State>, steps: seq<Step>, n: nat, w: WriterId, hash: Hash)
    requires Execution(states, steps, hash) && n < |steps| && steps[n] == Save(w)
    ensures var s, a := states[n], states[n].writers[w];
            CanReadOther(states[n + 1], w, hash) <==> Threatened(s, a.path, a.content)
  {
    hide Inv;
    hide CanReadOther;
    var s, t := states[n], states[n + 1];
    var a := s.writers[w];
    ExecutionInv(states, steps, n + 1, hash);
    forall v | 0 <= v < |s.writers| ensures Threat(s.writers[v], a.path, a.content) == Threat(t.writers[v], a.path, a.content) {
    }
    assert Threatened(s, a.path, a.content) == Threatened(t, a.path, a.content);
    RereadHoldsUnlessThreatened(t, w, hash);
  }

  // ---- an update that is lost ----

  ghost predicate Reachable(s: State, hash: Hash) {
    exists states, steps :: Execution(states, steps, hash) && states[|states| - 1] == s
  }

  lemma Play(s: State, e: Step, t: State, hash: Hash)
    requires Reachable(s, hash) && Enabled(s, e) && t == Do(s, e, hash)
    ensures Reachable(t, hash)
  {
    hide Do;
    hide Enabled;
    var states, steps :| Execution(states, steps, hash) && states[|states| - 1] == s;
    assert Execution(states + [t], steps + [e], hash);
  }

  const FILE: map<Path, Node> := map["p" := File("a")]

  /** A request to put `content` in the place of what hashes to `x`. */
  function Request(content: string, x: string, lock: LockId, pc: Pc, calm: bool): Writer {
    Writer("p", content, Some(x), lock, pc, calm)
  }

  function First(pc: Pc, x: string): State {
    State(map["p" := 0], 1, if pc.InLock() then map[0 := 0] else map[], FILE,
          [Request("b", x, 0, pc, pc.Checked() || pc == Detached(true))], [])
  }

  /** The first request compares, and is dropped with its write in flight. */
  lemma FirstDetaches(hash: Hash)
    requires hash("a") != ""
    ensures Reachable(First(Detached(true), hash("a")), hash)
  {
    hide Reachable;
    hide Quiet;
    var x := hash("a");
    StartsEmpty(hash);
    var arrived := State(map[], 0, map[], FILE, [Request("b", x, 0, Arrived, false)], []);
    Play(Init(FILE), Arrive("p", "b", Some(x)), arrived, hash);
    Play(arrived, Take(0), First(Waiting, x), hash);
    Play(First(Waiting, x), Enter(0), First(Probing, x), hash);
    Play(First(Probing, x), Probe(0, true), First(Found, x), hash);
    Play(First(Found, x), Stat(0, false), First(Comparing, x), hash);
    FirstDetaches2(hash);
  }

  lemma StartsEmpty(hash: Hash)
    ensures Reachable(Init(FILE), hash)
  {
    assert Execution([Init(FILE)], [], hash);
  }

  lemma FirstDetaches2(hash: Hash)
    requires hash("a") != "" && Reachable(First(Comparing, hash("a")), hash)
    ensures Reachable(First(Detached(true), hash("a")), hash)
  {
    hide Reachable;
    var x := hash("a");
    Play(First(Comparing, x), Compare(0, true), First(Cleared, x), hash);
    var none: set<Path> := {};
    assert (map d | d in none :: Directory) + FILE == FILE;
    Play(First(Cleared, x), MakeParents(0, none, true), First(Ready, x), hash);
    Play(First(Ready, x), Detach(0), First(Detached(true), x), hash);
  }

  /** The second request, the first one's write still in flight. */
  function Second(pc: Pc, x: string): State {
    State(map["p" := 1], 2, if pc.InLock() then map[1 := 1] else map[], FILE,
          [Request("b", x, 0, Detached(true), true), Request("c", x, 1, pc, false)], [])
  }

  lemma SecondCompares(hash: Hash)
    requires hash("a") != "" && Reachable(First(Detached(true), hash("a")), hash)
    ensures Reachable(Second(Comparing, hash("a")), hash)
  {
    hide Reachable;
    hide Quiet;
    var x := hash("a");
    var s := First(Detached(true), x);
    var arrived := s.(writers := s.writers + [Request("c", x, 0, Arrived, false)]);
    Play(s, Arrive("p", "c", Some(x)), arrived, hash);
    Play(arrived, Take(1), Second(Waiting, x), hash);
    Play(Second(Waiting, x), Enter(1), Second(Probing, x), hash);
    Play(Second(Probing, x), Probe(1, true), Second(Found, x), hash);
    Play(Second(Found, x), Stat(1, false), Second(Comparing, x), hash);
  }

  lemma SecondReady(hash: Hash)
    requires hash("a") != "" && Reachable(Second(Comparing, hash("a")), hash)
    ensures Reachable(Second(Ready, hash("a")), hash)
  {
    hide Reachable;
    var x := hash("a");
    var none: set<Path> := {};
    assert (map d | d in none :: Directory) + FILE == FILE;
    assert Second(Comparing, x).writers[0].pc == Detached(true);
    Play(Second(Comparing, x), Compare(1, true), Second(Cleared, x), hash);
    Play(Second(Cleared, x), MakeParents(1, none, true), Second(Ready, x), hash);
  }

  /**
   Both requests expect the hash of `a` and both compare it. The first one's write lands between the
   second one's compare and its write, which then replaces `b`, a content its sender has never seen.
   */
  lemma DetachedWriteLosesAnUpdate(hash: Hash)
    requires hash("a") != ""
    ensures exists s ::
      && Reachable(s, hash) && |s.log| == 2 && |s.writers| == 2
      && s.log[0].path == s.log[1].path == "p" && s.log[0].writer == 0 && s.log[1].writer == 1
      && s.writers[0].expected == s.writers[1].expected == Some(hash("a"))
      && s.log[0].before == Some(File("a")) && s.log[0].after == File("b")
      && s.log[1].before == Some(File("b")) && s.log[1].after == File("c") && s.writers[1].pc == Unlocking(Written)
  {
    hide Reachable;
    var x := hash("a");
    FirstDetaches(hash);
    SecondCompares(hash);
    SecondReady(hash);
    var s := Second(Ready, x);
    var r1 := Record("p", Some(File("a")), File("b"), 0, true, false);
    var r2 := Record("p", Some(File("b")), File("c"), 1, true, false);
    var landed := s.(files := map["p" := File("b")], log := [r1],
                     writers := [Request("b", x, 0, Gone, false), Request("c", x, 1, Ready, false)]);
    assert !Quiet(s, "p") by { assert s.writers[0].pc == Detached(true); }
    Play(s, Land(0, "b", true), landed, hash);
    var saved := landed.(files := map["p" := File("c")], log := [r1, r2],
                         writers := [Request("b", x, 0, Gone, false), Request("c", x, 1, Reading, true)]);
    assert [r1] + [r2] == [r1, r2];
    Play(landed, Save(1), saved, hash);
    var done := saved.(writers := [Request("b", x, 0, Gone, false), Request("c", x, 1, Unlocking(Written), true)]);
    Play(saved, Reread(1, true), done, hash);
  }
}
