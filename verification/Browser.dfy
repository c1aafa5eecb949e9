/**
 Element refs of the browser tool: a snapshot hands them out, an action that may change the page
 makes them stale, and a relaunched browser knows none.
 */
module Browser {
  import opened Wrappers

  datatype Target = Ref(n: nat) | Selector(css: string)

  datatype Direction = Up | Down | Left | Right

  datatype Action =
    | Navigate(url: string)
    | Snapshot
    | Screenshot
    | Click(at: Target)
    | Type(at: Target, text: string, submit: bool)
    | PressKey(key: string)
    | Scroll(direction: Direction, amount: nat)
    | Back
    | Forward
    | Reload
    | WaitFor(selector: string, timeoutMs: nat)
    | Wait(ms: nat)
    | Evaluate(expression: string)
    | Select(at: Target, values: seq<string>)
    | Hover(at: Target)
  {
    function Target(): Option<Target> {
      if Click? || Type? || Select? || Hover? then Some(at) else None
    }

    predicate ByRef() { Target().Some? && Target().value.Ref? }

    predicate InvalidatesSnapshot() {
      Navigate? || Click? || Type? || PressKey? || Back? || Forward? || Reload? || Evaluate? || Select?
    }

    /** The actions that end by stamping the clock, if they succeed. */
    predicate Stamps() { Navigate? || Snapshot? }
  }

  datatype Refusal = PageChanged | NoSnapshotYet

  // ---- the objects ----

  class SnapshotClock {
    var epoch: nat
    var snapshotEpoch: Option<nat>

    constructor ()
      ensures epoch == 0 && snapshotEpoch == None
    {
      epoch, snapshotEpoch := 0, None;
    }

    function View(): Clock
      reads this
    {
      Clock(epoch, snapshotEpoch)
    }

    method Check(target: Target) returns (r: Option<Refusal>)
      ensures r == if target.Ref? then Verdict(View()) else None
    {
      match target {
        case Ref(_) =>
          if snapshotEpoch.Some? {
            r := if snapshotEpoch.value == epoch then None else Some(PageChanged);
          } else {
            r := Some(NoSnapshotYet);
          }
        case Selector(_) => r := None;
      }
    }

    method Stamp()
      modifies this
      ensures View() == old(View()).(snapshot := Some(old(epoch)))
    {
      snapshotEpoch := Some(epoch);
    }

    method Bump()
      modifies this
      ensures View() == old(View()).(epoch := old(epoch) + 1)
    {
      epoch := epoch + 1;
    }
  }

  class ChromiumEngine {
    const clock: SnapshotClock

    constructor ()
      ensures fresh(clock) && clock.View() == LAUNCHED
    {
      clock := new SnapshotClock();
    }

    /** What the page does is an input: `works` says whether running the action succeeds. */
    method Run(action: Action, works: bool)
      modifies clock
      ensures clock.View() == Ran(old(clock.View()), action, works)
    {
      if works && (action.Navigate? || action.Snapshot?) {
        clock.Stamp();
      }
    }

    /** Check the target, then bump, then run. */
    method Perform(action: Action, works: bool) returns (r: Option<Refusal>)
      modifies clock
      ensures r == if action.ByRef() then Verdict(old(clock.View())) else None
      ensures clock.View() == Performed(old(clock.View()), action, works)
    {
      var target := action.Target();
      if target.Some? {
        r := clock.Check(target.value);
        if r.Some? {
          return;
        }
      }
      r := None;
      if action.InvalidatesSnapshot() {
        clock.Bump();
      }
      Run(action, works);
    }
  }

  class EngineSlot {
    var engine: ChromiumEngine?

    constructor ()
      ensures engine == null
    {
      engine := null;
    }

    ghost function View(): Option<Clock>
      reads this, if engine == null then {} else {engine.clock}
    {
      if engine == null then None else Some(engine.clock.View())
    }

    /** A dead engine is dropped, a missing one launched; a failed launch leaves the slot empty. */
    method Get(alive: bool, launches: bool) returns (r: ChromiumEngine?)
      modifies this
      ensures r == engine && View() == Gotten(old(View()), alive, launches)
      ensures r != null && r != old(engine) ==> fresh(r) && fresh(r.clock)
    {
      if engine != null && !alive {
        engine := null;
      }
      if engine == null {
        if !launches {
          return null;
        }
        engine := new ChromiumEngine();
      }
      r := engine;
    }

    /** A `tools/call` request. */
    method Call(req: Request) returns (answer: Answer)
      modifies this, if engine == null then {} else {engine.clock}
      ensures View() == CallEngine(old(View()), req)
      ensures answer == AnswerTo(old(View()), req)
    {
      var e := Get(req.alive, req.launches);
      if e == null {
        return NoEngine;
      }
      var refused := e.Perform(req.action, req.works);
      answer := if refused.Some? then Refused(refused.value) else Reached(req.works);
    }
  }

  // ---- what they compute ----

  datatype Clock = Clock(epoch: nat, snapshot: Option<nat>)

  const LAUNCHED := Clock(0, None)

  function Verdict(c: Clock): Option<Refusal> {
    match c.snapshot
    case None => Some(NoSnapshotYet)
    case Some(e) => if e == c.epoch then None else Some(PageChanged)
  }

  function Ran(c: Clock, a: Action, works: bool): Clock {
    if works && a.Stamps() then c.(snapshot := Some(c.epoch)) else c
  }

  function Performed(c: Clock, a: Action, works: bool): Clock {
    if a.ByRef() && Verdict(c).Some? then c
    else Ran(if a.InvalidatesSnapshot() then c.(epoch := c.epoch + 1) else c, a, works)
  }

  function Gotten(c: Option<Clock>, alive: bool, launches: bool): Option<Clock> {
    if c.Some? && alive then c
    else if launches then Some(LAUNCHED)
    else None
  }

  /** A request, with how the world answers it: is the browser alive, does a launch work, does the action. */
  datatype Request = Request(action: Action, alive: bool, launches: bool, works: bool)

  datatype Answer = NoEngine | Refused(why: Refusal) | Reached(ok: bool)

  function CallEngine(c: Option<Clock>, req: Request): Option<Clock> {
    match Gotten(c, req.alive, req.launches)
    case None => None
    case Some(d) => Some(Performed(d, req.action, req.works))
  }

  function AnswerTo(c: Option<Clock>, req: Request): Answer {
    match Gotten(c, req.alive, req.launches)
    case None => NoEngine
    case Some(d) =>
      if req.action.ByRef() && Verdict(d).Some? then Refused(Verdict(d).value) else Reached(req.works)
  }

  function After(reqs: seq<Request>): Option<Clock> {
    if reqs == [] then None else CallEngine(After(reqs[..|reqs| - 1]), reqs[|reqs| - 1])
  }

  // ---- what happened, without clocks ----

  datatype Event = Launch | MayChangePage | Stamp

  /** What one request leaves in the history, given what the engine answered. */
  function Happened(had: bool, req: Request, answer: Answer): seq<Event> {
    (if had && req.alive then [] else if req.launches then [Launch] else [])
    + (if !answer.Reached? then []
       else (if req.action.InvalidatesSnapshot() then [MayChangePage] else [])
            + (if req.works && req.action.Stamps() then [Stamp] else []))
  }

  function History(reqs: seq<Request>): seq<Event> {
    if reqs == [] then []
    else
      var front, req := reqs[..|reqs| - 1], reqs[|reqs| - 1];
      History(front) + Happened(After(front).Some?, req, AnswerTo(After(front), req))
  }

  /** The last of these events is a stamp: nothing may have changed the page, or the browser, since. */
  predicate SnapshotIsCurrent(h: seq<Event>) {
    h != [] && h[|h| - 1].Stamp?
  }

  /** There was a stamp in this browser's lifetime. */
  predicate StampedSinceLaunch(h: seq<Event>) {
    h != [] && (h[|h| - 1].Stamp? || (h[|h| - 1].MayChangePage? && StampedSinceLaunch(h[..|h| - 1])))
  }

  /** The history up to the moment the request's target is checked. */
  function AtCheck(reqs: seq<Request>, req: Request): seq<Event> {
    History(reqs) + (if After(reqs).Some? && req.alive then [] else if req.launches then [Launch] else [])
  }

  predicate Agrees(c: Clock, h: seq<Event>) {
    && (c.snapshot == Some(c.epoch) <==> SnapshotIsCurrent(h))
    && (c.snapshot.Some? <==> StampedSinceLaunch(h))
    && (c.snapshot.Some? ==> c.snapshot.value <= c.epoch)
  }

  lemma EventAgrees(c: Clock, h: seq<Event>, e: Event)
    requires Agrees(c, h)
    ensures Agrees(match e case Launch => LAUNCHED case MayChangePage => c.(epoch := c.epoch + 1) case Stamp => c.(snapshot := Some(c.epoch)),
                   h + [e])
  {
    assert (h + [e])[..|h + [e]| - 1] == h;
  }

  lemma LaunchAgrees(h: seq<Event>)
    ensures Agrees(LAUNCHED, h + [Launch])
  {
  }

  lemma PerformedAgrees(c: Clock, h: seq<Event>, req: Request)
    requires Agrees(c, h) && !(req.action.ByRef() && Verdict(c).Some?)
    ensures var bumped := if req.action.InvalidatesSnapshot() then h + [MayChangePage] else h;
            Agrees(Performed(c, req.action, req.works), if req.works && req.action.Stamps() then bumped + [Stamp] else bumped)
  {
    hide Agrees;
    EventAgrees(c, h, MayChangePage);
    EventAgrees(c, h, Stamp);
    EventAgrees(c.(epoch := c.epoch + 1), h + [MayChangePage], Stamp);
  }

  lemma {:induction false} HistoryAgrees(reqs: seq<Request>)
    ensures After(reqs).Some? ==> Agrees(After(reqs).value, History(reqs))
  {
    if reqs != [] {
      var front, req := reqs[..|reqs| - 1], reqs[|reqs| - 1];
      HistoryAgrees(front);
      CheckAgrees(front, req);
      RequestAgrees(front, req);
    }
  }

  lemma CheckAgrees(reqs: seq<Request>, req: Request)
    requires After(reqs).Some? ==> Agrees(After(reqs).value, History(reqs))
    ensures var c := Gotten(After(reqs), req.alive, req.launches); c.Some? ==> Agrees(c.value, AtCheck(reqs, req))
  {
    hide Agrees;
    hide After;
    hide History;
    LaunchAgrees(History(reqs));
    assert History(reqs) + [] == History(reqs);
  }

  lemma RequestAgrees(front: seq<Request>, req: Request)
    requires var c := Gotten(After(front), req.alive, req.launches); c.Some? ==> Agrees(c.value, AtCheck(front, req))
    ensures var c := CallEngine(After(front), req);
            c.Some? ==> Agrees(c.value, History(front) + Happened(After(front).Some?, req, AnswerTo(After(front), req)))
  {
    hide Agrees;
    hide After;
    hide History;
    var got := Gotten(After(front), req.alive, req.launches);
    if got.Some? {
      var h := AtCheck(front, req);
      var all := History(front) + Happened(After(front).Some?, req, AnswerTo(After(front), req));
      if req.action.ByRef() && Verdict(got.value).Some? {
        assert all == h;
      } else {
        PerformedAgrees(got.value, h, req);
        var bumped := if req.action.InvalidatesSnapshot() then h + [MayChangePage] else h;
        assert all == if req.works && req.action.Stamps() then bumped + [Stamp] else bumped;
      }
    }
  }

  /**
   In every run an action on a ref reaches the page exactly when, in the life of the browser that
   would carry it out, a snapshot was taken after the last action that may have changed the page.
   */
  lemma RefsReachOnlyCurrentPages(reqs: seq<Request>, req: Request)
    requires req.action.ByRef()
    ensures AnswerTo(After(reqs), req).Reached? <==>
            Gotten(After(reqs), req.alive, req.launches).Some? && SnapshotIsCurrent(AtCheck(reqs, req))
    ensures AnswerTo(After(reqs), req) == Refused(NoSnapshotYet) <==>
            Gotten(After(reqs), req.alive, req.launches).Some? && !StampedSinceLaunch(AtCheck(reqs, req))
  {
    hide After;
    hide History;
    hide AtCheck;
    HistoryAgrees(reqs);
    CheckAgrees(reqs, req);
  }

  /** A relaunched browser refuses every ref, whatever its predecessor had shown. */
  lemma RelaunchForgetsRefs(reqs: seq<Request>, req: Request)
    requires req.action.ByRef() && req.launches && !(After(reqs).Some? && req.alive)
    ensures AnswerTo(After(reqs), req) == Refused(NoSnapshotYet)
  {
    hide After;
  }

  /** Once refused, refs stay refused until a snapshot or a navigation succeeds. */
  lemma RefusedUntilStamped(reqs: seq<Request>, later: seq<Request>, req: Request)
    requires !SnapshotIsCurrent(History(reqs))
    requires forall i :: 0 <= i < |later| ==> !(later[i].works && later[i].action.Stamps())
    requires req.action.ByRef()
    ensures !AnswerTo(After(reqs + later), req).Reached?
  {
    hide After;
    hide AtCheck;
    RefsReachOnlyCurrentPages(reqs + later, req);
    NotCurrent(reqs, later);
    StillNotCurrent(reqs + later, req);
  }

  lemma StillNotCurrent(reqs: seq<Request>, req: Request)
    requires !SnapshotIsCurrent(History(reqs))
    ensures !SnapshotIsCurrent(AtCheck(reqs, req))
  {
    hide History;
    hide After;
    assert History(reqs) + [] == History(reqs);
  }

  lemma HappenedUnstamped(h: seq<Event>, had: bool, req: Request, answer: Answer)
    requires !SnapshotIsCurrent(h) && !(req.works && req.action.Stamps())
    ensures !SnapshotIsCurrent(h + Happened(had, req, answer))
  {
    var tail := Happened(had, req, answer);
    assert tail == [] ==> h + tail == h;
  }

  lemma {:induction false} NotCurrent(reqs: seq<Request>, later: seq<Request>)
    requires !SnapshotIsCurrent(History(reqs))
    requires forall i :: 0 <= i < |later| ==> !(later[i].works && later[i].action.Stamps())
    ensures !SnapshotIsCurrent(History(reqs + later))
  {
    hide After;
    hide AnswerTo;
    hide Happened;
    hide SnapshotIsCurrent;
    var all := reqs + later;
    if later == [] {
      assert all == reqs;
    } else {
      var n := |later| - 1;
      assert all[..|all| - 1] == reqs + later[..n] && all[|all| - 1] == later[n];
      NotCurrent(reqs, later[..n]);
      var front := all[..|all| - 1];
      HappenedUnstamped(History(front), After(front).Some?, later[n], AnswerTo(After(front), later[n]));
    }
  }

  // ---- action by action ----

  /** An action at an element that an earlier snapshot numbered. */
  predicate AtRef(a: Action) {
    (a.Click? || a.Type? || a.Select? || a.Hover?) && a.at.Ref?
  }

  lemma AfterTwo(reqs: seq<Request>, first: Request, second: Request)
    ensures After(reqs + [first]) == CallEngine(After(reqs), first)
    ensures After(reqs + [first, second]) == CallEngine(CallEngine(After(reqs), first), second)
  {
    var one, two := reqs + [first], reqs + [first, second];
    assert one[..|one| - 1] == reqs && two[..|two| - 1] == one;
  }

  /**
   What one action between a snapshot and the use of a ref does to the ref: it stays good behind a
   look, a scroll, a wait, a hover, another snapshot or a navigation that works, and behind nothing else.
   */
  lemma OneActionLater(reqs: seq<Request>, shot: Request, req: Request, use: Request)
    requires shot.action == Snapshot && AnswerTo(After(reqs), shot) == Reached(true)
    requires req.alive && AnswerTo(After(reqs + [shot]), req).Reached?
    requires use.alive && AtRef(use.action)
    ensures var a, answer := req.action, AnswerTo(After(reqs + [shot, req]), use);
            if (a.Navigate? && req.works) || a.Snapshot? || a.Screenshot? || a.Scroll? || a.WaitFor? || a.Wait? || a.Hover?
            then answer == Reached(use.works) else answer == Refused(PageChanged)
  {
    hide After;
    AfterTwo(reqs, shot, req);
  }

  /** Right behind the snapshot every ref is good; in a browser that has shown none, no ref is. */
  lemma RefsComeFromSnapshots(reqs: seq<Request>, shot: Request, use: Request)
    requires AtRef(use.action)
    ensures shot.action == Snapshot && AnswerTo(After(reqs), shot) == Reached(true) && use.alive ==>
              AnswerTo(After(reqs + [shot]), use) == Reached(use.works)
    ensures !use.alive && use.launches ==> AnswerTo(After(reqs), use) == Refused(NoSnapshotYet)
  {
    hide After;
    AfterTwo(reqs, shot, use);
  }

  /** Whatever is not done at a ref is never refused by a browser that is there. */
  lemma OthersAreNotRefused(reqs: seq<Request>, req: Request)
    requires !AtRef(req.action)
    ensures AnswerTo(After(reqs), req) ==
            if (After(reqs).Some? && req.alive) || req.launches then Reached(req.works) else NoEngine
  {
    hide After;
  }
}
