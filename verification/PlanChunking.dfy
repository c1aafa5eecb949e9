/**
 How the plan parser's result depends on where a stream of text is cut into chunks.

 A stream, of any length, is a sequence of gaps and complete plan blocks of either kind. Whatever
 the cuts, the parser ends with the end of the gaps in its buffer, with all of them if they fit
 beside any one block, and reports every plan once. The order of the plans is the same for all
 cuts exactly when no update block overtakes a later proposed block with a different plan, because
 one call reports proposed blocks before update blocks.
 */
module PlanChunking {
  import opened Wrappers
  import opened Strings
  import Utf8
  import opened PlanScan
  import opened PlanSpec

  datatype Kind = Proposed | Update {
    function Tag(): PlanScan.Tag { if Proposed? then PROPOSED else UPDATE }
    function Other(): Kind { if Proposed? then Update else Proposed }
  }

  datatype Item = Gap(text: string) | Element(kind: Kind, text: string) {
    predicate Of(k: Kind) { Element? && kind == k }
  }

  /** `x` is one opening tag, a body and the closing tag, which occurs nowhere else in it. */
  predicate OneElement(t: PlanScan.Tag, x: string) {
    && MatchHead(t, x).Head?
    && MatchHead(t, x).end + |t.close| <= |x|
    && Find(x, t.close) == Some(|x| - |t.close|)
  }

  predicate WellFormed(it: Item) {
    && '[' !in it.text
    && match it
       case Gap(x) => '<' !in x
       case Element(k, x) => OneElement(k.Tag(), x) && !Contains(x, k.Other().Tag().open)
  }

  ghost predicate AllWellFormed(items: seq<Item>) {
    forall it :: it in items ==> WellFormed(it)
  }

  function Text(items: seq<Item>): string {
    if items == [] then "" else items[0].text + Text(items[1..])
  }

  function Gaps(items: seq<Item>): string {
    if items == [] then "" else (if items[0].Gap? then items[0].text else "") + Gaps(items[1..])
  }

  /** The plans of one item: none for a gap, at most one for a block. */
  function ItemPlan(u: Unescape, it: Item): seq<Plan> {
    if it.Gap? then [] else
      match MatchBlock(it.kind.Tag(), it.text)
      case None => []
      case Some(b) => BlockPlan(u, it.text, b)
  }

  /** The plans in stream order. */
  function Plans(u: Unescape, items: seq<Item>): seq<Plan> {
    if items == [] then [] else ItemPlan(u, items[0]) + Plans(u, items[1..])
  }

  function PlansOf(u: Unescape, k: Kind, items: seq<Item>): seq<Plan> {
    if items == [] then []
    else (if items[0].Of(k) then ItemPlan(u, items[0]) else []) + PlansOf(u, k, items[1..])
  }

  /** The order in which one call reports the blocks it completes. */
  function CallOrder(u: Unescape, items: seq<Item>): seq<Plan> {
    PlansOf(u, Proposed, items) + PlansOf(u, Update, items)
  }

  function Without(k: Kind, items: seq<Item>): seq<Item> {
    if items == [] then []
    else (if items[0].Of(k) then [] else [items[0]]) + Without(k, items[1..])
  }

  function Flatten(chunks: seq<string>): string {
    if chunks == [] then "" else chunks[0] + Flatten(chunks[1..])
  }

  // ---- one block, one gap ----

  lemma NoneWithoutLess(t: PlanScan.Tag, x: string, y: string, i: nat)
    requires '<' !in x && i < |x|
    ensures !At(x + y, i, t.open)
  {
    NotAt(x + y, i, t.open, 0);
  }

  lemma GapInert(t: PlanScan.Tag, x: string)
    requires '<' !in x
    ensures Inert(t, x)
  {
    hide At;
    forall y: string, i: nat | i < |x| ensures !At(x + y, i, t.open) {
      NoneWithoutLess(t, x, y, i);
    }
  }

  /** A block of the other kind holds no opening tag, nor the start of one. */
  lemma OtherElementInert(k: Kind, x: string)
    requires WellFormed(Element(k.Other(), x))
    ensures Inert(k.Tag(), x)
  {
    hide MatchHead;
    hide At;
    var t := k.Tag();
    var c := k.Other().Tag().close;
    assert At(x, |x| - |c|, c);
    AtLast(x, |x| - |c|, c);
    forall y: string, i: nat | i < |x| ensures !At(x + y, i, t.open) {
      if i + |t.open| <= |x| {
        AtPrefix(x, y, i, t.open);
      } else {
        NotAt(x + y, i, t.open, |x| - 1 - i);
      }
    }
  }

  lemma CloseAfterHead(t: PlanScan.Tag, x: string)
    requires OneElement(t, x)
    ensures var h := MatchHead(t, x).end;
            h + |t.close| <= |x| && Find(x[h..], t.close) == Some(|x| - |t.close| - h)
  {
    hide MatchHead;
    hide At;
    var h := MatchHead(t, x).end;
    var c := |x| - |t.close|;
    AtDrop(x, h, c - h, t.close);
    forall j | 0 <= j < c - h ensures !At(x[h..], j, t.close) {
      AtDrop(x, h, j, t.close);
    }
  }

  /** A complete block is matched as itself, whatever follows it. */
  lemma ElementMatches(t: PlanScan.Tag, x: string, y: string)
    requires OneElement(t, x)
    ensures MatchBlock(t, x).Some? && MatchBlock(t, x).value.end == |x|
    ensures FindBlock(t, x + y) == MatchBlock(t, x)
  {
    hide MatchHead;
    hide At;
    hide Find;
    var h := MatchHead(t, x).end;
    CloseAfterHead(t, x);
    HeadStable(t, x, y);
    assert (x + y)[h..] == x[h..] + y;
    FindStable(x[h..], y, t.close);
    assert MatchBlock(t, x + y) == MatchBlock(t, x);
  }

  /** A text cut short of the end of an item, or inside a gap. */
  predicate Partial(it: Item, cut: string) {
    cut <= it.text && (it.Element? ==> |cut| < |it.text|)
  }

  lemma NotAtPrefix(cut: string, x: string, j: int, pat: string)
    requires cut <= x && !At(x, j, pat)
    ensures !At(cut, j, pat)
  {
    assert x == cut + x[|cut|..];
    if j + |pat| <= |cut| {
      AtPrefix(cut, x[|cut|..], j, pat);
    }
  }

  /** An unfinished item contains no block of either kind. */
  lemma PartialHasNoBlock(k: Kind, it: Item, cut: string)
    requires WellFormed(it) && Partial(it, cut)
    ensures FindBlock(k.Tag(), cut).None?
  {
    hide MatchHead;
    hide At;
    var t := k.Tag();
    if it.Of(k) {
      forall j ensures !At(cut, j, t.close) {
        if 0 <= j < |it.text| - |t.close| {
          NotAtPrefix(cut, it.text, j, t.close);
        } else {
          TooLateAt(cut, j, t.close);
        }
      }
      NoCloseNoBlock(t, cut);
    } else {
      forall j ensures !At(cut, j, t.open) {
        if 0 <= j < |cut| && it.Gap? {
          NoneWithoutLess(t, cut, "", j);
          assert cut + "" == cut;
        } else if it.Gap? {
          TooLateAt(cut, j, t.open);
        } else {
          NotAtPrefix(cut, it.text, j, t.open);
        }
      }
      NoOpenNoBlock(t, cut);
    }
  }

  lemma TooLateAt(s: string, j: int, pat: string)
    requires j < 0 || j + |pat| > |s|
    ensures !At(s, j, pat)
  {
  }

  // ---- draining ----

  lemma SliceOfTail(s: string, n: nat, i: nat, j: nat)
    requires n <= |s| && i <= j <= |s| - n
    ensures s[n + i..n + j] == s[n..][i..j]
  {
    var a, b := s[n + i..n + j], s[n..][i..j];
    assert |a| == |b|;
    forall k | 0 <= k < |a| ensures a[k] == b[k] {
    }
  }

  lemma SamePlan(u: Unescape, s: string, y: string, b: Block, n: nat)
    requires InBounds(y, b) && n <= |s| && s[n..] == y
    ensures InBounds(s, b.Shift(n)) && BlockPlan(u, s, b.Shift(n)) == BlockPlan(u, y, b)
  {
    hide ParseBody;
    SliceOfTail(s, n, b.open, b.close);
  }

  lemma DrainInert(u: Unescape, t: PlanScan.Tag, x: string, y: string)
    requires Inert(t, x)
    ensures Drain(u, t, x + y) == Drained(Drain(u, t, y).plans, x + Drain(u, t, y).rest)
  {
    hide FindBlock;
    hide BlockPlan;
    hide Drain;
    hide Inert;
    FindBlockAfterInert(t, x, y);
    var s := x + y;
    match FindBlock(t, y)
    case None =>
      DrainNothing(u, t, y);
      DrainNothing(u, t, s);
    case Some(b) =>
      assert s[|x| + b.end..] == y[b.end..];
      SamePlan(u, s, y, b, |x|);
      DrainFirst(u, t, y, b);
      DrainFirst(u, t, s, b.Shift(|x|));
      assert s[..|x| + b.start] == x + y[..b.start];
  }

  lemma DrainElement(u: Unescape, k: Kind, x: string, y: string)
    requires OneElement(k.Tag(), x)
    ensures Drain(u, k.Tag(), x + y) ==
            Drained(ItemPlan(u, Element(k, x)) + Drain(u, k.Tag(), y).plans, Drain(u, k.Tag(), y).rest)
  {
    hide FindBlock;
    hide MatchBlock;
    hide ParseBody;
    hide OneElement;
    hide Drain;
    ElementMatches(k.Tag(), x, y);
    var b := MatchBlock(k.Tag(), x).value;
    DrainFirst(u, k.Tag(), x + y, b);
    assert (x + y)[b.end..] == y;
    assert (x + y)[b.open..b.close] == x[b.open..b.close];
    assert (x + y)[..0] + Drain(u, k.Tag(), y).rest == Drain(u, k.Tag(), y).rest;
  }

  lemma DrainHead(u: Unescape, k: Kind, it: Item, y: string)
    requires WellFormed(it)
    ensures Drain(u, k.Tag(), it.text + y) ==
            if it.Of(k) then Drained(ItemPlan(u, it) + Drain(u, k.Tag(), y).plans, Drain(u, k.Tag(), y).rest)
            else Drained(Drain(u, k.Tag(), y).plans, it.text + Drain(u, k.Tag(), y).rest)
  {
    hide ItemPlan;
    hide Drain;
    hide OneElement;
    hide Inert;
    hide Contains;
    if it.Of(k) {
      DrainElement(u, k, it.text, y);
    } else {
      if it.Gap? {
        GapInert(k.Tag(), it.text);
      } else {
        OtherElementInert(k, it.text);
      }
      DrainInert(u, k.Tag(), it.text, y);
    }
  }

  lemma FirstItem(k: Kind, items: seq<Item>)
    requires items != []
    ensures Text(items) == items[0].text + Text(items[1..])
    ensures Text(Without(k, items)) == (if items[0].Of(k) then "" else items[0].text) + Text(Without(k, items[1..]))
  {
    var w := Without(k, items[1..]);
    if items[0].Of(k) {
      assert Without(k, items) == w;
      assert "" + Text(w) == Text(w);
    } else {
      assert Without(k, items) == [items[0]] + w;
      assert ([items[0]] + w)[1..] == w;
    }
  }

  lemma FirstPlans(u: Unescape, k: Kind, items: seq<Item>)
    requires items != []
    ensures PlansOf(u, k, items) == (if items[0].Of(k) then ItemPlan(u, items[0]) else []) + PlansOf(u, k, items[1..])
  {
  }

  /** Draining one kind reports its blocks in order and leaves everything else in place. */
  lemma {:induction false} DrainItems(u: Unescape, k: Kind, items: seq<Item>, cut: string)
    requires AllWellFormed(items) && FindBlock(k.Tag(), cut).None?
    ensures Drain(u, k.Tag(), Text(items) + cut) == Drained(PlansOf(u, k, items), Text(Without(k, items)) + cut)
  {
    hide FindBlock;
    hide ItemPlan;
    hide WellFormed;
    hide Drain;
    if items == [] {
      DrainNothing(u, k.Tag(), cut);
      assert "" + cut == cut;
    } else {
      DrainItems(u, k, items[1..], cut);
      DrainCons(u, k, items, cut);
    }
  }

  lemma DrainCons(u: Unescape, k: Kind, items: seq<Item>, cut: string)
    requires AllWellFormed(items) && items != []
    requires Drain(u, k.Tag(), Text(items[1..]) + cut) ==
             Drained(PlansOf(u, k, items[1..]), Text(Without(k, items[1..])) + cut)
    ensures Drain(u, k.Tag(), Text(items) + cut) == Drained(PlansOf(u, k, items), Text(Without(k, items)) + cut)
  {
    hide ItemPlan;
    hide WellFormed;
    hide Drain;
    hide Text;
    hide Without;
    hide PlansOf;
    var it, y := items[0], Text(items[1..]) + cut;
    assert it in items;
    FirstItem(k, items);
    FirstPlans(u, k, items);
    assert Text(items) + cut == it.text + y;
    DrainHead(u, k, it, y);
    var left := Text(Without(k, items[1..]));
    assert ("" + left) + cut == left + cut && (it.text + left) + cut == it.text + (left + cut);
    assert [] + PlansOf(u, k, items[1..]) == PlansOf(u, k, items[1..]);
  }

  // ---- one call ----

  /** Taking out proposed blocks, then update blocks, leaves the gaps and loses no update plan. */
  lemma {:induction false} TextWithoutBoth(u: Unescape, items: seq<Item>)
    ensures Text(Without(Update, Without(Proposed, items))) == Gaps(items)
    ensures PlansOf(u, Update, Without(Proposed, items)) == PlansOf(u, Update, items)
    ensures forall it :: it in Without(Proposed, items) ==> it in items
  {
    hide ItemPlan;
    if items != [] {
      var it := items[0];
      TextWithoutBoth(u, items[1..]);
      var rest := Without(Proposed, items[1..]);
      if it.Of(Proposed) {
        assert Without(Proposed, items) == rest;
      } else {
        var left := Without(Proposed, items);
        assert left == [it] + rest;
        assert left[0] == it && left[1..] == rest;
        var w := Without(Update, rest);
        assert [] + w == w && ([it] + w)[1..] == w;
      }
    }
  }

  lemma {:induction false} NoBracketNoBox(s: string)
    requires '[' !in s
    ensures !HasCheckbox(s)
    decreases |s|
  {
    hide BoxHead;
    if Find(s, "\n").Some? {
      NoBracketNoBox(s[Find(s, "\n").value + 1..]);
    }
  }

  lemma {:induction false} NoBracketInText(items: seq<Item>)
    requires AllWellFormed(items)
    ensures '[' !in Gaps(items) && '<' !in Gaps(items) && '[' !in Text(items)
    ensures |Gaps(items)| <= |Text(items)|
  {
    hide OneElement;
    hide Contains;
    if items != [] {
      assert items[0] in items;
      assert forall it :: it in items[1..] ==> it in items;
      NoBracketInText(items[1..]);
    }
  }

  /** `t` is an end of `s`. */
  predicate Ends(s: string, t: string) {
    |t| <= |s| && t == s[|s| - |t|..]
  }

  lemma EndsItself(s: string)
    ensures Ends(s, s)
  {
  }

  lemma EndsAfter(a: string, b: string, c: string, t: string)
    requires Ends(a, b) && Ends(b + c, t)
    ensures Ends(a + c, t)
  {
    assert b + c == (a + c)[|a| - |b|..];
  }

  lemma EndOfGap(x: string, t: string)
    requires WellFormed(Gap(x)) && Ends(x, t)
    ensures WellFormed(Gap(t))
  {
  }

  /** The trim cuts into the gap text only, because the unfinished item is no more than is kept. */
  lemma TrimGap(x: string, cut: string) returns (g: string)
    requires '<' !in x && |cut| <= MAX_KEEP
    ensures TrimBuffer(x + cut) == g + cut && Ends(x, g)
    ensures |x| + |cut| <= MAX_KEEP ==> g == x
  {
    hide LastIndex;
    hide Utf8.FloorBoundary;
    var s := x + cut;
    var k := KeepFrom(s);
    if |s| > MAX_KEEP {
      var start := Utf8.FloorBoundary(s, |s| - MAX_KEEP);
      assert s[..start] == x[..start];
      assert k == start;
    }
    g := x[k..];
    assert s[k..] == g + cut;
  }

  /**
   One call on a buffer holding gap text `g` and an unfinished item `cut`, with a chunk that
   completes `items` and leaves `cut2` of the item `next` unfinished.
   */
  lemma FeedStep(u: Unescape, g: string, cut: string, chunk: string, items: seq<Item>, next: Item, cut2: string)
    requires AllWellFormed(items) && WellFormed(Gap(g)) && WellFormed(next) && Partial(next, cut2)
    requires cut + chunk == Text(items) + cut2
    ensures Feed(u, g + cut, chunk) == Drained(CallOrder(u, items), TrimBuffer(g + Gaps(items) + cut2))
  {
    hide Drain;
    hide WellFormed;
    hide HasCheckbox;
    hide Partial;
    hide BoxSteps;
    hide Lines;
    hide KeepLines;
    hide TrimBuffer;
    var all := [Gap(g)] + items;
    var s := g + cut + chunk;
    assert s == g + (cut + chunk) == Text(all) + cut2;
    PartialHasNoBlock(Proposed, next, cut2);
    PartialHasNoBlock(Update, next, cut2);
    DrainItems(u, Proposed, all, cut2);
    var left := Without(Proposed, all);
    TextWithoutBoth(u, all);
    DrainItems(u, Update, left, cut2);
    assert PlansOf(u, Proposed, all) == PlansOf(u, Proposed, items);
    assert PlansOf(u, Update, all) == PlansOf(u, Update, items);
    var rest := Gaps(all) + cut2;
    NoBracketInText(all);
    NoBracketInCut(next, cut2);
    NoBracketNoBox(rest);
    assert rest == g + Gaps(items) + cut2;
  }

  lemma NoBracketInCut(it: Item, cut: string)
    requires WellFormed(it) && Partial(it, cut)
    ensures '[' !in cut
  {
    hide OneElement;
    hide Contains;
  }

  // ---- whole streams ----

  lemma {:induction false} TextSplit(items: seq<Item>, n: nat)
    requires n <= |items|
    ensures Text(items) == Text(items[..n]) + Text(items[n..])
  {
    if n == 0 {
      assert items[..0] == [] && items[0..] == items;
    } else {
      TextSplit(items[1..], n - 1);
      assert items[..n][1..] == items[1..][..n - 1];
      assert items[n..] == items[1..][n - 1..];
    }
  }

  lemma {:induction false} GapsSplit(items: seq<Item>, n: nat)
    requires n <= |items|
    ensures Gaps(items) == Gaps(items[..n]) + Gaps(items[n..])
  {
    if n == 0 {
      assert items[..0] == [] && items[0..] == items;
    } else {
      GapsSplit(items[1..], n - 1);
      assert items[..n][1..] == items[1..][..n - 1];
      assert items[n..] == items[1..][n - 1..];
    }
  }

  lemma {:induction false} PlansSplit(u: Unescape, items: seq<Item>, n: nat)
    requires n <= |items|
    ensures Plans(u, items) == Plans(u, items[..n]) + Plans(u, items[n..])
  {
    hide ItemPlan;
    if n == 0 {
      assert items[..0] == [] && items[0..] == items;
    } else {
      PlansSplit(u, items[1..], n - 1);
      assert items[..n][1..] == items[1..][..n - 1];
      assert items[n..] == items[1..][n - 1..];
    }
  }

  /** How many items are complete within the first `len` bytes. */
  function Locate(items: seq<Item>, len: nat): (n: nat)
    requires len <= |Text(items)|
    ensures n <= |items|
  {
    if items == [] || len < |items[0].text| then 0 else 1 + Locate(items[1..], len - |items[0].text|)
  }

  /** A prefix of a stream is complete items and a part of the next one. */
  lemma {:induction false} LocateCut(items: seq<Item>, p: string)
    requires p <= Text(items)
    ensures var n := Locate(items, |p|);
            && Text(items[..n]) <= p
            && if n == |items| then p == Text(items) && p[|Text(items[..n])|..] == ""
               else Partial(items[n], p[|Text(items[..n])|..])
  {
    var n := Locate(items, |p|);
    if n == 0 {
      assert items[..0] == [];
      if items != [] {
        assert p <= items[0].text;
      }
    } else {
      var x := items[0].text;
      assert p == x + p[|x|..];
      assert p[|x|..] <= Text(items[1..]);
      LocateCut(items[1..], p[|x|..]);
      assert items[..n][1..] == items[1..][..n - 1];
      assert p[|x|..][|Text(items[1..][..n - 1])|..] == p[|Text(items[..n])|..];
      if n == |items| {
        assert items[..n] == items;
      }
    }
  }

  lemma {:induction false} EmptyText(u: Unescape, items: seq<Item>)
    requires AllWellFormed(items) && Text(items) == ""
    ensures Plans(u, items) == [] && Gaps(items) == ""
  {
    hide MatchHead;
    hide Contains;
    if items != [] {
      assert items[0] in items && items[0].text == "" && Text(items[1..]) == "";
      assert forall it :: it in items[1..] ==> it in items;
      assert items[0].Gap?;
      EmptyText(u, items[1..]);
    }
  }

  lemma {:induction false} SamePlans(u: Unescape, items: seq<Item>)
    ensures multiset(CallOrder(u, items)) == multiset(Plans(u, items))
  {
    hide ItemPlan;
    hide PlansOf;
    if items == [] {
      NoPlans(u);
    } else {
      SamePlans(u, items[1..]);
      SamePlansCons(u, items);
    }
  }

  lemma SamePlansCons(u: Unescape, items: seq<Item>)
    requires items != []
    ensures multiset(CallOrder(u, items)) ==
            multiset(ItemPlan(u, items[0])) + multiset(CallOrder(u, items[1..]))
  {
    hide ItemPlan;
    hide PlansOf;
    FirstPlans(u, Proposed, items);
    FirstPlans(u, Update, items);
    if items[0].Gap? {
      GapPlan(u, items[0]);
    }
    Shuffle(ItemPlan(u, items[0]), PlansOf(u, Proposed, items[1..]), PlansOf(u, Update, items[1..]));
  }

  lemma NoPlans(u: Unescape)
    ensures PlansOf(u, Proposed, []) == [] && PlansOf(u, Update, []) == []
  {
  }

  lemma Shuffle(x: seq<Plan>, p: seq<Plan>, q: seq<Plan>)
    ensures multiset(([] + p) + (x + q)) == multiset(x + (p + q))
    ensures multiset((x + p) + ([] + q)) == multiset(x + (p + q))
    ensures ([] + p) + ([] + q) == [] + (p + q)
  {
  }

  lemma GapPlan(u: Unescape, it: Item)
    requires it.Gap?
    ensures ItemPlan(u, it) == []
  {
  }

  /** No update block comes before a proposed block with a different plan. */
  ghost predicate NoOvertaking(u: Unescape, items: seq<Item>) {
    forall i, j :: 0 <= i < j < |items| && items[i].Of(Update) && items[j].Of(Proposed) ==>
      forall x, y :: x in ItemPlan(u, items[i]) && y in ItemPlan(u, items[j]) ==> x == y
  }

  lemma {:induction false} PlanSource(u: Unescape, k: Kind, items: seq<Item>, y: Plan)
    requires y in PlansOf(u, k, items)
    ensures exists j :: 0 <= j < |items| && items[j].Of(k) && y in ItemPlan(u, items[j])
  {
    hide ItemPlan;
    if !(items[0].Of(k) && y in ItemPlan(u, items[0])) {
      PlanSource(u, k, items[1..], y);
      var j :| 0 <= j < |items[1..]| && items[1..][j].Of(k) && y in ItemPlan(u, items[1..][j]);
      assert items[j + 1] == items[1..][j];
    }
  }

  lemma {:induction false} PlanReported(u: Unescape, k: Kind, items: seq<Item>, j: nat, y: Plan)
    requires j < |items| && items[j].Of(k) && y in ItemPlan(u, items[j])
    ensures y in PlansOf(u, k, items)
  {
    hide ItemPlan;
    if j > 0 {
      PlanReported(u, k, items[1..], j - 1, y);
    }
  }

  lemma AtMostOnePlan(u: Unescape, it: Item)
    ensures |ItemPlan(u, it)| <= 1
  {
    hide MatchBlock;
    hide ParseBody;
  }

  lemma Rotate(p: seq<Plan>, x: Plan)
    ensures p + [x] == [x] + p <==> forall y :: y in p ==> y == x
  {
    if p + [x] == [x] + p {
      AllEqual(p, x, |p|);
      forall y | y in p ensures y == x {
        var i :| 0 <= i < |p| && p[i] == y;
      }
    }
    if forall y :: y in p ==> y == x {
      var a, b := p + [x], [x] + p;
      forall i | 0 <= i < |a| ensures a[i] == b[i] {
        assert i < |p| ==> p[i] in p;
        assert i > 0 ==> p[i - 1] in p;
      }
      assert a == b;
    }
  }

  lemma {:induction false} AllEqual(p: seq<Plan>, x: Plan, n: nat)
    requires p + [x] == [x] + p && n <= |p|
    ensures forall i :: 0 <= i < n ==> p[i] == x
  {
    if n > 0 {
      AllEqual(p, x, n - 1);
      assert (p + [x])[n - 1] == p[n - 1] && ([x] + p)[n - 1] == if n == 1 then x else p[n - 2];
    }
  }

  lemma NoOvertakingIn(u: Unescape, items: seq<Item>, from: nat, to: nat)
    requires NoOvertaking(u, items) && from <= to <= |items|
    ensures NoOvertaking(u, items[from..to])
  {
    hide ItemPlan;
    var part := items[from..to];
    forall i, j | 0 <= i < j < |part| && part[i].Of(Update) && part[j].Of(Proposed)
      ensures forall x, y :: x in ItemPlan(u, part[i]) && y in ItemPlan(u, part[j]) ==> x == y
    {
      assert part[i] == items[from + i] && part[j] == items[from + j];
    }
  }

  /** Without overtaking, the plan of a leading update block equals every later proposed plan. */
  lemma LeadingUpdate(u: Unescape, items: seq<Item>, y: Plan)
    requires NoOvertaking(u, items) && items != [] && items[0].Of(Update) && ItemPlan(u, items[0]) != []
    requires y in PlansOf(u, Proposed, items[1..])
    ensures y == ItemPlan(u, items[0])[0]
  {
    hide ItemPlan;
    hide PlansOf;
    PlanSource(u, Proposed, items[1..], y);
    var j :| 0 <= j < |items[1..]| && items[1..][j].Of(Proposed) && y in ItemPlan(u, items[1..][j]);
    assert items[j + 1] == items[1..][j];
    assert ItemPlan(u, items[0])[0] in ItemPlan(u, items[0]);
  }

  /** Without overtaking, a call reports its blocks in stream order. */
  lemma {:induction false} CallOrderIsStreamOrder(u: Unescape, items: seq<Item>)
    requires NoOvertaking(u, items)
    ensures CallOrder(u, items) == Plans(u, items)
  {
    hide ItemPlan;
    hide NoOvertaking;
    if items != [] {
      var rest := items[1..];
      NoOvertakingIn(u, items, 1, |items|);
      assert items[1..|items|] == rest;
      CallOrderIsStreamOrder(u, rest);
      var first := ItemPlan(u, items[0]);
      var p := PlansOf(u, Proposed, rest);
      if items[0].Gap? {
        GapPlan(u, items[0]);
      } else if items[0].Of(Update) && first != [] {
        AtMostOnePlan(u, items[0]);
        forall y | y in p ensures y == first[0] {
          LeadingUpdate(u, items, y);
        }
        Rotate(p, first[0]);
        assert first == [first[0]];
        var q := PlansOf(u, Update, rest);
        assert p + (first + q) == (p + first) + q == first + (p + q);
      }
    }
  }

  /** No item is longer than the buffer keeps; a longer gap is several gaps. */
  ghost predicate Stream(items: seq<Item>) {
    AllWellFormed(items) && forall it :: it in items ==> |it.text| <= MAX_KEEP
  }

  /** The gaps and any one of the blocks are within what the buffer keeps. */
  ghost predicate Fits(g: string, items: seq<Item>) {
    && |g| + |Gaps(items)| <= MAX_KEEP
    && forall it :: it in items && it.Element? ==> |g| + |Gaps(items)| + |it.text| <= MAX_KEEP
  }

  lemma FitsUpTo(g: string, items: seq<Item>, n: nat, cut: string)
    requires Fits(g, items) && n <= |items|
    requires if n == |items| then cut == "" else Partial(items[n], cut)
    ensures |g + Gaps(items[..n])| + |cut| <= MAX_KEEP
    ensures Fits(g + Gaps(items[..n]), items[n..])
  {
    GapsSplit(items, n);
    assert forall it :: it in items[n..] ==> it in items;
    if n < |items| {
      assert items[n] in items;
      assert items[n..][0] == items[n];
    }
  }

  /** One chunk, read from a buffer that holds `g` and an unfinished start `cut` of `items`. */
  lemma FeedPrefix(u: Unescape, g: string, cut: string, chunk: string, items: seq<Item>)
    returns (n: nat, g2: string, cut2: string)
    requires Stream(items) && WellFormed(Gap(g))
    requires cut + chunk <= Text(items)
    ensures n <= |items| && cut + chunk == Text(items[..n]) + cut2
    ensures if n == |items| then cut2 == "" else Partial(items[n], cut2)
    ensures Feed(u, g + cut, chunk) == Drained(CallOrder(u, items[..n]), g2 + cut2)
    ensures WellFormed(Gap(g2)) && Ends(g + Gaps(items[..n]), g2)
    ensures Fits(g, items) ==> g2 == g + Gaps(items[..n]) && Fits(g2, items[n..])
  {
    hide WellFormed;
    hide Feed;
    hide CallOrder;
    hide TrimBuffer;
    hide Fits;
    hide Ends;
    var p := cut + chunk;
    n := Locate(items, |p|);
    LocateCut(items, p);
    cut2 := p[|Text(items[..n])|..];
    assert p == Text(items[..n]) + cut2;
    EmptyGap();
    var next := if n == |items| then Gap("") else items[n];
    assert n < |items| ==> items[n] in items;
    assert forall it :: it in items[..n] ==> it in items;
    FeedStep(u, g, cut, chunk, items[..n], next, cut2);
    GapsWellFormed(items[..n]);
    GapJoin(g, Gaps(items[..n]));
    var x := g + Gaps(items[..n]);
    GapHasNoTag(x);
    g2 := TrimGap(x, cut2);
    EndOfGap(x, g2);
    if Fits(g, items) {
      FitsUpTo(g, items, n, cut2);
    }
  }

  lemma GapHasNoTag(x: string)
    requires WellFormed(Gap(x))
    ensures '<' !in x
  {
  }

  lemma EmptyCut(it: Item)
    requires WellFormed(it)
    ensures Partial(it, "")
  {
    hide MatchHead;
  }

  lemma EmptyGap()
    ensures WellFormed(Gap(""))
  {
  }

  lemma {:induction false} GapsWellFormed(items: seq<Item>)
    requires AllWellFormed(items)
    ensures WellFormed(Gap(Gaps(items)))
  {
    NoBracketInText(items);
  }

  lemma NoChunks(u: Unescape, buffer: string, chunks: seq<string>)
    requires chunks == []
    ensures FeedAll(u, buffer, chunks) == Drained([], buffer) && Flatten(chunks) == ""
  {
  }

  lemma FirstCall(u: Unescape, g: string, cut: string, left: string, chunks: seq<string>)
    requires chunks != [] && Feed(u, g + cut, chunks[0]).rest == left
    ensures FeedAll(u, g + cut, chunks) ==
            Drained(Feed(u, g + cut, chunks[0]).plans + FeedAll(u, left, chunks[1..]).plans,
                    FeedAll(u, left, chunks[1..]).rest)
  {
    hide Feed;
  }

  /**
   Any chunks that spell out a stream leave the end of its gaps in the buffer and report each of
   its plans once; without overtaking they report them in stream order.
   */
  lemma {:induction false} AnyChunks(u: Unescape, g: string, cut: string, items: seq<Item>, chunks: seq<string>)
    requires Stream(items) && WellFormed(Gap(g))
    requires if items == [] then cut == "" else Partial(items[0], cut)
    requires cut + Flatten(chunks) == Text(items)
    ensures var d := FeedAll(u, g + cut, chunks);
            && Ends(g + Gaps(items), d.rest)
            && (Fits(g, items) ==> d.rest == g + Gaps(items))
            && multiset(d.plans) == multiset(Plans(u, items))
            && (NoOvertaking(u, items) ==> d.plans == Plans(u, items))
    decreases |chunks|
  {
    hide Stream;
    hide Partial;
    hide Fits;
    hide Ends;
    hide WellFormed;
    hide Feed;
    hide CallOrder;
    hide NoOvertaking;
    hide Plans;
    hide Gaps;
    hide Text;
    hide FeedAll;
    if chunks == [] {
      NoChunks(u, g + cut, chunks);
      NothingLeft(u, cut, items);
      EndsItself(g + Gaps(items));
    } else {
      assert cut + Flatten(chunks) == (cut + chunks[0]) + Flatten(chunks[1..]);
      var n, g2, cut2 := FeedPrefix(u, g, cut, chunks[0], items);
      AfterPrefix(u, cut + chunks[0], cut2, items, n, Flatten(chunks[1..]));
      AnyChunks(u, g2, cut2, items[n..], chunks[1..]);
      FirstCall(u, g, cut, g2 + cut2, chunks);
      var more := FeedAll(u, g2 + cut2, chunks[1..]);
      EndsAfter(g + Gaps(items[..n]), g2, Gaps(items[n..]), more.rest);
      assert g + Gaps(items[..n]) + Gaps(items[n..]) == g + Gaps(items);
      var p, q := Plans(u, items[..n]), Plans(u, items[n..]);
      assert Plans(u, items) == p + q;
    }
  }

  /** What remains of a stream after its first `n` items are consumed is again a stream. */
  lemma AfterPrefix(u: Unescape, p: string, cut: string, items: seq<Item>, n: nat, more: string)
    requires Stream(items)
    requires n <= |items| && p == Text(items[..n]) + cut && p + more == Text(items)
    ensures Stream(items[n..]) && cut + more == Text(items[n..])
    ensures Gaps(items) == Gaps(items[..n]) + Gaps(items[n..])
    ensures Plans(u, items) == Plans(u, items[..n]) + Plans(u, items[n..])
    ensures multiset(CallOrder(u, items[..n])) == multiset(Plans(u, items[..n]))
    ensures NoOvertaking(u, items) ==>
              NoOvertaking(u, items[n..]) && CallOrder(u, items[..n]) == Plans(u, items[..n])
  {
    hide WellFormed;
    hide CallOrder;
    hide NoOvertaking;
    hide Plans;
    hide Gaps;
    hide Text;
    var done, rest := items[..n], items[n..];
    TextSplit(items, n);
    GapsSplit(items, n);
    PlansSplit(u, items, n);
    assert forall it :: it in done || it in rest ==> it in items;
    assert Text(done) + (cut + more) == Text(done) + Text(rest);
    assert cut + more == (Text(done) + (cut + more))[|Text(done)|..];
    SamePlans(u, done);
    if NoOvertaking(u, items) {
      NoOvertakingIn(u, items, 0, n);
      NoOvertakingIn(u, items, n, |items|);
      assert items[0..n] == done && items[n..|items|] == rest;
      CallOrderIsStreamOrder(u, done);
    }
  }

  lemma GapJoin(a: string, b: string)
    requires WellFormed(Gap(a)) && WellFormed(Gap(b))
    ensures WellFormed(Gap(a + b))
  {
  }

  /** An unfinished item that is all that remains of a stream was a gap. */
  lemma NothingLeft(u: Unescape, cut: string, items: seq<Item>)
    requires Stream(items) && cut == Text(items)
    requires if items == [] then cut == "" else Partial(items[0], cut)
    ensures cut == Gaps(items) && Plans(u, items) == []
  {
    hide WellFormed;
    if items != [] {
      assert items[0].Gap? && Text(items[1..]) == "";
      assert forall it :: it in items[1..] ==> it in items;
      EmptyText(u, items[1..]);
      GapPlan(u, items[0]);
    }
  }

  /** The chunks that cut a stream at the borders of `segments`. */
  function Cuts(segments: seq<seq<Item>>): seq<string> {
    if segments == [] then [] else [Text(segments[0])] + Cuts(segments[1..])
  }

  function Join(segments: seq<seq<Item>>): seq<Item> {
    if segments == [] then [] else segments[0] + Join(segments[1..])
  }

  function CallOrders(u: Unescape, segments: seq<seq<Item>>): seq<Plan> {
    if segments == [] then [] else CallOrder(u, segments[0]) + CallOrders(u, segments[1..])
  }

  /** Cut at item borders, the calls report their segments one after the other. */
  lemma {:induction false} SegmentChunks(u: Unescape, g: string, segments: seq<seq<Item>>)
    requires AllWellFormed(Join(segments)) && WellFormed(Gap(g))
    ensures FeedAll(u, g, Cuts(segments)).plans == CallOrders(u, segments)
    ensures Flatten(Cuts(segments)) == Text(Join(segments))
    decreases |segments|
  {
    hide WellFormed;
    hide Feed;
    hide CallOrder;
    hide TrimBuffer;
    if segments != [] {
      var s, rest := segments[0], Join(segments[1..]);
      var all := Join(segments);
      assert all[..|s|] == s && all[|s|..] == rest;
      TextSplit(all, |s|);
      assert AllWellFormed(s) && AllWellFormed(rest);
      EmptyGap();
      FeedStep(u, g, "", Text(s), s, Gap(""), "");
      GapsWellFormed(s);
      GapJoin(g, Gaps(s));
      GapHasNoTag(g + Gaps(s));
      var g2 := TrimGap(g + Gaps(s), "");
      EndOfGap(g + Gaps(s), g2);
      assert g + "" == g && g2 + "" == g2;
      SegmentChunks(u, g2, segments[1..]);
    }
  }

  /** All chunks that spell out the stream report the same plans in the same order. */
  ghost predicate ChunkingIrrelevant(u: Unescape, items: seq<Item>) {
    forall a, b :: Flatten(a) == Text(items) && Flatten(b) == Text(items) ==>
      FeedAll(u, "", a).plans == FeedAll(u, "", b).plans
  }

  /** If the order never depends on the cuts, no update block overtakes a different proposed one. */
  lemma OrderForcesEqualPlans(u: Unescape, items: seq<Item>, i: nat, j: nat, y: Plan)
    requires Stream(items) && ChunkingIrrelevant(u, items)
    requires i < j < |items| && items[i].Of(Update) && items[j].Of(Proposed)
    requires ItemPlan(u, items[i]) != [] && y in ItemPlan(u, items[j])
    ensures y == ItemPlan(u, items[i])[0]
  {
    hide ItemPlan;
    hide WellFormed;
    hide FeedAll;
    hide CallOrder;
    var x := ItemPlan(u, items[i])[0];
    AtMostOnePlan(u, items[i]);
    var before, first, mid := items[..i], [items[i]], items[i + 1..];
    var whole := first + mid;
    var a, b := [before, whole], [before, first, mid];
    JoinTwo(before, whole);
    JoinThree(before, first, mid);
    assert before + whole == items && before + (first + mid) == items;
    EmptyGap();
    SegmentChunks(u, "", a);
    SegmentChunks(u, "", b);
    CallOrdersOf(u, before, first, mid, whole);
    LeadingUpdateOrder(u, items[i], x, mid);
    Rotate(PlansOf(u, Proposed, mid), x);
    assert mid[j - i - 1] == items[j];
    PlanReported(u, Proposed, mid, j - i - 1, y);
  }

  lemma CancelTail(a: seq<Plan>, b: seq<Plan>, q: seq<Plan>)
    requires a + q == b + q
    ensures a == b
  {
    assert |a + q| == |b + q|;
    assert a == (a + q)[..|a|] && b == (b + q)[..|b|];
  }

  lemma JoinTwo(a: seq<Item>, b: seq<Item>)
    ensures Join([a, b]) == a + b
  {
    assert [a, b][1..] == [b] && [b][1..] == [];
    assert Join([b]) == b;
  }

  lemma JoinThree(a: seq<Item>, b: seq<Item>, c: seq<Item>)
    ensures Join([a, b, c]) == a + (b + c)
  {
    assert [a, b, c][1..] == [b, c];
    JoinTwo(b, c);
  }

  lemma CallOrdersOf(u: Unescape, before: seq<Item>, first: seq<Item>, mid: seq<Item>, whole: seq<Item>)
    requires CallOrders(u, [before, whole]) == CallOrders(u, [before, first, mid])
    ensures CallOrder(u, whole) == CallOrder(u, first) + CallOrder(u, mid)
  {
    hide CallOrder;
    assert [before, whole][1..] == [whole] && [whole][1..] == [];
    assert [before, first, mid][1..] == [first, mid] && [first, mid][1..] == [mid] && [mid][1..] == [];
    var c, w, f, m := CallOrder(u, before), CallOrder(u, whole), CallOrder(u, first), CallOrder(u, mid);
    assert CallOrders(u, [whole]) == w && CallOrders(u, [mid]) == m;
    assert c + w == c + (f + m);
    assert w == (c + w)[|c|..] && f + m == (c + (f + m))[|c|..];
  }

  lemma LeadingUpdateOrder(u: Unescape, it: Item, x: Plan, mid: seq<Item>)
    requires it.Of(Update) && ItemPlan(u, it) == [x]
    requires CallOrder(u, [it] + mid) == CallOrder(u, [it]) + CallOrder(u, mid)
    ensures PlansOf(u, Proposed, mid) + [x] == [x] + PlansOf(u, Proposed, mid)
  {
    hide ItemPlan;
    assert ([it] + mid)[1..] == mid && [it][1..] == [];
    var p, q := PlansOf(u, Proposed, mid), PlansOf(u, Update, mid);
    assert PlansOf(u, Proposed, [it] + mid) == p && PlansOf(u, Update, [it] + mid) == [x] + q;
    assert PlansOf(u, Proposed, [it]) == [] && PlansOf(u, Update, [it]) == [x];
    assert p + ([x] + q) == (p + [x]) + q && [x] + (p + q) == ([x] + p) + q;
    CancelTail(p + [x], [x] + p, q);
  }

  /** The exact condition under which plan detection does not depend on the chunking. */
  lemma ChunkingTheorem(u: Unescape, items: seq<Item>)
    requires Stream(items)
    ensures ChunkingIrrelevant(u, items) <==> NoOvertaking(u, items)
    ensures forall chunks :: Flatten(chunks) == Text(items) ==>
              && Ends(Gaps(items), FeedAll(u, "", chunks).rest)
              && (Fits("", items) ==> FeedAll(u, "", chunks).rest == Gaps(items))
              && multiset(FeedAll(u, "", chunks).plans) == multiset(Plans(u, items))
              && (NoOvertaking(u, items) ==> FeedAll(u, "", chunks).plans == Plans(u, items))
  {
    hide WellFormed;
    hide ItemPlan;
    hide FeedAll;
    forall chunks | Flatten(chunks) == Text(items)
      ensures Ends(Gaps(items), FeedAll(u, "", chunks).rest)
      ensures Fits("", items) ==> FeedAll(u, "", chunks).rest == Gaps(items)
      ensures multiset(FeedAll(u, "", chunks).plans) == multiset(Plans(u, items))
      ensures NoOvertaking(u, items) ==> FeedAll(u, "", chunks).plans == Plans(u, items)
    {
      EmptyGap();
      if items != [] {
        assert items[0] in items;
        EmptyCut(items[0]);
      }
      assert "" + "" == "" && "" + Flatten(chunks) == Flatten(chunks) && "" + Gaps(items) == Gaps(items);
      AnyChunks(u, "", "", items, chunks);
    }
    if ChunkingIrrelevant(u, items) {
      forall i, j | 0 <= i < j < |items| && items[i].Of(Update) && items[j].Of(Proposed)
        ensures forall x, y :: x in ItemPlan(u, items[i]) && y in ItemPlan(u, items[j]) ==> x == y
      {
        forall x, y | x in ItemPlan(u, items[i]) && y in ItemPlan(u, items[j]) ensures x == y {
          AtMostOnePlan(u, items[i]);
          OrderForcesEqualPlans(u, items, i, j, y);
        }
      }
    }
  }
}
