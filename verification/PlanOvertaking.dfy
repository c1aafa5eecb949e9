/** The smallest stream whose plans come in a different order for different cuts. */
module PlanOvertaking {
  import opened Wrappers
  import opened Strings
  import opened PlanScan
  import opened PlanSpec
  import opened PlanChunking

  /** A block of one kind whose body is the letter `c`. */
  function Small(k: Kind, c: char): string {
    k.Tag().open + ">" + [c] + k.Tag().close
  }

  lemma SmallHead(k: Kind, c: char)
    ensures MatchHead(k.Tag(), Small(k, c)) == Head(|k.Tag().open| + 1, None)
  {
    hide MatchQuoted;
    var t, s := k.Tag(), Small(k, c);
    var r := ">" + [c] + t.close;
    assert s[|t.open|..] == r;
    assert At(s, 0, t.open);
    assert WsLen(r) == 0;
    assert SkipWs(r) == 0 && r[0] == '>';
  }

  /** The closing tag stands at the end and nowhere before. */
  lemma SmallClose(k: Kind, c: char)
    requires 'a' <= c <= 'z'
    ensures var t, s := k.Tag(), Small(k, c); Find(s, t.close) == Some(|t.open| + 2)
  {
    hide Find;
    hide TagLike;
    hide Kind.Tag;
    var t, s := k.Tag(), Small(k, c);
    var n := |t.open| + 2;
    TagsAreTagLike(k);
    assert t.Sane();
    assert At(s, n, t.close);
    forall j | 0 <= j < n ensures !At(s, j, t.close) {
      if j == 0 {
        assert s[1] == t.open[1];
        NotAt(s, 0, t.close, 1);
      } else {
        assert j < |t.open| ==> s[j] == t.open[j];
        TagTail(t.open, j);
        NotAt(s, j, t.close, 0);
      }
    }
    assert Find(s, t.close) == Some(n);
  }

  /** Behind its first character a tag has no angle bracket, and no square bracket anywhere. */
  predicate TagLike(s: string) {
    |s| > 2 && s[0] == '<' && '<' !in s[1..] && '[' !in s
  }

  lemma ProposedIsTagLike()
    ensures TagLike("<proposed_plan") && TagLike("</proposed_plan>")
  {
    assert "<proposed_plan"[1..] == "proposed_plan" && "</proposed_plan>"[1..] == "/proposed_plan>";
  }

  lemma UpdateIsTagLike()
    ensures TagLike("<update_plan") && TagLike("</update_plan>")
  {
    assert "<update_plan"[1..] == "update_plan" && "</update_plan>"[1..] == "/update_plan>";
  }

  lemma TagsAreTagLike(k: Kind)
    ensures TagLike(k.Tag().open) && TagLike(k.Tag().close)
  {
    hide TagLike;
    ProposedIsTagLike();
    UpdateIsTagLike();
  }

  lemma TagTail(s: string, j: int)
    requires TagLike(s)
    ensures 0 < j < |s| ==> s[j] != '<'
  {
    assert 0 < j < |s| ==> s[j] == s[1..][j - 1];
  }

  lemma SmallWellFormed(k: Kind, c: char)
    requires 'a' <= c <= 'z'
    ensures WellFormed(Element(k, Small(k, c)))
  {
    hide MatchHead;
    hide Find;
    hide At;
    hide Small;
    SmallHead(k, c);
    SmallClose(k, c);
    SmallLength(k, c);
    NoOther(k, c);
    NoSquare(k, c);
  }

  lemma SmallLength(k: Kind, c: char)
    ensures |Small(k, c)| == |k.Tag().open| + 2 + |k.Tag().close|
  {
  }

  lemma NoSquare(k: Kind, c: char)
    requires 'a' <= c <= 'z'
    ensures '[' !in Small(k, c)
  {
    hide Kind.Tag;
    TagsAreTagLike(k);
    assert '[' !in [c] && '[' !in ">";
  }

  lemma NoOther(k: Kind, c: char)
    requires 'a' <= c <= 'z'
    ensures !Contains(Small(k, c), k.Other().Tag().open)
  {
    hide Small;
    var s, other := Small(k, c), k.Other().Tag().open;
    forall j | 0 <= j < |s| ensures !At(s, j, other) {
      SmallNotOther(k, c, j);
    }
  }

  lemma DifferentNames(k: Kind)
    ensures |k.Tag().open| > 1 && |k.Other().Tag().open| > 1 && k.Tag().open[1] != k.Other().Tag().open[1]
  {
  }

  lemma SmallNotOther(k: Kind, c: char, j: nat)
    requires 'a' <= c <= 'z' && j < |Small(k, c)|
    ensures !At(Small(k, c), j, k.Other().Tag().open)
  {
    hide TagLike;
    hide Kind.Tag;
    var t, s, other := k.Tag(), Small(k, c), k.Other().Tag().open;
    var n := |t.open| + 2;
    TagsAreTagLike(k);
    DifferentNames(k);
    assert t.Sane() && k.Other().Tag().Sane();
    if j == 0 {
      assert s[1] == t.open[1];
      NotAt(s, 0, other, 1);
    } else if j == n {
      assert s[n + 1] == t.close[1];
      NotAt(s, n, other, 1);
    } else {
      assert j < |t.open| ==> s[j] == t.open[j];
      assert j > n ==> s[j] == t.close[j - n];
      TagTail(t.open, j);
      TagTail(t.close, j - n);
      NotAt(s, j, other, 0);
    }
  }

  lemma LetterIsItself(c: char)
    requires 'a' <= c <= 'z'
    ensures Trim([c]) == [c] && Lines([c]) == [[c]] && TrimCheckbox([c]) == [c]
    ensures FindBlock(STEP, [c]) == None
  {
    hide Find;
    hide MatchBlock;
    assert WsLen([c]) == 0;
    assert [c][0..] == [c];
    NoOccurrence(c, "\n");
    NoOccurrence(c, "]");
    assert Find([c], "\n") == None && Find([c], "]") == None;
    NoOpenNoBlock(STEP, [c]) by { forall j ensures !At([c], j, STEP.open) { } }
  }

  lemma NoOccurrence(c: char, pat: string)
    requires |pat| == 1 && pat[0] != c
    ensures forall j :: !At([c], j, pat)
  {
    forall j ensures !At([c], j, pat) {
      if j == 0 { NotAt([c], 0, pat, 0); }
    }
  }

  function SmallPlan(c: char): Plan { Plan(None, [PlanStep([c], Pending)]) }

  lemma BodyOfLetter(u: Unescape, c: char)
    requires 'a' <= c <= 'z'
    ensures ParseBody(u, [c], None) == Some(SmallPlan(c))
  {
    hide Lines;
    hide Trim;
    hide FindBlock;
    hide TrimCheckbox;
    LetterIsItself(c);
    assert XmlSteps(u, [c]) == [];
    var step := PlanStep([c], Pending);
    assert [[c]][1..] == [];
    assert LineSteps([[c]]) == [step] + LineSteps([]);
    assert BodySteps(u, [c]) == [step];
    assert [step][1..] == [];
    assert CutSteps([step]) == [CutStep(step)] + CutSteps([]);
    assert CutStep(step) == step;
  }

  lemma SmallItemPlan(u: Unescape, k: Kind, c: char)
    requires 'a' <= c <= 'z'
    ensures ItemPlan(u, Element(k, Small(k, c))) == [SmallPlan(c)]
  {
    hide MatchHead;
    hide Find;
    hide ParseBody;
    var t, s := k.Tag(), Small(k, c);
    var h := |t.open| + 1;
    SmallHead(k, c);
    SmallClose(k, c);
    CloseAfterHead(t, s);
    assert s[h..h + 1] == [c];
    BodyOfLetter(u, c);
  }

  function Crossing(): seq<Item> {
    [Element(Update, Small(Update, 'a')), Element(Proposed, Small(Proposed, 'b'))]
  }

  /**
   An update block followed by a proposed block with another plan: in one chunk they are reported
   in the opposite order, so how the stream is cut shows in the result.
   */
  lemma CutsCanReorder(u: Unescape)
    ensures Stream(Crossing()) && !ChunkingIrrelevant(u, Crossing())
  {
    hide ItemPlan;
    hide WellFormed;
    hide ChunkingIrrelevant;
    var items := Crossing();
    SmallWellFormed(Update, 'a');
    SmallWellFormed(Proposed, 'b');
    SmallItemPlan(u, Update, 'a');
    SmallItemPlan(u, Proposed, 'b');
    CrossingIsShort();
    assert items[0].Of(Update) && items[1].Of(Proposed);
    assert SmallPlan('a').steps[0].step == ['a'] && SmallPlan('b').steps[0].step == ['b'];
    assert SmallPlan('a') in ItemPlan(u, items[0]) && SmallPlan('b') in ItemPlan(u, items[1]);
    ChunkingTheorem(u, items);
  }

  lemma CrossingIsShort()
    ensures forall it :: it in Crossing() ==> |it.text| <= MAX_KEEP
  {
  }
}
