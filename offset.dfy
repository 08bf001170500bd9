/** Recognizer.findTemplateOffset: locating a template by its matcher boxes. */
module OffsetSearch {
  import opened Outcomes
  import opened Geometry
  import opened Ranges
  import opened Templates
  import opened Candidates
  import opened RangeIterator

  /** How far (in the coordinate unit) a box's own offset must stay under the anchor's. */
  const Tolerance: real := 5.0

  /** The loop gives up once `i > 10`, that is after this many rejected combinations. */
  const Budget: nat := 11

  /** The matcher boxes of a template, in template order. */
  function MatcherBoxes(boxes: seq<TemplateBox>): (ms: seq<TemplateBox>)
    ensures forall i :: 0 <= i < |ms| ==> IsMatcher(ms[i])
  {
    if |boxes| == 0 then []
    else
      var last := boxes[|boxes| - 1];
      MatcherBoxes(boxes[..|boxes| - 1]) + (if IsMatcher(last) then [last] else [])
  }

  /** One box's candidates: every range of the box text's length, scored by distance, best first. */
  function CandidateList(scan: Scan, met: Metrics, box: TemplateBox): seq<ScoredRange>
  {
    var ranges := AllRanges(scan.lines, |box.text|);
    SortByDistance(Scored(scan.lines, ranges, box.text, met.hamming))
  }

  /** A box's candidates are exactly the ranges of its text's length, each scored against the text, best first. */
  lemma CandidateListIsSortedScores(scan: Scan, met: Metrics, box: TemplateBox)
    ensures var c := CandidateList(scan, met, box);
            var ranges := AllRanges(scan.lines, |box.text|);
            SortedByDistance(c)
            && multiset(c) == multiset(Scored(scan.lines, ranges, box.text, met.hamming))
            && |c| == |ranges|
            && forall x :: x in c ==>
                 x.range in ranges && x.distance == met.hamming(Text(scan.lines, x.range), box.text)
  {
    var c := CandidateList(scan, met, box);
    var ranges := AllRanges(scan.lines, |box.text|);
    var scored := Scored(scan.lines, ranges, box.text, met.hamming);
    assert |c| == |multiset(c)| == |multiset(scored)| == |scored|;
    forall x | x in c
      ensures x.range in ranges && x.distance == met.hamming(Text(scan.lines, x.range), box.text)
    {
      assert x in multiset(scored);
      var k :| 0 <= k < |scored| && scored[k] == x;
    }
  }

  /** Collecting matchers keeps template order and multiplicity: it works piece by piece. */
  lemma {:induction false} MatcherBoxesConcat(a: seq<TemplateBox>, b: seq<TemplateBox>)
    ensures MatcherBoxes(a + b) == MatcherBoxes(a) + MatcherBoxes(b)
    decreases |b|
  {
    if |b| == 0 {
      assert a + b == a;
    } else {
      assert (a + b)[..|a + b| - 1] == a + b[..|b| - 1];
      MatcherBoxesConcat(a, b[..|b| - 1]);
    }
  }

  /** Membership in the matcher list: a box is collected iff it is a matcher box of the template. */
  lemma {:induction false} MatcherBoxesMembers(boxes: seq<TemplateBox>, b: TemplateBox)
    ensures b in MatcherBoxes(boxes) <==> b in boxes && IsMatcher(b)
    decreases |boxes|
  {
    if |boxes| > 0 {
      var init := boxes[..|boxes| - 1];
      MatcherBoxesMembers(init, b);
      assert boxes == init + [boxes[|boxes| - 1]];
    }
  }

  function CandidateLists(scan: Scan, met: Metrics, matchers: seq<TemplateBox>): (lists: seq<seq<ScoredRange>>)
    ensures |lists| == |matchers|
    ensures forall i :: 0 <= i < |matchers| ==> lists[i] == CandidateList(scan, met, matchers[i])
  {
    seq(|matchers|, i requires 0 <= i < |matchers| => CandidateList(scan, met, matchers[i]))
  }

  /** What a combination of indices is judged against: the lists, their boxes, and the range geometry. */
  datatype Anchors = Anchors(
    lists: seq<seq<ScoredRange>>,
    matchers: seq<TemplateBox>,
    rangeCentre: Range -> Point)

  /** The combination picks one candidate per matcher box. */
  predicate Fits(a: Anchors, combination: seq<nat>)
  {
    |a.matchers| == |a.lists| == |combination| > 0 &&
    forall x :: 0 <= x < |combination| ==> combination[x] < |a.lists[x]|
  }

  /** Box p's offset: its template centre minus the centre of its chosen range. */
  function BoxOffset(a: Anchors, combination: seq<nat>, p: nat): Point
    requires Fits(a, combination) && p < |combination|
  {
    Sub(Centre(a.matchers[p].featureRect), a.rangeCentre(a.lists[p][combination[p]].range))
  }

  /** The rejection test of the loop: box offset d against the anchor offset diff of box 0. */
  predicate Rejects(d: Point, diff: Point)
  {
    Abs(d.x) + Tolerance > Abs(diff.x) || Abs(d.y) + Tolerance > Abs(diff.y)
  }

  /** No box after the first is rejected against box 0's offset. */
  predicate Consistent(a: Anchors, combination: seq<nat>)
    requires Fits(a, combination)
  {
    forall p :: 1 <= p < |combination| ==> !Rejects(BoxOffset(a, combination, p), BoxOffset(a, combination, 0))
  }

  predicate CombosFit(a: Anchors, outputs: seq<Yield>)
  {
    forall j :: 0 <= j < |outputs| && outputs[j].Combo? ==> Fits(a, outputs[j].indices)
  }

  /**
   * The search loop over the iterator's outputs: the first consistent combination
   * wins; StopIteration before any combination leaves `found` unbound.
   */
  function Accept(a: Anchors, outputs: seq<Yield>, examined: nat): Outcome<Option<Point>>
    requires CombosFit(a, outputs)
  {
    if |outputs| == 0 then Ok(None)
    else
      match outputs[0]
      case IndexError => Raised(IndexOutOfRange)
      case Stop => if examined == 0 then Raised(FoundUnbound) else Ok(None)
      case Combo(combination) =>
        if Consistent(a, combination) then Ok(Some(BoxOffset(a, combination, 0)))
        else Accept(a, outputs[1..], examined + 1)
  }

  /** The anchors of a template under a scan. */
  function TemplateAnchors(scan: Scan, met: Metrics, t: Template): Anchors
  {
    var matchers := MatcherBoxes(t.boxes);
    Anchors(CandidateLists(scan, met, matchers), matchers, scan.rangeCentre)
  }

  /** findTemplateOffset as a value: Some(offset), None, or the exception it raises. */
  function TemplateOffset(scan: Scan, met: Metrics, t: Template): Outcome<Option<Point>>
  {
    if |t.boxes| == 0 then Ok(Some(Point(0.0, 0.0)))
    else
      Search(TemplateAnchors(scan, met, t))
  }

  /** The combinations a fresh iterator yields within the budget, run through the search loop. */
  function Search(a: Anchors): Outcome<Option<Point>>
    requires |a.matchers| == |a.lists|
  {
    TraceCombosFit(a, Initial(|a.lists|), Budget);
    Accept(a, Trace(Lengths(a.lists), Initial(|a.lists|), Budget), 0)
  }

  /** A combination the iterator returns indexes every list, and there is at least one list. */
  lemma StepComboFits(lens: seq<nat>, s: IterState)
    requires Inv(lens, s) && Step(lens, s).out.Combo?
    ensures |Step(lens, s).out.indices| == |lens| > 0 && InRange(lens, Step(lens, s).out.indices)
  {
    if s.loopPos == s.pos {
      var a := MinEligible(lens, s.pos, |lens|);
      assert a.Some?;
    }
  }

  lemma {:induction false} TraceCombosFit(a: Anchors, s: IterState, n: nat)
    requires |a.matchers| == |a.lists| && Inv(Lengths(a.lists), s)
    ensures CombosFit(a, Trace(Lengths(a.lists), s, n))
    decreases n
  {
    var lens := Lengths(a.lists);
    if n > 0 {
      var t := Step(lens, s);
      if t.out.Combo? {
        StepComboFits(lens, s);
        StepPreservesInv(lens, s);
        TraceCombosFit(a, t.next, n - 1);
        var rest := Trace(lens, t.next, n - 1);
        assert Trace(lens, s, n) == [t.out] + rest;
        forall j | 0 <= j < |[t.out] + rest| && ([t.out] + rest)[j].Combo?
          ensures Fits(a, ([t.out] + rest)[j].indices)
        {
          if j > 0 {
            assert ([t.out] + rest)[j] == rest[j - 1];
          }
        }
      }
    }
  }

  /** The consistency loop of one combination: stops at the first box rejected. */
  method CheckCombination(a: Anchors, combination: seq<nat>) returns (found: bool)
    requires Fits(a, combination)
    ensures found == Consistent(a, combination)
  {
    var diff := BoxOffset(a, combination, 0);
    found := true;
    var p := 1;
    while p < |combination|
      invariant 1 <= p <= |combination|
      invariant forall q :: 1 <= q < p ==> !Rejects(BoxOffset(a, combination, q), diff)
    {
      var d := BoxOffset(a, combination, p);
      if Abs(d.x) + Tolerance > Abs(diff.x) {
        found := false;
        return;
      }
      if Abs(d.y) + Tolerance > Abs(diff.y) {
        found := false;
        return;
      }
      p := p + 1;
    }
  }

  /** The first loop of findTemplateOffset: one sorted candidate list per matcher box. */
  method CollectCandidates(scan: Scan, met: Metrics, boxes: seq<TemplateBox>)
    returns (matchers: seq<TemplateBox>, lists: seq<seq<ScoredRange>>)
    ensures matchers == MatcherBoxes(boxes)
    ensures lists == CandidateLists(scan, met, matchers)
  {
    var lines := scan.lines;
    matchers := [];
    lists := [];
    var b := 0;
    while b < |boxes|
      invariant 0 <= b <= |boxes|
      invariant matchers == MatcherBoxes(boxes[..b])
      invariant lists == CandidateLists(scan, met, matchers)
    {
      assert boxes[..b + 1][..b] == boxes[..b];
      var templateBox := boxes[b];
      if IsMatcher(templateBox) {
        var ranges := ExtractAllRangesFromDocument(lines, |templateBox.text|);
        var scored := ScoreRanges(lines, ranges, templateBox.text, met.hamming);
        scored := SortByDistance(scored);
        assert CandidateLists(scan, met, matchers + [templateBox]) == lists + [scored];
        matchers := matchers + [templateBox];
        lists := lists + [scored];
      }
      b := b + 1;
    }
    assert boxes[..b] == boxes;
  }

  /** The second loop: draw combinations until one is consistent or the budget is spent. */
  method SearchCombinations(a: Anchors) returns (r: Outcome<Option<Point>>)
    requires |a.matchers| == |a.lists|
    ensures r == Search(a)
  {
    ghost var lens := Lengths(a.lists);
    var combos := new TemplateBoxRangeIterator(a.lists);
    TraceCombosFit(a, combos.State(), Budget);
    ghost var goal := Accept(a, Trace(lens, combos.State(), Budget), 0);
    var i := 0;
    while true
      invariant 0 <= i <= 10
      invariant combos.Valid() && combos.lists == a.lists
      invariant CombosFit(a, Trace(lens, combos.State(), Budget - i))
      invariant goal == Accept(a, Trace(lens, combos.State(), Budget - i), i)
      decreases Budget - i
    {
      ghost var s := combos.State();
      var y := combos.Next();
      assert Trace(lens, s, Budget - i) == [y] + (if y.Combo? then Trace(lens, combos.State(), Budget - i - 1) else []);
      match y {
        case IndexError =>
          return Raised(IndexOutOfRange);
        case Stop =>
          if i == 0 {
            return Raised(FoundUnbound);
          }
          return Ok(None);
        case Combo(combination) =>
          StepComboFits(lens, s);
          var found := CheckCombination(a, combination);
          if found {
            return Ok(Some(BoxOffset(a, combination, 0)));
          }
          TraceCombosFit(a, combos.State(), Budget - i - 1);
          i := i + 1;
          if i > 10 {
            return Ok(None);
          }
      }
    }
  }

  method FindTemplateOffset(scan: Scan, met: Metrics, template: Template) returns (r: Outcome<Option<Point>>)
    ensures r == TemplateOffset(scan, met, template)
  {
    if |template.boxes| == 0 {
      return Ok(Some(Point(0.0, 0.0)));
    }
    var matchers, lists := CollectCandidates(scan, met, template.boxes);
    r := SearchCombinations(Anchors(lists, matchers, scan.rangeCentre));
  }

  /** An accepted offset comes from the first consistent combination; all earlier ones were rejected. */
  lemma {:induction false} AcceptedIsFirstConsistent(a: Anchors, outputs: seq<Yield>, examined: nat)
    returns (j: nat)
    requires CombosFit(a, outputs)
    requires Accept(a, outputs, examined).Ok? && Accept(a, outputs, examined).value.Some?
    ensures j < |outputs| && outputs[j].Combo? && Fits(a, outputs[j].indices)
    ensures Consistent(a, outputs[j].indices)
    ensures Accept(a, outputs, examined).value.value == BoxOffset(a, outputs[j].indices, 0)
    ensures forall i :: 0 <= i < j ==> outputs[i].Combo? && Fits(a, outputs[i].indices) && !Consistent(a, outputs[i].indices)
  {
    match outputs[0]
    case Combo(combination) =>
      if Consistent(a, combination) {
        j := 0;
      } else {
        assert CombosFit(a, outputs[1..]) by {
          forall k | 0 <= k < |outputs[1..]| && outputs[1..][k].Combo?
            ensures Fits(a, outputs[1..][k].indices)
          {
            assert outputs[1..][k] == outputs[k + 1];
          }
        }
        var k := AcceptedIsFirstConsistent(a, outputs[1..], examined + 1);
        j := k + 1;
        forall i | 0 <= i < j
          ensures outputs[i].Combo? && Fits(a, outputs[i].indices) && !Consistent(a, outputs[i].indices)
        {
          if i > 0 {
            assert outputs[i] == outputs[1..][i - 1];
          }
        }
      }
  }

  /** Conversely, the first consistent combination, preceded only by rejected ones, is accepted. */
  lemma {:induction false} FirstConsistentAccepted(a: Anchors, outputs: seq<Yield>, examined: nat, j: nat)
    requires CombosFit(a, outputs)
    requires j < |outputs| && outputs[j].Combo? && Consistent(a, outputs[j].indices)
    requires forall i :: 0 <= i < j ==> outputs[i].Combo? && !Consistent(a, outputs[i].indices)
    ensures Accept(a, outputs, examined) == Ok(Some(BoxOffset(a, outputs[j].indices, 0)))
    decreases j
  {
    if j > 0 {
      assert outputs[0].Combo? && !Consistent(a, outputs[0].indices);
      var rest := outputs[1..];
      assert CombosFit(a, rest) by {
        forall k | 0 <= k < |rest| && rest[k].Combo?
          ensures Fits(a, rest[k].indices)
        {
          assert rest[k] == outputs[k + 1];
        }
      }
      forall i | 0 <= i < j - 1
        ensures rest[i].Combo? && !Consistent(a, rest[i].indices)
      {
        assert rest[i] == outputs[i + 1];
      }
      assert rest[j - 1] == outputs[j];
      FirstConsistentAccepted(a, rest, examined + 1, j - 1);
    }
  }

  /** When every combination drawn is rejected, the search gives up with None. */
  lemma {:induction false} AllRejectedGivesNone(a: Anchors, outputs: seq<Yield>, examined: nat)
    requires CombosFit(a, outputs)
    requires forall i :: 0 <= i < |outputs| ==> outputs[i].Combo? && !Consistent(a, outputs[i].indices)
    ensures Accept(a, outputs, examined) == Ok(None)
  {
    if |outputs| > 0 {
      var rest := outputs[1..];
      assert forall k :: 0 <= k < |rest| ==> rest[k] == outputs[k + 1];
      AllRejectedGivesNone(a, rest, examined + 1);
    }
  }

  /** With two or more matcher boxes, an accepted anchor offset is at least the tolerance on both axes. */
  lemma ConsistentNeedsWideAnchor(a: Anchors, combination: seq<nat>)
    requires Fits(a, combination) && |combination| >= 2 && Consistent(a, combination)
    ensures Abs(BoxOffset(a, combination, 0).x) >= Tolerance
    ensures Abs(BoxOffset(a, combination, 0).y) >= Tolerance
  {
    assert !Rejects(BoxOffset(a, combination, 1), BoxOffset(a, combination, 0));
  }

  lemma TemplateOffsetWideAnchor(scan: Scan, met: Metrics, t: Template)
    requires |MatcherBoxes(t.boxes)| >= 2
    requires TemplateOffset(scan, met, t).Ok? && TemplateOffset(scan, met, t).value.Some?
    ensures Abs(TemplateOffset(scan, met, t).value.value.x) >= Tolerance
    ensures Abs(TemplateOffset(scan, met, t).value.value.y) >= Tolerance
  {
    var a := TemplateAnchors(scan, met, t);
    var outputs := Trace(Lengths(a.lists), Initial(|a.lists|), Budget);
    TraceCombosFit(a, Initial(|a.lists|), Budget);
    var j := AcceptedIsFirstConsistent(a, outputs, 0);
    TraceCombosShape(Lengths(a.lists), Initial(|a.lists|), Budget, j);
    ConsistentNeedsWideAnchor(a, outputs[j].indices);
  }

  /** Every combination in a trace has one index per list. */
  lemma {:induction false} TraceCombosShape(lens: seq<nat>, s: IterState, n: nat, j: nat)
    requires Inv(lens, s)
    requires j < |Trace(lens, s, n)| && Trace(lens, s, n)[j].Combo?
    ensures |Trace(lens, s, n)[j].indices| == |lens|
    decreases n
  {
    var t := Step(lens, s);
    if t.out.Combo? {
      StepComboFits(lens, s);
      if j > 0 {
        StepPreservesInv(lens, s);
        TraceCombosShape(lens, t.next, n - 1, j - 1);
      }
    }
  }

  /** A template whose boxes include no matcher box leaves `found` unbound. */
  lemma NoMatcherUnbound(scan: Scan, met: Metrics, t: Template)
    requires |t.boxes| > 0 && |MatcherBoxes(t.boxes)| == 0
    ensures TemplateOffset(scan, met, t) == Raised(FoundUnbound)
  {
    var a := TemplateAnchors(scan, met, t);
    assert Lengths(a.lists) == [];
    assert Step([], Initial(0)).out == Stop;
  }

  /** A template with one matcher box: its candidate count alone decides the outcome. */
  lemma SingleMatcher(scan: Scan, met: Metrics, t: Template)
    requires |t.boxes| > 0 && |MatcherBoxes(t.boxes)| == 1
    ensures var m := MatcherBoxes(t.boxes)[0];
            var candidates := CandidateList(scan, met, m);
            TemplateOffset(scan, met, t) ==
              if |candidates| == 0 then Raised(IndexOutOfRange)
              else if |candidates| == 1 then Raised(FoundUnbound)
              else Ok(Some(Sub(Centre(m.featureRect), scan.rangeCentre(candidates[0].range))))
  {
    var a := TemplateAnchors(scan, met, t);
    var n := |a.lists[0]|;
    var lens := Lengths(a.lists);
    assert lens == [n];
    var s := Initial(1);
    assert s.pos == [0] && s.loopPos == [0];
    var outputs := Trace(lens, s, Budget);
    if n == 0 {
      assert !InRange(lens, s.pos);
      assert outputs[0] == IndexError;
    } else if n == 1 {
      assert InRange(lens, s.pos);
      assert !Eligible(lens, 0);
      assert MinEligible(lens, s.pos, 1) == None;
      assert outputs[0] == Stop;
    } else {
      assert InRange(lens, s.pos);
      assert Eligible(lens, 0);
      assert MinEligible(lens, s.pos, 1) == Some(0);
      assert outputs[0] == Combo([0]);
      TraceCombosFit(a, s, Budget);
      assert Consistent(a, [0]);
    }
  }
}
