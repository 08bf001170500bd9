/**
 * TemplateBoxRangeIterator: walks index combinations, one index per matcher
 * box into that box's sorted candidate list, starting from all zeros.
 */
module RangeIterator {
  import opened Outcomes
  import opened Candidates

  /** The iterator's fields: the current indices, the catch-up indices, the box last advanced. */
  datatype IterState = IterState(pos: seq<nat>, loopPos: seq<nat>, added: Option<nat>)

  /** What one call of next() does: return a combination, raise StopIteration, or raise IndexError. */
  datatype Yield = Combo(indices: seq<nat>) | Stop | IndexError

  datatype Transition = Transition(out: Yield, next: IterState)

  function Zeros(n: nat): (z: seq<nat>)
    ensures |z| == n && forall i :: 0 <= i < n ==> z[i] == 0
  {
    seq(n, i => 0)
  }

  /** The state right after construction. */
  function Initial(n: nat): IterState
  {
    IterState(Zeros(n), Zeros(n), None)
  }

  /** The length of each candidate list. */
  function Lengths(lists: seq<seq<ScoredRange>>): (lens: seq<nat>)
    ensures |lens| == |lists| && forall x :: 0 <= x < |lists| ==> lens[x] == |lists[x]|
  {
    seq(|lists|, x requires 0 <= x < |lists| => |lists[x]|)
  }

  predicate Shaped(lens: seq<nat>, s: IterState)
  {
    |s.pos| == |lens| && |s.loopPos| == |lens| && (s.added.Some? ==> s.added.value < |lens|)
  }

  /**
   * The box test of the advancing step: box x may advance when x < len(ranges_x) - 1.
   * It compares the box's index x, not its current position, with its list length.
   */
  predicate Eligible(lens: seq<nat>, x: nat)
    requires x < |lens|
  {
    x < lens[x] as int - 1
  }

  /** Among the eligible boxes below n, the one with the smallest position, the lowest index on ties. */
  function MinEligible(lens: seq<nat>, pos: seq<nat>, n: nat): (r: Option<nat>)
    requires n <= |lens| == |pos|
    ensures r.Some? ==> r.value < n
  {
    if n == 0 then None
    else
      var prev := MinEligible(lens, pos, n - 1);
      if !Eligible(lens, n - 1) then prev
      else if prev.None? || pos[n - 1] < pos[prev.value] then Some(n - 1)
      else prev
  }

  /** The first box at or after `from`, other than the one last advanced, whose catch-up index is behind. */
  function FirstBehind(s: IterState, from: nat): (r: Option<nat>)
    requires |s.pos| == |s.loopPos|
    ensures r.Some? ==> from <= r.value < |s.pos|
    decreases |s.pos| - from
  {
    if from >= |s.pos| then None
    else if Some(from) != s.added && s.loopPos[from] < s.pos[from] then Some(from)
    else FirstBehind(s, from + 1)
  }

  /** Every position indexes its list: building the result raises no IndexError. */
  predicate InRange(lens: seq<nat>, pos: seq<nat>)
    requires |pos| == |lens|
  {
    forall x :: 0 <= x < |lens| ==> pos[x] < lens[x]
  }

  /** One call of next(), as a function of the list lengths and the fields. */
  function Step(lens: seq<nat>, s: IterState): (t: Transition)
    requires Shaped(lens, s)
    ensures Shaped(lens, t.next)
  {
    if !InRange(lens, s.pos) then Transition(IndexError, s)
    else if s.loopPos == s.pos then
      match MinEligible(lens, s.pos, |lens|)
      case None => Transition(Stop, s)
      case Some(a) =>
        var p := s.pos[a := s.pos[a] + 1];
        Transition(Combo(s.pos), IterState(p, Zeros(|lens|)[a := p[a]], Some(a)))
    else
      match FirstBehind(s, 0)
      case None => Transition(Combo(s.pos), s)
      case Some(x) => Transition(Combo(s.pos), s.(loopPos := s.loopPos[x := s.loopPos[x] + 1]))
  }

  /**
   * The iterator's invariant: catch-up indices never pass the positions, and the
   * box last advanced is always caught up (before any advance, nothing is behind).
   */
  predicate Inv(lens: seq<nat>, s: IterState)
  {
    Shaped(lens, s) &&
    (forall x :: 0 <= x < |lens| ==> s.loopPos[x] <= s.pos[x]) &&
    (s.added.Some? ==> s.loopPos[s.added.value] == s.pos[s.added.value]) &&
    (s.added.None? ==> s.loopPos == s.pos)
  }

  /** The outputs of up to n successive calls, ending at the first call that does not return. */
  function Trace(lens: seq<nat>, s: IterState, n: nat): (r: seq<Yield>)
    requires Shaped(lens, s)
    ensures |r| <= n
    decreases n
  {
    if n == 0 then []
    else
      var t := Step(lens, s);
      if t.out.Combo? then [t.out] + Trace(lens, t.next, n - 1) else [t.out]
  }

  class TemplateBoxRangeIterator {
    /** The candidate list of each matcher box, best first. */
    const lists: seq<seq<ScoredRange>>
    var pos: seq<nat>
    var loopPos: seq<nat>
    var added: Option<nat>

    function State(): IterState
      reads this
    {
      IterState(pos, loopPos, added)
    }

    ghost predicate Valid()
      reads this
    {
      Inv(Lengths(lists), State())
    }

    constructor (lists: seq<seq<ScoredRange>>)
      ensures this.lists == lists
      ensures State() == Initial(|lists|)
      ensures Valid()
    {
      this.lists := lists;
      pos := Zeros(|lists|);
      loopPos := Zeros(|lists|);
      added := None;
    }

    method Next() returns (y: Yield)
      requires Valid()
      modifies this
      ensures Valid()
      ensures Transition(y, State()) == Step(Lengths(lists), old(State()))
    {
      ghost var lens := Lengths(lists);
      StepPreservesInv(lens, State());
      var k := |lists|;
      var x := 0;
      while x < k
        invariant 0 <= x <= k
        invariant forall z :: 0 <= z < x ==> pos[z] < |lists[z]|
      {
        if pos[x] >= |lists[x]| {
          assert !InRange(lens, pos);
          return IndexError;
        }
        x := x + 1;
      }
      assert InRange(lens, pos);
      var result := pos;
      if loopPos == pos {
        var choice := FindAdded();
        if choice.None? {
          return Stop;
        }
        var a := choice.value;
        added := choice;
        pos := pos[a := pos[a] + 1];
        loopPos := Zeros(k)[a := pos[a]];
      } else {
        CatchUp();
      }
      return Combo(result);
    }

    /** The search for the box to advance: the eligible box with the smallest position. */
    method FindAdded() returns (choice: Option<nat>)
      requires |pos| == |lists|
      ensures choice == MinEligible(Lengths(lists), pos, |lists|)
    {
      ghost var lens := Lengths(lists);
      choice := None;
      var x := 0;
      while x < |lists|
        invariant 0 <= x <= |lists|
        invariant choice == MinEligible(lens, pos, x)
      {
        if x < |lists[x]| - 1 {
          if choice.None? || pos[x] < pos[choice.value] {
            choice := Some(x);
          }
        }
        x := x + 1;
      }
    }

    /** The catch-up step: raise the first catch-up index that is behind, skipping the box last advanced. */
    method CatchUp()
      requires |pos| == |loopPos|
      modifies this`loopPos
      ensures loopPos == match FirstBehind(old(State()), 0)
                         case None => old(loopPos)
                         case Some(x) => old(loopPos)[x := old(loopPos)[x] + 1]
    {
      ghost var before := State();
      var x := 0;
      while x < |loopPos|
        invariant 0 <= x <= |loopPos|
        invariant loopPos == before.loopPos
        invariant FirstBehind(before, 0) == FirstBehind(before, x)
      {
        if Some(x) != added && loopPos[x] < pos[x] {
          assert FirstBehind(before, x) == Some(x);
          loopPos := loopPos[x := loopPos[x] + 1];
          return;
        }
        x := x + 1;
      }
    }
  }

  /** MinEligible finds nothing exactly when no box below n is eligible. */
  lemma {:induction false} MinEligibleNone(lens: seq<nat>, pos: seq<nat>, n: nat)
    requires n <= |lens| == |pos|
    ensures MinEligible(lens, pos, n).None? <==> forall x :: 0 <= x < n ==> !Eligible(lens, x)
  {
    if n > 0 {
      MinEligibleNone(lens, pos, n - 1);
    }
  }

  /** The box MinEligible picks is eligible, has the smallest position, and the lowest index among ties. */
  lemma {:induction false} MinEligibleIsLeast(lens: seq<nat>, pos: seq<nat>, n: nat)
    requires n <= |lens| == |pos|
    requires MinEligible(lens, pos, n).Some?
    ensures var a := MinEligible(lens, pos, n).value;
      Eligible(lens, a) &&
      (forall x :: 0 <= x < n && Eligible(lens, x) ==> pos[a] <= pos[x]) &&
      (forall x :: 0 <= x < a && Eligible(lens, x) ==> pos[a] < pos[x])
  {
    var prev := MinEligible(lens, pos, n - 1);
    if prev.Some? {
      MinEligibleIsLeast(lens, pos, n - 1);
    } else {
      MinEligibleNone(lens, pos, n - 1);
    }
  }

  /** FirstBehind returns the first qualifying box at or after `from`. */
  lemma {:induction false} FirstBehindIsFirst(s: IterState, from: nat)
    requires |s.pos| == |s.loopPos|
    requires FirstBehind(s, from).Some?
    ensures var x := FirstBehind(s, from).value;
      Some(x) != s.added && s.loopPos[x] < s.pos[x] &&
      forall z :: from <= z < x ==> Some(z) == s.added || s.loopPos[z] >= s.pos[z]
    decreases |s.pos| - from
  {
    if !(Some(from) != s.added && s.loopPos[from] < s.pos[from]) {
      FirstBehindIsFirst(s, from + 1);
    }
  }

  /** FirstBehind finds a box whenever some box after `from`, other than the one last advanced, is behind. */
  lemma {:induction false} FirstBehindFinds(s: IterState, from: nat, z: nat)
    requires |s.pos| == |s.loopPos|
    requires from <= z < |s.pos| && Some(z) != s.added && s.loopPos[z] < s.pos[z]
    ensures FirstBehind(s, from).Some?
    decreases |s.pos| - from
  {
    if from < z && !(Some(from) != s.added && s.loopPos[from] < s.pos[from]) {
      FirstBehindFinds(s, from + 1, z);
    }
  }

  /** When the fields differ and the invariant holds, a catch-up step always exists. */
  lemma CatchUpExists(lens: seq<nat>, s: IterState)
    requires Inv(lens, s) && s.loopPos != s.pos
    ensures FirstBehind(s, 0).Some?
  {
    var z :| 0 <= z < |lens| && s.loopPos[z] != s.pos[z];
    FirstBehindFinds(s, 0, z);
  }

  /** Every call keeps the invariant. */
  lemma StepPreservesInv(lens: seq<nat>, s: IterState)
    requires Inv(lens, s)
    ensures Inv(lens, Step(lens, s).next)
  {
    if InRange(lens, s.pos) && s.loopPos != s.pos {
      CatchUpExists(lens, s);
      FirstBehindIsFirst(s, 0);
    }
  }

  /**
   * Advancing call (the fields agree): the current positions are returned, the
   * eligible box with the smallest position (lowest index on ties) moves up by
   * one, nothing else moves, and a new round starts with only that box caught up.
   * With no eligible box the call is StopIteration and nothing changes.
   */
  lemma AdvancingCall(lens: seq<nat>, s: IterState)
    requires Inv(lens, s) && InRange(lens, s.pos) && s.loopPos == s.pos
    ensures var t := Step(lens, s);
      if forall x :: 0 <= x < |lens| ==> !Eligible(lens, x) then
        t == Transition(Stop, s)
      else
        t.out == Combo(s.pos) && t.next.added.Some? &&
        var a := t.next.added.value;
        Eligible(lens, a) &&
        (forall x :: 0 <= x < |lens| && Eligible(lens, x) ==> s.pos[a] <= s.pos[x]) &&
        (forall x :: 0 <= x < a && Eligible(lens, x) ==> s.pos[a] < s.pos[x]) &&
        t.next.pos[a] == s.pos[a] + 1 &&
        (forall x :: 0 <= x < |lens| && x != a ==> t.next.pos[x] == s.pos[x]) &&
        t.next.loopPos[a] == t.next.pos[a] &&
        (forall x :: 0 <= x < |lens| && x != a ==> t.next.loopPos[x] == 0)
  {
    MinEligibleNone(lens, s.pos, |lens|);
    if MinEligible(lens, s.pos, |lens|).Some? {
      MinEligibleIsLeast(lens, s.pos, |lens|);
    }
  }

  /**
   * Catch-up call (the fields differ): the current positions are returned and
   * kept; exactly one catch-up index, that of the first box other than the one
   * last advanced that is behind, rises by one.
   */
  lemma CatchUpCall(lens: seq<nat>, s: IterState)
    requires Inv(lens, s) && InRange(lens, s.pos) && s.loopPos != s.pos
    ensures var t := Step(lens, s);
      t.out == Combo(s.pos) && t.next.pos == s.pos && t.next.added == s.added &&
      exists x :: 0 <= x < |lens| && Some(x) != s.added && s.loopPos[x] < s.pos[x] &&
        (forall z :: 0 <= z < x ==> Some(z) == s.added || s.loopPos[z] >= s.pos[z]) &&
        t.next.loopPos == s.loopPos[x := s.loopPos[x] + 1]
  {
    CatchUpExists(lens, s);
    FirstBehindIsFirst(s, 0);
  }

  /**
   * StopIteration does not mean the lists ran out: it happens only when no box
   * is eligible, and then only on a call where the fields agree.
   */
  lemma StopIffNoneEligible(lens: seq<nat>, s: IterState)
    requires Inv(lens, s)
    ensures Step(lens, s).out.Stop? <==>
              InRange(lens, s.pos) && s.loopPos == s.pos &&
              forall x :: 0 <= x < |lens| ==> !Eligible(lens, x)
  {
    MinEligibleNone(lens, s.pos, |lens|);
  }

  /** The first call returns all zeros, unless a list is empty (IndexError) or no box is eligible (StopIteration). */
  lemma FirstCall(lens: seq<nat>)
    ensures var out := Step(lens, Initial(|lens|)).out;
      if exists x :: 0 <= x < |lens| && lens[x] == 0 then out == IndexError
      else if forall x :: 0 <= x < |lens| ==> !Eligible(lens, x) then out == Stop
      else out == Combo(Zeros(|lens|))
  {
    MinEligibleNone(lens, Zeros(|lens|), |lens|);
    if exists x :: 0 <= x < |lens| && lens[x] == 0 {
      var x :| 0 <= x < |lens| && lens[x] == 0;
      assert Zeros(|lens|)[x] >= lens[x];
    }
  }

  /** Whatever combination a call returns is the positions it was called with. */
  lemma ComboIsPosition(lens: seq<nat>, s: IterState)
    requires Shaped(lens, s) && Step(lens, s).out.Combo?
    ensures Step(lens, s).out.indices == s.pos
  {
  }

  /** A catch-up call keeps the positions, so a combination returned by the next call repeats this one. */
  lemma CatchUpRepeats(lens: seq<nat>, s: IterState)
    requires Inv(lens, s) && InRange(lens, s.pos) && s.loopPos != s.pos
    requires Step(lens, Step(lens, s).next).out.Combo?
    ensures Step(lens, Step(lens, s).next).out == Step(lens, s).out
  {
    CatchUpCall(lens, s);
  }

  lemma TwoByThreeFirst()
    ensures Step([2, 3], Initial(2)) == Transition(Combo([0, 0]), IterState([1, 0], [1, 0], Some(0)))
  {
    assert Initial(2) == IterState([0, 0], [0, 0], None);
    assert MinEligible([2, 3], [0, 0], 2) == Some(0);
  }

  lemma TwoByThreeSecond()
    ensures Step([2, 3], IterState([1, 0], [1, 0], Some(0))) ==
              Transition(Combo([1, 0]), IterState([1, 1], [0, 1], Some(1)))
  {
    assert MinEligible([2, 3], [1, 0], 2) == Some(1);
  }

  lemma TwoByThreeThird()
    ensures Step([2, 3], IterState([1, 1], [0, 1], Some(1))) ==
              Transition(Combo([1, 1]), IterState([1, 1], [1, 1], Some(1)))
  {
    assert FirstBehind(IterState([1, 1], [0, 1], Some(1)), 0) == Some(0);
  }

  lemma TwoByThreeFourth()
    ensures Step([2, 3], IterState([1, 1], [1, 1], Some(1))) ==
              Transition(Combo([1, 1]), IterState([2, 1], [2, 0], Some(0)))
  {
    assert MinEligible([2, 3], [1, 1], 2) == Some(0);
  }

  /**
   * Lists of 2 and 3 candidates: (0,0), (1,0), (1,1), (1,1), then IndexError
   * when box 0's position passes the end of its list.
   */
  lemma TwoByThreeTrace()
    ensures Trace([2, 3], Initial(2), 5) ==
              [Combo([0, 0]), Combo([1, 0]), Combo([1, 1]), Combo([1, 1]), IndexError]
  {
    TwoByThreeFirst();
    TwoByThreeSecond();
    TwoByThreeThird();
    TwoByThreeFourth();
    var s4 := IterState([2, 1], [2, 0], Some(0));
    assert !InRange([2, 3], s4.pos);
    assert Trace([2, 3], s4, 1) == [IndexError];
  }
}
