/** A matcher box's candidate ranges: scored by distance and sorted best first. */
module Candidates {
  import opened Ranges

  /** A range together with the `distance` the search writes on it. */
  datatype ScoredRange = ScoredRange(range: Range, distance: real)

  /** rangeDistanceComparison: the sign of x.distance - y.distance. */
  function RangeDistanceComparison(x: ScoredRange, y: ScoredRange): (r: int)
    ensures -1 <= r <= 1
    ensures r == 1 <==> x.distance > y.distance
    ensures r == -1 <==> x.distance < y.distance
    ensures r == 0 <==> x.distance == y.distance
  {
    if x.distance > y.distance then 1
    else if x.distance < y.distance then -1
    else 0
  }

  /** Swapping the arguments flips the sign: the comparator is a consistent ordering. */
  lemma ComparisonAntisymmetric(x: ScoredRange, y: ScoredRange)
    ensures RangeDistanceComparison(x, y) == -RangeDistanceComparison(y, x)
  {
  }

  predicate SortedByDistance(s: seq<ScoredRange>)
  {
    forall i, j :: 0 <= i < j < |s| ==> s[i].distance <= s[j].distance
  }

  /** Insert x into a sorted list before every element it does not compare above. */
  function Insert(x: ScoredRange, s: seq<ScoredRange>): (r: seq<ScoredRange>)
    ensures multiset(r) == multiset(s) + multiset{x}
    ensures |r| == |s| + 1
    ensures r[0] == x || (s != [] && r[0] == s[0])
  {
    if s == [] then [x]
    else if RangeDistanceComparison(x, s[0]) <= 0 then [x] + s
    else
      assert s == [s[0]] + s[1..];
      [s[0]] + Insert(x, s[1..])
  }

  /**
   * list.sort(rangeDistanceComparison): a stable sort, here by insertion.
   * The result is a permutation of the input with non-decreasing distance.
   */
  function SortByDistance(s: seq<ScoredRange>): (r: seq<ScoredRange>)
    ensures SortedByDistance(r)
    ensures multiset(r) == multiset(s)
  {
    if s == [] then []
    else
      assert s == [s[0]] + s[1..];
      InsertSorted(s[0], SortByDistance(s[1..]));
      Insert(s[0], SortByDistance(s[1..]))
  }

  lemma {:induction false} InsertSorted(x: ScoredRange, s: seq<ScoredRange>)
    requires SortedByDistance(s)
    ensures SortedByDistance(Insert(x, s))
  {
    if s != [] && RangeDistanceComparison(x, s[0]) > 0 {
      InsertSorted(x, s[1..]);
      var tail := Insert(x, s[1..]);
      assert Insert(x, s) == [s[0]] + tail;
      forall j | 0 <= j < |tail| ensures s[0].distance <= tail[j].distance {
        assert tail[j] in multiset(tail);
        assert tail[j] == x || tail[j] in multiset(s[1..]);
        if tail[j] != x {
          assert tail[j] in s[1..];
          var k :| 0 <= k < |s[1..]| && s[1..][k] == tail[j];
          assert s[k + 1] == tail[j];
        }
      }
    }
  }

  /** The elements of `s` at distance `d`, in their order in `s`. */
  function AtDistance(s: seq<ScoredRange>, d: real): seq<ScoredRange>
  {
    if s == [] then []
    else (if s[0].distance == d then [s[0]] else []) + AtDistance(s[1..], d)
  }

  lemma AtDistanceCons(a: ScoredRange, t: seq<ScoredRange>, d: real)
    ensures AtDistance([a] + t, d) == (if a.distance == d then [a] else []) + AtDistance(t, d)
  {
    assert ([a] + t)[0] == a && ([a] + t)[1..] == t;
  }

  lemma {:induction false} InsertKeepsTies(x: ScoredRange, s: seq<ScoredRange>, d: real)
    requires SortedByDistance(s)
    ensures AtDistance(Insert(x, s), d) == (if x.distance == d then [x] else []) + AtDistance(s, d)
  {
    if s == [] {
      AtDistanceCons(x, [], d);
    } else if RangeDistanceComparison(x, s[0]) > 0 {
      InsertKeepsTies(x, s[1..], d);
      AtDistanceCons(s[0], Insert(x, s[1..]), d);
      AtDistanceCons(s[0], s[1..], d);
      assert s == [s[0]] + s[1..];
    } else {
      AtDistanceCons(x, s, d);
    }
  }

  /** The sort is stable: elements of equal distance keep their relative order. */
  lemma {:induction false} SortKeepsTies(s: seq<ScoredRange>, d: real)
    ensures AtDistance(SortByDistance(s), d) == AtDistance(s, d)
  {
    if s != [] {
      SortKeepsTies(s[1..], d);
      InsertKeepsTies(s[0], SortByDistance(s[1..]), d);
    }
  }

  /** The scored list: each range with the distance of its text to the expected text. */
  function Scored(lines: seq<Line>, ranges: seq<Range>, expected: string, distance: (string, string) -> real)
    : (r: seq<ScoredRange>)
    requires forall k :: 0 <= k < |ranges| ==> ranges[k].line < |lines|
  {
    seq(|ranges|, k requires 0 <= k < |ranges| =>
      ScoredRange(ranges[k], distance(Text(lines, ranges[k]), expected)))
  }

  /** The scoring loop of findTemplateOffset: `ran.distance = hamming(ran.text(), text)` for each range. */
  method ScoreRanges(lines: seq<Line>, ranges: seq<Range>, expected: string, distance: (string, string) -> real)
    returns (scored: seq<ScoredRange>)
    requires forall k :: 0 <= k < |ranges| ==> ranges[k].line < |lines|
    ensures |scored| == |ranges|
    ensures forall k :: 0 <= k < |ranges| ==>
              scored[k].range == ranges[k] && scored[k].distance == distance(Text(lines, ranges[k]), expected)
    ensures scored == Scored(lines, ranges, expected, distance)
  {
    scored := [];
    var i := 0;
    while i < |ranges|
      invariant 0 <= i <= |ranges|
      invariant scored == Scored(lines, ranges[..i], expected, distance)
    {
      var ran := ranges[i];
      var text := Text(lines, ran);
      scored := scored + [ScoredRange(ran, distance(text, expected))];
      i := i + 1;
    }
    assert ranges[..i] == ranges;
  }
}
