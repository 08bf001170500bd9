/** Spans of recognized characters (the `Range` class) and their enumeration. */
module Ranges {
  import opened Geometry

  /** One recognized character with its bounding box in image space. */
  datatype Glyph = Glyph(character: char, box: Rect)

  /** One recognized text line, left to right. */
  type Line = seq<Glyph>

  /** The span lines[line][pos .. pos + length] of the recognized text. */
  datatype Range = Range(line: nat, pos: nat, length: nat)

  /** Python's slice s[lo:hi] for non-negative bounds: both ends are clamped to |s|. */
  function Slice<T>(s: seq<T>, lo: nat, hi: nat): (r: seq<T>)
    ensures hi <= |s| && lo <= hi ==> r == s[lo..hi]
    ensures |r| <= |s| && |r| <= hi
  {
    var h := if hi <= |s| then hi else |s|;
    if lo <= h then s[lo..h] else []
  }

  /** The characters of a run of glyphs, joined into a string. */
  function Characters(glyphs: seq<Glyph>): (s: string)
    ensures |s| == |glyphs|
    ensures forall i :: 0 <= i < |s| ==> s[i] == glyphs[i].character
  {
    seq(|glyphs|, i requires 0 <= i < |glyphs| => glyphs[i].character)
  }

  /** Range.text(): the characters of the span, as a string. */
  function Text(lines: seq<Line>, r: Range): (s: string)
    requires r.line < |lines|
    ensures r.pos + r.length <= |lines[r.line]| ==>
              s == Characters(lines[r.line][r.pos .. r.pos + r.length]) && |s| == r.length
    ensures |s| <= r.length
  {
    Characters(Slice(lines[r.line], r.pos, r.pos + r.length))
  }

  /** The ranges contributed by line `i`, of `n` characters, for the target length. */
  function LineRanges(i: nat, n: nat, length: nat): seq<Range>
    requires length > 0
  {
    if length > n then [Range(i, 0, n)]
    else seq(n - length, p requires 0 <= p => Range(i, p, length))
  }

  /** Ranges of the first `n` lines, line by line. */
  function RangesUpTo(lines: seq<Line>, length: nat, n: nat): (rs: seq<Range>)
    requires length > 0 && n <= |lines|
  {
    if n == 0 then []
    else RangesUpTo(lines, length, n - 1) + LineRanges(n - 1, |lines[n - 1]|, length)
  }

  /** Range.extractAllRangesFromDocument(lines, length) as a value. */
  function AllRanges(lines: seq<Line>, length: int): (rs: seq<Range>)
    ensures forall r :: r in rs ==> r.line < |lines| && r.pos + r.length <= |lines[r.line]|
  {
    if length <= 0 then []
    else
      RangesUpToInBounds(lines, length, |lines|);
      RangesUpTo(lines, length, |lines|)
  }

  lemma {:induction false} RangesUpToInBounds(lines: seq<Line>, length: nat, n: nat)
    requires length > 0 && n <= |lines|
    ensures forall k :: 0 <= k < |RangesUpTo(lines, length, n)| ==>
              RangesUpTo(lines, length, n)[k].line < n &&
              RangesUpTo(lines, length, n)[k].pos + RangesUpTo(lines, length, n)[k].length
                <= |lines[RangesUpTo(lines, length, n)[k].line]|
  {
    if n > 0 {
      RangesUpToInBounds(lines, length, n - 1);
      LineRangesShape(n - 1, |lines[n - 1]|, length);
    }
  }

  /** Does a line with `n` characters produce range `r` (whatever r.line says)? */
  predicate Produces(n: nat, length: nat, r: Range)
  {
    if length > n then r.pos == 0 && r.length == n
    else r.length == length && r.pos < n - length
  }

  /** How many ranges a line of `n` characters contributes. */
  function LineCount(n: nat, length: nat): nat
  {
    if length > n then 1 else n - length
  }

  /** The number of ranges of the first `n` lines. */
  function CountUpTo(lines: seq<Line>, length: nat, n: nat): nat
    requires n <= |lines|
  {
    if n == 0 then 0 else CountUpTo(lines, length, n - 1) + LineCount(|lines[n - 1]|, length)
  }

  /** `a` comes strictly before `b` in reading order. */
  predicate Before(a: Range, b: Range)
  {
    a.line < b.line || (a.line == b.line && a.pos < b.pos)
  }

  /** The extraction loop: one pass over the lines, one inner pass per long enough line. */
  method ExtractAllRangesFromDocument(lines: seq<Line>, length: int) returns (ranges: seq<Range>)
    ensures ranges == AllRanges(lines, length)
  {
    if length <= 0 {
      return [];
    }
    ranges := [];
    var line := 0;
    while line < |lines|
      invariant 0 <= line <= |lines|
      invariant ranges == RangesUpTo(lines, length, line)
    {
      if length > |lines[line]| {
        ranges := ranges + [Range(line, 0, |lines[line]|)];
      } else {
        var pos := 0;
        while pos < |lines[line]| - length
          invariant 0 <= pos <= |lines[line]| - length
          invariant ranges == RangesUpTo(lines, length, line) + LineRanges(line, |lines[line]|, length)[..pos]
        {
          ranges := ranges + [Range(line, pos, length)];
          pos := pos + 1;
        }
      }
      line := line + 1;
    }
  }

  lemma {:induction false} RangesUpToMembership(lines: seq<Line>, length: nat, n: nat, r: Range)
    requires length > 0 && n <= |lines|
    ensures r in RangesUpTo(lines, length, n) <==> r.line < n && Produces(|lines[r.line]|, length, r)
  {
    if n > 0 {
      RangesUpToMembership(lines, length, n - 1, r);
      var own := LineRanges(n - 1, |lines[n - 1]|, length);
      if r.line == n - 1 && Produces(|lines[r.line]|, length, r) && length <= |lines[n - 1]| {
        assert own[r.pos] == r;
      }
    }
  }

  /** A range is produced exactly when its line exists and that line's window rule allows it. */
  lemma RangeMembership(lines: seq<Line>, length: int, r: Range)
    ensures r in AllRanges(lines, length) <==>
              length > 0 && r.line < |lines| && Produces(|lines[r.line]|, length, r)
  {
    if length > 0 {
      RangesUpToMembership(lines, length, |lines|, r);
    }
  }

  /** A line shorter than the target yields one range covering the whole line. */
  lemma ShortLineWhole(lines: seq<Line>, length: int, i: nat)
    requires i < |lines| && |lines[i]| < length
    ensures Range(i, 0, |lines[i]|) in AllRanges(lines, length)
    ensures Text(lines, Range(i, 0, |lines[i]|)) == Characters(lines[i])
  {
    RangeMembership(lines, length, Range(i, 0, |lines[i]|));
    assert lines[i][0 .. |lines[i]|] == lines[i];
  }

  /** A line of exactly the target length yields no range at all. */
  lemma ExactLengthLineYieldsNothing(lines: seq<Line>, length: int, i: nat, r: Range)
    requires i < |lines| && |lines[i]| == length
    requires r in AllRanges(lines, length)
    ensures r.line != i
  {
    RangeMembership(lines, length, r);
  }

  /** The last full window of a long enough line is never produced. */
  lemma LastWindowOmitted(lines: seq<Line>, length: int, i: nat)
    requires i < |lines| && 0 < length <= |lines[i]|
    ensures Range(i, |lines[i]| - length, length) !in AllRanges(lines, length)
  {
    RangeMembership(lines, length, Range(i, |lines[i]| - length, length));
  }

  lemma LineRangesShape(i: nat, n: nat, length: nat)
    requires length > 0
    ensures |LineRanges(i, n, length)| == LineCount(n, length)
    ensures forall k :: 0 <= k < |LineRanges(i, n, length)| ==>
              LineRanges(i, n, length)[k].line == i &&
              LineRanges(i, n, length)[k].pos == (if length > n then 0 else k)
  {
  }

  lemma {:induction false} RangesUpToCount(lines: seq<Line>, length: nat, n: nat)
    requires length > 0 && n <= |lines|
    ensures |RangesUpTo(lines, length, n)| == CountUpTo(lines, length, n)
  {
    if n > 0 {
      RangesUpToCount(lines, length, n - 1);
      LineRangesShape(n - 1, |lines[n - 1]|, length);
      var front := RangesUpTo(lines, length, n - 1);
      var own := LineRanges(n - 1, |lines[n - 1]|, length);
      assert RangesUpTo(lines, length, n) == front + own;
    }
  }

  /** The total is the sum over lines of |line| - length, or 1 for a short line. */
  lemma RangeCount(lines: seq<Line>, length: int)
    ensures |AllRanges(lines, length)| == if length <= 0 then 0 else CountUpTo(lines, length, |lines|)
  {
    if length > 0 {
      RangesUpToCount(lines, length, |lines|);
    }
  }

  lemma {:induction false} RangesUpToOrdered(lines: seq<Line>, length: nat, n: nat)
    requires length > 0 && n <= |lines|
    ensures forall i, j :: 0 <= i < j < |RangesUpTo(lines, length, n)| ==>
              Before(RangesUpTo(lines, length, n)[i], RangesUpTo(lines, length, n)[j])
  {
    if n > 0 {
      RangesUpToOrdered(lines, length, n - 1);
      RangesUpToInBounds(lines, length, n - 1);
      var front := RangesUpTo(lines, length, n - 1);
      var own := LineRanges(n - 1, |lines[n - 1]|, length);
      LineRangesShape(n - 1, |lines[n - 1]|, length);
      var all := front + own;
      assert all == RangesUpTo(lines, length, n);
      forall i, j | 0 <= i < j < |all| ensures Before(all[i], all[j]) {
      }
    }
  }

  /** Ranges come in reading order: by line, then by position. */
  lemma RangesOrdered(lines: seq<Line>, length: int)
    ensures forall i, j :: 0 <= i < j < |AllRanges(lines, length)| ==>
              Before(AllRanges(lines, length)[i], AllRanges(lines, length)[j])
  {
    if length > 0 {
      RangesUpToOrdered(lines, length, |lines|);
    }
  }
}
