/** The inner scoring step of both template searches: the mean trigram similarity of the matcher boxes. */
module Scoring {
  import opened Outcomes
  import opened Templates
  import opened Extraction

  /** The number of extracted boxes whose template box is a matcher. */
  function MatcherCount(ds: seq<DocumentBox>): nat
  {
    if |ds| == 0 then 0
    else MatcherCount(ds[..|ds| - 1]) + (if IsMatcher(ds[|ds| - 1].templateBox) then 1 else 0)
  }

  /** The trigram similarity of one extracted box against its template text. */
  function Similarity(met: Metrics, d: DocumentBox): real
  {
    met.trigram(d.text, d.templateBox.text)
  }

  /** The sum of the matcher boxes' similarities. */
  function SimilaritySum(met: Metrics, ds: seq<DocumentBox>): real
  {
    if |ds| == 0 then 0.0
    else SimilaritySum(met, ds[..|ds| - 1]) + (if IsMatcher(ds[|ds| - 1].templateBox) then Similarity(met, ds[|ds| - 1]) else 0.0)
  }

  /** `score / matcherBoxes`, which raises when no matcher box was extracted. */
  function MeanScore(met: Metrics, doc: Document): Outcome<real>
  {
    var n := MatcherCount(doc.boxes);
    if n == 0 then Raised(ZeroDivision) else Ok(SimilaritySum(met, doc.boxes) / n as real)
  }

  method ScoreDocument(met: Metrics, doc: Document) returns (r: Outcome<real>)
    ensures r == MeanScore(met, doc)
  {
    var score := 0.0;
    var matcherBoxes := 0;
    var i := 0;
    while i < |doc.boxes|
      invariant 0 <= i <= |doc.boxes|
      invariant matcherBoxes == MatcherCount(doc.boxes[..i])
      invariant score == SimilaritySum(met, doc.boxes[..i])
    {
      assert doc.boxes[..i + 1][..i] == doc.boxes[..i];
      var documentBox := doc.boxes[i];
      if IsMatcher(documentBox.templateBox) {
        matcherBoxes := matcherBoxes + 1;
        score := score + met.trigram(documentBox.text, documentBox.templateBox.text);
      }
      i := i + 1;
    }
    assert doc.boxes[..i] == doc.boxes;
    if matcherBoxes == 0 {
      return Raised(ZeroDivision);
    }
    return Ok(score / matcherBoxes as real);
  }

  /** No matcher box is counted exactly when none of the extracted boxes is a matcher. */
  lemma {:induction false} MatcherCountZeroIff(ds: seq<DocumentBox>)
    ensures MatcherCount(ds) == 0 <==> forall i :: 0 <= i < |ds| ==> !IsMatcher(ds[i].templateBox)
  {
    if |ds| > 0 {
      MatcherCountZeroIff(ds[..|ds| - 1]);
      assert forall i :: 0 <= i < |ds| - 1 ==> ds[..|ds| - 1][i] == ds[i];
    }
  }

  lemma {:induction false} SimilaritySumBounds(met: Metrics, ds: seq<DocumentBox>, lo: real, hi: real)
    requires forall i :: 0 <= i < |ds| && IsMatcher(ds[i].templateBox) ==> lo <= Similarity(met, ds[i]) <= hi
    ensures lo * MatcherCount(ds) as real <= SimilaritySum(met, ds) <= hi * MatcherCount(ds) as real
  {
    if |ds| > 0 {
      var front := ds[..|ds| - 1];
      assert forall i :: 0 <= i < |front| ==> front[i] == ds[i];
      SimilaritySumBounds(met, front, lo, hi);
    }
  }

  /** The mean of similarities that all lie in [lo, hi] lies in [lo, hi]. */
  lemma MeanScoreBounds(met: Metrics, doc: Document, lo: real, hi: real)
    requires forall i :: 0 <= i < |doc.boxes| && IsMatcher(doc.boxes[i].templateBox) ==>
               lo <= Similarity(met, doc.boxes[i]) <= hi
    requires MeanScore(met, doc).Ok?
    ensures lo <= MeanScore(met, doc).value <= hi
  {
    SimilaritySumBounds(met, doc.boxes, lo, hi);
    var n := MatcherCount(doc.boxes) as real;
    var s := SimilaritySum(met, doc.boxes);
    DivideBounds(lo, s, hi, n);
  }

  lemma DivideBounds(lo: real, s: real, hi: real, n: real)
    requires n > 0.0 && lo * n <= s <= hi * n
    ensures lo <= s / n <= hi
  {
    var q := s / n;
    assert q * n == s;
  }

  /**
   * Scoring an extracted document raises the division error exactly when the
   * template has no matcher box with a non-empty text.
   */
  lemma ScoreRaisesIffNoMatcher(scan: Scan, met: Metrics, t: Template, dx: real, dy: real)
    requires ExtractBoxes(scan, t.boxes, dx, dy).Ok?
    ensures MeanScore(met, Document(ExtractBoxes(scan, t.boxes, dx, dy).value)).Raised? <==>
              forall b :: b in t.boxes ==> !(IsMatcher(b) && b.text != "")
  {
    var ds := ExtractBoxes(scan, t.boxes, dx, dy).value;
    ExtractedBoxes(scan, t.boxes, dx, dy);
    MatcherCountZeroIff(ds);
    var kept := NonEmpty(t.boxes);
    forall b | b in t.boxes && IsMatcher(b) && b.text != ""
      ensures exists i :: 0 <= i < |ds| && IsMatcher(ds[i].templateBox)
    {
      NonEmptyMembers(t.boxes, b);
      var i :| 0 <= i < |kept| && kept[i] == b;
      assert ds[i].templateBox == b;
    }
    forall i | 0 <= i < |ds| && IsMatcher(ds[i].templateBox)
      ensures exists b :: b in t.boxes && IsMatcher(b) && b.text != ""
    {
      assert kept[i] in kept;
      NonEmptyMembers(t.boxes, kept[i]);
    }
  }
}
