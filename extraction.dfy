/** Recognizer.textInRegion, featureRectInRegion and extractWithTemplate. */
module Extraction {
  import opened Outcomes
  import opened Geometry
  import opened Filters
  import opened Templates

  /** Recognizer.textInRegion: ask the engine the box names; any other name gives no text. */
  function TextInRegion(scan: Scan, region: Rect, kind: RecognizerKind): (r: Option<string>)
    ensures r.None? <==> kind.OtherRecognizer?
    ensures kind.Barcode? ==> r == Some(scan.barcodeText(region))
    ensures kind.Ocr? ==> r == Some(scan.ocrText(region))
  {
    match kind
    case Barcode => Some(scan.barcodeText(region))
    case Ocr => Some(scan.ocrText(region))
    case OtherRecognizer(_) => None
  }

  /** Recognizer.featureRectInRegion: the same dispatch for the bounding box of the text found. */
  function FeatureRectInRegion(scan: Scan, region: Rect, kind: RecognizerKind): (r: Option<Rect>)
    ensures r.None? <==> kind.OtherRecognizer?
    ensures kind.Barcode? ==> r == Some(scan.barcodeFeatureRect(region))
    ensures kind.Ocr? ==> r == Some(scan.ocrFeatureRect(region))
  {
    match kind
    case Barcode => Some(scan.barcodeFeatureRect(region))
    case Ocr => Some(scan.ocrFeatureRect(region))
    case OtherRecognizer(_) => None
  }

  /** The value read for one box: its rectangle moved by the offset, looked up, then filtered. */
  function BoxText(scan: Scan, b: TemplateBox, dx: real, dy: real): Outcome<Option<string>>
  {
    Filter(TextInRegion(scan, Translate(b.rect, dx, dy), b.recognizer), b.filter)
  }

  /** The boxes with a non-empty text, in template order. */
  function NonEmpty(boxes: seq<TemplateBox>): seq<TemplateBox>
  {
    if |boxes| == 0 then []
    else
      var last := boxes[|boxes| - 1];
      NonEmpty(boxes[..|boxes| - 1]) + (if last.text != "" then [last] else [])
  }

  /** The extraction loop over `boxes`, stopping at the first box whose filter raises. */
  function ExtractBoxes(scan: Scan, boxes: seq<TemplateBox>, dx: real, dy: real): Outcome<seq<DocumentBox>>
  {
    if |boxes| == 0 then Ok([])
    else
      match ExtractBoxes(scan, boxes[..|boxes| - 1], dx, dy)
      case Raised(e) => Raised(e)
      case Ok(done) =>
        var last := boxes[|boxes| - 1];
        if last.text == "" then Ok(done)
        else
          match BoxText(scan, last, dx, dy)
          case Raised(e) => Raised(e)
          case Ok(t) => Ok(done + [DocumentBox(t, last)])
  }

  /** extractWithTemplate as a value: no template gives no document. */
  function Extract(scan: Scan, template: Option<Template>, dx: real, dy: real): Outcome<Option<Document>>
  {
    match template
    case None => Ok(None)
    case Some(t) =>
      match ExtractBoxes(scan, t.boxes, dx, dy)
      case Raised(e) => Raised(e)
      case Ok(ds) => Ok(Some(Document(ds)))
  }

  method ExtractWithTemplate(scan: Scan, template: Option<Template>, xOffset: real, yOffset: real)
    returns (r: Outcome<Option<Document>>)
    ensures r == Extract(scan, template, xOffset, yOffset)
  {
    if template.None? {
      return Ok(None);
    }
    var boxes := template.value.boxes;
    var document: seq<DocumentBox> := [];
    var i := 0;
    while i < |boxes|
      invariant 0 <= i <= |boxes|
      invariant ExtractBoxes(scan, boxes[..i], xOffset, yOffset) == Ok(document)
    {
      assert boxes[..i + 1][..i] == boxes[..i];
      var templateBox := boxes[i];
      if templateBox.text != "" {
        var rect := Translate(templateBox.rect, xOffset, yOffset);
        var text := TextInRegion(scan, rect, templateBox.recognizer);
        var filtered := Filter(text, templateBox.filter);
        if filtered.Raised? {
          ExtractRaisedSticks(scan, boxes, i + 1, xOffset, yOffset);
          return Raised(filtered.error);
        }
        document := document + [DocumentBox(filtered.value, templateBox)];
      }
      i := i + 1;
    }
    assert boxes[..i] == boxes;
    return Ok(Some(Document(document)));
  }

  /** Once a prefix of the boxes raises, the whole extraction raises the same error. */
  lemma {:induction false} ExtractRaisedSticks(scan: Scan, boxes: seq<TemplateBox>, n: nat, dx: real, dy: real)
    requires n <= |boxes| && ExtractBoxes(scan, boxes[..n], dx, dy).Raised?
    ensures ExtractBoxes(scan, boxes, dx, dy) == ExtractBoxes(scan, boxes[..n], dx, dy)
    decreases |boxes| - n
  {
    if n < |boxes| {
      assert boxes[..n + 1][..n] == boxes[..n];
      ExtractRaisedSticks(scan, boxes, n + 1, dx, dy);
    } else {
      assert boxes[..n] == boxes;
    }
  }

  /** A box is kept exactly when it is one of the boxes and its text is not empty. */
  lemma {:induction false} NonEmptyMembers(boxes: seq<TemplateBox>, b: TemplateBox)
    ensures b in NonEmpty(boxes) <==> b in boxes && b.text != ""
  {
    if |boxes| > 0 {
      NonEmptyMembers(boxes[..|boxes| - 1], b);
      assert boxes == boxes[..|boxes| - 1] + [boxes[|boxes| - 1]];
    }
  }

  /** Skipping empty boxes keeps template order: it works piece by piece. */
  lemma {:induction false} NonEmptyConcat(a: seq<TemplateBox>, b: seq<TemplateBox>)
    ensures NonEmpty(a + b) == NonEmpty(a) + NonEmpty(b)
    decreases |b|
  {
    if |b| == 0 {
      assert a + b == a;
    } else {
      assert (a + b)[..|a + b| - 1] == a + b[..|b| - 1];
      NonEmptyConcat(a, b[..|b| - 1]);
    }
  }

  /**
   * A successful extraction holds exactly one box per template box with text,
   * in template order, each pointing back to its template box and holding
   * that box's filtered text at the translated rectangle.
   */
  lemma {:induction false} ExtractedBoxes(scan: Scan, boxes: seq<TemplateBox>, dx: real, dy: real)
    requires ExtractBoxes(scan, boxes, dx, dy).Ok?
    ensures |ExtractBoxes(scan, boxes, dx, dy).value| == |NonEmpty(boxes)|
    ensures forall i :: 0 <= i < |NonEmpty(boxes)| ==>
              ExtractBoxes(scan, boxes, dx, dy).value[i].templateBox == NonEmpty(boxes)[i] &&
              Ok(ExtractBoxes(scan, boxes, dx, dy).value[i].text) == BoxText(scan, NonEmpty(boxes)[i], dx, dy)
  {
    if |boxes| > 0 {
      ExtractedBoxes(scan, boxes[..|boxes| - 1], dx, dy);
    }
  }

  /** Extraction succeeds exactly when every box with text can be filtered. */
  lemma {:induction false} ExtractSucceedsIff(scan: Scan, boxes: seq<TemplateBox>, dx: real, dy: real)
    ensures ExtractBoxes(scan, boxes, dx, dy).Ok? <==>
              forall i :: 0 <= i < |NonEmpty(boxes)| ==> BoxText(scan, NonEmpty(boxes)[i], dx, dy).Ok?
  {
    if |boxes| > 0 {
      var front := boxes[..|boxes| - 1];
      ExtractSucceedsIff(scan, front, dx, dy);
      var last := boxes[|boxes| - 1];
      var all := NonEmpty(boxes);
      assert all == NonEmpty(front) + (if last.text != "" then [last] else []);
      if forall i :: 0 <= i < |all| ==> BoxText(scan, all[i], dx, dy).Ok? {
        assert forall i :: 0 <= i < |NonEmpty(front)| ==> all[i] == NonEmpty(front)[i];
        if last.text != "" {
          assert all[|all| - 1] == last;
        }
      }
    }
  }

  /** A box's filter raises exactly when its engine is unknown and its filter iterates over the text. */
  lemma BoxTextRaisesIff(scan: Scan, b: TemplateBox, dx: real, dy: real)
    ensures BoxText(scan, b, dx, dy).Raised? <==> b.recognizer.OtherRecognizer? && KeepsClass(b.filter)
  {
  }
}
