/** Templates, the documents extracted with them, and the state of a completed scan. */
module Templates {
  import opened Outcomes
  import opened Geometry
  import opened Ranges
  import opened Filters

  /** TemplateBox.type: only 'matcher' boxes take part in locating a template. */
  datatype BoxKind = Matcher | Field(name: string)

  /** TemplateBox.recognizer: which engine reads the box. */
  datatype RecognizerKind = Barcode | Ocr | OtherRecognizer(name: string)

  /** A named field of a template, in the template's reference coordinates. */
  datatype TemplateBox = TemplateBox(
    name: string,
    rect: Rect,
    featureRect: Rect,
    kind: BoxKind,
    recognizer: RecognizerKind,
    filter: FilterKind,
    text: string)

  datatype Template = Template(name: string, boxes: seq<TemplateBox>)

  /** An extracted value and the template box it was read for. */
  datatype DocumentBox = DocumentBox(text: Option<string>, templateBox: TemplateBox)

  datatype Document = Document(boxes: seq<DocumentBox>)

  /**
   * What the barcode and OCR engines hold after `recognize`: their region
   * lookups, the OCR text lines, and the centre of a span's bounding box.
   */
  datatype Scan = Scan(
    barcodeText: Rect -> string,
    barcodeFeatureRect: Rect -> Rect,
    ocrText: Rect -> string,
    ocrFeatureRect: Rect -> Rect,
    lines: seq<Line>,
    rangeCentre: Range -> Point)

  /** The external similarity measures: trigram similarity and the translator-aware Hamming distance. */
  datatype Metrics = Metrics(
    trigram: (Option<string>, string) -> real,
    hamming: (string, string) -> real)

  predicate IsMatcher(b: TemplateBox)
  {
    b.kind.Matcher?
  }
}
