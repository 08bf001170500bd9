# NaNScaN recognizer: a verified model of template alignment

This project models the part of NaNScaN's `Recognizer` that lines up a scanned document with
a template. It covers these operations:

- **Ranges.** Windows of characters over the OCR text lines, built by
  `Range.extractAllRangesFromDocument`, and the text they cover (`Range.text`).
- **Filtering.** `Recognizer.filter` keeps the numeric, alphabetic or alphanumeric
  characters of an extracted text.
- **Extraction.** `Recognizer.extractWithTemplate` lays a template's boxes over the scan at an
  offset and reads each box through the barcode or OCR engine. It uses the
  `textInRegion`/`featureRectInRegion` dispatch.
- **Scoring.** Both template searches score a document as the mean trigram similarity of its
  matcher boxes.
- **Candidate sorting.** Each matcher box's candidate ranges are scored by Hamming distance and
  sorted stably with `rangeDistanceComparison`.
- **`TemplateBoxRangeIterator`.** The combination iterator is a class with the fields `pos`,
  `loopPos` and `added`. Its `Next` method is proved to perform one step of a pure transition
  function, `Step`.
- **`findTemplateOffset`.** It draws at most 11 combinations from the iterator. It accepts the
  first combination whose boxes agree with box 0's offset (the "anchor"), and returns that
  offset.
- **`findMatchingTemplateByOffset`.** It tries every template at the 121 integer offsets in
  -5..5 × -5..5.
- **`findMatchingTemplateByText`.** It tries every template at its own `findTemplateOffset`.
  Both searches keep the first candidate whose score is strictly above the best so far, starting
  from 0.

Python exceptions become explicit values: `Outcome<T> = Ok(value) | Raised(error)`. Four errors
are modelled:

| error | raised by |
|---|---|
| `NotIterable` | filtering a `None` text |
| `ZeroDivision` | a document with no matcher box |
| `IndexOutOfRange` | the iterator indexing past a candidate list |
| `FoundUnbound` | `found` read before assignment in `findTemplateOffset` |

The foreign collaborators are function-valued fields of `Templates.Scan` and `Templates.Metrics`:

- the barcode and OCR lookups;
- the OCR text lines;
- the centre of a range's rectangle;
- trigram similarity;
- Hamming distance.

Every operation is stated for all values of these collaborators.

Behaviour of the code worth noting:

- **Filters.** The alphabetic set holds lower-case letters only. So `alphabetic` turns
  `"AB12-34"` into `""` (`FilterExamples.AlphabeticExample`), since lines 101 and 105 keep
  only characters of that set.
  `Filters.UpperCaseDropped` proves this for every input.
- **Two candidate lists of lengths [2, 3].** The iterator returns (0,0), (1,0), (1,1) and
  (1,1) again. Its fifth call then raises IndexError (`RangeIterator.TwoByThreeTrace`):
  lines 327-346 advance one box at a time and only catch the others up, so the calls
  return four combinations, one of them twice, before the positions run past a list.
- **A document with no matcher box.** Scoring it divides by zero; the error is not guarded
  (`Scoring.ScoreRaisesIffNoMatcher`). A template with boxes but no non-empty matcher box
  makes `findMatchingTemplateByOffset` raise (`TemplateSearch.ByOffsetRaisesWithoutMatcher`).
- **A line exactly as long as the window.** The window loop stops one short, so such a line
  yields no range at all (`Ranges.ExactLengthLineYieldsNothing`, `Ranges.LastWindowOmitted`).
  - A one-box template `"INVOICE"` over a single 7-character line therefore has no candidate,
    and `findTemplateOffset` raises IndexError on it (`OffsetSearch.SingleMatcher`).
  - A single box with exactly one candidate leaves `found` unbound.
  - A single box succeeds only with two candidates or more. It then returns the template
    centre minus the best range's centre (lines 273-275 and 298-299).
- **The consistency test.** The comment at lines 282-284 asks to discard ranges whose relative
  positions differ by more than 5; the test at lines 286-291 rejects whenever
  `|d| + 5 > |diff|`, comparing against the anchor's own offset. So with two or more matcher
  boxes, an accepted anchor offset is at least 5 on both axes
  (`OffsetSearch.TemplateOffsetWideAnchor`). A template that already fits exactly is never
  accepted.
- **Errors inside `findTemplateOffset`.** These are the IndexError and the unbound `found`.
  They are not reported as "no offset": they abort `findMatchingTemplateByText`.
- **The `offset` parameter.** `findMatchingTemplateByOffset` never reads it. The grid is
  always -5..5.

`not offset` in `findMatchingTemplateByText` is read with PyQt's truth value for points: a
null point (0,0) is false, like `None`. So a template found at offset exactly (0,0) is
skipped.

Line 101 holds two Latin-1 letters (line 1 declares the file coded iso-8859-1), read here as
`ç` after `c` and `ñ` after `n`.

## Model

| member | source | states |
|---|---|---|
| Geometry.Translate | NaNScaN/recognizer.py:128-129 | the box rectangle moved by (xOffset, yOffset), size unchanged |
| Geometry.Centre | NaNScaN/recognizer.py:273-276 | the point half the width and half the height away from the top-left corner |
| Geometry.Sub | NaNScaN/recognizer.py:275-281 | the difference of two points, componentwise, so that adding back the subtrahend returns the minuend |
| Ranges.Slice | NaNScaN/recognizer.py:368 | Python slicing, clamped to the sequence; equal to the exact slice when in bounds |
| Ranges.Characters | NaNScaN/recognizer.py:369 | the string of the glyphs' characters, one per glyph, in order |
| Ranges.Text | NaNScaN/recognizer.py:366-369 | the characters a range covers, exactly its window when in bounds, never longer than its length |
| Ranges.AllRanges | NaNScaN/recognizer.py:383-403 | every produced range has a valid line and `pos + length` within that line |
| Ranges.ExtractAllRangesFromDocument | NaNScaN/recognizer.py:383-403 | the nested loops build exactly `AllRanges(lines, length)` |
| Ranges.RangeMembership | NaNScaN/recognizer.py:384-402 | a range is produced iff length > 0, its line exists, and it is either the whole short line or a window starting before `len - length` |
| Ranges.ShortLineWhole | NaNScaN/recognizer.py:388-395 | a line shorter than the window yields the range (line, 0, len), whose text is the whole line |
| Ranges.ExactLengthLineYieldsNothing | NaNScaN/recognizer.py:396 | a line of exactly the window's length yields no range |
| Ranges.LastWindowOmitted | NaNScaN/recognizer.py:396 | the window ending at the line's end is never produced |
| Ranges.RangeCount | NaNScaN/recognizer.py:383-403 | the number of ranges is 0 for length <= 0, else the sum over lines of 1 (short line) or len - length |
| Ranges.RangesOrdered | NaNScaN/recognizer.py:387-402 | ranges come out ordered by line, then by position |
| Filters.Filter | NaNScaN/recognizer.py:99-112 | `none` and unknown kinds return the value unchanged; a class filter raises exactly on a `None` value and otherwise returns a string |
| Filters.Keep | NaNScaN/recognizer.py:103-107 | the characters of the value that belong to the filter's set, in their original order (the list comprehensions joined back into a string) |
| Filters.KeepCounts | NaNScaN/recognizer.py:103-107 | each character occurs in the output as often as in the input if it is in the set, else not at all |
| Filters.KeepMembers | NaNScaN/recognizer.py:103-107 | every output character is in the set, and the output is no longer than the input |
| Filters.KeepConcat | NaNScaN/recognizer.py:103-107 | filtering distributes over concatenation, so order is kept |
| Filters.KeepIdempotent | NaNScaN/recognizer.py:103-107 | filtering twice equals filtering once |
| Filters.KeepAllMembers | NaNScaN/recognizer.py:103-107 | a string wholly in the set passes unchanged |
| Filters.KeepNoMembers | NaNScaN/recognizer.py:103-107 | a string with no character in the set becomes empty |
| Filters.FilterIdempotent | NaNScaN/recognizer.py:99-112 | applying the same filter to a filtered value changes nothing |
| Filters.UpperCaseDropped | NaNScaN/recognizer.py:101-107 | alphabetic and alphanumeric output contains no upper-case ASCII letter |
| FilterExamples.NumericExample | NaNScaN/recognizer.py:102-103 | numeric on "AB12-34" gives "1234" |
| FilterExamples.AlphabeticExample | NaNScaN/recognizer.py:104-105 | alphabetic on "AB12-34" gives "" |
| FilterExamples.UnknownKindExample | NaNScaN/recognizer.py:110-112 | an unknown kind returns "AB12-34" unchanged |
| Extraction.TextInRegion | NaNScaN/recognizer.py:50-56 | barcode and text recognizers ask their engine; any other kind gives None, and only then |
| Extraction.BoxText | NaNScaN/recognizer.py:128-132 | one box's text: the box rectangle translated by the offset, looked up with the box's recognizer, then filtered with the box's filter, with any error of the filter passed on |
| Extraction.FeatureRectInRegion | NaNScaN/recognizer.py:60-66 | the same dispatch for the feature rectangle |
| Extraction.ExtractWithTemplate | NaNScaN/recognizer.py:120-137 | the loop computes `Extract`: None for no template, else the boxes extracted in order or the first error |
| Extraction.ExtractedBoxes | NaNScaN/recognizer.py:124-136 | one document box per template box with non-empty text, in template order, pointing back to it, with the filtered text of its translated rectangle |
| Extraction.NonEmptyMembers | NaNScaN/recognizer.py:125-126 | a box is extracted iff it is in the template and its text is non-empty |
| Extraction.NonEmptyConcat | NaNScaN/recognizer.py:124-126 | the selection of boxes distributes over concatenation |
| Extraction.ExtractSucceedsIff | NaNScaN/recognizer.py:124-136 | extraction succeeds iff no non-empty box combines an unknown recognizer with a class filter |
| Extraction.BoxTextRaisesIff | NaNScaN/recognizer.py:131-132 | a box's text raises iff its recognizer is unknown and its filter iterates the value |
| Extraction.ExtractRaisedSticks | NaNScaN/recognizer.py:124-136 | once a box raises, the whole extraction raises that error |
| Scoring.ScoreDocument | NaNScaN/recognizer.py:167-176 | the loop computes the mean similarity of the matcher boxes, raising ZeroDivision when there is none |
| Scoring.MatcherCountZeroIff | NaNScaN/recognizer.py:170-173 | the matcher count is 0 iff no document box comes from a matcher box |
| Scoring.SimilaritySumBounds | NaNScaN/recognizer.py:173-175 | per-box similarity bounds lo..hi bound the sum by lo·n..hi·n |
| Scoring.MeanScoreBounds | NaNScaN/recognizer.py:176 | the mean score lies within the per-box similarity bounds |
| Scoring.ScoreRaisesIffNoMatcher | NaNScaN/recognizer.py:166-176 | scoring an extracted template raises iff the template has no matcher box with non-empty text |
| Candidates.RangeDistanceComparison | NaNScaN/recognizer.py:349-355 | 1, -1 or 0 exactly as the first distance is greater, smaller or equal |
| Candidates.ComparisonAntisymmetric | NaNScaN/recognizer.py:349-355 | swapping the arguments negates the comparison |
| Candidates.SortByDistance | NaNScaN/recognizer.py:261 | the sorted list is ascending by distance and a permutation of the input |
| Candidates.InsertSorted | NaNScaN/recognizer.py:261 | inserting into a sorted list keeps it sorted |
| Candidates.SortKeepsTies | NaNScaN/recognizer.py:261 | the sort is stable: ranges of equal distance keep their input order |
| Candidates.ScoreRanges | NaNScaN/recognizer.py:256-260 | each range paired with the distance between its text and the box text, one per range, in order |
| RangeIterator.MinEligible | NaNScaN/recognizer.py:324-331 | the box chosen to advance is one of those tested |
| RangeIterator.Eligible | NaNScaN/recognizer.py:327 | box x may advance iff x < len(list x) - 1, comparing the box index, not its position, with the list length |
| RangeIterator.FirstBehind | NaNScaN/recognizer.py:341-346 | the box chosen to catch up lies at or after the start index |
| RangeIterator.Step | NaNScaN/recognizer.py:313-347 | one call keeps the state's shape: one position and one catch-up index per list |
| RangeIterator.TemplateBoxRangeIterator.constructor | NaNScaN/recognizer.py:304-308 | all positions and catch-up indices 0, nothing added; the invariant holds |
| RangeIterator.TemplateBoxRangeIterator.Next | NaNScaN/recognizer.py:313-347 | the call returns, and updates the fields to, exactly what `Step` gives for the old fields, keeping the invariant |
| RangeIterator.TemplateBoxRangeIterator.FindAdded | NaNScaN/recognizer.py:324-331 | the search loop finds `MinEligible` |
| RangeIterator.TemplateBoxRangeIterator.CatchUp | NaNScaN/recognizer.py:341-346 | the loop raises exactly the first lagging index other than `added` |
| RangeIterator.MinEligibleNone | NaNScaN/recognizer.py:327-335 | no box is chosen iff no box x has x < len(list x) - 1 (the test uses the box index) |
| RangeIterator.MinEligibleIsLeast | NaNScaN/recognizer.py:326-331 | the chosen box is eligible, has the smallest position of all eligible boxes, and is the lowest such index |
| RangeIterator.FirstBehindIsFirst | NaNScaN/recognizer.py:341-346 | the caught-up box lags and is not `added`; every earlier box is `added` or does not lag |
| RangeIterator.FirstBehindFinds | NaNScaN/recognizer.py:341-346 | if some box other than `added` lags, one is found |
| RangeIterator.CatchUpExists | NaNScaN/recognizer.py:340-346 | under the invariant, when catch-up indices differ from positions, a lagging box other than `added` exists |
| RangeIterator.StepPreservesInv | NaNScaN/recognizer.py:337-346 | every call keeps `loopPos <= pos` and `loopPos[added] == pos[added]` |
| RangeIterator.AdvancingCall | NaNScaN/recognizer.py:322-339 | when caught up: stop if no box is eligible, else return pos, advance the chosen box by one, reset catch-up to zero except at that box |
| RangeIterator.CatchUpCall | NaNScaN/recognizer.py:340-346 | when not caught up: return pos, keep pos, raise the first lagging catch-up index by one |
| RangeIterator.StopIffNoneEligible | NaNScaN/recognizer.py:322-335 | a call stops iff it is in range, caught up, and no box is eligible |
| RangeIterator.FirstCall | NaNScaN/recognizer.py:304-316 | the first call raises IndexError when some candidate list is empty, else stops if no box is eligible, else returns all zeros |
| RangeIterator.ComboIsPosition | NaNScaN/recognizer.py:314-316 | the returned combination is the position before the call |
| RangeIterator.CatchUpRepeats | NaNScaN/recognizer.py:340-347 | a catch-up call followed by a call that returns gives the same combination twice |
| RangeIterator.TwoByThreeTrace | NaNScaN/recognizer.py:303-347 | lists of lengths [2, 3] give (0,0), (1,0), (1,1), (1,1), then IndexError |
| OffsetSearch.MatcherBoxes | NaNScaN/recognizer.py:251-267 | only matcher boxes are collected |
| OffsetSearch.CandidateLists | NaNScaN/recognizer.py:255-267 | one candidate list per matcher box, in order |
| OffsetSearch.MatcherBoxesMembers | NaNScaN/recognizer.py:252-254 | a box is collected iff it belongs to the template and its type is 'matcher' |
| OffsetSearch.MatcherBoxesConcat | NaNScaN/recognizer.py:252-267 | collecting matcher boxes distributes over concatenation, so the matchers keep template order and multiplicity and box 0 is the first matcher of the template |
| OffsetSearch.CandidateListIsSortedScores | NaNScaN/recognizer.py:256-261 | a box's candidate list is sorted by distance, is a permutation of all ranges of the box text's length, and each candidate's distance is the Hamming distance between its text and the box text |
| OffsetSearch.CollectCandidates | NaNScaN/recognizer.py:251-267 | the first loop builds the matcher list and the sorted, scored candidate list of each |
| OffsetSearch.CheckCombination | NaNScaN/recognizer.py:279-291 | the inner loop reports true iff no box after the first is rejected against box 0's offset |
| OffsetSearch.Rejects | NaNScaN/recognizer.py:286-291 | a box offset d is rejected against the anchor offset diff iff abs(d.x) + 5 > abs(diff.x) or abs(d.y) + 5 > abs(diff.y) |
| OffsetSearch.Consistent | NaNScaN/recognizer.py:278-292 | a combination is accepted iff no box after box 0 is rejected against box 0's offset |
| OffsetSearch.Accept | NaNScaN/recognizer.py:271-300 | the result of the combination loop over the iterator's outputs: box 0's offset at the first consistent combination; None once 11 combinations are rejected or the iterator stops after at least one; an unbound `found` if it stops at once; IndexError if it raises |
| OffsetSearch.SearchCombinations | NaNScaN/recognizer.py:270-300 | the second loop returns the search over the at most 11 outputs of a fresh iterator |
| OffsetSearch.FindTemplateOffset | NaNScaN/recognizer.py:241-300 | the method computes `TemplateOffset`: (0,0) for a template without boxes, else the search result or its error |
| OffsetSearch.AcceptedIsFirstConsistent | NaNScaN/recognizer.py:271-300 | an accepted offset is box 0's offset in the first consistent combination; every earlier output was a rejected combination |
| OffsetSearch.FirstConsistentAccepted | NaNScaN/recognizer.py:271-300 | conversely, the first consistent combination after only rejected ones is accepted |
| OffsetSearch.AllRejectedGivesNone | NaNScaN/recognizer.py:292-300 | when every combination within the budget is rejected, the result is None |
| OffsetSearch.ConsistentNeedsWideAnchor | NaNScaN/recognizer.py:286-291 | with two or more boxes, a consistent combination's anchor offset is at least 5 on both axes |
| OffsetSearch.TemplateOffsetWideAnchor | NaNScaN/recognizer.py:241-300 | with two or more matcher boxes, any offset found is at least 5 on both axes |
| OffsetSearch.NoMatcherUnbound | NaNScaN/recognizer.py:270-297 | a template with boxes but no matcher box raises, as `found` is unbound |
| OffsetSearch.SingleMatcher | NaNScaN/recognizer.py:241-300 | with one matcher box: IndexError with no candidate, unbound `found` with one, else the template centre minus the best range's centre |
| OffsetSearch.TraceCombosFit | NaNScaN/recognizer.py:313-316 | every combination the iterator returns indexes into every candidate list |
| TemplateSearch.SelectBounds | NaNScaN/recognizer.py:152-184 | the kept maximum is at least 0 and every score; nothing is kept iff no score is above 0, and then the initial dictionary is returned |
| TemplateSearch.Consider | NaNScaN/recognizer.py:177-184 | an entry replaces the kept maximum and best result only if its score is strictly greater |
| TemplateSearch.Select | NaNScaN/recognizer.py:152-184 | the fold of strict improvement over the entries in order, starting from maximum 0 and the empty best result |
| TemplateSearch.SelectWinner | NaNScaN/recognizer.py:177-184 | the kept entry scores above 0, no entry scores more, and every earlier entry scores strictly less |
| TemplateSearch.RowsMembership | NaNScaN/recognizer.py:163-164 | the first n rows of the x-outer, y-inner loops hold exactly the offsets with -5 <= x < n - 5 and -5 <= y <= 5 |
| TemplateSearch.ProbesMembership | NaNScaN/recognizer.py:159-164 | the probes are exactly every template with boxes at every integer offset in -5..5 on both axes |
| TemplateSearch.TryProbe | NaNScaN/recognizer.py:166-184 | one probe extracts, scores and keeps the entry only if it beats the maximum, or reports the error |
| TemplateSearch.SearchRow | NaNScaN/recognizer.py:164-184 | the inner loop gives the error of the first probe that raises, or else the selection (first strictly best score) over the probes so far plus the 11 y-offsets at one x |
| TemplateSearch.SearchGrid | NaNScaN/recognizer.py:163-184 | the outer loop gives the error of the first probe that raises, or else the selection over the probes so far plus all 121 offsets of one template |
| TemplateSearch.FindMatchingTemplateByOffset | NaNScaN/recognizer.py:151-186 | the method computes `ByOffset`: the selection over all probes, or the first error |
| TemplateSearch.EvaluateAllEntries | NaNScaN/recognizer.py:159-184 | a successful search has scored every probe, one entry per probe, in order |
| TemplateSearch.EvaluateAllRaisedSticks | NaNScaN/recognizer.py:159-184 | once a probe raises, the whole search raises that error |
| TemplateSearch.ByOffsetWinner | NaNScaN/recognizer.py:151-186 | the chosen template and offset are a probe scoring above 0; no probe scores more and every earlier probe scores less |
| TemplateSearch.ByOffsetNothing | NaNScaN/recognizer.py:152-186 | no template is chosen iff no probe scores above 0; then the initial dictionary is returned |
| TemplateSearch.ByOffsetRaisesWithoutMatcher | NaNScaN/recognizer.py:159-176 | a template with boxes but no non-empty matcher box makes the search raise |
| TemplateSearch.TryTemplate | NaNScaN/recognizer.py:210-236 | one template: skipped without boxes or with a false offset, else extracted at its offset, scored and kept only if it beats the maximum |
| TemplateSearch.Falsy | NaNScaN/recognizer.py:214-215 | `not offset` holds for None and for the null point (0,0), as PyQt's truth value of a QPointF |
| TemplateSearch.TextEntry | NaNScaN/recognizer.py:210-236 | one template of the text search: nothing without boxes or with a falsy offset, else the template extracted at its own offset and scored, or the first error |
| TemplateSearch.FindMatchingTemplateByText | NaNScaN/recognizer.py:201-237 | the method computes `ByText`: the selection over the templates' entries, or the first error |
| TemplateSearch.TextEntriesRaisedSticks | NaNScaN/recognizer.py:209-236 | once a template raises, the whole search raises that error |
| TemplateSearch.TextEntriesSound | NaNScaN/recognizer.py:209-236 | every entry scored comes from a template of the list and is that template's own entry |
| TemplateSearch.TextEntriesComplete | NaNScaN/recognizer.py:209-236 | every template that yields an entry has it among those scored |
| TemplateSearch.TextEntryOffset | NaNScaN/recognizer.py:210-228 | an entry is extracted at exactly the template's own offset, which is not (0,0) |
| TemplateSearch.ByTextWinner | NaNScaN/recognizer.py:202-237 | the text search returns the entry of some template k, found at its own non-origin offset, scoring above 0 and at least as high as every template's entry; every template before k scores strictly less, so the earliest best template wins |
| TemplateSearch.ByTextNothing | NaNScaN/recognizer.py:202-237 | the text search finds no template iff no template's entry scores above 0, and then returns the null result |
| TemplateSearch.TextEntriesIndexed | NaNScaN/recognizer.py:209-236 | the scored entries keep template order: each comes from one template, their template indices rise, and every template yielding an entry is among them |

## Left out

- `Analyze`, `startRecognition` and `recognitionFinished` are left out: they are threads and Qt
  signals. The model is sequential.
- `recognize` and the barcode/OCR scanning are left out: they are image I/O and foreign engines.
  Their lookups are the function fields of `Templates.Scan`.
- `Trigram.trigram`, `Hamming.hamming` and `Translator` are not part of this model. They are
  the function fields of `Templates.Metrics` and carry no contract beyond their types.
- `Range.rect` is not modelled. It unites Qt rectangles, which is floating-point Qt geometry.
  `Templates.Scan.rangeCentre` stands for the centre of that union.
- The `print` diagnostics are left out. So are the accessors `boxes` and `analyzersAvailable`,
  which contain no logic.
- The scratch fields `TemplateBox.ranges` and `Range.distance` are modelled as search-local
  values. The search returns the candidate lists instead of writing them onto shared template
  objects, so aliasing between concurrent searches is not captured.
- Coordinates and scores are Dafny `real`s, not IEEE doubles. NaN, infinities, rounding and
  signed zero are not modelled.
- The Python 2 text types are not distinguished. `str` and `unicode`, and the `u''.join`
  coercion, are all `string`.
- Filters.Filter: keeps characters by code point and never raises on a present value. In
  Python 2 the alphabet at line 101 is a byte string holding two Latin-1 bytes. With a
  `unicode` value, `x in alphabetic` would decode that string as ASCII and raise
  UnicodeDecodeError for `alphabetic` and `alphanumeric` on any non-empty text. With UTF-8
  byte strings, ç and ñ would never be kept. The model assumes the engines' text and the
  alphabet share one Latin-1 character set, so it has neither this error path nor the
  byte-level mismatch.
- Checking the two template searches against each other is not modelled. The source gives no
  relation between their scores that holds for arbitrary collaborators. It would need trigram
  and OCR behaviour that is not part of this model.
