/** Recognizer.findMatchingTemplateByOffset and findMatchingTemplateByText. */
module TemplateSearch {
  import opened Outcomes
  import opened Geometry
  import opened Templates
  import opened Extraction
  import opened Scoring
  import opened OffsetSearch

  /** The `best` dictionary both searches return. */
  datatype Best = Best(template: Option<Template>, document: Document, xOffset: real, yOffset: real)

  /** The dictionary before any template has scored above 0. */
  function NoBest(): Best
  {
    Best(None, Document([]), 0.0, 0.0)
  }

  /** One scored extraction: a template applied at an offset. */
  datatype Entry = Entry(template: Template, document: Document, xOffset: real, yOffset: real, score: real)

  function Pick(e: Entry): Best
  {
    Best(Some(e.template), e.document, e.xOffset, e.yOffset)
  }

  /** The pair `max`, `best` both loops keep. */
  datatype Choice = Choice(max: real, best: Best)

  /** Only a score strictly above the current maximum replaces the best. */
  function Consider(c: Choice, e: Entry): Choice
  {
    if e.score > c.max then Choice(e.score, Pick(e)) else c
  }

  function Select(es: seq<Entry>): Choice
  {
    if |es| == 0 then Choice(0.0, NoBest())
    else Consider(Select(es[..|es| - 1]), es[|es| - 1])
  }

  /** Extract a template at an offset and score the document. */
  function Evaluate(scan: Scan, met: Metrics, t: Template, x: real, y: real): Outcome<Entry>
  {
    match ExtractBoxes(scan, t.boxes, x, y)
    case Raised(e) => Raised(e)
    case Ok(ds) =>
      match MeanScore(met, Document(ds))
      case Raised(e) => Raised(e)
      case Ok(score) => Ok(Entry(t, Document(ds), x, y, score))
  }

  // ---------------------------------------------------------------------------
  // Selection

  lemma {:induction false} SelectBounds(es: seq<Entry>)
    ensures Select(es).max >= 0.0
    ensures forall i :: 0 <= i < |es| ==> es[i].score <= Select(es).max
    ensures Select(es).best.template.None? ==> Select(es) == Choice(0.0, NoBest())
    ensures Select(es).best.template.None? <==> forall i :: 0 <= i < |es| ==> es[i].score <= 0.0
  {
    if |es| > 0 {
      var prefix := es[..|es| - 1];
      SelectBounds(prefix);
      forall i | 0 <= i < |es| - 1
        ensures es[i] == prefix[i]
      {
      }
    }
  }

  /** The chosen entry scores above 0, no entry scores more, and every earlier entry scores less. */
  lemma {:induction false} SelectWinner(es: seq<Entry>) returns (j: nat)
    requires Select(es).best.template.Some?
    ensures j < |es| && Select(es) == Choice(es[j].score, Pick(es[j]))
    ensures es[j].score > 0.0
    ensures forall i :: 0 <= i < |es| ==> es[i].score <= es[j].score
    ensures forall i :: 0 <= i < j ==> es[i].score < es[j].score
  {
    var prefix := es[..|es| - 1];
    var last := es[|es| - 1];
    SelectBounds(prefix);
    SelectBounds(es);
    assert forall i :: 0 <= i < |es| - 1 ==> es[i] == prefix[i];
    if last.score > Select(prefix).max {
      j := |es| - 1;
    } else {
      j := SelectWinner(prefix);
    }
  }

  // ---------------------------------------------------------------------------
  // findMatchingTemplateByOffset

  /** A template at an integer offset in millimetres. */
  datatype Probe = Probe(template: Template, x: int, y: int)

  /** The inner loop's probes: y from -5 to 5 at one x. */
  function Row(t: Template, x: int): (r: seq<Probe>)
    ensures |r| == 11
  {
    seq(11, j requires 0 <= j < 11 => Probe(t, x, j - 5))
  }

  /** The first n rows of the outer loop: x from -5 to n - 6. */
  function Rows(t: Template, n: nat): seq<Probe>
  {
    if n == 0 then [] else Rows(t, n - 1) + Row(t, n as int - 6)
  }

  /** The offsets tried for one template: x outer and y inner, each over -5..5. */
  function Grid(t: Template): seq<Probe>
  {
    Rows(t, 11)
  }

  /** The probes of the exhaustive search, in loop order; templates without boxes are skipped. */
  function Probes(ts: seq<Template>): seq<Probe>
  {
    if |ts| == 0 then []
    else
      var last := ts[|ts| - 1];
      Probes(ts[..|ts| - 1]) + (if |last.boxes| == 0 then [] else Grid(last))
  }

  function EvaluateProbe(scan: Scan, met: Metrics, p: Probe): Outcome<Entry>
  {
    Evaluate(scan, met, p.template, p.x as real, p.y as real)
  }

  function EvaluateAll(scan: Scan, met: Metrics, ps: seq<Probe>): Outcome<seq<Entry>>
  {
    if |ps| == 0 then Ok([])
    else
      match EvaluateAll(scan, met, ps[..|ps| - 1])
      case Raised(e) => Raised(e)
      case Ok(es) =>
        match EvaluateProbe(scan, met, ps[|ps| - 1])
        case Raised(e) => Raised(e)
        case Ok(entry) => Ok(es + [entry])
  }

  function ByOffset(scan: Scan, met: Metrics, templates: seq<Template>): Outcome<Best>
  {
    match EvaluateAll(scan, met, Probes(templates))
    case Raised(e) => Raised(e)
    case Ok(es) => Ok(Select(es).best)
  }

  /** The first n rows hold exactly the offsets with x below n - 5. */
  lemma {:induction false} RowsMembership(t: Template, n: nat, p: Probe)
    ensures p in Rows(t, n) <==> p.template == t && -5 <= p.x < n - 5 && -5 <= p.y <= 5
  {
    if n > 0 {
      RowsMembership(t, n - 1, p);
      if p.template == t && p.x == n - 6 && -5 <= p.y <= 5 {
        assert Row(t, n - 6)[p.y + 5] == p;
      }
    }
  }

  lemma {:induction false} RowsPrefix(t: Template, m: nat, n: nat)
    requires m <= n
    ensures Rows(t, m) <= Rows(t, n)
    decreases n
  {
    if m < n {
      RowsPrefix(t, m, n - 1);
    }
  }

  lemma {:induction false} ProbesPrefix(ts: seq<Template>, m: nat)
    requires m <= |ts|
    ensures Probes(ts[..m]) <= Probes(ts)
  {
    if m < |ts| {
      var init := ts[..|ts| - 1];
      assert init[..m] == ts[..m];
      ProbesPrefix(init, m);
    } else {
      assert ts[..m] == ts;
    }
  }

  lemma {:induction false} EvaluateAllRaisedSticks(scan: Scan, met: Metrics, ps: seq<Probe>, qs: seq<Probe>)
    requires EvaluateAll(scan, met, ps).Raised? && ps <= qs
    ensures EvaluateAll(scan, met, qs) == EvaluateAll(scan, met, ps)
    decreases |qs|
  {
    if |qs| > |ps| {
      var init := qs[..|qs| - 1];
      assert ps <= init;
      EvaluateAllRaisedSticks(scan, met, ps, init);
    } else {
      assert qs == ps;
    }
  }

  /** One iteration of the inner loop: extract, score, and keep the entry if it beats `max`. */
  method TryProbe(scan: Scan, met: Metrics, template: Template, x: int, y: int, c: Choice)
    returns (r: Outcome<Choice>)
    ensures match EvaluateProbe(scan, met, Probe(template, x, y))
            case Raised(e) => r == Raised(e)
            case Ok(entry) => r == Ok(Consider(c, entry))
  {
    var current := ExtractWithTemplate(scan, Some(template), x as real, y as real);
    if current.Raised? {
      return Raised(current.error);
    }
    var currentDocument := current.value.value;
    var score := ScoreDocument(met, currentDocument);
    if score.Raised? {
      return Raised(score.error);
    }
    if score.value > c.max {
      return Ok(Choice(score.value, Best(Some(template), currentDocument, x as real, y as real)));
    }
    return Ok(c);
  }

  lemma EvaluateAllSnoc(scan: Scan, met: Metrics, ps: seq<Probe>, p: Probe)
    ensures EvaluateAll(scan, met, ps + [p]) ==
      match EvaluateAll(scan, met, ps)
      case Raised(e) => Raised(e)
      case Ok(es) =>
        match EvaluateProbe(scan, met, p)
        case Raised(e) => Raised(e)
        case Ok(entry) => Ok(es + [entry])
  {
    assert (ps + [p])[..|ps|] == ps;
  }

  /** The probes ps were all evaluated without error, and selecting over them gives c. */
  ghost predicate Selected(scan: Scan, met: Metrics, ps: seq<Probe>, c: Choice)
  {
    EvaluateAll(scan, met, ps).Ok? && Select(EvaluateAll(scan, met, ps).value) == c
  }

  /** What one probe of the inner loop does to the evaluated prefix and the selection. */
  lemma RowStep(scan: Scan, met: Metrics, before: seq<Probe>, t: Template, x: int, y: int,
                c: Choice, step: Outcome<Choice>)
    requires -5 <= y <= 5
    requires Selected(scan, met, before + Row(t, x)[..y + 5], c)
    requires match EvaluateProbe(scan, met, Probe(t, x, y))
             case Raised(e) => step == Raised(e)
             case Ok(entry) => step == Ok(Consider(c, entry))
    ensures step.Raised? ==> EvaluateAll(scan, met, before + Row(t, x)) == Raised(step.error)
    ensures step.Ok? ==> Selected(scan, met, before + Row(t, x)[..y + 6], step.value)
  {
    var done := before + Row(t, x)[..y + 5];
    assert before + Row(t, x)[..y + 6] == done + [Probe(t, x, y)];
    EvaluateAllSnoc(scan, met, done, Probe(t, x, y));
    if step.Raised? {
      assert before + Row(t, x)[..y + 6] <= before + Row(t, x);
      EvaluateAllRaisedSticks(scan, met, before + Row(t, x)[..y + 6], before + Row(t, x));
    } else {
      var es := EvaluateAll(scan, met, done).value;
      var es' := es + [EvaluateProbe(scan, met, Probe(t, x, y)).value];
      assert es'[..|es'| - 1] == es;
    }
  }

  /** The inner loop: y from -5 to 5 at one x. */
  method SearchRow(scan: Scan, met: Metrics, template: Template, xOffset: int, ghost before: seq<Probe>, c: Choice)
    returns (r: Outcome<Choice>)
    requires Selected(scan, met, before, c)
    ensures match EvaluateAll(scan, met, before + Row(template, xOffset))
            case Raised(e) => r == Raised(e)
            case Ok(all) => r == Ok(Select(all))
  {
    var choice := c;
    var yOffset := -5;
    assert before + Row(template, xOffset)[..0] == before;
    while yOffset < 6
      invariant -5 <= yOffset <= 6
      invariant Selected(scan, met, before + Row(template, xOffset)[..yOffset + 5], choice)
    {
      var step := TryProbe(scan, met, template, xOffset, yOffset, choice);
      RowStep(scan, met, before, template, xOffset, yOffset, choice, step);
      if step.Raised? {
        return Raised(step.error);
      }
      choice := step.value;
      yOffset := yOffset + 1;
    }
    assert Row(template, xOffset)[..11] == Row(template, xOffset);
    r := Ok(choice);
  }

  /** What one row of the outer loop does to the evaluated prefix and the selection. */
  lemma GridStep(scan: Scan, met: Metrics, done: seq<Probe>, t: Template, x: int, step: Outcome<Choice>)
    requires -5 <= x <= 5
    requires match EvaluateAll(scan, met, (done + Rows(t, x + 5)) + Row(t, x))
             case Raised(e) => step == Raised(e)
             case Ok(all) => step == Ok(Select(all))
    ensures step.Raised? ==> EvaluateAll(scan, met, done + Grid(t)) == Raised(step.error)
    ensures step.Ok? ==> Selected(scan, met, done + Rows(t, x + 6), step.value)
  {
    assert done + Rows(t, x + 6) == (done + Rows(t, x + 5)) + Row(t, x);
    if step.Raised? {
      RowsPrefix(t, x + 6, 11);
      assert done + Rows(t, x + 6) <= done + Grid(t);
      EvaluateAllRaisedSticks(scan, met, done + Rows(t, x + 6), done + Grid(t));
    }
  }

  /** The outer loop: x from -5 to 5. */
  method SearchGrid(scan: Scan, met: Metrics, template: Template, ghost done: seq<Probe>, c: Choice)
    returns (r: Outcome<Choice>)
    requires Selected(scan, met, done, c)
    ensures match EvaluateAll(scan, met, done + Grid(template))
            case Raised(e) => r == Raised(e)
            case Ok(all) => r == Ok(Select(all))
  {
    var choice := c;
    var xOffset := -5;
    assert done + Rows(template, 0) == done;
    while xOffset < 6
      invariant -5 <= xOffset <= 6
      invariant Selected(scan, met, done + Rows(template, xOffset + 5), choice)
    {
      var step := SearchRow(scan, met, template, xOffset, done + Rows(template, xOffset + 5), choice);
      GridStep(scan, met, done, template, xOffset, step);
      if step.Raised? {
        return Raised(step.error);
      }
      choice := step.value;
      xOffset := xOffset + 1;
    }
    r := Ok(choice);
  }

  /** The exhaustive search; the `offset` argument is accepted and not used. */
  method FindMatchingTemplateByOffset(scan: Scan, met: Metrics, templates: seq<Template>, offset: int)
    returns (r: Outcome<Best>)
    ensures r == ByOffset(scan, met, templates)
  {
    var choice := Choice(0.0, NoBest());
    var i := 0;
    while i < |templates|
      invariant 0 <= i <= |templates|
      invariant Selected(scan, met, Probes(templates[..i]), choice)
    {
      var template := templates[i];
      assert templates[..i + 1][..i] == templates[..i];
      if |template.boxes| != 0 {
        var step := SearchGrid(scan, met, template, Probes(templates[..i]), choice);
        if step.Raised? {
          ProbesPrefix(templates, i + 1);
          EvaluateAllRaisedSticks(scan, met, Probes(templates[..i + 1]), Probes(templates));
          return Raised(step.error);
        }
        choice := step.value;
      } else {
        assert Probes(templates[..i + 1]) == Probes(templates[..i]);
      }
      i := i + 1;
    }
    assert templates[..i] == templates;
    return Ok(choice.best);
  }

  lemma {:induction false} EvaluateAllEntries(scan: Scan, met: Metrics, ps: seq<Probe>)
    requires EvaluateAll(scan, met, ps).Ok?
    ensures var es := EvaluateAll(scan, met, ps).value;
      |es| == |ps| &&
      forall k :: 0 <= k < |ps| ==>
        EvaluateProbe(scan, met, ps[k]) == Ok(es[k])
  {
    if |ps| > 0 {
      var init := ps[..|ps| - 1];
      EvaluateAllEntries(scan, met, init);
      forall k | 0 <= k < |init|
        ensures ps[k] == init[k]
      {
      }
    }
  }

  lemma {:induction false} EvaluateAllFails(scan: Scan, met: Metrics, ps: seq<Probe>, k: nat)
    requires k < |ps|
    requires EvaluateProbe(scan, met, ps[k]).Raised?
    ensures EvaluateAll(scan, met, ps).Raised?
  {
    if EvaluateAll(scan, met, ps).Ok? {
      EvaluateAllEntries(scan, met, ps);
    }
  }

  /** The probes are exactly the 121 offsets of every template that has boxes. */
  lemma {:induction false} ProbesMembership(ts: seq<Template>, p: Probe)
    ensures p in Probes(ts) <==>
      p.template in ts && |p.template.boxes| > 0 && -5 <= p.x <= 5 && -5 <= p.y <= 5
  {
    if |ts| > 0 {
      var init := ts[..|ts| - 1];
      var last := ts[|ts| - 1];
      ProbesMembership(init, p);
      assert ts == init + [last];
      RowsMembership(last, 11, p);
    }
  }

  /**
   * The exhaustive search returns the first probe with the highest score, provided
   * that score is above 0; no probe of any template with boxes scores more.
   */
  lemma ByOffsetWinner(scan: Scan, met: Metrics, templates: seq<Template>) returns (k: nat)
    requires ByOffset(scan, met, templates).Ok? && ByOffset(scan, met, templates).value.template.Some?
    ensures var ps := Probes(templates);
      k < |ps| &&
      var p := ps[k];
      var winner := EvaluateProbe(scan, met, p);
      p.template in templates && |p.template.boxes| > 0 && -5 <= p.x <= 5 && -5 <= p.y <= 5 &&
      winner.Ok? && winner.value.score > 0.0 &&
      ByOffset(scan, met, templates).value == Best(Some(p.template), winner.value.document, p.x as real, p.y as real) &&
      (forall t: Template, x: int, y: int ::
         t in templates && |t.boxes| > 0 && -5 <= x <= 5 && -5 <= y <= 5 ==>
           EvaluateProbe(scan, met, Probe(t, x, y)).Ok? &&
           EvaluateProbe(scan, met, Probe(t, x, y)).value.score <= winner.value.score) &&
      (forall i :: 0 <= i < k ==>
         EvaluateProbe(scan, met, ps[i]).Ok? && EvaluateProbe(scan, met, ps[i]).value.score < winner.value.score)
  {
    var ps := Probes(templates);
    var es := EvaluateAll(scan, met, ps).value;
    EvaluateAllEntries(scan, met, ps);
    k := SelectWinner(es);
    ProbesMembership(templates, ps[k]);
    forall t: Template, x: int, y: int | t in templates && |t.boxes| > 0 && -5 <= x <= 5 && -5 <= y <= 5
      ensures EvaluateProbe(scan, met, Probe(t, x, y)).Ok? &&
              EvaluateProbe(scan, met, Probe(t, x, y)).value.score <= es[k].score
    {
      ProbesMembership(templates, Probe(t, x, y));
      var i :| 0 <= i < |ps| && ps[i] == Probe(t, x, y);
    }
  }

  /** When no probe scores above 0 the search returns the initial dictionary, and only then. */
  lemma ByOffsetNothing(scan: Scan, met: Metrics, templates: seq<Template>)
    requires ByOffset(scan, met, templates).Ok?
    ensures ByOffset(scan, met, templates).value.template.None? <==>
      forall t: Template, x: int, y: int ::
        t in templates && |t.boxes| > 0 && -5 <= x <= 5 && -5 <= y <= 5 ==>
          EvaluateProbe(scan, met, Probe(t, x, y)).Ok? &&
          EvaluateProbe(scan, met, Probe(t, x, y)).value.score <= 0.0
    ensures ByOffset(scan, met, templates).value.template.None? ==> ByOffset(scan, met, templates).value == NoBest()
  {
    var ps := Probes(templates);
    var es := EvaluateAll(scan, met, ps).value;
    EvaluateAllEntries(scan, met, ps);
    SelectBounds(es);
    if Select(es).best.template.Some? {
      var k := SelectWinner(es);
      ProbesMembership(templates, ps[k]);
    } else {
      forall t: Template, x: int, y: int | t in templates && |t.boxes| > 0 && -5 <= x <= 5 && -5 <= y <= 5
        ensures EvaluateProbe(scan, met, Probe(t, x, y)).Ok? &&
                EvaluateProbe(scan, met, Probe(t, x, y)).value.score <= 0.0
      {
        ProbesMembership(templates, Probe(t, x, y));
        var i :| 0 <= i < |ps| && ps[i] == Probe(t, x, y);
      }
    }
  }

  /** A template with boxes but no non-empty matcher box makes the exhaustive search raise. */
  lemma ByOffsetRaisesWithoutMatcher(scan: Scan, met: Metrics, templates: seq<Template>, t: Template)
    requires t in templates && |t.boxes| > 0
    requires forall b :: b in t.boxes ==> !(IsMatcher(b) && b.text != "")
    ensures ByOffset(scan, met, templates).Raised?
  {
    var ps := Probes(templates);
    ProbesMembership(templates, Probe(t, -5, -5));
    var k :| 0 <= k < |ps| && ps[k] == Probe(t, -5, -5);
    if ExtractBoxes(scan, t.boxes, -5.0, -5.0).Ok? {
      ScoreRaisesIffNoMatcher(scan, met, t, -5.0, -5.0);
    }
    EvaluateAllFails(scan, met, ps, k);
  }

  // ---------------------------------------------------------------------------
  // findMatchingTemplateByText

  /** Python truth of the offset: None, and a null point, are false. */
  predicate Falsy(offset: Option<Point>)
  {
    offset.None? || offset.value == Point(0.0, 0.0)
  }

  /** One iteration of the template loop: the entry it scores, if any. */
  function TextEntry(scan: Scan, met: Metrics, t: Template): Outcome<Option<Entry>>
  {
    if |t.boxes| == 0 then Ok(None)
    else
      match TemplateOffset(scan, met, t)
      case Raised(e) => Raised(e)
      case Ok(offset) =>
        if Falsy(offset) then Ok(None)
        else
          match Evaluate(scan, met, t, offset.value.x, offset.value.y)
          case Raised(e) => Raised(e)
          case Ok(entry) => Ok(Some(entry))
  }

  function TextEntries(scan: Scan, met: Metrics, ts: seq<Template>): Outcome<seq<Entry>>
  {
    if |ts| == 0 then Ok([])
    else
      match TextEntries(scan, met, ts[..|ts| - 1])
      case Raised(e) => Raised(e)
      case Ok(es) =>
        match TextEntry(scan, met, ts[|ts| - 1])
        case Raised(e) => Raised(e)
        case Ok(None) => Ok(es)
        case Ok(Some(entry)) => Ok(es + [entry])
  }

  function ByText(scan: Scan, met: Metrics, templates: seq<Template>): Outcome<Best>
  {
    match TextEntries(scan, met, templates)
    case Raised(e) => Raised(e)
    case Ok(es) => Ok(Select(es).best)
  }

  method TryTemplate(scan: Scan, met: Metrics, template: Template, c: Choice) returns (r: Outcome<Choice>)
    ensures match TextEntry(scan, met, template)
            case Raised(e) => r == Raised(e)
            case Ok(None) => r == Ok(c)
            case Ok(Some(entry)) => r == Ok(Consider(c, entry))
  {
    if |template.boxes| == 0 {
      return Ok(c);
    }
    var offset := FindTemplateOffset(scan, met, template);
    if offset.Raised? {
      return Raised(offset.error);
    }
    if offset.value.None? || offset.value.value == Point(0.0, 0.0) {
      return Ok(c);
    }
    var at := offset.value.value;
    var current := ExtractWithTemplate(scan, Some(template), at.x, at.y);
    if current.Raised? {
      return Raised(current.error);
    }
    var currentDocument := current.value.value;
    var score := ScoreDocument(met, currentDocument);
    if score.Raised? {
      return Raised(score.error);
    }
    if score.value > c.max {
      return Ok(Choice(score.value, Best(Some(template), currentDocument, at.x, at.y)));
    }
    return Ok(c);
  }

  lemma {:induction false} TextEntriesRaisedSticks(scan: Scan, met: Metrics, ts: seq<Template>, m: nat)
    requires m <= |ts| && TextEntries(scan, met, ts[..m]).Raised?
    ensures TextEntries(scan, met, ts) == TextEntries(scan, met, ts[..m])
  {
    if m < |ts| {
      var init := ts[..|ts| - 1];
      assert init[..m] == ts[..m];
      TextEntriesRaisedSticks(scan, met, init, m);
    } else {
      assert ts[..m] == ts;
    }
  }

  /** What one template of the loop does to the entries and the selection. */
  lemma TextStep(scan: Scan, met: Metrics, ts: seq<Template>, i: nat, es: seq<Entry>, c: Choice,
                 step: Outcome<Choice>) returns (es': seq<Entry>)
    requires i < |ts| && TextEntries(scan, met, ts[..i]) == Ok(es) && Select(es) == c
    requires match TextEntry(scan, met, ts[i])
             case Raised(e) => step == Raised(e)
             case Ok(None) => step == Ok(c)
             case Ok(Some(entry)) => step == Ok(Consider(c, entry))
    ensures step.Raised? ==> TextEntries(scan, met, ts) == Raised(step.error)
    ensures step.Ok? ==> TextEntries(scan, met, ts[..i + 1]) == Ok(es') && Select(es') == step.value
  {
    assert ts[..i + 1][..i] == ts[..i];
    es' := es;
    if step.Raised? {
      TextEntriesRaisedSticks(scan, met, ts, i + 1);
    } else if TextEntry(scan, met, ts[i]).value.Some? {
      es' := es + [TextEntry(scan, met, ts[i]).value.value];
      assert es'[..|es'| - 1] == es;
    }
  }

  method FindMatchingTemplateByText(scan: Scan, met: Metrics, templates: seq<Template>) returns (r: Outcome<Best>)
    ensures r == ByText(scan, met, templates)
  {
    var choice := Choice(0.0, NoBest());
    ghost var es: seq<Entry> := [];
    var i := 0;
    while i < |templates|
      invariant 0 <= i <= |templates|
      invariant TextEntries(scan, met, templates[..i]) == Ok(es)
      invariant Select(es) == choice
    {
      var step := TryTemplate(scan, met, templates[i], choice);
      es := TextStep(scan, met, templates, i, es, choice, step);
      if step.Raised? {
        return Raised(step.error);
      }
      choice := step.value;
      i := i + 1;
    }
    assert templates[..i] == templates;
    return Ok(choice.best);
  }

  /** Every entry of the text search is the entry of one of the templates. */
  lemma {:induction false} TextEntriesSound(scan: Scan, met: Metrics, ts: seq<Template>)
    requires TextEntries(scan, met, ts).Ok?
    ensures var es := TextEntries(scan, met, ts).value;
      forall k :: 0 <= k < |es| ==> es[k].template in ts && TextEntry(scan, met, es[k].template) == Ok(Some(es[k]))
  {
    if |ts| > 0 {
      var init := ts[..|ts| - 1];
      var es := TextEntries(scan, met, ts).value;
      var prior := TextEntries(scan, met, init).value;
      TextEntriesSound(scan, met, init);
      forall k | 0 <= k < |es|
        ensures es[k].template in ts && TextEntry(scan, met, es[k].template) == Ok(Some(es[k]))
      {
        if k < |prior| {
          assert es[k] == prior[k];
          assert prior[k].template in init;
        }
      }
    }
  }

  /** Every template that yields an entry, and the search did not raise, has that entry in the list. */
  lemma {:induction false} TextEntriesComplete(scan: Scan, met: Metrics, ts: seq<Template>)
    requires TextEntries(scan, met, ts).Ok?
    ensures var es := TextEntries(scan, met, ts).value;
      forall t :: t in ts ==>
        TextEntry(scan, met, t).Ok? &&
        (TextEntry(scan, met, t).value.Some? ==> TextEntry(scan, met, t).value.value in es)
  {
    if |ts| > 0 {
      var init := ts[..|ts| - 1];
      var es := TextEntries(scan, met, ts).value;
      var prior := TextEntries(scan, met, init).value;
      TextEntriesComplete(scan, met, init);
      assert prior <= es;
      forall t | t in ts
        ensures TextEntry(scan, met, t).Ok? &&
          (TextEntry(scan, met, t).value.Some? ==> TextEntry(scan, met, t).value.value in es)
      {
        if t != ts[|ts| - 1] {
          assert t in init;
        }
      }
    }
  }

  /** An entry of the text search carries the template's own offset, which is not the origin. */
  lemma TextEntryOffset(scan: Scan, met: Metrics, t: Template)
    requires TextEntry(scan, met, t).Ok? && TextEntry(scan, met, t).value.Some?
    ensures var e := TextEntry(scan, met, t).value.value;
      |t.boxes| > 0 &&
      TemplateOffset(scan, met, t) == Ok(Some(Point(e.xOffset, e.yOffset))) &&
      Point(e.xOffset, e.yOffset) != Point(0.0, 0.0) &&
      Evaluate(scan, met, t, e.xOffset, e.yOffset) == Ok(e)
  {
    var offset := TemplateOffset(scan, met, t).value.value;
    match ExtractBoxes(scan, t.boxes, offset.x, offset.y)
    case Ok(ds) =>
  }

  /** Each template's own outcome in the text search, in template order. */
  function TextOutcomes(scan: Scan, met: Metrics, ts: seq<Template>): (os: seq<Outcome<Option<Entry>>>)
    ensures |os| == |ts|
    ensures forall i :: 0 <= i < |ts| ==> os[i] == TextEntry(scan, met, ts[i])
  {
    seq(|ts|, i requires 0 <= i < |ts| => TextEntry(scan, met, ts[i]))
  }

  /**
   * Entry k of es is the entry of outcome idx[k], the indices rise, every outcome is Ok,
   * and every outcome holding an entry is indexed.
   */
  ghost predicate IndexedBy(os: seq<Outcome<Option<Entry>>>, es: seq<Entry>, idx: seq<nat>)
  {
    |idx| == |es|
    && (forall k :: 0 <= k < |idx| ==> idx[k] < |os| && os[idx[k]] == Ok(Some(es[k])))
    && (forall k, l :: 0 <= k < l < |idx| ==> idx[k] < idx[l])
    && (forall i :: 0 <= i < |os| ==> os[i].Ok?)
    && (forall i :: 0 <= i < |os| && os[i].value.Some? ==> exists k :: 0 <= k < |idx| && idx[k] == i)
  }

  lemma IndexedBySnoc(os: seq<Outcome<Option<Entry>>>, es: seq<Entry>, idx: seq<nat>, o: Outcome<Option<Entry>>)
    requires IndexedBy(os, es, idx) && o.Ok?
    ensures o.value.None? ==> IndexedBy(os + [o], es, idx)
    ensures o.value.Some? ==> IndexedBy(os + [o], es + [o.value.value], idx + [|os|])
  {
    var os' := os + [o];
    assert forall i :: 0 <= i < |os| ==> os'[i] == os[i];
    if o.value.Some? {
      var idx' := idx + [|os|];
      forall i | 0 <= i < |os'| && os'[i].value.Some?
        ensures exists k :: 0 <= k < |idx'| && idx'[k] == i
      {
        if i < |os| {
          var k :| 0 <= k < |idx| && idx[k] == i;
          assert idx'[k] == i;
        } else {
          assert idx'[|idx|] == i;
        }
      }
    } else {
      forall i | 0 <= i < |os'| && os'[i].value.Some?
        ensures exists k :: 0 <= k < |idx| && idx[k] == i
      {
        assert i < |os|;
      }
    }
  }

  /** The entries of a run of outcomes, up to the first error. */
  function Collect(os: seq<Outcome<Option<Entry>>>): Outcome<seq<Entry>>
  {
    if |os| == 0 then Ok([])
    else
      match Collect(os[..|os| - 1])
      case Raised(e) => Raised(e)
      case Ok(es) =>
        match os[|os| - 1]
        case Raised(e) => Raised(e)
        case Ok(None) => Ok(es)
        case Ok(Some(entry)) => Ok(es + [entry])
  }

  lemma {:induction false} CollectIndexed(os: seq<Outcome<Option<Entry>>>) returns (idx: seq<nat>)
    requires Collect(os).Ok?
    ensures IndexedBy(os, Collect(os).value, idx)
  {
    if |os| == 0 {
      idx := [];
    } else {
      var init := os[..|os| - 1];
      var o := os[|os| - 1];
      var prior := CollectIndexed(init);
      assert os == init + [o];
      IndexedBySnoc(init, Collect(init).value, prior, o);
      idx := if o.value.Some? then prior + [|init|] else prior;
    }
  }

  /** The text search collects the templates' own outcomes in order. */
  lemma {:induction false} TextEntriesCollect(scan: Scan, met: Metrics, ts: seq<Template>)
    ensures TextEntries(scan, met, ts) == Collect(TextOutcomes(scan, met, ts))
  {
    if |ts| > 0 {
      var init := ts[..|ts| - 1];
      TextEntriesCollect(scan, met, init);
      assert TextOutcomes(scan, met, ts)[..|ts| - 1] == TextOutcomes(scan, met, init);
    }
  }

  /** The entries of the text search keep template order: entry k comes from template idx[k]. */
  lemma TextEntriesIndexed(scan: Scan, met: Metrics, ts: seq<Template>) returns (idx: seq<nat>)
    requires TextEntries(scan, met, ts).Ok?
    ensures IndexedBy(TextOutcomes(scan, met, ts), TextEntries(scan, met, ts).value, idx)
  {
    TextEntriesCollect(scan, met, ts);
    idx := CollectIndexed(TextOutcomes(scan, met, ts));
  }

  /** Selection over collected outcomes: the winner's outcome, its bounds, and strictly lower earlier outcomes. */
  lemma CollectWinner(os: seq<Outcome<Option<Entry>>>) returns (winner: Entry, k: nat)
    requires Collect(os).Ok? && Select(Collect(os).value).best.template.Some?
    ensures k < |os| && os[k] == Ok(Some(winner))
    ensures Select(Collect(os).value) == Choice(winner.score, Pick(winner))
    ensures winner.score > 0.0
    ensures forall i :: 0 <= i < |os| ==>
      os[i].Ok? && (os[i].value.Some? ==> os[i].value.value.score <= winner.score)
    ensures forall i :: 0 <= i < k ==>
      os[i].Ok? && (os[i].value.Some? ==> os[i].value.value.score < winner.score)
  {
    var es := Collect(os).value;
    var idx := CollectIndexed(os);
    var j := SelectWinner(es);
    winner := es[j];
    k := idx[j];
    forall i | 0 <= i < |os| && os[i].value.Some?
      ensures os[i].value.value.score <= winner.score
    {
      var m :| 0 <= m < |idx| && idx[m] == i;
    }
    forall i | 0 <= i < k && os[i].value.Some?
      ensures os[i].value.value.score < winner.score
    {
      var m :| 0 <= m < |idx| && idx[m] == i;
      assert m < j;
    }
  }

  /** Selection over collected outcomes finds nothing iff no outcome scores above 0. */
  lemma CollectNothing(os: seq<Outcome<Option<Entry>>>)
    requires Collect(os).Ok?
    ensures Select(Collect(os).value).best.template.None? <==>
      forall i :: 0 <= i < |os| ==> os[i].Ok? && (os[i].value.Some? ==> os[i].value.value.score <= 0.0)
    ensures Select(Collect(os).value).best.template.None? ==> Select(Collect(os).value) == Choice(0.0, NoBest())
  {
    var es := Collect(os).value;
    var idx := CollectIndexed(os);
    SelectBounds(es);
    if Select(es).best.template.None? {
      forall i | 0 <= i < |os| && os[i].value.Some?
        ensures os[i].value.value.score <= 0.0
      {
        var m :| 0 <= m < |idx| && idx[m] == i;
      }
    } else {
      var j := SelectWinner(es);
      assert os[idx[j]] == Ok(Some(es[j]));
    }
  }

  /** An entry of the text search names the template it was made from. */
  lemma TextEntryTemplate(scan: Scan, met: Metrics, t: Template)
    requires TextEntry(scan, met, t).Ok? && TextEntry(scan, met, t).value.Some?
    ensures TextEntry(scan, met, t).value.value.template == t
  {
    var offset := TemplateOffset(scan, met, t).value.value;
    match ExtractBoxes(scan, t.boxes, offset.x, offset.y)
    case Ok(ds) =>
  }

  /**
   * The text search returns a template whose own offset is found and is not the
   * origin, applied at that offset, scoring above 0 and no less than any other
   * template so found; every earlier template scores strictly less, so the first
   * best template wins.
   */
  lemma ByTextWinner(scan: Scan, met: Metrics, templates: seq<Template>) returns (winner: Entry, k: nat)
    requires ByText(scan, met, templates).Ok? && ByText(scan, met, templates).value.template.Some?
    ensures k < |templates| && templates[k] == winner.template
    ensures TextEntry(scan, met, winner.template) == Ok(Some(winner))
    ensures ByText(scan, met, templates).value == Pick(winner)
    ensures winner.score > 0.0
    ensures forall t :: t in templates ==>
      TextEntry(scan, met, t).Ok? &&
      (TextEntry(scan, met, t).value.Some? ==> TextEntry(scan, met, t).value.value.score <= winner.score)
    ensures forall i :: 0 <= i < k ==>
      TextEntry(scan, met, templates[i]).Ok? &&
      (TextEntry(scan, met, templates[i]).value.Some? ==>
         TextEntry(scan, met, templates[i]).value.value.score < winner.score)
    ensures forall i :: 0 <= i < k ==> templates[i] != winner.template
  {
    var os := TextOutcomes(scan, met, templates);
    TextEntriesCollect(scan, met, templates);
    winner, k := CollectWinner(os);
    TextEntryTemplate(scan, met, templates[k]);
    forall t | t in templates
      ensures TextEntry(scan, met, t).Ok? &&
        (TextEntry(scan, met, t).value.Some? ==> TextEntry(scan, met, t).value.value.score <= winner.score)
    {
      var i :| 0 <= i < |templates| && templates[i] == t;
      assert os[i] == TextEntry(scan, met, t);
    }
  }

  /** The text search finds no template iff no template's entry scores above 0; then it returns `NoBest()`. */
  lemma ByTextNothing(scan: Scan, met: Metrics, templates: seq<Template>)
    requires ByText(scan, met, templates).Ok?
    ensures ByText(scan, met, templates).value.template.None? <==>
      forall t :: t in templates ==>
        TextEntry(scan, met, t).Ok? &&
        (TextEntry(scan, met, t).value.Some? ==> TextEntry(scan, met, t).value.value.score <= 0.0)
    ensures ByText(scan, met, templates).value.template.None? ==> ByText(scan, met, templates).value == NoBest()
  {
    var os := TextOutcomes(scan, met, templates);
    TextEntriesCollect(scan, met, templates);
    CollectNothing(os);
    if forall t :: t in templates ==>
        TextEntry(scan, met, t).Ok? &&
        (TextEntry(scan, met, t).value.Some? ==> TextEntry(scan, met, t).value.value.score <= 0.0)
    {
      assert forall i :: 0 <= i < |os| ==> templates[i] in templates;
    } else {
      var t :| t in templates && !(TextEntry(scan, met, t).Ok? &&
        (TextEntry(scan, met, t).value.Some? ==> TextEntry(scan, met, t).value.value.score <= 0.0));
      var i :| 0 <= i < |templates| && templates[i] == t;
      assert os[i] == TextEntry(scan, met, t);
    }
  }
}
