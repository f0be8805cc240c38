/** Rule 3, colour and contrast: every text run with a known colour must reach
    the WCAG AA contrast ratio against the (assumed white) background; runs
    that do not are reported with a darker colour that does. */
module Contrast {
  import opened Results
  import opened Text
  import opened Document
  import opened RuleBase
  import opened Scan
  import Colors

  const RuleId := "rule_03"
  const RuleName := "Color and Contrast"
  const Description := "Ensures sufficient color contrast between text and background (WCAG 4.5:1 for AA)"

  const Insufficient := "Insufficient color contrast"
  const RatioLead := "Contrast ratio "
  const RatioTail := ":1 does not meet WCAG AA "
  const LargeNote := "(3:1 for large text)"
  const NormalNote := "(4.5:1)"
  const FixLead := "Change text color from "
  const FixMiddle := " to "

  /** The background every run is checked against. Slide and shape
      backgrounds are not read, so it is always white. */
  const Background := Colors.WhiteHex

  // ---------------------------------------------------------------------------
  // One run
  // ---------------------------------------------------------------------------

  /** Large text in the WCAG sense: 18pt and up, or 14pt and up in bold. */
  predicate IsLargeText(run: TextRun) {
    run.fontSize.Some? && (run.fontSize.value >= 18.0 || (run.fontSize.value >= 14.0 && run.bold))
  }

  /** The value the rule computes for "is large text": the font size itself
      when that is missing or zero, and a boolean otherwise. Its truth value is
      exactly `IsLargeText`. */
  function LargeTextFlag(run: TextRun): (v: Value)
    ensures Truthy(v) <==> IsLargeText(run)
  {
    match run.fontSize
    case None => Null
    case Some(size) =>
      if size == 0.0 then Real(0.0)
      else if size >= 14.0 && run.bold then Bool(true)
      else Bool(size >= 18.0)
  }

  /** The ratio a run has to reach: the one `meets_wcag_aa` applies, which is
      also the target handed to the colour search. */
  function RequiredRatio(large: bool): (required: real)
    ensures forall ratio :: Colors.MeetsAA(ratio, large) <==> ratio >= required
  {
    if large then 3.0 else 4.5
  }

  /** How far below the requirement a failing ratio is. */
  function ContrastSeverity(ratio: real): Severity {
    if ratio < 2.0 then Critical
    else if ratio < 3.0 then High
    else Medium
  }

  /** The finding for a run of colour `color` whose contrast `ratio` fails,
      with the suggested replacement colour. */
  function ContrastFinding(run: TextRun, shapeId: int, idx: nat, color: string, ratio: real, suggested: string): Finding
    requires 0.0 <= ratio
  {
    var large := IsLargeText(run);
    Finding(
      RuleId, idx + 1, Some(IntToString(shapeId)), ContrastSeverity(ratio), Insufficient,
      RatioLead + FormatFixed(ratio, 2) + RatioTail + (if large then LargeNote else NormalNote),
      AutoFix,
      Some(FixLead + color + FixMiddle + suggested),
      map[
        "current_color" := Str(color),
        "background_color" := Str(Background),
        "contrast_ratio" := Real(Round(ratio, 2)),
        "required_ratio" := Real(RequiredRatio(large)),
        "suggested_color" := Str(suggested),
        "is_large_text" := LargeTextFlag(run),
        "text_preview" := Str(Prefix(run.text, 50))])
  }

  /** What one run of shape `shapeId` on slide `idx` (0-based) contributes:
      nothing when it has no colour, when the colour cannot be parsed (the
      rule catches the error and moves on), or when it meets AA. */
  function RunFinding(run: TextRun, shapeId: int, idx: nat): Option<Finding> {
    match run.fontColor
    case None => None
    case Some(color) =>
      if |color| == 0 then None
      else
        match Colors.ContrastRatio(color, Background)
        case Error(_) => None
        case Ok(ratio) =>
          var large := IsLargeText(run);
          if Colors.MeetsAA(ratio, large) then None
          else
            match Colors.Suggest(color, RequiredRatio(large), Background, Colors.Darker)
            case Error(_) => None
            case Ok(suggested) => Some(ContrastFinding(run, shapeId, idx, color, ratio, suggested))
  }

  // ---------------------------------------------------------------------------
  // Shapes, slides and the deck
  // ---------------------------------------------------------------------------

  function RunFinder(shapeId: int, idx: nat): TextRun -> seq<Finding> {
    run => OptionToSeq(RunFinding(run, shapeId, idx))
  }

  /** The findings of a shape: those of its runs in order, none without a text frame. */
  function ShapeFindings(shape: TextShape, idx: nat): seq<Finding> {
    match shape.textFrame
    case None => []
    case Some(runs) => FlatMap(runs, RunFinder(shape.shapeId, idx))
  }

  function ShapeFinder(idx: nat): TextShape -> seq<Finding> {
    shape => ShapeFindings(shape, idx)
  }

  /** The findings of slide `idx`, or the error reading its text shapes raised. */
  function SlideFindings(slide: Slide, idx: nat): Result<seq<Finding>> {
    match slide.textShapes
    case Error(e) => Error(e)
    case Ok(shapes) => Ok(FlatMap(shapes, ShapeFinder(idx)))
  }

  /** What `ContrastRule.analyze` returns or raises for the deck. */
  function Findings(deck: Presentation): Result<seq<Finding>> {
    ScanSlides(deck.slides, SlideFindings, |deck.slides|)
  }

  // ---------------------------------------------------------------------------
  // The analysis
  // ---------------------------------------------------------------------------

  /** The body of the run loop: contrast against the background, the AA test,
      and the darker colour search for a failing run. */
  method CheckRun(run: TextRun, shapeId: int, idx: nat) returns (f: Option<Finding>)
    ensures f == RunFinding(run, shapeId, idx)
  {
    if run.fontColor.None? || |run.fontColor.value| == 0 {
      return None;
    }
    var color := run.fontColor.value;
    var contrast := Colors.ContrastRatio(color, Background);
    if contrast.Error? {
      return None;
    }
    var large := IsLargeText(run);
    if Colors.MeetsAA(contrast.value, large) {
      return None;
    }
    var suggested := Colors.SuggestDarkerColor(color, RequiredRatio(large), Background);
    if suggested.Error? {
      return None;
    }
    return Some(ContrastFinding(run, shapeId, idx, color, contrast.value, suggested.value));
  }

  /** The shape loop's body: skip a shape without a text frame, otherwise
      check its runs in order. */
  method CheckShape(shape: TextShape, idx: nat) returns (found: seq<Finding>)
    ensures found == ShapeFindings(shape, idx)
  {
    if shape.textFrame.None? {
      return [];
    }
    var runs := shape.textFrame.value;
    found := [];
    for k := 0 to |runs|
      invariant found == FlatMap(runs[..k], RunFinder(shape.shapeId, idx))
    {
      var f := CheckRun(runs[k], shape.shapeId, idx);
      FlatMapStep(runs, k, RunFinder(shape.shapeId, idx));
      if f.Some? {
        found := found + [f.value];
      }
    }
    assert runs[..|runs|] == runs;
  }

  /** The slide loop's body: read the slide's text shapes and check each. */
  method CheckSlide(slide: Slide, idx: nat) returns (r: Result<seq<Finding>>)
    ensures r == SlideFindings(slide, idx)
  {
    if slide.textShapes.Error? {
      return Error(slide.textShapes.message);
    }
    var shapes := slide.textShapes.value;
    var found: seq<Finding> := [];
    for k := 0 to |shapes|
      invariant found == FlatMap(shapes[..k], ShapeFinder(idx))
    {
      var here := CheckShape(shapes[k], idx);
      FlatMapStep(shapes, k, ShapeFinder(idx));
      found := found + here;
    }
    assert shapes[..|shapes|] == shapes;
    return Ok(found);
  }

  /** `ContrastRule.analyze`: every run of every shape of every slide, in order. */
  method Analyze(deck: Presentation) returns (r: Result<seq<Finding>>)
    ensures r == Findings(deck)
  {
    var findings: seq<Finding> := [];
    for idx := 0 to |deck.slides|
      invariant ScanSlides(deck.slides, SlideFindings, idx) == Ok(findings)
    {
      var here := CheckSlide(deck.slides[idx], idx);
      if here.Error? {
        ErrorPersists(deck.slides, SlideFindings, idx + 1, |deck.slides|);
        return here;
      }
      findings := findings + here.value;
    }
    return Ok(findings);
  }

  /** `ContrastRule.apply_fix`: no fix is ever applied. */
  function ApplyFix(finding: Finding): (applied: bool)
    ensures !applied
  {
    false
  }

  // ---------------------------------------------------------------------------
  // Properties of the rule
  // ---------------------------------------------------------------------------

  /** A run is reported exactly when it has a colour that parses and whose
      contrast against the background fails AA for its text size. */
  lemma RunFlagged(run: TextRun, shapeId: int, idx: nat)
    ensures RunFinding(run, shapeId, idx).Some? <==>
              && run.fontColor.Some? && |run.fontColor.value| > 0
              && Colors.ContrastRatio(run.fontColor.value, Background).Ok?
              && !Colors.MeetsAA(Colors.ContrastRatio(run.fontColor.value, Background).value, IsLargeText(run))
  {
    Colors.WhiteHexParses();
    if run.fontColor.Some? && Colors.ContrastRatio(run.fontColor.value, Background).Ok? {
      Colors.SuggestSound(run.fontColor.value, RequiredRatio(IsLargeText(run)), Background, Colors.Darker);
    }
  }

  /** A reported run is one with a colour whose ratio fails, and its finding
      is built from that ratio and the darker colour the search returns. */
  lemma RunFindingIs(run: TextRun, shapeId: int, idx: nat)
    requires RunFinding(run, shapeId, idx).Some?
    ensures run.fontColor.Some? && Colors.ContrastRatio(run.fontColor.value, Background).Ok?
    ensures var color := run.fontColor.value;
      var ratio := Colors.ContrastRatio(color, Background).value;
      var required := RequiredRatio(IsLargeText(run));
      var suggestion := Colors.Suggest(color, required, Background, Colors.Darker);
      && 1.0 <= ratio < required
      && suggestion.Ok?
      && RunFinding(run, shapeId, idx) == Some(ContrastFinding(run, shapeId, idx, color, ratio, suggestion.value))
  {}

  /** The fields of a contrast finding. */
  lemma ContrastFindingFields(run: TextRun, shapeId: int, idx: nat, color: string, ratio: real, suggested: string)
    requires 0.0 <= ratio
    ensures var f := ContrastFinding(run, shapeId, idx, color, ratio, suggested);
      && f.ruleId == RuleId && f.slideNumber == idx + 1 && f.shapeId == Some(IntToString(shapeId))
      && f.actionType == AutoFix && f.severity == ContrastSeverity(ratio)
      && f.title == Insufficient
      && f.description == RatioLead + FormatFixed(ratio, 2) + RatioTail + (if IsLargeText(run) then LargeNote else NormalNote)
      && f.suggestedFix == Some(FixLead + color + FixMiddle + suggested)
      && f.metadata["current_color"] == Str(color)
      && f.metadata["background_color"] == Str(Background)
      && f.metadata["contrast_ratio"] == Real(Round(ratio, 2))
      && f.metadata["required_ratio"] == Real(RequiredRatio(IsLargeText(run)))
      && f.metadata["suggested_color"] == Str(suggested)
      && Truthy(f.metadata["is_large_text"]) == IsLargeText(run)
      && f.metadata["text_preview"].Str? && |f.metadata["text_preview"].s| <= 50
      && f.metadata["text_preview"].s == run.text[..|f.metadata["text_preview"].s|]
  {}

  /** Against the white background the darker search always returns a colour
      that reaches any target up to 21:1 (the black fallback has ratio 21)
      and is no lighter than the original in any channel. */
  lemma SuggestionMeets(color: string, target: real)
    requires Colors.HexToRgb(color).Ok? && target <= 21.0
    ensures var suggestion := Colors.Suggest(color, target, Background, Colors.Darker);
      && suggestion.Ok?
      && Colors.ContrastRatio(suggestion.value, Background).Ok?
      && Colors.ContrastRatio(suggestion.value, Background).value >= target
      && Colors.Between(Colors.HexToRgb(color).value, Colors.HexToRgb(suggestion.value).value, Colors.Darker)
  {
    Colors.WhiteHexParses();
    Colors.SuggestSound(color, target, Background, Colors.Darker);
    if Colors.Suggest(color, target, Background, Colors.Darker).value == Colors.Fallback(Colors.Darker) {
      Colors.BlackOnWhite();
    }
  }

  /** A reported run gets an automatic fix for its own shape and slide, with
      the failing ratio's severity, and a suggested colour that is no lighter
      in any channel and reaches the required ratio against the background. */
  lemma RunFindingSound(run: TextRun, shapeId: int, idx: nat)
    requires RunFinding(run, shapeId, idx).Some?
    ensures var f := RunFinding(run, shapeId, idx).value;
      var color := run.fontColor.value;
      var ratio := Colors.ContrastRatio(color, Background).value;
      var required := RequiredRatio(IsLargeText(run));
      && ratio < required
      && f.ruleId == RuleId && f.slideNumber == idx + 1 && f.shapeId == Some(IntToString(shapeId))
      && f.actionType == AutoFix && f.severity == ContrastSeverity(ratio) && f.title == Insufficient
      && f.metadata["current_color"] == Str(color)
      && f.metadata["background_color"] == Str(Background)
      && f.metadata["contrast_ratio"] == Real(Round(ratio, 2))
      && f.metadata["required_ratio"] == Real(required)
      && Truthy(f.metadata["is_large_text"]) == IsLargeText(run)
      && f.metadata["text_preview"].Str? && |f.metadata["text_preview"].s| <= 50
      && f.metadata["text_preview"].s == run.text[..|f.metadata["text_preview"].s|]
      && f.metadata["suggested_color"].Str?
      && var suggested := f.metadata["suggested_color"].s;
         && f.suggestedFix == Some(FixLead + color + FixMiddle + suggested)
         && Colors.ContrastRatio(suggested, Background).Ok?
         && Colors.ContrastRatio(suggested, Background).value >= required
         && Colors.Between(Colors.HexToRgb(color).value, Colors.HexToRgb(suggested).value, Colors.Darker)
  {
    RunFindingIs(run, shapeId, idx);
    var color := run.fontColor.value;
    var ratio := Colors.ContrastRatio(color, Background).value;
    var required := RequiredRatio(IsLargeText(run));
    var suggested := Colors.Suggest(color, required, Background, Colors.Darker).value;
    ContrastFindingFields(run, shapeId, idx, color, ratio, suggested);
    SuggestionMeets(color, required);
  }

  /** Large text fails only below 3:1, so its findings are never of medium severity. */
  lemma LargeTextNeverMedium(run: TextRun, shapeId: int, idx: nat)
    requires RunFinding(run, shapeId, idx).Some? && IsLargeText(run)
    ensures RunFinding(run, shapeId, idx).value.severity in {Critical, High}
  {
    RunFindingSound(run, shapeId, idx);
  }

  /** A higher ratio never gives a more severe finding. */
  lemma SeverityMonotone(lower: real, higher: real)
    requires lower <= higher
    ensures SeverityWeight(ContrastSeverity(higher)) <= SeverityWeight(ContrastSeverity(lower))
  {}

  /** The rule raises exactly when reading some slide's text shapes raises:
      errors of single colours are caught and never reach the caller. */
  lemma FindingsFail(deck: Presentation)
    ensures Findings(deck).Error? <==> exists i :: 0 <= i < |deck.slides| && deck.slides[i].textShapes.Error?
  {
    ScanFails(deck.slides, SlideFindings, |deck.slides|);
    forall i | 0 <= i < |deck.slides|
      ensures SlideFindings(deck.slides[i], i).Error? <==> deck.slides[i].textShapes.Error?
    {}
  }

  /** A finding about one shape that offers an automatic fix. */
  predicate ShapeFix(f: Finding) {
    f.ruleId == RuleId && f.shapeId.Some? && f.actionType == AutoFix
  }

  /** Every finding of one slide is a shape-level automatic fix for that slide. */
  lemma SlideFindingsAreFixes(slide: Slide, idx: nat)
    requires slide.textShapes.Ok?
    ensures forall f :: f in SlideFindings(slide, idx).value ==> ShapeFix(f) && f.slideNumber == idx + 1
  {
    var onSlide := (f: Finding) => ShapeFix(f) && f.slideNumber == idx + 1;
    var shapes := slide.textShapes.value;
    forall shape | shape in shapes
      ensures forall f :: f in ShapeFinder(idx)(shape) ==> onSlide(f)
    {
      if shape.textFrame.Some? {
        var runs := shape.textFrame.value;
        forall run | run in runs
          ensures forall f :: f in RunFinder(shape.shapeId, idx)(run) ==> onSlide(f)
        {
          if RunFinding(run, shape.shapeId, idx).Some? {
            RunFindingSound(run, shape.shapeId, idx);
          }
        }
        FlatMapAll(runs, RunFinder(shape.shapeId, idx), onSlide);
      }
    }
    FlatMapAll(shapes, ShapeFinder(idx), onSlide);
  }

  /** The rule's findings are shape-level automatic fixes, ordered by slide. */
  lemma FindingsOrdered(deck: Presentation)
    requires Findings(deck).Ok?
    ensures var fs := Findings(deck).value;
      && (forall f :: f in fs ==> ShapeFix(f) && 1 <= f.slideNumber <= |deck.slides|)
      && (forall i, j :: 0 <= i < j < |fs| ==> fs[i].slideNumber <= fs[j].slideNumber)
  {
    forall i | 0 <= i < |deck.slides| && SlideFindings(deck.slides[i], i).Ok?
      ensures forall f :: f in SlideFindings(deck.slides[i], i).value ==> ShapeFix(f) && f.slideNumber == i + 1
    {
      SlideFindingsAreFixes(deck.slides[i], i);
    }
    ScanOrdered(deck.slides, SlideFindings, |deck.slides|, (f: Finding) => f.slideNumber, ShapeFix);
  }
}
