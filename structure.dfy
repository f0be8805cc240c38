/** Rule 1, structure and reading order: every slide needs a descriptive
    title, and a blank layout should not carry free text boxes. */
module Structure {
  import opened Results
  import opened Text
  import opened Document
  import opened RuleBase
  import opened Scan

  const RuleId := "rule_01"
  const RuleName := "Structure and Reading Order"
  const Description := "Ensures all slides have titles and use proper layout structure"

  const MissingTitle := "Missing slide title"
  const ShortTitle := "Title too short"
  const BlankLayout := "Blank layout with text boxes"

  // The fixed parts of the messages, named so that proofs about the findings
  // do not have to carry the text along.
  const MissingTitleReason := " does not have a title. Titles are essential for navigation and screen readers."
  const MissingTitleFix := "Add a descriptive title to the slide using the title placeholder"
  const ShortTitleReason := "' is very short and may not be descriptive enough"
  const ShortTitleFix := "Use a more descriptive title that summarizes the slide content"
  const BlankLayoutLead := "Slide uses blank layout with "
  const BlankLayoutReason := " text boxes. Using standard layouts with placeholders improves accessibility."
  const BlankLayoutFix := "Consider using a standard layout (Title Slide, Title and Content, etc.)"

  /** The title check of slide `idx` (0-based): a critical finding when the
      title is missing or empty, a medium one when it has fewer than three
      characters, nothing otherwise. */
  function TitleFinding(slide: Slide, idx: nat): (f: Option<Finding>)
    ensures f.Some? <==> !HasTitle(slide) || |slide.title.value| < 3
    ensures f.Some? ==> f.value.severity == (if HasTitle(slide) then Medium else Critical)
    ensures f.Some? ==> f.value.title == (if HasTitle(slide) then ShortTitle else MissingTitle)
    ensures f.Some? ==> f.value.slideNumber == idx + 1 && f.value.shapeId.None?
                        && f.value.actionType == Suggest && f.value.ruleId == RuleId
    ensures f.Some? && !HasTitle(slide) ==>
              f.value.metadata == map["layout_name" := Str(slide.layoutName)]
    ensures f.Some? && HasTitle(slide) ==>
              f.value.metadata == map["current_title" := Str(slide.title.value),
                                      "title_length" := Int(|slide.title.value|)]
  {
    var number := idx + 1;
    if !HasTitle(slide) then
      Some(Finding(
        RuleId, number, None, Critical, MissingTitle,
        "Slide " + IntToString(number) + MissingTitleReason,
        Suggest,
        Some(MissingTitleFix),
        map["layout_name" := Str(slide.layoutName)]))
    else
      var title := slide.title.value;
      if |title| < 3 then
        Some(Finding(
          RuleId, number, None, Medium, ShortTitle,
          "Slide title '" + title + ShortTitleReason,
          Suggest,
          Some(ShortTitleFix),
          map["current_title" := Str(title), "title_length" := Int(|title|)]))
      else None
  }

  /** How many of the shapes are not placeholders. */
  function NonPlaceholderCount(shapes: seq<TextShape>): (n: nat)
    ensures n <= |shapes|
    ensures n == 0 <==> forall i :: 0 <= i < |shapes| ==> shapes[i].isPlaceholder
  {
    if |shapes| == 0 then 0
    else NonPlaceholderCount(shapes[..|shapes| - 1]) + (if shapes[|shapes| - 1].isPlaceholder then 0 else 1)
  }

  /** The layout name mentions "blank", compared case-insensitively. */
  predicate IsBlankLayout(slide: Slide) {
    Contains(LowerString(slide.layoutName), "blank")
  }

  /** The layout check of slide `idx`: only a blank layout makes the rule read
      the slide's text shapes (and so raise when that fails); the finding is
      there when at least one of them is not a placeholder. */
  function LayoutFinding(slide: Slide, idx: nat): (r: Result<Option<Finding>>)
    ensures r.Error? <==> IsBlankLayout(slide) && slide.textShapes.Error?
    ensures r.Ok? && r.value.Some? <==>
              IsBlankLayout(slide) && slide.textShapes.Ok? && NonPlaceholderCount(slide.textShapes.value) > 0
    ensures r.Ok? && r.value.Some? ==>
              && r.value.value.severity == Medium && r.value.value.title == BlankLayout
              && r.value.value.slideNumber == idx + 1 && r.value.value.shapeId.None?
              && r.value.value.actionType == Suggest && r.value.value.ruleId == RuleId
              && r.value.value.metadata == map[
                   "layout_name" := Str(slide.layoutName),
                   "non_placeholder_count" := Int(NonPlaceholderCount(slide.textShapes.value))]
  {
    if IsBlankLayout(slide) then
      match slide.textShapes
      case Error(e) => Error(e)
      case Ok(shapes) =>
        var count := NonPlaceholderCount(shapes);
        if count > 0 then
          Ok(Some(Finding(
            RuleId, idx + 1, None, Medium, BlankLayout,
            BlankLayoutLead + IntToString(count) + BlankLayoutReason,
            Suggest,
            Some(BlankLayoutFix),
            map["layout_name" := Str(slide.layoutName), "non_placeholder_count" := Int(count)])))
        else Ok(None)
    else Ok(None)
  }

  /** The findings of one slide: the title finding, then the layout finding. */
  function SlideFindings(slide: Slide, idx: nat): Result<seq<Finding>> {
    match LayoutFinding(slide, idx)
    case Error(e) => Error(e)
    case Ok(layout) => Ok(OptionToSeq(TitleFinding(slide, idx)) + OptionToSeq(layout))
  }

  /** The findings of the first `n` slides, in slide order; the first slide
      whose text shapes the rule reads and cannot get makes the rule raise. */
  function FindingsUpto(deck: Presentation, n: nat): Result<seq<Finding>>
    requires n <= |deck.slides|
  {
    ScanSlides(deck.slides, SlideFindings, n)
  }

  /** What `StructureRule.analyze` returns or raises for the deck. */
  function Findings(deck: Presentation): Result<seq<Finding>> {
    FindingsUpto(deck, |deck.slides|)
  }

  /** The body of the slide loop of `StructureRule.analyze`: the title
      finding, then the layout finding. */
  method CheckSlide(slide: Slide, idx: nat) returns (r: Result<seq<Finding>>)
    ensures r == SlideFindings(slide, idx)
  {
    var here: seq<Finding> := [];
    var title := TitleFinding(slide, idx);
    if title.Some? {
      here := here + [title.value];
    }
    var layout := LayoutFinding(slide, idx);
    if layout.Error? {
      return Error(layout.message);
    }
    if layout.value.Some? {
      here := here + [layout.value.value];
    }
    assert here == OptionToSeq(title) + OptionToSeq(layout.value);
    return Ok(here);
  }

  /** `StructureRule.analyze`: one pass over the slides. */
  method Analyze(deck: Presentation) returns (r: Result<seq<Finding>>)
    ensures r == Findings(deck)
  {
    var findings: seq<Finding> := [];
    for idx := 0 to |deck.slides|
      invariant FindingsUpto(deck, idx) == Ok(findings)
    {
      var here := CheckSlide(deck.slides[idx], idx);
      if here.Error? {
        ErrorPersists(deck.slides, SlideFindings, idx + 1, |deck.slides|);
        return here;
      }
      findings := findings + here.value;
    }
    return Ok(findings);
  }

  /** `StructureRule.apply_fix`: no fix is ever applied. */
  function ApplyFix(finding: Finding): (applied: bool)
    ensures !applied
  {
    false
  }

  // ---------------------------------------------------------------------------
  // Properties of the rule
  // ---------------------------------------------------------------------------

  /** A finding about a whole slide that only suggests a change. */
  predicate SlideSuggestion(f: Finding) {
    f.ruleId == RuleId && f.shapeId.None? && f.actionType == Suggest
  }

  /** One slide gives at most two findings: the title finding (missing and
      short exclude each other) before the layout finding, both slide-level
      suggestions for that slide. */
  lemma SlideFindingsShape(slide: Slide, idx: nat)
    requires SlideFindings(slide, idx).Ok?
    ensures var fs := SlideFindings(slide, idx).value;
      && |fs| <= 2
      && (forall f :: f in fs ==> SlideSuggestion(f) && f.slideNumber == idx + 1)
      && (|fs| == 2 ==> (fs[0].title == MissingTitle || fs[0].title == ShortTitle) && fs[1].title == BlankLayout)
  {}

  /** The rule's findings are slide-level suggestions, at most two per slide,
      ordered by slide number. */
  lemma FindingsOrdered(deck: Presentation)
    requires Findings(deck).Ok?
    ensures var fs := Findings(deck).value;
      && |fs| <= 2 * |deck.slides|
      && (forall f :: f in fs ==> SlideSuggestion(f) && 1 <= f.slideNumber <= |deck.slides|)
      && (forall i, j :: 0 <= i < j < |fs| ==> fs[i].slideNumber <= fs[j].slideNumber)
  {
    var n := |deck.slides|;
    forall i | 0 <= i < n && SlideFindings(deck.slides[i], i).Ok?
      ensures |SlideFindings(deck.slides[i], i).value| <= 2
      ensures forall f :: f in SlideFindings(deck.slides[i], i).value ==> SlideSuggestion(f) && f.slideNumber == i + 1
    {
      SlideFindingsShape(deck.slides[i], i);
    }
    ScanOrdered(deck.slides, SlideFindings, n, (f: Finding) => f.slideNumber, SlideSuggestion);
    ScanBound(deck.slides, SlideFindings, n, 2);
  }

  /** Slide `slide` is one whose text shapes the rule reads and cannot get. */
  predicate ReadFails(slide: Slide) {
    IsBlankLayout(slide) && slide.textShapes.Error?
  }

  /** The rule raises exactly when some slide with a blank layout cannot
      give its text shapes; a deck without slides gives no finding. */
  lemma FindingsFail(deck: Presentation)
    ensures Findings(deck).Error? <==> exists i :: 0 <= i < |deck.slides| && ReadFails(deck.slides[i])
    ensures |deck.slides| == 0 ==> Findings(deck) == Ok([])
  {
    ScanFails(deck.slides, SlideFindings, |deck.slides|);
    forall i | 0 <= i < |deck.slides|
      ensures SlideFindings(deck.slides[i], i).Error? <==> ReadFails(deck.slides[i])
    {}
  }
}
