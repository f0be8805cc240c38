/** Rule 4, fonts and text format: text should be large enough, set in a
    sans-serif face, and not run on in italics. */
module Fonts {
  import opened Results
  import opened Text
  import opened Document
  import opened RuleBase
  import opened Scan

  const RuleId := "rule_04"
  const RuleName := "Fonts and Text Format"
  const Description := "Ensures text uses readable fonts with appropriate size (\U{2265}24pt recommended)"

  const TooSmall := "Text too small"
  const SerifDetected := "Serif font detected"
  const ExcessiveItalic := "Excessive italic text"

  const SizeLead := "Font size "
  const SizeMiddle := "pt is below recommended "
  const SizeFixLead := "Increase font size to "
  const SerifLead := "Font '"
  const SerifTail := "' is a serif font. Sans-serif fonts are more readable."
  const SerifFix := "Replace with sans-serif font like Arial or Calibri"
  const ItalicReason := "Long text in italics is harder to read"
  const ItalicFix := "Use regular text or bold for emphasis instead of italics"
  /** The replacement face the serif finding proposes. */
  const SuggestedFont := "Arial"

  // The configuration keys the rule reads.
  const MinFontSizeKey := "min_font_size"
  const PreferredFontsKey := "preferred_fonts"

  const DefaultMinFontSize := 24
  const DefaultPreferredFonts: seq<string> := ["Arial", "Calibri", "Helvetica", "Tahoma", "Verdana", "Segoe UI"]

  /** The serif families the rule recognises, by substring of the font name. */
  const SerifFonts: seq<string> := ["Times New Roman", "Georgia", "Garamond", "Palatino"]

  /** The longest run that may be set in italics without a finding. */
  const ItalicLimit := 50

  // ---------------------------------------------------------------------------
  // Configuration
  // ---------------------------------------------------------------------------

  /** The rule reads `min_font_size` as a whole number of points and
      `preferred_fonts` as a list; either may be absent. */
  predicate ValidConfig(config: Metadata) {
    && (MinFontSizeKey in config ==> config[MinFontSizeKey].Int?)
    && (PreferredFontsKey in config ==> config[PreferredFontsKey].List?)
  }

  /** What the rule reads from its configuration before the slide loop. */
  datatype Settings = Settings(minFontSize: int, preferredFonts: seq<Value>)

  function DefaultPreferred(): (fonts: seq<Value>)
    ensures |fonts| == |DefaultPreferredFonts|
    ensures forall i :: 0 <= i < |fonts| ==> fonts[i] == Str(DefaultPreferredFonts[i])
  {
    seq(|DefaultPreferredFonts|, i requires 0 <= i < |DefaultPreferredFonts| => Str(DefaultPreferredFonts[i]))
  }

  /** The configured minimum size and preferred fonts, or the defaults (24pt;
      Arial, Calibri, Helvetica, Tahoma, Verdana, Segoe UI). */
  function SettingsOf(config: Metadata): (s: Settings)
    requires ValidConfig(config)
    ensures MinFontSizeKey in config ==> s.minFontSize == config[MinFontSizeKey].i
    ensures MinFontSizeKey !in config ==> s.minFontSize == DefaultMinFontSize
    ensures PreferredFontsKey in config ==> s.preferredFonts == config[PreferredFontsKey].items
    ensures PreferredFontsKey !in config ==>
              forall name :: Str(name) in s.preferredFonts <==> name in DefaultPreferredFonts
  {
    Settings(
      if MinFontSizeKey in config then config[MinFontSizeKey].i else DefaultMinFontSize,
      if PreferredFontsKey in config then config[PreferredFontsKey].items else DefaultPreferred())
  }

  // ---------------------------------------------------------------------------
  // One run
  // ---------------------------------------------------------------------------

  /** The name contains one of the recognised serif family names. */
  predicate LooksSerif(name: string) {
    exists i :: 0 <= i < |SerifFonts| && Contains(name, SerifFonts[i])
  }

  /** The run has a (non-zero) size below the minimum. */
  predicate TooSmallText(run: TextRun, settings: Settings) {
    run.fontSize.Some? && run.fontSize.value != 0.0 && run.fontSize.value < settings.minFontSize as real
  }

  /** The run has a named font that is not preferred and looks serif. */
  predicate SerifText(run: TextRun, settings: Settings) {
    |run.fontName| > 0 && Str(run.fontName) !in settings.preferredFonts && LooksSerif(run.fontName)
  }

  /** The run is italic and longer than the limit. */
  predicate LongItalicText(run: TextRun) {
    run.italic && |run.text| > ItalicLimit
  }

  function SizeFinding(run: TextRun, shapeId: int, idx: nat, settings: Settings): Option<Finding> {
    if TooSmallText(run, settings) then
      var size := run.fontSize.value;
      var minimum := IntToString(settings.minFontSize);
      Some(Finding(
        RuleId, idx + 1, Some(IntToString(shapeId)), Medium, TooSmall,
        SizeLead + FormatFixed(size, 1) + SizeMiddle + minimum + "pt",
        AutoFix,
        Some(SizeFixLead + minimum + "pt"),
        map[
          "current_size" := Real(size),
          "recommended_size" := Int(settings.minFontSize),
          "text_preview" := Str(Prefix(run.text, 50))]))
    else None
  }

  function SerifFinding(run: TextRun, shapeId: int, idx: nat, settings: Settings): Option<Finding> {
    if SerifText(run, settings) then
      Some(Finding(
        RuleId, idx + 1, Some(IntToString(shapeId)), Low, SerifDetected,
        SerifLead + run.fontName + SerifTail,
        Suggest,
        Some(SerifFix),
        map["current_font" := Str(run.fontName), "suggested_font" := Str(SuggestedFont)]))
    else None
  }

  function ItalicFinding(run: TextRun, shapeId: int, idx: nat): Option<Finding> {
    if LongItalicText(run) then
      Some(Finding(
        RuleId, idx + 1, Some(IntToString(shapeId)), Low, ExcessiveItalic,
        ItalicReason,
        Suggest,
        Some(ItalicFix),
        map["text_length" := Int(|run.text|)]))
    else None
  }

  /** What one run contributes: the size finding, the serif finding and the
      italic finding, each when its check fires, in that order. */
  function RunFindings(run: TextRun, shapeId: int, idx: nat, settings: Settings): seq<Finding> {
    OptionToSeq(SizeFinding(run, shapeId, idx, settings))
      + OptionToSeq(SerifFinding(run, shapeId, idx, settings))
      + OptionToSeq(ItalicFinding(run, shapeId, idx))
  }

  // ---------------------------------------------------------------------------
  // Shapes, slides and the deck
  // ---------------------------------------------------------------------------

  function RunFinder(shapeId: int, idx: nat, settings: Settings): TextRun -> seq<Finding> {
    run => RunFindings(run, shapeId, idx, settings)
  }

  /** The findings of a shape: those of its runs in order, none without a text frame. */
  function ShapeFindings(shape: TextShape, idx: nat, settings: Settings): seq<Finding> {
    match shape.textFrame
    case None => []
    case Some(runs) => FlatMap(runs, RunFinder(shape.shapeId, idx, settings))
  }

  function ShapeFinder(idx: nat, settings: Settings): TextShape -> seq<Finding> {
    shape => ShapeFindings(shape, idx, settings)
  }

  function SlideFinder(settings: Settings): (Slide, nat) -> Result<seq<Finding>> {
    (slide: Slide, idx: nat) => SlideFindings(slide, idx, settings)
  }

  /** The findings of slide `idx`, or the error reading its text shapes raised. */
  function SlideFindings(slide: Slide, idx: nat, settings: Settings): Result<seq<Finding>> {
    match slide.textShapes
    case Error(e) => Error(e)
    case Ok(shapes) => Ok(FlatMap(shapes, ShapeFinder(idx, settings)))
  }

  /** What `FontsRule.analyze` returns or raises for the deck. */
  function Findings(deck: Presentation, config: Metadata): Result<seq<Finding>>
    requires ValidConfig(config)
  {
    ScanSlides(deck.slides, SlideFinder(SettingsOf(config)), |deck.slides|)
  }

  // ---------------------------------------------------------------------------
  // The analysis
  // ---------------------------------------------------------------------------

  /** The body of the run loop: the three checks in order. */
  method CheckRun(run: TextRun, shapeId: int, idx: nat, settings: Settings) returns (found: seq<Finding>)
    ensures found == RunFindings(run, shapeId, idx, settings)
  {
    found := [];
    var size := SizeFinding(run, shapeId, idx, settings);
    if size.Some? {
      found := found + [size.value];
    }
    var serif := SerifFinding(run, shapeId, idx, settings);
    if serif.Some? {
      found := found + [serif.value];
    }
    var italic := ItalicFinding(run, shapeId, idx);
    if italic.Some? {
      found := found + [italic.value];
    }
    assert found == OptionToSeq(size) + OptionToSeq(serif) + OptionToSeq(italic);
  }

  /** The shape loop's body: skip a shape without a text frame, otherwise
      check its runs in order. */
  method CheckShape(shape: TextShape, idx: nat, settings: Settings) returns (found: seq<Finding>)
    ensures found == ShapeFindings(shape, idx, settings)
  {
    if shape.textFrame.None? {
      return [];
    }
    var runs := shape.textFrame.value;
    found := [];
    for k := 0 to |runs|
      invariant found == FlatMap(runs[..k], RunFinder(shape.shapeId, idx, settings))
    {
      var here := CheckRun(runs[k], shape.shapeId, idx, settings);
      FlatMapStep(runs, k, RunFinder(shape.shapeId, idx, settings));
      found := found + here;
    }
    assert runs[..|runs|] == runs;
  }

  /** The slide loop's body: read the slide's text shapes and check each. */
  method CheckSlide(slide: Slide, idx: nat, settings: Settings) returns (r: Result<seq<Finding>>)
    ensures r == SlideFindings(slide, idx, settings) == SlideFinder(settings)(slide, idx)
  {
    if slide.textShapes.Error? {
      return Error(slide.textShapes.message);
    }
    var shapes := slide.textShapes.value;
    var found: seq<Finding> := [];
    for k := 0 to |shapes|
      invariant found == FlatMap(shapes[..k], ShapeFinder(idx, settings))
    {
      var here := CheckShape(shapes[k], idx, settings);
      FlatMapStep(shapes, k, ShapeFinder(idx, settings));
      found := found + here;
    }
    assert shapes[..|shapes|] == shapes;
    return Ok(found);
  }

  /** The slide loop under fixed settings. */
  method CheckSlides(slides: seq<Slide>, settings: Settings) returns (r: Result<seq<Finding>>)
    ensures r == ScanSlides(slides, SlideFinder(settings), |slides|)
  {
    var finder := SlideFinder(settings);
    var findings: seq<Finding> := [];
    for idx := 0 to |slides|
      invariant ScanSlides(slides, finder, idx) == Ok(findings)
    {
      var here := CheckSlide(slides[idx], idx, settings);
      assert here == finder(slides[idx], idx);
      if here.Error? {
        ErrorPersists(slides, finder, idx + 1, |slides|);
        return here;
      }
      findings := findings + here.value;
    }
    return Ok(findings);
  }

  /** `FontsRule.analyze`: read the settings, then every run of every shape
      of every slide, in order. */
  method Analyze(deck: Presentation, config: Metadata) returns (r: Result<seq<Finding>>)
    requires ValidConfig(config)
    ensures r == Findings(deck, config)
  {
    var settings := SettingsOf(config);
    r := CheckSlides(deck.slides, settings);
  }

  /** `FontsRule.apply_fix`: reports success for exactly the findings that
      offer an automatic fix. */
  function ApplyFix(finding: Finding): (applied: bool)
    ensures applied <==> finding.actionType == AutoFix
  {
    finding.actionType == AutoFix
  }

  // ---------------------------------------------------------------------------
  // Properties of the rule
  // ---------------------------------------------------------------------------

  /** What tells this rule's findings apart: each concerns one shape, and only
      the size finding (of medium severity) offers an automatic fix; the
      others are low-severity suggestions. */
  predicate FontFinding(f: Finding) {
    && f.ruleId == RuleId && f.shapeId.Some?
    && f.actionType == (if f.title == TooSmall then AutoFix else Suggest)
    && f.severity == (if f.title == TooSmall then Medium else Low)
  }

  /** The finding of one check, when there is one, is a font finding for
      the run's shape and slide. */
  ghost predicate ForRun(o: Option<Finding>, shapeId: int, idx: nat) {
    o.Some? ==> FontFinding(o.value) && o.value.slideNumber == idx + 1 && o.value.shapeId == Some(IntToString(shapeId))
  }

  /** The three checks, one at a time. */
  lemma ChecksSpec(run: TextRun, shapeId: int, idx: nat, settings: Settings)
    ensures var size := SizeFinding(run, shapeId, idx, settings);
      && ForRun(size, shapeId, idx) && (size.Some? <==> TooSmallText(run, settings))
      && (size.Some? ==> size.value.title == TooSmall
                         && size.value.metadata == map[
                              "current_size" := Real(run.fontSize.value),
                              "recommended_size" := Int(settings.minFontSize),
                              "text_preview" := Str(Prefix(run.text, 50))])
    ensures var serif := SerifFinding(run, shapeId, idx, settings);
      && ForRun(serif, shapeId, idx) && (serif.Some? <==> SerifText(run, settings))
      && (serif.Some? ==> serif.value.title == SerifDetected
                          && serif.value.suggestedFix == Some(SerifFix)
                          && serif.value.metadata == map[
                               "current_font" := Str(run.fontName), "suggested_font" := Str(SuggestedFont)])
    ensures var italic := ItalicFinding(run, shapeId, idx);
      && ForRun(italic, shapeId, idx) && (italic.Some? <==> LongItalicText(run))
      && (italic.Some? ==> italic.value.title == ExcessiveItalic
                           && italic.value.suggestedFix == Some(ItalicFix)
                           && italic.value.metadata == map["text_length" := Int(|run.text|)])
  {}

  /** A run gets at most one finding per check: a size finding exactly when
      its size is below the minimum, a serif finding exactly when its font is
      a non-preferred serif face, an italic finding exactly when it is long
      italic text; all are for the run's shape and slide, in check order. */
  lemma RunFindingsSpec(run: TextRun, shapeId: int, idx: nat, settings: Settings)
    ensures var fs := RunFindings(run, shapeId, idx, settings);
      && |fs| <= 3
      && (forall f :: f in fs ==> FontFinding(f) && f.slideNumber == idx + 1 && f.shapeId == Some(IntToString(shapeId)))
      && ((exists f :: f in fs && f.title == TooSmall) <==> TooSmallText(run, settings))
      && ((exists f :: f in fs && f.title == SerifDetected) <==> SerifText(run, settings))
      && ((exists f :: f in fs && f.title == ExcessiveItalic) <==> LongItalicText(run))
      && (TooSmallText(run, settings) ==>
            (fs[0].title == TooSmall
             && fs[0].metadata["current_size"] == Real(run.fontSize.value)
             && fs[0].metadata["recommended_size"] == Int(settings.minFontSize)))
      && (LongItalicText(run) ==>
            (fs[|fs| - 1].title == ExcessiveItalic
             && fs[|fs| - 1].metadata["text_length"] == Int(|run.text|)))
  {
    var size := SizeFinding(run, shapeId, idx, settings);
    var serif := SerifFinding(run, shapeId, idx, settings);
    var italic := ItalicFinding(run, shapeId, idx);
    assert && ForRun(size, shapeId, idx) && (size.Some? <==> TooSmallText(run, settings))
           && (size.Some? ==> size.value.title == TooSmall
                              && size.value.metadata["current_size"] == Real(run.fontSize.value)
                              && size.value.metadata["recommended_size"] == Int(settings.minFontSize))
           && ForRun(serif, shapeId, idx) && (serif.Some? <==> SerifText(run, settings))
           && (serif.Some? ==> serif.value.title == SerifDetected)
           && ForRun(italic, shapeId, idx) && (italic.Some? <==> LongItalicText(run))
           && (italic.Some? ==> italic.value.title == ExcessiveItalic
                                && italic.value.metadata["text_length"] == Int(|run.text|))
    by {
      ChecksSpec(run, shapeId, idx, settings);
    }
    var fs := OptionToSeq(size) + OptionToSeq(serif) + OptionToSeq(italic);
    assert RunFindings(run, shapeId, idx, settings) == fs;
    assert forall f :: f in fs <==> (size.Some? && f == size.value) || (serif.Some? && f == serif.value)
                                    || (italic.Some? && f == italic.value);
  }

  /** None of the default preferred fonts looks serif. */
  lemma DefaultFontsSansSerif()
    ensures forall name :: name in DefaultPreferredFonts ==> !LooksSerif(name)
  {
    forall name | name in DefaultPreferredFonts
      ensures !LooksSerif(name)
    {
      forall i | 0 <= i < |SerifFonts|
        ensures !Contains(name, SerifFonts[i])
      {
        NotContained(name, SerifFonts[i]);
      }
    }
  }

  lemma NotContained(name: string, serif: string)
    requires name in DefaultPreferredFonts && serif in SerifFonts
    ensures !Contains(name, serif)
  {
    if |serif| <= |name| {
      FirstCharMissing(name, serif);
    }
  }

  /** With the default preferences the preference test never decides
      anything: a run is reported as serif exactly when it names a font that
      looks serif. */
  lemma DefaultSerifTest(run: TextRun)
    ensures SerifText(run, SettingsOf(map[])) <==> |run.fontName| > 0 && LooksSerif(run.fontName)
  {
    DefaultFontsSansSerif();
  }

  /** `FontsRule.apply_fix` reports success on exactly the rule's size findings. */
  lemma ApplyFixOnSizeFindings(deck: Presentation, config: Metadata)
    requires ValidConfig(config) && Findings(deck, config).Ok?
    ensures forall f :: f in Findings(deck, config).value ==> (ApplyFix(f) <==> f.title == TooSmall)
  {
    FindingsOrdered(deck, config);
  }

  /** The rule raises exactly when reading some slide's text shapes raises. */
  lemma FindingsFail(deck: Presentation, config: Metadata)
    requires ValidConfig(config)
    ensures Findings(deck, config).Error? <==> exists i :: 0 <= i < |deck.slides| && deck.slides[i].textShapes.Error?
  {
    var finder := SlideFinder(SettingsOf(config));
    ScanFails(deck.slides, finder, |deck.slides|);
    forall i | 0 <= i < |deck.slides|
      ensures finder(deck.slides[i], i).Error? <==> deck.slides[i].textShapes.Error?
    {}
  }

  /** Every finding of one slide is a font finding for that slide. */
  lemma SlideFindingsAreFontFindings(slide: Slide, idx: nat, settings: Settings)
    requires slide.textShapes.Ok?
    ensures forall f :: f in SlideFindings(slide, idx, settings).value ==> FontFinding(f) && f.slideNumber == idx + 1
  {
    var onSlide := (f: Finding) => FontFinding(f) && f.slideNumber == idx + 1;
    var shapes := slide.textShapes.value;
    forall shape | shape in shapes
      ensures forall f :: f in ShapeFinder(idx, settings)(shape) ==> onSlide(f)
    {
      if shape.textFrame.Some? {
        var runs := shape.textFrame.value;
        forall run | run in runs
          ensures forall f :: f in RunFinder(shape.shapeId, idx, settings)(run) ==> onSlide(f)
        {
          RunFindingsSpec(run, shape.shapeId, idx, settings);
        }
        FlatMapAll(runs, RunFinder(shape.shapeId, idx, settings), onSlide);
      }
    }
    FlatMapAll(shapes, ShapeFinder(idx, settings), onSlide);
  }

  /** The rule's findings are font findings, ordered by slide. */
  lemma FindingsOrdered(deck: Presentation, config: Metadata)
    requires ValidConfig(config) && Findings(deck, config).Ok?
    ensures var fs := Findings(deck, config).value;
      && (forall f :: f in fs ==> FontFinding(f) && 1 <= f.slideNumber <= |deck.slides|)
      && (forall i, j :: 0 <= i < j < |fs| ==> fs[i].slideNumber <= fs[j].slideNumber)
  {
    var settings := SettingsOf(config);
    var finder := SlideFinder(settings);
    forall i | 0 <= i < |deck.slides| && finder(deck.slides[i], i).Ok?
      ensures forall f :: f in finder(deck.slides[i], i).value ==> FontFinding(f) && f.slideNumber == i + 1
    {
      SlideFindingsAreFontFindings(deck.slides[i], i, settings);
    }
    ScanOrdered(deck.slides, finder, |deck.slides|, (f: Finding) => f.slideNumber, FontFinding);
  }
}
