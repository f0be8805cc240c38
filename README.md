# PowerPoint accessibility checker: the rule engine in Dafny

This project models the rule engine of the accessibility checker for slide
decks:

- the WCAG colour mathematics: hex parsing and formatting, relative
  luminance, contrast ratio, the AA and AAA thresholds, and the step-wise
  search for a darker or lighter replacement colour;
- the finding data model: severities, action types, findings and their
  dictionary form, and a rule's own score;
- three rules:
  - rule_01, structure: slide titles and blank layouts;
  - rule_03, colour contrast: text against the assumed white background;
  - rule_04, fonts: size, serif faces and long italic runs;
- the orchestrator, which:
  - runs the enabled rules in order;
  - skips unknown ids;
  - isolates a rule that raises;
  - groups the findings by severity and by slide;
  - computes the overall score and grade;
- the detection of an uploaded file's type from its magic bytes.

The deck itself is an abstract value (`Document`). It holds the slides with
their titles, layout names and text shapes, and each text run's text, font,
size, style flags and colour. It stands in for the presentation reader. A
slide's text shapes are a `Result`, so that a reader failure, which is the
way a rule raises, is part of the model.

Files and modules:

| file | module |
|---|---|
| `results.dfy` | Results |
| `text.dfy` | Text (Python string and rounding behaviour) |
| `document.dfy` | Document |
| `colors.dfy` | Colors |
| `rulebase.dfy` | RuleBase |
| `scan.dfy` | Scan (the slide, shape and run walk every rule shares) |
| `structure.dfy` | Structure |
| `contrast.dfy` | Contrast |
| `fonts.dfy` | Fonts |
| `analyzer.dfy` | Analyzer |
| `filetype.dfy` | FileType |

Each rule's `analyze` is a method with a loop over the slides. The loop calls
per-slide, per-shape and per-run methods. Each of these is proved equal to a
specification function: `Findings`, `SlideFindings`, `ShapeFindings`,
`RunFinding(s)`. The rule's properties are lemmas about those functions. The
orchestrator works the same way: `AnalyzePresentation` and its loop
`RunRules` are proved against `AllFindings` and `RuleResults`.

## Model

| member | source | states |
|---|---|---|
| Colors.HexToRgbDigits | src/pptx_accessibility/utils/color_utils.py:7-17 | parsing succeeds exactly when, after the leading '#'s, at least five characters remain and the first six (or five) are hex digits; each channel is the two-digit base-16 value of its field |
| Colors.ParseFieldAt | src/pptx_accessibility/utils/color_utils.py:17 | one field `[i:i+2]` parses exactly when it has one or two hex digits, and then gives their value |
| Colors.StripHashesSuffix | src/pptx_accessibility/utils/color_utils.py:16 | `lstrip('#')` drops exactly the leading '#' characters and keeps the rest as a suffix |
| Colors.RgbToHex | src/pptx_accessibility/utils/color_utils.py:20-31 | the result is '#' followed by six lower-case hex digits |
| Colors.HexByte | src/pptx_accessibility/utils/color_utils.py:31 | a channel prints as two lower-case hex digits that parse back to it |
| Colors.HexRoundTrip | src/pptx_accessibility/utils/color_utils.py:7-31 | parsing a formatted colour gives the colour back |
| Colors.HexNormalRoundTrip | src/pptx_accessibility/utils/color_utils.py:7-31 | a '#rrggbb' string in lower case parses, and formats back to itself |
| Colors.GammaCorrect | src/pptx_accessibility/utils/color_utils.py:47-50 | maps [0,1] into [0,1], 0 to 0 and 1 to 1 |
| Colors.RelativeLuminance | src/pptx_accessibility/utils/color_utils.py:34-57 | luminance lies in [0,1]; black has 0 and white has 1 |
| Colors.RatioOf | src/pptx_accessibility/utils/color_utils.py:76-81 | the ratio of two luminances is at least 1, at most 21, and 1 for equal luminances |
| Colors.RatioSymmetric | src/pptx_accessibility/utils/color_utils.py:76-78 | swapping so that the lighter colour comes first makes the ratio symmetric |
| Colors.ContrastRatio | src/pptx_accessibility/utils/color_utils.py:60-81 | fails exactly when either colour fails to parse; otherwise lies in [1,21] and is the ratio of the two luminances |
| Colors.ContrastSymmetric | src/pptx_accessibility/utils/color_utils.py:60-81 | the order of the colours changes neither success nor value |
| Colors.ContrastSelf | src/pptx_accessibility/utils/color_utils.py:60-81 | a colour against itself has ratio 1 |
| Colors.BlackOnWhite | src/pptx_accessibility/utils/color_utils.py:60-81 | '#000000' against '#FFFFFF' has the maximal ratio 21 |
| Colors.MeetsAA | src/pptx_accessibility/utils/color_utils.py:84-96 | passes exactly when the ratio is at least 3.0 (large text) or 4.5 (normal text) |
| Colors.MeetsAAA | src/pptx_accessibility/utils/color_utils.py:99-111 | passes exactly when the ratio is at least 4.5 (large text) or 7.0 (normal text) |
| Colors.ThresholdsOrdered | src/pptx_accessibility/utils/color_utils.py:84-111 | AAA implies AA; normal-text compliance implies large-text compliance; compliance is kept by a higher ratio |
| Colors.DarkerStepsMonotone | src/pptx_accessibility/utils/color_utils.py:129-130 | each darker step lowers every channel no more than the next step does, and never raises it |
| Colors.LighterStepsMonotone | src/pptx_accessibility/utils/color_utils.py:156-157 | each lighter step raises every channel no more than the next step does, never past 255 |
| Colors.FirstMeeting | src/pptx_accessibility/utils/color_utils.py:129-135 | the search returns the first step whose outcome meets the target, reports that none did, or returns the first error |
| Colors.SuggestFinds | src/pptx_accessibility/utils/color_utils.py:114-165 | with both colours well formed, the result is the first of steps 1..19 that meets the target; when none does, it is the fallback (black or white) |
| Colors.SuggestSound | src/pptx_accessibility/utils/color_utils.py:114-165 | the suggestion parses; it meets the target against the background, or it is the fallback and none of steps 1 to 19 met it; it lies between the colour and black (or white) |
| Colors.SearchSteps | src/pptx_accessibility/utils/color_utils.py:129-138 | the loop of the search computes exactly the specified suggestion, stopping at the first step that meets the target |
| Colors.SuggestDarkerColor | src/pptx_accessibility/utils/color_utils.py:114-138 | equals the darker suggestion, with defaults 4.5 and '#FFFFFF'; raises on a malformed colour |
| Colors.SuggestLighterColor | src/pptx_accessibility/utils/color_utils.py:141-165 | equals the lighter suggestion, with defaults 4.5 and '#000000'; raises on a malformed colour |
| RuleBase.SeverityOf | src/pptx_accessibility/rules/base.py:12-19 | looking a value up gives a severity whose value it is |
| RuleBase.SeverityRoundTrip | src/pptx_accessibility/rules/base.py:12-19 | every severity is found again from its value |
| RuleBase.ActionOf | src/pptx_accessibility/rules/base.py:22-27 | looking a value up gives an action type whose value it is |
| RuleBase.ActionRoundTrip | src/pptx_accessibility/rules/base.py:22-27 | every action type is found again from its value |
| RuleBase.ToDict | src/pptx_accessibility/rules/base.py:44-56 | the dictionary has exactly the nine field names as keys |
| RuleBase.DictRoundTrip | src/pptx_accessibility/rules/base.py:30-56 | reading a finding back from its dictionary gives the same finding |
| RuleBase.NewRuleState | src/pptx_accessibility/rules/base.py:62-69 | no configuration means an empty one; `enabled` is the configured value, true by default |
| RuleBase.CalculateScore | src/pptx_accessibility/rules/base.py:118-145 | the score lies in [0,100] and is 100 without findings |
| RuleBase.ScoreClosedForm | src/pptx_accessibility/rules/base.py:127-145 | with findings, the score is 100 minus the total weight, or 0 once the weight reaches 100 |
| RuleBase.ScoreNeverRises | src/pptx_accessibility/rules/base.py:118-145 | one more finding never raises the score |
| RuleBase.InfoIsNeutral | src/pptx_accessibility/rules/base.py:131-139 | an informational finding leaves the score unchanged |
| RuleBase.TenCriticalsScoreZero | src/pptx_accessibility/rules/base.py:141-144 | ten critical findings bring the score to 0 |
| RuleBase.WeightOfCriticals | src/pptx_accessibility/rules/base.py:131-139 | the total weight is at least 10 per critical finding |
| RuleBase.SupportsFileType | src/pptx_accessibility/rules/base.py:147-158 | every file type is supported |
| Structure.TitleFinding | src/pptx_accessibility/rules/rule_01_structure.py:39-69 | a finding exactly when the title is missing, empty or shorter than 3 characters; missing is critical, short is medium; a slide-level suggestion for that slide whose metadata is the layout name when missing, the title and its length when short |
| Structure.NonPlaceholderCount | src/pptx_accessibility/rules/rule_01_structure.py:75-76 | the count is 0 exactly when every shape is a placeholder |
| Structure.LayoutFinding | src/pptx_accessibility/rules/rule_01_structure.py:71-92 | raises exactly when the layout is blank and the text shapes cannot be read; gives a finding exactly when a blank layout has a non-placeholder shape, whose metadata is the layout name and that count |
| Structure.CheckSlide | src/pptx_accessibility/rules/rule_01_structure.py:36-92 | one slide's checks give the title finding, then the layout finding |
| Structure.Analyze | src/pptx_accessibility/rules/rule_01_structure.py:23-94 | the slide loop returns the specified findings, or the first reader error |
| Structure.ApplyFix | src/pptx_accessibility/rules/rule_01_structure.py:96-111 | no fix is ever applied |
| Structure.SlideFindingsShape | src/pptx_accessibility/rules/rule_01_structure.py:39-92 | a slide gives at most two findings, the title finding before the layout finding |
| Structure.FindingsOrdered | src/pptx_accessibility/rules/rule_01_structure.py:23-94 | at most two findings per slide, all slide-level suggestions with valid slide numbers, ordered by slide |
| Structure.FindingsFail | src/pptx_accessibility/rules/rule_01_structure.py:71-75 | the rule raises exactly when some blank-layout slide cannot give its text shapes; no slides means no findings |
| Contrast.LargeTextFlag | src/pptx_accessibility/rules/rule_03_contrast.py:66-69 | the stored flag is truthy exactly for 18pt and up, or 14pt and up in bold |
| Contrast.RequiredRatio | src/pptx_accessibility/rules/rule_03_contrast.py:87 | the target passed to the search is exactly the AA threshold for the text's size |
| Contrast.CheckRun | src/pptx_accessibility/rules/rule_03_contrast.py:51-114 | one run's check gives the specified finding; a run without colour, or whose colour analysis raises, gives none |
| Contrast.CheckShape | src/pptx_accessibility/rules/rule_03_contrast.py:42-50 | a shape gives its runs' findings in order, none without a text frame |
| Contrast.Analyze | src/pptx_accessibility/rules/rule_03_contrast.py:29-116 | the slide loop returns the specified findings, or the first reader error |
| Contrast.ApplyFix | src/pptx_accessibility/rules/rule_03_contrast.py:118-133 | no fix is ever applied |
| Contrast.RunFlagged | src/pptx_accessibility/rules/rule_03_contrast.py:51-89 | a run is reported exactly when it has a non-empty colour that parses and whose ratio against white fails AA for its size |
| Contrast.SuggestionMeets | src/pptx_accessibility/rules/rule_03_contrast.py:85-89 | against white, the darker search always succeeds and its suggestion meets the target; the suggestion lies between the colour and black |
| Contrast.RunFindingSound | src/pptx_accessibility/rules/rule_03_contrast.py:74-110 | a reported run's ratio is below the requirement; the finding has the title, the severity for its ratio and the current, background (white), ratio, required, suggested, large-text and preview metadata; its suggested colour meets the requirement |
| Contrast.LargeTextNeverMedium | src/pptx_accessibility/rules/rule_03_contrast.py:74-81 | a failing large run is critical or high, never medium |
| Contrast.SeverityMonotone | src/pptx_accessibility/rules/rule_03_contrast.py:76-81 | a lower ratio never gets a lighter severity |
| Contrast.FindingsFail | src/pptx_accessibility/rules/rule_03_contrast.py:39-40 | the rule raises exactly when some slide cannot give its text shapes |
| Contrast.SlideFindingsAreFixes | src/pptx_accessibility/rules/rule_03_contrast.py:91-110 | every finding of a slide is a shape-level automatic fix for that slide |
| Contrast.FindingsOrdered | src/pptx_accessibility/rules/rule_03_contrast.py:29-116 | all findings are shape-level automatic fixes with valid slide numbers, ordered by slide |
| Fonts.SettingsOf | src/pptx_accessibility/rules/rule_04_fonts.py:32-35 | the configured minimum size and preferred fonts, or the defaults 24 and the six sans-serif names |
| Fonts.ChecksSpec | src/pptx_accessibility/rules/rule_04_fonts.py:51-105 | each check fires exactly under its condition and gives its finding with its title; the size finding carries the current and recommended sizes and a 50-character preview, the serif finding its fix and the current font with Arial suggested, the italic finding its fix and the text length |
| Fonts.RunFindingsSpec | src/pptx_accessibility/rules/rule_04_fonts.py:51-105 | a run gives at most three findings, each for its own condition; size comes first and italic last |
| Fonts.CheckRun | src/pptx_accessibility/rules/rule_04_fonts.py:50-105 | one run's checks give the specified findings |
| Fonts.CheckShape | src/pptx_accessibility/rules/rule_04_fonts.py:42-50 | a shape gives its runs' findings in order, none without a text frame |
| Fonts.CheckSlide | src/pptx_accessibility/rules/rule_04_fonts.py:39-105 | one slide gives its shapes' findings in order, or the error reading its text shapes raised |
| Fonts.CheckSlides | src/pptx_accessibility/rules/rule_04_fonts.py:37-107 | under fixed settings, the slide loop gives every slide's findings in order, or the error of the first slide whose text shapes cannot be read |
| Fonts.Analyze | src/pptx_accessibility/rules/rule_04_fonts.py:23-107 | the slide loop returns the specified findings, or the first reader error |
| Fonts.ApplyFix | src/pptx_accessibility/rules/rule_04_fonts.py:109-127 | a fix is applied exactly for automatic-fix findings |
| Fonts.ApplyFixOnSizeFindings | src/pptx_accessibility/rules/rule_04_fonts.py:54-68 | of the rule's findings, exactly the size findings are fixed |
| Fonts.DefaultFontsSansSerif | src/pptx_accessibility/rules/rule_04_fonts.py:33-35 | no default preferred font looks serif |
| Fonts.DefaultSerifTest | src/pptx_accessibility/rules/rule_04_fonts.py:71-75 | with the defaults, a run is reported as serif exactly when its font is named and contains a serif name |
| Fonts.FindingsFail | src/pptx_accessibility/rules/rule_04_fonts.py:39-40 | the rule raises exactly when some slide cannot give its text shapes |
| Fonts.SlideFindingsAreFontFindings | src/pptx_accessibility/rules/rule_04_fonts.py:54-105 | every finding of a slide has the severity and action of its kind (medium automatic fix for small text, low suggestion for serif and italic) and that slide's number |
| Fonts.FindingsOrdered | src/pptx_accessibility/rules/rule_04_fonts.py:23-107 | all findings are well-formed font findings with valid slide numbers, ordered by slide |
| Analyzer.NewAnalyzer | src/pptx_accessibility/core/analyzer.py:17-23 | three rules registered as rule_01, rule_03, rule_04 in that order, each without configuration |
| Analyzer.GetAvailableRules | src/pptx_accessibility/core/analyzer.py:185-198 | one entry per registered rule, whose rule_id is its key and whose name and description are those of the registered rule |
| Analyzer.AvailableRulesOfNew | src/pptx_accessibility/core/analyzer.py:185-198 | the fresh registry lists the three rules with their names and descriptions |
| Analyzer.RunRule | src/pptx_accessibility/core/analyzer.py:62 | running a rule gives that rule's findings or error |
| Analyzer.RunEntry | src/pptx_accessibility/core/analyzer.py:53-70 | an unknown id is skipped; a rule that raises adds no finding |
| Analyzer.RunRules | src/pptx_accessibility/core/analyzer.py:49-70 | the rule loop collects the specified findings and per-rule counts |
| Analyzer.AnalyzePresentation | src/pptx_accessibility/core/analyzer.py:25-95 | the report holds the collected findings in dictionary form, their groupings, the per-rule counts, the scores, the slide count, the ids run and the title |
| Analyzer.AllFindingsAppend | src/pptx_accessibility/core/analyzer.py:53-70 | the findings of a list of entries are those of its parts, in order |
| Analyzer.FailureIsolated | src/pptx_accessibility/core/analyzer.py:54-70 | an unknown id, or a rule that raises, leaves the findings of all other entries unchanged |
| Analyzer.RuleResultsSpec | src/pptx_accessibility/core/analyzer.py:63-70 | the per-rule counts name exactly the registered ids that were run; each counts that rule's findings, zero when it raised |
| Analyzer.RuleResultsTotal | src/pptx_accessibility/core/analyzer.py:63-88 | without repeated ids, the per-rule counts add up to the total number of findings |
| Analyzer.DefaultOrder | src/pptx_accessibility/core/analyzer.py:17-23 | by default the findings are those of structure, then contrast, then fonts |
| Analyzer.EmptyDeck | src/pptx_accessibility/core/analyzer.py:107-108 | a deck without slides gives no findings and the fixed perfect score |
| Analyzer.GroupBySeverity | src/pptx_accessibility/core/analyzer.py:153-161 | the groups are exactly the five severity names |
| Analyzer.SeverityGroupsTotal | src/pptx_accessibility/core/analyzer.py:153-161 | the five counts add up to the number of findings |
| Analyzer.GroupBySlide | src/pptx_accessibility/core/analyzer.py:163-169 | the counting loop gives the specified per-slide counts |
| Analyzer.CountOnSlide | src/pptx_accessibility/core/analyzer.py:163-169 | a slide's count is at most the number of findings, zero exactly when no finding is on that slide, and all of them exactly when every finding is |
| Analyzer.SlideCountsSpec | src/pptx_accessibility/core/analyzer.py:163-169 | the keys are exactly the slides with findings; each count is that slide's number of findings, and positive |
| Analyzer.SlideCountsTotal | src/pptx_accessibility/core/analyzer.py:163-169 | the per-slide counts add up to the number of findings |
| Analyzer.CalculateScores | src/pptx_accessibility/core/analyzer.py:97-151 | perfect exactly for zero slides; otherwise the score is the penalty-based score rounded to one decimal and lies in [0,100], the grade is that of the unrounded score, the counts and total are those of the findings, and the issues per slide are their count over the slides rounded to two decimals |
| Analyzer.OverallScore | src/pptx_accessibility/core/analyzer.py:130-131 | the unrounded score lies in [0,100] |
| Analyzer.PenaltyAppend | src/pptx_accessibility/core/analyzer.py:121-127 | one more finding adds 10, 5, 2, 1 or 0.5 by severity |
| Analyzer.GradeMonotone | src/pptx_accessibility/core/analyzer.py:134-143 | a higher score never has a worse grade |
| Analyzer.OverallNeverRises | src/pptx_accessibility/core/analyzer.py:121-131 | one more finding never raises the unrounded score |
| Analyzer.ScoreNeverRises | src/pptx_accessibility/core/analyzer.py:121-146 | one more finding never raises the reported score nor improves the grade |
| Analyzer.NoFindingsPerfect | src/pptx_accessibility/core/analyzer.py:130-146 | slides without findings score 100, grade A |
| Analyzer.TwoHighOnTenSlides | src/pptx_accessibility/core/analyzer.py:97-151 | two high findings on ten slides score 99.0, grade A, 0.2 issues per slide |
| Analyzer.GradeBeforeRounding | src/pptx_accessibility/core/analyzer.py:134-146 | the grade comes from the unrounded score: a reported 90.0 can carry grade B |
| FileType.DetectFileType | src/pptx_accessibility/core/session_manager.py:80-111 | 'pptx' exactly for content starting with the ZIP signature, 'pdf' exactly for '%PDF'; otherwise an error naming the file |
| FileType.MagicExclusive | src/pptx_accessibility/core/session_manager.py:96-109 | no content carries both signatures |
| FileType.NameIrrelevant | src/pptx_accessibility/core/session_manager.py:93-109 | when the content is recognised, the file name does not change the answer |
| FileType.ShortContentRefused | src/pptx_accessibility/core/session_manager.py:105-111 | content shorter than four bytes is refused whatever its name |
| FileType.MisnamedPdf | src/pptx_accessibility/core/session_manager.py:96-109 | PDF content in a file named .pptx is detected as a PDF |

## Left out

- Input and output are left out: the presentation reader, logging, the asynchronous calls, the HTTP layer and the session store. The deck is a value; a reader failure is an `Error` in a slide's text shapes.
- The `context` argument of `analyze` and `analyze_presentation` is left out, because no modelled rule reads it.
- Colors.GammaCorrect: `x ** 2.4` has no closed form over the reals. A rational stand-in is used instead. It is exact at 0 and 1, maps [0,1] into [0,1], and is within 7e-4 of the real power. Only those three facts are used in proofs, so luminance and ratio values are approximate while their bounds are exact.
- Floating point is modelled as exact real arithmetic. Python's `round` is modelled as round-half-even of the exact value, and `:.1f` as fixed-point formatting of it. Binary representation effects are left out. These include the float product in `int(c * (1 - k * 0.05))`, modelled as `c * (20 - k) / 20`.
- Colors.HexToRgb: Python's `int(s, 16)` also accepts surrounding white space, a sign and non-ASCII digits inside a field. Only one or two ASCII hex digits are modelled.
- Text.Lower models `str.lower` for ASCII letters and the Kelvin sign only. That covers the source's uses: "blank" in a layout name, and the ".pptx" and ".pdf" extensions.
- Fonts.Analyze requires `min_font_size` to be an integer and `preferred_fonts` to be a list, when given. With other types (a float size, a string or mapping of fonts) Python compares or tests membership differently, or raises, only when a run reaches that check. Those configurations are not modelled.
- A run's style flags, which the reader reports as true, false or unset, are booleans here; unset counts as false, as every check in the source treats it.
- Dictionary key order in the report is left out: the groupings and counts are maps.
- `enabled` is stored by the rule constructor (RuleBase.NewRuleState) but never consulted, as in the source.
- The contrast rule's background is the fixed white the source assumes. The rule never reads a real background.
- The contrast rule emits automatic-fix findings, yet its `apply_fix` never applies one (Contrast.ApplyFix). This is modelled as written.
