/** The analysis orchestrator: a registry of the three rules, the run over the
    enabled rules with per-rule failure isolation, and the report built from
    the collected findings (counts by severity and by slide, score and grade). */
module Analyzer {
  import opened Results
  import opened Text
  import opened Document
  import opened RuleBase
  import Structure
  import Contrast
  import Fonts

  // ---------------------------------------------------------------------------
  // The registry
  // ---------------------------------------------------------------------------

  datatype RuleKind = StructureRule | ContrastRule | FontsRule

  /** A rule instance: which rule it is and the state its constructor stored. */
  datatype Rule = Rule(kind: RuleKind, state: RuleState)

  function KindId(kind: RuleKind): string {
    match kind
    case StructureRule => Structure.RuleId
    case ContrastRule => Contrast.RuleId
    case FontsRule => Fonts.RuleId
  }

  function KindName(kind: RuleKind): string {
    match kind
    case StructureRule => Structure.RuleName
    case ContrastRule => Contrast.RuleName
    case FontsRule => Fonts.RuleName
  }

  function KindDescription(kind: RuleKind): string {
    match kind
    case StructureRule => Structure.Description
    case ContrastRule => Contrast.Description
    case FontsRule => Fonts.Description
  }

  /** The fonts rule can only read a configuration of the expected shape. */
  predicate RuleReady(rule: Rule) {
    rule.kind == FontsRule ==> Fonts.ValidConfig(rule.state.config)
  }

  /** The analyzer's registry: rule ids in registration order, and the rule
      registered under each. */
  datatype Analyzer = Analyzer(ruleIds: seq<string>, availableRules: map<string, Rule>)

  /** Every registered id is listed, every rule is registered under its own
      id and can run. */
  predicate Valid(a: Analyzer) {
    && (forall id :: id in a.ruleIds ==> id in a.availableRules)
    && (forall id :: id in a.availableRules ==> id in a.ruleIds)
    && (forall id :: id in a.availableRules ==>
          RuleReady(a.availableRules[id]) && KindId(a.availableRules[id].kind) == id)
  }

  /** `AccessibilityAnalyzer.__init__`: the three rules, each built without a
      configuration, registered as rule_01, rule_03, rule_04 in that order. */
  function NewAnalyzer(): (a: Analyzer)
    ensures Valid(a)
    ensures a.ruleIds == ["rule_01", "rule_03", "rule_04"]
    ensures a.availableRules.Keys == {"rule_01", "rule_03", "rule_04"}
    ensures forall id :: id in a.availableRules ==> a.availableRules[id].state == NewRuleState(None)
  {
    var initial := NewRuleState(None);
    Analyzer(
      [Structure.RuleId, Contrast.RuleId, Fonts.RuleId],
      map[
        Structure.RuleId := Rule(StructureRule, initial),
        Contrast.RuleId := Rule(ContrastRule, initial),
        Fonts.RuleId := Rule(FontsRule, initial)])
  }

  /** `get_available_rules`: id, name and description of every registered rule. */
  function GetAvailableRules(a: Analyzer): (info: map<string, map<string, string>>)
    requires Valid(a)
    ensures info.Keys == a.availableRules.Keys
    ensures forall id :: id in info ==> info[id].Keys == {"rule_id", "name", "description"} && info[id]["rule_id"] == id
    ensures forall id :: id in info ==>
              && info[id]["name"] == KindName(a.availableRules[id].kind)
              && info[id]["description"] == KindDescription(a.availableRules[id].kind)
  {
    map id | id in a.availableRules ::
      map[
        "rule_id" := KindId(a.availableRules[id].kind),
        "name" := KindName(a.availableRules[id].kind),
        "description" := KindDescription(a.availableRules[id].kind)]
  }

  // ---------------------------------------------------------------------------
  // Running the rules
  // ---------------------------------------------------------------------------

  /** What a rule's `analyze` returns or raises for the deck. */
  function RuleAnalyze(rule: Rule, deck: Presentation): Result<seq<Finding>>
    requires RuleReady(rule)
  {
    match rule.kind
    case StructureRule => Structure.Findings(deck)
    case ContrastRule => Contrast.Findings(deck)
    case FontsRule => Fonts.Findings(deck, rule.state.config)
  }

  /** Calls the rule's analysis. */
  method RunRule(rule: Rule, deck: Presentation) returns (r: Result<seq<Finding>>)
    requires RuleReady(rule)
    ensures r == RuleAnalyze(rule, deck)
  {
    match rule.kind
    case StructureRule => r := Structure.Analyze(deck);
    case ContrastRule => r := Contrast.Analyze(deck);
    case FontsRule => r := Fonts.Analyze(deck, rule.state.config);
  }

  /** The findings one entry of the enabled list adds: those of the rule when
      it is registered and does not raise, none otherwise. */
  function Contribution(a: Analyzer, deck: Presentation, id: string): seq<Finding>
    requires Valid(a)
  {
    if id in a.availableRules then
      match RuleAnalyze(a.availableRules[id], deck)
      case Ok(fs) => fs
      case Error(_) => []
    else []
  }

  /** One entry of the enabled list: skip an unknown id; otherwise run the
      rule and keep its findings, or none when it raises. */
  method RunEntry(a: Analyzer, deck: Presentation, id: string) returns (ran: bool, found: seq<Finding>)
    requires Valid(a)
    ensures ran <==> id in a.availableRules
    ensures found == Contribution(a, deck, id)
  {
    if id !in a.availableRules {
      return false, [];
    }
    var r := RunRule(a.availableRules[id], deck);
    ran := true;
    found := if r.Ok? then r.value else [];
  }

  /** `all_findings` after the entries `ids`. */
  function AllFindings(a: Analyzer, deck: Presentation, ids: seq<string>): seq<Finding>
    requires Valid(a)
  {
    if |ids| == 0 then []
    else AllFindings(a, deck, ids[..|ids| - 1]) + Contribution(a, deck, ids[|ids| - 1])
  }

  /** `rule_results` (as counts) after the entries `ids`: every registered
      rule that ran maps to how many findings it added. */
  function RuleResults(a: Analyzer, deck: Presentation, ids: seq<string>): map<string, nat>
    requires Valid(a)
  {
    if |ids| == 0 then map[]
    else
      var earlier := RuleResults(a, deck, ids[..|ids| - 1]);
      var id := ids[|ids| - 1];
      if id in a.availableRules then earlier[id := |Contribution(a, deck, id)|] else earlier
  }

  /** The list of rules to run: the given one, or every registered rule. */
  function EnabledIds(a: Analyzer, enabledRules: Option<seq<string>>): seq<string> {
    enabledRules.GetOr(a.ruleIds)
  }

  // ---------------------------------------------------------------------------
  // Counting by severity and by slide
  // ---------------------------------------------------------------------------

  const SeverityKeys: set<string> := {"critical", "high", "medium", "low", "info"}

  /** `_group_by_severity` (also the `severity_counts` of the scores). */
  function GroupBySeverity(fs: seq<Finding>): (counts: map<string, nat>)
    ensures counts.Keys == SeverityKeys
  {
    map[
      "critical" := CountSeverity(fs, Critical),
      "high" := CountSeverity(fs, High),
      "medium" := CountSeverity(fs, Medium),
      "low" := CountSeverity(fs, Low),
      "info" := CountSeverity(fs, Info)]
  }

  /** The number of findings for slide `slide`. */
  function CountOnSlide(fs: seq<Finding>, slide: int): (n: nat)
    ensures n <= |fs|
    ensures n == 0 <==> forall i :: 0 <= i < |fs| ==> fs[i].slideNumber != slide
    ensures n == |fs| <==> forall i :: 0 <= i < |fs| ==> fs[i].slideNumber == slide
  {
    if |fs| == 0 then 0
    else CountOnSlide(fs[..|fs| - 1], slide) + (if fs[|fs| - 1].slideNumber == slide then 1 else 0)
  }

  /** The per-slide counts after counting the findings `fs` in order. */
  function SlideCounts(fs: seq<Finding>): map<int, nat> {
    if |fs| == 0 then map[]
    else
      var counts := SlideCounts(fs[..|fs| - 1]);
      var slide := fs[|fs| - 1].slideNumber;
      counts[slide := (if slide in counts then counts[slide] else 0) + 1]
  }

  /** `_group_by_slide`: one pass that bumps the count of each finding's slide. */
  method GroupBySlide(fs: seq<Finding>) returns (slideCounts: map<int, nat>)
    ensures slideCounts == SlideCounts(fs)
  {
    slideCounts := map[];
    for i := 0 to |fs|
      invariant slideCounts == SlideCounts(fs[..i])
    {
      assert fs[..i + 1][..i] == fs[..i];
      var slide := fs[i].slideNumber;
      slideCounts := slideCounts[slide := (if slide in slideCounts then slideCounts[slide] else 0) + 1];
    }
    assert fs[..|fs|] == fs;
  }

  /** The sum of the values of `m` at the keys `keys`. */
  ghost function SumOver<K>(m: map<K, nat>, keys: set<K>): nat
    requires keys <= m.Keys
    decreases keys
  {
    if keys == {} then 0
    else
      var k :| k in keys;
      m[k] + SumOver(m, keys - {k})
  }

  /** The sum of the values of a map. */
  ghost function MapSum<K>(m: map<K, nat>): nat {
    SumOver(m, m.Keys)
  }

  /** The sum does not depend on which key is taken first. */
  lemma {:induction false} SumOverRemove<K>(m: map<K, nat>, keys: set<K>, k: K)
    requires keys <= m.Keys && k in keys
    ensures SumOver(m, keys) == m[k] + SumOver(m, keys - {k})
    decreases keys
  {
    var j :| j in keys && SumOver(m, keys) == m[j] + SumOver(m, keys - {j});
    if j != k {
      SumOverRemove(m, keys - {j}, k);
      SumOverRemove(m, keys - {k}, j);
      assert keys - {j} - {k} == keys - {k} - {j};
    }
  }

  /** Keys whose values agree give the same sum in both maps. */
  lemma {:induction false} SumOverSame<K>(m: map<K, nat>, n: map<K, nat>, keys: set<K>)
    requires keys <= m.Keys && keys <= n.Keys
    requires forall k :: k in keys ==> m[k] == n[k]
    ensures SumOver(m, keys) == SumOver(n, keys)
    decreases keys
  {
    if keys != {} {
      var k :| k in keys && SumOver(m, keys) == m[k] + SumOver(m, keys - {k});
      SumOverRemove(n, keys, k);
      SumOverSame(m, n, keys - {k});
    }
  }

  /** Adding a new key adds its value to the sum. */
  lemma MapSumInsert<K>(m: map<K, nat>, k: K, v: nat)
    requires k !in m
    ensures MapSum(m[k := v]) == MapSum(m) + v
  {
    var n := m[k := v];
    SumOverRemove(n, n.Keys, k);
    assert n.Keys - {k} == m.Keys;
    SumOverSame(n, m, m.Keys);
  }

  /** Changing the value of a key changes the sum by the difference. */
  lemma MapSumUpdate<K>(m: map<K, nat>, k: K, v: nat)
    requires k in m
    ensures MapSum(m[k := v]) + m[k] == MapSum(m) + v
  {
    var n := m[k := v];
    SumOverRemove(n, n.Keys, k);
    SumOverRemove(m, m.Keys, k);
    assert n.Keys - {k} == m.Keys - {k};
    SumOverSame(n, m, m.Keys - {k});
  }

  // ---------------------------------------------------------------------------
  // Scores
  // ---------------------------------------------------------------------------

  /** What `_calculate_scores` returns: the fixed perfect result for a deck
      without slides, otherwise the rounded score, the grade of the unrounded
      score, the severity counts, the number of issues and the rounded
      issues per slide. */
  datatype Scores =
    | Perfect
    | Scored(overallScore: real, grade: string, severityCounts: map<string, nat>,
             totalIssues: nat, issuesPerSlide: real)

  /** The weighted penalty: 10, 5, 2, 1 and 0.5 per critical, high, medium,
      low and informational finding. */
  function Penalty(fs: seq<Finding>): (p: real)
    ensures 0.0 <= p
  {
    (10 * CountSeverity(fs, Critical) + 5 * CountSeverity(fs, High) + 2 * CountSeverity(fs, Medium)
      + CountSeverity(fs, Low)) as real + 0.5 * CountSeverity(fs, Info) as real
  }

  /** The penalty of one finding of severity `s`. */
  function SeverityPenalty(s: Severity): real {
    match s
    case Critical => 10.0
    case High => 5.0
    case Medium => 2.0
    case Low => 1.0
    case Info => 0.5
  }

  /** `max(0, 100 - penalty / slide_count)`, before rounding. */
  function OverallScore(fs: seq<Finding>, slideCount: nat): (score: real)
    requires slideCount > 0
    ensures 0.0 <= score <= 100.0
  {
    var raw := 100.0 - Penalty(fs) / slideCount as real;
    if 0.0 < raw then raw else 0.0
  }

  /** The letter grade of a score: A from 90, B from 75, C from 60, D from 40, F below. */
  function Grade(score: real): string {
    if score >= 90.0 then "A"
    else if score >= 75.0 then "B"
    else if score >= 60.0 then "C"
    else if score >= 40.0 then "D"
    else "F"
  }

  /** The position of a grade from best (A) to worst (F). */
  function GradeRank(grade: string): nat {
    if grade == "A" then 0
    else if grade == "B" then 1
    else if grade == "C" then 2
    else if grade == "D" then 3
    else 4
  }

  /** `_calculate_scores`. */
  function CalculateScores(fs: seq<Finding>, slideCount: nat): (s: Scores)
    ensures s.Perfect? <==> slideCount == 0
    ensures s.Scored? ==>
              && 0.0 <= s.overallScore <= 100.0
              && s.grade == Grade(OverallScore(fs, slideCount))
              && s.severityCounts == GroupBySeverity(fs)
              && s.totalIssues == |fs|
              && s.overallScore == Round(OverallScore(fs, slideCount), 1)
              && s.issuesPerSlide == Round(|fs| as real / slideCount as real, 2)
  {
    if slideCount == 0 then Perfect
    else
      var score := OverallScore(fs, slideCount);
      RoundBetween(score, 0, 100, 1);
      Scored(Round(score, 1), Grade(score), GroupBySeverity(fs), |fs|,
             Round(|fs| as real / slideCount as real, 2))
  }

  // ---------------------------------------------------------------------------
  // The report
  // ---------------------------------------------------------------------------

  /** What `analyze_presentation` returns. `ruleResults` holds the number of
      findings per rule, `bySlide` the number per slide. */
  datatype Report = Report(
    totalFindings: nat,
    findings: seq<map<string, Value>>,
    bySeverity: map<string, nat>,
    bySlide: map<int, nat>,
    ruleResults: map<string, nat>,
    scores: Scores,
    slideCount: nat,
    rulesRun: seq<string>,
    presentationTitle: string)

  /** The rule loop of `analyze_presentation`: every entry in order, with
      the findings collected and the count of each rule that ran. */
  method RunRules(a: Analyzer, deck: Presentation, ids: seq<string>)
    returns (allFindings: seq<Finding>, ruleResults: map<string, nat>)
    requires Valid(a)
    ensures allFindings == AllFindings(a, deck, ids)
    ensures ruleResults == RuleResults(a, deck, ids)
  {
    allFindings := [];
    ruleResults := map[];
    for k := 0 to |ids|
      invariant allFindings == AllFindings(a, deck, ids[..k])
      invariant ruleResults == RuleResults(a, deck, ids[..k])
    {
      var id := ids[k];
      assert ids[..k + 1][..k] == ids[..k];
      var ran, found := RunEntry(a, deck, id);
      allFindings := allFindings + found;
      if ran {
        ruleResults := ruleResults[id := |found|];
      }
    }
    assert ids[..|ids|] == ids;
  }

  /** `analyze_presentation`: run the enabled rules in order, keep going past
      unknown ids and rules that raise, then count, group and score. */
  method AnalyzePresentation(a: Analyzer, deck: Presentation, enabledRules: Option<seq<string>>)
    returns (report: Report)
    requires Valid(a)
    ensures var ids := EnabledIds(a, enabledRules);
      var all := AllFindings(a, deck, ids);
      && report.totalFindings == |all|
      && |report.findings| == |all|
      && (forall i :: 0 <= i < |all| ==> report.findings[i] == ToDict(all[i]))
      && report.bySeverity == GroupBySeverity(all)
      && report.bySlide == SlideCounts(all)
      && report.ruleResults == RuleResults(a, deck, ids)
      && report.scores == CalculateScores(all, |deck.slides|)
      && report.slideCount == |deck.slides|
      && report.rulesRun == ids
      && report.presentationTitle == deck.title
  {
    var ids := EnabledIds(a, enabledRules);
    var allFindings, ruleResults := RunRules(a, deck, ids);
    var bySlide := GroupBySlide(allFindings);
    report := Report(
      |allFindings|,
      seq(|allFindings|, i requires 0 <= i < |allFindings| => ToDict(allFindings[i])),
      GroupBySeverity(allFindings),
      bySlide,
      ruleResults,
      CalculateScores(allFindings, |deck.slides|),
      |deck.slides|,
      ids,
      deck.title);
  }

  // ---------------------------------------------------------------------------
  // Properties of the registry and the rule loop
  // ---------------------------------------------------------------------------

  /** Every registered rule is listed by id with its own name and description. */
  lemma AvailableRulesOfNew()
    ensures var info := GetAvailableRules(NewAnalyzer());
      && info.Keys == {"rule_01", "rule_03", "rule_04"}
      && info["rule_01"]["name"] == Structure.RuleName
      && info["rule_03"]["name"] == Contrast.RuleName
      && info["rule_04"]["name"] == Fonts.RuleName
      && info["rule_01"]["description"] == Structure.Description
      && info["rule_03"]["description"] == Contrast.Description
      && info["rule_04"]["description"] == Fonts.Description
  {
    var a := NewAnalyzer();
    assert a.availableRules["rule_01"].kind == StructureRule;
    assert a.availableRules["rule_03"].kind == ContrastRule;
    assert a.availableRules["rule_04"].kind == FontsRule;
  }

  /** The findings of the entries `ids1` then `ids2` are those of `ids1`
      followed by those of `ids2`. */
  lemma {:induction false} AllFindingsAppend(a: Analyzer, deck: Presentation, ids1: seq<string>, ids2: seq<string>)
    requires Valid(a)
    ensures AllFindings(a, deck, ids1 + ids2) == AllFindings(a, deck, ids1) + AllFindings(a, deck, ids2)
    decreases |ids2|
  {
    if |ids2| == 0 {
      assert ids1 + ids2 == ids1;
    } else {
      var init := ids2[..|ids2| - 1];
      assert (ids1 + ids2)[..|ids1 + ids2| - 1] == ids1 + init;
      AllFindingsAppend(a, deck, ids1, init);
    }
  }

  /** An unknown id, or a rule that raises, adds nothing and leaves the
      findings of every other entry as they were. */
  lemma FailureIsolated(a: Analyzer, deck: Presentation, before: seq<string>, id: string, after: seq<string>)
    requires Valid(a)
    requires id !in a.availableRules || RuleAnalyze(a.availableRules[id], deck).Error?
    ensures AllFindings(a, deck, before + [id] + after) == AllFindings(a, deck, before + after)
  {
    AllFindingsAppend(a, deck, before + [id], after);
    AllFindingsAppend(a, deck, before, [id]);
    AllFindingsAppend(a, deck, before, after);
    assert [id][..0] == [];
  }

  /** `rule_results` names exactly the registered entries that were run,
      each with the number of findings its rule added (zero when it raised). */
  lemma {:induction false} RuleResultsSpec(a: Analyzer, deck: Presentation, ids: seq<string>)
    requires Valid(a)
    ensures var results := RuleResults(a, deck, ids);
      && (forall id :: id in results <==> id in ids && id in a.availableRules)
      && (forall id :: id in results ==> results[id] == |Contribution(a, deck, id)|)
  {
    if |ids| > 0 {
      var init := ids[..|ids| - 1];
      RuleResultsSpec(a, deck, init);
      assert forall id :: id in ids <==> id in init || id == ids[|ids| - 1];
    }
  }

  /** When no id is listed twice, the counts in `rule_results` add up to the
      total number of findings. */
  lemma {:induction false} RuleResultsTotal(a: Analyzer, deck: Presentation, ids: seq<string>)
    requires Valid(a)
    requires forall i, j :: 0 <= i < j < |ids| ==> ids[i] != ids[j]
    ensures MapSum(RuleResults(a, deck, ids)) == |AllFindings(a, deck, ids)|
  {
    if |ids| > 0 {
      var init := ids[..|ids| - 1];
      var id := ids[|ids| - 1];
      RuleResultsTotal(a, deck, init);
      RuleResultsSpec(a, deck, init);
      if id in a.availableRules {
        assert id !in init;
        MapSumInsert(RuleResults(a, deck, init), id, |Contribution(a, deck, id)|);
      }
    }
  }

  /** A single entry adds its own contribution. */
  lemma AllFindingsSingle(a: Analyzer, deck: Presentation, id: string)
    requires Valid(a)
    ensures AllFindings(a, deck, [id]) == Contribution(a, deck, id)
  {
    assert [id][..0] == [];
  }

  /** The analysis of a deck by a freshly built analyzer, with no list of
      rules given: the structure findings, then the contrast findings, then
      the font findings, a rule that raises adding none. */
  lemma DefaultOrder(deck: Presentation)
    ensures var a := NewAnalyzer();
      AllFindings(a, deck, EnabledIds(a, None))
        == OrEmpty(Structure.Findings(deck)) + OrEmpty(Contrast.Findings(deck)) + OrEmpty(Fonts.Findings(deck, map[]))
  {
    var a := NewAnalyzer();
    assert EnabledIds(a, None) == ["rule_01"] + ["rule_03"] + ["rule_04"];
    AllFindingsAppend(a, deck, ["rule_01"] + ["rule_03"], ["rule_04"]);
    AllFindingsAppend(a, deck, ["rule_01"], ["rule_03"]);
    AllFindingsSingle(a, deck, "rule_01");
    AllFindingsSingle(a, deck, "rule_03");
    AllFindingsSingle(a, deck, "rule_04");
    DefaultContributions(deck);
  }

  /** What each rule of a freshly built analyzer contributes. */
  lemma DefaultContributions(deck: Presentation)
    ensures var a := NewAnalyzer();
      && Contribution(a, deck, "rule_01") == OrEmpty(Structure.Findings(deck))
      && Contribution(a, deck, "rule_03") == OrEmpty(Contrast.Findings(deck))
      && Contribution(a, deck, "rule_04") == OrEmpty(Fonts.Findings(deck, map[]))
  {
    var a := NewAnalyzer();
    assert a.availableRules["rule_01"].kind == StructureRule;
    assert a.availableRules["rule_03"].kind == ContrastRule;
    assert a.availableRules["rule_04"] == Rule(FontsRule, NewRuleState(None));
  }

  /** The findings of a rule result, none when it raised. */
  function OrEmpty(r: Result<seq<Finding>>): (fs: seq<Finding>)
    ensures r.Ok? ==> fs == r.value
    ensures r.Error? ==> fs == []
  {
    if r.Ok? then r.value else []
  }

  /** A deck without slides gives no finding from any rule, and the fixed
      perfect scores. */
  lemma {:induction false} EmptyDeck(a: Analyzer, deck: Presentation, ids: seq<string>)
    requires Valid(a)
    requires |deck.slides| == 0
    ensures AllFindings(a, deck, ids) == []
    ensures CalculateScores(AllFindings(a, deck, ids), |deck.slides|) == Perfect
  {
    if |ids| > 0 {
      EmptyDeck(a, deck, ids[..|ids| - 1]);
      var id := ids[|ids| - 1];
      if id in a.availableRules {
        Structure.FindingsFail(deck);
        assert Contrast.Findings(deck) == Ok([]);
        var rule := a.availableRules[id];
        if rule.kind == FontsRule {
          assert Fonts.Findings(deck, rule.state.config) == Ok([]);
        }
      }
    }
  }

  // ---------------------------------------------------------------------------
  // Properties of the counts
  // ---------------------------------------------------------------------------

  /** The five severity groups add up to the number of findings. */
  lemma {:induction false} SeverityGroupsTotal(fs: seq<Finding>)
    ensures var g := GroupBySeverity(fs);
      g["critical"] + g["high"] + g["medium"] + g["low"] + g["info"] == |fs|
  {
    if |fs| > 0 {
      SeverityGroupsTotal(fs[..|fs| - 1]);
    }
  }

  /** Some finding is about slide `slide`. */
  ghost predicate OnSlide(fs: seq<Finding>, slide: int) {
    exists i :: 0 <= i < |fs| && fs[i].slideNumber == slide
  }

  /** One more finding adds its own slide to those with findings. */
  lemma OnSlideStep(fs: seq<Finding>, slide: int)
    requires |fs| > 0
    ensures OnSlide(fs, slide) <==> OnSlide(fs[..|fs| - 1], slide) || fs[|fs| - 1].slideNumber == slide
  {
    var init := fs[..|fs| - 1];
    if OnSlide(fs, slide) {
      var i :| 0 <= i < |fs| && fs[i].slideNumber == slide;
      if i < |init| {
        assert init[i] == fs[i];
      }
    }
    if OnSlide(init, slide) {
      var i :| 0 <= i < |init| && init[i].slideNumber == slide;
      assert fs[i] == init[i];
    }
  }

  /** The per-slide counts name exactly the slides that have a finding, and
      give every slide the number of its findings (no entry meaning none). */
  lemma {:induction false} SlideCountsSpec(fs: seq<Finding>)
    ensures var counts := SlideCounts(fs);
      && (forall slide :: slide in counts <==> OnSlide(fs, slide))
      && (forall slide :: CountOnSlide(fs, slide) == (if slide in counts then counts[slide] else 0))
      && (forall slide :: slide in counts ==> counts[slide] > 0)
  {
    if |fs| > 0 {
      SlideCountsSpec(fs[..|fs| - 1]);
      forall slide
        ensures OnSlide(fs, slide) <==> OnSlide(fs[..|fs| - 1], slide) || fs[|fs| - 1].slideNumber == slide
      {
        OnSlideStep(fs, slide);
      }
    }
  }

  /** The per-slide counts add up to the number of findings. */
  lemma {:induction false} SlideCountsTotal(fs: seq<Finding>)
    ensures MapSum(SlideCounts(fs)) == |fs|
  {
    if |fs| > 0 {
      var init := fs[..|fs| - 1];
      var last := fs[|fs| - 1].slideNumber;
      SlideCountsTotal(init);
      var counts := SlideCounts(init);
      if last in counts {
        MapSumUpdate(counts, last, counts[last] + 1);
      } else {
        MapSumInsert(counts, last, 1);
      }
    }
  }

  // ---------------------------------------------------------------------------
  // Properties of the scores
  // ---------------------------------------------------------------------------

  /** One more finding adds its severity's penalty. */
  lemma PenaltyAppend(fs: seq<Finding>, f: Finding)
    ensures Penalty(fs + [f]) == Penalty(fs) + SeverityPenalty(f.severity)
  {
    CountSeverityAppend(fs, f, Critical);
    CountSeverityAppend(fs, f, High);
    CountSeverityAppend(fs, f, Medium);
    CountSeverityAppend(fs, f, Low);
    CountSeverityAppend(fs, f, Info);
  }

  /** A higher score never has a worse grade. */
  lemma GradeMonotone(low: real, high: real)
    requires low <= high
    ensures GradeRank(Grade(high)) <= GradeRank(Grade(low))
  {}

  /** One more finding never raises the unrounded score. */
  lemma OverallNeverRises(fs: seq<Finding>, f: Finding, slideCount: nat)
    requires slideCount > 0
    ensures OverallScore(fs + [f], slideCount) <= OverallScore(fs, slideCount)
  {
    PenaltyAppend(fs, f);
    DivideMonotone(Penalty(fs), Penalty(fs + [f]), slideCount as real);
  }

  /** One more finding never raises the score and never improves the grade. */
  lemma ScoreNeverRises(fs: seq<Finding>, f: Finding, slideCount: nat)
    requires slideCount > 0
    ensures var before := CalculateScores(fs, slideCount);
      var after := CalculateScores(fs + [f], slideCount);
      && after.overallScore <= before.overallScore
      && GradeRank(before.grade) <= GradeRank(after.grade)
  {
    var low := OverallScore(fs + [f], slideCount);
    var high := OverallScore(fs, slideCount);
    OverallNeverRises(fs, f, slideCount);
    RoundMonotone(low, high, 1);
    GradeMonotone(low, high);
  }

  /** Slides without findings score 100 and grade A. */
  lemma NoFindingsPerfect(slideCount: nat)
    requires slideCount > 0
    ensures CalculateScores([], slideCount).overallScore == 100.0
    ensures CalculateScores([], slideCount).grade == "A"
  {
    RoundWhole(100, 1);
  }

  /** Two high findings over ten slides cost one point: 99.0, grade A,
      0.2 issues per slide. */
  lemma TwoHighOnTenSlides(fs: seq<Finding>)
    requires |fs| == 2 && fs[0].severity == High && fs[1].severity == High
    ensures CalculateScores(fs, 10) == Scored(99.0, "A", GroupBySeverity(fs), 2, 0.2)
  {
    assert fs == [fs[0]] + [fs[1]] && [fs[0]] == [] + [fs[0]];
    PenaltyAppend([], fs[0]);
    PenaltyAppend([fs[0]], fs[1]);
    RoundWhole(99, 1);
    assert Scaled(0.2, 2) == 20.0;
    assert RoundToInt(20.0) == 20 by { RoundWhole(20, 0); }
  }

  /** The grade is taken from the score before rounding: a penalty of 251
      over 25 slides (say 25 critical findings and one low) reports a score
      of 90.0 with grade B. */
  lemma GradeBeforeRounding(fs: seq<Finding>)
    requires Penalty(fs) == 251.0
    ensures CalculateScores(fs, 25).overallScore == 90.0
    ensures CalculateScores(fs, 25).grade == "B"
  {
    assert OverallScore(fs, 25) == 89.96;
    assert Scaled(89.96, 1) == 899.6;
    assert RoundToInt(899.6) == 900;
  }
}
