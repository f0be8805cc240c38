/** The rule base shared by every rule: the severity and action enumerations,
    the finding record and its dictionary form, the state every rule is
    built with, and the default per-rule score. */
module RuleBase {
  import opened Results
  import opened Text

  // ---------------------------------------------------------------------------
  // Enumerations
  // ---------------------------------------------------------------------------

  datatype Severity = Critical | High | Medium | Low | Info

  /** The enumeration value of a severity. */
  function SeverityValue(s: Severity): string {
    match s
    case Critical => "critical"
    case High => "high"
    case Medium => "medium"
    case Low => "low"
    case Info => "info"
  }

  /** The enumeration lookup `Severity(v)`: the member whose value is `v`. */
  function SeverityOf(v: string): (s: Option<Severity>)
    ensures s.Some? ==> SeverityValue(s.value) == v
  {
    if v == "critical" then Some(Critical)
    else if v == "high" then Some(High)
    else if v == "medium" then Some(Medium)
    else if v == "low" then Some(Low)
    else if v == "info" then Some(Info)
    else None
  }

  /** Every severity is found again from its value, so the values are distinct. */
  lemma SeverityRoundTrip(s: Severity)
    ensures SeverityOf(SeverityValue(s)) == Some(s)
  {}

  datatype ActionType = AutoFix | Suggest | Manual

  /** The enumeration value of an action type. */
  function ActionValue(a: ActionType): string {
    match a
    case AutoFix => "auto_fix"
    case Suggest => "suggest"
    case Manual => "manual"
  }

  /** The enumeration lookup `ActionType(v)`. */
  function ActionOf(v: string): (a: Option<ActionType>)
    ensures a.Some? ==> ActionValue(a.value) == v
  {
    if v == "auto_fix" then Some(AutoFix)
    else if v == "suggest" then Some(Suggest)
    else if v == "manual" then Some(Manual)
    else None
  }

  lemma ActionRoundTrip(a: ActionType)
    ensures ActionOf(ActionValue(a)) == Some(a)
  {}

  // ---------------------------------------------------------------------------
  // Findings
  // ---------------------------------------------------------------------------

  /** A JSON-like value, as the metadata and the dictionary form hold them. */
  datatype Value =
    | Null
    | Bool(b: bool)
    | Int(i: int)
    | Real(r: real)
    | Str(s: string)
    | List(items: seq<Value>)
    | Object(fields: map<string, Value>)

  type Metadata = map<string, Value>

  /** Python's truth value of a value. */
  predicate Truthy(v: Value) {
    match v
    case Null => false
    case Bool(b) => b
    case Int(i) => i != 0
    case Real(r) => r != 0.0
    case Str(s) => |s| > 0
    case List(items) => |items| > 0
    case Object(fields) => |fields| > 0
  }

  /** One accessibility finding. `slideNumber` counts from 1; `shapeId` is
      `None` for slide-level issues. */
  datatype Finding = Finding(
    ruleId: string,
    slideNumber: int,
    shapeId: Option<string>,
    severity: Severity,
    title: string,
    description: string,
    actionType: ActionType,
    suggestedFix: Option<string>,
    metadata: Metadata)

  function OptionalString(o: Option<string>): Value {
    match o
    case None => Null
    case Some(s) => Str(s)
  }

  const FindingKeys: set<string> := {
    "rule_id", "slide_number", "shape_id", "severity", "title",
    "description", "action_type", "suggested_fix", "metadata"
  }

  /** `Finding.to_dict`: the nine fields under their names, the two
      enumerations replaced by their values. */
  function ToDict(f: Finding): (d: map<string, Value>)
    ensures d.Keys == FindingKeys
  {
    map[
      "rule_id" := Str(f.ruleId),
      "slide_number" := Int(f.slideNumber),
      "shape_id" := OptionalString(f.shapeId),
      "severity" := Str(SeverityValue(f.severity)),
      "title" := Str(f.title),
      "description" := Str(f.description),
      "action_type" := Str(ActionValue(f.actionType)),
      "suggested_fix" := OptionalString(f.suggestedFix),
      "metadata" := Object(f.metadata)]
  }

  function ReadOptionalString(v: Value): Option<Option<string>> {
    match v
    case Null => Some(None)
    case Str(s) => Some(Some(s))
    case _ => None
  }

  /** Reading a finding back from its dictionary form; `None` when a key is
      missing or holds a value of the wrong kind. */
  function FromDict(d: map<string, Value>): Option<Finding> {
    if FindingKeys <= d.Keys
       && d["rule_id"].Str? && d["slide_number"].Int? && d["title"].Str?
       && d["description"].Str? && d["metadata"].Object?
       && d["severity"].Str? && SeverityOf(d["severity"].s).Some?
       && d["action_type"].Str? && ActionOf(d["action_type"].s).Some?
       && ReadOptionalString(d["shape_id"]).Some?
       && ReadOptionalString(d["suggested_fix"]).Some?
    then
      Some(Finding(
        d["rule_id"].s,
        d["slide_number"].i,
        ReadOptionalString(d["shape_id"]).value,
        SeverityOf(d["severity"].s).value,
        d["title"].s,
        d["description"].s,
        ActionOf(d["action_type"].s).value,
        ReadOptionalString(d["suggested_fix"]).value,
        d["metadata"].fields))
    else None
  }

  /** The dictionary form loses nothing: every field is read back unchanged. */
  lemma {:induction false} DictRoundTrip(f: Finding)
    ensures FromDict(ToDict(f)) == Some(f)
  {
    SeverityRoundTrip(f.severity);
    ActionRoundTrip(f.actionType);
  }

  // ---------------------------------------------------------------------------
  // Counting and the default score
  // ---------------------------------------------------------------------------

  /** How many of the findings have severity `s`. */
  function CountSeverity(fs: seq<Finding>, s: Severity): (n: nat)
    ensures n <= |fs|
  {
    if |fs| == 0 then 0
    else CountSeverity(fs[..|fs| - 1], s) + (if fs[|fs| - 1].severity == s then 1 else 0)
  }

  lemma {:induction false} CountSeverityAppend(fs: seq<Finding>, f: Finding, s: Severity)
    ensures CountSeverity(fs + [f], s) == CountSeverity(fs, s) + (if f.severity == s then 1 else 0)
  {
    assert (fs + [f])[..|fs|] == fs;
  }

  /** The weight of one finding in the default score. */
  function SeverityWeight(s: Severity): nat {
    match s
    case Critical => 10
    case High => 5
    case Medium => 2
    case Low => 1
    case Info => 0
  }

  /** The sum of the weights of the findings. */
  function TotalWeight(fs: seq<Finding>): nat {
    if |fs| == 0 then 0
    else TotalWeight(fs[..|fs| - 1]) + SeverityWeight(fs[|fs| - 1].severity)
  }

  lemma {:induction false} TotalWeightAppend(fs: seq<Finding>, f: Finding)
    ensures TotalWeight(fs + [f]) == TotalWeight(fs) + SeverityWeight(f.severity)
  {
    assert (fs + [f])[..|fs|] == fs;
  }

  /** Every critical finding adds 10 to the total weight. */
  lemma {:induction false} WeightOfCriticals(fs: seq<Finding>)
    ensures TotalWeight(fs) >= 10 * CountSeverity(fs, Critical)
  {
    if |fs| > 0 {
      WeightOfCriticals(fs[..|fs| - 1]);
    }
  }

  /** `BaseRule.calculate_score`: 100 for no findings, otherwise
      100 - total weight (out of a baseline of 100), floored at 0 and rounded
      to one decimal. */
  function CalculateScore(fs: seq<Finding>): (score: real)
    ensures 0.0 <= score <= 100.0
    ensures |fs| == 0 ==> score == 100.0
  {
    if |fs| == 0 then 100.0
    else
      var raw := 100.0 - (TotalWeight(fs) as real / 100.0 * 100.0);
      var clamped := if 0.0 < raw then raw else 0.0;
      RoundBetween(clamped, 0, 100, 1);
      Round(clamped, 1)
  }

  /** The score of a non-empty list is the whole number 100 - weight, or 0. */
  lemma ScoreClosedForm(fs: seq<Finding>)
    requires |fs| > 0
    ensures CalculateScore(fs) == if TotalWeight(fs) >= 100 then 0.0 else (100 - TotalWeight(fs)) as real
  {
    if TotalWeight(fs) >= 100 {
      RoundWhole(0, 1);
    } else {
      RoundWhole(100 - TotalWeight(fs), 1);
    }
  }

  /** Adding a finding never raises the score. */
  lemma ScoreNeverRises(fs: seq<Finding>, f: Finding)
    ensures CalculateScore(fs + [f]) <= CalculateScore(fs)
  {
    TotalWeightAppend(fs, f);
    ScoreClosedForm(fs + [f]);
    if |fs| > 0 {
      ScoreClosedForm(fs);
    }
  }

  /** An informational finding leaves the score as it was. */
  lemma InfoIsNeutral(fs: seq<Finding>, f: Finding)
    requires f.severity == Info
    ensures CalculateScore(fs + [f]) == CalculateScore(fs)
  {
    TotalWeightAppend(fs, f);
    ScoreClosedForm(fs + [f]);
    if |fs| > 0 {
      ScoreClosedForm(fs);
    }
  }

  /** Ten critical findings bring the score to 0. */
  lemma TenCriticalsScoreZero(fs: seq<Finding>)
    requires CountSeverity(fs, Critical) >= 10
    ensures CalculateScore(fs) == 0.0
  {
    WeightOfCriticals(fs);
    ScoreClosedForm(fs);
  }

  // ---------------------------------------------------------------------------
  // Rule state
  // ---------------------------------------------------------------------------

  /** What `BaseRule.__init__` stores: the configuration and the `enabled` flag. */
  datatype RuleState = RuleState(config: Metadata, enabled: Value)

  /** `BaseRule.__init__`: a missing configuration becomes the empty one and
      `enabled` is read from it, true when the key is absent. */
  function NewRuleState(config: Option<Metadata>): (r: RuleState)
    ensures config.Some? ==> r.config == config.value
    ensures config.None? ==> r.config == map[]
    ensures "enabled" in r.config ==> r.enabled == r.config["enabled"]
    ensures "enabled" !in r.config ==> r.enabled == Bool(true)
  {
    var c := config.GetOr(map[]);
    RuleState(c, if "enabled" in c then c["enabled"] else Bool(true))
  }

  /** `BaseRule.supports_file_type`: every rule supports every file type. */
  function SupportsFileType(fileType: string): (supported: bool)
    ensures supported
  {
    true
  }
}
