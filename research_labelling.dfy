/** The research-based inefficiency labeller: fixed thresholds taken from the
    BPI Challenge 2020 literature turn one case's features into an ordered
    list of typed inefficiencies, a severity score, a capped optimisation
    potential and one recommendation per inefficiency. */
module ResearchLabelling {
  import opened Common

  // ---------------------------------------------------------------------------
  // Thresholds (set once by the labeller's constructor, never changed)
  // ---------------------------------------------------------------------------

  const DOMESTIC_NORMAL_DURATION: real := 11.0          // not consulted by any rule
  const DOMESTIC_EXCESSIVE_DURATION: real := 20.0
  const INTERNATIONAL_NORMAL_DURATION: real := 86.0     // not consulted by any rule
  const INTERNATIONAL_EXCESSIVE_DURATION: real := 150.0
  const SUPERVISOR_APPROVAL_BOTTLENECK: real := 30.0
  const DIRECTOR_APPROVAL_BOTTLENECK: real := 45.0      // not consulted by any rule
  const EXCESSIVE_REJECTIONS: int := 2
  const BUDGET_VARIANCE_THRESHOLD: real := 0.3          // not consulted by any rule
  const LATE_SUBMISSION_DAYS: int := 60                 // not consulted by any rule

  // Cut points written inline in the rules themselves.
  const INTERNATIONAL_HIGH_DURATION: real := 200.0
  const DOMESTIC_HIGH_DURATION: real := 30.0
  const SUPERVISOR_HIGH_APPROVAL: real := 50.0
  const HIGH_REJECTIONS: int := 3
  const COMPLEX_ACTIVITY_COUNT: int := 20

  /** The cap on the optimisation-potential percentage. */
  const POTENTIAL_CAP: real := 80.0

  // ---------------------------------------------------------------------------
  // Data model
  // ---------------------------------------------------------------------------

  /** One row of the feature table; every field but the case id is read with a
      default when absent. */
  datatype CaseFeatures = CaseFeatures(
    caseId: string,
    totalDurationDays: Option<real>,
    isInternational: Option<bool>,
    approvalTimeDays: Option<real>,
    rejectionCount: Option<int>,
    activityCount: Option<int>)

  /** The inefficiency type names the labeller knows; `Unrecognised` stands for
      any other name found in an externally supplied record. */
  datatype InefficiencyType =
    | ExcessiveDurationInternational
    | ExcessiveDurationDomestic
    | SupervisorApprovalBottleneck
    | DirectorApprovalBottleneck
    | ExcessiveRejections
    | ProcessComplexity
    | LateSubmission
    | Unrecognised(name: string)

  /** Severity of one inefficiency and, for a whole case, its severity level. */
  datatype Level = Low | Medium | High

  /** The Lean wastes named by the mappings; `UnknownWaste` is the `'unknown'` fall-back. */
  datatype LeanWaste = Waiting | Defects | Transportation | Overprocessing | UnknownWaste

  /** The Agile principles named by the mappings; `UnknownPrinciple` is the `'unknown'` fall-back. */
  datatype AgilePrinciple =
    | WorkingSoftwareOverDocumentation
    | RespondingToChange
    | DeliverWorkingSoftwareFrequently
    | Simplicity
    | UnknownPrinciple

  /** The optimisations named by the mappings; `GeneralProcessImprovement` is the fall-back. */
  datatype Optimization =
    | IncreaseSupervisorsOrDelegation
    | ImplementEscalationRules
    | ImplementPreValidationChecks
    | StreamlineApprovalProcess
    | ImplementAutomatedReminders
    | ConsolidateApprovalSteps
    | GeneralProcessImprovement

  /** A framework mapping: the Lean waste, the Agile principle and the
      optimisation it points to.  A field may be absent in a record that did
      not come from this labeller. */
  datatype FrameworkMapping = FrameworkMapping(
    leanWaste: Option<LeanWaste>,
    agilePrinciple: Option<AgilePrinciple>,
    optimization: Option<Optimization>)

  /** Keys of the labeller's framework-mapping table. */
  datatype MappingKey =
    | SupervisorApprovalKey
    | DirectorApprovalKey
    | ExcessiveRejectionsKey
    | ExcessiveDurationKey
    | LateSubmissionKey

  /** The published benchmark a label is compared against. */
  datatype Expectation =
    | ExpectedRangeDays(low: nat, high: nat)
    | ExpectedApprovalDays(low: nat, high: nat)
    | ExpectedRejectionRate(rate: real)
    | ExpectedRangeActivities(low: nat, high: nat)

  datatype Inefficiency = Inefficiency(
    kind: InefficiencyType,
    severity: Level,
    actualValue: real,
    expectation: Expectation,
    framework: Option<FrameworkMapping>)

  /** What `label_case_inefficiencies` returns. */
  datatype LabelResult = LabelResult(
    inefficiencies: seq<Inefficiency>,
    severityScore: int,
    totalInefficiencyCount: int,
    optimizationPotential: real)

  /** The recommendation texts, as tags. */
  datatype Advice =
    | MoreSupervisorsOrDelegation
    | EscalationRulesForDirectors
    | PreSubmissionValidation
    | RegionalApprovalAuthorities
    | AutomaticDomesticApproval
    | ConsolidateAndParallelise
    | ReminderSystemAndMobileReporting
    | ReviewAndOptimizeProcessFlow

  /** The expected-improvement texts, as tags. */
  datatype ImprovementEstimate =
    | ApprovalTimeDown30To50
    | HighLevelApprovalDown40To60
    | ReworkDown2To14Days
    | ProcessTimeDown20To30
    | ProcessTimeDown40To60
    | OverheadDown15To25
    | LateSubmissionsDown80
    | GeneralImprovement10To20

  datatype Recommendation = Recommendation(
    inefficiencyType: InefficiencyType,
    recommendation: Advice,
    expectedImprovement: ImprovementEstimate,
    frameworkBasis: Optimization,
    leanPrinciple: LeanWaste,
    agilePrinciple: AgilePrinciple)

  datatype TrainingLabel = TrainingLabel(
    hasInefficiencies: bool,
    severityLevel: Level,
    primaryBottleneck: Option<InefficiencyType>,
    optimizationPotentialPercent: real)

  datatype LabeledCase = LabeledCase(
    caseId: string,
    inputFeatures: CaseFeatures,
    inefficiencyLabels: LabelResult,
    optimizationRecommendations: seq<Recommendation>,
    trainingLabel: TrainingLabel)

  // ---------------------------------------------------------------------------
  // Fixed tables
  // ---------------------------------------------------------------------------

  function FrameworkMappings(k: MappingKey): FrameworkMapping
  {
    match k
    case SupervisorApprovalKey =>
      FrameworkMapping(Some(Waiting), Some(WorkingSoftwareOverDocumentation), Some(IncreaseSupervisorsOrDelegation))
    case DirectorApprovalKey =>
      FrameworkMapping(Some(Waiting), Some(RespondingToChange), Some(ImplementEscalationRules))
    case ExcessiveRejectionsKey =>
      FrameworkMapping(Some(Defects), Some(WorkingSoftwareOverDocumentation), Some(ImplementPreValidationChecks))
    case ExcessiveDurationKey =>
      FrameworkMapping(Some(Waiting), Some(DeliverWorkingSoftwareFrequently), Some(StreamlineApprovalProcess))
    case LateSubmissionKey =>
      FrameworkMapping(Some(Transportation), Some(DeliverWorkingSoftwareFrequently), Some(ImplementAutomatedReminders))
  }

  /** The mapping the process-complexity rule writes inline. */
  const COMPLEXITY_MAPPING: FrameworkMapping :=
    FrameworkMapping(Some(Overprocessing), Some(Simplicity), Some(ConsolidateApprovalSteps))

  /** `_get_recommendation`: a table lookup with a general fall-back. */
  function GetRecommendation(k: InefficiencyType): (r: Advice)
  {
    match k
    case SupervisorApprovalBottleneck => MoreSupervisorsOrDelegation
    case DirectorApprovalBottleneck => EscalationRulesForDirectors
    case ExcessiveRejections => PreSubmissionValidation
    case ExcessiveDurationInternational => RegionalApprovalAuthorities
    case ExcessiveDurationDomestic => AutomaticDomesticApproval
    case ProcessComplexity => ConsolidateAndParallelise
    case LateSubmission => ReminderSystemAndMobileReporting
    case Unrecognised(_) => ReviewAndOptimizeProcessFlow
  }

  /** `_get_expected_improvement`: a table lookup with a general fall-back. */
  function GetExpectedImprovement(k: InefficiencyType): (r: ImprovementEstimate)
  {
    match k
    case SupervisorApprovalBottleneck => ApprovalTimeDown30To50
    case DirectorApprovalBottleneck => HighLevelApprovalDown40To60
    case ExcessiveRejections => ReworkDown2To14Days
    case ExcessiveDurationInternational => ProcessTimeDown20To30
    case ExcessiveDurationDomestic => ProcessTimeDown40To60
    case ProcessComplexity => OverheadDown15To25
    case LateSubmission => LateSubmissionsDown80
    case Unrecognised(_) => GeneralImprovement10To20
  }

  /** Both lookups fall back exactly for the names outside their tables, and
      each table gives every known type its own entry. */
  lemma LookupTables(k: InefficiencyType, k': InefficiencyType)
    ensures GetRecommendation(k) == ReviewAndOptimizeProcessFlow <==> k.Unrecognised?
    ensures GetExpectedImprovement(k) == GeneralImprovement10To20 <==> k.Unrecognised?
    ensures !k.Unrecognised? && !k'.Unrecognised? && k != k' ==>
              GetRecommendation(k) != GetRecommendation(k') &&
              GetExpectedImprovement(k) != GetExpectedImprovement(k')
  {
  }

  /** The names the labeller writes in a record's `type` field. */
  const KNOWN_TYPE_NAMES: set<string> := {"excessive_duration_international", "excessive_duration_domestic",
    "supervisor_approval_bottleneck", "director_approval_bottleneck", "excessive_rejections",
    "process_complexity", "late_submission"}

  /** The `type` string of an inefficiency. */
  function TypeName(k: InefficiencyType): string
  {
    match k
    case ExcessiveDurationInternational => "excessive_duration_international"
    case ExcessiveDurationDomestic => "excessive_duration_domestic"
    case SupervisorApprovalBottleneck => "supervisor_approval_bottleneck"
    case DirectorApprovalBottleneck => "director_approval_bottleneck"
    case ExcessiveRejections => "excessive_rejections"
    case ProcessComplexity => "process_complexity"
    case LateSubmission => "late_submission"
    case Unrecognised(name) => name
  }

  /** Reads a `type` string: a known name gives its type, any other name is
      `Unrecognised`. Types read this way never put a known name under
      `Unrecognised`. */
  function ParseType(name: string): (k: InefficiencyType)
    ensures TypeName(k) == name
    ensures k.Unrecognised? <==> name !in KNOWN_TYPE_NAMES
  {
    if name == "excessive_duration_international" then ExcessiveDurationInternational
    else if name == "excessive_duration_domestic" then ExcessiveDurationDomestic
    else if name == "supervisor_approval_bottleneck" then SupervisorApprovalBottleneck
    else if name == "director_approval_bottleneck" then DirectorApprovalBottleneck
    else if name == "excessive_rejections" then ExcessiveRejections
    else if name == "process_complexity" then ProcessComplexity
    else if name == "late_submission" then LateSubmission
    else Unrecognised(name)
  }

  /** Reading back the name of a known type gives that type. */
  lemma ParseTypeName(k: InefficiencyType)
    requires !k.Unrecognised?
    ensures ParseType(TypeName(k)) == k
  {
  }

  /** The two lookups on a `type` string, as the source's `dict.get`: the
      general texts exactly for a name outside the tables. */
  lemma LookupByName(name: string)
    ensures GetRecommendation(ParseType(name)) == ReviewAndOptimizeProcessFlow <==> name !in KNOWN_TYPE_NAMES
    ensures GetExpectedImprovement(ParseType(name)) == GeneralImprovement10To20 <==> name !in KNOWN_TYPE_NAMES
  {
    LookupTables(ParseType(name), ParseType(name));
  }

  // ---------------------------------------------------------------------------
  // The rules, one function each, as the specification of the labeller
  // ---------------------------------------------------------------------------

  function Duration(f: CaseFeatures): real { f.totalDurationDays.UnwrapOr(0.0) }
  function IsInternational(f: CaseFeatures): bool { f.isInternational.UnwrapOr(false) }
  function Rejections(f: CaseFeatures): int { f.rejectionCount.UnwrapOr(0) }
  function Activities(f: CaseFeatures): int { f.activityCount.UnwrapOr(0) }

  function DurationLabels(f: CaseFeatures): seq<Inefficiency>
  {
    var duration := Duration(f);
    if IsInternational(f) then
      if duration > INTERNATIONAL_EXCESSIVE_DURATION then
        [Inefficiency(ExcessiveDurationInternational,
                      if duration > INTERNATIONAL_HIGH_DURATION then High else Medium,
                      duration, ExpectedRangeDays(66, 86),
                      Some(FrameworkMappings(ExcessiveDurationKey)))]
      else []
    else
      if duration > DOMESTIC_EXCESSIVE_DURATION then
        [Inefficiency(ExcessiveDurationDomestic,
                      if duration > DOMESTIC_HIGH_DURATION then High else Medium,
                      duration, ExpectedRangeDays(8, 11),
                      Some(FrameworkMappings(ExcessiveDurationKey)))]
      else []
  }

  /** The approval rule is guarded by Python truthiness: a present, non-zero value. */
  function SupervisorLabels(f: CaseFeatures): seq<Inefficiency>
  {
    match f.approvalTimeDays
    case Some(approval) =>
      if approval != 0.0 && approval > SUPERVISOR_APPROVAL_BOTTLENECK then
        [Inefficiency(SupervisorApprovalBottleneck,
                      if approval > SUPERVISOR_HIGH_APPROVAL then High else Medium,
                      approval, ExpectedApprovalDays(3, 5),
                      Some(FrameworkMappings(SupervisorApprovalKey)))]
      else []
    case None => []
  }

  function RejectionLabels(f: CaseFeatures): seq<Inefficiency>
  {
    var rejections := Rejections(f);
    if rejections > EXCESSIVE_REJECTIONS then
      [Inefficiency(ExcessiveRejections,
                    if rejections > HIGH_REJECTIONS then High else Medium,
                    rejections as real, ExpectedRejectionRate(if IsInternational(f) then 0.27 else 0.12),
                    Some(FrameworkMappings(ExcessiveRejectionsKey)))]
    else []
  }

  function ComplexityLabels(f: CaseFeatures): seq<Inefficiency>
  {
    var activities := Activities(f);
    if activities > COMPLEX_ACTIVITY_COUNT then
      [Inefficiency(ProcessComplexity, Medium, activities as real,
                    ExpectedRangeActivities(8, 15), Some(COMPLEXITY_MAPPING))]
    else []
  }

  /** The labels of one case, in the order the rules are applied. */
  function CaseLabels(f: CaseFeatures): seq<Inefficiency>
  {
    DurationLabels(f) + SupervisorLabels(f) + RejectionLabels(f) + ComplexityLabels(f)
  }

  /** The amount a label adds to the severity score. */
  function Increment(i: Inefficiency): nat
  {
    match i.kind
    case ExcessiveDurationInternational => if i.severity == High then 3 else 2
    case ExcessiveDurationDomestic => if i.severity == High then 3 else 2
    case SupervisorApprovalBottleneck => 3
    case ExcessiveRejections => 2
    case ProcessComplexity => 1
    case _ => 0
  }

  /** The sum of the labels' increments. */
  function TotalIncrement(ls: seq<Inefficiency>): nat
  {
    if ls == [] then 0 else Increment(ls[0]) + TotalIncrement(ls[1..])
  }

  /** The improvement percentage research attributes to removing one type of inefficiency. */
  function PotentialOf(k: InefficiencyType): real
  {
    match k
    case SupervisorApprovalBottleneck => 45.3
    case ExcessiveDurationInternational => 30.0
    case ExcessiveDurationDomestic => 50.0
    case ExcessiveRejections => 20.0
    case ProcessComplexity => 15.0
    case _ => 0.0
  }

  function SumPotential(ls: seq<Inefficiency>): real
  {
    if ls == [] then 0.0 else SumPotential(ls[..|ls| - 1]) + PotentialOf(ls[|ls| - 1].kind)
  }

  /** `_calculate_optimization_potential`, as a function of the label list. */
  function OptimizationPotential(ls: seq<Inefficiency>): real
  {
    if ls == [] then 0.0
    else if SumPotential(ls) < POTENTIAL_CAP then SumPotential(ls) else POTENTIAL_CAP
  }

  function LabelResultOf(f: CaseFeatures): LabelResult
  {
    var ls := CaseLabels(f);
    LabelResult(ls, TotalIncrement(ls), |ls|, OptimizationPotential(ls))
  }

  /** The recommendation record built for one inefficiency. */
  function RecommendationFor(i: Inefficiency): Recommendation
  {
    var info := i.framework.UnwrapOr(FrameworkMapping(None, None, None));
    Recommendation(
      i.kind,
      GetRecommendation(i.kind),
      GetExpectedImprovement(i.kind),
      info.optimization.UnwrapOr(GeneralProcessImprovement),
      info.leanWaste.UnwrapOr(UnknownWaste),
      info.agilePrinciple.UnwrapOr(UnknownPrinciple))
  }

  /** The severity-level ladder over the severity score. */
  function SeverityLevel(score: int): (r: Level)
    ensures r == High <==> score >= 5
    ensures r == Medium <==> 2 <= score < 5
    ensures r == Low <==> score < 2
  {
    if score >= 5 then High else if score >= 2 then Medium else Low
  }

  function LevelRank(l: Level): nat
  {
    match l
    case Low => 0
    case Medium => 1
    case High => 2
  }

  /** A higher score never gives a lower severity level. */
  lemma SeverityLevelMonotone(s: int, t: int)
    requires s <= t
    ensures LevelRank(SeverityLevel(s)) <= LevelRank(SeverityLevel(t))
  {
  }

  function TrainingLabelOf(r: LabelResult): TrainingLabel
  {
    TrainingLabel(
      |r.inefficiencies| > 0,
      SeverityLevel(r.severityScore),
      if r.inefficiencies != [] then Some(r.inefficiencies[0].kind) else None,
      r.optimizationPotential)
  }

  /** One recommendation per inefficiency, in the same order. */
  function RecommendationsFor(ls: seq<Inefficiency>): (r: seq<Recommendation>)
    ensures |r| == |ls|
    ensures forall k :: 0 <= k < |ls| ==> r[k] == RecommendationFor(ls[k])
  {
    if ls == [] then [] else [RecommendationFor(ls[0])] + RecommendationsFor(ls[1..])
  }

  /** One output row of `label_dataset`. */
  function LabelCase(f: CaseFeatures): LabeledCase
  {
    var r := LabelResultOf(f);
    LabeledCase(f.caseId, f, r, RecommendationsFor(r.inefficiencies), TrainingLabelOf(r))
  }

  // ---------------------------------------------------------------------------
  // The labeller's operations, step by step as the source performs them
  // ---------------------------------------------------------------------------

  /** `label_case_inefficiencies`: applies the four rules in turn, appending a
      label and raising the score as each one fires. */
  method LabelCaseInefficiencies(f: CaseFeatures) returns (r: LabelResult)
    ensures r.inefficiencies == CaseLabels(f)
    ensures r.severityScore == TotalIncrement(r.inefficiencies)
    ensures r.totalInefficiencyCount == |r.inefficiencies|
    ensures r.optimizationPotential == OptimizationPotential(r.inefficiencies)
  {
    var labels: seq<Inefficiency> := [];
    var severityScore := 0;
    labels, severityScore := ApplyDurationRule(f, labels, severityScore);
    labels, severityScore := ApplySupervisorRule(f, labels, severityScore);
    labels, severityScore := ApplyRejectionRule(f, labels, severityScore);
    labels, severityScore := ApplyComplexityRule(f, labels, severityScore);
    assert labels == CaseLabels(f);
    var potential := CalculateOptimizationPotential(labels);
    r := LabelResult(labels, severityScore, |labels|, potential);
  }

  /** The duration step: the international flag (default false) selects the
      threshold for the duration (default 0). */
  method ApplyDurationRule(f: CaseFeatures, labels: seq<Inefficiency>, score: int)
    returns (labels': seq<Inefficiency>, score': int)
    requires score == TotalIncrement(labels)
    ensures labels' == labels + DurationLabels(f)
    ensures score' == TotalIncrement(labels')
  {
    labels', score' := labels, score;
    var duration := f.totalDurationDays.UnwrapOr(0.0);
    var isInternational := f.isInternational.UnwrapOr(false);
    if isInternational {
      if duration > INTERNATIONAL_EXCESSIVE_DURATION {
        var found := Inefficiency(ExcessiveDurationInternational,
                                  if duration > INTERNATIONAL_HIGH_DURATION then High else Medium,
                                  duration, ExpectedRangeDays(66, 86),
                                  Some(FrameworkMappings(ExcessiveDurationKey)));
        TotalIncrementAppend(labels', found);
        labels' := labels' + [found];
        score' := score' + if duration > INTERNATIONAL_HIGH_DURATION then 3 else 2;
      }
    } else {
      if duration > DOMESTIC_EXCESSIVE_DURATION {
        var found := Inefficiency(ExcessiveDurationDomestic,
                                  if duration > DOMESTIC_HIGH_DURATION then High else Medium,
                                  duration, ExpectedRangeDays(8, 11),
                                  Some(FrameworkMappings(ExcessiveDurationKey)));
        TotalIncrementAppend(labels', found);
        labels' := labels' + [found];
        score' := score' + if duration > DOMESTIC_HIGH_DURATION then 3 else 2;
      }
    }
  }

  /** The supervisor-approval step, guarded by the truthiness of the approval time. */
  method ApplySupervisorRule(f: CaseFeatures, labels: seq<Inefficiency>, score: int)
    returns (labels': seq<Inefficiency>, score': int)
    requires score == TotalIncrement(labels)
    ensures labels' == labels + SupervisorLabels(f)
    ensures score' == TotalIncrement(labels')
  {
    labels', score' := labels, score;
    var approvalTime := f.approvalTimeDays;
    if approvalTime.Some? && approvalTime.value != 0.0 {
      if approvalTime.value > SUPERVISOR_APPROVAL_BOTTLENECK {
        var found := Inefficiency(SupervisorApprovalBottleneck,
                                  if approvalTime.value > SUPERVISOR_HIGH_APPROVAL then High else Medium,
                                  approvalTime.value, ExpectedApprovalDays(3, 5),
                                  Some(FrameworkMappings(SupervisorApprovalKey)));
        TotalIncrementAppend(labels', found);
        labels' := labels' + [found];
        score' := score' + 3;
      }
    }
  }

  /** The rejection step; the quoted rate depends on the international flag. */
  method ApplyRejectionRule(f: CaseFeatures, labels: seq<Inefficiency>, score: int)
    returns (labels': seq<Inefficiency>, score': int)
    requires score == TotalIncrement(labels)
    ensures labels' == labels + RejectionLabels(f)
    ensures score' == TotalIncrement(labels')
  {
    labels', score' := labels, score;
    var isInternational := f.isInternational.UnwrapOr(false);
    var rejectionCount := f.rejectionCount.UnwrapOr(0);
    if rejectionCount > EXCESSIVE_REJECTIONS {
      var expectedRejectionRate := if isInternational then 0.27 else 0.12;
      var found := Inefficiency(ExcessiveRejections,
                                if rejectionCount > HIGH_REJECTIONS then High else Medium,
                                rejectionCount as real, ExpectedRejectionRate(expectedRejectionRate),
                                Some(FrameworkMappings(ExcessiveRejectionsKey)));
      TotalIncrementAppend(labels', found);
      labels' := labels' + [found];
      score' := score' + 2;
    }
  }

  /** The activity-complexity step. */
  method ApplyComplexityRule(f: CaseFeatures, labels: seq<Inefficiency>, score: int)
    returns (labels': seq<Inefficiency>, score': int)
    requires score == TotalIncrement(labels)
    ensures labels' == labels + ComplexityLabels(f)
    ensures score' == TotalIncrement(labels')
  {
    labels', score' := labels, score;
    var activityCount := f.activityCount.UnwrapOr(0);
    if activityCount > COMPLEX_ACTIVITY_COUNT {
      var found := Inefficiency(ProcessComplexity, Medium, activityCount as real,
                                ExpectedRangeActivities(8, 15), Some(COMPLEXITY_MAPPING));
      TotalIncrementAppend(labels', found);
      labels' := labels' + [found];
      score' := score' + 1;
    }
  }

  /** `_calculate_optimization_potential`: 0 for no labels, otherwise the
      per-type potentials summed in a loop and capped. */
  method CalculateOptimizationPotential(ls: seq<Inefficiency>) returns (p: real)
    ensures p == OptimizationPotential(ls)
    ensures 0.0 <= p <= POTENTIAL_CAP
  {
    if ls == [] {
      return 0.0;
    }
    var improvementPotential := 0.0;
    var i := 0;
    while i < |ls|
      invariant 0 <= i <= |ls|
      invariant improvementPotential == SumPotential(ls[..i])
    {
      assert ls[..i + 1][..i] == ls[..i];
      improvementPotential := improvementPotential + PotentialOf(ls[i].kind);
      i := i + 1;
    }
    assert ls[..i] == ls;
    SumPotentialNonNegative(ls);
    p := if improvementPotential < POTENTIAL_CAP then improvementPotential else POTENTIAL_CAP;
  }

  /** `generate_optimization_recommendations`: one recommendation per
      inefficiency, built in a loop. */
  method GenerateOptimizationRecommendations(ls: seq<Inefficiency>) returns (recs: seq<Recommendation>)
    ensures recs == RecommendationsFor(ls)
  {
    recs := [];
    for i := 0 to |ls|
      invariant |recs| == i
      invariant forall k :: 0 <= k < i ==> recs[k] == RecommendationFor(ls[k])
    {
      var inefficiencyType := ls[i].kind;
      var frameworkInfo := ls[i].framework.UnwrapOr(FrameworkMapping(None, None, None));
      var recommendation := Recommendation(
        inefficiencyType,
        GetRecommendation(inefficiencyType),
        GetExpectedImprovement(inefficiencyType),
        frameworkInfo.optimization.UnwrapOr(GeneralProcessImprovement),
        frameworkInfo.leanWaste.UnwrapOr(UnknownWaste),
        frameworkInfo.agilePrinciple.UnwrapOr(UnknownPrinciple));
      recs := recs + [recommendation];
    }
  }

  /** `f` applied to each element of `s`, in order. */
  function Map<A, B>(f: A -> B, s: seq<A>): (r: seq<B>)
    ensures |r| == |s|
    ensures forall k :: 0 <= k < |s| ==> r[k] == f(s[k])
  {
    if s == [] then [] else Map(f, s[..|s| - 1]) + [f(s[|s| - 1])]
  }

  /** `label_dataset`: one labelled case per input row, in row order. */
  method LabelDataset(rows: seq<CaseFeatures>) returns (labeled: seq<LabeledCase>)
    ensures |labeled| == |rows|
    ensures forall k :: 0 <= k < |rows| ==> labeled[k] == LabelCase(rows[k])
  {
    labeled := [];
    for i := 0 to |rows|
      invariant labeled == Map(LabelCase, rows[..i])
    {
      var labeledCase := LabelRow(rows[i]);
      assert rows[..i + 1][..i] == rows[..i];
      labeled := labeled + [labeledCase];
    }
    assert rows[..|rows|] == rows;
  }

  /** The body of `label_dataset`'s loop: label the case, recommend, and
      summarise it into a training label. */
  method LabelRow(caseFeatures: CaseFeatures) returns (labeledCase: LabeledCase)
    ensures labeledCase == LabelCase(caseFeatures)
  {
    var labels := LabelCaseInefficiencies(caseFeatures);
    var recommendations := GenerateOptimizationRecommendations(labels.inefficiencies);
    var trainingLabel := TrainingLabel(
      |labels.inefficiencies| > 0,
      if labels.severityScore >= 5 then High else if labels.severityScore >= 2 then Medium else Low,
      if labels.inefficiencies != [] then Some(labels.inefficiencies[0].kind) else None,
      labels.optimizationPotential);
    assert labels == LabelResultOf(caseFeatures);
    labeledCase := LabeledCase(caseFeatures.caseId, caseFeatures, labels, recommendations, trainingLabel);
  }

  // ---------------------------------------------------------------------------
  // Properties of the rules
  // ---------------------------------------------------------------------------

  /** `ls` holds a label of type `k`. */
  predicate HasKind(ls: seq<Inefficiency>, k: InefficiencyType)
  {
    exists i :: 0 <= i < |ls| && ls[i].kind == k
  }

  /** The position of a label type in the order the rules run. */
  function RuleRank(k: InefficiencyType): nat
  {
    match k
    case ExcessiveDurationInternational => 0
    case ExcessiveDurationDomestic => 0
    case SupervisorApprovalBottleneck => 1
    case ExcessiveRejections => 2
    case ProcessComplexity => 3
    case _ => 4
  }

  lemma HasKindConcat(a: seq<Inefficiency>, b: seq<Inefficiency>, k: InefficiencyType)
    ensures HasKind(a + b, k) <==> HasKind(a, k) || HasKind(b, k)
  {
    if HasKind(a + b, k) {
      var i :| 0 <= i < |a + b| && (a + b)[i].kind == k;
      if i >= |a| { assert b[i - |a|].kind == k; }
    }
    if HasKind(a, k) {
      var i :| 0 <= i < |a| && a[i].kind == k;
      assert (a + b)[i].kind == k;
    }
    if HasKind(b, k) {
      var i :| 0 <= i < |b| && b[i].kind == k;
      assert (a + b)[|a| + i].kind == k;
    }
  }

  /** The four rule groups each hold at most one label, and `CaseLabels` holds exactly their labels. */
  lemma CaseLabelsParts(f: CaseFeatures, k: InefficiencyType)
    ensures HasKind(CaseLabels(f), k) <==>
      HasKind(DurationLabels(f), k) || HasKind(SupervisorLabels(f), k) ||
      HasKind(RejectionLabels(f), k) || HasKind(ComplexityLabels(f), k)
  {
    var d, s, r, c := DurationLabels(f), SupervisorLabels(f), RejectionLabels(f), ComplexityLabels(f);
    HasKindConcat(d, s, k);
    HasKindConcat(d + s, r, k);
    HasKindConcat(d + s + r, c, k);
  }

  /** At most one duration label fires and the international flag selects
      which; a missing duration counts as 0 and fires nothing. */
  lemma DurationRule(f: CaseFeatures)
    ensures HasKind(CaseLabels(f), ExcessiveDurationInternational) <==>
              IsInternational(f) && Duration(f) > 150.0
    ensures HasKind(CaseLabels(f), ExcessiveDurationDomestic) <==>
              !IsInternational(f) && Duration(f) > 20.0
    ensures f.totalDurationDays.None? ==>
              !HasKind(CaseLabels(f), ExcessiveDurationInternational) &&
              !HasKind(CaseLabels(f), ExcessiveDurationDomestic)
    ensures forall i :: 0 <= i < |CaseLabels(f)| && CaseLabels(f)[i].kind == ExcessiveDurationInternational ==>
              (CaseLabels(f)[i].severity == High <==> Duration(f) > 200.0) &&
              Increment(CaseLabels(f)[i]) == (if Duration(f) > 200.0 then 3 else 2)
    ensures forall i :: 0 <= i < |CaseLabels(f)| && CaseLabels(f)[i].kind == ExcessiveDurationDomestic ==>
              (CaseLabels(f)[i].severity == High <==> Duration(f) > 30.0) &&
              Increment(CaseLabels(f)[i]) == (if Duration(f) > 30.0 then 3 else 2)
  {
    CaseLabelsParts(f, ExcessiveDurationInternational);
    CaseLabelsParts(f, ExcessiveDurationDomestic);
    if DurationLabels(f) != [] {
      assert HasKind(DurationLabels(f), DurationLabels(f)[0].kind);
    }
    var ls := CaseLabels(f);
    forall i | 0 <= i < |ls| && ls[i].kind.ExcessiveDurationInternational?
      ensures i == 0 && ls[i] == DurationLabels(f)[0]
    {
      KindsComeFromRules(f, i);
    }
    forall i | 0 <= i < |ls| && ls[i].kind.ExcessiveDurationDomestic?
      ensures i == 0 && ls[i] == DurationLabels(f)[0]
    {
      KindsComeFromRules(f, i);
    }
  }

  /** Each label of `CaseLabels(f)` is the label of the rule its rank names, at
      the position that rule's group occupies. */
  lemma KindsComeFromRules(f: CaseFeatures, i: nat)
    requires i < |CaseLabels(f)|
    ensures var d, s, r := |DurationLabels(f)|, |SupervisorLabels(f)|, |RejectionLabels(f)|;
      match RuleRank(CaseLabels(f)[i].kind)
      case 0 => i == 0 && d == 1 && CaseLabels(f)[i] == DurationLabels(f)[0]
      case 1 => i == d && s == 1 && CaseLabels(f)[i] == SupervisorLabels(f)[0]
      case 2 => i == d + s && r == 1 && CaseLabels(f)[i] == RejectionLabels(f)[0]
      case 3 => i == d + s + r && CaseLabels(f)[i] == ComplexityLabels(f)[0]
      case _ => false
  {
  }

  /** The supervisor rule fires exactly for a recorded approval time above 30
      days (the non-zero test is implied); it is high above 50 days and always
      adds 3. */
  lemma SupervisorRule(f: CaseFeatures)
    ensures HasKind(CaseLabels(f), SupervisorApprovalBottleneck) <==>
              f.approvalTimeDays.Some? && f.approvalTimeDays.value > 30.0
    ensures forall i :: 0 <= i < |CaseLabels(f)| && CaseLabels(f)[i].kind == SupervisorApprovalBottleneck ==>
              (CaseLabels(f)[i].severity == High <==> f.approvalTimeDays.value > 50.0) &&
              Increment(CaseLabels(f)[i]) == 3
  {
    CaseLabelsParts(f, SupervisorApprovalBottleneck);
    if SupervisorLabels(f) != [] {
      assert SupervisorLabels(f)[0].kind == SupervisorApprovalBottleneck;
    }
    var ls := CaseLabels(f);
    forall i | 0 <= i < |ls| && ls[i].kind.SupervisorApprovalBottleneck?
      ensures ls[i] == SupervisorLabels(f)[0]
    {
      KindsComeFromRules(f, i);
    }
  }

  /** The rejection rule fires above 2 rejections, is high above 3, adds 2
      and quotes 27% for international and 12% for domestic cases; the
      complexity rule fires above 20 activities, is always medium and adds 1. */
  lemma RejectionAndComplexityRules(f: CaseFeatures)
    ensures HasKind(CaseLabels(f), ExcessiveRejections) <==> Rejections(f) > 2
    ensures HasKind(CaseLabels(f), ProcessComplexity) <==> Activities(f) > 20
    ensures forall i :: 0 <= i < |CaseLabels(f)| && CaseLabels(f)[i].kind == ExcessiveRejections ==>
              (CaseLabels(f)[i].severity == High <==> Rejections(f) > 3) &&
              Increment(CaseLabels(f)[i]) == 2 &&
              CaseLabels(f)[i].expectation == ExpectedRejectionRate(if IsInternational(f) then 0.27 else 0.12)
    ensures forall i :: 0 <= i < |CaseLabels(f)| && CaseLabels(f)[i].kind == ProcessComplexity ==>
              CaseLabels(f)[i].severity == Medium && Increment(CaseLabels(f)[i]) == 1
  {
    CaseLabelsParts(f, ExcessiveRejections);
    CaseLabelsParts(f, ProcessComplexity);
    if RejectionLabels(f) != [] {
      assert RejectionLabels(f)[0].kind == ExcessiveRejections;
    }
    if ComplexityLabels(f) != [] {
      assert ComplexityLabels(f)[0].kind == ProcessComplexity;
    }
    var ls := CaseLabels(f);
    forall i | 0 <= i < |ls| && (ls[i].kind.ExcessiveRejections? || ls[i].kind.ProcessComplexity?)
      ensures ls[i].kind.ExcessiveRejections? ==> ls[i] == RejectionLabels(f)[0]
      ensures ls[i].kind.ProcessComplexity? ==> ls[i] == ComplexityLabels(f)[0]
    {
      KindsComeFromRules(f, i);
    }
  }

  /** Labels come in the fixed rule order (duration, supervisor, rejections,
      complexity), so there are at most four; the director-approval,
      late-submission and unknown types are never emitted, and no label is low. */
  lemma LabelOrder(f: CaseFeatures)
    ensures forall i, j :: 0 <= i < j < |CaseLabels(f)| ==>
              RuleRank(CaseLabels(f)[i].kind) < RuleRank(CaseLabels(f)[j].kind)
    ensures |CaseLabels(f)| <= 4
    ensures forall i :: 0 <= i < |CaseLabels(f)| ==>
              RuleRank(CaseLabels(f)[i].kind) < 4 && CaseLabels(f)[i].severity != Low
    ensures !HasKind(CaseLabels(f), DirectorApprovalBottleneck)
    ensures !HasKind(CaseLabels(f), LateSubmission)
  {
    var ls := CaseLabels(f);
    forall i | 0 <= i < |ls|
      ensures RuleRank(ls[i].kind) < 4 && ls[i].severity != Low
    {
      KindsComeFromRules(f, i);
    }
    forall i, j | 0 <= i < j < |ls|
      ensures RuleRank(ls[i].kind) < RuleRank(ls[j].kind)
    {
      KindsComeFromRules(f, i);
      KindsComeFromRules(f, j);
    }
  }

  lemma {:induction false} TotalIncrementConcat(a: seq<Inefficiency>, b: seq<Inefficiency>)
    ensures TotalIncrement(a + b) == TotalIncrement(a) + TotalIncrement(b)
    decreases |a|
  {
    if a == [] {
      assert a + b == b;
    } else {
      assert (a + b)[1..] == a[1..] + b;
      TotalIncrementConcat(a[1..], b);
    }
  }

  lemma TotalIncrementAppend(ls: seq<Inefficiency>, x: Inefficiency)
    ensures TotalIncrement(ls + [x]) == TotalIncrement(ls) + Increment(x)
  {
    TotalIncrementConcat(ls, [x]);
  }

  /** The severity score is the sum of the per-label increments and lies in 0..9. */
  lemma SeverityScoreBounds(f: CaseFeatures)
    ensures LabelResultOf(f).severityScore == TotalIncrement(CaseLabels(f))
    ensures 0 <= LabelResultOf(f).severityScore <= 9
    ensures LabelResultOf(f).totalInefficiencyCount == |LabelResultOf(f).inefficiencies|
  {
    var d, s, r, c := DurationLabels(f), SupervisorLabels(f), RejectionLabels(f), ComplexityLabels(f);
    TotalIncrementConcat(d, s);
    TotalIncrementConcat(d + s, r);
    TotalIncrementConcat(d + s + r, c);
    assert TotalIncrement(d) <= 3;
    assert TotalIncrement(s) <= 3;
    assert TotalIncrement(r) <= 2;
    assert TotalIncrement(c) <= 1;
  }

  /** A case is low severity exactly when every label it has is a process-complexity label. */
  lemma LowSeverityMeansOnlyComplexity(f: CaseFeatures)
    ensures SeverityLevel(LabelResultOf(f).severityScore) == Low <==>
              forall i :: 0 <= i < |CaseLabels(f)| ==> CaseLabels(f)[i].kind == ProcessComplexity
  {
    var d, s, r, c := DurationLabels(f), SupervisorLabels(f), RejectionLabels(f), ComplexityLabels(f);
    var ls := CaseLabels(f);
    TotalIncrementConcat(d, s);
    TotalIncrementConcat(d + s, r);
    TotalIncrementConcat(d + s + r, c);
    if d == [] && s == [] && r == [] {
      assert ls == c;
    } else {
      assert TotalIncrement(ls) >= 2;
      var first := if d != [] then d[0] else if s != [] then s[0] else r[0];
      assert ls[0] == first;
      assert ls[0].kind != ProcessComplexity;
    }
  }

  lemma {:induction false} SumPotentialNonNegative(ls: seq<Inefficiency>)
    ensures SumPotential(ls) >= 0.0
    decreases |ls|
  {
    if ls != [] {
      SumPotentialNonNegative(ls[..|ls| - 1]);
    }
  }

  /** The optimisation potential is 0 for no labels and always lies in [0, 80]. */
  lemma PotentialBounds(ls: seq<Inefficiency>)
    ensures ls == [] ==> OptimizationPotential(ls) == 0.0
    ensures 0.0 <= OptimizationPotential(ls) <= POTENTIAL_CAP
  {
    SumPotentialNonNegative(ls);
  }

  /** Adding a label never lowers the optimisation potential. */
  lemma PotentialMonotone(ls: seq<Inefficiency>, x: Inefficiency)
    ensures OptimizationPotential(ls) <= OptimizationPotential(ls + [x])
  {
    assert (ls + [x])[..|ls + [x]| - 1] == ls;
    SumPotentialNonNegative(ls);
  }

  /** For the labeller's own output the potential is positive exactly when some label fired. */
  lemma CasePotentialPositive(f: CaseFeatures)
    ensures LabelResultOf(f).optimizationPotential > 0.0 <==> CaseLabels(f) != []
  {
    var ls := CaseLabels(f);
    if ls != [] {
      KindsComeFromRules(f, |ls| - 1);
      SumPotentialNonNegative(ls[..|ls| - 1]);
    }
  }

  /** One recommendation per label, in label order, carrying the label's type;
      unknown types and missing framework fields take their fall-backs. */
  lemma RecommendationsFollowLabels(f: CaseFeatures)
    ensures var c := LabelCase(f);
      |c.optimizationRecommendations| == |c.inefficiencyLabels.inefficiencies| &&
      forall k :: 0 <= k < |c.optimizationRecommendations| ==>
        RuleRecommendation(c.inefficiencyLabels.inefficiencies[k], c.optimizationRecommendations[k])
  {
    var ls := CaseLabels(f);
    var recs := RecommendationsFor(ls);
    assert LabelCase(f).optimizationRecommendations == recs;
    assert LabelCase(f).inefficiencyLabels.inefficiencies == ls;
    forall k | 0 <= k < |ls|
      ensures RuleRecommendation(ls[k], recs[k])
    {
      RuleLabelRecommendation(f, k);
    }
  }

  /** `rec` is the recommendation for `lab` and takes nothing from the
      fall-backs. */
  ghost predicate RuleRecommendation(lab: Inefficiency, rec: Recommendation)
  {
    rec.inefficiencyType == lab.kind &&
    rec.recommendation != ReviewAndOptimizeProcessFlow &&
    rec.expectedImprovement != GeneralImprovement10To20 &&
    rec.frameworkBasis != GeneralProcessImprovement &&
    rec.leanPrinciple != UnknownWaste && rec.agilePrinciple != UnknownPrinciple
  }

  lemma RuleLabelRecommendation(f: CaseFeatures, k: nat)
    requires k < |CaseLabels(f)|
    ensures RuleRecommendation(CaseLabels(f)[k], RecommendationFor(CaseLabels(f)[k]))
  {
    KindsComeFromRules(f, k);
  }

  /** For any inefficiency record, including ones from outside the labeller:
      the type is kept and each missing field takes its documented default. */
  lemma RecommendationFallbacks(i: Inefficiency)
    ensures RecommendationFor(i).inefficiencyType == i.kind
    ensures i.kind.Unrecognised? ==>
              RecommendationFor(i).recommendation == ReviewAndOptimizeProcessFlow &&
              RecommendationFor(i).expectedImprovement == GeneralImprovement10To20
    ensures i.framework.None? ==>
              RecommendationFor(i).frameworkBasis == GeneralProcessImprovement &&
              RecommendationFor(i).leanPrinciple == UnknownWaste &&
              RecommendationFor(i).agilePrinciple == UnknownPrinciple
    ensures i.framework.Some? ==>
              RecommendationFor(i).frameworkBasis == i.framework.value.optimization.UnwrapOr(GeneralProcessImprovement) &&
              RecommendationFor(i).leanPrinciple == i.framework.value.leanWaste.UnwrapOr(UnknownWaste) &&
              RecommendationFor(i).agilePrinciple == i.framework.value.agilePrinciple.UnwrapOr(UnknownPrinciple)
    ensures i.framework.Some? && i.framework.value.optimization.None? ==>
              RecommendationFor(i).frameworkBasis == GeneralProcessImprovement
    ensures i.framework.Some? && i.framework.value.leanWaste.None? ==>
              RecommendationFor(i).leanPrinciple == UnknownWaste
    ensures i.framework.Some? && i.framework.value.agilePrinciple.None? ==>
              RecommendationFor(i).agilePrinciple == UnknownPrinciple
  {
  }

  /** The training label of a case: inefficient iff some label fired, the
      severity ladder on the score, the first label as primary bottleneck,
      and the labels' optimisation potential. */
  lemma TrainingLabelFacts(f: CaseFeatures)
    ensures var t := LabelCase(f).trainingLabel;
      (t.hasInefficiencies <==> CaseLabels(f) != []) &&
      (t.primaryBottleneck.None? <==> CaseLabels(f) == []) &&
      (t.primaryBottleneck.Some? ==> t.primaryBottleneck.value == CaseLabels(f)[0].kind) &&
      t.severityLevel == SeverityLevel(TotalIncrement(CaseLabels(f))) &&
      (t.severityLevel == High <==> TotalIncrement(CaseLabels(f)) >= 5) &&
      (t.severityLevel == Medium <==> 2 <= TotalIncrement(CaseLabels(f)) < 5) &&
      (t.severityLevel == Low <==> TotalIncrement(CaseLabels(f)) < 2) &&
      (t.severityLevel == Low <==> forall k :: 0 <= k < |CaseLabels(f)| ==> CaseLabels(f)[k].kind == ProcessComplexity) &&
      (t.severityLevel == Low ==> !t.hasInefficiencies || CaseLabels(f)[0].kind == ProcessComplexity) &&
      t.optimizationPotentialPercent == OptimizationPotential(CaseLabels(f)) &&
      0.0 <= t.optimizationPotentialPercent <= POTENTIAL_CAP
  {
    LowSeverityMeansOnlyComplexity(f);
    PotentialBounds(CaseLabels(f));
  }
}
