/** The deployment validator: checks the deployed system's infrastructure,
    uploaded data, framework knowledge, research compliance and configuration,
    and turns them into percentage scores, a weighted overall score, a report
    and a process exit code.

    Every AWS answer (bucket, table descriptions, Bedrock model list, S3
    objects and documents, the configuration table scan) is a field of an
    `Environment` value fixed when the validator is created. */
module SystemValidation {
  import opened Common

  // ===========================================================================
  // The environment the validator observes
  // ===========================================================================

  /** The agile knowledge document: the length of each list it holds, `None`
      when the key is absent, and whether its metadata names a source. */
  datatype AgileDoc = AgileDoc(
    coreValues: Option<nat>,
    twelvePrinciples: Option<nat>,
    detectionRules: Option<nat>,
    sourceCited: bool)

  datatype LeanDoc = LeanDoc(
    sevenWastes: Option<nat>,
    fiveLeanPrinciples: Option<nat>,
    detectionRules: Option<nat>)

  /** The "organize to value" section, when present, and the length of its
      `elements` list, when that key is present. */
  datatype OrganizeToValue = OrganizeToValue(elements: Option<nat>)

  datatype OperatingModelDoc = OperatingModelDoc(
    organizeToValue: Option<OrganizeToValue>,
    violations: Option<nat>,
    patterns: Option<nat>)

  datatype IntegrationDoc = IntegrationDoc(
    recommendations: Option<nat>,
    synergies: Option<nat>,
    detectionFramework: bool)

  /** One item of the configuration table; the two optional attributes may be
      missing. */
  datatype ConfigItem = ConfigItem(
    category: string,
    key: string,
    value: string,
    dataType: Option<string>,
    environment: Option<string>)

  /** What the AWS calls would answer. A `None` document or scan is a call
      that raised; a table missing from `tableStatuses` is one whose
      description failed; an object missing from `objectSizes` is one whose
      lookup failed. */
  datatype Environment = Environment(
    bucketExists: bool,
    tableStatuses: map<string, string>,
    modelIds: Option<seq<string>>,
    objectSizes: map<string, nat>,
    agileDoc: Option<AgileDoc>,
    leanDoc: Option<LeanDoc>,
    operatingModelDoc: Option<OperatingModelDoc>,
    integrationDoc: Option<IntegrationDoc>,
    benchmarkAlignment: Option<bool>,
    configItems: Option<seq<ConfigItem>>)

  // ===========================================================================
  // Infrastructure
  // ===========================================================================

  const REQUIRED_TABLES: seq<string> := [
    "workflow-processing-state",
    "agent-performance-metrics",
    "workflow-optimization-results",
    "system-configuration"
  ]

  const CLAUDE_MODEL: string := "claude-3-5-sonnet"

  datatype InfrastructureResult = InfrastructureResult(
    s3Bucket: bool,
    dynamodbTables: map<string, bool>,
    iamRoles: bool,
    bedrockAccess: bool)

  predicate TableActive(statuses: map<string, string>, name: string)
  {
    name in statuses && statuses[name] == "ACTIVE"
  }

  /** The per-table flags recorded for `names`, in order. */
  function TableFlags(names: seq<string>, statuses: map<string, string>): map<string, bool>
  {
    if names == [] then map[]
    else TableFlags(names[..|names| - 1], statuses)[names[|names| - 1] := TableActive(statuses, names[|names| - 1])]
  }

  /** Whether the listed models include a Claude 3.5 Sonnet; a failed listing
      grants no access. */
  predicate ClaudeAvailable(modelIds: Option<seq<string>>)
  {
    modelIds.Some? && exists i :: 0 <= i < |modelIds.value| && Contains(modelIds.value[i], CLAUDE_MODEL)
  }

  function InfrastructureOf(env: Environment): InfrastructureResult
  {
    InfrastructureResult(env.bucketExists, TableFlags(REQUIRED_TABLES, env.tableStatuses), false,
                         ClaudeAvailable(env.modelIds))
  }

  /** Exactly the required tables are recorded, each as active or not. */
  lemma {:induction false} TableFlagsEntries(names: seq<string>, statuses: map<string, string>)
    ensures TableFlags(names, statuses).Keys == set n | n in names
    ensures forall n :: n in TableFlags(names, statuses) ==> TableFlags(names, statuses)[n] == TableActive(statuses, n)
  {
    if names != [] {
      var init := names[..|names| - 1];
      TableFlagsEntries(init, statuses);
      assert names == init + [names[|names| - 1]];
    }
  }

  /** The number of tables recorded as active. */
  function ActiveTables(tables: map<string, bool>): nat
  {
    |set t | t in tables && tables[t]|
  }

  lemma {:induction false} SubsetSize<T>(a: set<T>, b: set<T>)
    requires a <= b
    ensures |a| <= |b|
    decreases |b|
  {
    if a != {} {
      var x :| x in a;
      SubsetSize(a - {x}, b - {x});
    }
  }

  lemma RequiredTableCount()
    ensures |set n | n in REQUIRED_TABLES| == 4
  {
    assert (set n | n in REQUIRED_TABLES) ==
      {"workflow-processing-state", "agent-performance-metrics", "workflow-optimization-results", "system-configuration"};
  }

  /** At most the four required tables are active. */
  lemma ActiveTablesBound(env: Environment)
    ensures ActiveTables(InfrastructureOf(env).dynamodbTables) <= 4
    ensures ActiveTables(InfrastructureOf(env).dynamodbTables) == 4 <==>
      forall n :: n in REQUIRED_TABLES ==> TableActive(env.tableStatuses, n)
  {
    var tables := InfrastructureOf(env).dynamodbTables;
    TableFlagsEntries(REQUIRED_TABLES, env.tableStatuses);
    RequiredTableCount();
    var active := set t | t in tables && tables[t];
    SubsetSize(active, tables.Keys);
    if forall n :: n in REQUIRED_TABLES ==> TableActive(env.tableStatuses, n) {
      assert active == tables.Keys;
    } else {
      var n :| n in REQUIRED_TABLES && !TableActive(env.tableStatuses, n);
      assert n in tables.Keys - active;
      SubsetSize(active, tables.Keys - {n});
    }
  }

  // ===========================================================================
  // Data completeness
  // ===========================================================================

  const TRAINING_FILES: seq<string> := [
    "training_data/input_agent_training.jsonl",
    "training_data/analysis_agent_training.jsonl",
    "training_data/optimization_agent_training.jsonl",
    "training_data/output_agent_training.jsonl",
    "training_data/combined_training_dataset.jsonl"
  ]

  const FRAMEWORK_FILES: seq<string> := [
    "framework_knowledge/agile_framework_knowledge.json",
    "framework_knowledge/lean_framework_knowledge.json",
    "framework_knowledge/operating_model_knowledge.json",
    "framework_knowledge/integrated_optimization_rules.json",
    "framework_knowledge/system_prompts.json"
  ]

  const VALIDATION_FILES: seq<string> := [
    "validation_data/validation_cases.json",
    "validation_data/benchmark_examples.json",
    "validation_data/university_test_data.json"
  ]

  /** An object lookup: found with its size, or failed. */
  datatype FileCheck = Found(size: nat) | NotFound

  datatype DataResult = DataResult(
    trainingData: map<string, FileCheck>,
    frameworkKnowledge: map<string, FileCheck>,
    validationData: map<string, FileCheck>,
    dataQualityScore: real)

  function CheckOf(sizes: map<string, nat>, path: string): FileCheck
  {
    if path in sizes then Found(sizes[path]) else NotFound
  }

  /** The lookups recorded for `paths`, in order. */
  function FileChecks(paths: seq<string>, sizes: map<string, nat>): map<string, FileCheck>
  {
    if paths == [] then map[]
    else FileChecks(paths[..|paths| - 1], sizes)[paths[|paths| - 1] := CheckOf(sizes, paths[|paths| - 1])]
  }

  /** The number of recorded lookups that found their object. */
  function FoundCount(checks: map<string, FileCheck>): nat
  {
    |set p | p in checks && checks[p].Found?|
  }

  /** The number of `paths` present in `sizes`. */
  function PresentCount(paths: seq<string>, sizes: map<string, nat>): (n: nat)
    ensures n <= |paths|
  {
    if paths == [] then 0
    else PresentCount(paths[..|paths| - 1], sizes) + (if paths[|paths| - 1] in sizes then 1 else 0)
  }

  /** `existing / total * 100` over the thirteen expected objects. */
  function DataQualityScore(existing: nat): real
  {
    existing as real / 13.0 * 100.0
  }

  function DataResultOf(env: Environment): DataResult
  {
    var training := FileChecks(TRAINING_FILES, env.objectSizes);
    var framework := FileChecks(FRAMEWORK_FILES, env.objectSizes);
    var validation := FileChecks(VALIDATION_FILES, env.objectSizes);
    DataResult(training, framework, validation,
               DataQualityScore(FoundCount(training) + FoundCount(framework) + FoundCount(validation)))
  }

  /** Each listed path is recorded once, as found exactly when it is present. */
  lemma {:induction false} FileChecksEntries(paths: seq<string>, sizes: map<string, nat>)
    ensures FileChecks(paths, sizes).Keys == set p | p in paths
    ensures forall p :: p in FileChecks(paths, sizes) ==> FileChecks(paths, sizes)[p] == CheckOf(sizes, p)
  {
    if paths != [] {
      var init := paths[..|paths| - 1];
      FileChecksEntries(init, sizes);
      assert paths == init + [paths[|paths| - 1]];
    }
  }

  /** Counting the found entries of the recorded map is counting the present
      paths, because no path is listed twice. */
  lemma {:induction false} FoundCountIsPresentCount(paths: seq<string>, sizes: map<string, nat>)
    requires NoDuplicates(paths)
    ensures FoundCount(FileChecks(paths, sizes)) == PresentCount(paths, sizes)
  {
    if paths != [] {
      var init := paths[..|paths| - 1];
      var last := paths[|paths| - 1];
      assert NoDuplicates(init);
      FoundCountIsPresentCount(init, sizes);
      FileChecksEntries(init, sizes);
      assert last !in FileChecks(init, sizes);
      var before := FileChecks(init, sizes);
      var after := FileChecks(paths, sizes);
      var foundBefore := set p | p in before && before[p].Found?;
      var foundAfter := set p | p in after && after[p].Found?;
      if last in sizes {
        assert foundAfter == foundBefore + {last};
      } else {
        assert foundAfter == foundBefore;
      }
    }
  }

  /** All of `paths` are present exactly when the present count is `|paths|`. */
  lemma {:induction false} PresentCountFull(paths: seq<string>, sizes: map<string, nat>)
    ensures PresentCount(paths, sizes) == |paths| <==> forall p :: p in paths ==> p in sizes
  {
    if paths != [] {
      var init := paths[..|paths| - 1];
      PresentCountFull(init, sizes);
      assert paths == init + [paths[|paths| - 1]];
    }
  }

  lemma ExpectedFilesDistinct()
    ensures NoDuplicates(TRAINING_FILES) && NoDuplicates(FRAMEWORK_FILES) && NoDuplicates(VALIDATION_FILES)
  {
  }

  /** The data-quality score is a percentage, and it is 100 exactly when all
      thirteen expected objects are present. */
  lemma DataQualityBounds(env: Environment)
    ensures 0.0 <= DataResultOf(env).dataQualityScore <= 100.0
    ensures DataResultOf(env).dataQualityScore == 100.0 <==>
      forall p :: (p in TRAINING_FILES || p in FRAMEWORK_FILES || p in VALIDATION_FILES) ==> p in env.objectSizes
  {
    var sizes := env.objectSizes;
    ExpectedFilesDistinct();
    FoundCountIsPresentCount(TRAINING_FILES, sizes);
    FoundCountIsPresentCount(FRAMEWORK_FILES, sizes);
    FoundCountIsPresentCount(VALIDATION_FILES, sizes);
    PresentCountFull(TRAINING_FILES, sizes);
    PresentCountFull(FRAMEWORK_FILES, sizes);
    PresentCountFull(VALIDATION_FILES, sizes);
  }

  // ===========================================================================
  // Framework knowledge
  // ===========================================================================

  datatype AgileSummary = AgileSummary(
    coreValuesCount: nat, principlesCount: nat, detectionRulesCount: nat, validStructure: bool)

  datatype LeanSummary = LeanSummary(
    sevenWastesCount: nat, principlesCount: nat, detectionRulesCount: nat, validStructure: bool)

  datatype OperatingModelSummary = OperatingModelSummary(
    elementsCount: nat, violationsCount: nat, patternsCount: nat, validStructure: bool)

  datatype IntegrationSummary = IntegrationSummary(
    recommendationsCount: nat, synergiesCount: nat, detectionFrameworkExists: bool, validStructure: bool)

  /** The four summaries, each present once its document was read, the
      completeness score, and whether a document could not be read. */
  datatype KnowledgeResult = KnowledgeResult(
    agile: Option<AgileSummary>,
    lean: Option<LeanSummary>,
    operatingModel: Option<OperatingModelSummary>,
    integration: Option<IntegrationSummary>,
    completenessScore: real,
    validationError: bool)

  function SummariseAgile(d: AgileDoc): AgileSummary
  {
    AgileSummary(d.coreValues.UnwrapOr(0), d.twelvePrinciples.UnwrapOr(0), d.detectionRules.UnwrapOr(0),
                 d.coreValues.Some? && d.twelvePrinciples.Some?)
  }

  function SummariseLean(d: LeanDoc): LeanSummary
  {
    LeanSummary(d.sevenWastes.UnwrapOr(0), d.fiveLeanPrinciples.UnwrapOr(0), d.detectionRules.UnwrapOr(0),
                d.sevenWastes.Some? && d.fiveLeanPrinciples.Some?)
  }

  function SummariseOperatingModel(d: OperatingModelDoc): OperatingModelSummary
  {
    var elements := if d.organizeToValue.Some? then d.organizeToValue.value.elements.UnwrapOr(0) else 0;
    OperatingModelSummary(elements, d.violations.UnwrapOr(0), d.patterns.UnwrapOr(0), d.organizeToValue.Some?)
  }

  function SummariseIntegration(d: IntegrationDoc): IntegrationSummary
  {
    IntegrationSummary(d.recommendations.UnwrapOr(0), d.synergies.UnwrapOr(0), d.detectionFramework,
                       d.recommendations.Some?)
  }

  function Indicator(b: bool): nat
  {
    if b then 1 else 0
  }

  /** How many of the six completeness criteria hold: 4 core values, 12
      principles, 7 wastes, 5 lean principles, 5 operating-model elements
      and at least 5 integrated recommendations. */
  function CriteriaMet(a: AgileSummary, l: LeanSummary, o: OperatingModelSummary, i: IntegrationSummary): (n: nat)
    ensures n <= 6
  {
    Indicator(a.coreValuesCount == 4) + Indicator(a.principlesCount == 12) +
    Indicator(l.sevenWastesCount == 7) + Indicator(l.principlesCount == 5) +
    Indicator(o.elementsCount == 5) + Indicator(i.recommendationsCount >= 5)
  }

  /** The documents are read in order; the first that cannot be read stops
      the validation with a zero score and the summaries read so far. */
  function KnowledgeOf(env: Environment): KnowledgeResult
  {
    if env.agileDoc.None? then KnowledgeResult(None, None, None, None, 0.0, true)
    else
      var a := SummariseAgile(env.agileDoc.value);
      if env.leanDoc.None? then KnowledgeResult(Some(a), None, None, None, 0.0, true)
      else
        var l := SummariseLean(env.leanDoc.value);
        if env.operatingModelDoc.None? then KnowledgeResult(Some(a), Some(l), None, None, 0.0, true)
        else
          var o := SummariseOperatingModel(env.operatingModelDoc.value);
          if env.integrationDoc.None? then KnowledgeResult(Some(a), Some(l), Some(o), None, 0.0, true)
          else
            var i := SummariseIntegration(env.integrationDoc.value);
            KnowledgeResult(Some(a), Some(l), Some(o), Some(i), CriteriaMet(a, l, o, i) as real / 6.0 * 100.0, false)
  }

  /** The score is a percentage; a validation that read every document scores
      the share of criteria met, and 100 exactly when all six are; one that
      failed scores 0 and keeps only the summaries read before the failure. */
  lemma KnowledgeScore(env: Environment)
    ensures var r := KnowledgeOf(env); 0.0 <= r.completenessScore <= 100.0
    ensures KnowledgeOf(env).validationError <==>
      env.agileDoc.None? || env.leanDoc.None? || env.operatingModelDoc.None? || env.integrationDoc.None?
    ensures var r := KnowledgeOf(env);
      !r.validationError ==>
        r.agile.Some? && r.lean.Some? && r.operatingModel.Some? && r.integration.Some? &&
        r.completenessScore == CriteriaMet(r.agile.value, r.lean.value, r.operatingModel.value, r.integration.value) as real / 6.0 * 100.0 &&
        (r.completenessScore == 100.0 <==>
           r.agile.value.coreValuesCount == 4 && r.agile.value.principlesCount == 12 &&
           r.lean.value.sevenWastesCount == 7 && r.lean.value.principlesCount == 5 &&
           r.operatingModel.value.elementsCount == 5 && r.integration.value.recommendationsCount >= 5)
    ensures var r := KnowledgeOf(env);
      r.validationError ==>
        r.completenessScore == 0.0 &&
        (r.agile.Some? <==> env.agileDoc.Some?) &&
        (r.lean.Some? <==> env.agileDoc.Some? && env.leanDoc.Some?) &&
        (r.operatingModel.Some? <==> env.agileDoc.Some? && env.leanDoc.Some? && env.operatingModelDoc.Some?) &&
        r.integration.None?
  {
  }

  // ===========================================================================
  // Research compliance
  // ===========================================================================

  /** The benchmark flag once the benchmark document was read, the citation
      flag once the agile document was read (the methodology and empirical
      criteria are recorded as constant `true` with it), the score, and
      whether a document could not be read. */
  datatype ComplianceResult = ComplianceResult(
    benchmarksImplemented: Option<bool>,
    agileSourceCited: Option<bool>,
    complianceScore: real,
    validationError: bool)

  /** Four criteria, the last two of which always hold. */
  function ComplianceScore(benchmarksImplemented: bool, agileSourceCited: bool): real
  {
    (Indicator(benchmarksImplemented) + Indicator(agileSourceCited) + 2) as real / 4.0 * 100.0
  }

  function ComplianceOf(env: Environment): ComplianceResult
  {
    if env.benchmarkAlignment.None? then ComplianceResult(None, None, 0.0, true)
    else if env.agileDoc.None? then ComplianceResult(Some(env.benchmarkAlignment.value), None, 0.0, true)
    else
      var b := env.benchmarkAlignment.value;
      var c := env.agileDoc.value.sourceCited;
      ComplianceResult(Some(b), Some(c), ComplianceScore(b, c), false)
  }

  /** A completed validation scores 50, 75 or 100 (100 exactly when both
      the benchmarks and the citation are in place); a failed one scores 0. */
  lemma ComplianceLevels(env: Environment)
    ensures var r := ComplianceOf(env); 0.0 <= r.complianceScore <= 100.0
    ensures ComplianceOf(env).validationError <==> env.benchmarkAlignment.None? || env.agileDoc.None?
    ensures var r := ComplianceOf(env);
      r.validationError ==> r.complianceScore == 0.0 && r.agileSourceCited.None?
    ensures var r := ComplianceOf(env);
      !r.validationError ==>
        (r.complianceScore == 50.0 || r.complianceScore == 75.0 || r.complianceScore == 100.0) &&
        (r.complianceScore == 100.0 <==> r.benchmarksImplemented == Some(true) && r.agileSourceCited == Some(true))
  {
  }

  // ===========================================================================
  // System configuration
  // ===========================================================================

  const REQUIRED_CONFIGS: seq<string> := [
    "thresholds.max_processing_time",
    "quality.minimum_quality_score",
    "features.multi_agent_enabled",
    "bedrock.model_id"
  ]

  datatype ConfigEntry = ConfigEntry(value: string, dataType: string, environment: string)

  /** The recorded items, whether the scan succeeded, the completeness
      percentage and, after a successful scan, the missing required keys. */
  datatype ConfigResult = ConfigResult(
    configurationItems: map<string, ConfigEntry>,
    validSettings: bool,
    configurationCompleteness: real,
    missingConfigurations: Option<seq<string>>)

  /** An item is recorded under `category.key`. */
  function QualifiedKey(item: ConfigItem): string
  {
    item.category + "." + item.key
  }

  function EntryOf(item: ConfigItem): ConfigEntry
  {
    ConfigEntry(item.value, item.dataType.UnwrapOr("string"), item.environment.UnwrapOr("unknown"))
  }

  /** The items recorded in scan order; a later item with the same qualified
      key replaces an earlier one. */
  function RecordedItems(items: seq<ConfigItem>): map<string, ConfigEntry>
  {
    if items == [] then map[]
    else RecordedItems(items[..|items| - 1])[QualifiedKey(items[|items| - 1]) := EntryOf(items[|items| - 1])]
  }

  /** The required keys absent from `keys`, in the required order. */
  function MissingKeys(required: seq<string>, keys: set<string>): (r: seq<string>)
    ensures |r| <= |required|
  {
    if required == [] then []
    else (if required[0] in keys then [] else [required[0]]) + MissingKeys(required[1..], keys)
  }

  function ConfigCompleteness(missing: nat): real
  {
    (4 - missing) as real / 4.0 * 100.0
  }

  function ConfigurationOf(env: Environment): ConfigResult
  {
    if env.configItems.None? then ConfigResult(map[], false, 0.0, None)
    else
      var recorded := RecordedItems(env.configItems.value);
      var missing := MissingKeys(REQUIRED_CONFIGS, recorded.Keys);
      ConfigResult(recorded, true, ConfigCompleteness(|missing|), Some(missing))
  }

  /** The recorded keys are exactly the items' qualified keys, and each holds
      the entry of the last item with that key. */
  lemma {:induction false} RecordedItemsLastWins(items: seq<ConfigItem>)
    ensures RecordedItems(items).Keys == set i | i in items :: QualifiedKey(i)
    ensures forall k :: k in RecordedItems(items) ==>
      exists n :: 0 <= n < |items| && QualifiedKey(items[n]) == k && RecordedItems(items)[k] == EntryOf(items[n]) &&
                  forall m :: n < m < |items| ==> QualifiedKey(items[m]) != k
  {
    if items != [] {
      var init := items[..|items| - 1];
      var last := items[|items| - 1];
      RecordedItemsLastWins(init);
      assert items == init + [last];
      forall k | k in RecordedItems(items)
        ensures exists n :: 0 <= n < |items| && QualifiedKey(items[n]) == k && RecordedItems(items)[k] == EntryOf(items[n]) &&
                            forall m :: n < m < |items| ==> QualifiedKey(items[m]) != k
      {
        if k == QualifiedKey(last) {
          assert QualifiedKey(items[|items| - 1]) == k;
        } else {
          var n :| 0 <= n < |init| && QualifiedKey(init[n]) == k && RecordedItems(init)[k] == EntryOf(init[n]) &&
            forall m :: n < m < |init| ==> QualifiedKey(init[m]) != k;
          assert QualifiedKey(items[n]) == k;
        }
      }
    }
  }

  /** A key is missing exactly when it is required and not recorded. */
  lemma {:induction false} MissingKeysMembers(required: seq<string>, keys: set<string>)
    ensures forall k :: k in MissingKeys(required, keys) <==> k in required && k !in keys
  {
    if required != [] {
      MissingKeysMembers(required[1..], keys);
      assert required == [required[0]] + required[1..];
    }
  }

  /** After a successful scan, the missing list names exactly the absent
      required keys and the completeness is the recorded share of the four
      required keys, as a percentage; a failed scan scores 0. */
  lemma ConfigurationCompleteness(env: Environment)
    ensures var r := ConfigurationOf(env); 0.0 <= r.configurationCompleteness <= 100.0
    ensures var r := ConfigurationOf(env);
      r.validSettings <==> r.missingConfigurations.Some?
    ensures var r := ConfigurationOf(env);
      r.validSettings ==>
        (forall k :: k in r.missingConfigurations.value <==> k in REQUIRED_CONFIGS && k !in r.configurationItems) &&
        (r.configurationCompleteness == 100.0 <==> forall k :: k in REQUIRED_CONFIGS ==> k in r.configurationItems)
    ensures var r := ConfigurationOf(env); !r.validSettings ==> r.configurationCompleteness == 0.0
  {
    if env.configItems.Some? {
      var r := ConfigurationOf(env);
      MissingKeysMembers(REQUIRED_CONFIGS, r.configurationItems.Keys);
      var missing := r.missingConfigurations.value;
      if forall k :: k in REQUIRED_CONFIGS ==> k in r.configurationItems {
        if missing != [] {
          assert missing[0] in missing;
        }
      }
    }
  }

  // ===========================================================================
  // Scores
  // ===========================================================================

  /** 25 for the bucket, 50 shared by the four tables, 25 for Bedrock; a
      section not yet validated scores 0. */
  function InfrastructureScore(infra: Option<InfrastructureResult>): real
  {
    if infra.None? then 0.0
    else
      var r := infra.value;
      (if r.s3Bucket then 25.0 else 0.0) + ActiveTables(r.dynamodbTables) as real / 4.0 * 50.0 +
      (if r.bedrockAccess then 25.0 else 0.0)
  }

  /** The weighted overall score: infrastructure 25%, data quality 20%,
      framework knowledge 25%, research compliance 30%. */
  function Weighted(infrastructure: real, data: real, framework: real, research: real): real
  {
    infrastructure * 0.25 + data * 0.20 + framework * 0.25 + research * 0.30
  }

  /** The weights sum to one: equal components give that same overall score. */
  lemma WeightsSumToOne(c: real)
    ensures Weighted(c, c, c, c) == c
  {
  }

  /** Percentages in, a percentage out. */
  lemma WeightedBounds(i: real, d: real, f: real, r: real)
    requires 0.0 <= i <= 100.0 && 0.0 <= d <= 100.0 && 0.0 <= f <= 100.0 && 0.0 <= r <= 100.0
    ensures 0.0 <= Weighted(i, d, f, r) <= 100.0
  {
  }

  /** Raising any component never lowers the overall score. */
  lemma WeightedMonotone(i: real, d: real, f: real, r: real, i': real, d': real, f': real, r': real)
    requires i <= i' && d <= d' && f <= f' && r <= r'
    ensures Weighted(i, d, f, r) <= Weighted(i', d', f', r')
  {
  }

  /** The infrastructure score of a validated environment is a percentage,
      and 100 exactly when the bucket, all four tables and Bedrock pass. */
  lemma InfrastructureBounds(env: Environment)
    ensures 0.0 <= InfrastructureScore(Some(InfrastructureOf(env))) <= 100.0
    ensures InfrastructureScore(Some(InfrastructureOf(env))) == 100.0 <==>
      env.bucketExists && ClaudeAvailable(env.modelIds) &&
      forall n :: n in REQUIRED_TABLES ==> TableActive(env.tableStatuses, n)
  {
    ActiveTablesBound(env);
  }

  datatype Status = Pass | Warning | Fail

  /** A component's status in the report. */
  function ComponentStatus(score: real): (s: Status)
    ensures s == Pass <==> score >= 80.0
    ensures s == Warning <==> 60.0 <= score < 80.0
    ensures s == Fail <==> score < 60.0
  {
    if score >= 80.0 then Pass else if score >= 60.0 then Warning else Fail
  }

  /** The process exit code for an overall score. */
  function ExitCode(overall: real): (code: int)
    ensures code == 0 <==> overall >= 80.0
    ensures code == 1 <==> 60.0 <= overall < 80.0
    ensures code == 2 <==> overall < 60.0
  {
    if overall >= 80.0 then 0 else if overall >= 60.0 then 1 else 2
  }

  /** Both ladders cut at the same points. */
  lemma ExitCodeMatchesStatus(score: real)
    ensures ExitCode(score) == 0 <==> ComponentStatus(score) == Pass
    ensures ExitCode(score) == 1 <==> ComponentStatus(score) == Warning
    ensures ExitCode(score) == 2 <==> ComponentStatus(score) == Fail
  {
  }

  /** The report's closing assessment of the overall score. */
  datatype Outlook = ReadyForProduction | ReadyWithOptimizations | AddressIssues | SignificantIssues

  function OutlookOf(overall: real): (o: Outlook)
    ensures o == ReadyForProduction <==> overall >= 90.0
    ensures o == ReadyWithOptimizations <==> 80.0 <= overall < 90.0
    ensures o == AddressIssues <==> 70.0 <= overall < 80.0
    ensures o == SignificantIssues <==> overall < 70.0
  {
    if overall >= 90.0 then ReadyForProduction
    else if overall >= 80.0 then ReadyWithOptimizations
    else if overall >= 70.0 then AddressIssues
    else SignificantIssues
  }

  /** The report's follow-up recommendations. */
  datatype ReportAdvice = UploadMissingData | VerifyBedrockAccess | CompleteResearchCompliance

  /** The recommendations due, in the order the report lists them: data
      quality below 80, no Bedrock access, research compliance below 80. */
  function AdviceDue(dataScore: real, bedrockAccess: bool, complianceScore: real): (r: seq<ReportAdvice>)
    ensures UploadMissingData in r <==> dataScore < 80.0
    ensures VerifyBedrockAccess in r <==> !bedrockAccess
    ensures CompleteResearchCompliance in r <==> complianceScore < 80.0
    ensures |r| <= 3
  {
    (if dataScore < 80.0 then [UploadMissingData] else []) +
    (if !bedrockAccess then [VerifyBedrockAccess] else []) +
    (if complianceScore < 80.0 then [CompleteResearchCompliance] else [])
  }

  /** A model listing that raises grants no Bedrock access: the
      infrastructure score is then at most 75, and the report always asks to
      verify that access. */
  lemma FailedListing(env: Environment)
    requires env.modelIds.None?
    ensures !InfrastructureOf(env).bedrockAccess
    ensures InfrastructureScore(Some(InfrastructureOf(env))) <= 75.0
    ensures forall dataScore, complianceScore ::
      VerifyBedrockAccess in AdviceDue(dataScore, InfrastructureOf(env).bedrockAccess, complianceScore)
  {
    ActiveTablesBound(env);
  }

  const COMPONENT_NAMES: seq<string> := ["Infrastructure", "Data Quality", "Framework Knowledge", "Research Compliance"]

  /** One line of the report's component table. */
  datatype ComponentLine = ComponentLine(name: string, score: real, status: Status)

  datatype ValidationReport = ValidationReport(
    overallScore: real,
    components: seq<ComponentLine>,
    s3Bucket: bool,
    activeTables: nat,
    bedrockAccess: bool,
    dataQualityScore: real,
    frameworkKnowledgeOk: bool,
    benchmarksImplemented: bool,
    frameworkCitations: bool,
    academicRigor: bool,
    outlook: Outlook,
    advice: seq<ReportAdvice>)

  function DataScore(data: Option<DataResult>): real
  {
    if data.Some? then data.value.dataQualityScore else 0.0
  }

  function KnowledgeScoreOf(knowledge: Option<KnowledgeResult>): real
  {
    if knowledge.Some? then knowledge.value.completenessScore else 0.0
  }

  function ComplianceScoreOf(compliance: Option<ComplianceResult>): real
  {
    if compliance.Some? then compliance.value.complianceScore else 0.0
  }

  /** The overall score once every validation has run against `env`. */
  function OverallOf(env: Environment): real
  {
    Weighted(InfrastructureScore(Some(InfrastructureOf(env))), DataResultOf(env).dataQualityScore,
             KnowledgeOf(env).completenessScore, ComplianceOf(env).complianceScore)
  }

  /** A full validation always yields a percentage and an exit code of 0, 1
      or 2. */
  lemma OverallOfBounds(env: Environment)
    ensures 0.0 <= OverallOf(env) <= 100.0
    ensures 0 <= ExitCode(OverallOf(env)) <= 2
  {
    InfrastructureBounds(env);
    DataQualityBounds(env);
    KnowledgeScore(env);
    ComplianceLevels(env);
    WeightedBounds(InfrastructureScore(Some(InfrastructureOf(env))), DataResultOf(env).dataQualityScore,
                   KnowledgeOf(env).completenessScore, ComplianceOf(env).complianceScore);
  }

  // ===========================================================================
  // The validator
  // ===========================================================================

  /** The validator and its results. A section is `None` until its
      validation has run (the empty dictionary it starts as). */
  class SystemValidator {
    const env: Environment
    var infrastructure: Option<InfrastructureResult>
    var dataValidation: Option<DataResult>
    var frameworkKnowledge: Option<KnowledgeResult>
    var researchCompliance: Option<ComplianceResult>
    var overallScore: real
    var componentScores: Option<map<string, real>>

    /** Every section that has run holds what its validation computes. */
    ghost predicate Valid()
      reads this
    {
      (infrastructure.Some? ==> infrastructure.value == InfrastructureOf(env)) &&
      (dataValidation.Some? ==> dataValidation.value == DataResultOf(env)) &&
      (frameworkKnowledge.Some? ==> frameworkKnowledge.value == KnowledgeOf(env)) &&
      (researchCompliance.Some? ==> researchCompliance.value == ComplianceOf(env))
    }

    constructor(env: Environment)
      ensures this.env == env && Valid()
      ensures infrastructure.None? && dataValidation.None? && frameworkKnowledge.None? && researchCompliance.None?
      ensures overallScore == 0.0 && componentScores.None?
    {
      this.env := env;
      infrastructure := None;
      dataValidation := None;
      frameworkKnowledge := None;
      researchCompliance := None;
      overallScore := 0.0;
      componentScores := None;
    }

    method ValidateInfrastructure() returns (r: InfrastructureResult)
      requires Valid()
      modifies this
      ensures r == InfrastructureOf(env) && infrastructure == Some(r)
      ensures dataValidation == old(dataValidation) && frameworkKnowledge == old(frameworkKnowledge)
      ensures researchCompliance == old(researchCompliance)
      ensures overallScore == old(overallScore) && componentScores == old(componentScores)
      ensures Valid()
    {
      var tables: map<string, bool> := map[];
      for i := 0 to |REQUIRED_TABLES|
        invariant tables == TableFlags(REQUIRED_TABLES[..i], env.tableStatuses)
      {
        var name := REQUIRED_TABLES[i];
        tables := tables[name := TableActive(env.tableStatuses, name)];
        assert REQUIRED_TABLES[..i + 1][..i] == REQUIRED_TABLES[..i];
      }
      assert REQUIRED_TABLES[..|REQUIRED_TABLES|] == REQUIRED_TABLES;
      r := InfrastructureResult(env.bucketExists, tables, false, ClaudeAvailable(env.modelIds));
      infrastructure := Some(r);
    }

    /** Looks up each of `paths`, in order. */
    method CheckObjects(paths: seq<string>) returns (checks: map<string, FileCheck>)
      ensures checks == FileChecks(paths, env.objectSizes)
    {
      checks := map[];
      for i := 0 to |paths|
        invariant checks == FileChecks(paths[..i], env.objectSizes)
      {
        checks := checks[paths[i] := CheckOf(env.objectSizes, paths[i])];
        assert paths[..i + 1][..i] == paths[..i];
      }
      assert paths[..|paths|] == paths;
    }

    method ValidateDataCompleteness() returns (r: DataResult)
      requires Valid()
      modifies this
      ensures r == DataResultOf(env) && dataValidation == Some(r)
      ensures infrastructure == old(infrastructure) && frameworkKnowledge == old(frameworkKnowledge)
      ensures researchCompliance == old(researchCompliance)
      ensures overallScore == old(overallScore) && componentScores == old(componentScores)
      ensures Valid()
    {
      var training := CheckObjects(TRAINING_FILES);
      var framework := CheckObjects(FRAMEWORK_FILES);
      var validation := CheckObjects(VALIDATION_FILES);
      var totalFiles := |TRAINING_FILES| + |FRAMEWORK_FILES| + |VALIDATION_FILES|;
      var existingFiles := FoundCount(training) + FoundCount(framework) + FoundCount(validation);
      r := DataResult(training, framework, validation, existingFiles as real / totalFiles as real * 100.0);
      dataValidation := Some(r);
    }

    method ValidateFrameworkKnowledge() returns (r: KnowledgeResult)
      requires Valid()
      modifies this
      ensures r == KnowledgeOf(env) && frameworkKnowledge == Some(r)
      ensures infrastructure == old(infrastructure) && dataValidation == old(dataValidation)
      ensures researchCompliance == old(researchCompliance)
      ensures overallScore == old(overallScore) && componentScores == old(componentScores)
      ensures Valid()
    {
      r := KnowledgeResult(None, None, None, None, 0.0, false);
      if env.agileDoc.None? {
        r := r.(validationError := true);
      } else {
        var agile := SummariseAgile(env.agileDoc.value);
        r := r.(agile := Some(agile));
        if env.leanDoc.None? {
          r := r.(validationError := true);
        } else {
          var lean := SummariseLean(env.leanDoc.value);
          r := r.(lean := Some(lean));
          if env.operatingModelDoc.None? {
            r := r.(validationError := true);
          } else {
            var operatingModel := SummariseOperatingModel(env.operatingModelDoc.value);
            r := r.(operatingModel := Some(operatingModel));
            if env.integrationDoc.None? {
              r := r.(validationError := true);
            } else {
              var integration := SummariseIntegration(env.integrationDoc.value);
              r := r.(integration := Some(integration));
              r := r.(completenessScore := CriteriaMet(agile, lean, operatingModel, integration) as real / 6.0 * 100.0);
            }
          }
        }
      }
      frameworkKnowledge := Some(r);
    }

    method ValidateResearchCompliance() returns (r: ComplianceResult)
      requires Valid()
      modifies this
      ensures r == ComplianceOf(env) && researchCompliance == Some(r)
      ensures infrastructure == old(infrastructure) && dataValidation == old(dataValidation)
      ensures frameworkKnowledge == old(frameworkKnowledge)
      ensures overallScore == old(overallScore) && componentScores == old(componentScores)
      ensures Valid()
    {
      r := ComplianceResult(None, None, 0.0, false);
      if env.benchmarkAlignment.None? {
        r := r.(validationError := true);
      } else {
        r := r.(benchmarksImplemented := Some(env.benchmarkAlignment.value));
        if env.agileDoc.None? {
          r := r.(validationError := true);
        } else {
          r := r.(agileSourceCited := Some(env.agileDoc.value.sourceCited));
          r := r.(complianceScore := ComplianceScore(env.benchmarkAlignment.value, env.agileDoc.value.sourceCited));
        }
      }
      researchCompliance := Some(r);
    }

    /** Reads the configuration table. Its result is returned, not stored. */
    method ValidateSystemConfiguration() returns (r: ConfigResult)
      ensures r == ConfigurationOf(env)
    {
      if env.configItems.None? {
        r := ConfigResult(map[], false, 0.0, None);
      } else {
        var items := env.configItems.value;
        var recorded: map<string, ConfigEntry> := map[];
        for i := 0 to |items|
          invariant recorded == RecordedItems(items[..i])
        {
          recorded := recorded[QualifiedKey(items[i]) := EntryOf(items[i])];
          assert items[..i + 1][..i] == items[..i];
        }
        assert items[..|items|] == items;
        var missing := MissingKeys(REQUIRED_CONFIGS, recorded.Keys);
        r := ConfigResult(recorded, true,
                          (|REQUIRED_CONFIGS| - |missing|) as real / |REQUIRED_CONFIGS| as real * 100.0, Some(missing));
      }
    }

    /** The weighted overall score of the sections validated so far; it is
        stored with the four component scores and returned. */
    method CalculateOverallScore() returns (overall: real)
      requires Valid()
      modifies this
      ensures overall == Weighted(InfrastructureScore(infrastructure), DataScore(dataValidation),
                                  KnowledgeScoreOf(frameworkKnowledge), ComplianceScoreOf(researchCompliance))
      ensures 0.0 <= overall <= 100.0
      ensures overallScore == overall
      ensures componentScores == Some(map[
        "Infrastructure" := InfrastructureScore(infrastructure),
        "Data Quality" := DataScore(dataValidation),
        "Framework Knowledge" := KnowledgeScoreOf(frameworkKnowledge),
        "Research Compliance" := ComplianceScoreOf(researchCompliance)])
      ensures infrastructure == old(infrastructure) && dataValidation == old(dataValidation)
      ensures frameworkKnowledge == old(frameworkKnowledge) && researchCompliance == old(researchCompliance)
      ensures Valid()
    {
      var infraScore := 0.0;
      if infrastructure.Some? {
        if infrastructure.value.s3Bucket {
          infraScore := infraScore + 25.0;
        }
        infraScore := infraScore + ActiveTables(infrastructure.value.dynamodbTables) as real / 4.0 * 50.0;
        if infrastructure.value.bedrockAccess {
          infraScore := infraScore + 25.0;
        }
      }
      var dataScore := DataScore(dataValidation);
      var frameworkScore := KnowledgeScoreOf(frameworkKnowledge);
      var researchScore := ComplianceScoreOf(researchCompliance);
      SectionBounds();
      WeightedBounds(infraScore, dataScore, frameworkScore, researchScore);
      overall := infraScore * 0.25 + dataScore * 0.20 + frameworkScore * 0.25 + researchScore * 0.30;
      overallScore := overall;
      componentScores := Some(map[
        "Infrastructure" := infraScore,
        "Data Quality" := dataScore,
        "Framework Knowledge" := frameworkScore,
        "Research Compliance" := researchScore]);
    }

    /** Every stored section score is a percentage. */
    lemma SectionBounds()
      requires Valid()
      ensures 0.0 <= InfrastructureScore(infrastructure) <= 100.0
      ensures 0.0 <= DataScore(dataValidation) <= 100.0
      ensures 0.0 <= KnowledgeScoreOf(frameworkKnowledge) <= 100.0
      ensures 0.0 <= ComplianceScoreOf(researchCompliance) <= 100.0
    {
      InfrastructureBounds(env);
      DataQualityBounds(env);
      KnowledgeScore(env);
      ComplianceLevels(env);
    }

    /** Recomputes the overall score and renders it with each component's
        status, the section summaries and the recommendations. */
    method GenerateValidationReport() returns (report: ValidationReport)
      requires Valid()
      modifies this
      ensures overallScore == Weighted(InfrastructureScore(infrastructure), DataScore(dataValidation),
                                       KnowledgeScoreOf(frameworkKnowledge), ComplianceScoreOf(researchCompliance))
      ensures 0.0 <= overallScore <= 100.0
      ensures report.overallScore == overallScore
      ensures report.outlook == OutlookOf(overallScore)
      ensures componentScores == Some(map[
        "Infrastructure" := InfrastructureScore(infrastructure),
        "Data Quality" := DataScore(dataValidation),
        "Framework Knowledge" := KnowledgeScoreOf(frameworkKnowledge),
        "Research Compliance" := ComplianceScoreOf(researchCompliance)])
      ensures |report.components| == 4
      ensures forall k :: 0 <= k < 4 ==>
        report.components[k].name == COMPONENT_NAMES[k] &&
        report.components[k].score == componentScores.value[COMPONENT_NAMES[k]] &&
        report.components[k].status == ComponentStatus(report.components[k].score)
      ensures UploadMissingData in report.advice <==> DataScore(dataValidation) < 80.0
      ensures VerifyBedrockAccess in report.advice <==> !(infrastructure.Some? && infrastructure.value.bedrockAccess)
      ensures CompleteResearchCompliance in report.advice <==> ComplianceScoreOf(researchCompliance) < 80.0
      ensures report.advice == AdviceDue(DataScore(dataValidation),
                                         infrastructure.Some? && infrastructure.value.bedrockAccess,
                                         ComplianceScoreOf(researchCompliance))
      ensures report.s3Bucket <==> infrastructure.Some? && infrastructure.value.s3Bucket
      ensures report.activeTables == (if infrastructure.Some? then ActiveTables(infrastructure.value.dynamodbTables) else 0)
      ensures report.bedrockAccess <==> infrastructure.Some? && infrastructure.value.bedrockAccess
      ensures report.dataQualityScore == DataScore(dataValidation)
      ensures report.benchmarksImplemented <==>
        researchCompliance.Some? && researchCompliance.value.benchmarksImplemented == Some(true)
      ensures report.frameworkCitations <==>
        researchCompliance.Some? && researchCompliance.value.agileSourceCited == Some(true)
      ensures report.frameworkKnowledgeOk <==> KnowledgeScoreOf(frameworkKnowledge) > 80.0
      ensures report.academicRigor <==> ComplianceScoreOf(researchCompliance) > 80.0
      ensures infrastructure == old(infrastructure) && dataValidation == old(dataValidation)
      ensures frameworkKnowledge == old(frameworkKnowledge) && researchCompliance == old(researchCompliance)
      ensures Valid()
    {
      var overall := CalculateOverallScore();
      var components := ComponentLines(componentScores.value);
      var infra := if infrastructure.Some? then infrastructure.value else InfrastructureResult(false, map[], false, false);
      var advice := CollectAdvice(DataScore(dataValidation), infra.bedrockAccess, ComplianceScoreOf(researchCompliance));
      var benchmarks := researchCompliance.Some? && researchCompliance.value.benchmarksImplemented == Some(true);
      var citations := researchCompliance.Some? && researchCompliance.value.agileSourceCited == Some(true);
      report := ValidationReport(
        overall, components, infra.s3Bucket, ActiveTables(infra.dynamodbTables), infra.bedrockAccess,
        DataScore(dataValidation), KnowledgeScoreOf(frameworkKnowledge) > 80.0, benchmarks, citations,
        ComplianceScoreOf(researchCompliance) > 80.0, OutlookOf(overall), advice);
    }

    /** One status line per component, in the report's order. */
    static method ComponentLines(scores: map<string, real>) returns (components: seq<ComponentLine>)
      requires forall name :: name in COMPONENT_NAMES ==> name in scores
      ensures |components| == |COMPONENT_NAMES|
      ensures forall k :: 0 <= k < |COMPONENT_NAMES| ==>
        components[k] == ComponentLine(COMPONENT_NAMES[k], scores[COMPONENT_NAMES[k]],
                                       ComponentStatus(scores[COMPONENT_NAMES[k]]))
    {
      components := [];
      for k := 0 to |COMPONENT_NAMES|
        invariant |components| == k
        invariant forall j :: 0 <= j < k ==>
          components[j] == ComponentLine(COMPONENT_NAMES[j], scores[COMPONENT_NAMES[j]],
                                         ComponentStatus(scores[COMPONENT_NAMES[j]]))
      {
        var name := COMPONENT_NAMES[k];
        components := components + [ComponentLine(name, scores[name], ComponentStatus(scores[name]))];
      }
    }

    /** The report's recommendations, appended one check at a time. */
    static method CollectAdvice(dataScore: real, bedrockAccess: bool, complianceScore: real)
      returns (advice: seq<ReportAdvice>)
      ensures advice == AdviceDue(dataScore, bedrockAccess, complianceScore)
    {
      advice := [];
      if dataScore < 80.0 {
        advice := advice + [UploadMissingData];
      }
      if !bedrockAccess {
        advice := advice + [VerifyBedrockAccess];
      }
      if complianceScore < 80.0 {
        advice := advice + [CompleteResearchCompliance];
      }
    }

    /** Runs every validation, then scores them. The configuration result is
        computed and discarded. */
    method RunFullValidation()
      requires Valid()
      modifies this
      ensures infrastructure == Some(InfrastructureOf(env)) && dataValidation == Some(DataResultOf(env))
      ensures frameworkKnowledge == Some(KnowledgeOf(env)) && researchCompliance == Some(ComplianceOf(env))
      ensures overallScore == OverallOf(env)
      ensures componentScores == Some(map[
        "Infrastructure" := InfrastructureScore(Some(InfrastructureOf(env))),
        "Data Quality" := DataResultOf(env).dataQualityScore,
        "Framework Knowledge" := KnowledgeOf(env).completenessScore,
        "Research Compliance" := ComplianceOf(env).complianceScore])
      ensures Valid()
    {
      var _ := ValidateInfrastructure();
      var _ := ValidateDataCompleteness();
      var _ := ValidateFrameworkKnowledge();
      var _ := ValidateResearchCompliance();
      var _ := ValidateSystemConfiguration();
      var _ := CalculateOverallScore();
    }
  }

  /** The command-line entry: validate everything and map the overall score
      to the exit code. */
  method ValidateAndExit(env: Environment) returns (code: int)
    ensures code == ExitCode(OverallOf(env))
    ensures code == 0 <==> OverallOf(env) >= 80.0
    ensures code == 1 <==> 60.0 <= OverallOf(env) < 80.0
    ensures code == 2 <==> OverallOf(env) < 60.0
  {
    var validator := new SystemValidator(env);
    validator.RunFullValidation();
    var overall := validator.overallScore;
    if overall >= 80.0 {
      code := 0;
    } else if overall >= 60.0 {
      code := 1;
    } else {
      code := 2;
    }
  }
}
