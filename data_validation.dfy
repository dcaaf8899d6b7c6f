/** The data validation suite: checks on the downloaded event logs, the
    extracted feature tables, the agreement with published benchmark ranges,
    the labelled cases and the framework knowledge files, combined into
    component scores, a readiness verdict and recommendations. The file system
    and JSON/CSV reading are replaced by inputs describing what each read
    found. */
module DataValidation {
  import opened Common

  /** The value stored under `key`, or 0 when there is none (`dict.get(k, 0)`). */
  function Get(m: map<string, nat>, key: string): nat
  {
    if key in m then m[key] else 0
  }

  // ===========================================================================
  // validate_data_download
  // ===========================================================================

  const EXPECTED_FILES: seq<string> := ["PermitLog.xes", "DomesticDeclarations.xes",
    "InternationalDeclarations.xes", "PrepaidTravelCost.xes", "RequestForPayment.xes"]

  const BYTES_PER_MB: real := 1048576.0

  datatype SizeRange = SizeRange(low: real, high: real)

  /** The expected size of each log in MB; other names get 0-100 MB. */
  function ExpectedSizeRange(filename: string): SizeRange
  {
    if filename == "PermitLog.xes" then SizeRange(30.0, 40.0)
    else if filename == "DomesticDeclarations.xes" then SizeRange(18.0, 25.0)
    else if filename == "InternationalDeclarations.xes" then SizeRange(25.0, 35.0)
    else if filename == "PrepaidTravelCost.xes" then SizeRange(6.0, 10.0)
    else if filename == "RequestForPayment.xes" then SizeRange(12.0, 18.0)
    else SizeRange(0.0, 100.0)
  }

  function SizeMb(bytes: nat): real
  {
    bytes as real / BYTES_PER_MB
  }

  /** The size lies within the expected range, both ends included. */
  predicate SizeOk(filename: string, bytes: nat)
  {
    ExpectedSizeRange(filename).low <= SizeMb(bytes) <= ExpectedSizeRange(filename).high
  }

  datatype FileDetail = FileDetail(sizeMb: real, sizeOk: bool, expectedRange: SizeRange)

  datatype DownloadResult = DownloadResult(
    downloadComplete: bool,
    fileDetails: map<string, FileDetail>,
    missingFiles: seq<string>,
    sizeIssues: seq<string>)

  /** The names of `names` that have no size, i.e. whose file does not exist. */
  function MissingFrom(names: seq<string>, sizes: map<string, nat>): seq<string>
  {
    if names == [] then []
    else
      var init, last := names[..|names| - 1], names[|names| - 1];
      MissingFrom(init, sizes) + (if last !in sizes then [last] else [])
  }

  /** The names of `names` whose file exists with a size out of range. */
  function SizeIssuesIn(names: seq<string>, sizes: map<string, nat>): seq<string>
  {
    if names == [] then []
    else
      var init, last := names[..|names| - 1], names[|names| - 1];
      SizeIssuesIn(init, sizes) + (if last in sizes && !SizeOk(last, sizes[last]) then [last] else [])
  }

  /** The two lists hold exactly the missing and the mis-sized names. */
  lemma {:induction false} DownloadLists(names: seq<string>, sizes: map<string, nat>)
    ensures forall f :: f in MissingFrom(names, sizes) <==> f in names && f !in sizes
    ensures forall f :: f in SizeIssuesIn(names, sizes) <==> f in names && f in sizes && !SizeOk(f, sizes[f])
  {
    if names != [] {
      var init := names[..|names| - 1];
      DownloadLists(init, sizes);
      assert names == init + [names[|names| - 1]];
    }
  }

  /** The download result for the given log sizes: the missing and the
      mis-sized logs in the expected order, complete iff none is missing, and
      a size record exactly for each expected log that exists. */
  ghost predicate DownloadReported(sizes: map<string, nat>, r: DownloadResult)
  {
    r.missingFiles == MissingFrom(EXPECTED_FILES, sizes) &&
    r.sizeIssues == SizeIssuesIn(EXPECTED_FILES, sizes) &&
    (r.downloadComplete <==> r.missingFiles == []) &&
    (forall f :: f in r.fileDetails <==> f in EXPECTED_FILES && f in sizes) &&
    (forall f :: f in r.fileDetails ==>
      r.fileDetails[f] == FileDetail(SizeMb(sizes[f]), SizeOk(f, sizes[f]), ExpectedSizeRange(f)))
  }

  /** `validate_data_download`: visits the expected files in order, records
      the size of each one present, and lists the missing and the mis-sized. */
  method ValidateDataDownload(sizes: map<string, nat>) returns (r: DownloadResult)
    ensures DownloadReported(sizes, r)
  {
    r := DownloadResult(true, map[], [], []);
    for i := 0 to |EXPECTED_FILES|
      invariant r.missingFiles == MissingFrom(EXPECTED_FILES[..i], sizes)
      invariant r.sizeIssues == SizeIssuesIn(EXPECTED_FILES[..i], sizes)
      invariant r.downloadComplete <==> r.missingFiles == []
      invariant forall f :: f in r.fileDetails <==> f in EXPECTED_FILES[..i] && f in sizes
      invariant forall f :: f in r.fileDetails ==>
        r.fileDetails[f] == FileDetail(SizeMb(sizes[f]), SizeOk(f, sizes[f]), ExpectedSizeRange(f))
    {
      var filename := EXPECTED_FILES[i];
      assert EXPECTED_FILES[..i + 1] == EXPECTED_FILES[..i] + [filename];
      if filename in sizes {
        var sizeMb := SizeMb(sizes[filename]);
        var expectedRange := ExpectedSizeRange(filename);
        var sizeOk := expectedRange.low <= sizeMb <= expectedRange.high;
        r := r.(fileDetails := r.fileDetails[filename := FileDetail(sizeMb, sizeOk, expectedRange)]);
        if !sizeOk {
          r := r.(sizeIssues := r.sizeIssues + [filename]);
        }
      } else {
        r := r.(missingFiles := r.missingFiles + [filename], downloadComplete := false);
      }
    }
    assert EXPECTED_FILES[..|EXPECTED_FILES|] == EXPECTED_FILES;
  }

  // ===========================================================================
  // validate_feature_extraction
  // ===========================================================================

  const EXPECTED_FEATURES: seq<string> := ["case_id", "total_duration_days", "activity_count",
    "unique_activities", "has_rejections", "rejection_count"]

  /** One `*_features.csv` file: unreadable, or a table with its columns and
      number of rows. */
  datatype FeatureFile = UnreadableCsv | FeatureTable(columns: seq<string>, caseCount: nat)

  datatype FeatureResult = FeatureResult(featureFilesFound: nat, totalCases: nat, dataQualityScores: seq<real>)

  /** The required features a table lacks, in the required order. */
  function MissingFeatures(columns: seq<string>): seq<string>
  {
    Without(EXPECTED_FEATURES, columns)
  }

  function Without(names: seq<string>, columns: seq<string>): seq<string>
  {
    if names == [] then []
    else (if names[0] in columns then [] else [names[0]]) + Without(names[1..], columns)
  }

  lemma {:induction false} WithoutBounds(names: seq<string>, columns: seq<string>)
    ensures |Without(names, columns)| <= |names|
    ensures Without(names, columns) == [] <==> forall n :: n in names ==> n in columns
  {
    if names != [] {
      WithoutBounds(names[1..], columns);
      assert names == [names[0]] + names[1..];
    }
  }

  /** `data_quality_score`: the share of required features present. */
  function DataQualityScore(columns: seq<string>): real
  {
    1.0 - |MissingFeatures(columns)| as real / |EXPECTED_FEATURES| as real
  }

  /** The quality score lies in [0, 1] and is 1 exactly when no required
      feature is missing. */
  lemma DataQualityBounds(columns: seq<string>)
    ensures 0.0 <= DataQualityScore(columns) <= 1.0
    ensures DataQualityScore(columns) == 1.0 <==> forall n :: n in EXPECTED_FEATURES ==> n in columns
  {
    WithoutBounds(EXPECTED_FEATURES, columns);
  }

  /** The number of readable tables among `files`. */
  function TablesIn(files: seq<FeatureFile>): nat
  {
    if files == [] then 0
    else TablesIn(files[..|files| - 1]) + (if files[|files| - 1].FeatureTable? then 1 else 0)
  }

  /** The rows of all readable tables among `files`. */
  function CasesIn(files: seq<FeatureFile>): nat
  {
    if files == [] then 0
    else
      var last := files[|files| - 1];
      CasesIn(files[..|files| - 1]) + (if last.FeatureTable? then last.caseCount else 0)
  }

  /** The quality score of each readable table among `files`, in order. */
  function ScoresIn(files: seq<FeatureFile>): seq<real>
  {
    if files == [] then []
    else
      var last := files[|files| - 1];
      ScoresIn(files[..|files| - 1]) + (if last.FeatureTable? then [DataQualityScore(last.columns)] else [])
  }

  /** One score per readable table, each a share in [0, 1]. */
  lemma {:induction false} ScoresInBounds(files: seq<FeatureFile>)
    ensures |ScoresIn(files)| == TablesIn(files)
    ensures forall k :: 0 <= k < |ScoresIn(files)| ==> 0.0 <= ScoresIn(files)[k] <= 1.0
  {
    if files != [] {
      var last := files[|files| - 1];
      ScoresInBounds(files[..|files| - 1]);
      if last.FeatureTable? {
        DataQualityBounds(last.columns);
      }
    }
  }

  lemma {:induction false} TablesAtMostFiles(files: seq<FeatureFile>)
    ensures TablesIn(files) <= |files|
  {
    if files != [] {
      TablesAtMostFiles(files[..|files| - 1]);
    }
  }

  /** The feature result for the given files: the readable tables, their
      rows, and one quality score in [0, 1] per table, in file order. */
  predicate FeaturesReported(files: seq<FeatureFile>, r: FeatureResult)
  {
    r.featureFilesFound == TablesIn(files) &&
    r.totalCases == CasesIn(files) &&
    r.dataQualityScores == ScoresIn(files) &&
    |r.dataQualityScores| == r.featureFilesFound &&
    (forall k :: 0 <= k < |r.dataQualityScores| ==> 0.0 <= r.dataQualityScores[k] <= 1.0)
  }

  /** `validate_feature_extraction`: counts the readable tables and their rows
      and scores each table's feature coverage; an unreadable file is
      skipped. */
  method ValidateFeatureExtraction(files: seq<FeatureFile>) returns (r: FeatureResult)
    ensures FeaturesReported(files, r)
  {
    r := FeatureResult(0, 0, []);
    for i := 0 to |files|
      invariant r.featureFilesFound == TablesIn(files[..i])
      invariant r.totalCases == CasesIn(files[..i])
      invariant r.dataQualityScores == ScoresIn(files[..i])
    {
      assert files[..i + 1][..i] == files[..i];
      match files[i]
      case UnreadableCsv =>
      case FeatureTable(columns, caseCount) =>
        r := FeatureResult(r.featureFilesFound + 1, r.totalCases + caseCount,
                           r.dataQualityScores + [DataQualityScore(columns)]);
    }
    assert files[..|files|] == files;
    ScoresInBounds(files);
  }

  // ===========================================================================
  // validate_against_research_benchmarks
  // ===========================================================================

  /** The mean case duration of a feature table: no file; a file whose
      reading or averaging raises (an empty file, no `total_duration_days`
      column, a non-numeric column), which the check does not catch; a table
      without rows (whose mean is NaN, which fails every comparison); or a
      mean. */
  datatype MeanDuration = NoFile | ReadFails | NoRows | Mean(days: real)

  datatype Benchmark = DomesticDuration | InternationalDuration

  datatype Credibility = UnknownCredibility | HighCredibility | MediumCredibility | LowCredibility

  datatype BenchmarkResult = BenchmarkResult(
    benchmarkMatches: seq<Benchmark>,
    deviations: seq<Benchmark>,
    overallAccuracy: real,
    researchCredibility: Credibility)

  /** The published range of normal average durations, in days. */
  function BenchmarkRange(b: Benchmark): SizeRange
  {
    match b
    case DomesticDuration => SizeRange(8.0, 11.0)
    case InternationalDuration => SizeRange(66.0, 86.0)
  }

  predicate WithinRange(m: MeanDuration, b: Benchmark)
  {
    m.Mean? && BenchmarkRange(b).low <= m.days <= BenchmarkRange(b).high
  }

  /** The credibility ladder on the share of matched benchmarks. */
  function CredibilityOf(accuracy: real): (c: Credibility)
    ensures c == HighCredibility <==> accuracy >= 0.8
    ensures c == MediumCredibility <==> 0.6 <= accuracy < 0.8
    ensures c == LowCredibility <==> accuracy < 0.6
  {
    if accuracy >= 0.8 then HighCredibility
    else if accuracy >= 0.6 then MediumCredibility
    else LowCredibility
  }

  /** Checks one benchmark: nothing without a file; otherwise counted, and
      either matched or a deviation. */
  method CheckBenchmark(m: MeanDuration, b: Benchmark, r: BenchmarkResult, matches: nat, total: nat)
    returns (r': BenchmarkResult, matches': nat, total': nat)
    ensures m.NoFile? ==> r' == r && matches' == matches && total' == total
    ensures !m.NoFile? ==> total' == total + 1
    ensures WithinRange(m, b) ==> matches' == matches + 1 && r' == r.(benchmarkMatches := r.benchmarkMatches + [b])
    ensures !m.NoFile? && !WithinRange(m, b) ==> matches' == matches && r' == r.(deviations := r.deviations + [b])
  {
    r', matches', total' := r, matches, total;
    if !m.NoFile? {
      var withinRange := m.Mean? && BenchmarkRange(b).low <= m.days <= BenchmarkRange(b).high;
      if withinRange {
        r' := r'.(benchmarkMatches := r'.benchmarkMatches + [b]);
        matches' := matches' + 1;
      } else {
        r' := r'.(deviations := r'.deviations + [b]);
      }
      total' := total' + 1;
    }
  }

  /** The benchmark result for the given means: each benchmark a match iff
      its mean is in range and a deviation iff its table exists and it is
      not; the accuracy is the share matched (0 with none checked), and the
      credibility unknown with none checked, else the ladder on the
      accuracy. */
  predicate BenchmarksReported(domestic: MeanDuration, international: MeanDuration, r: BenchmarkResult)
  {
    (DomesticDuration in r.benchmarkMatches <==> WithinRange(domestic, DomesticDuration)) &&
    (DomesticDuration in r.deviations <==> !domestic.NoFile? && !WithinRange(domestic, DomesticDuration)) &&
    (InternationalDuration in r.benchmarkMatches <==> WithinRange(international, InternationalDuration)) &&
    (InternationalDuration in r.deviations <==>
      !international.NoFile? && !WithinRange(international, InternationalDuration)) &&
    |r.benchmarkMatches| == MatchedCount(domestic, international) &&
    |r.benchmarkMatches| + |r.deviations| == Checked(domestic, international) &&
    r.overallAccuracy == BenchmarkAccuracy(domestic, international) &&
    0.0 <= r.overallAccuracy <= 1.0 &&
    (Checked(domestic, international) == 0 ==>
      r.overallAccuracy == 0.0 && r.researchCredibility == UnknownCredibility) &&
    (Checked(domestic, international) > 0 ==>
      r.overallAccuracy == |r.benchmarkMatches| as real / Checked(domestic, international) as real &&
      r.researchCredibility == CredibilityOf(r.overallAccuracy)) &&
    r.researchCredibility == BenchmarkCredibility(domestic, international)
  }

  /** `research_credibility`: unknown when no benchmark is checked, otherwise
      the ladder on the accuracy. */
  function BenchmarkCredibility(domestic: MeanDuration, international: MeanDuration): Credibility
  {
    if Checked(domestic, international) == 0 then UnknownCredibility
    else CredibilityOf(BenchmarkAccuracy(domestic, international))
  }

  /** `validate_against_research_benchmarks`: the domestic and international
      mean durations are checked against their ranges; the accuracy is the
      share matched and sets the credibility, which stays unknown when
      neither table exists. A table that cannot be read or averaged raises,
      and no result is returned. */
  method ValidateAgainstResearchBenchmarks(domestic: MeanDuration, international: MeanDuration)
    returns (result: Option<BenchmarkResult>)
    ensures result.None? <==> domestic.ReadFails? || international.ReadFails?
    ensures result.Some? ==> BenchmarksReported(domestic, international, result.value)
  {
    BenchmarkAccuracyBounds(domestic, international);
    if domestic.ReadFails? {
      return None;
    }
    var r := BenchmarkResult([], [], 0.0, UnknownCredibility);
    var matches, totalBenchmarks := 0, 0;
    r, matches, totalBenchmarks := CheckBenchmark(domestic, DomesticDuration, r, matches, totalBenchmarks);
    if international.ReadFails? {
      return None;
    }
    r, matches, totalBenchmarks := CheckBenchmark(international, InternationalDuration, r, matches, totalBenchmarks);
    if totalBenchmarks > 0 {
      var accuracy := matches as real / totalBenchmarks as real;
      r := r.(overallAccuracy := accuracy, researchCredibility := CredibilityOf(accuracy));
    }
    return Some(r);
  }

  /** The number of benchmarks whose mean lies in its range. */
  function MatchedCount(domestic: MeanDuration, international: MeanDuration): nat
  {
    (if WithinRange(domestic, DomesticDuration) then 1 else 0) +
    (if WithinRange(international, InternationalDuration) then 1 else 0)
  }

  /** `overall_accuracy`: the share of checked benchmarks that match, or 0
      when none is checked. */
  function BenchmarkAccuracy(domestic: MeanDuration, international: MeanDuration): real
  {
    if Checked(domestic, international) == 0 then 0.0
    else MatchedCount(domestic, international) as real / Checked(domestic, international) as real
  }

  /** The accuracy is a share, and it is 1 exactly when some benchmark is
      checked and every checked one matches. */
  lemma BenchmarkAccuracyBounds(domestic: MeanDuration, international: MeanDuration)
    ensures 0.0 <= BenchmarkAccuracy(domestic, international) <= 1.0
    ensures BenchmarkAccuracy(domestic, international) == 1.0 <==>
      Checked(domestic, international) > 0 &&
      (domestic.NoFile? || WithinRange(domestic, DomesticDuration)) &&
      (international.NoFile? || WithinRange(international, InternationalDuration))
  {
    var m, c := MatchedCount(domestic, international), Checked(domestic, international);
    assert m <= c;
    if c > 0 {
      ShareBounds(m, c);
      if m < c {
        assert m as real / c as real < 1.0;
      }
    }
  }

  /** The number of benchmarks whose feature table exists. */
  function Checked(domestic: MeanDuration, international: MeanDuration): nat
  {
    (if domestic.NoFile? then 0 else 1) + (if international.NoFile? then 0 else 1)
  }

  /** With only two benchmarks the accuracy is 0, 1/2 or 1, so the MEDIUM
      credibility (accuracy in [0.6, 0.8)) can never be reached. */
  lemma NoMediumCredibility(matches: nat, total: nat)
    requires 0 < total <= 2 && matches <= total
    ensures CredibilityOf(matches as real / total as real) != MediumCredibility
  {
    if total == 2 && matches == 1 {
      assert matches as real / total as real == 0.5;
    }
  }

  // ===========================================================================
  // validate_labeling_quality
  // ===========================================================================

  /** What one labelled case records: the `type` of each inefficiency (absent
      when the record has no `type` field) and the `severity_level` of its
      training label (absent when not recorded, which counts as "low"). */
  datatype CaseSummary = CaseSummary(inefficiencyTypes: seq<Option<string>>, severityLevel: Option<string>)

  /** One `*_labeled.json` file: not parseable, or its list of cases. */
  datatype LabeledFile = LabeledFile(datasetName: string, content: LabeledContent)
  datatype LabeledContent = Unparsable | LabeledCases(cases: seq<CaseSummary>)

  datatype Coverage = Coverage(
    totalCases: nat,
    inefficientCases: nat,
    inefficiencyRate: real,
    high: nat,
    medium: nat,
    low: nat)

  datatype LabelingResult = LabelingResult(
    labeledFiles: nat,
    totalLabeledCases: nat,
    inefficiencyDistribution: map<string, nat>,
    labelConsistency: bool,
    labelingCoverage: map<string, Coverage>)

  function Severity(c: CaseSummary): string
  {
    c.severityLevel.UnwrapOr("low")
  }

  /** The case's severity is one of the three buckets. */
  predicate KnownSeverity(c: CaseSummary)
  {
    Severity(c) == "high" || Severity(c) == "medium" || Severity(c) == "low"
  }

  /** A case the per-case loop gets through: its severity is one of the three
      buckets and every inefficiency has a type. */
  predicate ValidCase(c: CaseSummary)
  {
    KnownSeverity(c) &&
    forall k :: 0 <= k < |c.inefficiencyTypes| ==> c.inefficiencyTypes[k].Some?
  }

  predicate AllValid(cases: seq<CaseSummary>)
  {
    forall k :: 0 <= k < |cases| ==> ValidCase(cases[k])
  }

  /** The cases with at least one inefficiency. */
  function InefficientCount(cases: seq<CaseSummary>): nat
  {
    if cases == [] then 0
    else InefficientCount(cases[..|cases| - 1]) + (if cases[|cases| - 1].inefficiencyTypes != [] then 1 else 0)
  }

  /** The cases whose severity is `level`. */
  function SeverityCount(cases: seq<CaseSummary>, level: string): nat
  {
    if cases == [] then 0
    else SeverityCount(cases[..|cases| - 1], level) + (if Severity(cases[|cases| - 1]) == level then 1 else 0)
  }

  /** The occurrences of type `t` in a list of inefficiency types. */
  function TypeCount(types: seq<Option<string>>, t: string): nat
  {
    if types == [] then 0
    else TypeCount(types[..|types| - 1], t) + (if types[|types| - 1] == Some(t) then 1 else 0)
  }

  /** The occurrences of type `t` over all cases. */
  function CasesTypeCount(cases: seq<CaseSummary>, t: string): nat
  {
    if cases == [] then 0
    else CasesTypeCount(cases[..|cases| - 1], t) + TypeCount(cases[|cases| - 1].inefficiencyTypes, t)
  }

  /** A prefix of a type list holds no more occurrences of any type. */
  lemma {:induction false} TypeCountPrefix(types: seq<Option<string>>, j: nat)
    requires j <= |types|
    ensures forall t :: TypeCount(types[..j], t) <= TypeCount(types, t)
    decreases |types|
  {
    if j < |types| {
      var init := types[..|types| - 1];
      assert types[..j] == init[..j];
      TypeCountPrefix(init, j);
    } else {
      assert types[..j] == types;
    }
  }

  /** A prefix of the cases holds no more occurrences of any type. */
  lemma {:induction false} CasesTypeCountPrefix(cases: seq<CaseSummary>, j: nat)
    requires j <= |cases|
    ensures forall t :: CasesTypeCount(cases[..j], t) <= CasesTypeCount(cases, t)
    decreases |cases|
  {
    if j < |cases| {
      var init := cases[..|cases| - 1];
      assert cases[..j] == init[..j];
      CasesTypeCountPrefix(init, j);
    } else {
      assert cases[..j] == cases;
    }
  }

  /** How many leading records of a type list carry a type: where the inner
      loop stops, or the whole list. */
  function TypedPrefix(types: seq<Option<string>>): (n: nat)
    ensures n <= |types|
    ensures forall k :: 0 <= k < n ==> types[k].Some?
    ensures n < |types| ==> types[n].None?
  {
    if types == [] || types[0].None? then 0 else 1 + TypedPrefix(types[1..])
  }

  /** Where the per-case loop stops: the first case that fails, or the end. */
  function FirstInvalid(cases: seq<CaseSummary>): (n: nat)
    ensures n <= |cases|
    ensures forall k :: 0 <= k < n ==> ValidCase(cases[k])
    ensures n < |cases| ==> !ValidCase(cases[n])
  {
    if cases == [] || !ValidCase(cases[0]) then 0 else 1 + FirstInvalid(cases[1..])
  }

  /** The occurrences of `t` the inner loop counts in a case: those before
      its first record without a type, and none when its severity is not a
      bucket, since that check comes first. */
  function CaseScannedTypeCount(c: CaseSummary, t: string): nat
  {
    if KnownSeverity(c) then TypeCount(c.inefficiencyTypes[..TypedPrefix(c.inefficiencyTypes)], t) else 0
  }

  /** The occurrences of `t` the per-case loop counts before it stops: all of
      those in the cases before the first failing one, and those the failing
      case gets through. */
  function ScannedTypeCount(cases: seq<CaseSummary>, t: string): nat
  {
    var n := FirstInvalid(cases);
    CasesTypeCount(cases[..n], t) + (if n < |cases| then CaseScannedTypeCount(cases[n], t) else 0)
  }

  /** The loop counts every occurrence when every case passes, and never
      more than there are. */
  lemma ScannedAtMost(cases: seq<CaseSummary>)
    ensures AllValid(cases) ==> forall t :: ScannedTypeCount(cases, t) == CasesTypeCount(cases, t)
    ensures forall t :: ScannedTypeCount(cases, t) <= CasesTypeCount(cases, t)
  {
    var n := FirstInvalid(cases);
    if n == |cases| {
      assert cases[..n] == cases;
    } else {
      var c := cases[n];
      assert !AllValid(cases);
      TypeCountPrefix(c.inefficiencyTypes, TypedPrefix(c.inefficiencyTypes));
      assert cases[..n + 1][..n] == cases[..n];
      assert forall t :: CasesTypeCount(cases[..n + 1], t) == CasesTypeCount(cases[..n], t) + TypeCount(c.inefficiencyTypes, t);
      CasesTypeCountPrefix(cases, n + 1);
    }
  }

  /** Every valid case falls in exactly one severity bucket, and no more cases
      are inefficient than there are cases. */
  lemma {:induction false} SeverityPartition(cases: seq<CaseSummary>)
    requires AllValid(cases)
    ensures SeverityCount(cases, "high") + SeverityCount(cases, "medium") + SeverityCount(cases, "low") == |cases|
    ensures InefficientCount(cases) <= |cases|
  {
    if cases != [] {
      SeverityPartition(cases[..|cases| - 1]);
    }
  }

  /** The coverage record of a file whose cases all pass. */
  function CoverageOf(cases: seq<CaseSummary>): Coverage
  {
    Coverage(|cases|, InefficientCount(cases),
             if cases == [] then 0.0 else InefficientCount(cases) as real / |cases| as real,
             SeverityCount(cases, "high"), SeverityCount(cases, "medium"), SeverityCount(cases, "low"))
  }

  /** The inner loop over one case's inefficiencies: each type found adds one
      to its count; a record without a type stops the loop. */
  method CountTypes(types: seq<Option<string>>, dist: map<string, nat>)
    returns (ok: bool, dist': map<string, nat>)
    ensures ok <==> forall k :: 0 <= k < |types| ==> types[k].Some?
    ensures forall t :: Get(dist', t) == Get(dist, t) + TypeCount(types[..TypedPrefix(types)], t)
    ensures ok ==> forall t :: Get(dist', t) == Get(dist, t) + TypeCount(types, t)
    ensures forall t :: Get(dist, t) <= Get(dist', t) <= Get(dist, t) + TypeCount(types, t)
  {
    TypeCountPrefix(types, TypedPrefix(types));
    dist' := dist;
    ok := true;
    var i := 0;
    while i < |types|
      invariant 0 <= i <= |types|
      invariant ok
      invariant forall k :: 0 <= k < i ==> types[k].Some?
      invariant forall t :: Get(dist', t) == Get(dist, t) + TypeCount(types[..i], t)
    {
      assert types[..i + 1][..i] == types[..i];
      match types[i]
      case None =>
        assert TypedPrefix(types) == i;
        ok := false;
        return;
      case Some(inefficiencyType) =>
        if inefficiencyType !in dist' {
          dist' := dist'[inefficiencyType := 0];
        }
        dist' := dist'[inefficiencyType := dist'[inefficiencyType] + 1];
      i := i + 1;
    }
    assert types[..|types|] == types;
  }

  /** The per-case loop of one labelled file. When every case passes, the
      coverage record is returned and each type's count has grown by its
      occurrences in the file; otherwise the loop stops at the failing case
      and no coverage is recorded, while the counts already made are kept. */
  method ScanLabeledCases(cases: seq<CaseSummary>, dist: map<string, nat>)
    returns (coverage: Option<Coverage>, dist': map<string, nat>)
    ensures coverage.Some? <==> AllValid(cases)
    ensures coverage.Some? ==> coverage.value == CoverageOf(cases)
    ensures forall t :: Get(dist', t) == Get(dist, t) + ScannedTypeCount(cases, t)
    ensures coverage.Some? ==> forall t :: Get(dist', t) == Get(dist, t) + CasesTypeCount(cases, t)
    ensures forall t :: Get(dist, t) <= Get(dist', t) <= Get(dist, t) + CasesTypeCount(cases, t)
  {
    ScannedAtMost(cases);
    dist' := dist;
    var inefficientCases := 0;
    var high, medium, low := 0, 0, 0;
    var i := 0;
    while i < |cases|
      invariant 0 <= i <= |cases|
      invariant AllValid(cases[..i])
      invariant inefficientCases == InefficientCount(cases[..i])
      invariant high == SeverityCount(cases[..i], "high")
      invariant medium == SeverityCount(cases[..i], "medium")
      invariant low == SeverityCount(cases[..i], "low")
      invariant forall t :: Get(dist', t) == Get(dist, t) + CasesTypeCount(cases[..i], t)
    {
      var c := cases[i];
      assert cases[..i + 1][..i] == cases[..i];
      if c.inefficiencyTypes != [] {
        inefficientCases := inefficientCases + 1;
      }
      var severity := c.severityLevel.UnwrapOr("low");
      if severity == "high" {
        high := high + 1;
      } else if severity == "medium" {
        medium := medium + 1;
      } else if severity == "low" {
        low := low + 1;
      } else {
        assert !AllValid(cases) by { assert !ValidCase(cases[i]); }
        StopsAt(cases, i);
        return None, dist';
      }
      var ok;
      ok, dist' := CountTypes(c.inefficiencyTypes, dist');
      if !ok {
        assert !AllValid(cases) by { assert !ValidCase(cases[i]); }
        StopsAt(cases, i);
        return None, dist';
      }
      assert ValidCase(c);
      i := i + 1;
    }
    assert cases[..|cases|] == cases;
    coverage := Some(Coverage(|cases|, inefficientCases,
                              if cases == [] then 0.0 else inefficientCases as real / |cases| as real,
                              high, medium, low));
  }

  /** When case `i` is the first to fail, the loop has counted the cases
      before it and what case `i` gets through. */
  lemma StopsAt(cases: seq<CaseSummary>, i: nat)
    requires i < |cases| && AllValid(cases[..i]) && !ValidCase(cases[i])
    ensures forall t :: ScannedTypeCount(cases, t) == CasesTypeCount(cases[..i], t) + CaseScannedTypeCount(cases[i], t)
  {
    assert forall k :: 0 <= k < i ==> cases[..i][k] == cases[k];
    assert FirstInvalid(cases) == i;
  }

  /** The files that parsed. */
  function ParsedCount(files: seq<LabeledFile>): nat
  {
    if files == [] then 0
    else ParsedCount(files[..|files| - 1]) + (if files[|files| - 1].content.LabeledCases? then 1 else 0)
  }

  /** The cases of the files that parsed. */
  function ParsedCases(files: seq<LabeledFile>): nat
  {
    if files == [] then 0
    else
      var last := files[|files| - 1];
      ParsedCases(files[..|files| - 1]) + (if last.content.LabeledCases? then |last.content.cases| else 0)
  }

  /** A file that parsed and whose cases all pass. */
  predicate CleanFile(f: LabeledFile)
  {
    f.content.LabeledCases? && AllValid(f.content.cases)
  }

  /** The occurrences of type `t` in a file that parsed; 0 for one that did not. */
  function FileTypeCount(f: LabeledFile, t: string): nat
  {
    if f.content.LabeledCases? then CasesTypeCount(f.content.cases, t) else 0
  }

  /** The occurrences of type `t` over every file that parsed. */
  function FilesTypeCount(files: seq<LabeledFile>, t: string): nat
  {
    if files == [] then 0
    else FilesTypeCount(files[..|files| - 1], t) + FileTypeCount(files[|files| - 1], t)
  }

  /** The occurrences of type `t` over the clean files only. */
  function CleanFilesTypeCount(files: seq<LabeledFile>, t: string): nat
  {
    if files == [] then 0
    else
      var last := files[|files| - 1];
      CleanFilesTypeCount(files[..|files| - 1], t) + (if CleanFile(last) then FileTypeCount(last, t) else 0)
  }

  /** When every file is clean, the two sums agree. */
  lemma {:induction false} CleanFilesTypeCountAll(files: seq<LabeledFile>)
    requires AllClean(files)
    ensures forall t :: CleanFilesTypeCount(files, t) == FilesTypeCount(files, t)
  {
    if files != [] {
      CleanFilesTypeCountAll(files[..|files| - 1]);
    }
  }

  /** The labelling result for the given files: the parsed files and their
      cases, consistency iff every file is clean, a coverage entry for each
      clean file and only from clean files, and each type counted as far as
      the scans get: between its occurrences in the clean files and in all
      parsed files, and all of them when every file is clean. */
  ghost predicate LabelingReported(files: seq<LabeledFile>, r: LabelingResult)
  {
    r.labeledFiles == ParsedCount(files) &&
    r.totalLabeledCases == ParsedCases(files) &&
    (r.labelConsistency <==> forall k :: 0 <= k < |files| ==> CleanFile(files[k])) &&
    (forall k :: 0 <= k < |files| && CleanFile(files[k]) ==> files[k].datasetName in r.labelingCoverage) &&
    (forall name :: name in r.labelingCoverage ==> RecordedFrom(files, name, r.labelingCoverage[name])) &&
    (forall t :: Get(r.inefficiencyDistribution, t) == FilesScannedTypeCount(files, t)) &&
    (forall t :: CleanFilesTypeCount(files, t) <= Get(r.inefficiencyDistribution, t) <= FilesTypeCount(files, t)) &&
    ((forall k :: 0 <= k < |files| ==> CleanFile(files[k])) ==>
      forall t :: Get(r.inefficiencyDistribution, t) == FilesTypeCount(files, t))
  }

  /** The occurrences of `t` the scan of a file counts; none for a file that
      does not parse. */
  function FileScannedTypeCount(f: LabeledFile, t: string): nat
  {
    if f.content.LabeledCases? then ScannedTypeCount(f.content.cases, t) else 0
  }

  /** The occurrences of `t` the scans of all files count. */
  function FilesScannedTypeCount(files: seq<LabeledFile>, t: string): nat
  {
    if files == [] then 0
    else FilesScannedTypeCount(files[..|files| - 1], t) + FileScannedTypeCount(files[|files| - 1], t)
  }

  /** The scans count all occurrences in the clean files and no more than
      those in all parsed files. */
  lemma {:induction false} FilesScannedBounds(files: seq<LabeledFile>)
    ensures forall t :: CleanFilesTypeCount(files, t) <= FilesScannedTypeCount(files, t) <= FilesTypeCount(files, t)
  {
    if files != [] {
      var last := files[|files| - 1];
      FilesScannedBounds(files[..|files| - 1]);
      if last.content.LabeledCases? {
        ScannedAtMost(last.content.cases);
      }
    }
  }

  /** `validate_labeling_quality`: a file that parses is counted with all its
      cases even when one of them then fails; a failure of either kind clears
      `label_consistency`, and only files whose cases all pass get a coverage
      record. */
  method ValidateLabelingQuality(files: seq<LabeledFile>) returns (r: LabelingResult)
    ensures LabelingReported(files, r)
  {
    r := LabelingResult(0, 0, map[], true, map[]);
    for i := 0 to |files|
      invariant r.labeledFiles == ParsedCount(files[..i])
      invariant r.totalLabeledCases == ParsedCases(files[..i])
      invariant r.labelConsistency == AllClean(files[..i])
      invariant forall k :: 0 <= k < i && CleanFile(files[k]) ==> files[k].datasetName in r.labelingCoverage
      invariant forall name :: name in r.labelingCoverage ==> RecordedFrom(files[..i], name, r.labelingCoverage[name])
      invariant forall t :: Get(r.inefficiencyDistribution, t) == FilesScannedTypeCount(files[..i], t)
    {
      assert files[..i + 1][..i] == files[..i];
      ghost var before := r;
      r := ValidateLabeledFile(files[i], r);
      CoverageStep(files, i, before.labelingCoverage, r.labelingCoverage);
    }
    assert files[..|files|] == files;
    AllCleanMeans(files);
    FilesScannedBounds(files);
    if r.labelConsistency {
      CleanFilesTypeCountAll(files);
    }
  }

  /** Every file is clean; defined file by file. */
  predicate AllClean(files: seq<LabeledFile>)
  {
    files == [] || (AllClean(files[..|files| - 1]) && CleanFile(files[|files| - 1]))
  }

  lemma {:induction false} AllCleanMeans(files: seq<LabeledFile>)
    ensures AllClean(files) <==> forall k :: 0 <= k < |files| ==> CleanFile(files[k])
  {
    if files != [] {
      var init := files[..|files| - 1];
      AllCleanMeans(init);
      assert forall k :: 0 <= k < |init| ==> init[k] == files[k];
    }
  }

  /** Coverage `c` under `name` comes from a clean file of that name. */
  ghost predicate RecordedFrom(files: seq<LabeledFile>, name: string, c: Coverage)
  {
    exists k :: 0 <= k < |files| && CleanFile(files[k]) && files[k].datasetName == name &&
                c == CoverageOf(files[k].content.cases)
  }

  /** Recording file `i`'s coverage keeps every entry traceable to a clean
      file. */
  lemma CoverageStep(files: seq<LabeledFile>, i: nat, before: map<string, Coverage>, after: map<string, Coverage>)
    requires i < |files|
    requires forall name :: name in before ==> RecordedFrom(files[..i], name, before[name])
    requires CleanFile(files[i]) ==> after == before[files[i].datasetName := CoverageOf(files[i].content.cases)]
    requires !CleanFile(files[i]) ==> after == before
    ensures forall name :: name in after ==> RecordedFrom(files[..i + 1], name, after[name])
  {
    forall name | name in after
      ensures RecordedFrom(files[..i + 1], name, after[name])
    {
      if CleanFile(files[i]) && name == files[i].datasetName {
        assert files[..i + 1][i] == files[i];
      } else {
        var k :| 0 <= k < i && CleanFile(files[..i][k]) && files[..i][k].datasetName == name &&
                 before[name] == CoverageOf(files[..i][k].content.cases);
        assert files[..i + 1][k] == files[k];
      }
    }
  }

  /** The body of the file loop for one file. */
  method ValidateLabeledFile(file: LabeledFile, r: LabelingResult) returns (r': LabelingResult)
    ensures r'.labeledFiles == r.labeledFiles + (if file.content.LabeledCases? then 1 else 0)
    ensures r'.totalLabeledCases == r.totalLabeledCases + (if file.content.LabeledCases? then |file.content.cases| else 0)
    ensures r'.labelConsistency == (r.labelConsistency && CleanFile(file))
    ensures CleanFile(file) ==>
      r'.labelingCoverage == r.labelingCoverage[file.datasetName := CoverageOf(file.content.cases)]
    ensures !CleanFile(file) ==> r'.labelingCoverage == r.labelingCoverage
    ensures forall t :: Get(r'.inefficiencyDistribution, t) == Get(r.inefficiencyDistribution, t) + FileScannedTypeCount(file, t)
    ensures CleanFile(file) ==>
      forall t :: Get(r'.inefficiencyDistribution, t) == Get(r.inefficiencyDistribution, t) + FileTypeCount(file, t)
    ensures forall t :: Get(r.inefficiencyDistribution, t) <= Get(r'.inefficiencyDistribution, t) <=
                        Get(r.inefficiencyDistribution, t) + FileTypeCount(file, t)
  {
    r' := r;
    match file.content
    case Unparsable =>
      r' := r'.(labelConsistency := false);
    case LabeledCases(cases) =>
      r' := r'.(labeledFiles := r'.labeledFiles + 1, totalLabeledCases := r'.totalLabeledCases + |cases|);
      var coverage, dist := ScanLabeledCases(cases, r'.inefficiencyDistribution);
      r' := r'.(inefficiencyDistribution := dist);
      if coverage.Some? {
        r' := r'.(labelingCoverage := r'.labelingCoverage[file.datasetName := coverage.value]);
      } else {
        r' := r'.(labelConsistency := false);
      }
  }

  /** Every recorded coverage is consistent: the three severity buckets add up
      to the cases, the inefficient cases are among them, and the rate is
      their share. */
  lemma CoverageConsistent(cases: seq<CaseSummary>)
    requires AllValid(cases)
    ensures var c := CoverageOf(cases);
      c.high + c.medium + c.low == c.totalCases &&
      c.inefficientCases <= c.totalCases &&
      0.0 <= c.inefficiencyRate <= 1.0
  {
    SeverityPartition(cases);
    if cases != [] {
      ShareBounds(InefficientCount(cases), |cases|);
    }
  }

  /** A part of a positive whole is a share between 0 and 1. */
  lemma ShareBounds(part: nat, whole: nat)
    requires 0 < whole && part <= whole
    ensures 0.0 <= part as real / whole as real <= 1.0
  {
  }

  // ===========================================================================
  // validate_framework_knowledge
  // ===========================================================================

  const EXPECTED_KNOWLEDGE_FILES: seq<string> := ["agile_manifesto.json", "lean_principles.json",
    "operating_model_frameworks.json", "inefficiency_detection_rules.json",
    "training_prompts.json", "complete_framework_knowledge.json"]

  /** One knowledge file that exists: corrupted, or JSON whose serialised
      form has `serializedSize` characters. */
  datatype KnowledgeFile = Corrupted | Json(serializedSize: nat, isDict: bool)

  datatype ContentQuality = ContentQuality(fileSizeKb: real, hasContent: bool, structureOk: bool)

  datatype KnowledgeResult = KnowledgeResult(
    knowledgeFiles: nat,
    frameworksCovered: seq<string>,
    completenessScore: real,
    contentQuality: map<string, ContentQuality>)

  /** The file name without its `.json` suffix. */
  function FrameworkName(filename: string): string
  {
    if |filename| >= 5 && filename[|filename| - 5..] == ".json" then filename[..|filename| - 5] else filename
  }

  /** The framework names of the files of `names` that exist, in order. */
  function PresentFrameworks(names: seq<string>, files: map<string, KnowledgeFile>): seq<string>
  {
    if names == [] then []
    else
      var init, last := names[..|names| - 1], names[|names| - 1];
      PresentFrameworks(init, files) + (if last in files then [FrameworkName(last)] else [])
  }

  /** The quality entries of the files of `names` that parse, later files
      overwriting earlier ones of the same framework name. */
  function QualityEntries(names: seq<string>, files: map<string, KnowledgeFile>): map<string, ContentQuality>
  {
    if names == [] then map[]
    else
      var init, last := names[..|names| - 1], names[|names| - 1];
      var m := QualityEntries(init, files);
      if last in files && files[last].Json? then
        m[FrameworkName(last) := ContentQuality(files[last].serializedSize as real / 1024.0,
                                                files[last].serializedSize > 1000, files[last].isDict)]
      else m
  }

  /** Each file that parses has an entry under its framework name, and every
      entry belongs to such a file. */
  lemma {:induction false} QualityEntryKeys(names: seq<string>, files: map<string, KnowledgeFile>)
    ensures forall f :: f in names && f in files && files[f].Json? ==> FrameworkName(f) in QualityEntries(names, files)
    ensures forall n :: n in QualityEntries(names, files) ==>
      exists f :: f in names && f in files && files[f].Json? && FrameworkName(f) == n
  {
    if names != [] {
      var init := names[..|names| - 1];
      QualityEntryKeys(init, files);
      assert names == init + [names[|names| - 1]];
    }
  }

  lemma {:induction false} PresentAtMost(names: seq<string>, files: map<string, KnowledgeFile>)
    ensures |PresentFrameworks(names, files)| <= |names|
    ensures |PresentFrameworks(names, files)| == |names| <==> forall f :: f in names ==> f in files
  {
    if names != [] {
      var init := names[..|names| - 1];
      PresentAtMost(init, files);
      assert names == init + [names[|names| - 1]];
    }
  }

  /** The knowledge result for the given files: the frameworks present in
      the expected order, their count, the share found (1 iff all six exist),
      and a quality entry for each file that parses. */
  ghost predicate KnowledgeReported(files: map<string, KnowledgeFile>, r: KnowledgeResult)
  {
    r.frameworksCovered == PresentFrameworks(EXPECTED_KNOWLEDGE_FILES, files) &&
    r.knowledgeFiles == |r.frameworksCovered| &&
    r.completenessScore == r.knowledgeFiles as real / 6.0 &&
    0.0 <= r.completenessScore <= 1.0 &&
    (r.completenessScore == 1.0 <==> forall f :: f in EXPECTED_KNOWLEDGE_FILES ==> f in files) &&
    r.contentQuality == QualityEntries(EXPECTED_KNOWLEDGE_FILES, files)
  }

  /** `validate_framework_knowledge`: counts the expected files that exist,
      lists their framework names, and rates each one that parses; the
      completeness score is the share found. */
  method ValidateFrameworkKnowledge(files: map<string, KnowledgeFile>) returns (r: KnowledgeResult)
    ensures KnowledgeReported(files, r)
  {
    var foundFiles := 0;
    r := KnowledgeResult(0, [], 0.0, map[]);
    for i := 0 to |EXPECTED_KNOWLEDGE_FILES|
      invariant r.frameworksCovered == PresentFrameworks(EXPECTED_KNOWLEDGE_FILES[..i], files)
      invariant foundFiles == |r.frameworksCovered|
      invariant r.contentQuality == QualityEntries(EXPECTED_KNOWLEDGE_FILES[..i], files)
    {
      var filename := EXPECTED_KNOWLEDGE_FILES[i];
      assert EXPECTED_KNOWLEDGE_FILES[..i + 1] == EXPECTED_KNOWLEDGE_FILES[..i] + [filename];
      if filename in files {
        foundFiles := foundFiles + 1;
        var frameworkName := FrameworkName(filename);
        r := r.(frameworksCovered := r.frameworksCovered + [frameworkName]);
        match files[filename]
        case Corrupted =>
        case Json(contentSize, isDict) =>
          r := r.(contentQuality := r.contentQuality[frameworkName :=
                    ContentQuality(contentSize as real / 1024.0, contentSize > 1000, isDict)]);
      }
    }
    assert EXPECTED_KNOWLEDGE_FILES[..|EXPECTED_KNOWLEDGE_FILES|] == EXPECTED_KNOWLEDGE_FILES;
    PresentAtMost(EXPECTED_KNOWLEDGE_FILES, files);
    r := r.(knowledgeFiles := foundFiles, completenessScore := foundFiles as real / |EXPECTED_KNOWLEDGE_FILES| as real);
  }

  // ===========================================================================
  // generate_validation_report
  // ===========================================================================

  datatype ComponentScores = ComponentScores(
    dataDownload: real,
    featureExtraction: real,
    researchAlignment: real,
    labelingQuality: real,
    frameworkKnowledge: real)

  /** 1 for a complete download without size issues, 0.5 for a complete one
      with some, 0 when a file is missing. */
  function DownloadScore(d: DownloadResult): (s: real)
    ensures s == 1.0 <==> d.downloadComplete && d.sizeIssues == []
    ensures s == 0.5 <==> d.downloadComplete && d.sizeIssues != []
    ensures s == 0.0 <==> !d.downloadComplete
  {
    if d.downloadComplete && d.sizeIssues == [] then 1.0
    else if d.downloadComplete then 0.5
    else 0.0
  }

  /** `min(n / 5, 1.0)`: the share of the five expected files, capped at 1. */
  function FileCountScore(n: nat): (s: real)
    ensures 0.0 <= s <= 1.0
    ensures s == 1.0 <==> n >= 5
    ensures n <= 5 ==> s == n as real / 5.0
  {
    var share := n as real / 5.0;
    if share < 1.0 then share else 1.0
  }

  function ScoresOf(download: DownloadResult, features: FeatureResult, benchmarks: BenchmarkResult,
                    labeling: LabelingResult, knowledge: KnowledgeResult): ComponentScores
  {
    ComponentScores(
      DownloadScore(download),
      FileCountScore(features.featureFilesFound),
      benchmarks.overallAccuracy,
      FileCountScore(labeling.labeledFiles),
      knowledge.completenessScore)
  }

  /** `np.mean` of the five component scores. */
  function OverallScore(s: ComponentScores): real
  {
    (s.dataDownload + s.featureExtraction + s.researchAlignment + s.labelingQuality + s.frameworkKnowledge) / 5.0
  }

  predicate InUnitInterval(s: ComponentScores)
  {
    0.0 <= s.dataDownload <= 1.0 && 0.0 <= s.featureExtraction <= 1.0 && 0.0 <= s.researchAlignment <= 1.0 &&
    0.0 <= s.labelingQuality <= 1.0 && 0.0 <= s.frameworkKnowledge <= 1.0
  }

  /** Scores in [0, 1] give an overall score in [0, 1], and the overall score
      is 1 only when every component is. */
  lemma OverallBounds(s: ComponentScores)
    requires InUnitInterval(s)
    ensures 0.0 <= OverallScore(s) <= 1.0
    ensures OverallScore(s) == 1.0 ==>
      s.dataDownload == 1.0 && s.featureExtraction == 1.0 && s.researchAlignment == 1.0 &&
      s.labelingQuality == 1.0 && s.frameworkKnowledge == 1.0
  {
  }

  /** Raising one component never lowers the overall score. */
  lemma OverallMonotone(s: ComponentScores, t: ComponentScores)
    requires s.dataDownload <= t.dataDownload && s.featureExtraction <= t.featureExtraction
    requires s.researchAlignment <= t.researchAlignment && s.labelingQuality <= t.labelingQuality
    requires s.frameworkKnowledge <= t.frameworkKnowledge
    ensures OverallScore(s) <= OverallScore(t)
  {
  }

  datatype Status = Excellent | Good | Acceptable | NeedsWork
  datatype Readiness = ReadyForTraining | ReadyWithWarnings | NeedsImprovement | NotReady

  /** The status and readiness ladder on the overall score. */
  function Assessment(overall: real): (r: (Status, Readiness))
    ensures r == (Excellent, ReadyForTraining) <==> overall >= 0.9
    ensures r == (Good, ReadyWithWarnings) <==> 0.7 <= overall < 0.9
    ensures r == (Acceptable, NeedsImprovement) <==> 0.5 <= overall < 0.7
    ensures r == (NeedsWork, NotReady) <==> overall < 0.5
  {
    if overall >= 0.9 then (Excellent, ReadyForTraining)
    else if overall >= 0.7 then (Good, ReadyWithWarnings)
    else if overall >= 0.5 then (Acceptable, NeedsImprovement)
    else (NeedsWork, NotReady)
  }

  /** A higher overall score never gives a worse readiness. */
  lemma AssessmentMonotone(x: real, y: real)
    requires x <= y
    ensures ReadinessRank(Assessment(x).1) <= ReadinessRank(Assessment(y).1)
  {
  }

  function ReadinessRank(r: Readiness): nat
  {
    match r
    case NotReady => 0
    case NeedsImprovement => 1
    case ReadyWithWarnings => 2
    case ReadyForTraining => 3
  }

  /** The recommendations, in the order they are considered. */
  datatype Advice =
    | RedownloadXesFiles
    | CompleteFeatureExtraction
    | InvestigateDataProcessing
    | CompleteLabeling
    | CompleteFrameworkKnowledge
    | ExcellentWork

  function AdviceRank(a: Advice): nat
  {
    match a
    case RedownloadXesFiles => 0
    case CompleteFeatureExtraction => 1
    case InvestigateDataProcessing => 2
    case CompleteLabeling => 3
    case CompleteFrameworkKnowledge => 4
    case ExcellentWork => 5
  }

  /** When each recommendation is due: a component below 0.8 (0.7 for the
      research alignment), or an overall score of at least 0.8. */
  predicate Advised(a: Advice, s: ComponentScores, overall: real)
  {
    match a
    case RedownloadXesFiles => s.dataDownload < 0.8
    case CompleteFeatureExtraction => s.featureExtraction < 0.8
    case InvestigateDataProcessing => s.researchAlignment < 0.7
    case CompleteLabeling => s.labelingQuality < 0.8
    case CompleteFrameworkKnowledge => s.frameworkKnowledge < 0.8
    case ExcellentWork => overall >= 0.8
  }

  /** Every recommendation, in the order they are considered. */
  const ALL_ADVICE: seq<Advice> := [RedownloadXesFiles, CompleteFeatureExtraction, InvestigateDataProcessing,
                                    CompleteLabeling, CompleteFrameworkKnowledge, ExcellentWork]

  /** The members of `candidates` that are due, in their order. */
  function DueAdvice(candidates: seq<Advice>, s: ComponentScores, overall: real): seq<Advice>
  {
    if candidates == [] then []
    else
      var last := candidates[|candidates| - 1];
      DueAdvice(candidates[..|candidates| - 1], s, overall) + (if Advised(last, s, overall) then [last] else [])
  }

  predicate RankOrdered(l: seq<Advice>)
  {
    forall i, j :: 0 <= i < j < |l| ==> AdviceRank(l[i]) < AdviceRank(l[j])
  }

  /** Filtering keeps exactly the due candidates and keeps them in rank
      order. */
  lemma {:induction false} DueAdviceProperties(candidates: seq<Advice>, s: ComponentScores, overall: real)
    requires RankOrdered(candidates)
    ensures forall a :: a in DueAdvice(candidates, s, overall) <==> a in candidates && Advised(a, s, overall)
    ensures RankOrdered(DueAdvice(candidates, s, overall))
  {
    if candidates != [] {
      var init, last := candidates[..|candidates| - 1], candidates[|candidates| - 1];
      assert RankOrdered(init);
      DueAdviceProperties(init, s, overall);
      assert candidates == init + [last];
      forall a | a in DueAdvice(init, s, overall)
        ensures AdviceRank(a) < AdviceRank(last)
      {
        var k :| 0 <= k < |init| && init[k] == a;
      }
    }
  }

  /** Each recommendation is given exactly when it is due, once, and in the
      fixed order. */
  lemma RecommendationsDue(s: ComponentScores, overall: real)
    ensures forall a :: a in DueAdvice(ALL_ADVICE, s, overall) <==> Advised(a, s, overall)
    ensures RankOrdered(DueAdvice(ALL_ADVICE, s, overall))
  {
    DueAdviceProperties(ALL_ADVICE, s, overall);
    forall a
      ensures a in ALL_ADVICE
    {
      match a
      case RedownloadXesFiles => assert ALL_ADVICE[0] == a;
      case CompleteFeatureExtraction => assert ALL_ADVICE[1] == a;
      case InvestigateDataProcessing => assert ALL_ADVICE[2] == a;
      case CompleteLabeling => assert ALL_ADVICE[3] == a;
      case CompleteFrameworkKnowledge => assert ALL_ADVICE[4] == a;
      case ExcellentWork => assert ALL_ADVICE[5] == a;
    }
  }

  /** Checking candidate `k` extends the filter of the first `k`. */
  lemma DueAdviceStep(candidates: seq<Advice>, k: nat, s: ComponentScores, overall: real)
    requires k < |candidates|
    ensures DueAdvice(candidates[..k + 1], s, overall) ==
      DueAdvice(candidates[..k], s, overall) + (if Advised(candidates[k], s, overall) then [candidates[k]] else [])
  {
    assert candidates[..k + 1][..k] == candidates[..k];
  }

  /** `_generate_recommendations`: the due recommendations, appended one
      check at a time. */
  method GenerateRecommendations(s: ComponentScores, overall: real) returns (recommendations: seq<Advice>)
    ensures recommendations == DueAdvice(ALL_ADVICE, s, overall)
  {
    recommendations := [];
    if s.dataDownload < 0.8 {
      recommendations := recommendations + [RedownloadXesFiles];
    }
    DueAdviceStep(ALL_ADVICE, 0, s, overall);
    assert recommendations == DueAdvice(ALL_ADVICE[..1], s, overall);
    if s.featureExtraction < 0.8 {
      recommendations := recommendations + [CompleteFeatureExtraction];
    }
    DueAdviceStep(ALL_ADVICE, 1, s, overall);
    assert recommendations == DueAdvice(ALL_ADVICE[..2], s, overall);
    if s.researchAlignment < 0.7 {
      recommendations := recommendations + [InvestigateDataProcessing];
    }
    DueAdviceStep(ALL_ADVICE, 2, s, overall);
    assert recommendations == DueAdvice(ALL_ADVICE[..3], s, overall);
    if s.labelingQuality < 0.8 {
      recommendations := recommendations + [CompleteLabeling];
    }
    DueAdviceStep(ALL_ADVICE, 3, s, overall);
    assert recommendations == DueAdvice(ALL_ADVICE[..4], s, overall);
    if s.frameworkKnowledge < 0.8 {
      recommendations := recommendations + [CompleteFrameworkKnowledge];
    }
    DueAdviceStep(ALL_ADVICE, 4, s, overall);
    assert recommendations == DueAdvice(ALL_ADVICE[..5], s, overall);
    if overall >= 0.8 {
      recommendations := recommendations + [ExcellentWork];
    }
    DueAdviceStep(ALL_ADVICE, 5, s, overall);
    assert recommendations == DueAdvice(ALL_ADVICE[..6], s, overall);
    assert ALL_ADVICE[..6] == ALL_ADVICE;
  }

  /** "Excellent work" can be given next to a request to fix a component:
      a failed download with every other component perfect averages 0.8. */
  lemma ExcellentWithAFix()
    ensures var s := ComponentScores(0.0, 1.0, 1.0, 1.0, 1.0);
      InUnitInterval(s) && RedownloadXesFiles in DueAdvice(ALL_ADVICE, s, OverallScore(s)) &&
      ExcellentWork in DueAdvice(ALL_ADVICE, s, OverallScore(s))
  {
    var s := ComponentScores(0.0, 1.0, 1.0, 1.0, 1.0);
    RecommendationsDue(s, OverallScore(s));
  }

  datatype Report = Report(
    overallScore: real,
    status: Status,
    readiness: Readiness,
    researchCredibility: Credibility,
    componentScores: ComponentScores,
    download: DownloadResult,
    features: FeatureResult,
    benchmarks: BenchmarkResult,
    labeling: LabelingResult,
    knowledge: KnowledgeResult,
    recommendations: seq<Advice>)

  /** The download score read off the sizes of the logs. */
  function DownloadScoreOf(sizes: map<string, nat>): real
  {
    if MissingFrom(EXPECTED_FILES, sizes) != [] then 0.0
    else if SizeIssuesIn(EXPECTED_FILES, sizes) != [] then 0.5
    else 1.0
  }

  /** The five component scores as functions of what the validations read. */
  function InputScores(
    xesSizes: map<string, nat>, featureFiles: seq<FeatureFile>,
    domesticMean: MeanDuration, internationalMean: MeanDuration,
    labeledFiles: seq<LabeledFile>, knowledgeFiles: map<string, KnowledgeFile>): ComponentScores
  {
    ComponentScores(
      DownloadScoreOf(xesSizes),
      FileCountScore(TablesIn(featureFiles)),
      BenchmarkAccuracy(domesticMean, internationalMean),
      FileCountScore(ParsedCount(labeledFiles)),
      |PresentFrameworks(EXPECTED_KNOWLEDGE_FILES, knowledgeFiles)| as real / 6.0)
  }

  /** Every expected log exists with a size in its range. */
  predicate LogsInRange(sizes: map<string, nat>)
  {
    forall f :: f in EXPECTED_FILES ==> f in sizes && SizeOk(f, sizes[f])
  }

  /** Some benchmark is checked and every checked one matches. */
  predicate BenchmarksMet(domestic: MeanDuration, international: MeanDuration)
  {
    Checked(domestic, international) > 0 &&
    (domestic.NoFile? || WithinRange(domestic, DomesticDuration)) &&
    (international.NoFile? || WithinRange(international, InternationalDuration))
  }

  /** All six knowledge files exist. */
  predicate AllKnowledgeFiles(files: map<string, KnowledgeFile>)
  {
    forall f :: f in EXPECTED_KNOWLEDGE_FILES ==> f in files
  }

  /** The download score is 1 exactly when every expected log exists with a
      size in its range. */
  lemma DownloadScoreOfFull(sizes: map<string, nat>)
    ensures DownloadScoreOf(sizes) == 1.0 <==> LogsInRange(sizes)
  {
    DownloadLists(EXPECTED_FILES, sizes);
    var missing, issues := MissingFrom(EXPECTED_FILES, sizes), SizeIssuesIn(EXPECTED_FILES, sizes);
    if missing != [] {
      assert missing[0] in missing;
    }
    if issues != [] {
      assert issues[0] in issues;
    }
  }

  /** Every component score read off the inputs lies in [0, 1]. */
  lemma InputScoresBounds(
    xesSizes: map<string, nat>, featureFiles: seq<FeatureFile>,
    domesticMean: MeanDuration, internationalMean: MeanDuration,
    labeledFiles: seq<LabeledFile>, knowledgeFiles: map<string, KnowledgeFile>)
    ensures InUnitInterval(InputScores(xesSizes, featureFiles, domesticMean, internationalMean,
                                       labeledFiles, knowledgeFiles))
  {
    BenchmarkAccuracyBounds(domesticMean, internationalMean);
    PresentAtMost(EXPECTED_KNOWLEDGE_FILES, knowledgeFiles);
  }

  /** The mean of scores in [0, 1] is 1 exactly when every score is 1. */
  lemma MeanIsOne(s: ComponentScores)
    requires InUnitInterval(s)
    ensures OverallScore(s) == 1.0 <==>
      s.dataDownload == 1.0 && s.featureExtraction == 1.0 && s.researchAlignment == 1.0 &&
      s.labelingQuality == 1.0 && s.frameworkKnowledge == 1.0
  {
    OverallBounds(s);
  }

  /** The overall score is 1 exactly when every log is present with the
      expected size, at least five feature tables and five labelled files
      are read, some benchmark is checked and every checked one matches, and
      all six knowledge files exist. */
  lemma PerfectReport(
    xesSizes: map<string, nat>, featureFiles: seq<FeatureFile>,
    domesticMean: MeanDuration, internationalMean: MeanDuration,
    labeledFiles: seq<LabeledFile>, knowledgeFiles: map<string, KnowledgeFile>)
    ensures OverallScore(InputScores(xesSizes, featureFiles, domesticMean, internationalMean,
                                     labeledFiles, knowledgeFiles)) == 1.0 <==>
      LogsInRange(xesSizes) && TablesIn(featureFiles) >= 5 && BenchmarksMet(domesticMean, internationalMean) &&
      ParsedCount(labeledFiles) >= 5 && AllKnowledgeFiles(knowledgeFiles)
  {
    var s := InputScores(xesSizes, featureFiles, domesticMean, internationalMean, labeledFiles, knowledgeFiles);
    InputScoresBounds(xesSizes, featureFiles, domesticMean, internationalMean, labeledFiles, knowledgeFiles);
    MeanIsOne(s);
    assert s.dataDownload == 1.0 <==> LogsInRange(xesSizes) by {
      DownloadScoreOfFull(xesSizes);
    }
    assert s.researchAlignment == 1.0 <==> BenchmarksMet(domesticMean, internationalMean) by {
      BenchmarkAccuracyBounds(domesticMean, internationalMean);
    }
    assert s.frameworkKnowledge == 1.0 <==> AllKnowledgeFiles(knowledgeFiles) by {
      PresentAtMost(EXPECTED_KNOWLEDGE_FILES, knowledgeFiles);
    }
  }

  /** `generate_validation_report`: runs the five validations, scores them,
      and assesses the mean. The benchmark check runs third; when it raises,
      no report is produced. */
  method GenerateValidationReport(
    xesSizes: map<string, nat>, featureFiles: seq<FeatureFile>,
    domesticMean: MeanDuration, internationalMean: MeanDuration,
    labeledFiles: seq<LabeledFile>, knowledgeFiles: map<string, KnowledgeFile>)
    returns (result: Option<Report>)
    ensures result.None? <==> domesticMean.ReadFails? || internationalMean.ReadFails?
    ensures result.Some? ==> var report := result.value;
      report.componentScores ==
        InputScores(xesSizes, featureFiles, domesticMean, internationalMean, labeledFiles, knowledgeFiles) &&
      report.componentScores ==
        ScoresOf(report.download, report.features, report.benchmarks, report.labeling, report.knowledge) &&
      InUnitInterval(report.componentScores) &&
      report.overallScore == OverallScore(report.componentScores) &&
      0.0 <= report.overallScore <= 1.0 &&
      (report.status, report.readiness) == Assessment(report.overallScore) &&
      report.researchCredibility == report.benchmarks.researchCredibility &&
      report.researchCredibility == BenchmarkCredibility(domesticMean, internationalMean) &&
      DownloadReported(xesSizes, report.download) &&
      FeaturesReported(featureFiles, report.features) &&
      BenchmarksReported(domesticMean, internationalMean, report.benchmarks) &&
      LabelingReported(labeledFiles, report.labeling) &&
      KnowledgeReported(knowledgeFiles, report.knowledge) &&
      report.recommendations == DueAdvice(ALL_ADVICE, report.componentScores, report.overallScore)
  {
    var downloadValidation := ValidateDataDownload(xesSizes);
    var featureValidation := ValidateFeatureExtraction(featureFiles);
    var benchmarkOutcome := ValidateAgainstResearchBenchmarks(domesticMean, internationalMean);
    if benchmarkOutcome.None? {
      return None;
    }
    var benchmarkValidation := benchmarkOutcome.value;
    var labelingValidation := ValidateLabelingQuality(labeledFiles);
    var knowledgeValidation := ValidateFrameworkKnowledge(knowledgeFiles);
    var scores := ScoresOf(downloadValidation, featureValidation, benchmarkValidation,
                           labelingValidation, knowledgeValidation);
    assert scores == InputScores(xesSizes, featureFiles, domesticMean, internationalMean,
                                 labeledFiles, knowledgeFiles);
    var overallScore := OverallScore(scores);
    OverallBounds(scores);
    var (status, readiness) := Assessment(overallScore);
    var recommendations := GenerateRecommendations(scores, overallScore);
    var report := Report(overallScore, status, readiness, benchmarkValidation.researchCredibility, scores,
                         downloadValidation, featureValidation, benchmarkValidation, labelingValidation,
                         knowledgeValidation, recommendations);
    return Some(report);
  }
}
