# BPI Challenge 2020 workflow-optimisation data pipeline — a Dafny model

This project models the computational core of a research pipeline that turns
the BPI Challenge 2020 travel-expense event logs into labelled training data
for workflow-optimisation agents, and of the script that validates the
deployed system:

- **Feature extraction** (`DataExploration`): the explorer keeps the loaded
  logs by dataset name. For a loaded dataset, it builds one feature record per
  distinct case id. Each record holds the duration, the activity counts, the
  rejection counts, the international flag, the time-ordered activity
  sequence and the approval time.
- **Research-based labelling** (`ResearchLabelling`): four threshold rules
  taken from the published BPI Challenge results label a case. The labels
  give a severity score, a capped optimisation potential, one recommendation
  per inefficiency and a training label. `label_dataset` applies this row by
  row.
- **Data validation** (`DataValidation`): the validation suite checks the
  downloaded logs, the feature tables, the research benchmarks, the labelled
  files and the framework-knowledge files. It then combines the component
  scores into an overall score, a readiness verdict and a list of
  recommendations.
- **Deployment validation** (`SystemValidation`): a `SystemValidator` object
  fills its result sections from the infrastructure, data, knowledge,
  compliance and configuration checks. It computes the weighted overall
  score and renders a report, and the command-line entry maps that score to
  an exit code.

`Common` holds the optional value (Python's `None`, `dict.get` defaults) and
the few string operations the code uses.

Every outside answer becomes an input value:
- the file system, pm4py's XES reader, pandas tables, JSON files;
- the boto3 clients (S3, DynamoDB, Bedrock).

Examples of such inputs are a map from file names to sizes, a `LoadOutcome`
per log file, and an `Environment` record of what each AWS call would answer.
Texts the program prints or stores (recommendations, messages) are
enumerated tags; only which tag is chosen is modelled.

Durations, rates and scores are Dafny `real`s. Python's true division,
`min`, `np.mean` over five values and the comparisons are exact rational
arithmetic here.

## Model

| member | source | states |
|---|---|---|
| `ResearchLabelling.LookupTables` | research_labelling.py:197-225 | `_get_recommendation` and `_get_expected_improvement` fall back to the general text exactly for a type outside their tables; distinct known types get distinct entries |
| `ResearchLabelling.ParseType` | research_labelling.py:181-187 | reading a `type` string keeps the name, and gives an unrecognised type exactly for a name outside the seven the labeller knows |
| `ResearchLabelling.ParseTypeName` | research_labelling.py:181-187 | reading back the name of a known type gives that type |
| `ResearchLabelling.LookupByName` | research_labelling.py:197-225 | the two `dict.get` lookups on a `type` string give the general texts exactly for a name outside the tables |
| `ResearchLabelling.SeverityLevel` | research_labelling.py:251 | the severity level is high iff score ≥ 5, medium iff 2 ≤ score < 5, low iff score < 2 |
| `ResearchLabelling.SeverityLevelMonotone` | research_labelling.py:251 | a higher severity score never gives a lower level |
| `ResearchLabelling.RecommendationsFor` | research_labelling.py:178-195 | exactly one recommendation per inefficiency, position by position |
| `ResearchLabelling.LabelCaseInefficiencies` | research_labelling.py:62-150 | the four rule steps produce exactly the rule labels in rule order; the severity score is the sum of the per-label increments, the count is the list length, and the potential is that of the labels |
| `ResearchLabelling.ApplyDurationRule` | research_labelling.py:76-99 | the duration step appends exactly the duration rule's label (if any) and raises the score by its increment |
| `ResearchLabelling.ApplySupervisorRule` | research_labelling.py:101-113 | the approval step appends exactly the supervisor rule's label (if any) and raises the score by its increment |
| `ResearchLabelling.ApplyRejectionRule` | research_labelling.py:115-127 | the rejection step appends exactly the rejection rule's label (if any) and raises the score by its increment |
| `ResearchLabelling.ApplyComplexityRule` | research_labelling.py:129-143 | the complexity step appends exactly the complexity rule's label (if any) and raises the score by its increment |
| `ResearchLabelling.CalculateOptimizationPotential` | research_labelling.py:152-173 | the loop computes the capped sum of per-type potentials (0 for no labels), which lies in [0, 80] |
| `ResearchLabelling.GenerateOptimizationRecommendations` | research_labelling.py:175-195 | the loop yields the recommendation of each inefficiency in order |
| `ResearchLabelling.Map` | research_labelling.py:232-259 | applying a function to each element keeps the length and puts the image of element k at position k |
| `ResearchLabelling.LabelDataset` | research_labelling.py:227-259 | one labelled case per input row, in row order, each the labelling of its row |
| `ResearchLabelling.LabelRow` | research_labelling.py:234-257 | one loop iteration builds labels, recommendations and the training label of its row |
| `ResearchLabelling.CaseLabelsParts` | research_labelling.py:73-143 | a case has a label of a type iff one of the four rule groups emitted it |
| `ResearchLabelling.DurationRule` | research_labelling.py:77-99 | international and duration > 150 fires the international label, otherwise duration > 20 fires the domestic one; never both; a missing duration (default 0) fires neither; high iff > 200 (resp. > 30), adding 3 else 2 |
| `ResearchLabelling.KindsComeFromRules` | research_labelling.py:73-143 | each label is the label of the rule group at its position |
| `ResearchLabelling.SupervisorRule` | research_labelling.py:102-113 | the supervisor label fires iff the approval time is present, non-zero and > 30; high iff > 50; it always adds 3 |
| `ResearchLabelling.RejectionAndComplexityRules` | research_labelling.py:116-143 | rejections fire iff count > 2, high iff > 3, rate 0.27 for international cases and 0.12 otherwise; complexity fires iff activity count > 20 and is always medium |
| `ResearchLabelling.LabelOrder` | research_labelling.py:34-143 | labels come in rule order (duration, supervisor, rejections, complexity), at most 4, never low severity; director-approval and late-submission labels are never emitted |
| `ResearchLabelling.SeverityScoreBounds` | research_labelling.py:145-150 | the severity score is the sum of the label increments and lies in 0..9; the inefficiency count is the list length |
| `ResearchLabelling.LowSeverityMeansOnlyComplexity` | research_labelling.py:251 | a case is low severity iff all its labels (if any) are complexity labels |
| `ResearchLabelling.PotentialBounds` | research_labelling.py:155-173 | the optimisation potential is 0 for no labels and always lies in [0, 80] |
| `ResearchLabelling.PotentialMonotone` | research_labelling.py:161-173 | adding a label never lowers the potential |
| `ResearchLabelling.CasePotentialPositive` | research_labelling.py:145-173 | for the labeller's own output the potential is positive iff some label fired |
| `ResearchLabelling.RecommendationsFollowLabels` | research_labelling.py:175-195 | a labelled case has one recommendation per label, in order, with the label's type and the label's framework fields (no fall-back values) |
| `ResearchLabelling.RecommendationFallbacks` | research_labelling.py:175-225 | for any inefficiency record the type is preserved; unknown types get the general texts; each framework field is read on its own, so a missing mapping, or a present mapping lacking `optimization`, `lean_waste` or `agile_principle`, gives `general_process_improvement` / `unknown` for that field, and a present field is copied |
| `ResearchLabelling.TrainingLabelFacts` | research_labelling.py:249-254 | has_inefficiencies iff a label fired, the primary bottleneck is the first label's type or None, the severity level is the ladder on the severity score (high ≥ 5, medium in [2, 5), low < 2, and low iff every label is a complexity label), and the potential equals the labels' optimisation potential, in [0, 80] |
| `DataExploration.XesFileNames` | data_exploration.py:16-22 | exactly the five dataset names have a log file |
| `DataExploration.Explorer.LoadXesFiles` | data_exploration.py:13-37 | a dataset is loaded iff it was before or its file exists and reads; a newly read log replaces the old one; the returned map is the field |
| `DataExploration.Explorer.ExtractTrainingFeatures` | data_exploration.py:117-157 | None iff the dataset is not loaded, otherwise the feature table of its log |
| `DataExploration.CaseRecordsOf` | data_exploration.py:126-155 | the loop builds the record of each case id in order |
| `DataExploration.CaseFeaturesOf` | data_exploration.py:129-153 | one iteration's record is the feature record of that case |
| `DataExploration.SetApprovalTime` | data_exploration.py:146-153 | the approval step sets only the approval time, to that of the case's events |
| `DataExploration.DistinctProperties` | data_exploration.py:128 | `unique()` keeps each value once, exactly the values of the column, no more than its length |
| `DataExploration.EventsOfMembers` | data_exploration.py:129 | the boolean-mask selection holds exactly the log's events with that case id |
| `DataExploration.SortByTimeProperties` | data_exploration.py:129 | `sort_values` on the timestamp yields a time-ordered permutation of its input |
| `DataExploration.ExtremeTimestamps` | data_exploration.py:134-135 | `max()` and `min()` bound every timestamp of the case and are each attained by one of its events |
| `DataExploration.RejectionCount` | data_exploration.py:139 | the rejection count never exceeds the number of activities |
| `DataExploration.FirstMatchProperties` | data_exploration.py:146-151 | `iloc[0]` of a case-insensitive `str.contains` selection is the first matching event; the selection is empty iff no event matches |
| `DataExploration.Explorer.constructor` | data_exploration.py:9-11 | the explorer starts with no loaded logs |
| `DataExploration.CaseEventsProperties` | data_exploration.py:129 | the case's events are time-ordered and are exactly the log's events of that case, with multiplicity |
| `DataExploration.OneRecordPerCase` | data_exploration.py:128-155 | no case id is repeated, and a record exists iff the case id occurs in the log |
| `DataExploration.CaseCounts` | data_exploration.py:136-142 | activity_count is the number of the case's events (≥ 1) and the length of both sequences; unique_activities is the number of distinct names and ≤ activity_count |
| `DataExploration.RejectionFlagMatchesCount` | data_exploration.py:138-139 | some activity contains `REJECT` iff the counted number is positive |
| `DataExploration.RejectionFeatures` | data_exploration.py:138-139 | has_rejections iff rejection_count > 0, and rejection_count ≤ activity_count |
| `DataExploration.CaseTimeline` | data_exploration.py:129-142 | timestamps are non-decreasing, each (activity, time) pair is an event of the case and every event of the case appears; the duration is (last − first)/86400 and ≥ 0 |
| `DataExploration.ApprovalTimePresence` | data_exploration.py:146-153 | the approval time is None iff the case has no event matching `SUBMITTED` or none matching `APPROVED` (ignoring case) |
| `DataExploration.ApprovalTimeValue` | data_exploration.py:149-151 | when present it is the first APPROVED time minus the first SUBMITTED time of the ordered case, in days (possibly negative) |
| `DataExploration.InternationalFlag` | data_exploration.py:140 | is_international is the lower-cased dataset name containing `international`, the same for every record |
| `DataValidation.DownloadLists` | data_validation.py:61-83 | the missing list holds exactly the absent names and the size-issue list exactly the present, out-of-range ones |
| `DataValidation.ValidateDataDownload` | data_validation.py:29-93 | the lists follow the expected order; download_complete iff nothing is missing; file details exist exactly for present files, with size, range check and expected range |
| `DataValidation.WithoutBounds` | data_validation.py:122 | the missing-feature list is no longer than the required list and is empty iff every required feature is a column |
| `DataValidation.DataQualityBounds` | data_validation.py:132 | the feature quality score lies in [0, 1] and is 1 iff no required feature is missing |
| `DataValidation.TablesAtMostFiles` | data_validation.py:113-137 | no more tables are counted than files seen |
| `DataValidation.ScoresInBounds` | data_validation.py:113-137 | there is one quality score per readable table, each in [0, 1] |
| `DataValidation.ValidateFeatureExtraction` | data_validation.py:95-156 | feature_files_found counts readable tables, total_cases sums their rows, and the quality scores are those of the readable tables in file order (share of required features present), one per table, each in [0, 1] |
| `DataValidation.CredibilityOf` | data_validation.py:238-246 | HIGH iff accuracy ≥ 0.8, MEDIUM iff 0.6 ≤ accuracy < 0.8, LOW otherwise |
| `DataValidation.CheckBenchmark` | data_validation.py:176-202 | a missing table changes nothing; otherwise the benchmark is counted and lands in the matches (adding a match) or the deviations |
| `DataValidation.ValidateAgainstResearchBenchmarks` | data_validation.py:158-248 | no result iff reading either table raises; otherwise each benchmark is a match iff its mean is within range, a deviation iff its table exists and it is not; with none checked, accuracy stays 0 and credibility unknown; otherwise accuracy = matches/checked ∈ [0, 1] and the credibility follows the ladder |
| `DataValidation.BenchmarkAccuracyBounds` | data_validation.py:233-236 | the accuracy lies in [0, 1] and is 1 iff some benchmark is checked and every checked one matches |
| `DataValidation.NoMediumCredibility` | data_validation.py:233-246 | with at most two benchmarks the MEDIUM credibility is unreachable |
| `DataValidation.SeverityPartition` | data_validation.py:276-286 | each valid case increments exactly one severity bucket; inefficient cases ≤ cases |
| `DataValidation.CountTypes` | data_validation.py:289-293 | each typed inefficiency adds one to its type's count until the first record without `type`, which stops the loop: every count grows by exactly the occurrences of its type before that record (all of them when every record has a type) |
| `DataValidation.TypedPrefix` | data_validation.py:289-293 | the records the inner loop gets through: every one before the returned index has a type, and the record at it (if any) has none |
| `DataValidation.TypeCountPrefix` | data_validation.py:289-293 | a prefix of the type list holds no more occurrences of a type than the whole list |
| `DataValidation.CasesTypeCountPrefix` | data_validation.py:276-293 | a prefix of the cases holds no more occurrences of a type than all the cases |
| `DataValidation.ScanLabeledCases` | data_validation.py:276-302 | coverage is recorded iff every case passes, and then equals the file's counts and rate; each type count grows by exactly the occurrences the loop reaches before the first failing case stops it, which is all of the file's when every case passes |
| `DataValidation.FirstInvalid` | data_validation.py:276-293 | where the per-case loop stops: every case before the returned index passes, and the case at it (if any) fails |
| `DataValidation.StopsAt` | data_validation.py:276-293 | when case i is the first to fail, the loop has counted every type occurrence of the cases before it and those case i gets through |
| `DataValidation.ScannedAtMost` | data_validation.py:276-293 | the loop counts every type occurrence when all cases pass, and never more occurrences than the cases hold |
| `DataValidation.ValidateLabeledFile` | data_validation.py:265-310 | a parsed file is counted with all its cases; a failure clears label_consistency; only a clean file gets a coverage entry; each type count grows by exactly what the file's scan counts, which is all of the file's occurrences when the file is clean |
| `DataValidation.CleanFilesTypeCountAll` | data_validation.py:265-310 | when every file is clean, the clean files' type counts are those of all parsed files |
| `DataValidation.ValidateLabelingQuality` | data_validation.py:250-324 | labelled files and cases count the parsed files; label_consistency iff every file is clean; every clean file has a coverage entry and every entry comes from a clean file of that name; each type's count is exactly what the scans of all files count, which lies between its occurrences in the clean files and in all parsed files and equals the latter when every file is clean |
| `DataValidation.FilesScannedBounds` | data_validation.py:250-324 | what the scans count lies between the occurrences in the clean files and those in all parsed files |
| `DataValidation.CoverageConsistent` | data_validation.py:295-302 | high + medium + low equals the case count, inefficient ≤ total, and the rate lies in [0, 1] |
| `DataValidation.QualityEntryKeys` | data_validation.py:350-372 | a content-quality entry exists exactly for the framework name of each file that parses |
| `DataValidation.PresentAtMost` | data_validation.py:350-355 | the covered frameworks are at most the expected files, all six iff every file exists |
| `DataValidation.ValidateFrameworkKnowledge` | data_validation.py:326-387 | frameworks_covered lists the present files in order; knowledge_files is their count; completeness = found/6 ∈ [0, 1], 1 iff all exist |
| `DataValidation.DownloadScore` | data_validation.py:405 | 1.0 iff complete with no size issues, 0.5 iff complete with some, 0.0 iff a file is missing |
| `DataValidation.FileCountScore` | data_validation.py:406-408 | min(n/5, 1) lies in [0, 1], is 1 iff n ≥ 5 and n/5 below |
| `DataValidation.OverallBounds` | data_validation.py:412 | the mean of five scores in [0, 1] lies in [0, 1] and is 1 only if all are |
| `DataValidation.OverallMonotone` | data_validation.py:412 | raising a component never lowers the mean |
| `DataValidation.Assessment` | data_validation.py:421-437 | EXCELLENT/READY_FOR_TRAINING iff ≥ 0.9, GOOD/READY_WITH_WARNINGS iff in [0.7, 0.9), ACCEPTABLE/NEEDS_IMPROVEMENT iff in [0.5, 0.7), NEEDS_WORK/NOT_READY iff < 0.5 |
| `DataValidation.AssessmentMonotone` | data_validation.py:421-437 | a higher overall score never gives a worse readiness |
| `DataValidation.DueAdviceProperties` | data_validation.py:495-515 | filtering candidates keeps exactly the due ones, in rank order |
| `DataValidation.RecommendationsDue` | data_validation.py:492-515 | each recommendation is given iff its component is below 0.8 (0.7 for research alignment), "Excellent work" iff overall ≥ 0.8, in the fixed order |
| `DataValidation.GenerateRecommendations` | data_validation.py:492-515 | the appends produce exactly the due recommendations |
| `DataValidation.DownloadScoreOfFull` | data_validation.py:405 | the download score is 1 iff every expected log exists with a size in its range |
| `DataValidation.InputScoresBounds` | data_validation.py:404-410 | each component score read off the validations' inputs lies in [0, 1] |
| `DataValidation.MeanIsOne` | data_validation.py:412 | the mean of five scores in [0, 1] is 1 iff every score is 1 |
| `DataValidation.PerfectReport` | data_validation.py:404-412 | the overall score is 1 iff every log is present in its size range, at least five feature tables and five labelled files are read, some benchmark is checked and all checked match, and all six knowledge files exist |
| `DataValidation.ExcellentWithAFix` | data_validation.py:495-513 | "Excellent work" can appear together with a request to re-download |
| `DataValidation.GenerateValidationReport` | data_validation.py:389-490 | no report iff reading a benchmark table raises; otherwise the detailed results are those each validation gives for its inputs (download lists and details, feature counts and scores, benchmark matches and accuracy, labelling counts and coverage, knowledge coverage); the research credibility is unknown with no benchmark checked and else the ladder on the accuracy of the means; the component scores are the functions of the inputs and lie in [0, 1]; overall is their mean in [0, 1]; status and readiness follow the ladder; the recommendations are the due ones |
| `SystemValidation.TableFlagsEntries` | aws_bedrock_deployment/deployment_scripts/validate_system.py:78-89 | exactly the required tables are recorded, each as active iff its status is ACTIVE |
| `SystemValidation.ActiveTablesBound` | aws_bedrock_deployment/deployment_scripts/validate_system.py:71-89 | at most 4 tables count as active, all 4 iff every required table is active |
| `SystemValidation.FileChecksEntries` | aws_bedrock_deployment/deployment_scripts/validate_system.py:126-140 | each listed object is recorded once, as found with its size exactly when the bucket holds it |
| `SystemValidation.PresentCountFull` | aws_bedrock_deployment/deployment_scripts/validate_system.py:189-195 | every listed object is present iff the present count equals the list length |
| `SystemValidation.FoundCountIsPresentCount` | aws_bedrock_deployment/deployment_scripts/validate_system.py:189-195 | counting found entries of the recorded map equals counting present paths, as no path is listed twice |
| `SystemValidation.DataQualityBounds` | aws_bedrock_deployment/deployment_scripts/validate_system.py:189-195 | data_quality_score = existing/13·100 lies in [0, 100] and is 100 iff all thirteen objects exist |
| `SystemValidation.CriteriaMet` | aws_bedrock_deployment/deployment_scripts/validate_system.py:270-277 | at most six completeness criteria hold |
| `SystemValidation.KnowledgeScore` | aws_bedrock_deployment/deployment_scripts/validate_system.py:200-288 | the score lies in [0, 100]; with every document read it is criteria/6·100 and 100 iff all six criteria hold; on a failed read it is 0 and keeps exactly the summaries read before |
| `SystemValidation.ComplianceLevels` | aws_bedrock_deployment/deployment_scripts/validate_system.py:290-366 | a completed check scores 50, 75 or 100 (100 iff benchmarks and citation both hold); a failed one scores 0 |
| `SystemValidation.RecordedItemsLastWins` | aws_bedrock_deployment/deployment_scripts/validate_system.py:385-395 | the recorded keys are the items' `category.key` values, each holding the last such item's entry |
| `SystemValidation.MissingKeysMembers` | aws_bedrock_deployment/deployment_scripts/validate_system.py:405-406 | a key is missing iff required and not recorded |
| `SystemValidation.ConfigurationCompleteness` | aws_bedrock_deployment/deployment_scripts/validate_system.py:368-418 | completeness = (4 − missing)/4·100 lies in [0, 100] and is 100 iff every required key is recorded; a failed scan gives 0 and invalid settings |
| `SystemValidation.WeightsSumToOne` | aws_bedrock_deployment/deployment_scripts/validate_system.py:436-451 | equal components give that same overall score (the weights sum to 1) |
| `SystemValidation.WeightedBounds` | aws_bedrock_deployment/deployment_scripts/validate_system.py:451 | percentages in [0, 100] give an overall in [0, 100] |
| `SystemValidation.WeightedMonotone` | aws_bedrock_deployment/deployment_scripts/validate_system.py:451 | the overall score is monotone in each component |
| `SystemValidation.InfrastructureBounds` | aws_bedrock_deployment/deployment_scripts/validate_system.py:424-434 | 25·[s3] + 50·active/4 + 25·[bedrock] lies in [0, 100] and is 100 iff bucket, all tables and Bedrock pass |
| `SystemValidation.FailedListing` | aws_bedrock_deployment/deployment_scripts/validate_system.py:91-101 | a model listing that raises leaves bedrock_access False, so the infrastructure score is at most 75 and the report always asks to verify Bedrock access |
| `SystemValidation.ComponentStatus` | aws_bedrock_deployment/deployment_scripts/validate_system.py:473 | PASS iff ≥ 80, WARNING iff in [60, 80), FAIL iff < 60 |
| `SystemValidation.ExitCode` | aws_bedrock_deployment/deployment_scripts/validate_system.py:572-578 | 0 iff ≥ 80, 1 iff in [60, 80), 2 iff < 60 |
| `SystemValidation.ExitCodeMatchesStatus` | aws_bedrock_deployment/deployment_scripts/validate_system.py:572-578 | the two ladders cut at the same points |
| `SystemValidation.AdviceDue` | aws_bedrock_deployment/deployment_scripts/validate_system.py:503-510 | the upload advice is due iff data quality < 80, the Bedrock advice iff Bedrock is not accessible, the compliance advice iff compliance < 80; at most three |
| `SystemValidation.OutlookOf` | aws_bedrock_deployment/deployment_scripts/validate_system.py:494-501 | the report's verdict for ≥ 90, [80, 90), [70, 80) and < 70 |
| `SystemValidation.OverallOfBounds` | aws_bedrock_deployment/deployment_scripts/validate_system.py:518-538 | a full validation yields an overall score in [0, 100] and an exit code in 0..2 |
| `SystemValidation.SystemValidator.constructor` | aws_bedrock_deployment/deployment_scripts/validate_system.py:31-49 | every section starts empty and the overall score at 0 |
| `SystemValidation.SystemValidator.ValidateInfrastructure` | aws_bedrock_deployment/deployment_scripts/validate_system.py:51-104 | stores and returns the infrastructure result of the environment; no other section changes |
| `SystemValidation.SystemValidator.CheckObjects` | aws_bedrock_deployment/deployment_scripts/validate_system.py:126-140 | one lookup per listed path, in order |
| `SystemValidation.SystemValidator.ValidateDataCompleteness` | aws_bedrock_deployment/deployment_scripts/validate_system.py:106-198 | stores and returns the data result with existing/13·100; no other section changes |
| `SystemValidation.SystemValidator.ValidateFrameworkKnowledge` | aws_bedrock_deployment/deployment_scripts/validate_system.py:200-288 | stores and returns the knowledge result, stopping at the first unreadable document |
| `SystemValidation.SystemValidator.ValidateResearchCompliance` | aws_bedrock_deployment/deployment_scripts/validate_system.py:290-366 | stores and returns the compliance result, stopping at the first unreadable document |
| `SystemValidation.SystemValidator.ValidateSystemConfiguration` | aws_bedrock_deployment/deployment_scripts/validate_system.py:368-418 | returns the configuration result without storing it |
| `SystemValidation.SystemValidator.CalculateOverallScore` | aws_bedrock_deployment/deployment_scripts/validate_system.py:420-456 | returns and stores the weighted score (missing sections count 0), which lies in [0, 100], and a component map with exactly the four named scores |
| `SystemValidation.SystemValidator.SectionBounds` | aws_bedrock_deployment/deployment_scripts/validate_system.py:424-448 | every stored section score lies in [0, 100] |
| `SystemValidation.SystemValidator.GenerateValidationReport` | aws_bedrock_deployment/deployment_scripts/validate_system.py:458-516 | the overall score is the weighted score of the stored sections, in [0, 100]; one line per component, in order, with its score and status; the verdict of the overall score; the infrastructure, data and compliance facts copied from the sections; the follow-up recommendations due, in the report's order; the sections are unchanged |
| `SystemValidation.SystemValidator.RunFullValidation` | aws_bedrock_deployment/deployment_scripts/validate_system.py:518-533 | every section holds its validation's result, the overall score is that of the environment, and the component map holds the four section scores of the environment |
| `SystemValidation.ValidateAndExit` | aws_bedrock_deployment/deployment_scripts/validate_system.py:540-578 | the exit code is 0, 1 or 2 by the overall score's ladder |

## Left out

- All I/O:
  - reading XES files (pm4py), CSV and JSON files, and the directory globbing;
  - every print, and writing the reports and labelled files;
  - the argparse options and the timestamps from `datetime.now()` / `pd.Timestamp.now()`.
  
  These become input values or are dropped.
- boto3 calls (S3, DynamoDB, Lambda, Bedrock): each call's answer is a field of `SystemValidation.Environment`. The agile document, which the source fetches twice, is read once.
- `SystemValidation.Environment`: the model lets the Bedrock model listing succeed (`modelIds` present). In boto3, `list_foundation_models` is an operation of the `bedrock` client, while the script builds a `bedrock-runtime` client (aws_bedrock_deployment/deployment_scripts/validate_system.py:37). So the call at :93 would raise, the handler at :100 would catch it, and bedrock_access would stay False. `FailedListing` states what that case, `modelIds == None`, gives.
- The S3 `last_modified` timestamps of training files, and exception messages (`error` / `validation_error` strings): only the fact of a failure is kept.
- A configuration item lacking one of its three mandatory attributes (a `KeyError` partway through the scan) is not modelled; every scanned item is well-formed.
- JSON document contents are reduced to the lengths of the lists they hold and the key checks the validator makes. A value whose `len` would raise is not modelled.
- `analyze_dataset_structure` and the bottleneck analysis of the exploration script, its plotting, and the `main` functions, except the exit-code mapping.
- The framework-knowledge collection script: it only writes static JSON text that nothing parses.
- The feature-extraction statistics the validation suite shows but does not score (average duration, average activities, rejection rate, `has_international`, extra columns, the per-dataset `datasets` dictionary): `ValidateFeatureExtraction` keeps only the counts and quality scores.
- The deviation percentages of the benchmark check, which are display strings.
- The "at least 5 inefficiency types" message of the labelling validation, which affects nothing stored.
- Message and recommendation wording: enumerated tags.
- Floating-point rounding: all arithmetic is exact. Near a threshold the Python program may round differently.
- `DataExploration.SortByTime`: pandas' default `sort_values` is not stable, so the order of events with equal timestamps is unspecified. The model uses a stable insertion sort, so ties keep log order.
- `Common.Upper` / `Common.Lower`: case-insensitive matching and `lower()` cover ASCII letters only. Python also folds non-ASCII letters.
- `DataExploration.Event`: a non-string activity name (which the source passes through `str`) and missing values (`na=False`) are not modelled; activity names are strings.
- `DataValidation.FrameworkName`: it removes a trailing `.json`, while the source removes every occurrence of `.json`. The two agree on the six fixed file names.
- `DataValidation.ValidateAgainstResearchBenchmarks`: the mean of a table is an input (`MeanDuration`). A header-only table, whose pandas mean is NaN and so fails every comparison, is the `NoRows` case. A file that pandas cannot read or that lacks `total_duration_days` raises, and nothing in the benchmark check catches it: that is `ReadFails`, and then no report is produced.
- `ResearchLabelling.LabeledCase`: `input_features` holds the whole feature-table row (`row.to_dict()`), but the model keeps only the six fields the rules read. Columns passed through untouched, such as `unique_activities`, `has_rejections` and `activities_sequence`, are dropped, since nothing in the labeller reads them.
- `ResearchLabelling.CaseFeatures`: a NaN `is_international` is not modelled. The flag is a boolean or absent (False). In Python a NaN flag is truthy, so the rules at research_labelling.py:80 and :118 would take the international branch. The feature extractor always writes a boolean there. The numeric fields read with `dict.get` are modelled as absent when NaN. This gives the same rule outcomes, because NaN fails every comparison.
- The `agent_functionality`, `performance_metrics` and `validation_timestamp` entries of the deployment validator's results: nothing in the script fills or reads the first two, and the third is a clock reading.
- The deployment validator's region argument and the outer exception handler of `run_full_validation`: every check already turns its own failures into its result, and the model has no other failure.
