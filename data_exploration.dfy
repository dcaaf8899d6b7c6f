/** The BPI Challenge 2020 explorer: loading the five event logs and deriving
    one feature record per case from a log. An event log is modelled as the
    sequence of its events' (case id, activity name, timestamp) triples, the
    rows of the data frame pm4py would produce; timestamps are whole seconds. */
module DataExploration {
  import opened Common

  const SECONDS_PER_DAY: real := 86400.0

  datatype Event = Event(caseId: string, activity: string, timestamp: int)

  /** The feature record of one case. */
  datatype CaseRecord = CaseRecord(
    caseId: string,
    totalDurationDays: real,
    activityCount: nat,
    uniqueActivities: nat,
    hasRejections: bool,
    rejectionCount: nat,
    isInternational: bool,
    activitiesSequence: seq<string>,
    timestamps: seq<int>,
    approvalTimeDays: Option<real>)

  /** What reading one XES file produced. A file name absent from the map of
      outcomes is a file that does not exist. */
  datatype LoadOutcome = ReadFailed | Read(log: seq<Event>)

  // ---------------------------------------------------------------------------
  // Loading
  // ---------------------------------------------------------------------------

  /** The dataset names, in the order the loader visits them. */
  const DATASET_NAMES: seq<string> := ["travel_permits", "domestic_declarations",
    "international_declarations", "prepaid_travel", "request_for_payment"]

  /** The XES file each dataset is read from. */
  function XesFile(name: string): Option<string>
  {
    if name == "travel_permits" then Some("PermitLog.xes")
    else if name == "domestic_declarations" then Some("DomesticDeclarations.xes")
    else if name == "international_declarations" then Some("InternationalDeclarations.xes")
    else if name == "prepaid_travel" then Some("PrepaidTravelCost.xes")
    else if name == "request_for_payment" then Some("RequestForPayment.xes")
    else None
  }

  lemma XesFileNames(name: string)
    ensures XesFile(name).Some? <==> name in DATASET_NAMES
  {
  }

  /** The dataset `name` is one of the five and its file exists and was read. */
  predicate Loads(name: string, files: map<string, LoadOutcome>)
  {
    XesFile(name).Some? && XesFile(name).value in files && files[XesFile(name).value].Read?
  }

  // ---------------------------------------------------------------------------
  // Sequence helpers
  // ---------------------------------------------------------------------------

  /** pandas' `unique()`: each value once, in order of first appearance. */
  function Distinct<T(==)>(s: seq<T>): seq<T>
  {
    if s == [] then []
    else
      var rest := Distinct(s[..|s| - 1]);
      if s[|s| - 1] in rest then rest else rest + [s[|s| - 1]]
  }

  /** `Distinct` keeps exactly the values of `s`, each once, so it is no
      longer than `s`. */
  lemma {:induction false} DistinctProperties<T>(s: seq<T>)
    ensures NoDuplicates(Distinct(s))
    ensures forall x :: x in Distinct(s) <==> x in s
    ensures |Distinct(s)| <= |s|
  {
    if s != [] {
      var init := s[..|s| - 1];
      DistinctProperties(init);
      assert s == init + [s[|s| - 1]];
    }
  }

  /** The case-id column of a log. */
  function CaseIdColumn(events: seq<Event>): (r: seq<string>)
    ensures |r| == |events|
    ensures forall i :: 0 <= i < |events| ==> r[i] == events[i].caseId
  {
    if events == [] then [] else [events[0].caseId] + CaseIdColumn(events[1..])
  }

  /** The activity-name column of a sequence of events. */
  function Activities(events: seq<Event>): (r: seq<string>)
    ensures |r| == |events|
    ensures forall i :: 0 <= i < |events| ==> r[i] == events[i].activity
  {
    if events == [] then [] else [events[0].activity] + Activities(events[1..])
  }

  /** The timestamp column of a sequence of events. */
  function Timestamps(events: seq<Event>): (r: seq<int>)
    ensures |r| == |events|
    ensures forall i :: 0 <= i < |events| ==> r[i] == events[i].timestamp
  {
    if events == [] then [] else [events[0].timestamp] + Timestamps(events[1..])
  }

  /** Some event of the log belongs to case `id`. */
  predicate HasCase(events: seq<Event>, id: string)
  {
    exists i :: 0 <= i < |events| && events[i].caseId == id
  }

  /** The events of case `id`, in log order (the boolean-mask selection). */
  function EventsOf(events: seq<Event>, id: string): seq<Event>
  {
    if events == [] then []
    else (if events[0].caseId == id then [events[0]] else []) + EventsOf(events[1..], id)
  }

  /** The selection holds exactly the events of the case. */
  lemma {:induction false} EventsOfMembers(events: seq<Event>, id: string)
    ensures forall e :: e in EventsOf(events, id) <==> e in events && e.caseId == id
  {
    if events != [] {
      EventsOfMembers(events[1..], id);
      assert events == [events[0]] + events[1..];
    }
  }

  // ---------------------------------------------------------------------------
  // Ordering by time
  // ---------------------------------------------------------------------------

  predicate SortedByTime(s: seq<Event>)
  {
    forall i, j :: 0 <= i < j < |s| ==> s[i].timestamp <= s[j].timestamp
  }

  /** Inserts `e` in front of the first later event of a time-ordered sequence. */
  function Insert(e: Event, s: seq<Event>): seq<Event>
  {
    if s == [] || e.timestamp <= s[0].timestamp then [e] + s
    else [s[0]] + Insert(e, s[1..])
  }

  lemma {:induction false} InsertProperties(e: Event, s: seq<Event>)
    requires SortedByTime(s)
    ensures SortedByTime(Insert(e, s))
    ensures multiset(Insert(e, s)) == multiset(s) + multiset{e}
  {
    if !(s == [] || e.timestamp <= s[0].timestamp) {
      var rest := Insert(e, s[1..]);
      InsertProperties(e, s[1..]);
      assert s == [s[0]] + s[1..];
      assert rest[0] in multiset(rest);
    }
  }

  /** `sort_values('time:timestamp')`, as an insertion sort. */
  function SortByTime(s: seq<Event>): seq<Event>
  {
    if s == [] then [] else Insert(s[0], SortByTime(s[1..]))
  }

  /** The sort orders by time and only permutes. */
  lemma {:induction false} SortByTimeProperties(s: seq<Event>)
    ensures SortedByTime(SortByTime(s))
    ensures multiset(SortByTime(s)) == multiset(s)
  {
    if s != [] {
      SortByTimeProperties(s[1..]);
      InsertProperties(s[0], SortByTime(s[1..]));
      assert s == [s[0]] + s[1..];
    }
  }

  /** The events of case `id`, ordered by time. */
  function CaseEvents(events: seq<Event>, id: string): seq<Event>
  {
    SortByTime(EventsOf(events, id))
  }

  /** The case's events are in time order and are exactly the log's events
      with that case id. */
  lemma CaseEventsProperties(events: seq<Event>, id: string)
    ensures SortedByTime(CaseEvents(events, id))
    ensures multiset(CaseEvents(events, id)) == multiset(EventsOf(events, id))
    ensures forall e :: e in CaseEvents(events, id) <==> e in events && e.caseId == id
  {
    var r := CaseEvents(events, id);
    SortByTimeProperties(EventsOf(events, id));
    EventsOfMembers(events, id);
    assert forall e :: e in r <==> e in multiset(EventsOf(events, id));
  }

  function MaxTimestamp(s: seq<Event>): int
    requires s != []
  {
    if |s| == 1 then s[0].timestamp
    else
      var m := MaxTimestamp(s[1..]);
      if s[0].timestamp > m then s[0].timestamp else m
  }

  function MinTimestamp(s: seq<Event>): int
    requires s != []
  {
    if |s| == 1 then s[0].timestamp
    else
      var m := MinTimestamp(s[1..]);
      if s[0].timestamp < m then s[0].timestamp else m
  }

  /** `MaxTimestamp` is the largest timestamp and `MinTimestamp` the smallest;
      both are timestamps of the sequence. */
  lemma {:induction false} ExtremeTimestamps(s: seq<Event>)
    requires s != []
    ensures forall i :: 0 <= i < |s| ==> MinTimestamp(s) <= s[i].timestamp <= MaxTimestamp(s)
    ensures exists i :: 0 <= i < |s| && s[i].timestamp == MaxTimestamp(s)
    ensures exists i :: 0 <= i < |s| && s[i].timestamp == MinTimestamp(s)
  {
    if |s| > 1 {
      ExtremeTimestamps(s[1..]);
      var i :| 0 <= i < |s| - 1 && s[1..][i].timestamp == MaxTimestamp(s[1..]);
      var j :| 0 <= j < |s| - 1 && s[1..][j].timestamp == MinTimestamp(s[1..]);
      assert s[i + 1].timestamp == MaxTimestamp(s[1..]);
      assert s[j + 1].timestamp == MinTimestamp(s[1..]);
      forall k | 0 < k < |s|
        ensures MinTimestamp(s) <= s[k].timestamp <= MaxTimestamp(s)
      {
        assert s[k] == s[1..][k - 1];
      }
    }
  }

  /** Latest minus earliest timestamp, in days. */
  function DurationDays(s: seq<Event>): real
    requires s != []
  {
    (MaxTimestamp(s) - MinTimestamp(s)) as real / SECONDS_PER_DAY
  }

  // ---------------------------------------------------------------------------
  // Activity-name tests
  // ---------------------------------------------------------------------------

  /** The case-sensitive test `'REJECT' in act`. */
  predicate IsRejection(act: string)
  {
    Contains(act, "REJECT")
  }

  /** `any('REJECT' in act ...)`. */
  predicate AnyRejection(acts: seq<string>)
  {
    exists i :: 0 <= i < |acts| && IsRejection(acts[i])
  }

  /** `sum(1 for act ... if 'REJECT' in act)`. */
  function RejectionCount(acts: seq<string>): (n: nat)
    ensures n <= |acts|
  {
    if acts == [] then 0
    else (if IsRejection(acts[0]) then 1 else 0) + RejectionCount(acts[1..])
  }

  /** The position of the first event whose name contains `upperPat` ignoring
      case, the row `iloc[0]` picks from a `str.contains(..., case=False)`
      selection. */
  function FirstMatch(s: seq<Event>, upperPat: string): (r: Option<nat>)
    ensures r.Some? ==> r.value < |s|
  {
    if s == [] then None
    else if ContainsIgnoringCase(s[0].activity, upperPat) then Some(0)
    else
      match FirstMatch(s[1..], upperPat)
      case None => None
      case Some(k) => Some(k + 1)
  }

  /** `FirstMatch` finds a matching event with no match before it, and finds
      none only when no event matches. */
  lemma {:induction false} FirstMatchProperties(s: seq<Event>, upperPat: string)
    ensures var r := FirstMatch(s, upperPat);
      (r.Some? ==> ContainsIgnoringCase(s[r.value].activity, upperPat) &&
                   forall j :: 0 <= j < r.value ==> !ContainsIgnoringCase(s[j].activity, upperPat)) &&
      (r.None? <==> forall j :: 0 <= j < |s| ==> !ContainsIgnoringCase(s[j].activity, upperPat))
  {
    if s != [] && !ContainsIgnoringCase(s[0].activity, upperPat) {
      FirstMatchProperties(s[1..], upperPat);
    }
  }

  /** First approval minus first submission, in days, when both exist. */
  function ApprovalTime(s: seq<Event>): Option<real>
  {
    var submitted, approved := FirstMatch(s, "SUBMITTED"), FirstMatch(s, "APPROVED");
    if submitted.Some? && approved.Some? then
      Some((s[approved.value].timestamp - s[submitted.value].timestamp) as real / SECONDS_PER_DAY)
    else None
  }

  predicate IsInternationalName(datasetName: string)
  {
    Contains(Lower(datasetName), "international")
  }

  // ---------------------------------------------------------------------------
  // Feature records
  // ---------------------------------------------------------------------------

  lemma CaseEventsNonEmpty(events: seq<Event>, id: string)
    requires HasCase(events, id)
    ensures CaseEvents(events, id) != []
  {
    var i :| 0 <= i < |events| && events[i].caseId == id;
    CaseEventsProperties(events, id);
    assert events[i] in CaseEvents(events, id);
  }

  /** The feature record of case `id` in the log of dataset `datasetName`. */
  function CaseRecordOf(datasetName: string, events: seq<Event>, id: string): CaseRecord
    requires HasCase(events, id)
  {
    var ce := CaseEvents(events, id);
    CaseEventsNonEmpty(events, id);
    var acts := Activities(ce);
    CaseRecord(
      id,
      DurationDays(ce),
      |ce|,
      |Distinct(acts)|,
      AnyRejection(acts),
      RejectionCount(acts),
      IsInternationalName(datasetName),
      acts,
      Timestamps(ce),
      ApprovalTime(ce))
  }

  /** The records of the cases `ids`, in that order. */
  function RecordsFor(datasetName: string, events: seq<Event>, ids: seq<string>): (r: seq<CaseRecord>)
    requires forall k :: 0 <= k < |ids| ==> HasCase(events, ids[k])
    ensures |r| == |ids|
    ensures forall k :: 0 <= k < |ids| ==> r[k] == CaseRecordOf(datasetName, events, ids[k])
  {
    if ids == [] then [] else [CaseRecordOf(datasetName, events, ids[0])] + RecordsFor(datasetName, events, ids[1..])
  }

  /** Every id of `CaseIdColumn` names a case of the log, and back. */
  lemma CaseIdColumnCases(events: seq<Event>, id: string)
    ensures id in CaseIdColumn(events) <==> HasCase(events, id)
  {
    var col := CaseIdColumn(events);
    if id in col {
      var i :| 0 <= i < |col| && col[i] == id;
      assert events[i].caseId == id;
    }
    if HasCase(events, id) {
      var i :| 0 <= i < |events| && events[i].caseId == id;
      assert col[i] == id;
    }
  }

  /** The distinct case ids are ids of cases of the log. */
  lemma DistinctIdsHaveEvents(events: seq<Event>)
    ensures forall k :: 0 <= k < |Distinct(CaseIdColumn(events))| ==>
      HasCase(events, Distinct(CaseIdColumn(events))[k])
  {
    var ids := Distinct(CaseIdColumn(events));
    DistinctProperties(CaseIdColumn(events));
    forall k | 0 <= k < |ids|
      ensures HasCase(events, ids[k])
    {
      CaseIdColumnCases(events, ids[k]);
    }
  }

  /** The feature table of a whole log: one record per distinct case id, in
      order of the case's first event. */
  function TrainingFeatures(datasetName: string, events: seq<Event>): seq<CaseRecord>
  {
    var ids := Distinct(CaseIdColumn(events));
    DistinctIdsHaveEvents(events);
    RecordsFor(datasetName, events, ids)
  }

  // ---------------------------------------------------------------------------
  // The explorer
  // ---------------------------------------------------------------------------

  /** `BPIDataExplorer`: the loaded logs by dataset name. */
  class Explorer {
    var datasets: map<string, seq<Event>>

    constructor()
      ensures datasets == map[]
    {
      datasets := map[];
    }

    /** `load_xes_files`: reads each of the five logs whose file exists and
        can be read, replacing any earlier log of that name, and returns the
        whole map of loaded logs. */
    method LoadXesFiles(files: map<string, LoadOutcome>) returns (loaded: map<string, seq<Event>>)
      modifies this
      ensures forall name :: name in datasets <==> name in old(datasets) || Loads(name, files)
      ensures forall name :: name in datasets ==>
        datasets[name] == if Loads(name, files) then files[XesFile(name).value].log else old(datasets)[name]
      ensures loaded == datasets
    {
      for i := 0 to |DATASET_NAMES|
        invariant forall name :: name in datasets <==>
          name in old(datasets) || (Loads(name, files) && name in DATASET_NAMES[..i])
        invariant forall name :: name in datasets ==>
          datasets[name] == if Loads(name, files) && name in DATASET_NAMES[..i]
                            then files[XesFile(name).value].log else old(datasets)[name]
      {
        var name := DATASET_NAMES[i];
        XesFileNames(name);
        var filename := XesFile(name).value;
        if filename in files {
          match files[filename]
          case Read(log) => datasets := datasets[name := log];
          case ReadFailed =>
        }
        assert DATASET_NAMES[..i + 1] == DATASET_NAMES[..i] + [name];
      }
      assert DATASET_NAMES[..|DATASET_NAMES|] == DATASET_NAMES;
      forall name | Loads(name, files)
        ensures name in DATASET_NAMES
      {
        XesFileNames(name);
      }
      loaded := datasets;
    }

    /** `extract_training_features`: no table for a dataset that was not
        loaded; otherwise one record per case, built in a loop. */
    method ExtractTrainingFeatures(datasetName: string) returns (r: Option<seq<CaseRecord>>)
      ensures datasetName !in datasets ==> r == None
      ensures datasetName in datasets ==> r == Some(TrainingFeatures(datasetName, datasets[datasetName]))
    {
      if datasetName !in datasets {
        return None;
      }
      var events := datasets[datasetName];
      var ids := Distinct(CaseIdColumn(events));
      DistinctIdsHaveEvents(events);
      var trainingData := CaseRecordsOf(datasetName, events, ids);
      r := Some(trainingData);
    }
  }

  /** The extraction loop: one record per id, in order. */
  method CaseRecordsOf(datasetName: string, events: seq<Event>, ids: seq<string>) returns (trainingData: seq<CaseRecord>)
    requires forall k :: 0 <= k < |ids| ==> HasCase(events, ids[k])
    ensures trainingData == RecordsFor(datasetName, events, ids)
  {
    trainingData := [];
    for i := 0 to |ids|
      invariant |trainingData| == i
      invariant forall k :: 0 <= k < i ==> trainingData[k] == CaseRecordOf(datasetName, events, ids[k])
    {
      var features := CaseFeaturesOf(datasetName, events, ids[i]);
      trainingData := trainingData + [features];
    }
  }

  /** The body of the extraction loop for one case: select and order its
      events, fill in the features, then set the approval time. */
  method CaseFeaturesOf(datasetName: string, events: seq<Event>, caseId: string) returns (features: CaseRecord)
    requires HasCase(events, caseId)
    ensures features == CaseRecordOf(datasetName, events, caseId)
  {
    var caseEvents := CaseEvents(events, caseId);
    CaseEventsNonEmpty(events, caseId);
    var acts := Activities(caseEvents);
    features := CaseRecord(
      caseId,
      DurationDays(caseEvents),
      |caseEvents|,
      |Distinct(acts)|,
      AnyRejection(acts),
      RejectionCount(acts),
      IsInternationalName(datasetName),
      acts,
      Timestamps(caseEvents),
      None);
    features := SetApprovalTime(features, caseEvents);
  }

  /** The second half of the loop body: the approval time is added to the
      record once the other features are in place. */
  method SetApprovalTime(features: CaseRecord, caseEvents: seq<Event>) returns (updated: CaseRecord)
    ensures updated == features.(approvalTimeDays := ApprovalTime(caseEvents))
  {
    var submitted := FirstMatch(caseEvents, "SUBMITTED");
    var approved := FirstMatch(caseEvents, "APPROVED");
    if submitted.Some? && approved.Some? {
      var days := (caseEvents[approved.value].timestamp - caseEvents[submitted.value].timestamp) as real / SECONDS_PER_DAY;
      updated := features.(approvalTimeDays := Some(days));
    } else {
      updated := features.(approvalTimeDays := None);
    }
  }

  // ---------------------------------------------------------------------------
  // Properties of the feature table
  // ---------------------------------------------------------------------------

  /** The table has one record per case: no case id twice, and a record for
      exactly the case ids that occur in the log. */
  lemma OneRecordPerCase(datasetName: string, events: seq<Event>)
    ensures var rs := TrainingFeatures(datasetName, events);
      (forall i, j :: 0 <= i < j < |rs| ==> rs[i].caseId != rs[j].caseId) &&
      (forall id :: HasCase(events, id) <==> exists k :: 0 <= k < |rs| && rs[k].caseId == id)
  {
    var col := CaseIdColumn(events);
    var ids := Distinct(col);
    DistinctProperties(col);
    DistinctIdsHaveEvents(events);
    var rs := TrainingFeatures(datasetName, events);
    assert forall k :: 0 <= k < |rs| ==> rs[k].caseId == ids[k];
    forall id
      ensures HasCase(events, id) <==> exists k :: 0 <= k < |rs| && rs[k].caseId == id
    {
      CaseIdColumnCases(events, id);
      if HasCase(events, id) {
        var k :| 0 <= k < |ids| && ids[k] == id;
        assert rs[k].caseId == id;
      }
    }
  }

  /** A sequence without repeated values has as many values as positions. */
  lemma {:induction false} NoDuplicatesCount<T>(s: seq<T>)
    requires NoDuplicates(s)
    ensures |set x | x in s| == |s|
  {
    if s != [] {
      var t := s[1..];
      assert NoDuplicates(t) by {
        forall i, j | 0 <= i < j < |t| ensures t[i] != t[j] {
          assert t[i] == s[i + 1] && t[j] == s[j + 1];
        }
      }
      NoDuplicatesCount(t);
      assert (set x | x in s) == (set x | x in t) + {s[0]};
      assert s[0] !in t;
    }
  }

  /** Counts: the case has at least one event, `activity_count` is the number
      of its events and the length of its activity sequence, and
      `unique_activities` is the number of different activity names, hence at
      most `activity_count`. */
  lemma CaseCounts(datasetName: string, events: seq<Event>, id: string)
    requires HasCase(events, id)
    ensures var r := CaseRecordOf(datasetName, events, id);
      r.caseId == id &&
      r.activityCount == |EventsOf(events, id)| >= 1 &&
      |r.activitiesSequence| == |r.timestamps| == r.activityCount &&
      r.uniqueActivities == |set a | a in r.activitiesSequence| &&
      r.uniqueActivities <= r.activityCount
  {
    var ce := CaseEvents(events, id);
    CaseEventsProperties(events, id);
    CaseEventsNonEmpty(events, id);
    assert |ce| == |multiset(ce)| == |multiset(EventsOf(events, id))| == |EventsOf(events, id)|;
    var acts := Activities(ce);
    DistinctProperties(acts);
    NoDuplicatesCount(Distinct(acts));
    assert (set a | a in Distinct(acts)) == (set a | a in acts);
  }

  /** `any(...)` and `sum(...)` agree: some activity name contains `REJECT`
      exactly when the count is positive. */
  lemma {:induction false} RejectionFlagMatchesCount(acts: seq<string>)
    ensures AnyRejection(acts) <==> RejectionCount(acts) > 0
  {
    if acts != [] {
      RejectionFlagMatchesCount(acts[1..]);
      if AnyRejection(acts[1..]) {
        var i :| 0 <= i < |acts| - 1 && IsRejection(acts[1..][i]);
        assert IsRejection(acts[i + 1]);
      }
      if AnyRejection(acts) && !IsRejection(acts[0]) {
        var i :| 0 <= i < |acts| && IsRejection(acts[i]);
        assert acts[1..][i - 1] == acts[i];
      }
    }
  }

  /** `has_rejections` holds exactly when `rejection_count` is positive, and
      no more events are counted than the case has. */
  lemma RejectionFeatures(datasetName: string, events: seq<Event>, id: string)
    requires HasCase(events, id)
    ensures var r := CaseRecordOf(datasetName, events, id);
      (r.hasRejections <==> r.rejectionCount > 0) &&
      r.rejectionCount <= r.activityCount
  {
    var ce := CaseEvents(events, id);
    RejectionFlagMatchesCount(Activities(ce));
  }

  /** On a time-ordered sequence the duration is last minus first timestamp. */
  lemma SortedDuration(ce: seq<Event>)
    requires ce != [] && SortedByTime(ce)
    ensures DurationDays(ce) == (ce[|ce| - 1].timestamp - ce[0].timestamp) as real / SECONDS_PER_DAY
    ensures DurationDays(ce) >= 0.0
  {
    ExtremeTimestamps(ce);
    assert MaxTimestamp(ce) == ce[|ce| - 1].timestamp;
    assert MinTimestamp(ce) == ce[0].timestamp;
  }

  /** The columns of a time-ordered selection of the events of case `id`. */
  lemma SelectionColumns(events: seq<Event>, id: string, ce: seq<Event>)
    requires SortedByTime(ce)
    requires forall e :: e in ce <==> e in events && e.caseId == id
    ensures var ts, acts := Timestamps(ce), Activities(ce);
      (forall i, j :: 0 <= i < j < |ts| ==> ts[i] <= ts[j]) &&
      (forall i :: 0 <= i < |ts| ==> Event(id, acts[i], ts[i]) in events) &&
      (forall e :: e in events && e.caseId == id ==>
        exists i :: 0 <= i < |ts| && acts[i] == e.activity && ts[i] == e.timestamp)
  {
    var ts, acts := Timestamps(ce), Activities(ce);
    assert forall i :: 0 <= i < |ts| ==> Event(id, acts[i], ts[i]) == ce[i];
    forall e | e in events && e.caseId == id
      ensures exists i :: 0 <= i < |ts| && acts[i] == e.activity && ts[i] == e.timestamp
    {
      var i :| 0 <= i < |ce| && ce[i] == e;
      assert acts[i] == e.activity && ts[i] == e.timestamp;
    }
  }

  /** Order and duration: the timestamps are non-decreasing, each position
      pairs an activity with the time of one of the case's events and every
      event of the case appears; the duration is last minus first timestamp
      in days, and so never negative. */
  lemma CaseTimeline(datasetName: string, events: seq<Event>, id: string)
    requires HasCase(events, id)
    ensures var r := CaseRecordOf(datasetName, events, id);
      var ts, acts := r.timestamps, r.activitiesSequence;
      |ts| == |acts| > 0 &&
      (forall i, j :: 0 <= i < j < |ts| ==> ts[i] <= ts[j]) &&
      (forall i :: 0 <= i < |ts| ==> Event(id, acts[i], ts[i]) in events) &&
      (forall e :: e in events && e.caseId == id ==>
        exists i :: 0 <= i < |ts| && acts[i] == e.activity && ts[i] == e.timestamp) &&
      r.totalDurationDays == (ts[|ts| - 1] - ts[0]) as real / SECONDS_PER_DAY &&
      r.totalDurationDays >= 0.0
  {
    var ce := CaseEvents(events, id);
    CaseEventsProperties(events, id);
    CaseEventsNonEmpty(events, id);
    SortedDuration(ce);
    SelectionColumns(events, id, ce);
    var r := CaseRecordOf(datasetName, events, id);
    assert r.timestamps == Timestamps(ce) && r.activitiesSequence == Activities(ce);
    assert r.totalDurationDays == DurationDays(ce);
  }

  /** On any event sequence, the approval time is absent exactly when no event
      matches `SUBMITTED` or none matches `APPROVED`. */
  lemma ApprovalTimeAbsent(ce: seq<Event>)
    ensures ApprovalTime(ce).None? <==>
      (forall e :: e in ce ==> !ContainsIgnoringCase(e.activity, "SUBMITTED")) ||
      (forall e :: e in ce ==> !ContainsIgnoringCase(e.activity, "APPROVED"))
  {
    FirstMatchProperties(ce, "SUBMITTED");
    FirstMatchProperties(ce, "APPROVED");
  }

  /** The approval time is absent exactly when the case has no event whose
      name contains `SUBMITTED`, or none whose name contains `APPROVED`
      (ignoring case). */
  lemma ApprovalTimePresence(datasetName: string, events: seq<Event>, id: string)
    requires HasCase(events, id)
    ensures CaseRecordOf(datasetName, events, id).approvalTimeDays.None? <==>
      (forall e :: e in events && e.caseId == id ==> !ContainsIgnoringCase(e.activity, "SUBMITTED")) ||
      (forall e :: e in events && e.caseId == id ==> !ContainsIgnoringCase(e.activity, "APPROVED"))
  {
    var ce := CaseEvents(events, id);
    CaseEventsProperties(events, id);
    ApprovalTimeAbsent(ce);
    assert CaseRecordOf(datasetName, events, id).approvalTimeDays == ApprovalTime(ce);
  }

  /** When present, the approval time is the time of the first `APPROVED`
      event minus that of the first `SUBMITTED` event of the time-ordered
      case, in days; nothing forces the approval to come later, so the value
      can be negative. */
  lemma ApprovalTimeValue(datasetName: string, events: seq<Event>, id: string)
    requires HasCase(events, id)
    requires CaseRecordOf(datasetName, events, id).approvalTimeDays.Some?
    ensures var r := CaseRecordOf(datasetName, events, id);
      var ts, acts := r.timestamps, r.activitiesSequence;
      exists s, a :: 0 <= s < |acts| && 0 <= a < |acts| &&
        FirstIn(acts, s, "SUBMITTED") && FirstIn(acts, a, "APPROVED") &&
        r.approvalTimeDays.value == (ts[a] - ts[s]) as real / SECONDS_PER_DAY
  {
    var ce := CaseEvents(events, id);
    var r := CaseRecordOf(datasetName, events, id);
    FirstMatchProperties(ce, "SUBMITTED");
    FirstMatchProperties(ce, "APPROVED");
    var s, a := FirstMatch(ce, "SUBMITTED").value, FirstMatch(ce, "APPROVED").value;
    assert FirstIn(r.activitiesSequence, s, "SUBMITTED");
    assert FirstIn(r.activitiesSequence, a, "APPROVED");
  }

  /** Position `k` holds the first name containing `upperPat`, ignoring case. */
  ghost predicate FirstIn(acts: seq<string>, k: int, upperPat: string)
  {
    0 <= k < |acts| && ContainsIgnoringCase(acts[k], upperPat) &&
    forall j :: 0 <= j < k ==> !ContainsIgnoringCase(acts[j], upperPat)
  }

  /** `is_international` depends on the dataset name only, so it is the same
      for every record of a table. */
  lemma InternationalFlag(datasetName: string, events: seq<Event>)
    ensures var rs := TrainingFeatures(datasetName, events);
      forall k :: 0 <= k < |rs| ==> (rs[k].isInternational <==> Contains(Lower(datasetName), "international"))
  {
  }
}
