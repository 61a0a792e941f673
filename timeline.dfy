/** The horizontal progress timeline of a request (src/components/HorizontalTimelineComponent.tsx):
    the four displayed stages, the progress bar, each stage's status and the events shown under it. */
module Timeline {
  import opened Wrappers
  import opened Seqs
  import opened WorkflowTypes

  /** One displayed stage (the icon and colour fields are presentation only). */
  datatype StageInfo = StageInfo(id: RequestStage, name: string, shortName: string, estimatedDays: nat)

  /** `workflowStages`, in display order. */
  const WorkflowStages: seq<StageInfo> := [
    StageInfo(InitialReview, "Archive Team", "Archive", 1),
    StageInfo(TechnicalReview, "Operations Team", "Operations", 3),
    StageInfo(CoreBanking, "Core Banking", "Banking", 2),
    StageInfo(Disbursed, "Loan Admin", "Complete", 0)
  ]

  /** `stages.findIndex(s => s.id === stage)`. */
  function FindStage(stages: seq<StageInfo>, stage: RequestStage): (i: int)
    ensures -1 <= i < |stages|
    ensures i == -1 <==> forall j :: 0 <= j < |stages| ==> stages[j].id != stage
    ensures i >= 0 ==> stages[i].id == stage && forall j :: 0 <= j < i ==> stages[j].id != stage
  {
    FindIndex(stages, (s: StageInfo) => s.id == stage)
  }

  /** `currentStageIndex`. */
  function CurrentStageIndex(stage: RequestStage): int {
    FindStage(WorkflowStages, stage)
  }

  /** The index is the stage's place in the four-stage order, and -1 for `approved` and `rejected`. */
  lemma CurrentStageIndexValues(stage: RequestStage)
    ensures CurrentStageIndex(stage) == -1 <==> stage == Approved || stage == Rejected
    ensures CurrentStageIndex(stage) >= 0 ==> WorkflowStages[CurrentStageIndex(stage)].id == stage
    ensures stage == InitialReview ==> CurrentStageIndex(stage) == 0
    ensures stage == TechnicalReview ==> CurrentStageIndex(stage) == 1
    ensures stage == CoreBanking ==> CurrentStageIndex(stage) == 2
    ensures stage == Disbursed ==> CurrentStageIndex(stage) == 3
  {
    assert WorkflowStages[0].id == InitialReview && WorkflowStages[1].id == TechnicalReview;
    assert WorkflowStages[2].id == CoreBanking && WorkflowStages[3].id == Disbursed;
  }

  /** `progressPercentage`: 100 once disbursed, else the share of stages reached. The share
      `(index + 1) / 4 * 100` is a whole number for every index, so integer division is exact here. */
  function ProgressPercentage(stage: RequestStage): int {
    if stage == Disbursed then 100 else (CurrentStageIndex(stage) + 1) * 100 / |WorkflowStages|
  }

  /** The bar is a multiple of 25 within 0..100: empty exactly for `approved` and `rejected`, full exactly when disbursed. */
  lemma ProgressBounds(stage: RequestStage)
    ensures 0 <= ProgressPercentage(stage) <= 100
    ensures ProgressPercentage(stage) % 25 == 0
    ensures ProgressPercentage(stage) == (CurrentStageIndex(stage) + 1) * 25
    ensures ProgressPercentage(stage) == 0 <==> stage == Approved || stage == Rejected
    ensures ProgressPercentage(stage) == 100 <==> stage == Disbursed
  {
    CurrentStageIndexValues(stage);
  }

  /** Later stages of the order show strictly more progress. */
  lemma ProgressMonotone(a: RequestStage, b: RequestStage)
    requires CurrentStageIndex(a) < CurrentStageIndex(b)
    ensures ProgressPercentage(a) < ProgressPercentage(b)
  {
    ProgressBounds(a);
    ProgressBounds(b);
  }

  datatype StageStatus = Completed | Current | Pending

  /** `getStageStatus`. */
  function GetStageStatus(stageIndex: int, current: int): StageStatus {
    if stageIndex < current then Completed
    else if stageIndex == current then Current
    else Pending
  }

  /** The statuses of the first `n` displayed stages. */
  function StatusRow(n: nat, current: int): (row: seq<StageStatus>)
    ensures |row| == n
    ensures forall i :: 0 <= i < n ==> row[i] == GetStageStatus(i, current)
  {
    if n == 0 then [] else StatusRow(n - 1, current) + [GetStageStatus(n - 1, current)]
  }

  function IsStatus(s: StageStatus): StageStatus -> bool { (t: StageStatus) => t == s }

  /** Extending the row by one stage adds one to the count of that stage's status. */
  lemma RowStep(n: nat, current: int, s: StageStatus)
    ensures Count(StatusRow(n + 1, current), IsStatus(s))
            == Count(StatusRow(n, current), IsStatus(s)) + (if GetStageStatus(n, current) == s then 1 else 0)
  {
    var last := [GetStageStatus(n, current)];
    assert StatusRow(n + 1, current) == StatusRow(n, current) + last;
    CountAppend(StatusRow(n, current), last, IsStatus(s));
    assert last[1..] == [];
  }

  /** One stage is current when the index is a stage's, none otherwise; the stages before it are completed
      and the rest pending. */
  lemma StatusCounts(n: nat, current: int)
    requires -1 <= current < n
    ensures Count(StatusRow(n, current), IsStatus(Current)) == if current >= 0 then 1 else 0
    ensures Count(StatusRow(n, current), IsStatus(Completed)) == if current >= 0 then current else 0
    ensures Count(StatusRow(n, current), IsStatus(Pending)) == n - 1 - current
  {
    StatusCount(n, current, Current);
    StatusCount(n, current, Completed);
    StatusCount(n, current, Pending);
  }

  /** How many of the first `n` stages have status `s` when `current` is the index of the current one. */
  function ExpectedCount(n: nat, current: int, s: StageStatus): int {
    match s
    case Current => if current >= 0 then 1 else 0
    case Completed => if current >= 0 then current else 0
    case Pending => n - 1 - current
  }

  /** `StatusCounts` for one status at a time. */
  lemma {:induction false} StatusCount(n: nat, current: int, s: StageStatus)
    requires -1 <= current < n
    ensures Count(StatusRow(n, current), IsStatus(s)) == ExpectedCount(n, current, s)
  {
    if n > 0 {
      RowStep(n - 1, current, s);
      var status := GetStageStatus(n - 1, current);
      if current < n - 1 {
        assert status == Pending;
        StatusCount(n - 1, current, s);
      } else {
        assert status == Current;
        AllBefore(n - 1, current, s);
      }
    }
  }

  /** Below the current index every stage is completed. */
  lemma {:induction false} AllBefore(n: nat, current: int, s: StageStatus)
    requires n <= current
    ensures Count(StatusRow(n, current), IsStatus(s)) == if s == Completed then n else 0
  {
    if n > 0 {
      RowStep(n - 1, current, s);
      AllBefore(n - 1, current, s);
    }
  }

  /** For the displayed row of a request: exactly one current stage unless it is `approved` or `rejected`. */
  lemma ExactlyOneCurrent(stage: RequestStage)
    ensures Count(StatusRow(|WorkflowStages|, CurrentStageIndex(stage)), IsStatus(Current))
            == if stage == Approved || stage == Rejected then 0 else 1
  {
    CurrentStageIndexValues(stage);
    StatusCounts(|WorkflowStages|, CurrentStageIndex(stage));
  }

  /** The line after stage `index`: drawn between consecutive stages only, filled once that stage is passed. */
  function Connector(index: int, current: int): (filled: Option<bool>)
    requires 0 <= index < |WorkflowStages|
  {
    if index < |WorkflowStages| - 1 then Some(index < current) else None
  }

  /** A connector is filled exactly when the stage before it is completed. */
  lemma ConnectorMatchesStatus(index: int, current: int)
    requires 0 <= index < |WorkflowStages|
    ensures Connector(index, current).Some? <==> index < |WorkflowStages| - 1
    ensures Connector(index, current) == Some(true) <==>
              index < |WorkflowStages| - 1 && GetStageStatus(index, current) == Completed
  {
  }

  /** `getStageEvents`' test: the event is tagged with the stage, or is the creation
      (shown under `initial_review`) or the disbursement (shown under `disbursed`). */
  predicate BelongsToStage(e: TimelineEvent, stage: RequestStage) {
    ("stage" in e.metadata && e.metadata["stage"] == StageId(stage))
    || (stage == InitialReview && e.eventType == CreatedEvent)
    || (stage == Disbursed && e.eventType == DisbursedEvent)
  }

  function StageFilter(stage: RequestStage): TimelineEvent -> bool { (e: TimelineEvent) => BelongsToStage(e, stage) }

  /** `getStageEvents`: the events of a stage in timeline order, as many as the timeline holds. */
  function GetStageEvents(timeline: seq<TimelineEvent>, stage: RequestStage): (events: seq<TimelineEvent>)
    ensures IsSubsequence(events, timeline)
    ensures forall i :: 0 <= i < |events| ==> BelongsToStage(events[i], stage)
    ensures forall i :: 0 <= i < |timeline| && BelongsToStage(timeline[i], stage) ==> timeline[i] in events
    ensures |events| == Count(timeline, StageFilter(stage))
  {
    FilterMembership(timeline, StageFilter(stage));
    FilterLength(timeline, StageFilter(stage));
    Filter(timeline, StageFilter(stage))
  }

  /** Creation events always show under `initial_review`, disbursement events under `disbursed`. */
  lemma CreatedAndDisbursedEventsPlaced(timeline: seq<TimelineEvent>, e: TimelineEvent)
    requires e in timeline
    ensures e.eventType == CreatedEvent ==> e in GetStageEvents(timeline, InitialReview)
    ensures e.eventType == DisbursedEvent ==> e in GetStageEvents(timeline, Disbursed)
  {
    var i :| 0 <= i < |timeline| && timeline[i] == e;
  }

  /** An event tagged with a stage of the order, other than a creation or disbursement, shows under that stage only. */
  lemma TaggedEventUnderOneStage(e: TimelineEvent, s: RequestStage, t: RequestStage)
    requires e.eventType != CreatedEvent && e.eventType != DisbursedEvent
    requires BelongsToStage(e, s) && BelongsToStage(e, t)
    ensures s == t
  {
    StageIdInjective(s, t);
  }

  /** `stageEvents[stageEvents.length - 1]`: the latest event of a stage, `undefined` when there is none. */
  function LatestEvent(events: seq<TimelineEvent>): (latest: Option<TimelineEvent>)
    ensures latest.None? <==> events == []
    ensures latest.Some? ==> latest.value == events[|events| - 1]
  {
    if events == [] then None else Some(events[|events| - 1])
  }

  /** The latest event a stage shows is the last event of the timeline that belongs to that stage. */
  lemma LatestIsLastBelonging(timeline: seq<TimelineEvent>, stage: RequestStage)
    ensures LatestEvent(GetStageEvents(timeline, stage)).None? <==>
              forall i :: 0 <= i < |timeline| ==> !StageFilter(stage)(timeline[i])
    ensures LatestEvent(GetStageEvents(timeline, stage)).Some? ==>
              exists k :: LastSatisfying(timeline, StageFilter(stage), k)
                          && LatestEvent(GetStageEvents(timeline, stage)).value == timeline[k]
  {
    var events := GetStageEvents(timeline, stage);
    assert events == Filter(timeline, StageFilter(stage));
    FilterEmptyIff(timeline, StageFilter(stage));
    if events != [] {
      var k := FilterLastIndex(timeline, StageFilter(stage));
      assert LatestEvent(events).value == timeline[k];
    }
  }

  /** `timeline.slice(0, 3)`: the first three events, or all of them when there are fewer. */
  function RecentActivity(timeline: seq<TimelineEvent>): (recent: seq<TimelineEvent>)
    ensures |recent| == if |timeline| < 3 then |timeline| else 3
    ensures recent == timeline[..|recent|]
  {
    if |timeline| < 3 then timeline else timeline[..3]
  }
}
