/** The withdrawal dashboard (src/components/WithdrawalRequestDashboard.tsx): the role mapping,
    the three stage transitions and their permission gate, the statistics and the list filters. */
module Dashboard {
  import opened Wrappers
  import opened Text
  import opened Seqs
  import opened WorkflowTypes
  import opened RequestStore
  import PermissionDenied

  // ---------------------------------------------------------------- roles and permissions

  /** `mapUserRole`: the authentication role string to a workflow role; unknown roles get view-only `loan_admin`. */
  function MapUserRole(role: string): UserRole {
    if role == "archive_team" then ArchiveTeam
    else if role == "operations_team" || role == "regional_operations" || role == "head_of_operations" then OperationsTeam
    else if role == "core_banking" || role == "core_banking_team" then CoreBankingTeam
    else if role == "admin" then Admin
    else if role == "loan_admin" || role == "loan_administrator" then LoanAdmin
    else if role == "observer" then Observer
    else LoanAdmin
  }

  /** The role strings `mapUserRole` knows by name. */
  predicate IsKnownRoleString(role: string) {
    role == "archive_team" || role == "operations_team" || role == "regional_operations"
    || role == "head_of_operations" || role == "core_banking" || role == "core_banking_team"
    || role == "admin" || role == "loan_admin" || role == "loan_administrator" || role == "observer"
  }

  /** Which strings reach which role. */
  lemma MapUserRoleCases(role: string)
    ensures MapUserRole(role) == OperationsTeam <==>
              role == "operations_team" || role == "regional_operations" || role == "head_of_operations"
    ensures MapUserRole(role) == CoreBankingTeam <==> role == "core_banking" || role == "core_banking_team"
    ensures MapUserRole(role) == Admin <==> role == "admin"
    ensures MapUserRole(role) == ArchiveTeam <==> role == "archive_team"
    ensures MapUserRole(role) == Observer <==> role == "observer"
    ensures MapUserRole(role) == LoanAdmin <==>
              role == "loan_admin" || role == "loan_administrator" || !IsKnownRoleString(role)
  {
  }

  /** Every role's own string maps back to it. */
  lemma MapUserRoleRoundTrip(r: UserRole)
    ensures MapUserRole(RoleId(r)) == r
  {
  }

  /** The permission decision: the mapped role's entry in `ROLE_PERMISSIONS` lists the action. */
  predicate CanPerformAction(user: AuthUser, action: ActionType) {
    action in RolePermissions(MapUserRole(user.role))
  }

  /** Only three role strings can approve or reject besides the administrator, and only two can disburse. */
  lemma CanPerformActionIff(user: AuthUser, action: ActionType)
    ensures action == View ==> CanPerformAction(user, action)
    ensures action == Approve || action == Reject ==>
              (CanPerformAction(user, action) <==>
                 user.role in ["operations_team", "regional_operations", "head_of_operations", "admin"])
    ensures action == Disburse ==>
              (CanPerformAction(user, action) <==> user.role in ["core_banking", "core_banking_team", "admin"])
  {
    MapUserRoleCases(user.role);
  }

  /** `getRequiredRoleForAction` (the dashboard's). */
  function RequiredRoleForAction(action: ActionType): string {
    match action
    case Approve => "Operations Team"
    case Reject => "Operations Team"
    case Disburse => "Core Banking Team"
    case View => "Administrator"
  }

  /** The role a denial names really holds the action: its display name is the required-role text. */
  lemma RequiredRoleHoldsAction(action: ActionType)
    ensures exists r :: PermissionDenied.GetRoleDisplayName(RoleId(r)) == RequiredRoleForAction(action)
                        && action in RolePermissions(r)
  {
    var r := match action
             case Approve => OperationsTeam
             case Reject => OperationsTeam
             case Disburse => CoreBankingTeam
             case View => Admin;
    assert PermissionDenied.GetRoleDisplayName(RoleId(r)) == RequiredRoleForAction(action);
  }

  /** The notice shows the required-role text it is handed unchanged. */
  lemma RequiredRoleShownAsIs(action: ActionType)
    ensures PermissionDenied.GetRoleDisplayName(RequiredRoleForAction(action)) == RequiredRoleForAction(action)
  {
    PermissionDenied.OperationsTextDisplaysAsItself();
    PermissionDenied.CoreBankingTextDisplaysAsItself();
    PermissionDenied.AdministratorTextDisplaysAsItself();
  }

  /** `getActionDisplayName` (the dashboard's). */
  function ActionDisplayName(action: ActionType): string {
    match action
    case Approve => "approve requests"
    case Reject => "reject requests"
    case Disburse => "disburse requests"
    case View => ReplaceFirst(ActionId(View), '_', ' ')
  }

  // ---------------------------------------------------------------- transitions

  /** The action buttons a request's row offers. */
  function OfferedActions(stage: RequestStage): seq<ActionType> {
    if stage == TechnicalReview then [Approve, Reject]
    else if stage == CoreBanking then [Disburse]
    else []
  }

  /** Approve and reject appear only on `technical_review`, disburse only on `core_banking`, view never. */
  lemma OfferedActionsIff(stage: RequestStage, action: ActionType)
    ensures action in OfferedActions(stage) <==>
              ((action == Approve || action == Reject) && stage == TechnicalReview)
              || (action == Disburse && stage == CoreBanking)
  {
  }

  const MsPerDay := 1000 * 60 * 60 * 24

  /** `Math.ceil(x / d)` for a positive divisor. */
  function CeilDiv(x: int, d: int): (q: int)
    requires d > 0
    ensures (q - 1) * d < x <= q * d
  {
    var f := (-x) / d;
    assert -x == f * d + (-x) % d;
    -f
  }

  /** Whole days from `createdAt` to `now`, rounded up, both in milliseconds. */
  function ProcessingDays(now: int, createdAt: int): (days: int)
    ensures (days - 1) * MsPerDay < now - createdAt <= days * MsPerDay
    ensures now >= createdAt ==> days >= 0
    ensures now > createdAt ==> days >= 1
  {
    CeilDiv(now - createdAt, MsPerDay)
  }

  const ApprovedStatus := "Approved - Moved to Core Banking for disbursement"
  const RejectedStatus := "Rejected - Returned to Initial Review for corrections"
  const DisbursedStatus := "Successfully disbursed"

  /** The partial record each handler passes to `updateRequest`; the default branch of the action switch has none. */
  function ActionUpdate(action: ActionType, request: WithdrawalRequest, now: int): Option<RequestUpdate> {
    match action
    case Approve =>
      Some(NoChange.(currentStage := Some(CoreBanking), status := Some(ApprovedStatus), assignedTo := Some("bank001")))
    case Reject =>
      Some(NoChange.(currentStage := Some(InitialReview), status := Some(RejectedStatus), assignedTo := Some("archive001")))
    case Disburse =>
      Some(NoChange.(currentStage := Some(Disbursed), status := Some(DisbursedStatus),
                     processingDays := Some(ProcessingDays(now, request.createdAt))))
    case View => None
  }

  /** What each transition does to the stored record: exactly these fields change, every other one is kept. */
  lemma TransitionEffect(action: ActionType, r: WithdrawalRequest, now: int)
    ensures action == View <==> ActionUpdate(action, r, now).None?
    ensures action == Approve ==>
              Merge(r, ActionUpdate(action, r, now).value)
              == r.(currentStage := CoreBanking, status := ApprovedStatus, assignedTo := "bank001")
    ensures action == Reject ==>
              Merge(r, ActionUpdate(action, r, now).value)
              == r.(currentStage := InitialReview, status := RejectedStatus, assignedTo := "archive001")
    ensures action == Disburse ==>
              Merge(r, ActionUpdate(action, r, now).value)
              == r.(currentStage := Disbursed, status := DisbursedStatus, processingDays := ProcessingDays(now, r.createdAt))
  {
  }

  /** Every write the dashboard performs from a stage on which it offers the button is an edge of the stage graph. */
  lemma OfferedWritesAreEdges(action: ActionType, r: WithdrawalRequest, now: int)
    requires action in OfferedActions(r.currentStage)
    ensures ActionUpdate(action, r, now).Some?
    ensures ActionUpdate(action, r, now).value.currentStage.Some?
    ensures CanTransition(r.currentStage, ActionUpdate(action, r, now).value.currentStage.value)
  {
  }

  /** The same fact on the stored list: when the row's stage is the stored one, the stored entry moves along an
      edge of the graph and no other entry changes. */
  lemma StoredWriteFollowsGraph(requests: seq<WithdrawalRequest>, r: WithdrawalRequest, action: ActionType, now: int)
    requires action in OfferedActions(r.currentStage)
    requires IndexOfId(requests, r.id) >= 0 && requests[IndexOfId(requests, r.id)].currentStage == r.currentStage
    ensures var k := IndexOfId(requests, r.id);
            var after := UpdatedList(requests, r.id, ActionUpdate(action, r, now).value);
            && |after| == |requests|
            && CanTransition(requests[k].currentStage, after[k].currentStage)
            && (forall j :: 0 <= j < |requests| && j != k ==> after[j] == requests[j])
  {
    OfferedWritesAreEdges(action, r, now);
  }

  // ---------------------------------------------------------------- statistics

  function InStage(stage: RequestStage): WithdrawalRequest -> bool { (r: WithdrawalRequest) => r.currentStage == stage }
  function OutOfStage(stage: RequestStage): WithdrawalRequest -> bool { (r: WithdrawalRequest) => r.currentStage != stage }
  function WithPriority(p: Priority): WithdrawalRequest -> bool { (r: WithdrawalRequest) => r.priority == p }

  /** The value-date test: at most three days away (rounded up) and not yet disbursed. A value date that does not
      parse is an invalid `Date`, and a comparison with it is false. */
  predicate DueSoon(r: WithdrawalRequest, now: int, parseDate: string -> Option<int>) {
    match parseDate(r.valueDate)
    case None => false
    case Some(v) => CeilDiv(v - now, MsPerDay) <= 3 && r.currentStage != Disbursed
  }

  function DueSoonAt(now: int, parseDate: string -> Option<int>): WithdrawalRequest -> bool {
    (r: WithdrawalRequest) => DueSoon(r, now, parseDate)
  }

  /** The sum of `processingDays` over the disbursed requests. */
  function SumDisbursedDays(requests: seq<WithdrawalRequest>): int {
    if requests == [] then 0
    else (if requests[0].currentStage == Disbursed then requests[0].processingDays else 0) + SumDisbursedDays(requests[1..])
  }

  /** `Math.round(sum / n)`: the integer nearest to the mean, halves rounded up. */
  function RoundDiv(sum: int, n: int): (r: int)
    requires n > 0
    ensures 2 * n * r - n <= 2 * sum < 2 * n * r + n
  {
    var q := (2 * sum + n) / (2 * n);
    assert 2 * sum + n == q * (2 * n) + (2 * sum + n) % (2 * n);
    q
  }

  datatype StageCounts = StageCounts(initialReview: nat, technicalReview: nat, coreBanking: nat, disbursed: nat)

  datatype PriorityCounts = PriorityCounts(low: nat, medium: nat, high: nat, urgent: nat)

  datatype DashboardStats = DashboardStats(
    totalRequests: nat,
    pendingRequests: nat,
    avgProcessingTime: int,
    dueSoon: nat,
    byStage: StageCounts,
    byPriority: PriorityCounts)

  /** The stages outside the four the statistics count. */
  predicate OffTrack(r: WithdrawalRequest) {
    r.currentStage == Approved || r.currentStage == Rejected
  }

  /** The six stage counts partition the list. */
  lemma {:induction false} StagePartition(requests: seq<WithdrawalRequest>)
    ensures Count(requests, InStage(InitialReview)) + Count(requests, InStage(TechnicalReview))
            + Count(requests, InStage(CoreBanking)) + Count(requests, InStage(Disbursed))
            + Count(requests, InStage(Approved)) + Count(requests, InStage(Rejected)) == |requests|
  {
    if requests != [] {
      StagePartition(requests[1..]);
    }
  }

  /** The four priority counts partition the list. */
  lemma {:induction false} PriorityPartition(requests: seq<WithdrawalRequest>)
    ensures Count(requests, WithPriority(Low)) + Count(requests, WithPriority(Medium))
            + Count(requests, WithPriority(High)) + Count(requests, WithPriority(Urgent)) == |requests|
  {
    if requests != [] {
      PriorityPartition(requests[1..]);
    }
  }

  /** No request is approved or rejected exactly when both of those counts are zero. */
  lemma OffTrackCounts(requests: seq<WithdrawalRequest>)
    ensures Count(requests, InStage(Approved)) + Count(requests, InStage(Rejected)) == 0
            <==> forall i :: 0 <= i < |requests| ==> !OffTrack(requests[i])
  {
    CountExtremes(requests, InStage(Approved));
    CountExtremes(requests, InStage(Rejected));
    if Count(requests, InStage(Approved)) + Count(requests, InStage(Rejected)) != 0 {
      var i :| 0 <= i < |requests| && (InStage(Approved)(requests[i]) || InStage(Rejected)(requests[i]));
      assert OffTrack(requests[i]);
    }
  }

  /** A request due soon is never disbursed. */
  lemma DueSoonIsPending(requests: seq<WithdrawalRequest>, now: int, parseDate: string -> Option<int>)
    ensures Count(requests, DueSoonAt(now, parseDate)) <= Count(requests, OutOfStage(Disbursed))
  {
    forall r: WithdrawalRequest
      ensures DueSoonAt(now, parseDate)(r) ==> OutOfStage(Disbursed)(r)
    {
      if DueSoon(r, now, parseDate) {
        assert r.currentStage != Disbursed;
      }
    }
    CountMonotone(requests, DueSoonAt(now, parseDate), OutOfStage(Disbursed));
  }

  /** The `stats` memo: each field counts the requests in its stage, of its priority, not yet disbursed or due
      soon. Approved and rejected requests fall outside the four stage counts. */
  function ComputeStats(requests: seq<WithdrawalRequest>, now: int, parseDate: string -> Option<int>): (st: DashboardStats)
    ensures st.totalRequests == |requests|
    ensures st.pendingRequests == Count(requests, OutOfStage(Disbursed))
    ensures st.dueSoon == Count(requests, DueSoonAt(now, parseDate))
    ensures st.byStage.initialReview == Count(requests, InStage(InitialReview))
    ensures st.byStage.technicalReview == Count(requests, InStage(TechnicalReview))
    ensures st.byStage.coreBanking == Count(requests, InStage(CoreBanking))
    ensures st.byStage.disbursed == Count(requests, InStage(Disbursed))
    ensures st.byPriority.low == Count(requests, WithPriority(Low))
    ensures st.byPriority.medium == Count(requests, WithPriority(Medium))
    ensures st.byPriority.high == Count(requests, WithPriority(High))
    ensures st.byPriority.urgent == Count(requests, WithPriority(Urgent))
    ensures st.pendingRequests + st.byStage.disbursed == st.totalRequests
    ensures st.byPriority.low + st.byPriority.medium + st.byPriority.high + st.byPriority.urgent == st.totalRequests
    ensures st.byStage.initialReview + st.byStage.technicalReview + st.byStage.coreBanking + st.byStage.disbursed
              <= st.totalRequests
    ensures (st.byStage.initialReview + st.byStage.technicalReview + st.byStage.coreBanking + st.byStage.disbursed
             == st.totalRequests) <==> forall i :: 0 <= i < |requests| ==> !OffTrack(requests[i])
    ensures st.byStage.disbursed == 0 ==> st.avgProcessingTime == 0
    ensures st.byStage.disbursed > 0 ==> st.avgProcessingTime == RoundDiv(SumDisbursedDays(requests), st.byStage.disbursed)
    ensures st.dueSoon <= st.pendingRequests
  {
    var disbursed := Count(requests, InStage(Disbursed));
    var pending := Count(requests, OutOfStage(Disbursed));
    var due := Count(requests, DueSoonAt(now, parseDate));
    CountComplement(requests, InStage(Disbursed), OutOfStage(Disbursed));
    DueSoonIsPending(requests, now, parseDate);
    PriorityPartition(requests);
    StagePartition(requests);
    OffTrackCounts(requests);
    DashboardStats(
      |requests|,
      pending,
      if disbursed > 0 then RoundDiv(SumDisbursedDays(requests), disbursed) else 0,
      due,
      StageCounts(Count(requests, InStage(InitialReview)), Count(requests, InStage(TechnicalReview)),
                  Count(requests, InStage(CoreBanking)), disbursed),
      PriorityCounts(Count(requests, WithPriority(Low)), Count(requests, WithPriority(Medium)),
                     Count(requests, WithPriority(High)), Count(requests, WithPriority(Urgent))))
  }

  /** Distributing one more factor, for the inductive step of `SumDisbursedDaysBounds`. */
  lemma MulSucc(n: int, x: int)
    ensures (n + 1) * x == n * x + x
  {
  }

  /** A non-negative product with a positive factor has a non-negative other factor, for `RoundDivBounds`. */
  lemma NonnegFactor(d: int, e: int)
    requires d > 0 && d * e >= 0
    ensures e >= 0
  {
  }

  /** Bounds on each disbursed request's days bound their sum. */
  lemma {:induction false} SumDisbursedDaysBounds(requests: seq<WithdrawalRequest>, lo: int, hi: int)
    requires forall i :: 0 <= i < |requests| && requests[i].currentStage == Disbursed ==>
               lo <= requests[i].processingDays <= hi
    ensures Count(requests, InStage(Disbursed)) * lo <= SumDisbursedDays(requests)
              <= Count(requests, InStage(Disbursed)) * hi
  {
    if requests != [] {
      var rest := requests[1..];
      assert forall i :: 0 <= i < |rest| && rest[i].currentStage == Disbursed ==> lo <= rest[i].processingDays <= hi by {
        assert forall i :: 0 <= i < |rest| ==> rest[i] == requests[i + 1];
      }
      SumDisbursedDaysBounds(rest, lo, hi);
      var n := Count(rest, InStage(Disbursed));
      var sum := SumDisbursedDays(rest);
      if requests[0].currentStage == Disbursed {
        assert Count(requests, InStage(Disbursed)) == n + 1;
        assert SumDisbursedDays(requests) == requests[0].processingDays + sum;
        MulSucc(n, lo);
        MulSucc(n, hi);
      } else {
        assert Count(requests, InStage(Disbursed)) == n;
        assert SumDisbursedDays(requests) == sum;
      }
    }
  }

  /** The rounded mean of values within `[lo, hi]` stays within `[lo, hi]`. */
  lemma RoundDivBounds(sum: int, n: int, lo: int, hi: int)
    requires n > 0 && n * lo <= sum <= n * hi
    ensures lo <= RoundDiv(sum, n) <= hi
  {
    var r := RoundDiv(sum, n);
    assert n * (2 * (r - lo) + 1) == 2 * n * r + n - 2 * (n * lo);
    NonnegFactor(n, 2 * (r - lo) + 1);
    assert n * (2 * (hi - r) + 1) == 2 * (n * hi) - (2 * n * r - n);
    NonnegFactor(n, 2 * (hi - r) + 1);
  }

  /** The average processing time lies between any lower and upper bound of the disbursed requests' days,
      so between their minimum and maximum. */
  lemma AverageWithinDisbursedRange(requests: seq<WithdrawalRequest>, now: int, parseDate: string -> Option<int>, lo: int, hi: int)
    requires Count(requests, InStage(Disbursed)) > 0
    requires forall i :: 0 <= i < |requests| && requests[i].currentStage == Disbursed ==>
               lo <= requests[i].processingDays <= hi
    ensures lo <= ComputeStats(requests, now, parseDate).avgProcessingTime <= hi
  {
    SumDisbursedDaysBounds(requests, lo, hi);
    RoundDivBounds(SumDisbursedDays(requests), Count(requests, InStage(Disbursed)), lo, hi);
  }

  // ---------------------------------------------------------------- filters

  function StageIs(status: string): WithdrawalRequest -> bool { (r: WithdrawalRequest) => StageId(r.currentStage) == status }
  function CountryIs(country: string): WithdrawalRequest -> bool { (r: WithdrawalRequest) => r.country == country }

  /** The list the search box starts from: the search service's result for a non-blank term, else the loaded list. */
  function SearchBase(requests: seq<WithdrawalRequest>, searchTerm: string,
                      search: string -> seq<WithdrawalRequest>): seq<WithdrawalRequest> {
    if !IsBlank(searchTerm) then search(searchTerm) else requests
  }

  /** A request passes both drop-down filters. */
  predicate PassesFilters(r: WithdrawalRequest, filterStatus: string, filterCountry: string) {
    (filterStatus == "all" || StageId(r.currentStage) == filterStatus)
    && (filterCountry == "all" || r.country == filterCountry)
  }

  /** The status drop-down: `filter(req => req.currentStage === filterStatus)` unless it reads `all`. */
  function ApplyStatusFilter(requests: seq<WithdrawalRequest>, filterStatus: string): (r: seq<WithdrawalRequest>)
    ensures IsSubsequence(r, requests)
    ensures forall x :: x in r <==> x in requests && (filterStatus == "all" || StageId(x.currentStage) == filterStatus)
    ensures forall x :: multiset(r)[x] ==
                          if filterStatus == "all" || StageId(x.currentStage) == filterStatus then multiset(requests)[x] else 0
    ensures filterStatus == "all" ==> r == requests
  {
    if filterStatus != "all" then
      FilterKeepsAll(requests, StageIs(filterStatus));
      FilterMultiplicities(requests, StageIs(filterStatus));
      Filter(requests, StageIs(filterStatus))
    else
      SubsequenceReflexive(requests);
      requests
  }

  /** The country drop-down: `filter(req => req.country === filterCountry)` unless it reads `all`. */
  function ApplyCountryFilter(requests: seq<WithdrawalRequest>, filterCountry: string): (r: seq<WithdrawalRequest>)
    ensures IsSubsequence(r, requests)
    ensures forall x :: x in r <==> x in requests && (filterCountry == "all" || x.country == filterCountry)
    ensures forall x :: multiset(r)[x] ==
                          if filterCountry == "all" || x.country == filterCountry then multiset(requests)[x] else 0
    ensures filterCountry == "all" ==> r == requests
  {
    if filterCountry != "all" then
      FilterKeepsAll(requests, CountryIs(filterCountry));
      FilterMultiplicities(requests, CountryIs(filterCountry));
      Filter(requests, CountryIs(filterCountry))
    else
      SubsequenceReflexive(requests);
      requests
  }

  /** `filteredRequests`: search, then the status filter, then the country filter. The result keeps the order of
      the list it starts from and holds exactly its requests that pass both filters, each as often as there. */
  function FilteredRequests(requests: seq<WithdrawalRequest>, searchTerm: string, filterStatus: string,
                            filterCountry: string, search: string -> seq<WithdrawalRequest>): (r: seq<WithdrawalRequest>)
    ensures IsSubsequence(r, SearchBase(requests, searchTerm, search))
    ensures forall x :: x in r <==> x in SearchBase(requests, searchTerm, search) && PassesFilters(x, filterStatus, filterCountry)
    ensures forall x :: multiset(r)[x] ==
                          if PassesFilters(x, filterStatus, filterCountry) then multiset(SearchBase(requests, searchTerm, search))[x] else 0
    ensures IsBlank(searchTerm) && filterStatus == "all" && filterCountry == "all" ==> r == requests
  {
    var base := SearchBase(requests, searchTerm, search);
    var byStatus := ApplyStatusFilter(base, filterStatus);
    var byCountry := ApplyCountryFilter(byStatus, filterCountry);
    SubsequenceTransitive(byCountry, byStatus, base);
    byCountry
  }

  // ---------------------------------------------------------------- the dashboard component

  /** One `withdrawalRequestService.logAction` call. */
  datatype LogEntry = LogEntry(requestId: string, action: ActionType, userId: string, comment: string)

  /** One `notificationService` call. */
  datatype Notice =
    | RequestApprovedNotice(refNumber: string)
    | RequestRejectedNotice(refNumber: string)
    | RequestDisbursedNotice(refNumber: string)
    | ErrorNotice(title: string, message: string)

  /** The permission-denied notification's state. */
  datatype DeniedState = DeniedState(isOpen: bool, userRole: string, attemptedAction: string, requiredRole: string, message: string)

  const ClosedDenial := DeniedState(false, "", "", "", "")

  /** The comment each successful transition logs. */
  function LogComment(action: ActionType): string {
    match action
    case Approve => "Request approved by Operations Team"
    case Reject => "Request rejected by Operations Team"
    case Disburse => "Request disbursed by Core Banking Team"
    case View => ""
  }

  /** The success notification of a transition. */
  function SuccessNotice(action: ActionType, refNumber: string): Notice {
    match action
    case Approve => RequestApprovedNotice(refNumber)
    case Reject => RequestRejectedNotice(refNumber)
    case Disburse => RequestDisbursedNotice(refNumber)
    case View => ErrorNotice("", "")
  }

  /** The error a transition's own handler reports when the update finds no request. */
  function HandlerFailureNotice(action: ActionType): Notice {
    match action
    case Approve => ErrorNotice("Approval Failed", "Failed to approve the request. Please try again.")
    case Reject => ErrorNotice("Rejection Failed", "Failed to reject the request. Please try again.")
    case Disburse => ErrorNotice("Disbursement Failed", "Failed to disburse the request. Please try again.")
    case View => ErrorNotice("", "")
  }

  /** The error `performAction` reports for any failure of the action. */
  function ActionFailedNotice(action: ActionType): Notice {
    ErrorNotice("Action Failed", "Failed to " + ActionId(action) + ". Please try again.")
  }

  class DashboardComponent {
    var user: Option<AuthUser>
    const store: RequestStore
    var requests: seq<WithdrawalRequest>
    var actionLog: seq<LogEntry>
    var notices: seq<Notice>
    var denied: DeniedState
    var loading: bool

    constructor (user: Option<AuthUser>, store: RequestStore)
      ensures this.user == user && this.store == store
      ensures requests == [] && actionLog == [] && notices == [] && denied == ClosedDenial && !loading
    {
      this.user := user;
      this.store := store;
      requests := [];
      actionLog := [];
      notices := [];
      denied := ClosedDenial;
      loading := false;
    }

    /** `loadRequests`. */
    method LoadRequests()
      modifies this`requests
      ensures requests == store.Contents()
    {
      requests := store.GetAllRequests();
    }

    /** What `performAction` leaves behind for a signed-in user: the update and its trace when it succeeds,
        the error notices and no write when it fails. */
    twostate predicate ActionOutcome(userId: string, action: ActionType, request: Option<WithdrawalRequest>, now: int)
      reads this, store
    {
      var upd := if request.Some? then ActionUpdate(action, request.value, now) else None;
      && !loading
      && (upd.None? ==>
            store.item == old(store.item) && actionLog == old(actionLog) && requests == old(requests)
            && notices == old(notices) + [ActionFailedNotice(action)])
      && (upd.Some? && IndexOfId(old(store.Contents()), request.value.id) == -1 ==>
            store.item == old(store.item) && actionLog == old(actionLog) && requests == old(requests)
            && notices == old(notices) + [HandlerFailureNotice(action), ActionFailedNotice(action)])
      && (upd.Some? && IndexOfId(old(store.Contents()), request.value.id) >= 0 ==>
            && store.item == Some(UpdatedList(old(store.Contents()), request.value.id, upd.value))
            && actionLog == old(actionLog) + [LogEntry(request.value.id, action, userId, LogComment(action))]
            && notices == old(notices) + [SuccessNotice(action, request.value.refNumber)]
            && requests == store.Contents())
    }

    /** One confirmed transition handler (approve, reject or disburse): update, then log, notify and reload only
        when the update found the request; otherwise report the handler's own error. */
    method RunTransition(action: ActionType, request: WithdrawalRequest, now: int) returns (ok: bool)
      requires user.Some? && action != View
      modifies this`requests, this`actionLog, this`notices, store
      ensures var k := IndexOfId(old(store.Contents()), request.id);
              && (ok <==> k >= 0)
              && (k == -1 ==> store.item == old(store.item) && actionLog == old(actionLog) && requests == old(requests)
                              && notices == old(notices) + [HandlerFailureNotice(action)])
              && (k >= 0 ==>
                    && store.item == Some(UpdatedList(old(store.Contents()), request.id, ActionUpdate(action, request, now).value))
                    && actionLog == old(actionLog) + [LogEntry(request.id, action, user.value.id, LogComment(action))]
                    && notices == old(notices) + [SuccessNotice(action, request.refNumber)]
                    && requests == store.Contents())
    {
      var success := store.UpdateRequest(request.id, ActionUpdate(action, request, now).value);
      if success.Some? {
        actionLog := actionLog + [LogEntry(request.id, action, user.value.id, LogComment(action))];
        notices := notices + [SuccessNotice(action, request.refNumber)];
        LoadRequests();
        ok := true;
      } else {
        notices := notices + [HandlerFailureNotice(action)];
        ok := false;
      }
    }

    /** `performAction`, with the confirmation dialog accepted. */
    method PerformAction(action: ActionType, request: Option<WithdrawalRequest>, now: int)
      modifies this`requests, this`actionLog, this`notices, this`loading, store
      ensures old(user).None? ==> unchanged(this) && unchanged(store)
      ensures old(user).Some? ==> ActionOutcome(old(user).value.id, action, request, now)
    {
      if user.None? {
        return;
      }
      loading := true;
      if action == View || request.None? {
        assert request.Some? ==> ActionUpdate(action, request.value, now).None?;
        notices := notices + [ActionFailedNotice(action)];
      } else {
        assert ActionUpdate(action, request.value, now).Some?;
        var ok := RunTransition(action, request.value, now);
        if !ok {
          notices := notices + [ActionFailedNotice(action)];
        }
      }
      loading := false;
    }

    /** `handleActionRequest`: nothing without a user; a denial notice without the permission; else the action. */
    method HandleActionRequest(action: ActionType, request: Option<WithdrawalRequest>, now: int)
      modifies this`requests, this`actionLog, this`notices, this`loading, this`denied, store
      ensures old(user).None? ==> unchanged(this) && unchanged(store)
      ensures old(user).Some? && !CanPerformAction(old(user).value, action) ==>
                && denied == DeniedState(true, old(user).value.role, ActionDisplayName(action), RequiredRoleForAction(action), "")
                && unchanged(store) && requests == old(requests) && actionLog == old(actionLog)
                && notices == old(notices) && loading == old(loading)
      ensures old(user).Some? && CanPerformAction(old(user).value, action) ==>
                denied == old(denied) && ActionOutcome(old(user).value.id, action, request, now)
    {
      if user.None? {
        return;
      }
      if CanPerformAction(user.value, action) {
        PerformAction(action, request, now);
      } else {
        denied := DeniedState(true, user.value.role, ActionDisplayName(action), RequiredRoleForAction(action), "");
      }
    }
  }
}
