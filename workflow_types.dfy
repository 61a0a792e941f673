/** The closed vocabularies of the withdrawal workflow, the role-to-action table and
    the stage graph (src/types/withdrawalTypes.ts), with the facts the tables make true. */
module WorkflowTypes {
  import opened Wrappers

  datatype UserRole = ArchiveTeam | OperationsTeam | CoreBankingTeam | LoanAdmin | Admin | Observer

  datatype ActionType = Approve | Reject | Disburse | View

  datatype RequestStage = InitialReview | TechnicalReview | CoreBanking | Disbursed | Approved | Rejected

  datatype Priority = Low | Medium | High | Urgent

  datatype Currency = USD | EUR | AED

  /** The string each role has in the source. */
  function RoleId(role: UserRole): string {
    match role
    case ArchiveTeam => "archive_team"
    case OperationsTeam => "operations_team"
    case CoreBankingTeam => "core_banking_team"
    case LoanAdmin => "loan_admin"
    case Admin => "admin"
    case Observer => "observer"
  }

  /** The string each action has in the source. */
  function ActionId(action: ActionType): string {
    match action
    case Approve => "approve"
    case Reject => "reject"
    case Disburse => "disburse"
    case View => "view"
  }

  /** The string each stage has in the source. */
  function StageId(stage: RequestStage): string {
    match stage
    case InitialReview => "initial_review"
    case TechnicalReview => "technical_review"
    case CoreBanking => "core_banking"
    case Disbursed => "disbursed"
    case Approved => "approved"
    case Rejected => "rejected"
  }

  /** Distinct stages have distinct strings, so comparing strings compares stages. */
  lemma StageIdInjective(a: RequestStage, b: RequestStage)
    ensures StageId(a) == StageId(b) <==> a == b
  {
  }

  /** `ROLE_PERMISSIONS`. */
  function RolePermissions(role: UserRole): seq<ActionType> {
    match role
    case ArchiveTeam => [View]
    case OperationsTeam => [Approve, Reject, View]
    case CoreBankingTeam => [Disburse, View]
    case LoanAdmin => [View]
    case Admin => [Approve, Reject, Disburse, View]
    case Observer => [View]
  }

  /** `STAGE_TRANSITIONS`. */
  function StageTransitions(stage: RequestStage): seq<RequestStage> {
    match stage
    case InitialReview => [TechnicalReview, Approved, Rejected]
    case TechnicalReview => [CoreBanking, InitialReview, Approved, Rejected]
    case CoreBanking => [Disbursed, Approved, Rejected]
    case Disbursed => []
    case Approved => [Disbursed]
    case Rejected => []
  }

  /** An edge of the stage graph. */
  predicate CanTransition(from: RequestStage, to: RequestStage) {
    to in StageTransitions(from)
  }

  /** A stage with no successor. */
  predicate IsTerminal(stage: RequestStage) {
    StageTransitions(stage) == []
  }

  /** Every role may view. */
  lemma EveryRoleCanView(role: UserRole)
    ensures View in RolePermissions(role)
  {
  }

  /** The administrator holds every action there is. */
  lemma AdminHoldsEveryAction(action: ActionType)
    ensures action in RolePermissions(Admin)
  {
  }

  /** Approve and reject belong to the operations team and the administrator, and to no one else. */
  lemma ApproveRejectHolders(role: UserRole)
    ensures Approve in RolePermissions(role) <==> role == OperationsTeam || role == Admin
    ensures Reject in RolePermissions(role) <==> role == OperationsTeam || role == Admin
  {
  }

  /** Disburse belongs to the core banking team and the administrator, and to no one else. */
  lemma DisburseHolders(role: UserRole)
    ensures Disburse in RolePermissions(role) <==> role == CoreBankingTeam || role == Admin
  {
  }

  /** `disbursed` and `rejected` are the terminal stages, and the only ones. */
  lemma TerminalStages(stage: RequestStage)
    ensures IsTerminal(stage) <==> stage == Disbursed || stage == Rejected
  {
  }

  /** No stage lists itself as a successor. */
  lemma NoSelfTransition(stage: RequestStage)
    ensures !CanTransition(stage, stage)
  {
  }

  /** `approved` leads only to `disbursed`; only `technical_review` leads back to `initial_review`. */
  lemma ApprovedOnlyToDisbursedAndSingleReturn(from: RequestStage, to: RequestStage)
    ensures from == Approved ==> (CanTransition(from, to) <==> to == Disbursed)
    ensures CanTransition(from, InitialReview) <==> from == TechnicalReview
  {
  }

  /** Every step of `path` is an edge of the stage graph. */
  predicate IsPath(path: seq<RequestStage>) {
    forall i :: 0 <= i < |path| - 1 ==> CanTransition(path[i], path[i + 1])
  }

  /** A shortest route from a non-terminal stage to `disbursed`: at most two transitions. */
  function RouteToDisbursed(from: RequestStage): (path: seq<RequestStage>)
    requires !IsTerminal(from)
    ensures 2 <= |path| <= 3
    ensures path[0] == from && path[|path| - 1] == Disbursed
    ensures IsPath(path)
  {
    match from
    case InitialReview => [InitialReview, Approved, Disbursed]
    case TechnicalReview => [TechnicalReview, CoreBanking, Disbursed]
    case CoreBanking => [CoreBanking, Disbursed]
    case Approved => [Approved, Disbursed]
  }

  /** A withdrawal request as the dashboard and the store hold it. Timestamps are milliseconds since the epoch. */
  datatype WithdrawalRequest = WithdrawalRequest(
    id: string,
    projectNumber: string,
    refNumber: string,
    beneficiaryName: string,
    country: string,
    amount: real,
    currency: Currency,
    valueDate: string,
    currentStage: RequestStage,
    status: string,
    priority: Priority,
    assignedTo: string,
    processingDays: int,
    createdAt: int,
    updatedAt: int,
    notes: Option<string>,
    attachments: Option<seq<string>>)

  datatype EventType =
    | StatusChange | CommentAdded | DocumentUploaded | AssignmentChanged
    | CreatedEvent | ApprovedEvent | RejectedEvent | DisbursedEvent

  /** One entry of a request's history; `metadata` holds string-valued tags such as `stage`. */
  datatype TimelineEvent = TimelineEvent(
    id: string,
    requestId: string,
    userId: string,
    userName: string,
    eventType: EventType,
    title: string,
    description: string,
    previousValue: Option<string>,
    newValue: Option<string>,
    metadata: map<string, string>,
    createdAt: int)

  /** The signed-in user as the authentication layer hands it over: `role` is a raw string
      (it may name a role outside `UserRole`), and a missing `can_create_requests` is false. */
  datatype AuthUser = AuthUser(id: string, name: string, email: string, role: string, canCreateRequests: bool)
}
