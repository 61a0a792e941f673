# ADFD withdrawal tracking — a verified model of its logic

The ADFD withdrawal tracking application follows loan withdrawal requests through a four-team workflow:
- the archive team creates a request (`initial_review`);
- the operations team approves or rejects it (`technical_review`);
- the core banking team disburses it (`core_banking` to `disbursed`);
- loan administrators watch.

This project models the logic inside that React application and proves properties of it:
- the role and stage tables, and the dashboard's approve, reject and disburse transitions behind their
  permission check;
- the dashboard's statistics and filters;
- the in-memory request store;
- the progress timeline of a request;
- the manual request wizard and its field validators;
- the permission-denied texts;
- the spreadsheet search helpers;
- the notification preference toggles.

One Dafny module per source file:

| file | module | models |
|---|---|---|
| `workflow_types.dfy` | `WorkflowTypes` | `src/types/withdrawalTypes.ts` |
| `request_store.dfy` | `RequestStore` | `src/services/requestStorageService.ts` (a class over a sequence) |
| `dashboard.dfy` | `Dashboard` | `src/components/WithdrawalRequestDashboard.tsx` (pure mappings, statistics and filters; a class for the handlers) |
| `timeline.dfy` | `Timeline` | `src/components/HorizontalTimelineComponent.tsx` |
| `manual_form.dfy` | `ManualForm` | `src/components/ManualWithdrawalRequestForm.tsx` (pure navigation, validity and conversion; a class for `handleSubmit`) |
| `form_validation.dfy` | `FormValidation` | `src/utils/formValidation.ts` |
| `permission_denied.dfy` | `PermissionDenied` | `src/components/PermissionDeniedNotification.tsx` |
| `excel.dfy` | `Excel` | `src/utils/excelHandler.ts` (loops for `sheetToObjects` and `searchInAllSheets`) |
| `user_profile.dfy` | `UserProfile` | `src/components/UserProfile.tsx` |
| `text.dfy`, `seqs.dfy`, `wrappers.dfy` | `Text`, `Seqs`, `Wrappers` | the JavaScript string, array and nullable idioms the code uses |

Modelling choices:
- Strings are `seq<char>`, whose elements are Unicode scalar values. JavaScript's `.length` counts UTF-16 code
  units, so the length checks go through `Utf16Length`, which counts two for a character outside the Basic
  Multilingual Plane. `toUpperCase`/`toLowerCase` are modelled on ASCII letters only. `\s` and `trim` use
  JavaScript's whitespace set.
- `String.prototype.replace` with a string pattern replaces only the first occurrence, and the model keeps that.
- Timestamps are integer milliseconds and the clock is a parameter (`now`).
- `Math.ceil` and `Math.round` are written out exactly on integers: `CeilDiv`, `RoundDiv`.
- Code behind files that are not part of this model becomes a parameter. This covers:
  - the search service's result;
  - date parsing;
  - `parseFloat`;
  - the amount and date validators;
  - random and clock-based numbers;
  - the request service's reply to `createRequest`. An exception thrown by the service itself, which the form
    shows with that exception's own message (src/components/ManualWithdrawalRequestForm.tsx:248-254), is not
    modelled; only the falsy-id failure and its "Failed to create withdrawal request" message are.
- Three assumptions about unseen code:
  - The permission check (`permissionService.canPerformAction`, not part of this model) is modelled as membership
    of the action in `ROLE_PERMISSIONS` of the mapped role.
  - The dashboard's `withdrawalRequestService.updateRequest` (not part of this model) is modelled by the same merge-by-id as
    `requestStorageService.updateRequest`, and its `withdrawalRequestService.getAllRequests`
    (src/components/WithdrawalRequestDashboard.tsx:121) is modelled as reading that same store.
  - `logAction` and notification calls are recorded as trace entries, with no semantics of their own.
- Behaviour of the code as written that a reader might not expect:
  - The transition handlers do not check the request's stage; only `getActionButtonsForRequest` does (approve and
    reject on `technical_review`, disburse on `core_banking`). The theorems `OfferedActionsIff` and
    `OfferedWritesAreEdges` are about `getActionButtonsForRequest` as written.
  - The table's rendering of those buttons is commented out (src/components/WithdrawalRequestDashboard.tsx:1036-1045),
    and the buttons are the only callers of `handleActionRequest`. So approve, reject and disburse cannot be reached
    from the dashboard as shipped. The model still covers the handlers as written.
  - Approval writes `core_banking` directly; no write ever stores `approved`.
  - After a successful submission the form keeps `isSubmitting` set; only the error paths clear it.
  - The checksum step of IBAN validation is never reached (see `ChecksumBranchUnreachable`). Every well-shaped IBAN
    is accepted with the message "IBAN format appears valid".

## Model

| member | source | states |
|---|---|---|
| WorkflowTypes.StageIdInjective | src/types/withdrawalTypes.ts:9 | distinct stages have distinct string ids |
| WorkflowTypes.EveryRoleCanView | src/types/withdrawalTypes.ts:222-229 | every role's permission list contains `view` |
| WorkflowTypes.AdminHoldsEveryAction | src/types/withdrawalTypes.ts:227 | `admin` holds all four actions |
| WorkflowTypes.ApproveRejectHolders | src/types/withdrawalTypes.ts:223-228 | a role holds approve (and reject) exactly when it is `operations_team` or `admin` |
| WorkflowTypes.DisburseHolders | src/types/withdrawalTypes.ts:223-228 | a role holds disburse exactly when it is `core_banking_team` or `admin` |
| WorkflowTypes.TerminalStages | src/types/withdrawalTypes.ts:232-239 | the stages without successors are exactly `disbursed` and `rejected` |
| WorkflowTypes.NoSelfTransition | src/types/withdrawalTypes.ts:233-238 | no stage lists itself as a successor |
| WorkflowTypes.ApprovedOnlyToDisbursedAndSingleReturn | src/types/withdrawalTypes.ts:233-237 | `approved` moves only to `disbursed`; the only edge back to `initial_review` is from `technical_review` |
| WorkflowTypes.RouteToDisbursed | src/types/withdrawalTypes.ts:233-237 | from every non-terminal stage there is a path of the graph to `disbursed` with at most two transitions |
| RequestStore.MergeNoChange | src/services/requestStorageService.ts:22 | merging an empty update keeps the request |
| RequestStore.MergeIdempotent | src/services/requestStorageService.ts:22 | merging the same update twice equals merging it once |
| RequestStore.MergeSequential | src/services/requestStorageService.ts:22 | two merges equal one merge of the second update laid over the first |
| RequestStore.MergeKeepsUnsuppliedFields | src/services/requestStorageService.ts:22 | `updatedAt`, `id`, `createdAt` and `priority` keep their values when the update does not supply them |
| RequestStore.IndexOfId | src/services/requestStorageService.ts:20 | the index is the first one whose id matches, or -1 exactly when none does |
| RequestStore.FindIndexById | src/services/requestStorageService.ts:20 | the `findIndex` loop returns the first matching index, as `IndexOfId` |
| RequestStore.UpdatedList | src/services/requestStorageService.ts:19-24 | same length; unchanged without a match; else only the first match changes, to the merged record |
| RequestStore.UpdateTouchesOnlyFirstMatch | src/services/requestStorageService.ts:19-24 | any changed entry is the first one with the id |
| RequestStore.RequestStore.GetAllRequests | src/services/requestStorageService.ts:13-16 | returns the stored list; nothing stored gives the empty list |
| RequestStore.RequestStore.SaveRequest | src/services/requestStorageService.ts:6-11 | appends: length grows by one, the last entry is the request, earlier entries unchanged, returns the request |
| RequestStore.RequestStore.UpdateRequest | src/services/requestStorageService.ts:18-27 | an unknown id returns null and writes nothing; a known id stores `UpdatedList` and returns the merged record |
| Dashboard.MapUserRoleCases | src/components/WithdrawalRequestDashboard.tsx:434-457 | which role strings reach each of the six roles; the three operations spellings give `operations_team`, unknown strings give `loan_admin` |
| Dashboard.MapUserRoleRoundTrip | src/components/WithdrawalRequestDashboard.tsx:434-457 | every role's own id maps back to that role |
| Dashboard.CanPerformActionIff | src/components/WithdrawalRequestDashboard.tsx:434-457 | under the permission assumption: view always; approve/reject exactly for the operations and admin strings; disburse exactly for the core banking and admin strings |
| Dashboard.RequiredRoleHoldsAction | src/components/WithdrawalRequestDashboard.tsx:460-470 | the role a denial names (Operations Team, Core Banking Team, Administrator) displays as that text and holds the action |
| Dashboard.RequiredRoleShownAsIs | src/components/WithdrawalRequestDashboard.tsx:199-205 | the required-role text a denial hands to the notice is displayed there unchanged |
| Dashboard.OfferedActionsIff | src/components/WithdrawalRequestDashboard.tsx:519-572 | approve and reject are offered exactly on `technical_review`, disburse exactly on `core_banking` |
| Dashboard.CeilDiv | src/components/WithdrawalRequestDashboard.tsx:321 | `Math.ceil(x / d)`: the least `q` with `x <= q * d` |
| Dashboard.ProcessingDays | src/components/WithdrawalRequestDashboard.tsx:321 | whole days rounded up; at least 0 when `now >= createdAt`, at least 1 when later |
| Dashboard.TransitionEffect | src/components/WithdrawalRequestDashboard.tsx:241-341 | approve writes `core_banking`, its status and `bank001`; reject writes `initial_review`, its status and `archive001`; disburse writes `disbursed`, its status and the processing days and keeps `assignedTo`; all other fields kept |
| Dashboard.OfferedWritesAreEdges | src/components/WithdrawalRequestDashboard.tsx:519-572 | every write made from a stage on which the button is offered is an edge of `STAGE_TRANSITIONS` |
| Dashboard.StoredWriteFollowsGraph | src/components/WithdrawalRequestDashboard.tsx:241-341 | the same on the stored list: the stored entry moves along an edge and no other entry changes |
| Dashboard.RoundDiv | src/components/WithdrawalRequestDashboard.tsx:376-377 | `Math.round(sum / n)`: the nearest integer, halves rounded up |
| Dashboard.StagePartition | src/components/WithdrawalRequestDashboard.tsx:393-398 | the six stage counts sum to the list length |
| Dashboard.PriorityPartition | src/components/WithdrawalRequestDashboard.tsx:399-404 | the four priority counts sum to the list length |
| Dashboard.ComputeStats | src/components/WithdrawalRequestDashboard.tsx:370-406 | each field is its own count: total the length, pending the requests not disbursed, due soon the requests passing the value-date test, each stage and each priority field the requests with that stage or priority; hence pending plus disbursed is the total, priorities sum to the total, the four stage counts sum to at most the total with equality exactly when none is approved or rejected, and due soon is at most pending; average 0 without disbursements, else the rounded mean |
| Dashboard.DueSoonIsPending | src/components/WithdrawalRequestDashboard.tsx:381-386 | no more requests are due soon than are pending, since a due request is not disbursed |
| Dashboard.SumDisbursedDaysBounds | src/components/WithdrawalRequestDashboard.tsx:377 | bounds on each disbursed request's days bound their sum |
| Dashboard.RoundDivBounds | src/components/WithdrawalRequestDashboard.tsx:377 | the rounded mean of values in `[lo, hi]` is in `[lo, hi]` |
| Dashboard.AverageWithinDisbursedRange | src/components/WithdrawalRequestDashboard.tsx:375-378 | the average processing time lies between the least and greatest processing days of the disbursed requests |
| Dashboard.ApplyStatusFilter | src/components/WithdrawalRequestDashboard.tsx:357-359 | order kept; a request stays exactly when it is present and has the chosen stage, and as many times as it occurs; `all` changes nothing |
| Dashboard.ApplyCountryFilter | src/components/WithdrawalRequestDashboard.tsx:362-364 | order kept; a request stays exactly when it is present and has the chosen country, and as many times as it occurs; `all` changes nothing |
| Dashboard.FilteredRequests | src/components/WithdrawalRequestDashboard.tsx:348-367 | a subsequence of the search result; each request occurs as often as in the search result when it passes both filters, and not at all otherwise; blank search with both filters `all` gives the list |
| Dashboard.DashboardComponent.LoadRequests | src/components/WithdrawalRequestDashboard.tsx:119-127 | the shown list becomes the stored list |
| Dashboard.DashboardComponent.RunTransition | src/components/WithdrawalRequestDashboard.tsx:241-341 | the update is applied; log entry, success notice and reload happen only when it succeeded; otherwise the handler's error notice |
| Dashboard.DashboardComponent.PerformAction | src/components/WithdrawalRequestDashboard.tsx:210-238 | without a user nothing changes; with one the transition's outcome, or nothing written for view or a missing request |
| Dashboard.DashboardComponent.HandleActionRequest | src/components/WithdrawalRequestDashboard.tsx:175-208 | nothing without a user; without the permission only the denial state, naming the required role, and no write; otherwise `PerformAction`'s outcome |
| Timeline.CurrentStageIndexValues | src/components/HorizontalTimelineComponent.tsx:26-82 | the index is the stage's place in the four-stage order, -1 exactly for `approved` and `rejected` |
| Timeline.FindStage | src/components/HorizontalTimelineComponent.tsx:82 | `findIndex`: the first index holding the stage, or -1 exactly when none does |
| Timeline.ProgressBounds | src/components/HorizontalTimelineComponent.tsx:83-86 | progress is `(index + 1) * 25`, within 0..100, 0 exactly for approved/rejected, 100 exactly when disbursed |
| Timeline.ProgressMonotone | src/components/HorizontalTimelineComponent.tsx:83-86 | later stages show strictly more progress |
| Timeline.StatusRow | src/components/HorizontalTimelineComponent.tsx:88-92 | each position carries `getStageStatus` of its index |
| Timeline.StatusCounts | src/components/HorizontalTimelineComponent.tsx:88-92 | one current stage when the index is a stage's, none at -1; the stages before it completed, the rest pending |
| Timeline.ExactlyOneCurrent | src/components/HorizontalTimelineComponent.tsx:82-92 | the displayed row has exactly one current stage unless the request is approved or rejected |
| Timeline.ConnectorMatchesStatus | src/components/HorizontalTimelineComponent.tsx:322-331 | a connector follows every stage but the last, and is filled exactly when that stage is completed |
| Timeline.GetStageEvents | src/components/HorizontalTimelineComponent.tsx:104-110 | an order-preserving subsequence holding exactly the events that belong to the stage, each as often as in the timeline |
| Timeline.CreatedAndDisbursedEventsPlaced | src/components/HorizontalTimelineComponent.tsx:107-108 | creation events show under `initial_review`, disbursement events under `disbursed` |
| Timeline.TaggedEventUnderOneStage | src/components/HorizontalTimelineComponent.tsx:104-110 | any other event shows under at most one stage |
| Timeline.LatestIsLastBelonging | src/components/HorizontalTimelineComponent.tsx:199 | a stage's latest event is the last event of the timeline that belongs to it, absent exactly when none does |
| Timeline.RecentActivity | src/components/HorizontalTimelineComponent.tsx:372 | the first `min(3, n)` events |
| ManualForm.FindCountry | src/components/ManualWithdrawalRequestForm.tsx:101 | the first country with the value, or none exactly when no country has it |
| ManualForm.CountrySelectEffect | src/components/ManualWithdrawalRequestForm.tsx:100-118 | an unknown country changes nothing; a known one stores its label, the project and reference numbers and today's date, moves to `project` with `completedSections = ['country']`, and keeps every other field, `isSubmitting` included |
| ManualForm.InputChangeTouchesOneField | src/components/ManualWithdrawalRequestForm.tsx:122-136 | only the named field's value and validation result change, and `hasUnsavedChanges` is set |
| ManualForm.InputChangesCommute | src/components/ManualWithdrawalRequestForm.tsx:122-136 | edits of different fields commute |
| ManualForm.InputChangeLastWins | src/components/ManualWithdrawalRequestForm.tsx:122-136 | a second edit of a field overrides the first |
| ManualForm.FindSection | src/components/ManualWithdrawalRequestForm.tsx:141 | `findIndex` over the sections: the first index with the id, or -1 exactly when none has it |
| ManualForm.NextSectionEffect | src/components/ManualWithdrawalRequestForm.tsx:140-150 | one section ahead unless on the last; the section left is then the last completed entry, listed exactly once, and earlier entries stay |
| ManualForm.PreviousSectionEffect | src/components/ManualWithdrawalRequestForm.tsx:152-161 | one section back unless on the first; nothing else changes |
| ManualForm.NextThenPrevious | src/components/ManualWithdrawalRequestForm.tsx:140-161 | with distinct ids, back after forward returns to the section left |
| ManualForm.PreviousThenNext | src/components/ManualWithdrawalRequestForm.tsx:140-161 | with distinct ids, forward after back returns to the section left |
| ManualForm.UnrelatedEditKeepsValidity | src/components/ManualWithdrawalRequestForm.tsx:164-184 | editing a field the current section does not require leaves its validity unchanged |
| ManualForm.BlankingRequiredFieldInvalidates | src/components/ManualWithdrawalRequestForm.tsx:174-176 | blanking a required field of the current section makes it invalid |
| ManualForm.CountryThenBackIsValid | src/components/ManualWithdrawalRequestForm.tsx:100-171 | after choosing a country, stepping back shows a valid country section |
| ManualForm.AllRequiredFields | src/components/ManualWithdrawalRequestForm.tsx:216 | a field is listed exactly when some section requires it |
| ManualForm.MissingFieldsExact | src/components/ManualWithdrawalRequestForm.tsx:216-220 | a field is missing exactly when some section requires it and it is blank; order kept; none missing exactly when every required field is filled |
| ManualForm.MissingFieldMember | src/components/ManualWithdrawalRequestForm.tsx:216-220 | one field is reported missing exactly when some section requires it and it is blank |
| ManualForm.ValidSectionHasNoMissing | src/components/ManualWithdrawalRequestForm.tsx:174-220 | a valid non-country section has none of its fields missing |
| ManualForm.ConvertToWithdrawalRequest | src/components/ManualWithdrawalRequestForm.tsx:187-206 | stage `initial_review`, 0 processing days, priority `medium`, `archive001`, no attachments, `refNumber` from `referenceNumber`, the form's fields copied |
| ManualForm.ConvertedRequestFacts | src/components/ManualWithdrawalRequestForm.tsx:198-203 | the new request is not terminal, can move to `technical_review`, and its status and notes name the project and the purpose |
| ManualForm.FormGate | src/components/ManualWithdrawalRequestForm.tsx:276-277 | no form without a signed-in user; for a signed-in user the form is shown exactly when `can_create_requests` is set, whatever the role |
| ManualForm.ManualFormComponent.HandleSubmit | src/components/ManualWithdrawalRequestForm.tsx:209-256 | callable only behind the form gate; with blank required fields: an error listing exactly those and no request sent; otherwise the converted request is sent, and the draft cleared on success or the failure error shown |
| ManualForm.ManualFormComponent.Send | src/components/ManualWithdrawalRequestForm.tsx:231-248 | callable only behind the form gate; the request is handed over; a non-empty id clears the draft and is returned, otherwise the failure error is shown and submitting ends |
| FormValidation.Clean | src/utils/formValidation.ts:13 | the cleaned string has no whitespace |
| FormValidation.CleanIgnoresCase | src/utils/formValidation.ts:13 | lower-casing before cleaning changes nothing |
| Text.Utf16Length | src/utils/formValidation.ts:157-161 | `.length` counts UTF-16 code units: the number of characters plus one for each character outside the Basic Multilingual Plane, so at least the number of characters and at most twice it, equal exactly when no character lies outside the Basic Multilingual Plane |
| FormValidation.ValidateIBANIff | src/utils/formValidation.ts:7-45 | valid exactly when non-empty with a cleaned length in 15..34 and the IBAN shape, and then always "IBAN format appears valid"; a cleaned length outside 15..34 UTF-16 code units gives the length message; empty gives "IBAN is required" |
| FormValidation.ChecksumBranchUnreachable | src/utils/formValidation.ts:27-36 | for every IBAN of valid length and shape the expanded number has more than 15 digits, so the MOD 97-10 check is never reached |
| FormValidation.ValidateIBANIgnoresCase | src/utils/formValidation.ts:13 | the verdict does not depend on letter case |
| FormValidation.ValidateSWIFTIff | src/utils/formValidation.ts:48-67 | valid exactly when non-empty and the cleaned code is a BIC (4+2 letters, 2 alphanumerics, optional 3 alphanumerics); a cleaned length other than 8 and 11 UTF-16 code units gives the length message; every failure is an error |
| FormValidation.ValidateSWIFTIgnoresCase | src/utils/formValidation.ts:53 | the verdict does not depend on letter case |
| FormValidation.ValidateRequiredIff | src/utils/formValidation.ts:148-153 | valid exactly when the value has a non-whitespace character |
| FormValidation.ValidateLengthIff | src/utils/formValidation.ts:156-166 | valid exactly when the length in UTF-16 code units is within the bounds; always invalid when the bounds cross |
| FormValidation.RequiredWithinIff | src/utils/formValidation.ts:213-236 | the required-then-length check passes exactly when non-blank and its UTF-16 length is within bounds |
| FormValidation.EmptyOptionalFieldValid | src/utils/formValidation.ts:189-191 | an empty value of a field outside the twelve required ones is valid |
| FormValidation.NameFieldIff | src/utils/formValidation.ts:213-236 | a name-like field is valid exactly when non-blank and its UTF-16 length is within its bounds (2..100, 2..200, 5..500); blank reports "required" |
| FormValidation.NameFieldRoutes | src/utils/formValidation.ts:213-236 | each name-like field goes through the required check and its own bounds, counted in UTF-16 units as `RequiredWithin` counts them |
| FormValidation.SwiftFields | src/utils/formValidation.ts:197-199 | both SWIFT fields check a non-empty code alike; only the bank's code is required |
| FormValidation.Chunks | src/utils/formValidation.ts:324 | blocks of at most four characters, all but the last exactly four |
| FormValidation.Group4IsGrouped | src/utils/formValidation.ts:324 | the regular-expression replacement is the blocks joined by single spaces, plus one trailing space when the last block is full |
| FormValidation.FormatIBANIsGrouped | src/utils/formValidation.ts:320-325 | empty gives empty; otherwise the cleaned input in blocks of four separated by single spaces, with no trailing space |
| FormValidation.FormatIBANStripsBack | src/utils/formValidation.ts:320-325 | removing the spaces of the output gives the cleaned, upper-cased input |
| FormValidation.FormatIBANIdempotent | src/utils/formValidation.ts:320-325 | formatting twice equals formatting once |
| PermissionDenied.CoreBankingSpellingsAgree | src/components/PermissionDeniedNotification.tsx:22-34 | `core_banking` and `core_banking_team` both display as "Core Banking Team" |
| PermissionDenied.UnnamedRoleDisplay | src/components/PermissionDeniedNotification.tsx:36 | for an unnamed role only the first underscore becomes a space, the other characters are kept up to case, and no word starts with a lower-case letter |
| PermissionDenied.CapitalizeWordsKeeps | src/components/PermissionDeniedNotification.tsx:36 | `\b\w` capitalisation keeps every character up to case, keeps every underscore and space, and leaves no word starting with a lower-case letter |
| PermissionDenied.DisplayOfFinishedName | src/components/PermissionDeniedNotification.tsx:36 | a name without underscores and with capitalised words passes through unchanged |
| PermissionDenied.OperationsTextDisplaysAsItself | src/components/PermissionDeniedNotification.tsx:22-38 | the required-role text "Operations Team" displays as itself |
| PermissionDenied.CoreBankingTextDisplaysAsItself | src/components/PermissionDeniedNotification.tsx:22-38 | the required-role text "Core Banking Team" displays as itself |
| PermissionDenied.AdministratorTextDisplaysAsItself | src/components/PermissionDeniedNotification.tsx:22-38 | the required-role text "Administrator" displays as itself |
| PermissionDenied.UnnamedActionDisplay | src/components/PermissionDeniedNotification.tsx:40-53 | other actions have their first underscore replaced by a space |
| PermissionDenied.TemplateNamesRolesAndAction | src/components/PermissionDeniedNotification.tsx:55-59 | a supplied message is shown as it is; without one the text names the user's display role, the action phrase and the required display role |
| PermissionDenied.DefaultAdviceRoles | src/components/PermissionDeniedNotification.tsx:61-75 | the default advice is given exactly to `admin` and to roles without a named entry |
| Excel.GetSheetByName | src/utils/excelHandler.ts:84-86 | the first sheet with exactly that name; none exactly when no sheet has it |
| Excel.LookupsAgree | src/utils/excelHandler.ts:84-93 | with distinct names, lookup by a sheet's name equals lookup by its index |
| Excel.SheetObjects | src/utils/excelHandler.ts:98-110 | no records for at most one row, else one per further row |
| Excel.RowObjectLookup | src/utils/excelHandler.ts:105-107 | each header's key holds the cell below its last header, or `''` |
| Excel.RowObjectKeys | src/utils/excelHandler.ts:105-107 | the keys of a record are exactly the headers' keys |
| Excel.RecordOfRow | src/utils/excelHandler.ts:101-109 | with distinct headers, record `i` maps header `j` to the `j`-th cell of row `i + 1`, or to `''` when missing or falsy |
| Excel.SheetToObjects | src/utils/excelHandler.ts:98-110 | the loops build exactly `SheetObjects` |
| Excel.SearchRow | src/utils/excelHandler.ts:130-139 | the column loop reports the hits of one row |
| Excel.SearchSheet | src/utils/excelHandler.ts:129-140 | the row loop reports the hits of one sheet |
| Excel.SearchInAllSheets | src/utils/excelHandler.ts:115-144 | the nested loops report the hits of exactly the matching positions, in order |
| Excel.SearchExact | src/utils/excelHandler.ts:128-141 | the matched positions are in strictly increasing sheet-row-column order, so none is repeated, and are exactly the truthy cells containing the term ignoring case |
| Excel.IsValidExcelFileIff | src/utils/excelHandler.ts:163-175 | accepted exactly when the MIME type is listed, or the name has a dot and the part from the last dot is a listed extension in any case |
| Excel.IsValidExcelFileIgnoresCase | src/utils/excelHandler.ts:172 | lower-casing the name does not change the verdict |
| UserProfile.InitialValues | src/components/UserProfile.tsx:95-100 | everything on except system alerts |
| UserProfile.ToggleNotification | src/components/UserProfile.tsx:102-107 | flips exactly the key and keeps the other three |
| UserProfile.ToggleTwice | src/components/UserProfile.tsx:102-107 | toggling a key twice restores the preferences |
| UserProfile.TogglesCommute | src/components/UserProfile.tsx:102-107 | toggles of different keys commute |
| UserProfile.ToggleAll | src/components/UserProfile.tsx:109-117 | all four become off when all are on, and on otherwise |
| UserProfile.ToggleAllTwice | src/components/UserProfile.tsx:109-117 | after toggle-all the four values agree, and a second toggle-all flips them |
| UserProfile.ToggleAllFromInitial | src/components/UserProfile.tsx:95-117 | from the initial preferences toggle-all turns everything on |

## Left out

- JSX rendering, animation, CSS, scrolling and keyboard handlers: presentation only.
- The confirmation dialog: it is modelled as a direct call of the confirmed transition.
- `src/contexts/AuthContext.tsx`: sessions, magic links and password reset are network I/O behind an external
  library. The signed-in user is a parameter.
- `src/App.tsx` (routing), `src/components/ADFDLogo.tsx` (static SVG) and `src/components/RequestDetailsModal.tsx`:
  the modal only delegates to services that are not part of this model.
- `permissionService`, `withdrawalRequestService`, `timelineService`, `commentService` and `notificationService` are
  not part of this model. The model uses the permission table and records calls as trace entries.
- `localStorage` and JSON encoding, in the store and in the form's draft timers: the store is an in-memory list, and
  the draft is a flag that a successful submit clears.
- The auto-save and draft-loading effects of the form: timers and storage.
- `lastSaved`: it is a clock value.
- The `onSuccess` callback that a successful submission schedules 1.5 seconds later: it is a timer into the parent component.
- Floating point:
  - `validateAmount` and `formatAmount` (`parseFloat`, `toLocaleString`) are parameters of `validateField` and of
    the conversion;
  - spreadsheet numbers are modelled as integers, so the text of non-integer numbers is not modelled;
  - progress is exact on integers because it is a multiple of 25.
- Dates: `validateDate`, `generateSequentialNumbers` (`Date.now`, `Math.random`), the value-date parse of "due soon"
  and the creation date of disbursement are parameters (integer milliseconds or a parse function).
- `validateEmail` and `validatePhone`: no field the model covers uses them.
- `formatFileSize`: floating-point logarithms.
- `readExcelFile`, `exportToExcel` and `getExcelFileInfo`: FileReader and spreadsheet library calls.
- Non-ASCII case conversion: `toUpperCase` and `toLowerCase` change only ASCII letters here. A character whose upper
  case is longer, such as `ß`, is not modelled.
- FormValidation.ValidateIBAN: the `catch` branch (checksum not verified) is not modelled, because `BigInt` of a digit
  string does not throw.
- Excel.GetSheetByIndex: non-integer indices are not modelled.
- FormValidation.Group4IsGrouped: `.` in `/(.{4})/g` matches one UTF-16 code unit, while the model's blocks hold
  four characters. For a cleaned input with a character outside the Basic Multilingual Plane, the source's blocks
  can split a surrogate pair and differ from the model's. A well-shaped IBAN is ASCII, so it is not affected.
- FormValidation.FormatIBANIsGrouped: the same code-unit difference, through `Group4`.
- ManualForm.ConvertToWithdrawalRequest: the field values are read as strings, and an absent field reads as `''`.
  This assumes the default form data, which is not part of this model, gives every field a string.
- Dashboard.CanPerformAction: this is an assumption, membership in `ROLE_PERMISSIONS`. The request argument that
  `canPerformAction` receives is ignored.
