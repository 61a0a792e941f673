/** The browser-local request list (src/services/requestStorageService.ts): save appends,
    update merges a partial record into the first entry with the given id. */
module RequestStore {
  import opened Wrappers
  import opened Seqs
  import opened WorkflowTypes

  /** `Partial<WithdrawalRequest>`: each field is either supplied or absent. */
  datatype RequestUpdate = RequestUpdate(
    id: Option<string>,
    projectNumber: Option<string>,
    refNumber: Option<string>,
    beneficiaryName: Option<string>,
    country: Option<string>,
    amount: Option<real>,
    currency: Option<Currency>,
    valueDate: Option<string>,
    currentStage: Option<RequestStage>,
    status: Option<string>,
    priority: Option<Priority>,
    assignedTo: Option<string>,
    processingDays: Option<int>,
    createdAt: Option<int>,
    updatedAt: Option<int>,
    notes: Option<string>,
    attachments: Option<seq<string>>)

  /** The update that supplies nothing (`{}`). */
  const NoChange: RequestUpdate :=
    RequestUpdate(None, None, None, None, None, None, None, None, None, None, None, None, None, None, None, None, None)

  /** `{ ...r, ...u }`: a supplied field wins, an absent one keeps the stored value. */
  function Merge(r: WithdrawalRequest, u: RequestUpdate): WithdrawalRequest {
    WithdrawalRequest(
      u.id.GetOr(r.id),
      u.projectNumber.GetOr(r.projectNumber),
      u.refNumber.GetOr(r.refNumber),
      u.beneficiaryName.GetOr(r.beneficiaryName),
      u.country.GetOr(r.country),
      u.amount.GetOr(r.amount),
      u.currency.GetOr(r.currency),
      u.valueDate.GetOr(r.valueDate),
      u.currentStage.GetOr(r.currentStage),
      u.status.GetOr(r.status),
      u.priority.GetOr(r.priority),
      u.assignedTo.GetOr(r.assignedTo),
      u.processingDays.GetOr(r.processingDays),
      u.createdAt.GetOr(r.createdAt),
      u.updatedAt.GetOr(r.updatedAt),
      if u.notes.Some? then u.notes else r.notes,
      if u.attachments.Some? then u.attachments else r.attachments)
  }

  /** The later update's supplied fields over the earlier's (`{ ...u1, ...u2 }`). */
  function Override(u1: RequestUpdate, u2: RequestUpdate): RequestUpdate {
    RequestUpdate(
      if u2.id.Some? then u2.id else u1.id,
      if u2.projectNumber.Some? then u2.projectNumber else u1.projectNumber,
      if u2.refNumber.Some? then u2.refNumber else u1.refNumber,
      if u2.beneficiaryName.Some? then u2.beneficiaryName else u1.beneficiaryName,
      if u2.country.Some? then u2.country else u1.country,
      if u2.amount.Some? then u2.amount else u1.amount,
      if u2.currency.Some? then u2.currency else u1.currency,
      if u2.valueDate.Some? then u2.valueDate else u1.valueDate,
      if u2.currentStage.Some? then u2.currentStage else u1.currentStage,
      if u2.status.Some? then u2.status else u1.status,
      if u2.priority.Some? then u2.priority else u1.priority,
      if u2.assignedTo.Some? then u2.assignedTo else u1.assignedTo,
      if u2.processingDays.Some? then u2.processingDays else u1.processingDays,
      if u2.createdAt.Some? then u2.createdAt else u1.createdAt,
      if u2.updatedAt.Some? then u2.updatedAt else u1.updatedAt,
      if u2.notes.Some? then u2.notes else u1.notes,
      if u2.attachments.Some? then u2.attachments else u1.attachments)
  }

  /** Merging nothing leaves the record as it is. */
  lemma MergeNoChange(r: WithdrawalRequest)
    ensures Merge(r, NoChange) == r
  {
  }

  /** Applying the same update twice is applying it once. */
  lemma MergeIdempotent(r: WithdrawalRequest, u: RequestUpdate)
    ensures Merge(Merge(r, u), u) == Merge(r, u)
  {
  }

  /** Two successive updates act as their combination. */
  lemma MergeSequential(r: WithdrawalRequest, u1: RequestUpdate, u2: RequestUpdate)
    ensures Merge(Merge(r, u1), u2) == Merge(r, Override(u1, u2))
  {
  }

  /** The merge does not refresh `updatedAt`: it changes only when the update supplies it. */
  lemma MergeKeepsUnsuppliedFields(r: WithdrawalRequest, u: RequestUpdate)
    ensures u.updatedAt == None ==> Merge(r, u).updatedAt == r.updatedAt
    ensures u.id == None ==> Merge(r, u).id == r.id
    ensures u.createdAt == None ==> Merge(r, u).createdAt == r.createdAt
    ensures u.priority == None ==> Merge(r, u).priority == r.priority
  {
  }

  /** `requests.findIndex(r => r.id === id)`: the first position holding `id`, or -1. */
  function IndexOfId(requests: seq<WithdrawalRequest>, id: string): (k: int)
    ensures -1 <= k < |requests|
    ensures k == -1 <==> forall j :: 0 <= j < |requests| ==> requests[j].id != id
    ensures k >= 0 ==> requests[k].id == id && forall j :: 0 <= j < k ==> requests[j].id != id
  {
    FindIndex(requests, (r: WithdrawalRequest) => r.id == id)
  }

  /** The search `findIndex` performs, as a scan from the front. */
  method FindIndexById(requests: seq<WithdrawalRequest>, id: string) returns (index: int)
    ensures index == IndexOfId(requests, id)
  {
    index := 0;
    while index < |requests| && requests[index].id != id
      invariant 0 <= index <= |requests|
      invariant forall j :: 0 <= j < index ==> requests[j].id != id
    {
      index := index + 1;
    }
    if index == |requests| {
      index := -1;
    }
  }

  /** The list after `updateRequest(id, u)`. */
  function UpdatedList(requests: seq<WithdrawalRequest>, id: string, u: RequestUpdate): (r: seq<WithdrawalRequest>)
    ensures |r| == |requests|
    ensures IndexOfId(requests, id) == -1 ==> r == requests
    ensures forall j :: 0 <= j < |requests| && j != IndexOfId(requests, id) ==> r[j] == requests[j]
    ensures IndexOfId(requests, id) >= 0 ==>
              r[IndexOfId(requests, id)] == Merge(requests[IndexOfId(requests, id)], u)
  {
    var k := IndexOfId(requests, id);
    if k == -1 then requests else requests[k := Merge(requests[k], u)]
  }

  /** Only the first entry holding `id` can change; entries holding other ids never do. */
  lemma UpdateTouchesOnlyFirstMatch(requests: seq<WithdrawalRequest>, id: string, u: RequestUpdate, j: int)
    requires 0 <= j < |requests| && UpdatedList(requests, id, u)[j] != requests[j]
    ensures requests[j].id == id
    ensures forall i :: 0 <= i < j ==> requests[i].id != id
  {
  }

  class RequestStore {
    /** The `withdrawal_requests` entry of local storage: `None` while nothing was ever written. */
    var item: Option<seq<WithdrawalRequest>>

    /** An empty storage. */
    constructor ()
      ensures item == None
    {
      item := None;
    }

    /** What `getAllRequests` reads: the stored list, or the empty list when nothing is stored. */
    function Contents(): seq<WithdrawalRequest>
      reads this
    {
      item.GetOr([])
    }

    /** `getAllRequests`. */
    method GetAllRequests() returns (all: seq<WithdrawalRequest>)
      ensures all == Contents()
      ensures item == None ==> all == []
    {
      all := item.GetOr([]);
    }

    /** `saveRequest`: append, write back, return the request. */
    method SaveRequest(request: WithdrawalRequest) returns (saved: WithdrawalRequest)
      modifies this
      ensures item == Some(old(Contents()) + [request])
      ensures |Contents()| == |old(Contents())| + 1
      ensures Contents()[|Contents()| - 1] == request
      ensures Contents()[..|old(Contents())|] == old(Contents())
      ensures saved == request
    {
      var requests := GetAllRequests();
      requests := requests + [request];
      item := Some(requests);
      saved := request;
    }

    /** `updateRequest`: merge into the first entry with `id` and write back, or report `null`
        and write nothing. */
    method UpdateRequest(id: string, updates: RequestUpdate) returns (updated: Option<WithdrawalRequest>)
      modifies this
      ensures IndexOfId(old(Contents()), id) == -1 ==> item == old(item) && updated == None
      ensures IndexOfId(old(Contents()), id) >= 0 ==>
                item == Some(UpdatedList(old(Contents()), id, updates))
                && updated == Some(Merge(old(Contents())[IndexOfId(old(Contents()), id)], updates))
    {
      var requests := GetAllRequests();
      var index := FindIndexById(requests, id);
      if index != -1 {
        requests := requests[index := Merge(requests[index], updates)];
        item := Some(requests);
        updated := Some(requests[index]);
      } else {
        updated := None;
      }
    }
  }
}
