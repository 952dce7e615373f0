/** The administrator's request queue, src/app/admin/volunteer-requests/page.tsx:
    the pending and rejected lists, newest first, and the approve, reject and
    delete actions on profiles. */
module VolunteerRequests {
  import opened Common
  import opened Text
  import Store

  /** What the two confirmation dialogs decide: `None` when both are
      cancelled (no approval), otherwise the visibility on the contact page. */
  function ApprovalDecision(first: bool, second: bool): (r: Option<bool>)
    ensures r.None? <==> !first && !second
    ensures r == Some(true) <==> first
    ensures r == Some(false) <==> !first && second
  {
    if first then Some(true) else if second then Some(false) else None
  }

  /** The fields `approveUser` merges into the stored profile. */
  function WithApproval(p: Profile, visible: bool, at: int, approver: string): (q: Profile)
    ensures IsActive(q) && !IsPending(q) && !IsRejected(q)
    ensures q.isVisibleOnContact == visible && q.approval == Some(Approval(at, approver))
    ensures q.(status := p.status, isVisibleOnContact := p.isVisibleOnContact, approval := p.approval) == p
  {
    p.(status := Some(Active), isVisibleOnContact := visible, approval := Some(Approval(at, approver)))
  }

  /** The reason a rejection records: the trimmed text, or `None` when it is
      blank and the rejection must not proceed. */
  function RejectionReason(text: string): (r: Option<string>)
    ensures r.None? <==> IsBlank(text)
    ensures r.Some? ==> r.value == Trim(text) && r.value != "" && Trim(r.value) == r.value
  {
    TrimIdempotent(text);
    if Trim(text) == "" then None else Some(Trim(text))
  }

  /** The fields `rejectUser` merges into the stored profile. */
  function WithRejection(p: Profile, at: int, rejecter: string, reason: string): (q: Profile)
    ensures IsRejected(q) && !IsPending(q) && !IsActive(q)
    ensures q.rejection == Some(Rejection(at, rejecter, reason))
    ensures q.(status := p.status, rejection := p.rejection) == p
  {
    p.(status := Some(Rejected), rejection := Some(Rejection(at, rejecter, reason)))
  }

  class VolunteerRequestsPage {
    var pendingUsers: seq<Doc<Profile>>
    var processedUsers: seq<Doc<Profile>>
    var loadingData: bool
    var processingId: Option<string>
    var rejectionReason: string
    var showRejectionForm: Option<string>

    constructor ()
      ensures pendingUsers == [] && processedUsers == [] && loadingData
      ensures processingId == None && rejectionReason == "" && showRejectionForm == None
    {
      pendingUsers := [];
      processedUsers := [];
      loadingData := true;
      processingId := None;
      rejectionReason := "";
      showRejectionForm := None;
    }

    /** The two lists are what the page's queries return on `users`: the
        pending and the rejected profiles, each newest first. */
    ghost predicate ListsMatch(users: map<string, Profile>)
      reads this
    {
      && Store.IsQueryResult(pendingUsers, users, IsPending)
      && Store.NewestFirst(pendingUsers, ProfileCreatedAt)
      && Store.IsQueryResult(processedUsers, users, IsRejected)
      && Store.NewestFirst(processedUsers, ProfileCreatedAt)
    }

    /** `fetchUsers`: both lists are replaced only when both queries succeed. */
    method FetchUsers(db: Store.Backend, queryOk: bool)
      modifies this`pendingUsers, this`processedUsers, this`loadingData
      ensures !loadingData
      ensures queryOk ==> ListsMatch(db.users)
      ensures !queryOk ==> pendingUsers == old(pendingUsers) && processedUsers == old(processedUsers)
    {
      if queryOk {
        var pending := Store.Where(db.users, IsPending);
        var rejected := Store.Where(db.users, IsRejected);
        Store.SortedQueryResult(pending, db.users, IsPending, ProfileCreatedAt);
        Store.SortedQueryResult(rejected, db.users, IsRejected, ProfileCreatedAt);
        pendingUsers := Store.SortNewestFirst(pending, ProfileCreatedAt);
        processedUsers := Store.SortNewestFirst(rejected, ProfileCreatedAt);
      }
      loadingData := false;
    }

    /** `approveUser` for the listed `target`, with the two dialog answers, the
        acting user, the time and the store's answer to the update as inputs;
        after a successful update the lists are fetched again. */
    method ApproveUser(db: Store.Backend, actor: Option<AuthUser>, target: Doc<Profile>,
                       first: bool, second: bool, now: int, write: Outcome, refetchOk: bool)
      modifies this`pendingUsers, this`processedUsers, this`loadingData, this`processingId, db`users
      ensures processingId == None
      ensures ApprovalDecision(first, second).None? ==>
        db.users == old(db.users) && pendingUsers == old(pendingUsers) && processedUsers == old(processedUsers)
      ensures ApprovalDecision(first, second).Some? && target.id in old(db.users) && actor.Some? && write.Done? ==>
        db.users == old(db.users)[target.id := WithApproval(old(db.users)[target.id], first, now, actor.value.uid)]
      ensures !(target.id in old(db.users) && actor.Some? && write.Done?) ==> db.users == old(db.users)
      ensures ApprovalDecision(first, second).Some? && target.id in old(db.users) && actor.Some? && write.Done? ==>
        !loadingData &&
        (refetchOk ==> ListsMatch(db.users)) &&
        (!refetchOk ==> pendingUsers == old(pendingUsers) && processedUsers == old(processedUsers))
      ensures !(ApprovalDecision(first, second).Some? && target.id in old(db.users) && actor.Some? && write.Done?) ==>
        pendingUsers == old(pendingUsers) && processedUsers == old(processedUsers) && loadingData == old(loadingData)
    {
      processingId := Some(target.id);
      var decision := ApprovalDecision(first, second);
      if decision.None? {
        processingId := None;
        return;
      }
      // `approvedBy: user?.uid` is `undefined` without a signed-in user, and
      // Firestore refuses a field whose value is `undefined`.
      var updated := false;
      if actor.Some? {
        var approver := actor.value.uid;
        var result := db.UpdateUser(target.id, write, p => WithApproval(p, first, now, approver));
        updated := result.Done?;
      }
      if updated {
        FetchUsers(db, refetchOk);
      }
      processingId := None;
    }

    /** `rejectUser` for `target` with the reason typed so far. A blank reason
        stops before anything changes; a successful update clears the reason,
        closes the form and fetches the lists again. */
    method RejectUser(db: Store.Backend, actor: Option<AuthUser>, target: Doc<Profile>,
                      now: int, write: Outcome, refetchOk: bool)
      modifies this`pendingUsers, this`processedUsers, this`loadingData, this`processingId
      modifies this`rejectionReason, this`showRejectionForm, db`users
      ensures IsBlank(old(rejectionReason)) ==>
        db.users == old(db.users) && processingId == old(processingId) &&
        rejectionReason == old(rejectionReason) && showRejectionForm == old(showRejectionForm)
      ensures !IsBlank(old(rejectionReason)) ==> processingId == None
      ensures !IsBlank(old(rejectionReason)) && target.id in old(db.users) && actor.Some? && write.Done? ==>
        && db.users == old(db.users)[target.id := WithRejection(old(db.users)[target.id], now, actor.value.uid, Trim(old(rejectionReason)))]
        && rejectionReason == "" && showRejectionForm == None
      ensures !(target.id in old(db.users) && actor.Some? && write.Done?) ==>
        db.users == old(db.users) && rejectionReason == old(rejectionReason) && showRejectionForm == old(showRejectionForm)
      ensures !IsBlank(old(rejectionReason)) && target.id in old(db.users) && actor.Some? && write.Done? ==>
        !loadingData &&
        (refetchOk ==> ListsMatch(db.users)) &&
        (!refetchOk ==> pendingUsers == old(pendingUsers) && processedUsers == old(processedUsers))
      ensures !(!IsBlank(old(rejectionReason)) && target.id in old(db.users) && actor.Some? && write.Done?) ==>
        pendingUsers == old(pendingUsers) && processedUsers == old(processedUsers) && loadingData == old(loadingData)
    {
      var reason := RejectionReason(rejectionReason);
      if reason.None? {
        return;
      }
      Reject(db, actor, target, now, reason.value, write, refetchOk);
    }

    /** The steps of `rejectUser` once the reason is known not to be blank:
        the update, and after a successful one the cleared form and the
        fetched lists. */
    method Reject(db: Store.Backend, actor: Option<AuthUser>, target: Doc<Profile>,
                  now: int, reason: string, write: Outcome, refetchOk: bool)
      modifies this`pendingUsers, this`processedUsers, this`loadingData, this`processingId
      modifies this`rejectionReason, this`showRejectionForm, db`users
      ensures processingId == None
      ensures target.id in old(db.users) && actor.Some? && write.Done? ==>
        && db.users == old(db.users)[target.id := WithRejection(old(db.users)[target.id], now, actor.value.uid, reason)]
        && rejectionReason == "" && showRejectionForm == None
      ensures !(target.id in old(db.users) && actor.Some? && write.Done?) ==>
        db.users == old(db.users) && rejectionReason == old(rejectionReason) && showRejectionForm == old(showRejectionForm)
      ensures target.id in old(db.users) && actor.Some? && write.Done? ==>
        !loadingData &&
        (refetchOk ==> ListsMatch(db.users)) &&
        (!refetchOk ==> pendingUsers == old(pendingUsers) && processedUsers == old(processedUsers))
      ensures !(target.id in old(db.users) && actor.Some? && write.Done?) ==>
        pendingUsers == old(pendingUsers) && processedUsers == old(processedUsers) && loadingData == old(loadingData)
    {
      processingId := Some(target.id);
      var updated := StoreRejection(db, actor, target, now, reason, write);
      if updated {
        rejectionReason := "";
        showRejectionForm := None;
        FetchUsers(db, refetchOk);
      }
      processingId := None;
    }

    /** The update `rejectUser` sends: the rejection fields with `reason`,
        written only when someone is signed in (`rejectedBy: user?.uid` would
        otherwise be `undefined`, which Firestore refuses). */
    method StoreRejection(db: Store.Backend, actor: Option<AuthUser>, target: Doc<Profile>,
                          now: int, reason: string, write: Outcome) returns (updated: bool)
      modifies db`users
      ensures updated <==> target.id in old(db.users) && actor.Some? && write.Done?
      ensures updated ==>
        db.users == old(db.users)[target.id := WithRejection(old(db.users)[target.id], now, actor.value.uid, reason)]
      ensures !updated ==> db.users == old(db.users)
    {
      updated := false;
      if actor.Some? {
        var rejecter := actor.value.uid;
        var result := db.UpdateUser(target.id, write, p => WithRejection(p, now, rejecter, reason));
        updated := result.Done?;
      }
    }

    /** `deleteUser`: after the confirmation, the profile document is deleted
        and the lists are fetched again. */
    method DeleteUser(db: Store.Backend, id: string, confirmed: bool, write: Outcome, refetchOk: bool)
      modifies this`pendingUsers, this`processedUsers, this`loadingData, db`users
      ensures db.users == if confirmed && write.Done? then old(db.users) - {id} else old(db.users)
      ensures !(confirmed && write.Done?) ==>
        pendingUsers == old(pendingUsers) && processedUsers == old(processedUsers) && loadingData == old(loadingData)
      ensures confirmed && write.Done? ==>
        !loadingData &&
        (refetchOk ==> ListsMatch(db.users)) &&
        (!refetchOk ==> pendingUsers == old(pendingUsers) && processedUsers == old(processedUsers))
    {
      if confirmed {
        var result := db.DeleteUser(id, write);
        if result.Done? {
          FetchUsers(db, refetchOk);
        }
      }
    }
  }
}
