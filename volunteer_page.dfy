/** The volunteer area, src/app/volunteer/page.tsx: the signed-in volunteer's
    own workshops, listed by a query on `createdBy`, and their deletion. */
module VolunteerPage {
  import opened Common
  import Store
  import RoleGuard

  /** The filter of the listing: workshops created by `uid`. */
  predicate OwnedBy(uid: string, w: Workshop) {
    w.createdBy == uid
  }

  const DeleteError := "Erro ao excluir oficina"

  class VolunteerPage {
    var workshops: seq<Doc<Workshop>>
    var loadingData: bool
    var alerts: seq<string>

    constructor ()
      ensures workshops == [] && loadingData && alerts == []
    {
      workshops := [];
      loadingData := true;
      alerts := [];
    }

    /** `fetchMyWorkshops`: nothing happens without a user; otherwise the
        list becomes the user's own workshops when the query succeeds and
        stays as it was when it throws. */
    method FetchMyWorkshops(db: Store.Backend, user: Option<AuthUser>, queryOk: bool)
      modifies this`workshops, this`loadingData
      ensures user.None? ==> workshops == old(workshops) && loadingData == old(loadingData)
      ensures user.Some? ==> !loadingData
      ensures user.Some? && queryOk ==>
        Store.IsQueryResult(workshops, db.workshops, w => OwnedBy(user.value.uid, w))
      ensures !queryOk ==> workshops == old(workshops)
    {
      if user.None? {
        return;
      }
      var uid := user.value.uid;
      if queryOk {
        workshops := Store.Where(db.workshops, w => OwnedBy(uid, w));
      }
      loadingData := false;
    }

    /** `deleteWorkshop`: after the confirmation, the workshop is deleted and
        its entries leave the local list; a failed delete alerts. */
    method DeleteWorkshop(db: Store.Backend, id: string, confirmed: bool, write: Outcome)
      modifies this`workshops, this`alerts, db`workshops
      ensures db.workshops == if confirmed && write.Done? then old(db.workshops) - {id} else old(db.workshops)
      ensures workshops == if confirmed && write.Done? then Store.FilterOutId(old(workshops), id) else old(workshops)
      ensures alerts == if confirmed && write.Failed? then old(alerts) + [DeleteError] else old(alerts)
    {
      if confirmed {
        var result := db.DeleteWorkshop(id, write);
        if result.Done? {
          workshops := Store.FilterOutId(workshops, id);
        } else {
          alerts := alerts + [DeleteError];
        }
      }
    }
  }

  /** The empty-state message ("Nenhuma oficina cadastrada") shows after a
      successful fetch exactly when the user owns no workshop. */
  lemma EmptyStateIffNoOwnWorkshop(docs: seq<Doc<Workshop>>, coll: map<string, Workshop>, uid: string)
    requires Store.IsQueryResult(docs, coll, w => OwnedBy(uid, w))
    ensures |docs| == 0 <==> forall id :: id in coll ==> coll[id].createdBy != uid
  {
    Store.QueryResultCount(docs, coll, w => OwnedBy(uid, w));
    if |docs| != 0 {
      assert docs[0] in docs;
    }
  }

  /** Deleting one of the listed workshops keeps the list equal to the
      user's own workshops in the store. */
  lemma DeleteKeepsListOwned(docs: seq<Doc<Workshop>>, coll: map<string, Workshop>, uid: string, id: string)
    requires Store.IsQueryResult(docs, coll, w => OwnedBy(uid, w))
    ensures Store.IsQueryResult(Store.FilterOutId(docs, id), coll - {id}, w => OwnedBy(uid, w))
  {
    Store.FilterOutIdAfterDelete(docs, coll, w => OwnedBy(uid, w), id);
  }

  /** The area admits volunteers only: administrators and signed-out viewers
      are sent home once auth has loaded. */
  lemma OnlyVolunteersStay(loading: bool, user: Option<AuthUser>)
    requires !loading
    ensures RoleGuard.OnSessionChange(loading, user, Volunteer) == RoleGuard.RedirectHome <==>
      user.None? || user.value.role == Admin
  {
  }
}
