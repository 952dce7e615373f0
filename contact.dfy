/** The public team page, src/app/contato/page.tsx: every profile whose owner
    chose to appear, fetched once when the page mounts. */
module Contact {
  import opened Common
  import Store

  /** The query's filter: `isVisibleOnContact == true`, and nothing about
      role or lifecycle status. */
  predicate IsListed(p: Profile) {
    p.isVisibleOnContact
  }

  /** The label under each member's name. */
  function RoleLabel(role: Role): (r: string)
    ensures r == "Administrador" <==> role == Admin
    ensures r == "Voluntário" <==> role == Volunteer
  {
    match role
    case Admin => "Administrador"
    case Volunteer => "Voluntário"
  }

  class ContactPage {
    var users: seq<Doc<Profile>>
    var loading: bool

    constructor ()
      ensures users == [] && loading
    {
      users := [];
      loading := true;
    }

    /** `fetchUsers`: the visible profiles when the query succeeds; the list
        is left as it was when it throws. Either way loading ends. */
    method FetchUsers(db: Store.Backend, queryOk: bool)
      modifies this`users, this`loading
      ensures !loading
      ensures queryOk ==> Store.IsQueryResult(users, db.users, IsListed)
      ensures !queryOk ==> users == old(users)
    {
      if queryOk {
        users := Store.Where(db.users, IsListed);
      }
      loading := false;
    }
  }

  /** The empty-state message shows after a successful fetch exactly when no
      profile is visible; a page whose only fetch failed shows it too, since
      its list is still the initial empty one. */
  lemma EmptyStateIffNoneVisible(docs: seq<Doc<Profile>>, coll: map<string, Profile>)
    requires Store.IsQueryResult(docs, coll, IsListed)
    ensures docs == [] <==> forall id :: id in coll ==> !coll[id].isVisibleOnContact
  {
    Store.QueryResultCount(docs, coll, IsListed);
    if docs != [] {
      assert docs[0] in docs;
    }
  }

  /** Status plays no part: a profile is listed whatever its status, so a
      pending or rejected profile that is visible is on the page. */
  lemma ListedWhateverStatus(docs: seq<Doc<Profile>>, coll: map<string, Profile>, id: string)
    requires Store.IsQueryResult(docs, coll, IsListed)
    requires id in coll && coll[id].isVisibleOnContact
    ensures Doc(id, coll[id]) in docs
    ensures forall s :: Store.IsQueryResult(docs, coll[id := coll[id].(status := s)], IsListed) ==>
      Doc(id, coll[id].(status := s)) in docs
  {
  }
}
