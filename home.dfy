/** The home page, src/app/page.tsx: every workshop, newest first, fetched
    once when the page mounts. */
module Home {
  import opened Common
  import Store

  class HomePage {
    var workshops: seq<Doc<Workshop>>
    var loading: bool

    constructor ()
      ensures workshops == [] && loading
    {
      workshops := [];
      loading := true;
    }

    /** `fetchWorkshops`: the query orders by `createdAt` descending, so the
        list is every stored workshop, each once, newest first; a failure
        leaves the list as it was. Either way loading ends. */
    method FetchWorkshops(db: Store.Backend, queryOk: bool)
      modifies this`workshops, this`loading
      ensures !loading
      ensures queryOk ==>
        Store.IsQueryResult(workshops, db.workshops, Store.Any) &&
        Store.NewestFirst(workshops, WorkshopCreatedAt)
      ensures !queryOk ==> workshops == old(workshops)
    {
      if queryOk {
        var all := Store.Where(db.workshops, Store.Any);
        Store.SortedQueryResult(all, db.workshops, Store.Any, WorkshopCreatedAt);
        workshops := Store.SortNewestFirst(all, WorkshopCreatedAt);
      }
      loading := false;
    }
  }

  /** After a successful fetch the page lists as many workshops as the store
      holds, and shows the empty-state message exactly when it holds none. */
  lemma ListingMatchesStore(docs: seq<Doc<Workshop>>, coll: map<string, Workshop>)
    requires Store.IsQueryResult(docs, coll, Store.Any)
    ensures |docs| == |coll|
    ensures docs == [] <==> coll == map[]
  {
    Store.QueryResultCount(docs, coll, Store.Any);
    assert Store.MatchingIds(coll, Store.Any) == coll.Keys;
  }
}
