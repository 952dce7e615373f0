/** The backend every page talks to: the document store's two collections,
    the identity provider's accounts and its current session, and the query
    operations the pages run against them (`getDocs` of a `where` query,
    `Array.prototype.filter` on an id, and the newest-first sort). */
module Store {
  import opened Common

  /** The external state: Firestore's "users" and "workshops" collections, the
      credentials the identity provider holds (uid to sign-up email) and the
      provider's current session. */
  class Backend {
    var users: map<string, Profile>
    var workshops: map<string, Workshop>
    var accounts: map<string, string>
    var session: Option<Session>

    constructor (users: map<string, Profile>, workshops: map<string, Workshop>)
      ensures this.users == users && this.workshops == workshops
      ensures accounts == map[] && session == None
    {
      this.users := users;
      this.workshops := workshops;
      accounts := map[];
      session := None;
    }

    /** The two steps every account-creation form performs: the identity
        provider creates a credential, then the profile is written with
        `setDoc` under the new uid. A failure of the second step leaves the
        credential without a profile. */
    method CreateAccount(email: string, signUp: SignUp, write: Outcome, profile: Profile)
      returns (result: Outcome)
      modifies this`accounts, this`users
      ensures signUp.SignUpFailed? ==>
        result == Failed(signUp.failure) && accounts == old(accounts) && users == old(users)
      ensures signUp.Created? ==>
        accounts == old(accounts)[signUp.uid := email] && result == write &&
        users == (if write.Done? then old(users)[signUp.uid := profile] else old(users))
    {
      match signUp
      case SignUpFailed(f) =>
        result := Failed(f);
      case Created(uid) =>
        accounts := accounts[uid := email];
        result := write;
        if write.Done? {
          users := users[uid := profile];
        }
    }

    /** `updateDoc` on "users": merges `patch` into the stored document. It
        fails when the document does not exist, as Firestore's update does,
        or when the store refuses the write. */
    method UpdateUser(id: string, write: Outcome, patch: Profile -> Profile) returns (result: Outcome)
      modifies this`users
      ensures result.Done? <==> id in old(users) && write.Done?
      ensures result.Done? ==> users == old(users)[id := patch(old(users)[id])]
      ensures result.Failed? ==> users == old(users)
    {
      if id !in users {
        result := Failed(Failure("not-found", "No document to update"));
      } else {
        result := write;
        if write.Done? {
          users := users[id := patch(users[id])];
        }
      }
    }

    /** `deleteDoc` on "users": succeeds whether or not the document exists. */
    method DeleteUser(id: string, write: Outcome) returns (result: Outcome)
      modifies this`users
      ensures result == write
      ensures users == if write.Done? then old(users) - {id} else old(users)
    {
      result := write;
      if write.Done? {
        users := users - {id};
      }
    }

    /** `deleteDoc` on "workshops". */
    method DeleteWorkshop(id: string, write: Outcome) returns (result: Outcome)
      modifies this`workshops
      ensures result == write
      ensures workshops == if write.Done? then old(workshops) - {id} else old(workshops)
    {
      result := write;
      if write.Done? {
        workshops := workshops - {id};
      }
    }

    /** `addDoc` on "workshops": stores `w` under the id the store generated. */
    method AddWorkshop(id: string, w: Workshop, write: Outcome) returns (result: Outcome)
      modifies this`workshops
      ensures result == write
      ensures workshops == if write.Done? then old(workshops)[id := w] else old(workshops)
    {
      result := write;
      if write.Done? {
        workshops := workshops[id := w];
      }
    }
  }

  /** The ids of a list of documents. */
  function IdsOf<T(==,!new)>(docs: seq<Doc<T>>): set<string> {
    set d | d in docs :: d.id
  }

  /** `docs` is what `getDocs` returns for a query over `coll` whose filter is
      `keep`: every document that passes, with its stored data, each once. */
  ghost predicate IsQueryResult<T(!new)>(docs: seq<Doc<T>>, coll: map<string, T>, keep: T -> bool) {
    && (forall d :: d in docs ==> d.id in coll && coll[d.id] == d.data && keep(d.data))
    && (forall id :: id in coll && keep(coll[id]) ==> Doc(id, coll[id]) in docs)
    && |IdsOf(docs)| == |docs|
  }

  /** Any reordering of a query result is a query result of the same query. */
  lemma QueryResultReordered<T(!new)>(a: seq<Doc<T>>, b: seq<Doc<T>>, coll: map<string, T>, keep: T -> bool)
    requires IsQueryResult(a, coll, keep) && multiset(a) == multiset(b)
    ensures IsQueryResult(b, coll, keep)
  {
    assert forall d :: d in a <==> d in b by {
      forall d ensures d in a <==> d in b {
        assert d in a <==> d in multiset(a);
        assert d in b <==> d in multiset(b);
      }
    }
    assert IdsOf(a) == IdsOf(b);
    assert |a| == |multiset(a)| == |multiset(b)| == |b|;
  }

  /** `getDocs(query(collection, where(...)))`: the documents of `coll` that
      pass `keep`, in an order the store chooses. */
  method Where<T(==,!new)>(coll: map<string, T>, keep: T -> bool) returns (docs: seq<Doc<T>>)
    ensures IsQueryResult(docs, coll, keep)
  {
    docs := [];
    var todo := coll.Keys;
    while todo != {}
      invariant todo <= coll.Keys
      invariant forall d :: d in docs ==> d.id in coll && d.id !in todo && coll[d.id] == d.data && keep(d.data)
      invariant forall id :: id in coll && id !in todo && keep(coll[id]) ==> Doc(id, coll[id]) in docs
      invariant |IdsOf(docs)| == |docs|
      decreases |todo|
    {
      var id :| id in todo;
      if keep(coll[id]) {
        var d := Doc(id, coll[id]);
        assert IdsOf(docs + [d]) == IdsOf(docs) + {id};
        docs := docs + [d];
      }
      todo := todo - {id};
    }
  }

  /** `b` keeps the elements of `a`, in their order, possibly with others between. */
  predicate IsSubsequence<T(==)>(a: seq<T>, b: seq<T>) {
    if a == [] then true
    else if b == [] then false
    else (a[0] == b[0] && IsSubsequence(a[1..], b[1..])) || IsSubsequence(a, b[1..])
  }

  /** `docs.filter((d) => d.id !== id)`: exactly the documents with another id,
      in their original order. */
  function FilterOutId<T(==,!new)>(docs: seq<Doc<T>>, id: string): (r: seq<Doc<T>>)
    ensures forall d :: d in r <==> d in docs && d.id != id
    ensures forall d :: multiset(r)[d] == if d.id == id then 0 else multiset(docs)[d]
    ensures IsSubsequence(r, docs)
    ensures (forall d :: d in docs ==> d.id != id) ==> r == docs
  {
    if docs == [] then []
    else if docs[0].id == id then
      assert docs == [docs[0]] + docs[1..];
      FilterOutId(docs[1..], id)
    else
      var rest := FilterOutId(docs[1..], id);
      assert ([docs[0]] + rest)[1..] == rest;
      assert docs == [docs[0]] + docs[1..];
      [docs[0]] + rest
  }

  /** Every document's `createdAt` is at least that of the ones after it. */
  predicate NewestFirst<T(==,!new)>(docs: seq<Doc<T>>, createdAt: T -> int) {
    forall i, j :: 0 <= i < j < |docs| ==> createdAt(docs[j].data) <= createdAt(docs[i].data)
  }

  /** A document at least as new as every document of a newest-first list
      can be put in front of it. */
  lemma NewestFirstCons<T(!new)>(x: Doc<T>, docs: seq<Doc<T>>, createdAt: T -> int)
    requires NewestFirst(docs, createdAt)
    requires forall y :: y in docs ==> createdAt(y.data) <= createdAt(x.data)
    ensures NewestFirst([x] + docs, createdAt)
  {
    var r := [x] + docs;
    forall i, j | 0 <= i < j < |r| ensures createdAt(r[j].data) <= createdAt(r[i].data) {
      assert r[j] == docs[j - 1];
      if i > 0 {
        assert r[i] == docs[i - 1];
      }
    }
  }

  /** The head of a newest-first list is at least as new as every document
      of the list, and its tail is newest first too. */
  lemma NewestFirstHead<T(!new)>(docs: seq<Doc<T>>, createdAt: T -> int)
    requires docs != [] && NewestFirst(docs, createdAt)
    ensures forall y :: y in docs ==> createdAt(y.data) <= createdAt(docs[0].data)
    ensures NewestFirst(docs[1..], createdAt)
  {
    forall y | y in docs ensures createdAt(y.data) <= createdAt(docs[0].data) {
      var k :| 0 <= k < |docs| && docs[k] == y;
    }
  }

  /** Places `d` before the first document that is not newer than it. */
  function InsertNewestFirst<T(==,!new)>(d: Doc<T>, docs: seq<Doc<T>>, createdAt: T -> int): (r: seq<Doc<T>>)
    requires NewestFirst(docs, createdAt)
    ensures NewestFirst(r, createdAt)
    ensures multiset(r) == multiset(docs) + multiset{d}
    ensures forall x :: x in r ==> x == d || x in docs
  {
    if docs == [] || createdAt(docs[0].data) <= createdAt(d.data) then
      InsertInFront(d, docs, createdAt);
      [d] + docs
    else
      var rest := InsertNewestFirst(d, docs[1..], createdAt);
      InsertBehindHead(d, docs, rest, createdAt);
      [docs[0]] + rest
  }

  /** `d` in front of a newest-first list whose head is not newer than it. */
  lemma InsertInFront<T(!new)>(d: Doc<T>, docs: seq<Doc<T>>, createdAt: T -> int)
    requires NewestFirst(docs, createdAt)
    requires docs == [] || createdAt(docs[0].data) <= createdAt(d.data)
    ensures NewestFirst([d] + docs, createdAt)
    ensures multiset([d] + docs) == multiset(docs) + multiset{d}
    ensures forall x :: x in [d] + docs ==> x == d || x in docs
  {
    if docs != [] {
      NewestFirstHead(docs, createdAt);
    }
    NewestFirstCons(d, docs, createdAt);
  }

  /** The head of a newest-first list that is newer than `d`, in front of
      `rest`, the tail with `d` inserted. */
  lemma InsertBehindHead<T(!new)>(d: Doc<T>, docs: seq<Doc<T>>, rest: seq<Doc<T>>, createdAt: T -> int)
    requires docs != [] && NewestFirst(docs, createdAt)
    requires createdAt(d.data) < createdAt(docs[0].data)
    requires NewestFirst(rest, createdAt)
    requires multiset(rest) == multiset(docs[1..]) + multiset{d}
    requires forall x :: x in rest ==> x == d || x in docs[1..]
    ensures NewestFirst([docs[0]] + rest, createdAt)
    ensures multiset([docs[0]] + rest) == multiset(docs) + multiset{d}
    ensures forall x :: x in [docs[0]] + rest ==> x == d || x in docs
  {
    assert docs == [docs[0]] + docs[1..];
    NewestFirstHead(docs, createdAt);
    NewestFirstCons(docs[0], rest, createdAt);
  }

  /** `docs.sort((a, b) => b.createdAt - a.createdAt)`: the same documents,
      newest first. */
  function SortNewestFirst<T(==,!new)>(docs: seq<Doc<T>>, createdAt: T -> int): (r: seq<Doc<T>>)
    ensures NewestFirst(r, createdAt)
    ensures multiset(r) == multiset(docs)
  {
    if docs == [] then []
    else
      assert docs == [docs[0]] + docs[1..];
      InsertNewestFirst(docs[0], SortNewestFirst(docs[1..], createdAt), createdAt)
  }

  /** A query result sorted newest first is still exactly that query's result. */
  lemma SortedQueryResult<T(!new)>(docs: seq<Doc<T>>, coll: map<string, T>, keep: T -> bool, createdAt: T -> int)
    requires IsQueryResult(docs, coll, keep)
    ensures IsQueryResult(SortNewestFirst(docs, createdAt), coll, keep)
    ensures NewestFirst(SortNewestFirst(docs, createdAt), createdAt)
  {
    QueryResultReordered(docs, SortNewestFirst(docs, createdAt), coll, keep);
  }

  /** The filter of a query that lists a whole collection. */
  predicate Any<T>(x: T) { true }

  /** The ids of the documents of `coll` that pass `keep`. */
  function MatchingIds<T(!new)>(coll: map<string, T>, keep: T -> bool): (r: set<string>)
    ensures forall id :: id in r <==> id in coll && keep(coll[id])
  {
    set id | id in coll && keep(coll[id])
  }

  /** A query result names each matching document once, so its length is the
      number of matching documents and it is empty exactly when none match. */
  lemma QueryResultCount<T(!new)>(docs: seq<Doc<T>>, coll: map<string, T>, keep: T -> bool)
    requires IsQueryResult(docs, coll, keep)
    ensures IdsOf(docs) == MatchingIds(coll, keep)
    ensures |docs| == |MatchingIds(coll, keep)|
    ensures docs == [] <==> MatchingIds(coll, keep) == {}
  {
    forall id | id in MatchingIds(coll, keep) ensures id in IdsOf(docs) {
      assert Doc(id, coll[id]) in docs;
    }
  }

  /** A list whose ids are all different loses that property on no suffix,
      and its head's id does not come back later. */
  lemma DistinctIdsTail<T(!new)>(docs: seq<Doc<T>>)
    requires docs != [] && |IdsOf(docs)| == |docs|
    ensures docs[0].id !in IdsOf(docs[1..])
    ensures |IdsOf(docs[1..])| == |docs[1..]|
  {
    var tail := docs[1..];
    assert docs == [docs[0]] + tail;
    assert IdsOf(docs) == IdsOf(tail) + {docs[0].id};
    IdsBound(tail);
  }

  /** A list never has more ids than documents. */
  lemma {:induction false} IdsBound<T(!new)>(docs: seq<Doc<T>>)
    ensures |IdsOf(docs)| <= |docs|
  {
    if docs != [] {
      var tail := docs[1..];
      assert docs == [docs[0]] + tail;
      assert IdsOf(docs) == IdsOf(tail) + {docs[0].id};
      IdsBound(tail);
    }
  }

  /** Dropping the documents with one id keeps the remaining ids all different. */
  lemma {:induction false} FilterOutIdDistinct<T(!new)>(docs: seq<Doc<T>>, id: string)
    requires |IdsOf(docs)| == |docs|
    ensures |IdsOf(FilterOutId(docs, id))| == |FilterOutId(docs, id)|
  {
    if docs != [] {
      DistinctIdsTail(docs);
      FilterOutIdDistinct(docs[1..], id);
      if docs[0].id != id {
        var rest := FilterOutId(docs[1..], id);
        assert docs[0].id !in IdsOf(rest);
        IdsOfCons(docs[0], rest);
      }
    }
  }

  /** The ids of a list with one more document in front. */
  lemma IdsOfCons<T(!new)>(x: Doc<T>, docs: seq<Doc<T>>)
    ensures IdsOf([x] + docs) == IdsOf(docs) + {x.id}
  {
  }

  /** After the document `id` is deleted from the store, the list with that id
      filtered out is exactly the result the same query would now return: the
      local list a page keeps stays in step with the store. */
  lemma FilterOutIdAfterDelete<T(!new)>(docs: seq<Doc<T>>, coll: map<string, T>, keep: T -> bool, id: string)
    requires IsQueryResult(docs, coll, keep)
    ensures IsQueryResult(FilterOutId(docs, id), coll - {id}, keep)
  {
    FilterOutIdDistinct(docs, id);
  }
}
