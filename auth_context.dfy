/** The auth context of src/contexts/auth-context.tsx: the `user` and
    `loading` state it exposes, the session-change callback that sets them,
    and `login`/`logout`, which only talk to the identity provider. */
module AuthContext {
  import opened Common
  import Store

  /** The answer of `signInWithEmailAndPassword`. */
  datatype SignIn = SignedIn(session: Session) | SignInFailed(failure: Failure)

  /** The user the callback leaves after a session change: none when signed
      out; the session's uid and email with the profile's role when a profile
      exists; the previous value when the signed-in account has no profile.
      The profile's status plays no part. */
  function NextUser(prev: Option<AuthUser>, session: Option<Session>, users: map<string, Profile>): (r: Option<AuthUser>)
    ensures session.None? ==> r.None?
    ensures session.Some? && session.value.uid in users ==>
      r == Some(AuthUser(session.value.uid, session.value.email, users[session.value.uid].role))
    ensures session.Some? && session.value.uid !in users ==> r == prev
  {
    match session
    case None => None
    case Some(s) => if s.uid in users then Some(AuthUser(s.uid, s.email, users[s.uid].role)) else prev
  }

  /** The gate ignores lifecycle status: rewriting a profile's status, approval
      or rejection fields never changes who is signed in. */
  lemma StatusIsNeverRead(prev: Option<AuthUser>, session: Option<Session>, users: map<string, Profile>,
                          uid: string, status: Option<Status>, approval: Option<Approval>, rejection: Option<Rejection>)
    requires uid in users
    ensures NextUser(prev, session, users[uid := users[uid].(status := status, approval := approval, rejection := rejection)])
            == NextUser(prev, session, users)
  {
  }

  /** A pending or rejected account with a profile is signed in like any other. */
  lemma PendingOrRejectedSignsIn(prev: Option<AuthUser>, s: Session, users: map<string, Profile>)
    requires s.uid in users && (IsPending(users[s.uid]) || IsRejected(users[s.uid]))
    ensures NextUser(prev, Some(s), users).Some?
    ensures NextUser(prev, Some(s), users).value.uid == s.uid
  {
  }

  class AuthProvider {
    var user: Option<AuthUser>
    var loading: bool

    constructor ()
      ensures user == None && loading
    {
      user := None;
      loading := true;
    }

    /** The `onAuthStateChanged` callback, run with the provider's current
        session. `profileReadOk` says whether `getDoc` of the profile
        succeeded; when it throws, the callback stops before updating anything. */
    method OnAuthStateChanged(db: Store.Backend, profileReadOk: bool)
      modifies this
      ensures db.session.Some? && !profileReadOk ==> user == old(user) && loading == old(loading)
      ensures db.session.None? || profileReadOk ==>
        user == NextUser(old(user), db.session, db.users) && !loading
    {
      if db.session.Some? {
        var s := db.session.value;
        if !profileReadOk {
          return;
        }
        if s.uid in db.users {
          var profile := db.users[s.uid];
          user := Some(AuthUser(s.uid, s.email, profile.role));
        }
      } else {
        user := None;
      }
      loading := false;
    }

    /** `login`: asks the provider to sign in; `user` changes only through the
        session-change callback. */
    method Login(db: Store.Backend, answer: SignIn) returns (result: Outcome)
      modifies db`session
      ensures answer.SignedIn? ==> db.session == Some(answer.session) && result == Done
      ensures answer.SignInFailed? ==> db.session == old(db.session) && result == Failed(answer.failure)
      ensures user == old(user) && loading == old(loading)
    {
      match answer
      case SignedIn(s) =>
        db.session := Some(s);
        result := Done;
      case SignInFailed(f) =>
        result := Failed(f);
    }

    /** `logout`: ends the provider's session and nothing else. */
    method Logout(db: Store.Backend)
      modifies db`session
      ensures db.session == None
      ensures user == old(user) && loading == old(loading)
    {
      db.session := None;
    }
  }
}
