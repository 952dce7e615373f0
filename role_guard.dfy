/** The role guard the administrator dashboard (src/app/admin/page.tsx) and
    the volunteer area (src/app/volunteer/page.tsx) share: an effect that
    runs when the session changes, and a render that shows a spinner, nothing,
    or the page. The two pages differ only in the role they admit. */
module RoleGuard {
  import opened Common

  /** What the page's effect does on a change of `user` or `loading`. */
  datatype Effect = Wait | RedirectHome | Fetch

  /** What the page renders. */
  datatype View = Spinner | Blank | Content

  predicate HasRole(user: Option<AuthUser>, role: Role) {
    user.Some? && user.value.role == role
  }

  /** The effect: once auth has loaded, anyone without the role is sent home;
      a viewer with the role has the page's data fetched. */
  function OnSessionChange(loading: bool, user: Option<AuthUser>, role: Role): (e: Effect)
    ensures e == RedirectHome <==> !loading && !HasRole(user, role)
    ensures e == Fetch <==> HasRole(user, role)
    ensures e == Wait <==> loading && !HasRole(user, role)
  {
    if !loading && !HasRole(user, role) then RedirectHome
    else if HasRole(user, role) then Fetch
    else Wait
  }

  /** The render: a spinner while auth or the data is loading, nothing for a
      viewer without the role, the page otherwise. */
  function Render(loading: bool, loadingData: bool, user: Option<AuthUser>, role: Role): (v: View)
    ensures v == Spinner <==> loading || loadingData
    ensures v == Content <==> !loading && !loadingData && HasRole(user, role)
  {
    if loading || loadingData then Spinner
    else if !HasRole(user, role) then Blank
    else Content
  }

  /** A viewer without the role never sees the page, never has its data
      fetched, and is sent home as soon as auth has loaded. */
  lemma OutsiderTurnedAway(loading: bool, loadingData: bool, user: Option<AuthUser>, role: Role)
    requires !HasRole(user, role)
    ensures Render(loading, loadingData, user, role) != Content
    ensures OnSessionChange(loading, user, role) != Fetch
    ensures !loading ==> OnSessionChange(loading, user, role) == RedirectHome
  {
  }

  /** The two pages admit disjoint audiences: no viewer passes both guards. */
  lemma GuardsAreDisjoint(user: Option<AuthUser>)
    ensures !(HasRole(user, Admin) && HasRole(user, Volunteer))
    ensures HasRole(user, Admin) <==> IsAdmin(user)
  {
  }
}
