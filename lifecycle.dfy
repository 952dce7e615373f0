/** How the pages act together on one account and one workshop: what a
    self-registered volunteer can do before any administrator acts, what an
    approval changes on the team page, and where a new workshop shows up. */
module Lifecycle {
  import opened Common
  import Store
  import Register
  import AuthContext
  import RoleGuard
  import VolunteerRequests
  import Contact
  import NewWorkshop
  import VolunteerPage

  /** After registration the new profile is in none of the status queries:
      the administrator's request queue, its rejected list and the
      dashboard's active list all leave it out. */
  lemma RegistrantInNoStatusQuery(users: map<string, Profile>, uid: string, f: Register.RegisterForm, now: int,
                                  docs: seq<Doc<Profile>>, status: Status)
    requires Store.IsQueryResult(docs, users[uid := Register.VolunteerProfile(f, now)], (p: Profile) => p.status == Some(status))
    ensures forall d :: d in docs ==> d.id != uid
  {
    Register.RegistrantIsNeitherPendingNorActive(f, now);
  }

  /** A self-registered volunteer who signs in is a signed-in volunteer at
      once and passes the volunteer area's guard; no approval is needed. */
  lemma RegistrantEntersVolunteerArea(prev: Option<AuthUser>, users: map<string, Profile>, s: Session,
                                      f: Register.RegisterForm, now: int, loadingData: bool)
    ensures var user := AuthContext.NextUser(prev, Some(s), users[s.uid := Register.VolunteerProfile(f, now)]);
      && user == Some(AuthUser(s.uid, s.email, Volunteer))
      && RoleGuard.OnSessionChange(false, user, Volunteer) == RoleGuard.Fetch
      && (!loadingData ==> RoleGuard.Render(false, loadingData, user, Volunteer) == RoleGuard.Content)
  {
  }

  /** A registrant who ticked visibility is on the team page before any
      administrator has acted. */
  lemma VisibleRegistrantListed(users: map<string, Profile>, uid: string, f: Register.RegisterForm, now: int,
                                docs: seq<Doc<Profile>>)
    requires f.isVisibleOnContact
    requires Store.IsQueryResult(docs, users[uid := Register.VolunteerProfile(f, now)], Contact.IsListed)
    ensures Doc(uid, Register.VolunteerProfile(f, now)) in docs
  {
    var coll := users[uid := Register.VolunteerProfile(f, now)];
    assert Contact.IsListed(coll[uid]);
  }

  /** Approval decides the team page: the first confirmation lists the
      profile, declining it and accepting the second hides it. */
  lemma ApprovalDecidesTeamPage(p: Profile, first: bool, second: bool, at: int, approver: string)
    requires VolunteerRequests.ApprovalDecision(first, second).Some?
    ensures Contact.IsListed(VolunteerRequests.WithApproval(p, first, at, approver)) <==> first
  {
  }

  /** A workshop a user creates is in that user's volunteer listing at the
      next fetch. */
  lemma CreatedWorkshopListedForOwner(coll: map<string, Workshop>, id: string, data: WorkshopData, now: int,
                                      uid: string, docs: seq<Doc<Workshop>>)
    requires Store.IsQueryResult(docs, coll[id := NewWorkshop.WorkshopRecord(data, now, uid)],
                                 w => VolunteerPage.OwnedBy(uid, w))
    ensures Doc(id, NewWorkshop.WorkshopRecord(data, now, uid)) in docs
  {
    var coll' := coll[id := NewWorkshop.WorkshopRecord(data, now, uid)];
    assert VolunteerPage.OwnedBy(uid, coll'[id]);
  }
}
