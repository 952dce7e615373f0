/** Direct account creation by an administrator,
    src/app/admin/users/new/page.tsx: the role guard, and a profile that
    copies the form as typed, with no status. */
module AdminUsersNew {
  import opened Common
  import Store

  datatype NewUserForm = NewUserForm(
    name: string,
    email: string,
    password: string,
    course: string,
    photo: string,
    role: Role,
    isVisibleOnContact: bool)

  const DefaultError := "Erro ao criar usuário"

  /** Where the page sends its viewer once the session is known: home, unless
      the viewer is a signed-in administrator. While auth is loading it stays. */
  function Redirect(authLoading: bool, user: Option<AuthUser>): (r: Option<string>)
    ensures r.Some? <==> !authLoading && !IsAdmin(user)
    ensures r.Some? ==> r.value == "/"
  {
    if !authLoading && !IsAdmin(user) then Some("/") else None
  }

  /** The document written for an account an administrator creates: the form
      as typed (nothing trimmed), the role and visibility chosen, no status. */
  function DirectProfile(f: NewUserForm, createdAt: int): (p: Profile)
    ensures p.name == f.name && p.email == f.email && p.course == f.course && p.photo == f.photo
    ensures p.role == f.role && p.isVisibleOnContact == f.isVisibleOnContact && p.createdAt == createdAt
    ensures p.status.None? && p.approval.None? && p.rejection.None?
  {
    Profile(f.name, f.email, f.course, f.photo, f.role, f.isVisibleOnContact, createdAt, None, None, None)
  }

  /** `error.message || "Erro ao criar usuário"`. */
  function ErrorMessage(e: Failure): (r: string)
    ensures r != ""
    ensures e.message != "" ==> r == e.message
    ensures e.message == "" ==> r == DefaultError
  {
    if e.message != "" then e.message else DefaultError
  }

  class NewUserPage {
    var form: NewUserForm
    var submitting: bool
    var error: string
    var redirect: Option<string>

    constructor ()
      ensures form == NewUserForm("", "", "", "", "", Volunteer, false)
      ensures !submitting && error == "" && redirect == None
    {
      form := NewUserForm("", "", "", "", "", Volunteer, false);
      submitting := false;
      error := "";
      redirect := None;
    }

    /** `handleSubmit` as seen by `user`: only an administrator gets past the
        guard; the provider's answer and the write's outcome are inputs. */
    method HandleSubmit(user: Option<AuthUser>, db: Store.Backend, signUp: SignUp, write: Outcome, now: int)
      modifies this`submitting, this`error, this`redirect, db`accounts, db`users
      ensures form == old(form)
      ensures !IsAdmin(user) ==>
        submitting == old(submitting) && error == old(error) && redirect == old(redirect) &&
        db.accounts == old(db.accounts) && db.users == old(db.users)
      ensures IsAdmin(user) ==> !submitting
      ensures IsAdmin(user) && signUp.SignUpFailed? ==>
        error == ErrorMessage(signUp.failure) && redirect == old(redirect) &&
        db.accounts == old(db.accounts) && db.users == old(db.users)
      ensures IsAdmin(user) && signUp.Created? ==>
        db.accounts == old(db.accounts)[signUp.uid := form.email] &&
        (write.Done? ==>
          db.users == old(db.users)[signUp.uid := DirectProfile(form, now)] &&
          error == "" && redirect == Some("/admin")) &&
        (write.Failed? ==>
          db.users == old(db.users) && error == ErrorMessage(write.failure) && redirect == old(redirect))
    {
      if !IsAdmin(user) {
        return;
      }
      submitting := true;
      error := "";
      var result := db.CreateAccount(form.email, signUp, write, DirectProfile(form, now));
      if result.Failed? {
        error := ErrorMessage(result.failure);
      } else {
        redirect := Some("/admin");
      }
      submitting := false;
    }
  }
}
