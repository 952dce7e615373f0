/** First-administrator setup, src/app/setup-admin/page.tsx: the same chain
    as self-registration without the course requirement, an administrator
    record, and a smaller error-code table. */
module SetupAdmin {
  import opened Common
  import opened Text
  import Store
  import Register

  datatype SetupForm = SetupForm(
    name: string,
    email: string,
    password: string,
    confirmPassword: string,
    course: string)

  const DefaultName := "Administrador ELLP"
  const DefaultCourse := "Administração do Sistema"

  const KnownCodes: set<string> := {"auth/email-already-in-use", "auth/weak-password", "auth/invalid-email"}

  /** The checks in their order: mismatch, length, then blank name or email. */
  function Validate(f: SetupForm): (r: Option<string>)
    ensures r.None? <==>
      f.password == f.confirmPassword && |f.password| >= 6 && !IsBlank(f.name) && !IsBlank(f.email)
    ensures f.password != f.confirmPassword ==> r == Some(Register.MismatchError)
    ensures f.password == f.confirmPassword && |f.password| < 6 ==> r == Some(Register.LengthError)
    ensures f.password == f.confirmPassword && |f.password| >= 6 && r.Some? ==> r == Some(Register.RequiredError)
  {
    if f.password != f.confirmPassword then Some(Register.MismatchError)
    else if |f.password| < 6 then Some(Register.LengthError)
    else if Trim(f.name) == "" || Trim(f.email) == "" then Some(Register.RequiredError)
    else None
  }

  /** The course is not required here, unlike on the registration form. */
  lemma BlankCourseAccepted(f: SetupForm)
    requires f.password == f.confirmPassword && |f.password| >= 6
    requires !IsBlank(f.name) && !IsBlank(f.email) && IsBlank(f.course)
    ensures Validate(f).None?
    ensures Register.Validate(Register.RegisterForm(f.name, f.email, f.password, f.confirmPassword, f.course, "", false))
            == Some(Register.RequiredError)
  {
  }

  /** The message shown on failure: three translated codes, else the raw message. */
  function ErrorMessage(e: Failure): (r: string)
    ensures e.code !in KnownCodes ==> r == e.message
    ensures e.code in KnownCodes ==> r == Register.ErrorMessage(e)
  {
    if e.code == "auth/email-already-in-use" then Register.EmailInUseMessage
    else if e.code == "auth/weak-password" then Register.WeakPasswordMessage
    else if e.code == "auth/invalid-email" then Register.InvalidEmailMessage
    else e.message
  }

  /** The two pages differ only on "auth/invalid-api-key", which this one
      does not translate. */
  lemma ErrorTablesDiffer(e: Failure)
    ensures e.code != "auth/invalid-api-key" ==> ErrorMessage(e) == Register.ErrorMessage(e)
    ensures e.code == "auth/invalid-api-key" ==> ErrorMessage(e) == e.message
  {
  }

  /** The document written for the first administrator. */
  function AdminProfile(f: SetupForm, createdAt: int): (p: Profile)
    ensures p.role == Admin && p.isVisibleOnContact && p.photo == "" && p.createdAt == createdAt
    ensures p.name == Trim(f.name) && p.email == Trim(f.email) && p.course == Trim(f.course)
    ensures p.status.None? && p.approval.None? && p.rejection.None?
  {
    Profile(Trim(f.name), Trim(f.email), Trim(f.course), "", Admin, true, createdAt, None, None, None)
  }

  class SetupAdminPage {
    var form: SetupForm
    var error: string
    var loading: bool
    var redirect: Option<string>

    constructor ()
      ensures form == SetupForm(DefaultName, "", "", "", DefaultCourse)
      ensures error == "" && !loading && redirect == None
    {
      form := SetupForm(DefaultName, "", "", "", DefaultCourse);
      error := "";
      loading := false;
      redirect := None;
    }

    /** `handleSubmit`, with the provider's answer and the write's outcome as inputs. */
    method HandleSubmit(db: Store.Backend, signUp: SignUp, write: Outcome, now: int)
      modifies this`error, this`loading, this`redirect, db`accounts, db`users
      ensures !loading && form == old(form)
      ensures Validate(form).Some? ==>
        error == Validate(form).value && redirect == old(redirect) &&
        db.accounts == old(db.accounts) && db.users == old(db.users)
      ensures Validate(form).None? && signUp.SignUpFailed? ==>
        error == ErrorMessage(signUp.failure) && redirect == old(redirect) &&
        db.accounts == old(db.accounts) && db.users == old(db.users)
      ensures Validate(form).None? && signUp.Created? ==>
        db.accounts == old(db.accounts)[signUp.uid := form.email] &&
        (write.Done? ==>
          db.users == old(db.users)[signUp.uid := AdminProfile(form, now)] &&
          error == "" && redirect == Some("/login")) &&
        (write.Failed? ==>
          db.users == old(db.users) && error == ErrorMessage(write.failure) && redirect == old(redirect))
    {
      loading := true;
      error := "";
      var invalid := Validate(form);
      if invalid.Some? {
        error := invalid.value;
        loading := false;
        return;
      }
      SignUpWith(db, signUp, write, AdminProfile(form, now));
      loading := false;
    }

    /** The steps after validation: the credential is created for the form's
        email, `profile` is written under its uid, and the page either goes
        to the login page or shows the translated error. */
    method SignUpWith(db: Store.Backend, signUp: SignUp, write: Outcome, profile: Profile)
      modifies this`error, this`redirect, db`accounts, db`users
      ensures signUp.SignUpFailed? ==>
        error == ErrorMessage(signUp.failure) && redirect == old(redirect) &&
        db.accounts == old(db.accounts) && db.users == old(db.users)
      ensures signUp.Created? ==>
        db.accounts == old(db.accounts)[signUp.uid := form.email] &&
        (write.Done? ==>
          db.users == old(db.users)[signUp.uid := profile] && error == old(error) && redirect == Some("/login")) &&
        (write.Failed? ==>
          db.users == old(db.users) && error == ErrorMessage(write.failure) && redirect == old(redirect))
    {
      var result := db.CreateAccount(form.email, signUp, write, profile);
      if result.Failed? {
        error := ErrorMessage(result.failure);
      } else {
        redirect := Some("/login");
      }
    }
  }
}
