/** Volunteer self-registration, src/app/register/page.tsx: the validation
    chain, the profile record it writes and the error-code table. */
module Register {
  import opened Common
  import opened Text
  import Store

  datatype RegisterForm = RegisterForm(
    name: string,
    email: string,
    password: string,
    confirmPassword: string,
    course: string,
    photo: string,
    isVisibleOnContact: bool)

  const MismatchError := "As senhas não coincidem"
  const LengthError := "A senha deve ter pelo menos 6 caracteres"
  const RequiredError := "Por favor, preencha todos os campos obrigatórios"

  const EmailInUseMessage := "Este email já está em uso. Tente fazer login ou use outro email."
  const WeakPasswordMessage := "A senha deve ter pelo menos 6 caracteres."
  const InvalidEmailMessage := "Email inválido."
  const InvalidApiKeyMessage := "Erro de configuração do Firebase. Tente novamente mais tarde."

  /** The codes the page translates; any other error shows its own message. */
  const KnownCodes: set<string> :=
    {"auth/email-already-in-use", "auth/weak-password", "auth/invalid-email", "auth/invalid-api-key"}

  /** The checks that run before any account is created, in their order: the
      message of the first that fails, or `None` when the form may be sent. */
  function Validate(f: RegisterForm): (r: Option<string>)
    ensures r.None? <==>
      f.password == f.confirmPassword && |f.password| >= 6 &&
      !IsBlank(f.name) && !IsBlank(f.email) && !IsBlank(f.course)
    ensures f.password != f.confirmPassword ==> r == Some(MismatchError)
    ensures f.password == f.confirmPassword && |f.password| < 6 ==> r == Some(LengthError)
    ensures f.password == f.confirmPassword && |f.password| >= 6 && r.Some? ==> r == Some(RequiredError)
  {
    if f.password != f.confirmPassword then Some(MismatchError)
    else if |f.password| < 6 then Some(LengthError)
    else if Trim(f.name) == "" || Trim(f.email) == "" || Trim(f.course) == "" then Some(RequiredError)
    else None
  }

  /** The message shown for a failed sign-up or profile write. */
  function ErrorMessage(e: Failure): (r: string)
    ensures e.code !in KnownCodes ==> r == e.message
    ensures e.code == "auth/email-already-in-use" ==> r == EmailInUseMessage
    ensures e.code == "auth/weak-password" ==> r == WeakPasswordMessage
    ensures e.code == "auth/invalid-email" ==> r == InvalidEmailMessage
    ensures e.code == "auth/invalid-api-key" ==> r == InvalidApiKeyMessage
  {
    if e.code == "auth/email-already-in-use" then EmailInUseMessage
    else if e.code == "auth/weak-password" then WeakPasswordMessage
    else if e.code == "auth/invalid-email" then InvalidEmailMessage
    else if e.code == "auth/invalid-api-key" then InvalidApiKeyMessage
    else e.message
  }

  /** For a translated code the provider's own text never reaches the user. */
  lemma KnownCodeHidesMessage(code: string, m1: string, m2: string)
    requires code in KnownCodes
    ensures ErrorMessage(Failure(code, m1)) == ErrorMessage(Failure(code, m2))
  {
  }

  /** The document written for a new volunteer. */
  function VolunteerProfile(f: RegisterForm, createdAt: int): (p: Profile)
    ensures p.role == Volunteer && p.createdAt == createdAt
    ensures p.name == Trim(f.name) && p.email == Trim(f.email) && p.course == Trim(f.course) && p.photo == Trim(f.photo)
    ensures p.isVisibleOnContact == f.isVisibleOnContact
    ensures p.status.None? && p.approval.None? && p.rejection.None?
  {
    Profile(Trim(f.name), Trim(f.email), Trim(f.course), Trim(f.photo), Volunteer,
            f.isVisibleOnContact, createdAt, None, None, None)
  }

  /** A form that passes validation yields a profile whose name, email and
      course are non-empty and carry no surrounding whitespace. */
  lemma ValidFormGivesFilledProfile(f: RegisterForm, createdAt: int)
    requires Validate(f).None?
    ensures var p := VolunteerProfile(f, createdAt);
      p.name != "" && p.email != "" && p.course != "" &&
      Trim(p.name) == p.name && Trim(p.email) == p.email && Trim(p.course) == p.course
  {
    TrimIdempotent(f.name);
    TrimIdempotent(f.email);
    TrimIdempotent(f.course);
  }

  /** A freshly registered volunteer carries no status, so it is listed
      neither among the pending requests nor among the active users. */
  lemma RegistrantIsNeitherPendingNorActive(f: RegisterForm, createdAt: int)
    ensures !IsPending(VolunteerProfile(f, createdAt))
    ensures !IsActive(VolunteerProfile(f, createdAt))
    ensures !IsRejected(VolunteerProfile(f, createdAt))
  {
  }

  class RegisterPage {
    var form: RegisterForm
    var error: string
    var loading: bool
    var redirect: Option<string>

    constructor ()
      ensures form == RegisterForm("", "", "", "", "", "", false)
      ensures error == "" && !loading && redirect == None
    {
      form := RegisterForm("", "", "", "", "", "", false);
      error := "";
      loading := false;
      redirect := None;
    }

    /** `handleSubmit`: `signUp` is what the identity provider answers, `write`
        the outcome of the profile write, `now` the submission time. */
    method HandleSubmit(db: Store.Backend, signUp: SignUp, write: Outcome, now: int)
      modifies this`error, this`loading, this`redirect, db`accounts, db`users
      ensures !loading && form == old(form)
      ensures Validate(form).Some? ==>
        error == Validate(form).value && redirect == old(redirect) &&
        db.accounts == old(db.accounts) && db.users == old(db.users)
      ensures Validate(form).None? && signUp.SignUpFailed? ==>
        error == ErrorMessage(signUp.failure) && redirect == old(redirect) &&
        db.accounts == old(db.accounts) && db.users == old(db.users)
      ensures Validate(form).None? && signUp.Created? ==>
        db.accounts == old(db.accounts)[signUp.uid := form.email] &&
        (write.Done? ==>
          db.users == old(db.users)[signUp.uid := VolunteerProfile(form, now)] &&
          error == "" && redirect == Some("/login")) &&
        (write.Failed? ==>
          db.users == old(db.users) && error == ErrorMessage(write.failure) && redirect == old(redirect))
    {
      loading := true;
      error := "";
      var invalid := Validate(form);
      if invalid.Some? {
        error := invalid.value;
        loading := false;
        return;
      }
      SignUpWith(db, signUp, write, VolunteerProfile(form, now));
      loading := false;
    }

    /** The steps after validation: the credential is created for the form's
        email, `profile` is written under its uid, and the page either goes
        to the login page or shows the translated error. */
    method SignUpWith(db: Store.Backend, signUp: SignUp, write: Outcome, profile: Profile)
      modifies this`error, this`redirect, db`accounts, db`users
      ensures signUp.SignUpFailed? ==>
        error == ErrorMessage(signUp.failure) && redirect == old(redirect) &&
        db.accounts == old(db.accounts) && db.users == old(db.users)
      ensures signUp.Created? ==>
        db.accounts == old(db.accounts)[signUp.uid := form.email] &&
        (write.Done? ==>
          db.users == old(db.users)[signUp.uid := profile] && error == old(error) && redirect == Some("/login")) &&
        (write.Failed? ==>
          db.users == old(db.users) && error == ErrorMessage(write.failure) && redirect == old(redirect))
    {
      var result := db.CreateAccount(form.email, signUp, write, profile);
      if result.Failed? {
        error := ErrorMessage(result.failure);
      } else {
        redirect := Some("/login");
      }
    }
  }
}
