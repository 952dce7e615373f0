/** The login page, src/app/login/page.tsx: the error-code table and the
    `error`/`loading` updates around the sign-in call. */
module Login {
  import opened Common
  import Store
  import AuthContext

  const DefaultMessage := "Email ou senha incorretos"
  const UserNotFoundMessage := "Usuário não encontrado. Verifique o email ou crie uma conta."
  const WrongPasswordMessage := "Senha incorreta."
  const InvalidEmailMessage := "Email inválido."
  const TooManyRequestsMessage := "Muitas tentativas de login. Tente novamente mais tarde."

  const KnownCodes: set<string> :=
    {"auth/user-not-found", "auth/wrong-password", "auth/invalid-email", "auth/too-many-requests"}

  /** The message for a failed sign-in. Unlike the registration forms, the
      provider's own message is never shown: unknown codes get a fixed text. */
  function ErrorMessage(code: string): (r: string)
    ensures code !in KnownCodes ==> r == DefaultMessage
    ensures code == "auth/user-not-found" ==> r == UserNotFoundMessage
    ensures code == "auth/wrong-password" ==> r == WrongPasswordMessage
    ensures code == "auth/invalid-email" ==> r == InvalidEmailMessage
    ensures code == "auth/too-many-requests" ==> r == TooManyRequestsMessage
  {
    if code == "auth/user-not-found" then UserNotFoundMessage
    else if code == "auth/wrong-password" then WrongPasswordMessage
    else if code == "auth/invalid-email" then InvalidEmailMessage
    else if code == "auth/too-many-requests" then TooManyRequestsMessage
    else DefaultMessage
  }

  /** Every code yields one of five fixed, non-empty messages. */
  lemma MessagesAreFixed(code: string)
    ensures ErrorMessage(code) in {DefaultMessage, UserNotFoundMessage, WrongPasswordMessage,
                                  InvalidEmailMessage, TooManyRequestsMessage}
    ensures ErrorMessage(code) != ""
  {
  }

  class LoginPage {
    var email: string
    var password: string
    var error: string
    var loading: bool
    var redirect: Option<string>

    constructor ()
      ensures email == "" && password == "" && error == "" && !loading && redirect == None
    {
      email := "";
      password := "";
      error := "";
      loading := false;
      redirect := None;
    }

    /** `handleSubmit`: the error is cleared, the provider answers, and either
        the page goes home or shows the translated error. */
    method HandleSubmit(auth: AuthContext.AuthProvider, db: Store.Backend, answer: AuthContext.SignIn)
      modifies this`error, this`loading, this`redirect, db`session
      ensures !loading
      ensures auth.user == old(auth.user)
      ensures answer.SignedIn? ==>
        error == "" && redirect == Some("/") && db.session == Some(answer.session)
      ensures answer.SignInFailed? ==>
        error == ErrorMessage(answer.failure.code) && redirect == old(redirect) && db.session == old(db.session)
    {
      loading := true;
      error := "";
      var result := auth.Login(db, answer);
      if result.Done? {
        redirect := Some("/");
      } else {
        error := ErrorMessage(result.failure.code);
      }
      loading := false;
    }
  }
}
