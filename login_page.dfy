/** The login page's handler: how a failed sign-in is explained to the user. */
module LoginPage {
  import opened Wrappers
  import opened JsValues

  const InvalidCredentials := "Invalid login credentials"
  const EmailNotConfirmed := "Email not confirmed"
  const WrongCredentialsText := "Email ou senha incorretos"
  const ConfirmEmailText := "Por favor, confirme seu email antes de fazer login"
  const LoginFailedText := "Erro ao fazer login"

  /** The shown error for a failure message: the two known Supabase messages are translated, any other is shown as is. */
  function LoginErrorMessage(message: string): (r: string)
    ensures Includes(message, InvalidCredentials) ==> r == WrongCredentialsText
    ensures !Includes(message, InvalidCredentials) && Includes(message, EmailNotConfirmed) ==> r == ConfirmEmailText
    ensures !Includes(message, InvalidCredentials) && !Includes(message, EmailNotConfirmed) ==> r == message
  {
    if Includes(message, InvalidCredentials) then WrongCredentialsText
    else if Includes(message, EmailNotConfirmed) then ConfirmEmailText
    else message
  }

  /** The page after `handleLogin`: the error shown, whether it is loading, where it navigated. */
  datatype LoginState = LoginState(error: Option<string>, isLoading: bool, navigatedTo: Option<string>)

  /**
   * `handleLogin` given what sign-in did: None when it succeeded, otherwise what was thrown (a
   * returned Supabase error is thrown as it is).
   */
  function HandleLogin(failure: Option<Thrown>): (r: LoginState)
    ensures !r.isLoading
    ensures failure.None? ==> r.error.None? && r.navigatedTo == Some("/dashboard")
    ensures failure.Some? ==> r.navigatedTo.None? && r.error == Some(LoginErrorMessage(ThrownMessage(failure.value, LoginFailedText)))
  {
    match failure
    case None => LoginState(None, false, Some("/dashboard"))
    case Some(e) => LoginState(Some(LoginErrorMessage(ThrownMessage(e, LoginFailedText))), false, None)
  }

  /** Something thrown that is not an Error shows the generic "Erro ao fazer login". */
  lemma NonErrorThrowShowsGenericText()
    ensures HandleLogin(Some(NonErrorThrown)).error == Some(LoginFailedText)
  {
    IncludesShorter(LoginFailedText, InvalidCredentials);
    IncludesSameLength(LoginFailedText, EmailNotConfirmed);
  }

  /** `{error && ...}`: the error box is rendered only for a non-empty error text. */
  predicate ErrorShown(s: LoginState) {
    Truthy(s.error)
  }

  /**
   * Every failure sets an error and every success sets none. The error box then appears for every
   * failure except an Error whose message is empty: that message is set as "" and not rendered.
   */
  lemma FailureAlwaysExplained(failure: Option<Thrown>)
    ensures HandleLogin(failure).error.Some? <==> failure.Some?
    ensures ErrorShown(HandleLogin(failure)) <==> failure.Some? && failure.value != ErrorThrown("")
  {
    if failure == Some(ErrorThrown("")) {
      IncludesShorter("", InvalidCredentials);
      IncludesShorter("", EmailNotConfirmed);
    }
  }
}
