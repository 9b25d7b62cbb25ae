/**
 * The sign-up page: the password checks that run before anything is sent, the sign-up request
 * with its redirect and profile metadata, and the page state the handler leaves behind.
 */
module SignUpPage {
  import opened Wrappers
  import opened JsValues

  const PasswordMismatch := "As senhas não coincidem"
  const PasswordTooShort := "A senha deve ter pelo menos 6 caracteres"
  const SignUpFailedText := "Erro ao criar conta"
  const MinPasswordLength := 6

  /** The sign-up form. */
  datatype SignUpForm = SignUpForm(
    fullName: string,
    email: string,
    password: string,
    confirmPassword: string,
    document: string,
    birthDate: string,
    creditCard: string)

  /**
   * The validation guard chain: the first failing check names the error. A mismatch is reported
   * before a short password; None means both checks passed.
   */
  function ValidatePasswords(password: string, confirmation: string): (r: Option<string>)
    ensures r.None? <==> password == confirmation && |password| >= MinPasswordLength
    ensures password != confirmation ==> r == Some(PasswordMismatch)
    ensures password == confirmation && |password| < MinPasswordLength ==> r == Some(PasswordTooShort)
  {
    if password != confirmation then Some(PasswordMismatch)
    else if |password| < MinPasswordLength then Some(PasswordTooShort)
    else None
  }

  /** Six characters is long enough; five is not. */
  lemma LengthBoundary(password: string)
    ensures |password| == 6 ==> ValidatePasswords(password, password).None?
    ensures |password| == 5 ==> ValidatePasswords(password, password) == Some(PasswordTooShort)
  {
  }

  /** The user metadata stored with the account: empty optional fields are sent as null. */
  datatype SignUpMetadata = SignUpMetadata(
    fullName: string,
    document: Option<string>,
    birthDate: Option<string>,
    creditCard: Option<string>)

  function Metadata(form: SignUpForm): (r: SignUpMetadata)
    ensures r.fullName == form.fullName
    ensures r.document.None? <==> form.document == ""
    ensures r.birthDate.None? <==> form.birthDate == ""
    ensures r.creditCard.None? <==> form.creditCard == ""
    ensures r.document.Some? ==> r.document.value == form.document
    ensures r.birthDate.Some? ==> r.birthDate.value == form.birthDate
    ensures r.creditCard.Some? ==> r.creditCard.value == form.creditCard
  {
    SignUpMetadata(form.fullName, OrNull(form.document), OrNull(form.birthDate), OrNull(form.creditCard))
  }

  /** The two redirect variables of the environment. */
  datatype RedirectEnv = RedirectEnv(production: Option<string>, development: Option<string>)

  /** `emailRedirectTo`: the production variable, else the development one, else the page origin's dashboard. */
  function RedirectUrl(env: RedirectEnv, origin: string): (r: string)
    ensures Truthy(env.production) ==> r == env.production.value
    ensures !Truthy(env.production) && Truthy(env.development) ==> r == env.development.value
    ensures !Truthy(env.production) && !Truthy(env.development) ==> r == origin + "/dashboard"
  {
    Or(env.production, Or(env.development, origin + "/dashboard"))
  }

  /** The `signUp` call the handler makes. */
  datatype SignUpRequest = SignUpRequest(
    email: string,
    password: string,
    emailRedirectTo: string,
    data: SignUpMetadata)

  function RequestFor(form: SignUpForm, env: RedirectEnv, origin: string): SignUpRequest {
    SignUpRequest(form.email, form.password, RedirectUrl(env, origin), Metadata(form))
  }

  /** The page's error and loading state. */
  class SignUpState {
    var error: Option<string>
    var isLoading: bool

    constructor()
      ensures error.None? && !isLoading
    {
      error := None;
      isLoading := false;
    }

    /**
     * `handleSignUp`. `failure` is what the sign-up call threw, if anything (a returned error is
     * thrown as it is). Returns the request sent, if any, and the page navigated to, if any.
     */
    method HandleSignUp(form: SignUpForm, env: RedirectEnv, origin: string, failure: Option<Thrown>)
      returns (request: Option<SignUpRequest>, navigatedTo: Option<string>)
      modifies this
      ensures !isLoading
      ensures ValidatePasswords(form.password, form.confirmPassword).Some? ==>
        && request.None? && navigatedTo.None?
        && error == ValidatePasswords(form.password, form.confirmPassword)
      ensures ValidatePasswords(form.password, form.confirmPassword).None? ==>
        request == Some(RequestFor(form, env, origin))
      ensures ValidatePasswords(form.password, form.confirmPassword).None? && failure.None? ==>
        error.None? && navigatedTo == Some("/auth/sign-up-success")
      ensures ValidatePasswords(form.password, form.confirmPassword).None? && failure.Some? ==>
        error == Some(ThrownMessage(failure.value, SignUpFailedText)) && navigatedTo.None?
    {
      isLoading := true;
      error := None;
      request := None;
      navigatedTo := None;
      if form.password != form.confirmPassword {
        error := Some(PasswordMismatch);
        isLoading := false;
        return;
      }
      if |form.password| < MinPasswordLength {
        error := Some(PasswordTooShort);
        isLoading := false;
        return;
      }
      request := Some(RequestFor(form, env, origin));
      if failure.None? {
        navigatedTo := Some("/auth/sign-up-success");
      } else {
        error := Some(ThrownMessage(failure.value, SignUpFailedText));
      }
      isLoading := false;
    }
  }
}
