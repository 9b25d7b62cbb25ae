/**
 * `POST /api/pluggy/register`: creates a Supabase user from an e-mail and password, where the
 * e-mail may come from the identity of a Pluggy item and a missing password falls back to the
 * Pluggy sandbox password.
 */
module RegisterRoute {
  import opened Wrappers
  import opened JsValues
  import opened PluggyClient

  /** The JSON body's fields; a body that cannot be parsed reads as all absent. */
  datatype RegisterBody = RegisterBody(itemId: Option<string>, email: Option<string>, password: Option<string>)

  /** What `signUp` answered: its error, if any, and the created user's id, if any. */
  datatype SignUpReply = SignUpReply(error: Option<string>, user: Option<string>)

  /** The credentials `signUp` was called with. */
  datatype Credentials = Credentials(email: string, password: string)

  /** The route's JSON answer. */
  datatype RegisterResponse =
    | Registered(user: Option<string>)
    | RegisterError(status: nat, error: string)

  const NoIdentityEmail := "Pluggy identity has no email"
  const EmailRequired := "Email is required (either provide email or itemId)"
  const InternalError := "Internal server error"

  /** The fetched identity exists and has a non-empty e-mail. */
  predicate HasEmail(identity: Option<PluggyIdentity>) {
    identity.Some? && Truthy(identity.value.email)
  }

  /**
   * The route. `identity` is what `getIdentity(itemId)` produced (read only when an item id is
   * given) and `signUp` what the sign-up answered (read only when it is called). Returns the
   * answer and the credentials sent, if any.
   */
  method Register(body: RegisterBody, identity: Fetch<Option<PluggyIdentity>>, signUp: SignUpReply)
    returns (resp: RegisterResponse, call: Option<Credentials>)
    ensures Truthy(body.itemId) && identity.Threw? ==> resp == RegisterError(500, InternalError) && call.None?
    ensures Truthy(body.itemId) && identity.Fetched? && !HasEmail(identity.value) ==>
      resp == RegisterError(400, NoIdentityEmail) && call.None?
    ensures !Truthy(body.itemId) && !Truthy(body.email) ==> resp == RegisterError(400, EmailRequired) && call.None?
    ensures Truthy(body.itemId) && identity.Fetched? && HasEmail(identity.value) ==>
      call.Some? && call.value.email == identity.value.value.email.value
    ensures !Truthy(body.itemId) && Truthy(body.email) ==> call.Some? && call.value.email == body.email.value
    ensures call.Some? ==> call.value.password == Or(body.password, SandboxPassword)
    ensures call.Some? && signUp.error.Some? ==> resp == RegisterError(500, signUp.error.value)
    ensures call.Some? && signUp.error.None? ==> resp == Registered(signUp.user)
  {
    var email := body.email;
    var password := body.password;
    if Truthy(body.itemId) {
      if identity.Threw? {
        return RegisterError(500, InternalError), None;
      }
      if !HasEmail(identity.value) {
        return RegisterError(400, NoIdentityEmail), None;
      }
      email := identity.value.value.email;
    }
    if !Truthy(email) {
      return RegisterError(400, EmailRequired), None;
    }
    if !Truthy(password) {
      password := Some(SandboxPassword);
    }
    call := Some(Credentials(email.value, password.value));
    if signUp.error.Some? {
      return RegisterError(500, signUp.error.value), call;
    }
    return Registered(signUp.user), call;
  }
}
