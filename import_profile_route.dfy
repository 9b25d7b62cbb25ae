/**
 * `POST /api/pluggy/import-profile`: takes the identity of a Pluggy item (or the demo identity),
 * finds or creates the matching Supabase auth user, and inserts a `profiles` row for it with the
 * service-role key.
 */
module ImportProfileRoute {
  import opened Wrappers
  import opened JsValues
  import opened PluggyClient

  /** The JSON body's fields; a body that cannot be parsed reads as all absent. */
  datatype ImportBody = ImportBody(itemId: Option<string>, email: Option<string>)

  /** The two environment variables the route reads. */
  datatype ImportEnv = ImportEnv(supabaseUrl: Option<string>, serviceKey: Option<string>)

  /** What the sign-up endpoint answered: its `ok` flag and `user.id`, if any. */
  datatype SignupReply = SignupReply(ok: bool, userId: Option<string>)

  /**
   * What the admin users endpoint answered: a failure with its body text, or the user ids of a
   * bare array, or of an object's `users` array (which may be missing).
   */
  datatype AdminLookup =
    | LookupFailed(text: string)
    | UsersArray(ids: seq<Option<string>>)
    | UsersObject(users: Option<seq<Option<string>>>)

  /** What the profile insert answered. */
  datatype InsertReply = InsertAccepted | InsertRejected(text: string)

  /** The `profiles` row the route inserts. */
  datatype ProfileRow = ProfileRow(
    id: string,
    fullName: Option<string>,
    email: string,
    document: Option<string>,
    birthDate: Option<string>)

  /** The route's JSON answer. `NeedsServiceKey` is the 400 answer that echoes the e-mail and identity. */
  datatype ImportResponse =
    | Imported
    | ImportError(status: nat, error: string)
    | NeedsServiceKey(pluggyEmail: string, pluggyIdentity: PluggyIdentity)

  const NoIdentity := "No identity/email found from Pluggy"
  const MissingUrl := "Missing NEXT_PUBLIC_SUPABASE_URL in environment"
  const NoUserId := "Could not create or find auth user id for the provided email"
  const InternalError := "Internal server error"

  /** The identity the route works with: the fetched one when an item id is given, else the demo identity. */
  function IdentityUsed(body: ImportBody, fetched: Fetch<Option<PluggyIdentity>>, demo: PluggyIdentity)
    : (r: Fetch<Option<PluggyIdentity>>)
    ensures Truthy(body.itemId) ==> r == fetched
    ensures !Truthy(body.itemId) ==> r == Fetched(Some(demo))
  {
    if Truthy(body.itemId) then fetched else Fetched(Some(demo))
  }

  /** The identity is there and has a non-empty e-mail. */
  predicate HasEmail(identity: Fetch<Option<PluggyIdentity>>) {
    identity.Fetched? && identity.value.Some? && Truthy(identity.value.value.email)
  }

  /** The id of the first user the lookup returned, as found (`found?.id ?? null`). */
  function FirstUserId(lookup: AdminLookup): (r: Option<string>)
    ensures lookup.UsersArray? && lookup.ids != [] ==> r == lookup.ids[0]
    ensures lookup.UsersObject? && lookup.users.Some? && lookup.users.value != [] ==> r == lookup.users.value[0]
    ensures lookup.LookupFailed? || (lookup.UsersArray? && lookup.ids == []) ==> r.None?
    ensures lookup.UsersObject? && (lookup.users.None? || lookup.users.value == []) ==> r.None?
  {
    match lookup
    case LookupFailed(_) => None
    case UsersArray(ids) => if ids == [] then None else ids[0]
    case UsersObject(users) => if users.None? || users.value == [] then None else users.value[0]
  }

  /** The user id the route ends with: the sign-up's when it is ok and gave one, else the lookup's. */
  function ResolvedUserId(signup: SignupReply, lookup: AdminLookup): Option<string> {
    if signup.ok && Truthy(signup.userId) then signup.userId
    else if Truthy(FirstUserId(lookup)) then FirstUserId(lookup)
    else None
  }

  /**
   * The route. The fetched identity, the sign-up and lookup replies and the insert reply are
   * inputs; each is read only when the route gets that far. Returns the answer, the e-mail the
   * auth user is created or looked up with, and the profile row sent.
   */
  method ImportProfile(
    body: ImportBody, fetched: Fetch<Option<PluggyIdentity>>, demo: PluggyIdentity, env: ImportEnv,
    signup: SignupReply, lookup: AdminLookup, insert: InsertReply)
    returns (resp: ImportResponse, accountEmail: Option<string>, row: Option<ProfileRow>)
    ensures IdentityUsed(body, fetched, demo).Threw? ==> resp == ImportError(500, InternalError) && row.None?
    ensures IdentityUsed(body, fetched, demo).Fetched? && !HasEmail(IdentityUsed(body, fetched, demo)) ==>
      resp == ImportError(400, NoIdentity) && row.None?
    ensures HasEmail(IdentityUsed(body, fetched, demo)) && !Truthy(env.supabaseUrl) ==>
      resp == ImportError(500, MissingUrl) && row.None?
    ensures var identity := IdentityUsed(body, fetched, demo);
      HasEmail(identity) && Truthy(env.supabaseUrl) && !Truthy(env.serviceKey) ==>
        && resp == NeedsServiceKey(Coalesce(body.email, identity.value.value.email.value), identity.value.value)
        && row.None?
    ensures var identity := IdentityUsed(body, fetched, demo);
      HasEmail(identity) && Truthy(env.supabaseUrl) && Truthy(env.serviceKey) ==>
        accountEmail == Some(Coalesce(body.email, identity.value.value.email.value))
    ensures var identity := IdentityUsed(body, fetched, demo);
      HasEmail(identity) && Truthy(env.supabaseUrl) && Truthy(env.serviceKey) ==>
        && (!(signup.ok && Truthy(signup.userId)) && lookup.LookupFailed? ==>
              resp == ImportError(500, "Failed to lookup user by email: " + lookup.text) && row.None?)
        && (!(signup.ok && Truthy(signup.userId)) && !lookup.LookupFailed? && ResolvedUserId(signup, lookup).None? ==>
              resp == ImportError(500, NoUserId) && row.None?)
        && (ResolvedUserId(signup, lookup).Some? ==>
              && row == Some(ProfileRow(
                   ResolvedUserId(signup, lookup).value, identity.value.value.fullName,
                   identity.value.value.email.value, identity.value.value.cpf, identity.value.value.birthDate))
              && resp == (if insert.InsertRejected? then ImportError(500, "Failed to insert profile: " + insert.text) else Imported))
  {
    accountEmail := None;
    row := None;
    var identity: Option<PluggyIdentity>;
    if Truthy(body.itemId) {
      if fetched.Threw? {
        return ImportError(500, InternalError), None, None;
      }
      identity := fetched.value;
    } else {
      identity := Some(demo);
    }
    if identity.None? || !Truthy(identity.value.email) {
      return ImportError(400, NoIdentity), None, None;
    }
    var email := Coalesce(body.email, identity.value.email.value);
    if !Truthy(env.supabaseUrl) {
      return ImportError(500, MissingUrl), None, None;
    }
    if !Truthy(env.serviceKey) {
      return NeedsServiceKey(email, identity.value), None, None;
    }
    accountEmail := Some(email);
    var userId: Option<string> := None;
    if signup.ok {
      userId := if Truthy(signup.userId) then signup.userId else None;
    }
    if !Truthy(userId) {
      if lookup.LookupFailed? {
        return ImportError(500, "Failed to lookup user by email: " + lookup.text), accountEmail, None;
      }
      userId := FirstUserId(lookup);
    }
    if !Truthy(userId) {
      return ImportError(500, NoUserId), accountEmail, None;
    }
    row := Some(ProfileRow(
      userId.value, identity.value.fullName, Coalesce(identity.value.email, email),
      identity.value.cpf, identity.value.birthDate));
    if insert.InsertRejected? {
      return ImportError(500, "Failed to insert profile: " + insert.text), accountEmail, row;
    }
    return Imported, accountEmail, row;
  }
}
