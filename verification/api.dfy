/**
 * What the route handlers under app/api share: the outcome of reading the
 * session, of a one-row profile lookup and of an insert, the JSON reply they
 * build, and the two authorisation chains they run before writing.
 *
 * Every storage call is a parameter: the model receives what the database
 * client returned and computes the reply.
 */
module Api {
  import opened Wrappers
  import opened Json
  import opened Roles
  import opened Text

  /** `supabase.auth.getUser()`: an error, no user, or the signed-in user's id. */
  datatype Auth = AuthFailed(message: string) | Anonymous | SignedIn(id: string)

  /** A `.single()` lookup: an error, no row, or the row. */
  datatype Lookup<T> = LookupFailed(message: string) | Missing | Found(value: T)

  /** The `role` column of a `users` row; it may be null. */
  datatype Profile = Profile(role: Option<string>)

  /**
   * The parsed request body. `request.json()` throws on text that is not JSON
   * (`Malformed`) and otherwise yields any JSON value. `null` is kept apart
   * (`NullBody`), since reading a property of it throws. Any other value is
   * given as the object of its own enumerable properties, which is all that a
   * property read, a destructuring or a spread sees of it: none for a number
   * or a boolean, the indices "0", "1", ... for a string or an array.
   */
  datatype Body = Parsed(fields: Object) | NullBody | Malformed(message: string)

  /** The TypeError message of reading property `field` of `null`, in the Node.js wording. */
  function NullRead(field: string): string {
    "Cannot read properties of null (reading '" + field + "')"
  }

  /** The TypeError message of `const { field, ... } = name` when `name` is `null`, in the Node.js wording. */
  function NullDestructure(field: string, name: string): string {
    "Cannot destructure property '" + field + "' of '" + name + "' as it is null."
  }

  /**
   * The outcome of `insert(...).select().single()` (or of an update with the
   * same tail): an error with its message, code and hint (`None` for a null
   * hint), no row, or the stored row.
   */
  datatype Inserted = InsertFailed(message: string, code: string, hint: Option<string>) | NothingReturned | Stored(row: Object)

  /** `NextResponse.json(body, { status })`. */
  datatype Reply = Reply(status: nat, body: Object)

  /** `{ error: message }` with the given status. */
  function ErrorReply(status: nat, message: string): (r: Reply)
    ensures r.status == status && r.body.Keys == {"error"} && r.body["error"] == Str(message)
  {
    Reply(status, map["error" := Str(message)])
  }

  /** `{ error: message, details: details }` with the given status. */
  function DetailedError(status: nat, message: string, details: string): (r: Reply)
    ensures r.status == status && r.body.Keys == {"error", "details"}
    ensures r.body["error"] == Str(message) && r.body["details"] == Str(details)
  {
    Reply(status, map["error" := Str(message), "details" := Str(details)])
  }

  /**
   * The `catch` block: a thrown `Error` reports its own message, anything else
   * the handler's fallback text; always status 500.
   */
  function Caught(thrown: Option<string>, fallback: string): (r: Reply)
    ensures r.status == 500 && r.body.Keys == {"error"}
    ensures r.body["error"] == Str(thrown.GetOr(fallback))
  {
    ErrorReply(500, thrown.GetOr(fallback))
  }

  /** A nullable text column as a JSON value: the string, or `null`. */
  function OrNull(text: Option<string>): (v: Value)
    ensures text.Some? <==> v.Str?
    ensures text.Some? ==> v == Str(text.value)
  {
    match text
    case None => Null
    case Some(s) => Str(s)
  }

  /**
   * What a `catch` block can report about a rethrown storage error: its
   * message when the client library raised it as an `Error` instance, and
   * nothing otherwise, in which case the handler falls back to its own text.
   */
  function Rethrown(message: string, isError: bool): Option<string> {
    if isError then Some(message) else None
  }

  /** The role test the handlers write inline: the role column is 'organizer' or 'admin'. */
  predicate Manages(p: Profile) {
    p.role.Some? && IsManagerRole(p.role.value)
  }

  /** The verdict of an authorisation chain: a reply that ends the request, or the caller. */
  datatype Gate = Deny(reply: Reply) | Allow(userId: string, role: string)

  /**
   * The chain of the resource, event and community creation handlers:
   * 401 with details when the session cannot be read, 401 without a user,
   * 500 when the profile lookup fails, 404 without a profile, 403 (reporting
   * the current role) unless the role is organizer or admin.
   */
  function StrictGate(auth: Auth, profile: Lookup<Profile>, what: string): (g: Gate)
    ensures g.Allow? <==> auth.SignedIn? && profile.Found? && Manages(profile.value)
    ensures g.Allow? ==> g.userId == auth.id && Some(g.role) == profile.value.role
    ensures g.Allow? ==> CanManageContent(ParseRole(g.role))
    ensures g.Deny? ==> g.reply.status in {401, 403, 404, 500}
    ensures g.Deny? && g.reply.status == 401 <==> !auth.SignedIn?
    ensures g.Deny? && g.reply.status == 500 <==> auth.SignedIn? && profile.LookupFailed?
    ensures g.Deny? && g.reply.status == 404 <==> auth.SignedIn? && profile.Missing?
    ensures g.Deny? && g.reply.status == 403 <==> auth.SignedIn? && profile.Found? && !Manages(profile.value)
    ensures g.Deny? && g.reply.status == 403 ==> "currentRole" in g.reply.body && g.reply.body["currentRole"] == OrNull(profile.value.role)
    ensures auth.AuthFailed? ==> g.reply == DetailedError(401, "Authentication error", auth.message)
    ensures auth.Anonymous? ==> g.reply == ErrorReply(401, "Unauthorized")
    ensures auth.SignedIn? && profile.LookupFailed? ==> g.reply == DetailedError(500, "Failed to fetch user profile", profile.message)
    ensures auth.SignedIn? && profile.Missing? ==> g.reply == ErrorReply(404, "User profile not found. Please complete your profile setup.")
    ensures g.Deny? && g.reply.status == 403 ==>
      g.reply.body.Keys == {"error", "currentRole"} && g.reply.body["error"] == Str("Only organizers and admins can " + what)
  {
    match auth
    case AuthFailed(m) => Deny(DetailedError(401, "Authentication error", m))
    case Anonymous => Deny(ErrorReply(401, "Unauthorized"))
    case SignedIn(id) =>
      match profile
      case LookupFailed(m) => Deny(DetailedError(500, "Failed to fetch user profile", m))
      case Missing => Deny(ErrorReply(404, "User profile not found. Please complete your profile setup."))
      case Found(p) =>
        if Manages(p) then
          ManagerRoleIsCanManage(p.role.value);
          Allow(id, p.role.value)
        else
          Deny(Reply(403, map["error" := Str("Only organizers and admins can " + what), "currentRole" := OrNull(p.role)]))
  }

  /**
   * The shorter chain of the booking and General-community handlers: the
   * session error and the lookup error are ignored, so no user gives 401 and
   * a missing profile or a non-manager role gives the same 403.
   */
  function LooseGate(user: Option<string>, profile: Option<Profile>, what: string): (g: Gate)
    ensures g.Allow? <==> user.Some? && profile.Some? && Manages(profile.value)
    ensures g.Allow? ==> g.userId == user.value && Some(g.role) == profile.value.role
    ensures g.Deny? ==> g.reply.status in {401, 403}
    ensures g.Deny? ==> (g.reply.status == 401 <==> user.None?)
    ensures g.Deny? ==> g.reply.body.Keys == {"error"}
    ensures user.None? ==> g.reply == ErrorReply(401, "Unauthorized")
    ensures g.Deny? && user.Some? ==> g.reply == ErrorReply(403, "Only organizers and admins can " + what)
  {
    if user.None? then Deny(ErrorReply(401, "Unauthorized"))
    else if profile.None? || !Manages(profile.value) then Deny(ErrorReply(403, "Only organizers and admins can " + what))
    else Allow(user.value, profile.value.role.value)
  }

  /** The strict chain admits exactly whom the loose chain admits, once lookups are reduced to present/absent. */
  lemma GatesAdmitTheSame(auth: Auth, profile: Lookup<Profile>, what: string)
    ensures StrictGate(auth, profile, what).Allow?
        <==> LooseGate(if auth.SignedIn? then Some(auth.id) else None,
                       if profile.Found? then Some(profile.value) else None, what).Allow?
  {
  }

  /**
   * The reply after an insert: 500 with 'Failed to create <what>' and the
   * database's message, code and hint when the insert failed, 500 with
   * '<What> was not created' when no row came back, otherwise 201 with the
   * stored row. PostgREST reports a missing hint as `null`. Given a
   * `defaultHint`, the handler writes `hint || defaultHint`, so a null or
   * empty hint is replaced; without one the hint is passed on as it is, and
   * `JSON.stringify` sends a null hint as `null`.
   */
  function InsertReply(ins: Inserted, what: string, defaultHint: Option<string>): (r: Reply)
    ensures r.status == 201 <==> ins.Stored?
    ensures r.status != 201 ==> r.status == 500
    ensures ins.Stored? ==> r.body == ins.row
    ensures ins.NothingReturned? ==> r == ErrorReply(500, Capitalize(what) + " was not created")
    ensures ins.InsertFailed? ==> r.body.Keys == {"error", "details", "code", "hint"}
    ensures ins.InsertFailed? ==> r.body["error"] == Str("Failed to create " + what)
    ensures ins.InsertFailed? ==> r.body["details"] == Str(ins.message) && r.body["code"] == Str(ins.code)
    ensures ins.InsertFailed? && ins.hint.Some? && ins.hint.value != "" ==> r.body["hint"] == Str(ins.hint.value)
    ensures ins.InsertFailed? && defaultHint.Some? && !(ins.hint.Some? && ins.hint.value != "") ==>
      r.body["hint"] == Str(defaultHint.value)
    ensures ins.InsertFailed? && defaultHint.None? ==> r.body["hint"] == OrNull(ins.hint)
  {
    match ins
    case InsertFailed(m, c, h) =>
      var hint := if defaultHint.None? then OrNull(h)
                  else if h.Some? && h.value != "" then Str(h.value)
                  else Str(defaultHint.value);
      Reply(500, map["error" := Str("Failed to create " + what), "details" := Str(m), "code" := Str(c), "hint" := hint])
    case NothingReturned => ErrorReply(500, Capitalize(what) + " was not created")
    case Stored(row) => Reply(201, row)
  }

  /**
   * The outcome of a read query whose error is rethrown: the thrown value's
   * message when it is an `Error`, or the rows.
   */
  datatype Fetched<T> = FetchFailed(thrown: Option<string>) | Rows(rows: seq<T>)

  /** A handler that answers with a JSON array, or with an error object. */
  datatype Listing<T> = Listing(items: seq<T>) | ListError(reply: Reply)

  /** What a write handler does once the request has been read: answer at once, or insert a row. */
  datatype Plan = Respond(reply: Reply) | Insert(row: Object)
}
