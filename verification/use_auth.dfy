/**
 * hooks/use-auth.ts: which profile the hook holds after it reads the session,
 * both on first load and on every auth state change. A missing profile row is
 * created from the sign-up metadata; every failure falls back to a minimal
 * profile built from the session user, so a signed-in user is not left with
 * a crashed page. The storage calls' results are parameters.
 */
module UseAuth {
  import opened Wrappers
  import opened Json
  import opened Text
  import opened AuthMetadata
  import opened UseRole

  /** A storage error: its `code` and `message`, either of which may be absent. */
  datatype DbError = DbError(code: Option<string>, message: Option<string>)

  /** `e.message?.includes(s)`: false when there is no message. */
  predicate MessageHas(e: DbError, s: string) {
    e.message.Some? && Contains(e.message.value, s)
  }

  /** 'No row' errors: code PGRST116, or a message mentioning 'No rows'. */
  predicate NotFound(e: DbError) {
    e.code == Some("PGRST116") || MessageHas(e, "No rows")
  }

  /** The code alone decides for code PGRST116; an error with neither that code nor a message is a real failure. */
  lemma NotFoundByCode(e: DbError)
    ensures e.code == Some("PGRST116") ==> NotFound(e)
    ensures e.code != Some("PGRST116") && e.message.None? ==> !NotFound(e)
    ensures e.code != Some("PGRST116") && e.message.Some? && |e.message.value| < 7 ==> !NotFound(e)
  {
    if e.message.Some? && |e.message.value| < 7 {
      ContainsNotLonger(e.message.value, "No rows");
    }
  }

  /** How a failed profile insert is classified on an auth change, in this order. */
  datatype CreateErrorKind = Duplicate | PermissionDenied | OtherError

  function Classify(e: DbError): (k: CreateErrorKind)
    ensures k == Duplicate <==> e.code == Some("23505") || MessageHas(e, "duplicate") || MessageHas(e, "unique")
    ensures k == PermissionDenied <==>
      k != Duplicate && (e.code == Some("42501") || MessageHas(e, "permission denied") || MessageHas(e, "RLS"))
  {
    if e.code == Some("23505") || MessageHas(e, "duplicate") || MessageHas(e, "unique") then Duplicate
    else if e.code == Some("42501") || MessageHas(e, "permission denied") || MessageHas(e, "RLS") then PermissionDenied
    else OtherError
  }

  /** The profile lookup `.from('users').select('*').eq('id', ...).single()`. */
  datatype ProfileLookup = FoundRow(row: Object) | LookupError(error: DbError)

  /** The insert of a new profile: a returned row (possibly none), an error, or a thrown exception. */
  datatype Created = CreatedRow(row: Option<Object>) | CreateError(error: DbError) | CreateThrew

  /** What the hook does to its `profile` state. */
  datatype Effect = Keep | SetProfile(profile: Option<Object>)

  /**
   * The profile put in place when nothing better is available: the session
   * user's id and email, the metadata role (or 'user'), and a full name taken
   * from metadata, falling back to the email's local part when `withEmail`.
   */
  function Minimal(u: AuthUser, withEmail: bool): (p: Object)
    ensures p.Keys == {"id", "email", "role", "full_name"}
    ensures p["id"] == Str(u.id) && p["email"] == Str(EmailText(u))
    ensures p["role"] == MetadataRole(Metadata(u)) && Truthy(p["role"])
    ensures p["full_name"] == if withEmail then FullName(Metadata(u), u.email) else NameOnly(Metadata(u))
  {
    map["id" := Str(u.id),
        "email" := Str(EmailText(u)),
        "role" := MetadataRole(Metadata(u)),
        "full_name" := if withEmail then FullName(Metadata(u), u.email) else NameOnly(Metadata(u))]
  }

  /**
   * The row the hook tries to insert for a user without a profile: the
   * session user's id, the email or '', the metadata name (else the email's
   * local part, else ''), and the metadata role (else 'user').
   */
  function NewProfileRow(u: AuthUser): (row: Object)
    ensures row.Keys == {"id", "email", "full_name", "role"}
    ensures row["id"] == Str(u.id)
    ensures row["email"] == Str(EmailText(u))
    ensures row["full_name"] == FullName(Metadata(u), u.email)
    ensures row["role"] == MetadataRole(Metadata(u))
  {
    map["id" := Str(u.id), "email" := Str(EmailText(u)),
        "full_name" := FullName(Metadata(u), u.email), "role" := MetadataRole(Metadata(u))]
  }

  /**
   * When the insert fails, the profile the hook falls back to is exactly the
   * row it tried to insert, on first load and on an auth change alike
   * (unless a duplicate-key failure finds the row on re-reading it).
   */
  lemma FailedInsertKeepsAttemptedRow(u: AuthUser, lookup: ProfileLookup, e: DbError, refetched: Option<Object>)
    requires lookup.LookupError? && NotFound(lookup.error)
    ensures InitialLoad(Some(u), lookup, CreateError(e)) == SetProfile(Some(NewProfileRow(u)))
    ensures !(Classify(e) == Duplicate && refetched.Some?) ==>
      AuthChange(Some(u), lookup, CreateError(e), refetched) == SetProfile(Some(NewProfileRow(u)))
  {
    assert Minimal(u, true) == NewProfileRow(u);
  }

  /**
   * First load (`getSession`): without a session nothing is set; a found row is
   * used; a missing row is created, using the insert's returned row, or the
   * minimal profile when the insert fails; any other lookup error gives the
   * minimal profile without the email fallback. A thrown insert is swallowed
   * by the outer `catch` and leaves the profile as it was.
   */
  function InitialLoad(session: Option<AuthUser>, lookup: ProfileLookup, created: Created): (e: Effect)
    ensures session.None? ==> e == Keep
    ensures session.Some? && lookup.FoundRow? ==> e == SetProfile(Some(lookup.row))
    ensures session.Some? && lookup.LookupError? && !NotFound(lookup.error) ==> e == SetProfile(Some(Minimal(session.value, false)))
    ensures session.Some? && lookup.LookupError? && NotFound(lookup.error) && created.CreateError? ==>
      e == SetProfile(Some(Minimal(session.value, true)))
    ensures session.Some? && lookup.LookupError? && NotFound(lookup.error) && created.CreatedRow? ==> e == SetProfile(created.row)
    ensures e == Keep <==> session.None? || (lookup.LookupError? && NotFound(lookup.error) && created.CreateThrew?)
  {
    match session
    case None => Keep
    case Some(u) =>
      match lookup
      case FoundRow(row) => SetProfile(Some(row))
      case LookupError(err) =>
        if !NotFound(err) then SetProfile(Some(Minimal(u, false)))
        else match created
          case CreatedRow(row) => SetProfile(row)
          case CreateError(_) => SetProfile(Some(Minimal(u, true)))
          case CreateThrew => Keep
  }

  /**
   * An auth state change: without a session the profile is cleared. A missing
   * row is created; a duplicate-key failure re-reads the row and falls back to
   * the minimal profile; every other failure, and a thrown insert, gives a
   * minimal profile; an insert that returns no row changes nothing.
   */
  function AuthChange(session: Option<AuthUser>, lookup: ProfileLookup, created: Created, refetched: Option<Object>): (e: Effect)
    ensures session.None? ==> e == SetProfile(None)
    ensures session.Some? && lookup.FoundRow? ==> e == SetProfile(Some(lookup.row))
    ensures session.Some? && lookup.LookupError? && !NotFound(lookup.error) ==> e == SetProfile(Some(Minimal(session.value, false)))
    ensures session.Some? && lookup.LookupError? && NotFound(lookup.error) && created.CreateError? ==>
      if Classify(created.error) == Duplicate && refetched.Some? then e == SetProfile(refetched)
      else e == SetProfile(Some(Minimal(session.value, true)))
    ensures session.Some? && lookup.LookupError? && NotFound(lookup.error) && created.CreateThrew? ==>
      e == SetProfile(Some(Minimal(session.value, false)))
    ensures session.Some? && lookup.LookupError? && NotFound(lookup.error) && created.CreatedRow? && created.row.Some? ==>
      e == SetProfile(created.row)
    ensures e == Keep <==> session.Some? && lookup.LookupError? && NotFound(lookup.error) && created == CreatedRow(None)
  {
    match session
    case None => SetProfile(None)
    case Some(u) =>
      match lookup
      case FoundRow(row) => SetProfile(Some(row))
      case LookupError(err) =>
        if !NotFound(err) then SetProfile(Some(Minimal(u, false)))
        else match created
          case CreatedRow(row) => if row.Some? then SetProfile(row) else Keep
          case CreateError(ce) =>
            if Classify(ce) == Duplicate && refetched.Some? then SetProfile(refetched)
            else SetProfile(Some(Minimal(u, true)))
          case CreateThrew => SetProfile(Some(Minimal(u, false)))
  }

  /**
   * Every failure path of an auth change for a signed-in user sets a profile
   * whose id is that user's id: only a stored row (found, created or
   * re-read) can carry anything else.
   */
  lemma FailurePathsKeepIdentity(u: AuthUser, lookup: ProfileLookup, created: Created, refetched: Option<Object>)
    requires lookup.LookupError?
    requires NotFound(lookup.error) ==>
      created.CreateThrew? || (created.CreateError? && !(Classify(created.error) == Duplicate && refetched.Some?))
    ensures AuthChange(Some(u), lookup, created, refetched).SetProfile?
    ensures AuthChange(Some(u), lookup, created, refetched).profile.Some?
    ensures AuthChange(Some(u), lookup, created, refetched).profile.value["id"] == Str(u.id)
  {
  }

  /** The two paths agree except on a thrown insert and on an insert that returns no row. */
  lemma LoadPathsAgree(u: AuthUser, lookup: ProfileLookup, created: Created, refetched: Option<Object>)
    requires !(lookup.LookupError? && NotFound(lookup.error) && (created.CreateThrew? || created == CreatedRow(None)))
    requires !(lookup.LookupError? && NotFound(lookup.error) && created.CreateError? && Classify(created.error) == Duplicate && refetched.Some?)
    ensures InitialLoad(Some(u), lookup, created) == AuthChange(Some(u), lookup, created, refetched)
  {
  }

  /** The classification tests duplicates first: a duplicate-key error that mentions RLS is a duplicate. */
  lemma DuplicateTakesPrecedence()
    ensures Classify(DbError(Some("23505"), Some("RLS check"))) == Duplicate
    ensures Classify(DbError(Some("42501"), None)) == PermissionDenied
  {
  }

  /** The hook's state. */
  datatype AuthState = AuthState(user: Option<AuthUser>, profile: Option<Object>)

  /** The role string the profile carries, as `useRole` reads it. */
  function ProfileRole(profile: Option<Object>): (r: Option<string>)
    ensures r.Some? ==> profile.Some? && "role" in profile.value && profile.value["role"] == Str(r.value)
    ensures profile.Some? && "role" in profile.value && profile.value["role"].Str? ==> r == Some(profile.value["role"].s)
  {
    if profile.Some? && "role" in profile.value && profile.value["role"].Str? then Some(profile.value["role"].s) else None
  }

  /** `logout`: after signing out there is neither a user nor a profile. */
  function Logout(s: AuthState): (r: AuthState)
    ensures r.user.None? && r.profile.None?
    ensures ProfileRole(r.profile).None?
  {
    AuthState(None, None)
  }

  /** After logout the role view grants nothing: every permission flag is off. */
  lemma LogoutRevokesEverything(s: AuthState)
    ensures !UseRole.UseRole(ProfileRole(Logout(s).profile)).canViewAnalytics
    ensures !UseRole.UseRole(ProfileRole(Logout(s).profile)).canManageContent
    ensures !UseRole.UseRole(ProfileRole(Logout(s).profile)).canApproveResources
    ensures UseRole.UseRole(ProfileRole(Logout(s).profile)).role.None?
  {
  }

  /** A fallback profile for a user whose metadata names no role reads as a plain user. */
  lemma FallbackWithoutMetadataIsUser(u: AuthUser)
    requires u.metadata.None?
    ensures ProfileRole(Some(Minimal(u, true))) == Some("user")
    ensures UseRole.UseRole(ProfileRole(Some(Minimal(u, true)))).isUser
  {
  }
}
