/**
 * app/api/users/sync-role/route.ts: copy the role and full name recorded in
 * the signed-in user's sign-up metadata into their `users` row. The role is
 * whatever truthy value the metadata holds; it is not checked against the
 * three role names.
 */
module SyncRole {
  import opened Wrappers
  import opened Json
  import opened Text
  import opened Api
  import opened AuthMetadata

  /** `supabase.auth.getSession()`: an error, no user, or the user. */
  datatype Session = SessionFailed | NoSession | Session(user: AuthUser)

  /** The upserted row. */
  function SyncRow(s: Session, nowIso: string): (row: Object)
    requires s.Session?
    ensures row.Keys == {"id", "email", "full_name", "role", "updated_at"}
    ensures row["id"] == Str(s.user.id)
    ensures row["email"] == Str(EmailText(s.user))
    ensures row["role"] == MetadataRole(Metadata(s.user))
    ensures row["full_name"] == FullName(Metadata(s.user), s.user.email)
    ensures row["updated_at"] == Str(nowIso)
  {
    map["id" := Str(s.user.id),
        "email" := Str(EmailText(s.user)),
        "full_name" := FullName(Metadata(s.user), s.user.email),
        "role" := MetadataRole(Metadata(s.user)),
        "updated_at" := Str(nowIso)]
  }

  /** `${value}` for the JSON values a row can hold. */
  function ValueText(v: Value): (t: string)
    ensures v.Str? ==> t == v.s
  {
    match v
    case Null => "null"
    case Bool(b) => if b then "true" else "false"
    case Num(n) => IntToString(n)
    case Str(s) => s
    case Compound => "[object Object]"
  }

  /** `${updatedUser.role}`: a row without the field renders as 'undefined'. */
  function RoleText(row: Object): string {
    if "role" in row then ValueText(row["role"]) else "undefined"
  }

  /** The handler's upsert outcome, or none when the session check ended the request. */
  function SyncPlan(s: Session, nowIso: string): (r: Option<Object>)
    ensures r.Some? <==> s.Session?
    ensures r.Some? ==> r.value == SyncRow(s, nowIso)
  {
    if s.Session? then Some(SyncRow(s, nowIso)) else None
  }

  /**
   * POST: 401 without a session user; 500 with details when the upsert fails;
   * 500 when no row comes back; otherwise 200 with the row and
   * 'Role synced to: ' followed by the stored role.
   */
  function SyncRolePost(s: Session, nowIso: string, result: Inserted): (r: Reply)
    ensures !s.Session? ==> r == ErrorReply(401, "Unauthorized")
    ensures s.Session? && result.InsertFailed? ==> r == DetailedError(500, "Failed to update role", result.message)
    ensures s.Session? && result.NothingReturned? ==> r == ErrorReply(500, "Failed to update user")
    ensures r.status == 200 <==> s.Session? && result.Stored?
    ensures r.status == 200 ==> "message" in r.body && r.body["message"] == Str("Role synced to: " + RoleText(result.row))
    ensures r.status == 200 ==> "success" in r.body && r.body["success"] == Bool(true)
  {
    if !s.Session? then ErrorReply(401, "Unauthorized")
    else match result
      case InsertFailed(m, _, _) => DetailedError(500, "Failed to update role", m)
      case NothingReturned => ErrorReply(500, "Failed to update user")
      case Stored(row) =>
        Reply(200, map["success" := Bool(true), "user" := Compound, "message" := Str("Role synced to: " + RoleText(row))])
  }

  /** No metadata, or an empty role, gives the role 'user'. */
  lemma DefaultsToUser(id: string, email: Option<string>, nowIso: string)
    ensures SyncRow(Session(AuthUser(id, email, None)), nowIso)["role"] == Str("user")
    ensures SyncRow(Session(AuthUser(id, email, Some(map["role" := Str("")]))), nowIso)["role"] == Str("user")
  {
  }

  /** Any non-empty metadata role is stored as it is, including one that names no role. */
  lemma MetadataRoleUnchecked(id: string, email: Option<string>, nowIso: string, role: string)
    requires role != ""
    ensures SyncRow(Session(AuthUser(id, email, Some(map["role" := Str(role)]))), nowIso)["role"] == Str(role)
  {
  }

  /** The stored role round-trips into the message: a synced 'admin' reads 'Role synced to: admin'. */
  lemma MessageNamesStoredRole(s: Session, nowIso: string, row: Object)
    requires s.Session? && "role" in row && row["role"] == Str("admin")
    ensures SyncRolePost(s, nowIso, Stored(row)).body["message"] == Str("Role synced to: admin")
  {
  }
}
