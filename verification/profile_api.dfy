/**
 * app/api/users/profile/route.ts: the caller updates their own full name
 * and/or email; nothing else in the row can be changed here.
 */
module ProfileApi {
  import opened Wrappers
  import opened Json
  import opened Api

  /** The outcome of the PUT up to the update: a reply, or the caller's row and the changes to write. */
  datatype Write = Reject(reply: Reply) | Update(id: string, changes: Object)

  /** `updates`: each truthy field of the two, and the time stamp. */
  function Changes(fields: Object, nowIso: string): (c: Object)
    ensures "full_name" in c <==> Present(fields, "full_name")
    ensures "email" in c <==> Present(fields, "email")
    ensures "updated_at" in c && c["updated_at"] == Str(nowIso)
    ensures c.Keys <= {"full_name", "email", "updated_at"}
    ensures forall k :: k in c && k != "updated_at" ==> c[k] == fields[k]
  {
    var a: Object := if Present(fields, "full_name") then map["full_name" := fields["full_name"]] else map[];
    var b: Object := if Present(fields, "email") then a["email" := fields["email"]] else a;
    b["updated_at" := Str(nowIso)]
  }

  /**
   * PUT up to the update: 401 without a user, then the body is read and
   * destructured (which throws on `null`), then 400 when neither field is given.
   */
  function ProfilePlan(user: Option<string>, body: Body, nowIso: string): (w: Write)
    ensures user.None? ==> w == Reject(ErrorReply(401, "Unauthorized"))
    ensures user.Some? && body.Malformed? ==> w == Reject(Caught(Some(body.message), "Failed to update profile"))
    ensures user.Some? && body.NullBody? ==>
      w == Reject(Caught(Some(NullDestructure("full_name", "body")), "Failed to update profile"))
    ensures w.Update? <==> user.Some? && body.Parsed? && (Present(body.fields, "full_name") || Present(body.fields, "email"))
    ensures w.Update? ==> w.id == user.value && w.changes == Changes(body.fields, nowIso)
    ensures w.Reject? && w.reply.status == 400 <==> user.Some? && body.Parsed? && !Present(body.fields, "full_name") && !Present(body.fields, "email")
  {
    if user.None? then Reject(ErrorReply(401, "Unauthorized"))
    else match body
      case Malformed(m) => Reject(Caught(Some(m), "Failed to update profile"))
      case NullBody => Reject(Caught(Some(NullDestructure("full_name", "body")), "Failed to update profile"))
      case Parsed(fields) =>
        if !Present(fields, "full_name") && !Present(fields, "email") then
          Reject(ErrorReply(400, "At least one field (full_name or email) is required"))
        else Update(user.value, Changes(fields, nowIso))
  }

  /**
   * PUT: the updated row with status 200; an update error is rethrown, and
   * reported with its message when the client library raises it as an
   * `Error` (`thrownIsError`); no row back is answered 200 with an empty body.
   */
  function ProfilePut(user: Option<string>, body: Body, nowIso: string, result: Inserted, thrownIsError: bool): (r: Reply)
    ensures r.status == 200 <==> ProfilePlan(user, body, nowIso).Update? && !result.InsertFailed?
    ensures r.status == 200 && result.Stored? ==> r.body == result.row
    ensures ProfilePlan(user, body, nowIso).Reject? ==> r == ProfilePlan(user, body, nowIso).reply
    ensures ProfilePlan(user, body, nowIso).Update? && result.InsertFailed? ==>
      r == Caught(Rethrown(result.message, thrownIsError), "Failed to update profile")
    ensures ProfilePlan(user, body, nowIso).Update? && result.NothingReturned? ==> r == Reply(200, map[])
  {
    match ProfilePlan(user, body, nowIso)
    case Reject(reply) => reply
    case Update(_, _) =>
      match result
      case InsertFailed(m, _, _) => Caught(Rethrown(m, thrownIsError), "Failed to update profile")
      case NothingReturned => Reply(200, map[])
      case Stored(row) => Reply(200, row)
  }

  /** A body that also names a role, id or anything else changes only the two fields and the stamp. */
  lemma RoleNeverChanges(user: string, fields: Object, nowIso: string)
    requires ProfilePlan(Some(user), Parsed(fields), nowIso).Update?
    ensures "role" !in ProfilePlan(Some(user), Parsed(fields), nowIso).changes
    ensures "id" !in ProfilePlan(Some(user), Parsed(fields), nowIso).changes
    ensures ProfilePlan(Some(user), Parsed(fields), nowIso).id == user
  {
  }

  /** A signed-in caller's `null` body is answered 500, where an empty object is answered 400. */
  lemma NullBodyThrows(user: string, nowIso: string)
    ensures ProfilePlan(Some(user), NullBody, nowIso).reply.status == 500
    ensures ProfilePlan(Some(user), Parsed(map[]), nowIso).reply.status == 400
  {
  }

  /** An empty string counts as absent: a body with only `email: ""` is rejected. */
  lemma EmptyStringIsMissing(user: string, nowIso: string)
    ensures ProfilePlan(Some(user), Parsed(map["email" := Str("")]), nowIso).reply.status == 400
  {
  }
}
