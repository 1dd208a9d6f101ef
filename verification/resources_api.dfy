/**
 * app/api/resources/route.ts: listing resources (plain users see only approved
 * ones) and creating one (organizers and admins; an admin's resource is
 * approved at once, an organizer's waits as pending).
 */
module ResourcesApi {
  import opened Wrappers
  import opened Json
  import opened Seqs
  import opened Sorting
  import opened Api

  datatype ResourceRow = ResourceRow(id: string, status: string, createdAt: int)

  /** `userRole`: the profile's role when signed in and set, otherwise 'user'. */
  function ViewerRole(user: Option<string>, profile: Option<Profile>): (role: string)
    ensures user.None? ==> role == "user"
    ensures role != "user" ==> user.Some? && profile.Some? && profile.value.role == Some(role)
    ensures user.Some? && profile.Some? && profile.value.role.Some? && profile.value.role.value != "" ==>
      role == profile.value.role.value
    ensures role == "user" <==> user.None? || profile.None? || profile.value.role in {None, Some(""), Some("user")}
  {
    if user.Some? && profile.Some? && profile.value.role.Some? && profile.value.role.value != "" then profile.value.role.value
    else "user"
  }

  /** The query's extra `.eq('status', 'approved')`, added only for the role 'user'. */
  function VisibleFor(role: string): ResourceRow -> bool {
    (r: ResourceRow) => role != "user" || r.status == "approved"
  }

  function CreatedAt(r: ResourceRow): int { r.createdAt }

  /** GET: the rows the viewer may see, newest first. */
  function ResourcesGet(user: Option<string>, profile: Option<Profile>, table: Fetched<ResourceRow>): (r: Listing<ResourceRow>)
    ensures table.FetchFailed? <==> r.ListError?
    ensures r.ListError? ==> r.reply == Caught(table.thrown, "Failed to fetch resources")
    ensures r.Listing? ==> SortedDesc(r.items, CreatedAt)
    ensures r.Listing? ==> forall x :: x in r.items <==> x in table.rows && (ViewerRole(user, profile) == "user" ==> x.status == "approved")
  {
    match table
    case FetchFailed(t) => ListError(Caught(t, "Failed to fetch resources"))
    case Rows(rows) =>
      var kept := Filter(rows, VisibleFor(ViewerRole(user, profile)));
      SortDescSameElements(kept, CreatedAt);
      Listing(SortDesc(kept, CreatedAt))
  }

  /** Signed-out visitors see exactly what a plain user sees. */
  lemma AnonymousSeesApprovedOnly(profile: Option<Profile>, table: Fetched<ResourceRow>)
    ensures ResourcesGet(None, profile, table) == ResourcesGet(Some("u"), Some(Profile(Some("user"))), table)
    ensures ResourcesGet(None, profile, table).Listing? ==>
      forall x :: x in ResourcesGet(None, profile, table).items ==> x.status == "approved"
  {
  }

  /** Organizers and admins see every row: the listing is a reordering of the table. */
  lemma ManagersSeeEverything(user: string, role: string, rows: seq<ResourceRow>)
    requires role == "organizer" || role == "admin"
    ensures multiset(ResourcesGet(Some(user), Some(Profile(Some(role))), Rows(rows)).items) == multiset(rows)
  {
    assert role != "user" && role != "";
    assert ViewerRole(Some(user), Some(Profile(Some(role)))) == role;
    FilterAll(rows, VisibleFor(role));
  }

  /**
   * The test is "is the role exactly 'user'", not "is the role a manager": a
   * stored role naming no role sees pending resources too.
   */
  lemma UnknownRoleSeesPending(user: string)
    ensures ResourcesGet(Some(user), Some(Profile(Some("guest"))), Rows([ResourceRow("r1", "pending", 0)])).items
         == [ResourceRow("r1", "pending", 0)]
  {
    FilterAll([ResourceRow("r1", "pending", 0)], VisibleFor("guest"));
  }

  // ---------------------------------------------------------------------------
  // POST
  // ---------------------------------------------------------------------------

  /** The body fields copied into the new row. */
  const ResourceFields: set<string> :=
    {"name", "description", "resource_type", "location", "capacity", "availability_start", "availability_end", "image_url"}

  /** `status`: approved when an admin creates it, pending otherwise. */
  function InitialStatus(role: string): string {
    if role == "admin" then "approved" else "pending"
  }

  /** The keys the server sets are not among the copied body fields. */
  lemma ServerKeysNotCopied()
    ensures forall k :: k in ResourceFields ==> k != "status" && k != "created_by" && k != "approved_by" && k != "approved_at"
  {
  }

  /** The inserted row: the copied fields, status and creator, and for admins the approval stamp. */
  function NewResource(fields: Object, userId: string, role: string, nowIso: string): (row: Object)
    ensures forall k :: k in fields && k in ResourceFields ==> k in row && row[k] == fields[k]
    ensures forall k :: k in row ==> k in ResourceFields || k in {"status", "created_by", "approved_by", "approved_at"}
    ensures "status" in row && row["status"] == Str(InitialStatus(role))
    ensures "created_by" in row && row["created_by"] == Str(userId)
    ensures "approved_by" in row <==> role == "admin"
    ensures "approved_at" in row <==> role == "admin"
    ensures role == "admin" ==> row["approved_by"] == Str(userId) && row["approved_at"] == Str(nowIso)
  {
    ServerKeysNotCopied();
    var base := Pick(fields, ResourceFields)["status" := Str(InitialStatus(role))]["created_by" := Str(userId)];
    if role == "admin" then base["approved_by" := Str(userId)]["approved_at" := Str(nowIso)] else base
  }

  /** POST up to the insert: the reply that ends the request, or the row to insert. */
  function ResourcesPlan(body: Body, auth: Auth, profile: Lookup<Profile>, nowIso: string): (p: Plan)
    ensures p.Insert? <==>
      && body.Parsed? && auth.SignedIn? && profile.Found? && Manages(profile.value)
      && Present(body.fields, "name") && Present(body.fields, "resource_type")
    ensures p.Insert? ==> p.row == NewResource(body.fields, auth.id, profile.value.role.value, nowIso)
    ensures body.Malformed? ==> p == Respond(Caught(Some(body.message), "Failed to create resource"))
    ensures !body.Malformed? && !StrictGate(auth, profile, "create resources").Allow? ==>
      p == Respond(StrictGate(auth, profile, "create resources").reply)
    ensures body.NullBody? && StrictGate(auth, profile, "create resources").Allow? ==>
      p == Respond(Caught(Some(NullRead("name")), "Failed to create resource"))
    ensures p.Respond? && p.reply.status == 400 <==>
      body.Parsed? && StrictGate(auth, profile, "create resources").Allow?
      && !(Present(body.fields, "name") && Present(body.fields, "resource_type"))
  {
    match body
    case Malformed(m) => Respond(Caught(Some(m), "Failed to create resource"))
    case NullBody =>
      (match StrictGate(auth, profile, "create resources")
       case Deny(reply) => Respond(reply)
       case Allow(_, _) => Respond(Caught(Some(NullRead("name")), "Failed to create resource")))
    case Parsed(fields) =>
      match StrictGate(auth, profile, "create resources")
      case Deny(reply) => Respond(reply)
      case Allow(id, role) =>
        if !Present(fields, "name") || !Present(fields, "resource_type") then
          Respond(ErrorReply(400, "Name and resource type are required"))
        else
          Insert(NewResource(fields, id, role, nowIso))
  }

  /** POST: the reply once the insert (if any) has answered. */
  function ResourcesPost(body: Body, auth: Auth, profile: Lookup<Profile>, nowIso: string, ins: Inserted): (r: Reply)
    ensures r.status == 201 <==> ResourcesPlan(body, auth, profile, nowIso).Insert? && ins.Stored?
    ensures r.status == 201 ==> r.body == ins.row
    ensures ResourcesPlan(body, auth, profile, nowIso).Respond? ==> r == ResourcesPlan(body, auth, profile, nowIso).reply
    ensures ResourcesPlan(body, auth, profile, nowIso).Insert? ==>
      r == InsertReply(ins, "resource", Some("Check RLS policies for resources table"))
  {
    match ResourcesPlan(body, auth, profile, nowIso)
    case Respond(reply) =>
      assert reply.status != 201 by {
        if !body.Malformed? && !StrictGate(auth, profile, "create resources").Allow? {
          assert reply == StrictGate(auth, profile, "create resources").reply;
        }
      }
      reply
    case Insert(_) => InsertReply(ins, "resource", Some("Check RLS policies for resources table"))
  }

  /** Authorisation comes before validation: a signed-out caller with an empty body is told 401, not 400. */
  lemma AuthorizationBeforeValidation(profile: Lookup<Profile>, nowIso: string)
    ensures ResourcesPlan(Parsed(map[]), Anonymous, profile, nowIso).reply.status == 401
  {
  }

  /**
   * A `null` body is refused by the gate exactly as an empty object is; a
   * caller the gate admits gets 500 with the TypeError of reading `name`
   * where the empty object gets 400.
   */
  lemma NullBodyThrowsAfterGate(auth: Auth, profile: Lookup<Profile>, nowIso: string)
    ensures !StrictGate(auth, profile, "create resources").Allow? ==>
      ResourcesPlan(NullBody, auth, profile, nowIso) == ResourcesPlan(Parsed(map[]), auth, profile, nowIso)
    ensures StrictGate(auth, profile, "create resources").Allow? ==>
      && ResourcesPlan(NullBody, auth, profile, nowIso).reply.status == 500
      && ResourcesPlan(Parsed(map[]), auth, profile, nowIso).reply.status == 400
  {
  }

  /** The role check comes before validation too: a plain user with an empty body is told 403, not 400. */
  lemma RoleCheckBeforeValidation(id: string, nowIso: string)
    ensures ResourcesPlan(Parsed(map[]), SignedIn(id), Found(Profile(Some("user"))), nowIso).reply.status == 403
  {
  }

  /**
   * Only the listed fields reach the row: a body that also names `status`,
   * `created_by` or `approved_by` is planned exactly as one that does not.
   */
  lemma ClientCannotChooseStatus(fields: Object, extra: Object, auth: Auth, profile: Lookup<Profile>, nowIso: string)
    requires forall k :: k in extra ==> k !in ResourceFields
    ensures ResourcesPlan(Parsed(fields + extra), auth, profile, nowIso) == ResourcesPlan(Parsed(fields - extra.Keys), auth, profile, nowIso)
  {
    var a := fields + extra;
    var b := fields - extra.Keys;
    assert Pick(a, ResourceFields) == Pick(b, ResourceFields);
    assert Present(a, "name") == Present(b, "name");
    assert Present(a, "resource_type") == Present(b, "resource_type");
  }

  /** Admin-created resources are approved and stamped; organizer-created ones are pending and unstamped. */
  lemma ApprovalFollowsRole(fields: Object, id: string, nowIso: string)
    requires Present(fields, "name") && Present(fields, "resource_type")
    ensures ResourcesPlan(Parsed(fields), SignedIn(id), Found(Profile(Some("admin"))), nowIso).row["status"] == Str("approved")
    ensures ResourcesPlan(Parsed(fields), SignedIn(id), Found(Profile(Some("organizer"))), nowIso).row["status"] == Str("pending")
    ensures "approved_by" !in ResourcesPlan(Parsed(fields), SignedIn(id), Found(Profile(Some("organizer"))), nowIso).row
  {
  }
}
