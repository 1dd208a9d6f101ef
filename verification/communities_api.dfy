/**
 * app/api/communities/route.ts: listing communities with their member count,
 * and creating one (organizers and admins), after which the creator is added
 * as the community's organizer member.
 */
module CommunitiesApi {
  import opened Wrappers
  import opened Json
  import opened Seqs
  import opened Sorting
  import opened Api

  /**
   * A `communities` row joined with `community_members(count)`: the join's
   * first count, when the join came back and has one.
   */
  datatype CommunityRow = CommunityRow(id: string, name: string, createdAt: int, memberCount: Option<int>)

  /** A listed community: the row with `member_count` filled in. */
  datatype Community = Community(id: string, name: string, createdAt: int, memberCount: int)

  /** `community.community_members?.[0]?.count || 0` */
  function WithCount(c: CommunityRow): (r: Community)
    ensures r.id == c.id && r.name == c.name && r.createdAt == c.createdAt
    ensures c.memberCount.Some? ==> r.memberCount == c.memberCount.value
    ensures c.memberCount.None? ==> r.memberCount == 0
  {
    Community(c.id, c.name, c.createdAt, c.memberCount.GetOr(0))
  }

  function CreatedAt(c: CommunityRow): int { c.createdAt }

  function MapCount(s: seq<CommunityRow>): (r: seq<Community>)
    ensures |r| == |s|
    ensures forall i :: 0 <= i < |s| ==> r[i] == WithCount(s[i])
  {
    if |s| == 0 then [] else [WithCount(s[0])] + MapCount(s[1..])
  }

  /** GET: every community, newest first, each with its member count (0 when none came back). */
  function CommunitiesGet(table: Fetched<CommunityRow>): (r: Listing<Community>)
    ensures table.FetchFailed? <==> r.ListError?
    ensures r.ListError? ==> r.reply == Caught(table.thrown, "Failed to fetch communities")
    ensures r.Listing? ==> |r.items| == |table.rows|
    ensures r.Listing? ==> forall i, j :: 0 <= i < j < |r.items| ==> r.items[i].createdAt >= r.items[j].createdAt
    ensures r.Listing? ==> forall c :: c in r.items ==> exists row :: row in table.rows && c == WithCount(row)
    ensures r.Listing? ==> forall row :: row in table.rows ==> WithCount(row) in r.items
  {
    match table
    case FetchFailed(t) => ListError(Caught(t, "Failed to fetch communities"))
    case Rows(rows) =>
      SortedWithCounts(rows);
      var out := MapCount(SortDesc(rows, CreatedAt));
      Listing(out)
  }

  /** Sorting then counting keeps exactly the rows, each with its count. */
  lemma SortedWithCounts(rows: seq<CommunityRow>)
    ensures forall c :: c in MapCount(SortDesc(rows, CreatedAt)) ==> exists row :: row in rows && c == WithCount(row)
    ensures forall row :: row in rows ==> WithCount(row) in MapCount(SortDesc(rows, CreatedAt))
  {
    var sorted := SortDesc(rows, CreatedAt);
    var out := MapCount(sorted);
    forall c | c in out ensures exists row :: row in rows && c == WithCount(row) {
      var i :| 0 <= i < |out| && out[i] == c;
      assert sorted[i] in multiset(sorted);
      assert sorted[i] in rows;
    }
    forall row | row in rows ensures WithCount(row) in out {
      assert row in multiset(rows);
      assert row in sorted;
      var i :| 0 <= i < |sorted| && sorted[i] == row;
      assert out[i] == WithCount(row);
    }
  }

  // ---------------------------------------------------------------------------
  // POST
  // ---------------------------------------------------------------------------

  /** The inserted row: name, description, creator, and a member count of zero. */
  function NewCommunity(fields: Object, userId: string): (row: Object)
    requires "name" in fields && "description" in fields
    ensures row.Keys == {"name", "description", "created_by", "member_count"}
    ensures row["name"] == fields["name"] && row["description"] == fields["description"]
    ensures row["created_by"] == Str(userId) && row["member_count"] == Num(0)
  {
    map["name" := fields["name"], "description" := fields["description"], "created_by" := Str(userId), "member_count" := Num(0)]
  }

  /** POST up to the insert. */
  function CommunitiesPlan(body: Body, auth: Auth, profile: Lookup<Profile>): (p: Plan)
    ensures p.Insert? <==>
      body.Parsed? && auth.SignedIn? && profile.Found? && Manages(profile.value)
      && Present(body.fields, "name") && Present(body.fields, "description")
    ensures p.Insert? ==> p.row == NewCommunity(body.fields, auth.id)
    ensures body.Malformed? ==> p == Respond(Caught(Some(body.message), "Failed to create community"))
    ensures !body.Malformed? && !StrictGate(auth, profile, "create communities").Allow? ==>
      p == Respond(StrictGate(auth, profile, "create communities").reply)
    ensures body.NullBody? && StrictGate(auth, profile, "create communities").Allow? ==>
      p == Respond(Caught(Some(NullRead("name")), "Failed to create community"))
    ensures p.Respond? && p.reply.status == 400 <==>
      body.Parsed? && StrictGate(auth, profile, "create communities").Allow?
      && !(Present(body.fields, "name") && Present(body.fields, "description"))
  {
    match body
    case Malformed(m) => Respond(Caught(Some(m), "Failed to create community"))
    case NullBody =>
      (match StrictGate(auth, profile, "create communities")
       case Deny(reply) => Respond(reply)
       case Allow(_, _) => Respond(Caught(Some(NullRead("name")), "Failed to create community")))
    case Parsed(fields) =>
      match StrictGate(auth, profile, "create communities")
      case Deny(reply) => Respond(reply)
      case Allow(id, _) =>
        if !Present(fields, "name") || !Present(fields, "description") then
          Respond(ErrorReply(400, "Name and description are required"))
        else Insert(NewCommunity(fields, id))
  }

  /**
   * A `null` body is refused by the gate exactly as an empty object is; a
   * caller the gate admits gets 500 with the TypeError of reading `name`
   * where the empty object gets 400.
   */
  lemma NullBodyThrowsAfterGate(auth: Auth, profile: Lookup<Profile>)
    ensures !StrictGate(auth, profile, "create communities").Allow? ==>
      CommunitiesPlan(NullBody, auth, profile) == CommunitiesPlan(Parsed(map[]), auth, profile)
    ensures StrictGate(auth, profile, "create communities").Allow? ==>
      && CommunitiesPlan(NullBody, auth, profile).reply.status == 500
      && CommunitiesPlan(Parsed(map[]), auth, profile).reply.status == 400
  {
  }

  /** The `community_members` row that makes the creator the community's organizer. */
  function CreatorMembership(community: Object, userId: string): (m: Object)
    ensures "user_id" in m && m["user_id"] == Str(userId)
    ensures "role" in m && m["role"] == Str("organizer")
    ensures "community_id" in m <==> "id" in community
    ensures "id" in community ==> m["community_id"] == community["id"]
  {
    var base := map["user_id" := Str(userId), "role" := Str("organizer")];
    if "id" in community then base["community_id" := community["id"]] else base
  }

  /** The POST's reply and the membership row it then writes, if any. */
  datatype Outcome = Outcome(reply: Reply, membership: Option<Object>)

  /**
   * POST: the reply once the insert has answered, and the membership insert
   * that follows a stored community. That second insert's result is not
   * consulted, so it is not a parameter.
   */
  function CommunitiesPost(body: Body, auth: Auth, profile: Lookup<Profile>, ins: Inserted): (o: Outcome)
    ensures o.reply.status == 201 <==> CommunitiesPlan(body, auth, profile).Insert? && ins.Stored?
    ensures o.reply.status == 201 ==> o.reply.body == ins.row
    ensures o.membership.Some? <==> o.reply.status == 201
    ensures o.membership.Some? ==> o.membership.value == CreatorMembership(ins.row, auth.id)
    ensures CommunitiesPlan(body, auth, profile).Respond? ==> o.reply == CommunitiesPlan(body, auth, profile).reply
    ensures CommunitiesPlan(body, auth, profile).Insert? ==> o.reply == InsertReply(ins, "community", None)
  {
    match CommunitiesPlan(body, auth, profile)
    case Respond(reply) =>
      assert reply.status != 201 by {
        if !body.Malformed? && !StrictGate(auth, profile, "create communities").Allow? {
          assert reply == StrictGate(auth, profile, "create communities").reply;
        }
      }
      Outcome(reply, None)
    case Insert(_) =>
      var reply := InsertReply(ins, "community", None);
      if ins.Stored? then Outcome(reply, Some(CreatorMembership(ins.row, auth.id)))
      else Outcome(reply, None)
  }

  /**
   * This handler has no default hint: an insert error with a null hint is
   * answered with `hint: null`, and an empty hint is passed on as it is,
   * where the resource and event handlers substitute their default text.
   */
  lemma NoDefaultHint(body: Body, auth: Auth, profile: Lookup<Profile>, m: string, c: string)
    requires CommunitiesPlan(body, auth, profile).Insert?
    ensures CommunitiesPost(body, auth, profile, InsertFailed(m, c, None)).reply.body["hint"] == Null
    ensures CommunitiesPost(body, auth, profile, InsertFailed(m, c, Some(""))).reply.body["hint"] == Str("")
  {
  }

  /**
   * Whatever the membership insert does, the reply is the one the community
   * insert decided: a stored community is answered 201 with its row.
   */
  lemma CreatedMeans201(fields: Object, id: string, role: string, row: Object)
    requires role == "organizer" || role == "admin"
    requires Present(fields, "name") && Present(fields, "description")
    ensures CommunitiesPost(Parsed(fields), SignedIn(id), Found(Profile(Some(role))), Stored(row)).reply == Reply(201, row)
    ensures CommunitiesPost(Parsed(fields), SignedIn(id), Found(Profile(Some(role))), Stored(row)).membership == Some(CreatorMembership(row, id))
  {
  }
}
