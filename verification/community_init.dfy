/**
 * app/api/communities/init/route.ts: make sure the 'General' community exists.
 * The lookup is a `.single()` on the name, so it finds the community only when
 * exactly one row is named 'General'; with none, or with several, it reports
 * an error that the handler ignores, and an organizer or admin creates one more.
 */
module CommunityInit {
  import opened Wrappers
  import opened Json
  import opened Seqs
  import opened Api

  const GeneralDescription: string := "A general chatroom for all campus members to connect and communicate"

  function IsGeneral(): Object -> bool {
    (c: Object) => "name" in c && c["name"] == Str("General")
  }

  /** The rows named 'General'. */
  function Generals(communities: seq<Object>): (r: seq<Object>)
    ensures forall c :: c in r <==> c in communities && "name" in c && c["name"] == Str("General")
  {
    Filter(communities, IsGeneral())
  }

  /** `.eq('name', 'General').single()` with its error dropped: the row when it is the only one. */
  function Existing(communities: seq<Object>): (r: Option<Object>)
    ensures r.Some? <==> |Generals(communities)| == 1
    ensures r.Some? ==> r.value in communities && "name" in r.value && r.value["name"] == Str("General")
  {
    var gs := Generals(communities);
    if |gs| == 1 then
      assert gs[0] in gs;
      Some(gs[0])
    else None
  }

  /** The General community row to insert. */
  function GeneralRow(creator: string): (row: Object)
    ensures row.Keys == {"name", "description", "created_by", "member_count"}
    ensures row["name"] == Str("General") && IsGeneral()(row)
    ensures row["created_by"] == Str(creator) && row["member_count"] == Num(0)
  {
    map["name" := Str("General"), "description" := Str(GeneralDescription), "created_by" := Str(creator), "member_count" := Num(0)]
  }

  /**
   * Up to the insert: 401 without a user; 200 with the community when exactly
   * one exists (before any role check); 403 unless the caller manages;
   * otherwise insert a new General row.
   */
  function InitPlan(user: Option<string>, communities: seq<Object>, profile: Option<Profile>): (p: Plan)
    ensures user.None? ==> p.Respond? && p.reply.status == 401
    ensures user.Some? && Existing(communities).Some? ==>
      p.Respond? && p.reply.status == 200 && "message" in p.reply.body && p.reply.body["message"] == Str("General community already exists")
    ensures p.Insert? <==> user.Some? && Existing(communities).None? && profile.Some? && Manages(profile.value)
    ensures p.Insert? ==> p.row == GeneralRow(user.value)
    ensures p.Respond? && p.reply.status == 403 <==>
      user.Some? && Existing(communities).None? && !(profile.Some? && Manages(profile.value))
  {
    if user.None? then Respond(ErrorReply(401, "Unauthorized"))
    else match Existing(communities)
      case Some(c) =>
        Respond(Reply(200, map["message" := Str("General community already exists"), "community" := Compound]))
      case None =>
        match LooseGate(user, profile, "create the General community")
        case Deny(reply) => Respond(reply)
        case Allow(id, _) => Insert(GeneralRow(id))
  }

  const InitFallback: string := "Failed to create General community"

  /** The engine's TypeError text for `community.id` when the insert returned no row. */
  const NullIdText: string := "Cannot read properties of null (reading 'id')"

  /**
   * The reply once the insert (if any) has answered. An insert error is
   * rethrown; `thrownIsError` says whether the client library raises it as an
   * `Error`, whose message the `catch` block then reports. With a truthy
   * creator id the handler next reads `community.id`, which throws a
   * TypeError when no row came back, and then calls `.catch` on the
   * membership insert's query builder: `catchMissing` is the TypeError's
   * message when that builder has no `catch` method, and `None` when it has
   * one. Only after both is the stored row answered with 201.
   */
  function InitPost(user: Option<string>, communities: seq<Object>, profile: Option<Profile>, ins: Inserted,
                    thrownIsError: bool, catchMissing: Option<string>): (r: Reply)
    ensures InitPlan(user, communities, profile).Respond? ==> r == InitPlan(user, communities, profile).reply
    ensures r.status == 201 ==> InitPlan(user, communities, profile).Insert? && !ins.InsertFailed?
    ensures InitPlan(user, communities, profile).Insert? && ins.InsertFailed? ==>
      r == Caught(Rethrown(ins.message, thrownIsError), InitFallback)
    ensures InitPlan(user, communities, profile).Insert? && user.value != "" && ins.NothingReturned? ==>
      r == Caught(Some(NullIdText), InitFallback)
    ensures InitPlan(user, communities, profile).Insert? && user.value != "" && ins.Stored? ==>
      (r.status == 201 <==> catchMissing.None?)
    ensures InitPlan(user, communities, profile).Insert? && user.value != "" && ins.Stored? && catchMissing.None? ==>
      r == Reply(201, ins.row)
    ensures InitPlan(user, communities, profile).Insert? && user.value != "" && ins.Stored? && catchMissing.Some? ==>
      r == Caught(catchMissing, InitFallback)
    ensures InitPlan(user, communities, profile).Insert? && user.value == "" && !ins.InsertFailed? ==>
      r.status == 201
  {
    match InitPlan(user, communities, profile)
    case Respond(reply) => reply
    case Insert(_) =>
      match ins
      case InsertFailed(m, _, _) => Caught(Rethrown(m, thrownIsError), InitFallback)
      case NothingReturned =>
        if user.value == "" then Reply(201, map[]) else Caught(Some(NullIdText), InitFallback)
      case Stored(row) =>
        if user.value != "" && catchMissing.Some? then Caught(catchMissing, InitFallback)
        else Reply(201, row)
  }

  /**
   * When the query builder has no `catch` method, a General community that
   * was stored is still answered with 500: the row exists, but the caller is
   * told that creating it failed.
   */
  lemma StoredButRefusedWithoutCatch(user: string, communities: seq<Object>, profile: Option<Profile>, row: Object, message: string)
    requires user != "" && InitPlan(Some(user), communities, profile).Insert?
    ensures InitPost(Some(user), communities, profile, Stored(row), true, Some(message)) == Caught(Some(message), InitFallback)
    ensures InitPost(Some(user), communities, profile, Stored(row), true, Some(message)).status == 500
  {
  }

  /** The table after a successful insert of `row`. */
  function AfterInsert(communities: seq<Object>, row: Object): seq<Object> {
    communities + [row]
  }

  /**
   * Idempotence from an empty start: once a manager has created General, the
   * next call (by anyone signed in) finds it and creates nothing.
   */
  lemma InitIdempotent(communities: seq<Object>, user: string, profile: Option<Profile>, other: string, otherProfile: Option<Profile>)
    requires Generals(communities) == []
    requires profile.Some? && Manages(profile.value)
    ensures InitPlan(Some(user), communities, profile) == Insert(GeneralRow(user))
    ensures InitPlan(Some(other), AfterInsert(communities, GeneralRow(user)), otherProfile).Respond?
    ensures InitPlan(Some(other), AfterInsert(communities, GeneralRow(user)), otherProfile).reply.status == 200
  {
    FilterConcat(communities, [GeneralRow(user)], IsGeneral());
    assert Generals([GeneralRow(user)]) == [GeneralRow(user)];
  }

  /** A plain user can trigger nothing but the lookup: with General present they get 200, otherwise 403. */
  lemma PlainUserNeverInserts(user: string, communities: seq<Object>)
    ensures !InitPlan(Some(user), communities, Some(Profile(Some("user")))).Insert?
  {
  }

  /**
   * With two General rows the `.single()` lookup fails, so a manager's call
   * inserts a third one: the handler is idempotent only while there is at most one.
   */
  lemma DuplicatesGrow(user: string, a: Object, b: Object)
    requires IsGeneral()(a) && IsGeneral()(b)
    ensures InitPlan(Some(user), [a, b], Some(Profile(Some("admin")))) == Insert(GeneralRow(user))
  {
    assert [a, b] == [a] + [b];
    FilterConcat([a], [b], IsGeneral());
    assert Generals([a]) == [a];
    assert Generals([b]) == [b];
  }
}
