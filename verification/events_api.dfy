/**
 * app/api/events/route.ts: listing every event, newest first, and creating
 * one (organizers and admins), which starts out 'active' with no attendees.
 */
module EventsApi {
  import opened Wrappers
  import opened Json
  import opened Sorting
  import opened Api

  datatype EventRow = EventRow(id: string, status: string, createdAt: int)

  function CreatedAt(e: EventRow): int { e.createdAt }

  /** GET: every event, newest first; there is no role filter. */
  function EventsGet(table: Fetched<EventRow>): (r: Listing<EventRow>)
    ensures table.FetchFailed? <==> r.ListError?
    ensures r.ListError? ==> r.reply == Caught(table.thrown, "Failed to fetch events")
    ensures r.Listing? ==> multiset(r.items) == multiset(table.rows) && SortedDesc(r.items, CreatedAt)
  {
    match table
    case FetchFailed(t) => ListError(Caught(t, "Failed to fetch events"))
    case Rows(rows) => Listing(SortDesc(rows, CreatedAt))
  }

  /** A table already in the database's order is returned unchanged. */
  lemma EventsGetKeepsOrderedTable(rows: seq<EventRow>)
    requires SortedDesc(rows, CreatedAt)
    ensures EventsGet(Rows(rows)) == Listing(rows)
  {
    SortDescSorted(rows, CreatedAt);
  }

  /** The body fields copied into the new row. */
  const EventFields: set<string> := {"title", "description", "start_date", "end_date", "location", "image_url"}

  /** The fields that must be present and non-empty. */
  predicate Complete(fields: Object) {
    Present(fields, "title") && Present(fields, "start_date") && Present(fields, "end_date") && Present(fields, "location")
  }

  /** The inserted row: the copied fields, status 'active', the organizer, zero attendees. */
  function NewEvent(fields: Object, userId: string): (row: Object)
    ensures forall k :: k in fields && k in EventFields ==> k in row && row[k] == fields[k]
    ensures forall k :: k in row ==> k in EventFields || k in {"status", "organizer_id", "attendee_count"}
    ensures "status" in row && row["status"] == Str("active")
    ensures "organizer_id" in row && row["organizer_id"] == Str(userId)
    ensures "attendee_count" in row && row["attendee_count"] == Num(0)
  {
    Pick(fields, EventFields)["status" := Str("active")]["organizer_id" := Str(userId)]["attendee_count" := Num(0)]
  }

  /** POST up to the insert. */
  function EventsPlan(body: Body, auth: Auth, profile: Lookup<Profile>): (p: Plan)
    ensures p.Insert? <==> body.Parsed? && auth.SignedIn? && profile.Found? && Manages(profile.value) && Complete(body.fields)
    ensures p.Insert? ==> p.row == NewEvent(body.fields, auth.id)
    ensures body.Malformed? ==> p == Respond(Caught(Some(body.message), "Failed to create event"))
    ensures !body.Malformed? && !StrictGate(auth, profile, "create events").Allow? ==>
      p == Respond(StrictGate(auth, profile, "create events").reply)
    ensures body.NullBody? && StrictGate(auth, profile, "create events").Allow? ==>
      p == Respond(Caught(Some(NullRead("title")), "Failed to create event"))
    ensures p.Respond? && p.reply.status == 400 <==>
      body.Parsed? && StrictGate(auth, profile, "create events").Allow? && !Complete(body.fields)
  {
    match body
    case Malformed(m) => Respond(Caught(Some(m), "Failed to create event"))
    case NullBody =>
      (match StrictGate(auth, profile, "create events")
       case Deny(reply) => Respond(reply)
       case Allow(_, _) => Respond(Caught(Some(NullRead("title")), "Failed to create event")))
    case Parsed(fields) =>
      match StrictGate(auth, profile, "create events")
      case Deny(reply) => Respond(reply)
      case Allow(id, _) =>
        if !Complete(fields) then Respond(ErrorReply(400, "Title, start date, end date, and location are required"))
        else Insert(NewEvent(fields, id))
  }

  /** POST: the reply once the insert (if any) has answered. */
  function EventsPost(body: Body, auth: Auth, profile: Lookup<Profile>, ins: Inserted): (r: Reply)
    ensures r.status == 201 <==> EventsPlan(body, auth, profile).Insert? && ins.Stored?
    ensures r.status == 201 ==> r.body == ins.row
    ensures EventsPlan(body, auth, profile).Respond? ==> r == EventsPlan(body, auth, profile).reply
    ensures EventsPlan(body, auth, profile).Insert? ==> r == InsertReply(ins, "event", Some("Check RLS policies for events table"))
  {
    match EventsPlan(body, auth, profile)
    case Respond(reply) =>
      assert reply.status != 201 by {
        if !body.Malformed? && !StrictGate(auth, profile, "create events").Allow? {
          assert reply == StrictGate(auth, profile, "create events").reply;
        }
      }
      reply
    case Insert(_) => InsertReply(ins, "event", Some("Check RLS policies for events table"))
  }

  /** Whatever the body says about status or attendees, a new event is active with zero attendees. */
  lemma NewEventsAreActive(fields: Object, auth: Auth, profile: Lookup<Profile>)
    requires EventsPlan(Parsed(fields), auth, profile).Insert?
    ensures EventsPlan(Parsed(fields), auth, profile).row["status"] == Str("active")
    ensures EventsPlan(Parsed(fields["status" := Str("draft")]["attendee_count" := Num(99)]), auth, profile)
         == EventsPlan(Parsed(fields), auth, profile)
  {
    var f1 := fields["status" := Str("draft")];
    var f2 := f1["attendee_count" := Num(99)];
    PickIgnores(fields, EventFields, "status", Str("draft"));
    PickIgnores(f1, EventFields, "attendee_count", Num(99));
    assert Complete(f2) == Complete(fields);
  }

  /**
   * A `null` body is refused by the gate exactly as an empty object is; a
   * caller the gate admits gets 500 with the TypeError of reading `title`
   * where the empty object gets 400.
   */
  lemma NullBodyThrowsAfterGate(auth: Auth, profile: Lookup<Profile>)
    ensures !StrictGate(auth, profile, "create events").Allow? ==>
      EventsPlan(NullBody, auth, profile) == EventsPlan(Parsed(map[]), auth, profile)
    ensures StrictGate(auth, profile, "create events").Allow? ==>
      && EventsPlan(NullBody, auth, profile).reply.status == 500
      && EventsPlan(Parsed(map[]), auth, profile).reply.status == 400
  {
  }

  /** The role check precedes validation: a plain user with an empty body is told 403, not 400. */
  lemma RoleCheckBeforeValidation(id: string)
    ensures EventsPlan(Parsed(map[]), SignedIn(id), Found(Profile(Some("user")))).reply.status == 403
  {
  }

  /** Validation looks at presence only: an event that ends before it starts is still inserted. */
  lemma NoDateOrderCheck(id: string)
    ensures EventsPlan(Parsed(map["title" := Str("T"), "start_date" := Str("2025-02-01"), "end_date" := Str("2025-01-01"), "location" := Str("Hall")]),
                       SignedIn(id), Found(Profile(Some("organizer")))).Insert?
  {
  }
}
