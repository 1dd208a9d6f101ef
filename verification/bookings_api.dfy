/**
 * app/api/bookings/route.ts: the caller's own bookings, latest start first,
 * and booking a resource (organizers and admins), where the server sets the
 * booker and the 'pending' status over whatever the body says.
 */
module BookingsApi {
  import opened Wrappers
  import opened Json
  import opened Seqs
  import opened Sorting
  import opened Api

  datatype BookingRow = BookingRow(id: string, userId: string, resourceId: string, start: int, status: string)

  function OwnedBy(userId: string): BookingRow -> bool {
    (b: BookingRow) => b.userId == userId
  }

  function Start(b: BookingRow): int { b.start }

  /** GET: 401 without a user; otherwise exactly the caller's bookings, latest start first. */
  function BookingsGet(user: Option<string>, table: Fetched<BookingRow>): (r: Listing<BookingRow>)
    ensures user.None? ==> r == ListError(ErrorReply(401, "Unauthorized"))
    ensures user.Some? && table.FetchFailed? ==> r == ListError(Caught(table.thrown, "Failed to fetch bookings"))
    ensures r.Listing? ==> user.Some? && table.Rows?
    ensures r.Listing? ==> SortedDesc(r.items, Start)
    ensures r.Listing? ==> forall b :: b in r.items <==> b in table.rows && b.userId == user.value
  {
    if user.None? then ListError(ErrorReply(401, "Unauthorized"))
    else match table
      case FetchFailed(t) => ListError(Caught(t, "Failed to fetch bookings"))
      case Rows(rows) =>
        var mine := Filter(rows, OwnedBy(user.value));
        SortDescSameElements(mine, Start);
        Listing(SortDesc(mine, Start))
  }

  /** Nobody sees another user's booking. */
  lemma OnlyOwnBookings(user: string, rows: seq<BookingRow>, b: BookingRow)
    requires b in rows && b.userId != user
    ensures b !in BookingsGet(Some(user), Rows(rows)).items
  {
  }

  /** `{ ...body, user_id: user.id, status: 'pending' }` */
  function NewBooking(fields: Object, userId: string): (row: Object)
    ensures row.Keys == fields.Keys + {"user_id", "status"}
    ensures row["user_id"] == Str(userId) && row["status"] == Str("pending")
    ensures forall k :: k in fields && k != "user_id" && k != "status" ==> row[k] == fields[k]
  {
    fields["user_id" := Str(userId)]["status" := Str("pending")]
  }

  /** What `...body` copies: the body's own fields, and nothing for `null`. */
  function Spread(body: Body): (fields: Object)
    requires !body.Malformed?
    ensures body.NullBody? ==> fields == map[]
    ensures body.Parsed? ==> fields == body.fields
  {
    if body.NullBody? then map[] else body.fields
  }

  /**
   * POST up to the insert: the body is read first, then 401 without a user,
   * then the loose role check. No field of the body is read, so a `null`
   * body is spread as nothing and does not throw.
   */
  function BookingsPlan(body: Body, user: Option<string>, profile: Option<Profile>): (p: Plan)
    ensures body.Malformed? ==> p == Respond(Caught(Some(body.message), "Failed to create booking"))
    ensures !body.Malformed? && user.None? ==> p == Respond(ErrorReply(401, "Unauthorized"))
    ensures p.Insert? <==> !body.Malformed? && user.Some? && profile.Some? && Manages(profile.value)
    ensures p.Insert? ==> p.row == NewBooking(Spread(body), user.value)
    ensures p.Respond? && !body.Malformed? && user.Some? ==> p.reply.status == 403
  {
    match body
    case Malformed(m) => Respond(Caught(Some(m), "Failed to create booking"))
    case _ =>
      match LooseGate(user, profile, "book resources")
      case Deny(reply) => Respond(reply)
      case Allow(id, _) => Insert(NewBooking(Spread(body), id))
  }

  /**
   * POST: an insert error is rethrown, and reported with its message when the
   * client library raises it as an `Error` (`thrownIsError`); an insert that
   * returns no row is answered 201 with an empty body.
   */
  function BookingsPost(body: Body, user: Option<string>, profile: Option<Profile>, ins: Inserted, thrownIsError: bool): (r: Reply)
    ensures r.status == 201 <==> BookingsPlan(body, user, profile).Insert? && !ins.InsertFailed?
    ensures r.status == 201 && ins.Stored? ==> r.body == ins.row
    ensures BookingsPlan(body, user, profile).Respond? ==> r == BookingsPlan(body, user, profile).reply
    ensures BookingsPlan(body, user, profile).Insert? && ins.InsertFailed? ==>
      r == Caught(Rethrown(ins.message, thrownIsError), "Failed to create booking")
    ensures BookingsPlan(body, user, profile).Insert? && ins.NothingReturned? ==> r == Reply(201, map[])
  {
    match BookingsPlan(body, user, profile)
    case Respond(reply) => reply
    case Insert(_) =>
      match ins
      case InsertFailed(m, _, _) => Caught(Rethrown(m, thrownIsError), "Failed to create booking")
      case NothingReturned => Reply(201, map[])
      case Stored(row) => Reply(201, row)
  }

  /** A body that names another booker or another status is overruled. */
  lemma ServerChoosesBookerAndStatus(fields: Object, user: string, role: string, other: string, status: string)
    requires role == "organizer" || role == "admin"
    ensures BookingsPlan(Parsed(fields["user_id" := Str(other)]["status" := Str(status)]), Some(user), Some(Profile(Some(role))))
         == BookingsPlan(Parsed(fields), Some(user), Some(Profile(Some(role))))
  {
    var f2 := fields["user_id" := Str(other)]["status" := Str(status)];
    assert NewBooking(f2, user) == NewBooking(fields, user);
  }

  /**
   * A `null` body is planned as an empty object: a manager's booking row
   * then holds only the booker and the status.
   */
  lemma NullBodyBooksNothingButBookerAndStatus(user: Option<string>, profile: Option<Profile>)
    ensures BookingsPlan(NullBody, user, profile) == BookingsPlan(Parsed(map[]), user, profile)
    ensures BookingsPlan(NullBody, user, profile).Insert? ==>
      BookingsPlan(NullBody, user, profile).row.Keys == {"user_id", "status"}
  {
  }

  /** A plain user cannot book, whatever the body says. */
  lemma PlainUserCannotBook(fields: Object, user: string)
    ensures BookingsPlan(Parsed(fields), Some(user), Some(Profile(Some("user")))).reply.status == 403
  {
  }
}
