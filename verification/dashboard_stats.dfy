/**
 * app/api/dashboard/stats/route.ts: the figures of the dashboard's front
 * page for the signed-in user: three counts, how busy the resources are, the
 * next three events marked with whether the user attends them, and the
 * user's next three bookings.
 *
 * Every count and row set is a parameter: what the storage client returned,
 * with `None` for a `null` result. The queries' filters and ordering happen
 * in the database; the rows arrive already filtered and ordered.
 */
module DashboardStats {
  import opened Wrappers
  import opened Text
  import opened Seqs
  import opened Numbers
  import opened Api

  /** `count || 0` */
  function OrZero(count: Option<nat>): nat {
    if count.Some? then count.value else 0
  }

  /**
   * `resourceUsage`: 0 when there are no approved resources (or the count is
   * null), otherwise the active bookings as a rounded percentage of the
   * approved resources. A missing booking count reads as 0.
   */
  function Usage(totalResources: Option<nat>, activeBookings: Option<nat>): (u: nat)
    ensures OrZero(totalResources) == 0 ==> u == 0
    ensures OrZero(totalResources) > 0 ==> u == Percent(OrZero(activeBookings), OrZero(totalResources))
  {
    var total, active := OrZero(totalResources), OrZero(activeBookings);
    if total > 0 then
      var u := Percent(active, total);
      assert u >= 0 by {
        if u < 0 {
          MulMonotone(2 * total, u + 1, 0);
        }
      }
      u
    else 0
  }

  /**
   * Active bookings are counted across all users and all their times, so
   * the usage is at most 100 only while they do not outnumber the
   * resources: two bookings of one resource read 200%.
   */
  lemma UsageBounds(total: nat, active: nat)
    requires total > 0
    ensures active <= total ==> Usage(Some(total), Some(active)) <= 100
    ensures Usage(Some(1), Some(2)) == 200
    ensures Usage(Some(total), None) == 0
  {
    if active <= total {
      PercentBounds(active, total);
    }
    RoundExact(200, 1);
    RoundExact(0, total);
  }

  /** `${resourceUsage}%`: the decimal digits of the usage, then '%'; the number reads back from the text. */
  function UsageText(u: nat): (r: string)
    ensures |r| >= 2 && r[|r| - 1] == '%'
    ensures forall i :: 0 <= i < |r| - 1 ==> IsDigit(r[i])
    ensures ParseNat(r[..|r| - 1]) == u
  {
    var r := NatToString(u) + "%";
    assert r[..|r| - 1] == NatToString(u);
    ParseNatToString(u);
    r
  }

  /** An upcoming event as the query selects it. */
  datatype EventRow = EventRow(id: string, title: string, start: Option<int>, location: Option<string>, status: string)

  /** `{ ...event, isAttending }` */
  datatype Annotated = Annotated(event: EventRow, isAttending: bool)

  function AnnotateWith(attending: seq<string>): EventRow -> Annotated {
    (e: EventRow) => Annotated(e, e.id in attending)
  }

  /** Each event, in order and unchanged, marked with whether its id is among the attended ones. */
  function Annotate(events: seq<EventRow>, attending: seq<string>): (r: seq<Annotated>)
    ensures |r| == |events|
    ensures forall i :: 0 <= i < |r| ==> r[i].event == events[i]
    ensures forall i :: 0 <= i < |r| ==> (r[i].isAttending <==> events[i].id in attending)
  {
    Map(events, AnnotateWith(attending))
  }

  /** The ids of the events shown: `recentEvents?.map(e => e.id) || []`. */
  function Ids(events: seq<EventRow>): (r: seq<string>)
    ensures |r| == |events| && forall i :: 0 <= i < |r| ==> r[i] == events[i].id
  {
    seq(|events|, i requires 0 <= i < |events| => events[i].id)
  }

  /**
   * `attendingEventIds`: no query when no event is shown; otherwise the event
   * ids of the user's attendance rows among the shown events (a `null`
   * result reads as none).
   */
  function AttendingIds(shown: seq<EventRow>, attendance: Option<seq<string>>): (r: seq<string>)
    ensures shown == [] ==> r == []
    ensures shown != [] ==> r == attendance.GetOr([])
  {
    if |Ids(shown)| > 0 then attendance.GetOr([]) else []
  }

  /**
   * `recentEvents`: the first three upcoming events (`limit(3)`), unchanged
   * and in order, each marked attended exactly when the user's attendance
   * rows name it; none when the query gave `null`.
   */
  function RecentEvents(events: Option<seq<EventRow>>, attendance: Option<seq<string>>): (r: seq<Annotated>)
    ensures events.None? ==> r == []
    ensures events.Some? ==> |r| == if |events.value| <= 3 then |events.value| else 3
    ensures events.Some? ==> forall i :: 0 <= i < |r| ==> r[i].event == events.value[i]
    ensures forall i :: 0 <= i < |r| ==> (r[i].isAttending <==> attendance.Some? && r[i].event.id in attendance.value)
  {
    var shown := Prefix(events.GetOr([]), 3);
    Annotate(shown, AttendingIds(shown, attendance))
  }

  /** The counts the handler asks for; `None` is a `null` count. */
  datatype Counts = Counts(upcoming: Option<nat>, booked: Option<nat>, joined: Option<nat>,
                           totalResources: Option<nat>, activeBookings: Option<nat>)

  datatype Stats = Stats(upcomingEvents: nat, bookedResources: nat, communitiesJoined: nat, resourceUsage: string)

  datatype Summary<B> = Summary(stats: Stats, recentEvents: seq<Annotated>, userBookings: seq<B>)

  datatype Answer<B> = Denied(reply: Reply) | Answered(summary: Summary<B>)

  /**
   * GET: 401 without a user. Otherwise null counts read as 0, the usage is
   * rendered with '%', at most three events and three bookings are returned
   * (`limit(3)`), and each event says whether the user attends it.
   */
  function DashboardGet<B>(user: Option<string>, counts: Counts, events: Option<seq<EventRow>>,
                           bookings: Option<seq<B>>, attendance: Option<seq<string>>): (a: Answer<B>)
    ensures user.None? <==> a.Denied?
    ensures a.Denied? ==> a.reply == ErrorReply(401, "Unauthorized")
    ensures a.Answered? ==> a.summary.stats == Stats(OrZero(counts.upcoming), OrZero(counts.booked), OrZero(counts.joined),
                                                     UsageText(Usage(counts.totalResources, counts.activeBookings)))
    ensures a.Answered? ==> a.summary.recentEvents == RecentEvents(events, attendance)
    ensures a.Answered? ==> |a.summary.recentEvents| <= 3 && |a.summary.userBookings| <= 3
    ensures a.Answered? && bookings.Some? ==> a.summary.userBookings == Prefix(bookings.value, 3)
    ensures a.Answered? && bookings.None? ==> a.summary.userBookings == []
  {
    if user.None? then Denied(ErrorReply(401, "Unauthorized"))
    else
      Answered(Summary(
        Stats(OrZero(counts.upcoming), OrZero(counts.booked), OrZero(counts.joined),
              UsageText(Usage(counts.totalResources, counts.activeBookings))),
        RecentEvents(events, attendance),
        Prefix(bookings.GetOr([]), 3)))
  }

  /** An event the user has no attendance row for is never marked as attended. */
  lemma UnattendedEventUnmarked<B>(user: string, counts: Counts, events: seq<EventRow>,
                                   bookings: Option<seq<B>>, attendance: seq<string>, i: nat)
    requires i < |events| && i < 3 && events[i].id !in attendance
    ensures DashboardGet(Some(user), counts, Some(events), bookings, Some(attendance)).summary.recentEvents[i]
      == Annotated(events[i], false)
  {
  }
}
