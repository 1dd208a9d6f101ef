/**
 * app/dashboard/resources/page.tsx: which bookings count for a resource, the
 * booking active right now, the availability message shown on the card, and
 * the search/type filter over the resource list.
 *
 * Timestamps are milliseconds; a timestamp `new Date` cannot read is `None`
 * (every comparison with an invalid date is false in JavaScript, and that is
 * how the model treats `None`). The page reads the clock twice: once inside
 * `getCurrentBooking` (`checkedAt`) and once in `getBookingStatus` (`now`).
 */
module ResourcesPage {
  import opened Wrappers
  import opened Text
  import opened Seqs

  datatype Booking = Booking(id: string, resourceId: string, start: Option<int>, end: Option<int>, status: string)

  /** The statuses the page keeps. */
  predicate Live(b: Booking) {
    b.status == "confirmed" || b.status == "pending" || b.status == "completed"
  }

  function OfResource(rid: string): Booking -> bool {
    (b: Booking) => b.resourceId == rid && b.status != "cancelled" && Live(b)
  }

  /**
   * `getResourceBookings`: the bookings of that resource whose status is
   * confirmed, pending or completed, in list order.
   */
  function ResourceBookings(bookings: seq<Booking>, rid: string): (r: seq<Booking>)
    ensures forall b :: b in r <==> b in bookings && b.resourceId == rid && Live(b)
    ensures forall b :: b in r ==> b.status != "cancelled"
  {
    Filter(bookings, OfResource(rid))
  }

  /** The selection keeps list order: it works piecewise on a concatenation. */
  lemma ResourceBookingsOrder(a: seq<Booking>, b: seq<Booking>, rid: string)
    ensures ResourceBookings(a + b, rid) == ResourceBookings(a, rid) + ResourceBookings(b, rid)
  {
    FilterConcat(a, b, OfResource(rid));
  }

  /** `now >= start && now <= end`: both ends included, and unreadable dates never match. */
  predicate ActiveAt(b: Booking, now: int) {
    b.start.Some? && b.end.Some? && b.start.value <= now <= b.end.value
  }

  /** `Array.prototype.findIndex` with `ActiveAt`. */
  function FirstActive(s: seq<Booking>, now: int): (r: Option<nat>)
    ensures r.Some? ==> r.value < |s| && ActiveAt(s[r.value], now)
    ensures r.Some? ==> forall j :: 0 <= j < r.value ==> !ActiveAt(s[j], now)
    ensures r.None? <==> forall j :: 0 <= j < |s| ==> !ActiveAt(s[j], now)
  {
    if |s| == 0 then None
    else if ActiveAt(s[0], now) then Some(0)
    else match FirstActive(s[1..], now)
      case None =>
        assert forall j :: 1 <= j < |s| ==> s[j] == s[1..][j - 1];
        None
      case Some(i) => Some(i + 1)
  }

  /**
   * `getCurrentBooking`: the first kept booking, in list order, that is active
   * at `now`; none exactly when no kept booking is active.
   */
  function CurrentBooking(bookings: seq<Booking>, rid: string, now: int): (r: Option<Booking>)
    ensures r.Some? ==> r.value in ResourceBookings(bookings, rid) && ActiveAt(r.value, now)
    ensures r.Some? ==> exists i :: 0 <= i < |ResourceBookings(bookings, rid)|
                                    && ResourceBookings(bookings, rid)[i] == r.value
                                    && forall j :: 0 <= j < i ==> !ActiveAt(ResourceBookings(bookings, rid)[j], now)
    ensures r.None? <==> forall b :: b in ResourceBookings(bookings, rid) ==> !ActiveAt(b, now)
  {
    var kept := ResourceBookings(bookings, rid);
    match FirstActive(kept, now)
    case None => None
    case Some(i) => Some(kept[i])
  }

  /** `isResourceBooked`: `!!getCurrentBooking(...)`. */
  function IsResourceBooked(bookings: seq<Booking>, rid: string, now: int): (b: bool)
    ensures b <==> exists bk :: bk in ResourceBookings(bookings, rid) && ActiveAt(bk, now)
  {
    CurrentBooking(bookings, rid, now).Some?
  }

  /** A booking is reported as current at both its first and its last instant. */
  lemma ActiveAtBothEnds(b: Booking, s: int, e: int)
    requires b.start == Some(s) && b.end == Some(e) && s <= e
    ensures ActiveAt(b, s) && ActiveAt(b, e)
    ensures forall t :: t < s || t > e ==> !ActiveAt(b, t)
  {
  }

  /** A booking with an unreadable start or end is never current. */
  lemma UnreadableNeverActive(b: Booking, now: int)
    requires b.start.None? || b.end.None?
    ensures !ActiveAt(b, now)
  {
  }

  // ---------------------------------------------------------------------------
  // The availability message
  // ---------------------------------------------------------------------------

  /** The four messages, each carrying the time it shows. */
  datatype Status =
    | Booked(until: int)             // "Booked until <end>"
    | AvailableNow                   // "Available now"
    | AvailableUntil(nextStart: int) // "Available until <start>"
    | AvailableAfter(lastEnd: int)   // "Available after <end>"
  {
    /** The `status` field. */
    function Name(): string {
      if Booked? then "booked" else "available"
    }

    /** The `availableAfter` field. */
    function AvailableAfterTime(): Option<int> {
      match this
      case Booked(e) => Some(e)
      case AvailableAfter(e) => Some(e)
      case _ => None
    }
  }

  /** `new Date(b.end_time) > now` */
  function EndsAfter(now: int): Booking -> bool {
    (b: Booking) => b.end.Some? && b.end.value > now
  }

  /** The kept bookings that end after `now`, in list order. */
  function Upcoming(bookings: seq<Booking>, rid: string, now: int): (r: seq<Booking>)
    ensures forall b :: b in r <==> b in ResourceBookings(bookings, rid) && b.end.Some? && b.end.value > now
  {
    Filter(ResourceBookings(bookings, rid), EndsAfter(now))
  }

  /**
   * The order the page sorts upcoming bookings by: readable start times
   * ascending. An unreadable start makes the comparator return NaN, which
   * leaves its position to the JavaScript engine; the model places it after
   * every readable start.
   */
  predicate StartsBefore(a: Booking, b: Booking) {
    a.start.Some? && (b.start.None? || a.start.value < b.start.value)
  }

  /** Index of the head of a stable ascending sort: the first booking with the earliest start. */
  function FirstEarliest(s: seq<Booking>): (i: nat)
    requires |s| > 0
    ensures i < |s|
    ensures forall j :: 0 <= j < |s| ==> !StartsBefore(s[j], s[i])
    ensures forall j :: 0 <= j < i ==> StartsBefore(s[i], s[j])
  {
    if |s| == 1 then 0
    else
      var k := FirstEarliest(s[1..]) + 1;
      assert forall j :: 1 <= j < |s| ==> s[j] == s[1..][j - 1];
      if StartsBefore(s[k], s[0]) then k else 0
  }

  /** Index of the last element of a stable ascending sort: the last booking with the latest start. */
  function LastLatest(s: seq<Booking>): (i: nat)
    requires |s| > 0
    ensures i < |s|
    ensures forall j :: 0 <= j < |s| ==> !StartsBefore(s[i], s[j])
    ensures forall j :: i < j < |s| ==> StartsBefore(s[j], s[i])
  {
    if |s| == 1 then 0
    else
      var k := LastLatest(s[..|s| - 1]);
      assert forall j :: 0 <= j < |s| - 1 ==> s[j] == s[..|s| - 1][j];
      if StartsBefore(s[|s| - 1], s[k]) then k else |s| - 1
  }

  /**
   * The message when nothing is current: `up` are the kept bookings that end
   * after `now`. None left: available now; the earliest starts later:
   * available until then; otherwise: available after the latest-sorted end.
   */
  function FreeStatus(up: seq<Booking>, now: int): (st: Status)
    requires forall b :: b in up ==> b.end.Some? && b.end.value > now
    ensures !st.Booked?
    ensures st.AvailableNow? <==> |up| == 0
    ensures st.AvailableUntil? ==>
      && now < st.nextStart
      && (exists b :: b in up && b.start == Some(st.nextStart))
      && forall b :: b in up && b.start.Some? ==> st.nextStart <= b.start.value
    ensures st.AvailableAfter? ==> exists b :: b in up && b.end == Some(st.lastEnd) && st.lastEnd > now
    ensures st.AvailableUntil? <==>
      |up| > 0 && up[FirstEarliest(up)].start.Some? && now < up[FirstEarliest(up)].start.value
    ensures st.AvailableUntil? ==> st.nextStart == up[FirstEarliest(up)].start.value
    ensures st.AvailableAfter? ==> st.lastEnd == up[LastLatest(up)].end.value
  {
    if |up| == 0 then AvailableNow
    else
      var i := FirstEarliest(up);
      var next := up[i];
      assert next in up;
      if next.start.Some? && now < next.start.value then
        assert forall b :: b in up && b.start.Some? ==> next.start.value <= b.start.value by {
          forall b | b in up && b.start.Some? ensures next.start.value <= b.start.value {
            var j :| 0 <= j < |up| && up[j] == b;
            assert !StartsBefore(up[j], up[i]);
          }
        }
        AvailableUntil(next.start.value)
      else
        var last := up[LastLatest(up)];
        assert last in up;
        AvailableAfter(last.end.value)
  }

  /**
   * `getBookingStatus`. `checkedAt` is the clock read by `getCurrentBooking`,
   * `now` the one read right after it.
   */
  function BookingStatus(bookings: seq<Booking>, rid: string, checkedAt: int, now: int): (st: Status)
    ensures st.Booked? <==> IsResourceBooked(bookings, rid, checkedAt)
    ensures st.Booked? ==> st.until == CurrentBooking(bookings, rid, checkedAt).value.end.value
    ensures st.AvailableNow? <==>
      !IsResourceBooked(bookings, rid, checkedAt) && forall b :: b in ResourceBookings(bookings, rid) ==> !(b.end.Some? && b.end.value > now)
    ensures st.AvailableUntil? ==>
      && now < st.nextStart
      && (exists b :: b in Upcoming(bookings, rid, now) && b.start == Some(st.nextStart))
      && forall b :: b in Upcoming(bookings, rid, now) && b.start.Some? ==> st.nextStart <= b.start.value
    ensures st.AvailableAfter? ==>
      exists b :: b in Upcoming(bookings, rid, now) && b.end == Some(st.lastEnd)
    ensures st.AvailableAfterTime().Some? <==> st.Booked? || st.AvailableAfter?
    ensures !IsResourceBooked(bookings, rid, checkedAt) ==> st == FreeStatus(Upcoming(bookings, rid, now), now)
    ensures st.AvailableUntil? <==>
      && !IsResourceBooked(bookings, rid, checkedAt)
      && var up := Upcoming(bookings, rid, now);
         |up| > 0 && up[FirstEarliest(up)].start.Some? && now < up[FirstEarliest(up)].start.value
    ensures st.AvailableAfter? ==>
      var up := Upcoming(bookings, rid, now);
      |up| > 0 && st.lastEnd == up[LastLatest(up)].end.value
  {
    match CurrentBooking(bookings, rid, checkedAt)
    case Some(b) => Booked(b.end.value)
    case None =>
      var up := Upcoming(bookings, rid, now);
      assert |up| == 0 <==> forall b :: b in ResourceBookings(bookings, rid) ==> !(b.end.Some? && b.end.value > now) by {
        if |up| > 0 {
          assert up[0] in up;
        }
      }
      FreeStatus(up, now)
  }

  /** The status with both clock readings equal. */
  function StatusAt(bookings: seq<Booking>, rid: string, now: int): Status {
    BookingStatus(bookings, rid, now, now)
  }

  /**
   * With one clock reading and readable start times, 'Available after' cannot
   * be shown: a booking that is not active and ends after `now` starts after `now`.
   */
  lemma AvailableAfterUnreachable(bookings: seq<Booking>, rid: string, now: int)
    requires forall b :: b in ResourceBookings(bookings, rid) ==> b.start.Some?
    ensures !StatusAt(bookings, rid, now).AvailableAfter?
  {
    if CurrentBooking(bookings, rid, now).None? {
      var up := Upcoming(bookings, rid, now);
      if |up| > 0 {
        var next := up[FirstEarliest(up)];
        assert next in up;
        assert !ActiveAt(next, now);
      }
    }
  }

  /** Two clock readings that straddle a booking's start do reach 'Available after'. */
  lemma AvailableAfterWithTwoClocks()
    ensures BookingStatus([Booking("b1", "r1", Some(10), Some(20), "confirmed")], "r1", 9, 10) == AvailableAfter(20)
  {
    var bs := [Booking("b1", "r1", Some(10), Some(20), "confirmed")];
    assert ResourceBookings(bs, "r1") == bs;
    assert Upcoming(bs, "r1", 10) == bs;
  }

  /** An unreadable start reaches 'Available after' even with one clock reading. */
  lemma AvailableAfterWithUnreadableStart()
    ensures StatusAt([Booking("b1", "r1", None, Some(20), "pending")], "r1", 10) == AvailableAfter(20)
  {
    var bs := [Booking("b1", "r1", None, Some(20), "pending")];
    assert ResourceBookings(bs, "r1") == bs;
    assert Upcoming(bs, "r1", 10) == bs;
  }

  /** Bookings that are not kept (cancelled, unknown status, other resource) never change the status. */
  lemma IgnoredBookingsIrrelevant(bookings: seq<Booking>, extra: Booking, rid: string, checkedAt: int, now: int)
    requires !OfResource(rid)(extra)
    ensures BookingStatus(bookings + [extra], rid, checkedAt, now) == BookingStatus(bookings, rid, checkedAt, now)
  {
    ResourceBookingsOrder(bookings, [extra], rid);
    assert ResourceBookings([extra], rid) == [];
    assert ResourceBookings(bookings + [extra], rid) == ResourceBookings(bookings, rid);
  }

  /** The worked examples, with times in minutes of the day. */
  lemma Examples()
    ensures StatusAt([Booking("a", "r", Some(600), Some(660), "confirmed")], "r", 630) == Booked(660)
    ensures StatusAt([Booking("a", "r", Some(540), Some(600), "confirmed")], "r", 630) == AvailableNow
    ensures StatusAt([Booking("a", "r", Some(540), Some(600), "confirmed"),
                      Booking("b", "r", Some(840), Some(900), "confirmed")], "r", 660) == AvailableUntil(840)
    ensures StatusAt([], "r", 630) == AvailableNow
    ensures StatusAt([Booking("a", "r", Some(600), Some(660), "cancelled")], "r", 630) == AvailableNow
  {
    ExampleBooked();
    ExamplePast();
    LaterBookingShown(Booking("a", "r", Some(540), Some(600), "confirmed"),
                 Booking("b", "r", Some(840), Some(900), "confirmed"), "r", 660);
    ExampleCancelled();
  }

  /** A confirmed booking from 10:00 to 11:00, seen at 10:30. */
  lemma ExampleBooked()
    ensures StatusAt([Booking("a", "r", Some(600), Some(660), "confirmed")], "r", 630) == Booked(660)
  {
    var one := [Booking("a", "r", Some(600), Some(660), "confirmed")];
    assert ResourceBookings(one, "r") == one;
  }

  /** A booking that ended at 10:00, seen at 10:30. */
  lemma ExamplePast()
    ensures StatusAt([Booking("a", "r", Some(540), Some(600), "confirmed")], "r", 630) == AvailableNow
  {
    var past := [Booking("a", "r", Some(540), Some(600), "confirmed")];
    assert ResourceBookings(past, "r") == past;
  }

  /** A booking that is over and a later one: the card shows the later one's start. */
  lemma LaterBookingShown(a: Booking, b: Booking, rid: string, now: int)
    requires a.resourceId == rid && b.resourceId == rid && Live(a) && Live(b)
    requires a.start.Some? && a.end.Some? && a.start.value <= a.end.value < now
    requires b.start.Some? && b.end.Some? && now < b.start.value <= b.end.value
    ensures StatusAt([a, b], rid, now) == AvailableUntil(b.start.value)
  {
    assert [a, b] == [a] + [b];
    ResourceBookingsOrder([a], [b], rid);
    assert ResourceBookings([a, b], rid) == [a, b];
    assert CurrentBooking([a, b], rid, now).None?;
    FilterConcat([a], [b], EndsAfter(now));
    assert Upcoming([a, b], rid, now) == [b];
    FreeWithOneLater(b, now);
    StatusWhenFree([a, b], rid, now);
  }

  /** A single upcoming booking that starts later: available until its start. */
  lemma FreeWithOneLater(b: Booking, now: int)
    requires b.start.Some? && b.end.Some? && now < b.start.value <= b.end.value
    ensures FreeStatus([b], now) == AvailableUntil(b.start.value)
  {
    assert FirstEarliest([b]) == 0;
  }

  /** With no booking current, the status is the free status of the upcoming bookings. */
  lemma StatusWhenFree(bookings: seq<Booking>, rid: string, now: int)
    requires CurrentBooking(bookings, rid, now).None?
    ensures StatusAt(bookings, rid, now) == FreeStatus(Upcoming(bookings, rid, now), now)
  {
  }

  /** A cancelled booking from 10:00 to 11:00, seen at 10:30. */
  lemma ExampleCancelled()
    ensures StatusAt([Booking("a", "r", Some(600), Some(660), "cancelled")], "r", 630) == AvailableNow
  {
    var gone := [Booking("a", "r", Some(600), Some(660), "cancelled")];
    assert ResourceBookings(gone, "r") == [];
  }

  // ---------------------------------------------------------------------------
  // Resource list filter
  // ---------------------------------------------------------------------------

  datatype Resource = Resource(id: string, name: string, description: Option<string>, resourceType: string, status: string)

  /** Case-insensitive substring match on the name or, when there is one, the description. */
  predicate MatchesSearch(r: Resource, search: string) {
    || Contains(Lower(r.name), Lower(search))
    || (r.description.Some? && Contains(Lower(r.description.value), Lower(search)))
  }

  /** `filter === 'all' || resource.resource_type === filter` */
  predicate MatchesType(r: Resource, filter: string) {
    filter == "all" || r.resourceType == filter
  }

  function ResourceTest(filter: string, search: string): Resource -> bool {
    (r: Resource) => MatchesSearch(r, search) && MatchesType(r, filter)
  }

  /** `filteredResources`, in list order. */
  function FilteredResources(resources: seq<Resource>, filter: string, search: string): (r: seq<Resource>)
    ensures forall x :: x in r <==> x in resources && MatchesSearch(x, search) && MatchesType(x, filter)
  {
    Filter(resources, ResourceTest(filter, search))
  }

  /** An empty search keeps exactly the resources of the chosen type; 'all' with no search keeps everything. */
  lemma EmptySearchKeepsType(resources: seq<Resource>, filter: string)
    ensures FilteredResources(resources, filter, "") == Filter(resources, (r: Resource) => MatchesType(r, filter))
    ensures FilteredResources(resources, "all", "") == resources
  {
    forall r: Resource ensures MatchesSearch(r, "") {
      ContainsEmpty(Lower(r.name));
    }
    FilterExt(resources, ResourceTest(filter, ""), (r: Resource) => MatchesType(r, filter));
    FilterAll(resources, ResourceTest("all", ""));
  }

  /** Upper or lower case in the search text makes no difference. */
  lemma SearchIgnoresCase(resources: seq<Resource>, filter: string, search: string)
    ensures FilteredResources(resources, filter, search) == FilteredResources(resources, filter, Lower(search))
  {
    LowerIdempotent(search);
    FilterExt(resources, ResourceTest(filter, search), ResourceTest(filter, Lower(search)));
  }
}
