/**
 * app/api/notifications/route.ts: the bell menu's feed. Four sources
 * (upcoming events, upcoming bookings, pending approvals for admins, recent
 * community messages) are turned into notifications, merged, sorted newest
 * first and cut to ten; the unread count is taken before the cut. The rows
 * each query returns are parameters; a query that returns no data is the
 * same as one that returns no rows.
 */
module Notifications {
  import opened Wrappers
  import opened Text
  import opened Seqs
  import opened Sorting
  import opened Numbers

  /** One entry of the feed; `time` is the instant it is sorted by. */
  datatype Notification = Notification(id: string, kind: string, title: string, message: string, link: string, time: int, unread: bool)

  const HourMs: int := 3600000

  /** `${n} word${n !== 1 ? 's' : ''}` */
  function Plural(n: int, word: string): (r: string)
    ensures StartsWith(r, IntToString(n) + " " + word)
    ensures r == "1 " + word <==> n == 1
  {
    var head := IntToString(n) + " " + word;
    var r := head + (if n != 1 then "s" else "");
    assert r[..|head|] == head;
    assert |IntToString(n)| >= 1 by {
      if n < 0 { assert |IntToString(n)| == 1 + |NatToString(-n)|; }
    }
    r
  }

  /** `Math.round((start - now) / hour)` */
  function HoursUntil(start: int, now: int): (h: int)
    ensures 2 * HourMs * h <= 2 * (start - now) + HourMs < 2 * HourMs * h + 2 * HourMs
  {
    Round(start - now, HourMs)
  }

  /** A row of the upcoming-events query (events the caller attends, starting within a day). */
  datatype EventRow = EventRow(id: string, title: string, start: int)

  /**
   * A row with an id and a nullable display name: a resource, a community or
   * a sender. A null name interpolates as 'null'.
   */
  datatype Named = Named(id: string, name: Option<string>)

  /** A row of the upcoming-bookings query. */
  datatype BookingRow = BookingRow(id: string, start: int, resourceId: string)

  /** A row of the recent-messages query. */
  datatype MessageRow = MessageRow(id: string, text: string, createdAt: int, communityId: string, userId: string)

  function EventNote(e: EventRow, now: int): (n: Notification)
    ensures n.kind == "event" && n.unread && n.time == e.start
    ensures n.id == "event-" + e.id && n.link == "/dashboard/events/" + e.id
    ensures n.message == e.title + " starts in " + Plural(HoursUntil(e.start, now), "hour")
  {
    Notification("event-" + e.id, "event", "Upcoming Event",
      e.title + " starts in " + Plural(HoursUntil(e.start, now), "hour"),
      "/dashboard/events/" + e.id, e.start, true)
  }

  function EventNoteAt(now: int): EventRow -> Notification {
    (e: EventRow) => EventNote(e, now)
  }

  /** Section 1: nothing unless the caller attends some event; then one entry per returned event, in order. */
  function EventNotes(attending: seq<string>, events: seq<EventRow>, now: int): (r: seq<Notification>)
    ensures |attending| == 0 ==> r == []
    ensures |attending| > 0 ==> |r| == |events| && forall i :: 0 <= i < |events| ==> r[i] == EventNote(events[i], now)
    ensures forall n :: n in r ==> n.unread && n.kind == "event"
  {
    if |attending| == 0 then [] else Map(events, EventNoteAt(now))
  }

  /** `new Map(rows.map(r => [r.id, r])).get(id)`: the last row with that id wins. */
  function FindById(rows: seq<Named>, id: string): (r: Option<Named>)
    ensures r.Some? ==> r.value in rows && r.value.id == id
    ensures r.Some? ==> exists i :: 0 <= i < |rows| && rows[i] == r.value && forall j :: i < j < |rows| ==> rows[j].id != id
    ensures r.None? <==> forall x :: x in rows ==> x.id != id
    decreases |rows|
  {
    if |rows| == 0 then None
    else
      var last := rows[|rows| - 1];
      assert forall x :: x in rows <==> x in rows[..|rows| - 1] || x == last by {
        assert rows == rows[..|rows| - 1] + [last];
      }
      if last.id == id then Some(last) else FindById(rows[..|rows| - 1], id)
  }

  function BookingNote(b: BookingRow, resource: Named, now: int): (n: Notification)
    ensures n.kind == "booking" && n.unread && n.time == b.start
    ensures n.id == "booking-" + b.id && n.link == "/dashboard/resources/" + resource.id
    ensures n.message == "Your booking for " + Interpolated(resource.name) + " starts in " + Plural(HoursUntil(b.start, now), "hour")
    ensures resource.name.None? ==> n.message[17..21] == "null"
  {
    Notification("booking-" + b.id, "booking", "Upcoming Booking",
      "Your booking for " + Interpolated(resource.name) + " starts in " + Plural(HoursUntil(b.start, now), "hour"),
      "/dashboard/resources/" + resource.id, b.start, true)
  }

  /** The booking's resource was found. */
  function HasResource(resources: seq<Named>): BookingRow -> bool {
    (b: BookingRow) => FindById(resources, b.resourceId).Some?
  }

  /** The entry of a booking whose resource was found. */
  function BookingNoteFrom(resources: seq<Named>, now: int): BookingRow -> Notification {
    (b: BookingRow) => BookingNote(b, FindById(resources, b.resourceId).GetOr(Named(b.resourceId, None)), now)
  }

  /** Section 2: one entry per booking whose resource was found, in order; the others are skipped. */
  function BookingNotes(bookings: seq<BookingRow>, resources: seq<Named>, now: int): (r: seq<Notification>)
    ensures |r| <= |bookings|
    ensures forall n :: n in r ==> n.unread && n.kind == "booking"
    ensures forall n :: n in r ==>
      (exists b :: b in bookings && FindById(resources, b.resourceId).Some? &&
        n == BookingNote(b, FindById(resources, b.resourceId).value, now))
    ensures (forall b :: b in bookings ==> FindById(resources, b.resourceId).Some?) ==> |r| == |bookings|
    ensures (forall b :: b in bookings ==> FindById(resources, b.resourceId).None?) ==> r == []
    decreases |bookings|
  {
    if |bookings| == 0 then []
    else
      var rest := BookingNotes(bookings[1..], resources, now);
      assert forall b :: b in bookings[1..] ==> b in bookings;
      match FindById(resources, bookings[0].resourceId)
      case None => rest
      case Some(res) => [BookingNote(bookings[0], res, now)] + rest
  }

  /** The bookings section is the bookings whose resource was found, each turned into its entry, in order. */
  lemma {:induction false} BookingNotesInOrder(bookings: seq<BookingRow>, resources: seq<Named>, now: int)
    ensures BookingNotes(bookings, resources, now) == Map(Filter(bookings, HasResource(resources)), BookingNoteFrom(resources, now))
    decreases |bookings|
  {
    if |bookings| > 0 {
      BookingNotesInOrder(bookings[1..], resources, now);
      var kept := Filter(bookings[1..], HasResource(resources));
      var f := BookingNoteFrom(resources, now);
      MapCons(bookings[0], kept, f);
    }
  }

  /** Section 3: one entry, for an admin only, when the pending count is positive. */
  function ApprovalNotes(role: Option<string>, pending: Option<int>, now: int): (r: seq<Notification>)
    ensures |r| <= 1
    ensures |r| == 1 <==> role == Some("admin") && pending.Some? && pending.value > 0
    ensures |r| == 1 ==> r[0].unread && r[0].time == now && r[0].link == "/dashboard/resources/approvals"
    ensures |r| == 1 ==> r[0].message == Plural(pending.value, "resource") + " pending approval"
    ensures forall n :: n in r ==> n.unread && n.kind == "approval"
  {
    if role != Some("admin") then []
    else if pending.Some? && pending.value > 0 then
      [Notification("pending-approvals", "approval", "Resource Approvals",
        Plural(pending.value, "resource") + " pending approval",
        "/dashboard/resources/approvals", now, true)]
    else []
  }

  /** `text.substring(0, 50)` followed by '...' when something was cut. */
  function Preview(text: string): (r: string)
    ensures |text| <= 50 ==> r == text
    ensures |text| > 50 ==> |r| == 53 && r[..50] == text[..50] && r[50..] == "..."
  {
    Take(text, 50) + (if |text| > 50 then "..." else "")
  }

  function MessageNote(m: MessageRow, community: Named, sender: Named): (n: Notification)
    ensures n.kind == "message" && n.unread && n.time == m.createdAt
    ensures n.id == "message-" + m.id && n.link == "/dashboard/communities/" + community.id
    ensures n.title == "New message in " + Interpolated(community.name)
    ensures n.message == Interpolated(sender.name) + ": " + Preview(m.text)
    ensures sender.name.None? ==> n.message[..6] == "null: "
  {
    Notification("message-" + m.id, "message", "New message in " + Interpolated(community.name),
      Interpolated(sender.name) + ": " + Preview(m.text), "/dashboard/communities/" + community.id, m.createdAt, true)
  }

  /** Both joins of a message succeed. */
  predicate Joined(m: MessageRow, communities: seq<Named>, users: seq<Named>) {
    FindById(communities, m.communityId).Some? && FindById(users, m.userId).Some?
  }

  function IsJoined(communities: seq<Named>, users: seq<Named>): MessageRow -> bool {
    (m: MessageRow) => Joined(m, communities, users)
  }

  /** The entry of a message whose community and sender were found. */
  function MessageNoteFrom(communities: seq<Named>, users: seq<Named>): MessageRow -> Notification {
    (m: MessageRow) => MessageNote(m, FindById(communities, m.communityId).GetOr(Named(m.communityId, None)),
                                   FindById(users, m.userId).GetOr(Named(m.userId, None)))
  }

  /** Section 4 after the membership check: one entry per message whose community and sender were both found, in order. */
  function MessageNotesOf(messages: seq<MessageRow>, communities: seq<Named>, users: seq<Named>): (r: seq<Notification>)
    ensures |r| <= |messages|
    ensures forall n :: n in r ==> n.unread && n.kind == "message"
    ensures forall n :: n in r ==>
      (exists m :: m in messages && Joined(m, communities, users) &&
        n == MessageNote(m, FindById(communities, m.communityId).value, FindById(users, m.userId).value))
    ensures (forall m :: m in messages ==> !Joined(m, communities, users)) ==> r == []
    decreases |messages|
  {
    if |messages| == 0 then []
    else
      var rest := MessageNotesOf(messages[1..], communities, users);
      assert forall m :: m in messages[1..] ==> m in messages;
      var m := messages[0];
      if Joined(m, communities, users) then
        [MessageNote(m, FindById(communities, m.communityId).value, FindById(users, m.userId).value)] + rest
      else rest
  }

  /** The messages section is the joined messages, each turned into its entry, in order. */
  lemma {:induction false} MessageNotesInOrder(messages: seq<MessageRow>, communities: seq<Named>, users: seq<Named>)
    ensures MessageNotesOf(messages, communities, users) == Map(Filter(messages, IsJoined(communities, users)), MessageNoteFrom(communities, users))
    decreases |messages|
  {
    if |messages| > 0 {
      MessageNotesInOrder(messages[1..], communities, users);
      var kept := Filter(messages[1..], IsJoined(communities, users));
      var f := MessageNoteFrom(communities, users);
      MapCons(messages[0], kept, f);
    }
  }

  /** Section 4: nothing unless the caller belongs to some community. */
  function MessageNotes(memberships: seq<string>, messages: seq<MessageRow>, communities: seq<Named>, users: seq<Named>): (r: seq<Notification>)
    ensures |memberships| == 0 ==> r == []
    ensures |memberships| > 0 ==> r == MessageNotesOf(messages, communities, users)
    ensures forall n :: n in r ==> n.unread && n.kind == "message"
  {
    if |memberships| == 0 then [] else MessageNotesOf(messages, communities, users)
  }

  /** What the handler's queries returned. */
  datatype Sources = Sources(
    role: Option<string>,
    attending: seq<string>, events: seq<EventRow>,
    bookings: seq<BookingRow>, resources: seq<Named>,
    pending: Option<int>,
    memberships: seq<string>, messages: seq<MessageRow>, communities: seq<Named>, users: seq<Named>)

  /** The four sections, in the order they are spread into one list. */
  function Merged(src: Sources, now: int): (r: seq<Notification>)
    ensures var e, b, a, m := EventNotes(src.attending, src.events, now), BookingNotes(src.bookings, src.resources, now),
                              ApprovalNotes(src.role, src.pending, now), MessageNotes(src.memberships, src.messages, src.communities, src.users);
      |r| == |e| + |b| + |a| + |m| &&
      r[..|e|] == e && r[|e|..|e| + |b|] == b && r[|e| + |b|..|e| + |b| + |a|] == a && r[|e| + |b| + |a|..] == m
    ensures forall n :: n in r ==> n.unread
  {
    var e, b := EventNotes(src.attending, src.events, now), BookingNotes(src.bookings, src.resources, now);
    var a, m := ApprovalNotes(src.role, src.pending, now), MessageNotes(src.memberships, src.messages, src.communities, src.users);
    FourParts(e, b, a, m);
    e + b + a + m
  }

  function TimeOf(): Notification -> int {
    (n: Notification) => n.time
  }

  function IsUnread(): Notification -> bool {
    (n: Notification) => n.unread
  }

  datatype Feed = Unauthorized | Feed(notifications: seq<Notification>, unreadCount: nat)

  /**
   * GET: 401 without a user; otherwise the merged list sorted newest first
   * and cut to ten, with the number of unread entries of the whole merged list.
   */
  function NotificationsGet(user: Option<string>, src: Sources, now: int): (r: Feed)
    ensures r.Unauthorized? <==> user.None?
    ensures r.Feed? ==> |r.notifications| == if |Merged(src, now)| <= 10 then |Merged(src, now)| else 10
    ensures r.Feed? ==> SortedDesc(r.notifications, TimeOf())
    ensures r.Feed? ==> forall n :: n in r.notifications ==> n in Merged(src, now)
    ensures r.Feed? ==> r.unreadCount == |Merged(src, now)|
  {
    if user.None? then Unauthorized
    else
      var all := Merged(src, now);
      NewestFirst(all);
      FilterAll(all, IsUnread());
      Feed(Prefix(SortDesc(all, TimeOf()), 10), Count(all, IsUnread()))
  }

  /** The first ten of a list sorted newest first are sorted and come from the list. */
  lemma NewestFirst(all: seq<Notification>)
    ensures SortedDesc(Prefix(SortDesc(all, TimeOf()), 10), TimeOf())
    ensures forall n :: n in Prefix(SortDesc(all, TimeOf()), 10) ==> n in all
  {
    var sorted := SortDesc(all, TimeOf());
    var shown := Prefix(sorted, 10);
    SortDescSameElements(all, TimeOf());
    assert forall i :: 0 <= i < |shown| ==> shown[i] == sorted[i];
  }

  /** The ten shown are the newest: nothing left out is newer than anything shown. */
  lemma NewestTenShown(user: string, src: Sources, now: int)
    ensures var sorted := SortDesc(Merged(src, now), TimeOf());
      var shown := NotificationsGet(Some(user), src, now).notifications;
      forall i, j :: 0 <= i < |shown| <= j < |sorted| ==> sorted[i].time >= sorted[j].time
    ensures NotificationsGet(Some(user), src, now).notifications == Prefix(SortDesc(Merged(src, now), TimeOf()), 10)
  {
  }

  /** With more than ten entries the unread count is larger than the list the bell shows. */
  lemma UnreadCountExceedsShown(user: string, src: Sources, now: int)
    requires |Merged(src, now)| > 10
    ensures NotificationsGet(Some(user), src, now).unreadCount > |NotificationsGet(Some(user), src, now).notifications|
  {
  }

  /** A booking whose resource row is missing produces no entry. */
  lemma OrphanBookingSkipped(b: BookingRow, resources: seq<Named>, now: int)
    requires forall x :: x in resources ==> x.id != b.resourceId
    ensures BookingNotes([b], resources, now) == []
  {
  }

  /** Only an admin sees the approvals entry; an organizer never does, whatever the pending count. */
  lemma ApprovalsOnlyForAdmin(pending: int, now: int)
    ensures ApprovalNotes(Some("organizer"), Some(pending), now) == []
    ensures pending > 0 ==> |ApprovalNotes(Some("admin"), Some(pending), now)| == 1
    ensures ApprovalNotes(Some("admin"), Some(0), now) == []
  {
  }

  /** An event exactly two hours away reads 'starts in 2 hours'; one an hour away, 'starts in 1 hour'. */
  lemma HourWording(title: string, id: string, now: int)
    ensures EventNote(EventRow(id, title, now + 2 * HourMs), now).message == title + " starts in 2 hours"
    ensures EventNote(EventRow(id, title, now + HourMs), now).message == title + " starts in 1 hour"
  {
    RoundExact(2, HourMs);
    RoundExact(1, HourMs);
  }
}
