/**
 * components/header.tsx: the page title, the relative times of the
 * notification menu, and what a click on a notification does to the list and
 * to the unread counter.
 */
module Header {
  import opened Wrappers
  import opened Text
  import opened Seqs
  import opened Numbers
  import opened Notifications

  /** `pageNames` */
  const PageNames: map<string, string> := map[
    "/dashboard/events" := "Events",
    "/dashboard/resources" := "Resources",
    "/dashboard/communities" := "Communities",
    "/dashboard/analytics" := "Analytics",
    "/dashboard/settings" := "Settings",
    "/dashboard" := "Dashboard"]

  /** `pageNames[pathname] || 'Dashboard'`: an exact lookup. */
  function PageTitle(path: string): (t: string)
    ensures path in PageNames ==> t == PageNames[path]
    ensures path !in PageNames ==> t == "Dashboard"
  {
    if path in PageNames then PageNames[path] else "Dashboard"
  }

  /** A page below a section, such as one event, is titled 'Dashboard', not by its section. */
  lemma DetailPagesTitledDashboard(id: string)
    ensures PageTitle("/dashboard/events/" + id) == "Dashboard"
    ensures PageTitle("/dashboard/events") == "Events"
  {
    var p := "/dashboard/events/" + id;
    assert |p| >= 18 && p[17] == '/';
    assert forall k :: k in PageNames ==> |k| < 18 || k[17] != '/';
  }

  /** A relative time: how long ago, in the largest unit that is below its bound, or a calendar date. */
  datatype Ago = JustNow | MinutesAgo(n: int) | HoursAgo(n: int) | DaysAgo(n: int) | OnDate

  const MinuteMs: int := 60000
  const DayMs: int := 86400000

  /**
   * `formatTime`: the floored differences in minutes, hours and days decide.
   * An unreadable time compares false with everything and falls through to
   * the date.
   */
  function FormatTime(time: Option<int>, now: int): (a: Ago)
    ensures time.None? ==> a == OnDate
    ensures a == JustNow <==> time.Some? && now - time.value < MinuteMs
    ensures a.MinutesAgo? ==> 1 <= a.n < 60 && a.n * MinuteMs <= now - time.value < (a.n + 1) * MinuteMs
    ensures a.HoursAgo? ==> 1 <= a.n < 24 && a.n * HourMs <= now - time.value < (a.n + 1) * HourMs
    ensures a.DaysAgo? ==> 1 <= a.n < 7 && a.n * DayMs <= now - time.value < (a.n + 1) * DayMs
    ensures a == OnDate <==> time.None? || now - time.value >= 7 * DayMs
  {
    if time.None? then OnDate
    else
      var diff := now - time.value;
      var mins, hours, days := diff / MinuteMs, diff / HourMs, diff / DayMs;
      if mins < 1 then JustNow
      else if mins < 60 then MinutesAgo(mins)
      else if hours < 24 then HoursAgo(hours)
      else if days < 7 then DaysAgo(days)
      else OnDate
  }

  /** A time in the future (clock skew) reads 'Just now'. */
  lemma FutureIsJustNow(time: int, now: int)
    requires time > now
    ensures FormatTime(Some(time), now) == JustNow
  {
  }

  /** A count followed by a five-character unit: the count is written in decimal and can be read back. */
  function Counted(n: int, unit: string): (r: string)
    requires |unit| == 5
    ensures |r| > 5 && r[|r| - 5..] == unit
    ensures n >= 0 ==> (forall i :: 0 <= i < |r| - 5 ==> IsDigit(r[i])) && ParseNat(r[..|r| - 5]) == n
  {
    ParseNatToString(if n >= 0 then n else 0);
    var r := IntToString(n) + unit;
    assert r[|r| - 5..] == unit;
    assert n >= 0 ==> r[..|r| - 5] == NatToString(n);
    r
  }

  /** The words shown; `date` stands for `toLocaleDateString()`. */
  function AgoText(a: Ago, date: string): (r: string)
    ensures a == JustNow ==> r == "Just now"
    ensures a == OnDate ==> r == date
    ensures a.MinutesAgo? ==> r == Counted(a.n, "m ago")
    ensures a.HoursAgo? ==> r == Counted(a.n, "h ago")
    ensures a.DaysAgo? ==> r == Counted(a.n, "d ago")
  {
    match a
    case JustNow => "Just now"
    case MinutesAgo(n) => Counted(n, "m ago")
    case HoursAgo(n) => Counted(n, "h ago")
    case DaysAgo(n) => Counted(n, "d ago")
    case OnDate => date
  }

  /** Within a week the text names the unit and the floored count; older times show the date. */
  lemma AgoTextOfFormatTime(time: int, now: int, date: string)
    requires MinuteMs <= now - time
    ensures var r := AgoText(FormatTime(Some(time), now), date);
      now - time < HourMs ==> r[|r| - 5..] == "m ago" && ParseNat(r[..|r| - 5]) == (now - time) / MinuteMs
    ensures var r := AgoText(FormatTime(Some(time), now), date);
      HourMs <= now - time < DayMs ==> r[|r| - 5..] == "h ago" && ParseNat(r[..|r| - 5]) == (now - time) / HourMs
    ensures var r := AgoText(FormatTime(Some(time), now), date);
      DayMs <= now - time < 7 * DayMs ==> r[|r| - 5..] == "d ago" && ParseNat(r[..|r| - 5]) == (now - time) / DayMs
    ensures now - time >= 7 * DayMs ==> AgoText(FormatTime(Some(time), now), date) == date
  {
  }

  function ReadIf(id: string): Notification -> Notification {
    (n: Notification) => if n.id == id then n.(unread := false) else n
  }

  /** The click handler's list update: only entries with the clicked id become read. */
  function MarkRead(ns: seq<Notification>, id: string): (r: seq<Notification>)
    ensures |r| == |ns|
    ensures forall i :: 0 <= i < |ns| && ns[i].id == id ==> r[i] == ns[i].(unread := false)
    ensures forall i :: 0 <= i < |ns| && ns[i].id != id ==> r[i] == ns[i]
  {
    Map(ns, ReadIf(id))
  }

  /** The menu's state: the list and the counter behind the red dot. */
  datatype Menu = Menu(notifications: seq<Notification>, unreadCount: int)

  /** A click: the entry is marked read and the counter drops by one, never below zero. */
  function Click(m: Menu, id: string): (r: Menu)
    ensures r.notifications == MarkRead(m.notifications, id)
    ensures r.unreadCount >= 0
    ensures m.unreadCount >= 1 ==> r.unreadCount == m.unreadCount - 1
    ensures m.unreadCount <= 1 ==> r.unreadCount == 0
  {
    Menu(MarkRead(m.notifications, id), DecrementFloor(m.unreadCount))
  }

  /** A fetched feed replaces the menu; a refused request leaves it as it was. */
  function Fetched(m: Menu, f: Feed): (r: Menu)
    ensures f.Feed? ==> r == Menu(f.notifications, f.unreadCount)
    ensures f.Unauthorized? ==> r == m
  {
    if f.Feed? then Menu(f.notifications, f.unreadCount) else m
  }

  /**
   * The counter does not follow the list: clicking an entry that is already
   * read leaves the list unchanged and still lowers the counter.
   */
  lemma {:induction false} RereadLowersCounter(m: Menu, id: string)
    requires forall n :: n in m.notifications && n.id == id ==> !n.unread
    requires m.unreadCount >= 1
    ensures Click(m, id).notifications == m.notifications
    ensures Click(m, id).unreadCount == m.unreadCount - 1
  {
    var r := MarkRead(m.notifications, id);
    forall i | 0 <= i < |r| ensures r[i] == m.notifications[i] {
      var n := m.notifications[i];
      if n.id == id {
        assert n in m.notifications;
        assert n.(unread := false) == n;
      }
    }
  }
}
