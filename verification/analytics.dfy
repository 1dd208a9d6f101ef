/**
 * app/api/analytics/route.ts: the figures of the analytics page. Only admins
 * and organizers may read them. The handler reports three totals, a
 * month-over-month change for each, a six-month series of events and
 * attendees, and the share of each approved resource type.
 *
 * Every count and row set is a parameter: what the storage client returned,
 * with `None` for a `null` result. Months are absolute month numbers
 * (twelve times the year plus the month index); `now` is the current month.
 */
module Analytics {
  import opened Wrappers
  import opened Text
  import opened Numbers
  import opened Api
  import Seqs

  // ---------------------------------------------------------------------------
  // The role gate
  // ---------------------------------------------------------------------------

  /**
   * 401 without a user; 403 when the profile is missing or its role is
   * neither admin nor organizer; otherwise the handler goes on (None).
   */
  function Gate(user: Option<string>, profile: Option<Profile>): (r: Option<Reply>)
    ensures r.None? <==> user.Some? && profile.Some? && Manages(profile.value)
    ensures user.None? ==> r == Some(ErrorReply(401, "Unauthorized"))
    ensures user.Some? && r.Some? ==> r.value == ErrorReply(403, "Only admins and organizers can view analytics")
  {
    if user.None? then Some(ErrorReply(401, "Unauthorized"))
    else if profile.None? || !Manages(profile.value) then Some(ErrorReply(403, "Only admins and organizers can view analytics"))
    else None
  }

  /** A signed-in caller with a profile is admitted exactly when the profile's role manages content. */
  lemma GateAdmitsManagers(user: string, p: Profile)
    ensures Gate(Some(user), Some(p)).None? <==> Manages(p)
  {
  }

  // ---------------------------------------------------------------------------
  // Month-over-month change
  // ---------------------------------------------------------------------------

  /** `count || 0` */
  function OrZero(count: Option<nat>): nat {
    if count.Some? then count.value else 0
  }

  /**
   * The change in percent from the previous month to this one: 0 when the
   * previous count is null or 0, otherwise `(cur - prev) / prev * 100`
   * rounded, a missing current count reading as 0.
   */
  function Change(cur: Option<nat>, prev: Option<nat>): (r: int)
    ensures prev.None? || prev.value == 0 ==> r == 0
    ensures prev.Some? && prev.value > 0 ==>
      2 * prev.value * r <= 200 * (OrZero(cur) - prev.value) + prev.value < 2 * prev.value * r + 2 * prev.value
  {
    if prev.Some? && prev.value > 0 then Round(100 * (OrZero(cur) - prev.value), prev.value) else 0
  }

  /**
   * The change has the sign of the difference, never drops below -100, is 0
   * for equal counts and 100 for a doubling.
   */
  lemma ChangeProperties(cur: nat, prev: nat)
    requires prev > 0
    ensures cur == prev ==> Change(Some(cur), Some(prev)) == 0
    ensures cur == 2 * prev ==> Change(Some(cur), Some(prev)) == 100
    ensures cur >= prev ==> Change(Some(cur), Some(prev)) >= 0
    ensures cur <= prev ==> Change(Some(cur), Some(prev)) <= 0
    ensures Change(Some(cur), Some(prev)) >= -100
    ensures Change(None, Some(prev)) == -100
  {
    if cur == prev {
      ChangeOfExact(cur, prev, 0);
    }
    if cur == 2 * prev {
      ChangeOfExact(cur, prev, 100);
    }
    ChangeSign(cur, prev);
    ChangeFloor(cur, prev);
    ChangeOfExact(0, prev, -100);
    assert Change(None, Some(prev)) == Change(Some(0), Some(prev));
  }

  /** A change that is a whole percentage is reported exactly. */
  lemma ChangeOfExact(cur: nat, prev: nat, k: int)
    requires prev > 0 && 100 * (cur - prev) == k * prev
    ensures Change(Some(cur), Some(prev)) == k
  {
    RoundExact(k, prev);
  }

  lemma ChangeSign(cur: nat, prev: nat)
    requires prev > 0
    ensures cur >= prev ==> Change(Some(cur), Some(prev)) >= 0
    ensures cur <= prev ==> Change(Some(cur), Some(prev)) <= 0
  {
    var r := Change(Some(cur), Some(prev));
    if cur >= prev && r < 0 {
      MulMonotone(2 * prev, r + 1, 0);
    }
    if cur <= prev && r > 0 {
      MulMonotone(2 * prev, 1, r);
    }
  }

  lemma ChangeFloor(cur: nat, prev: nat)
    requires prev > 0
    ensures Change(Some(cur), Some(prev)) >= -100
  {
    var r := Change(Some(cur), Some(prev));
    if r < -100 {
      MulMonotone(2 * prev, r + 1, -100);
    }
  }

  // ---------------------------------------------------------------------------
  // Resource type distribution
  // ---------------------------------------------------------------------------

  /** One entry of `resourceTypeCounts`, in the object's insertion order. */
  datatype TypeCount = TypeCount(name: string, count: nat)

  /** How often `t` occurs in `types`. */
  function Occurrences(types: seq<string>, t: string): (n: nat)
    ensures n <= |types|
    ensures n > 0 <==> t in types
    decreases |types|
  {
    if |types| == 0 then 0
    else
      var init := types[..|types| - 1];
      assert types == init + [types[|types| - 1]];
      Occurrences(init, t) + (if types[|types| - 1] == t then 1 else 0)
  }

  predicate HasName(e: seq<TypeCount>, t: string) {
    exists i :: 0 <= i < |e| && e[i].name == t
  }

  /** The sum of the counts: `Object.values(...).reduce((sum, count) => sum + count, 0)`. */
  function Total(e: seq<TypeCount>): nat
    decreases |e|
  {
    if |e| == 0 then 0 else Total(e[..|e| - 1]) + e[|e| - 1].count
  }

  function BumpIf(t: string): TypeCount -> TypeCount {
    (c: TypeCount) => if c.name == t then c.(count := c.count + 1) else c
  }

  /** `counts[type] = (counts[type] || 0) + 1`: the entry of `t` grows by one, or a new entry is added last. */
  function Bump(e: seq<TypeCount>, t: string): (r: seq<TypeCount>)
    ensures |r| == if HasName(e, t) then |e| else |e| + 1
    ensures forall i :: 0 <= i < |e| && e[i].name == t ==> r[i] == TypeCount(t, e[i].count + 1)
    ensures forall i :: 0 <= i < |e| && e[i].name != t ==> r[i] == e[i]
    ensures !HasName(e, t) ==> r == e + [TypeCount(t, 1)]
  {
    if HasName(e, t) then Seqs.Map(e, BumpIf(t)) else e + [TypeCount(t, 1)]
  }

  /** Raising the one entry named `t` raises the total by one. */
  lemma {:induction false} TotalBump(e: seq<TypeCount>, t: string)
    requires forall i, j :: 0 <= i < j < |e| ==> e[i].name != e[j].name
    requires HasName(e, t)
    ensures Total(Bump(e, t)) == Total(e) + 1
    decreases |e|
  {
    var r := Bump(e, t);
    var n := |e| - 1;
    var init := e[..n];
    assert e == init + [e[n]];
    if e[n].name == t {
      assert !HasName(init, t);
      assert r[..n] == init;
    } else {
      assert HasName(init, t);
      assert r[..n] == Bump(init, t);
      TotalBump(init, t);
    }
    assert r == r[..n] + [r[n]];
  }

  /** No two entries share a name. */
  predicate DistinctNames(e: seq<TypeCount>) {
    forall i, j :: 0 <= i < j < |e| ==> e[i].name != e[j].name
  }

  /** Every entry holds how often its name occurs. */
  predicate CountsMatch(e: seq<TypeCount>, types: seq<string>) {
    forall i :: 0 <= i < |e| ==> e[i].count == Occurrences(types, e[i].name)
  }

  /** The entries name exactly the types that occur. */
  ghost predicate NamesAre(e: seq<TypeCount>, types: seq<string>) {
    forall t :: t in types <==> HasName(e, t)
  }

  /**
   * What the counting loop keeps true: one entry per distinct type, holding
   * how often the type occurs, and counts adding up to the number of types.
   */
  ghost predicate Tallies(e: seq<TypeCount>, types: seq<string>) {
    DistinctNames(e) && CountsMatch(e, types) && NamesAre(e, types) && Total(e) == |types|
  }

  /** Counting one more type adds one occurrence of it and none of anything else. */
  lemma OccurrencesAppend(init: seq<string>, t: string)
    ensures forall u :: Occurrences(init + [t], u) == Occurrences(init, u) + (if u == t then 1 else 0)
  {
    assert (init + [t])[..|init|] == init;
  }

  /** After a bump the names are the old ones and `t`. */
  lemma BumpNames(e: seq<TypeCount>, t: string)
    ensures forall u :: HasName(Bump(e, t), u) <==> HasName(e, u) || u == t
  {
    var r := Bump(e, t);
    forall u ensures HasName(r, u) <==> HasName(e, u) || u == t {
      if HasName(e, u) {
        var i :| 0 <= i < |e| && e[i].name == u;
        assert r[i].name == u;
      }
      if u == t && !HasName(e, t) {
        assert r[|e|].name == u;
      }
      if HasName(r, u) {
        var i :| 0 <= i < |r| && r[i].name == u;
        if i < |e| {
          assert e[i].name == u || u == t;
        }
      }
    }
  }

  /** One more resource keeps the tally right. */
  lemma BumpTallies(e: seq<TypeCount>, init: seq<string>, t: string)
    requires Tallies(e, init)
    ensures Tallies(Bump(e, t), init + [t])
  {
    BumpDistinct(e, t);
    BumpCounts(e, init, t);
    BumpNamesAre(e, init, t);
    if HasName(e, t) {
      TotalBump(e, t);
    } else {
      assert Bump(e, t)[..|e|] == e;
    }
  }

  lemma BumpDistinct(e: seq<TypeCount>, t: string)
    requires DistinctNames(e)
    ensures DistinctNames(Bump(e, t))
  {
    if !HasName(e, t) {
      var r := Bump(e, t);
      forall i, j | 0 <= i < j < |r| ensures r[i].name != r[j].name {
        if j == |e| {
          assert !(e[i].name == t);
        }
      }
    }
  }

  lemma BumpCounts(e: seq<TypeCount>, init: seq<string>, t: string)
    requires CountsMatch(e, init) && NamesAre(e, init)
    ensures CountsMatch(Bump(e, t), init + [t])
  {
    OccurrencesAppend(init, t);
    if !HasName(e, t) {
      assert t !in init;
    }
  }

  lemma BumpNamesAre(e: seq<TypeCount>, init: seq<string>, t: string)
    requires NamesAre(e, init)
    ensures NamesAre(Bump(e, t), init + [t])
  {
    BumpNames(e, t);
    assert forall u :: u in init + [t] <==> u in init || u == t;
  }

  /** The names of the entries, in their order. */
  function Names(e: seq<TypeCount>): (ns: seq<string>)
    ensures |ns| == |e| && forall i :: 0 <= i < |e| ==> ns[i] == e[i].name
  {
    Seqs.Map(e, (c: TypeCount) => c.name)
  }

  /** Bumping keeps the order of the names and appends a new one last. */
  lemma BumpKeepsOrder(e: seq<TypeCount>, t: string)
    ensures HasName(e, t) <==> t in Names(e)
    ensures Names(Bump(e, t)) == if HasName(e, t) then Names(e) else Names(e) + [t]
  {
    if t in Names(e) {
      var i :| 0 <= i < |e| && Names(e)[i] == t;
      assert e[i].name == t;
    }
    if HasName(e, t) {
      var i :| 0 <= i < |e| && e[i].name == t;
      assert Names(e)[i] == t;
    }
  }

  /**
   * The counting loop over the approved resources' types: one entry per
   * distinct type, in order of first appearance, holding how often it
   * occurs; the counts add up to the number of resources.
   */
  function Tally(types: seq<string>): (e: seq<TypeCount>)
    ensures Tallies(e, types)
    ensures Names(e) == Seqs.Distinct(types)
    decreases |types|
  {
    if |types| == 0 then []
    else
      var prev := Tally(types[..|types| - 1]);
      TallyStep(prev, types);
      BumpKeepsOrder(prev, types[|types| - 1]);
      Bump(prev, types[|types| - 1])
  }

  /** The last type counted onto the tally of the others gives the tally of all. */
  lemma TallyStep(prev: seq<TypeCount>, types: seq<string>)
    requires |types| > 0 && Tallies(prev, types[..|types| - 1])
    ensures Tallies(Bump(prev, types[|types| - 1]), types)
  {
    var init, t := types[..|types| - 1], types[|types| - 1];
    BumpTallies(prev, init, t);
    assert init + [t] == types;
  }

  /**
   * The pie-chart label: the first character upper-cased, and in the rest
   * only the first '_' replaced by a space.
   */
  function DisplayName(name: string): (r: string)
    ensures |r| == |name|
    ensures name != "" ==> r[0] == UpperChar(name[0])
    ensures name == "" || '_' !in name[1..] ==> r == Capitalize(name)
  {
    if name == "" then "" else [UpperChar(name[0])] + ReplaceFirst(name[1..], '_', ' ')
  }

  /** Past the first character, the first '_' becomes a space and every other character is kept. */
  lemma DisplayNameReplacesFirstUnderscore(name: string)
    ensures forall i :: 1 <= i < |name| ==>
      DisplayName(name)[i] == if name[i] == '_' && '_' !in name[1..i] then ' ' else name[i]
  {
    if name != "" {
      var tail := name[1..];
      ReplaceFirstPointwise(tail, '_', ' ');
      forall i | 1 <= i < |name|
        ensures DisplayName(name)[i] == if name[i] == '_' && '_' !in name[1..i] then ' ' else name[i]
      {
        assert tail[..i - 1] == name[1..i];
      }
    }
  }

  /** A label with two underscores keeps the second. */
  lemma DisplayNameExample()
    ensures DisplayName("a_b_c") == "A b_c"
  {
    var tail := "a_b_c"[1..];
    assert tail == "_b_c";
    assert IndexOf(tail, '_') == Some(0);
    assert ReplaceFirst(tail, '_', ' ') == [' '] + tail[1..];
    assert UpperChar('a') == 'A';
  }

  /** One slice of the pie chart: the label and the rounded share in percent. */
  datatype Slice = Slice(name: string, value: int)

  /** `resourceData`: for each type in order, its label and its rounded share of all approved resources. */
  function ResourceData(types: seq<string>): (r: seq<Slice>)
    ensures |r| == |Tally(types)|
    ensures forall i :: 0 <= i < |r| ==> r[i].name == DisplayName(Tally(types)[i].name)
    ensures forall i :: 0 <= i < |r| ==> r[i].value == Percent(Tally(types)[i].count, |types|)
    ensures forall i :: 0 <= i < |r| ==> 0 <= r[i].value <= 100
  {
    var e := Tally(types);
    var r := seq(|e|, i requires 0 <= i < |e| => Slice(DisplayName(e[i].name), Percent(e[i].count, Total(e))));
    forall i | 0 <= i < |r| ensures 0 <= r[i].value <= 100 {
      PercentBounds(e[i].count, |types|);
    }
    r
  }

  /** A type not seen before is added last with count 1. */
  lemma TallyNewType(init: seq<string>, t: string)
    requires t !in init
    ensures Tally(init + [t]) == Tally(init) + [TypeCount(t, 1)]
  {
    assert (init + [t])[..|init|] == init;
  }

  /** Types that are pairwise distinct are each tallied once, in their order. */
  lemma {:induction false} TallyOfDistinct(types: seq<string>)
    requires forall i, j :: 0 <= i < j < |types| ==> types[i] != types[j]
    ensures |Tally(types)| == |types|
    ensures forall i :: 0 <= i < |types| ==> Tally(types)[i] == TypeCount(types[i], 1)
    decreases |types|
  {
    if |types| > 0 {
      var n := |types| - 1;
      var init, t := types[..n], types[n];
      assert types == init + [t];
      TallyOfDistinct(init);
      assert t !in init by {
        forall k | 0 <= k < n ensures init[k] != t {
          assert init[k] == types[k];
        }
      }
      TallyNewType(init, t);
    }
  }

  /**
   * The shares are rounded one by one, so they need not add up to 100: three
   * distinct types once each get 33 each, 99 in all.
   */
  lemma SharesNeedNotSumTo100(a: string, b: string, c: string)
    requires a != b && a != c && b != c
    ensures |ResourceData([a, b, c])| == 3
    ensures forall i :: 0 <= i < 3 ==> ResourceData([a, b, c])[i].value == 33
    ensures ResourceData([a, b, c])[0].value + ResourceData([a, b, c])[1].value + ResourceData([a, b, c])[2].value == 99
  {
    var types := [a, b, c];
    TallyOfDistinct(types);
    assert Percent(1, 3) == 33;
  }

  // ---------------------------------------------------------------------------
  // The six-month series
  // ---------------------------------------------------------------------------

  /** An event as the series query returns it: its start month and its `attendee_count`. */
  datatype Event = Event(month: int, attendeeCount: Option<int>)

  /** `event.attendee_count || 0` */
  function AttendeesOf(e: Event): int {
    if e.attendeeCount.Some? then e.attendeeCount.value else 0
  }

  /**
   * How events are grouped: by the short month name, as the handler does,
   * which is the month number modulo 12; or by the month itself.
   */
  datatype Grouping = ByName | ByMonth

  function Key(g: Grouping, month: int): int {
    match g
    case ByName => month % 12
    case ByMonth => month
  }

  /** The number of events whose key is `k`. */
  function EventsIn(events: seq<Event>, g: Grouping, k: int): nat
    decreases |events|
  {
    if |events| == 0 then 0
    else EventsIn(events[..|events| - 1], g, k) + (if Key(g, events[|events| - 1].month) == k then 1 else 0)
  }

  /** The attendees of the events whose key is `k`, added up. */
  function AttendeesIn(events: seq<Event>, g: Grouping, k: int): int
    decreases |events|
  {
    if |events| == 0 then 0
    else AttendeesIn(events[..|events| - 1], g, k) + (if Key(g, events[|events| - 1].month) == k then AttendeesOf(events[|events| - 1]) else 0)
  }

  /** Without matching events the attendee total is 0. */
  lemma {:induction false} NoEventsNoAttendees(events: seq<Event>, g: Grouping, k: int)
    requires EventsIn(events, g, k) == 0
    ensures AttendeesIn(events, g, k) == 0
    decreases |events|
  {
    if |events| > 0 {
      NoEventsNoAttendees(events[..|events| - 1], g, k);
    }
  }

  /** One entry of `monthlyData`. */
  datatype Bucket = Bucket(events: nat, attendees: int)

  /**
   * The grouping loop: each event adds 1 to its key's event count and its
   * attendees to the key's attendee total. A key is present exactly when
   * some event has it, and then holds the count and the total of its events.
   */
  function MonthlyData(events: seq<Event>, g: Grouping): (m: map<int, Bucket>)
    ensures forall k :: k in m <==> EventsIn(events, g, k) > 0
    ensures forall k :: k in m ==> m[k] == Bucket(EventsIn(events, g, k), AttendeesIn(events, g, k))
    decreases |events|
  {
    if |events| == 0 then map[]
    else
      var init := events[..|events| - 1];
      var prev := MonthlyData(init, g);
      var e := events[|events| - 1];
      var k := Key(g, e.month);
      if k in prev then
        prev[k := Bucket(prev[k].events + 1, prev[k].attendees + AttendeesOf(e))]
      else
        NoEventsNoAttendees(init, g, k);
        prev[k := Bucket(1, AttendeesOf(e))]
  }

  /** One bar of the chart: the month (its short name is the month number modulo 12), its event count and its attendees. */
  datatype Point = Point(month: int, events: nat, attendees: int)

  /** The bar of `month`: the bucket of its key, or 0/0. */
  function PointOf(data: map<int, Bucket>, g: Grouping, month: int): Point {
    var k := Key(g, month);
    if k in data then Point(month, data[k].events, data[k].attendees) else Point(month, 0, 0)
  }

  /** The bars read from a grouping's buckets, one per listed month. */
  function Bars(data: map<int, Bucket>, g: Grouping, months: seq<int>): (s: seq<Point>)
    ensures |s| == |months| && forall i :: 0 <= i < |months| ==> s[i] == PointOf(data, g, months[i])
  {
    seq(|months|, i requires 0 <= i < |months| => PointOf(data, g, months[i]))
  }

  /** `eventData` under a grouping, one bar per listed month, each with the count and the total of its key. */
  function SeriesAt(events: seq<Event>, g: Grouping, months: seq<int>): (s: seq<Point>)
    ensures |s| == |months|
    ensures forall i :: 0 <= i < |months| ==> s[i].month == months[i]
    ensures forall i :: 0 <= i < |months| ==> s[i].events == EventsIn(events, g, Key(g, months[i]))
    ensures forall i :: 0 <= i < |months| ==> s[i].attendees == AttendeesIn(events, g, Key(g, months[i]))
  {
    PointsOfMonthlyData(events, g);
    Bars(MonthlyData(events, g), g, months)
  }

  /** Each bar holds the count and the total of its key, 0/0 included. */
  lemma PointsOfMonthlyData(events: seq<Event>, g: Grouping)
    ensures forall month ::
      PointOf(MonthlyData(events, g), g, month) ==
      Point(month, EventsIn(events, g, Key(g, month)), AttendeesIn(events, g, Key(g, month)))
  {
    forall month
      ensures PointOf(MonthlyData(events, g), g, month) ==
        Point(month, EventsIn(events, g, Key(g, month)), AttendeesIn(events, g, Key(g, month)))
    {
      if EventsIn(events, g, Key(g, month)) == 0 {
        NoEventsNoAttendees(events, g, Key(g, month));
      }
    }
  }

  /** Six consecutive months, five months ago first and the current month last. */
  function LastSixMonths(now: int): (ms: seq<int>)
    ensures |ms| == 6 && forall i :: 0 <= i < 6 ==> ms[i] == now - 5 + i
  {
    seq(6, i requires 0 <= i < 6 => now - 5 + i)
  }

  /** `eventData` under a grouping: six bars for the last six months, five months ago first. */
  function Series(events: seq<Event>, g: Grouping, now: int): (s: seq<Point>)
    ensures |s| == 6
    ensures forall i :: 0 <= i < 6 ==> s[i].month == now - 5 + i
    ensures forall i :: 0 <= i < 6 ==> s[i].events == EventsIn(events, g, Key(g, now - 5 + i))
    ensures forall i :: 0 <= i < 6 ==> s[i].attendees == AttendeesIn(events, g, Key(g, now - 5 + i))
  {
    SeriesAt(events, g, LastSixMonths(now))
  }

  // ---------------------------------------------------------------------------
  // The calendar, for `setMonth`
  // ---------------------------------------------------------------------------

  /** A leap year of the Gregorian calendar. */
  predicate LeapYear(year: int) {
    year % 4 == 0 && (year % 100 != 0 || year % 400 == 0)
  }

  /** The number of days of an absolute month. */
  function DaysIn(month: int): (d: nat)
    ensures 28 <= d <= 31
  {
    var m := month % 12;
    if m == 1 then (if LeapYear(month / 12) then 29 else 28)
    else if m == 3 || m == 5 || m == 8 || m == 10 then 30
    else 31
  }

  /**
   * The month `date.setMonth(date.getMonth() - back)` lands in, on day `day`
   * of month `now`: the day of the month is kept, so when the target month
   * is shorter the date rolls over into the month after it (by at most three
   * days, less than any month).
   */
  function SetMonthBack(now: int, day: nat, back: nat): (m: int)
    ensures m == now - back || m == now - back + 1
    ensures m == now - back + 1 <==> day > DaysIn(now - back)
    ensures day <= 28 ==> m == now - back
  {
    if day > DaysIn(now - back) then now - back + 1 else now - back
  }

  /** The months of the six bars as the handler computes them, on day `day` of month `now`. */
  function BarMonths(now: int, day: nat): (ms: seq<int>)
    ensures |ms| == 6 && forall i :: 0 <= i < 6 ==> ms[i] == SetMonthBack(now, day, 5 - i)
  {
    seq(6, i requires 0 <= i < 6 => SetMonthBack(now, day, 5 - i))
  }

  /** Up to the 28th, the handler's bars are the last six months. */
  lemma BarMonthsEarlyInMonth(now: int, day: nat)
    requires day <= 28
    ensures BarMonths(now, day) == LastSixMonths(now)
  {
  }

  /**
   * On 31 March 2025 the bars read Oct, Dec, Dec, Jan, Mar, Mar: November
   * and February roll over into the month after them, so they get no bar and
   * their successors get two.
   */
  lemma BarsOnLastDayOfMarch()
    ensures BarMonths(2025 * 12 + 2, 31) == [2024 * 12 + 9, 2024 * 12 + 11, 2024 * 12 + 11, 2025 * 12, 2025 * 12 + 2, 2025 * 12 + 2]
  {
    var now := 2025 * 12 + 2;
    assert DaysIn(now - 5) == 31 && DaysIn(now - 4) == 30 && DaysIn(now - 3) == 31;
    assert DaysIn(now - 2) == 31 && !LeapYear(2025) && DaysIn(now - 1) == 28 && DaysIn(now) == 31;
  }

  /**
   * The series as the handler computes it: bars at the months `setMonth`
   * reaches from day `day` of month `now`, and events keyed by month name.
   */
  function SeriesAsWritten(events: seq<Event>, now: int, day: nat): (s: seq<Point>)
    ensures |s| == 6
    ensures forall i :: 0 <= i < 6 ==> s[i].month == SetMonthBack(now, day, 5 - i)
    ensures forall i :: 0 <= i < 6 ==> s[i].events == EventsIn(events, ByName, SetMonthBack(now, day, 5 - i) % 12)
    ensures forall i :: 0 <= i < 6 ==> s[i].attendees == AttendeesIn(events, ByName, SetMonthBack(now, day, 5 - i) % 12)
  {
    SeriesAt(events, ByName, BarMonths(now, day))
  }

  /**
   * On the last day of March the handler draws December twice and leaves
   * November out: two bars show the same events.
   */
  lemma RepeatedBarOnLastDayOfMarch(events: seq<Event>)
    ensures var s := SeriesAsWritten(events, 2025 * 12 + 2, 31);
      s[1] == s[2] && forall i :: 0 <= i < 6 ==> s[i].month != 2024 * 12 + 10
  {
    BarsOnLastDayOfMarch();
  }

  /**
   * The query keeps every event from six months ago on, future ones
   * included. An event seven months ahead has the name of the month five
   * months ago and is drawn in that bar.
   */
  lemma FutureEventInPastBar(now: int)
    ensures SeriesAsWritten([Event(now + 7, Some(10))], now, 1)[0] == Point(now - 5, 1, 10)
    ensures SeriesCorrected([Event(now + 7, Some(10))], now)[0] == Point(now - 5, 0, 0)
  {
    var es := [Event(now + 7, Some(10))];
    assert es[..0] == [];
    assert (now + 7) % 12 == (now - 5) % 12 by {
      assert now + 7 == (now - 5) + 12;
    }
    NoEventsNoAttendees(es, ByMonth, now - 5);
  }

  /**
   * The series as intended: one bar for each of the last six months, each
   * counting only the events of its own month, with their attendees.
   */
  function SeriesCorrected(events: seq<Event>, now: int): (s: seq<Point>)
    ensures |s| == 6
    ensures forall i :: 0 <= i < 6 ==> s[i].month == now - 5 + i
    ensures forall i :: 0 <= i < 6 ==> s[i].events == EventsIn(events, ByMonth, now - 5 + i)
    ensures forall i :: 0 <= i < 6 ==> s[i].attendees == AttendeesIn(events, ByMonth, now - 5 + i)
  {
    Series(events, ByMonth, now)
  }

  /** Two months less than a year apart with the same name are the same month. */
  lemma SameName(a: int, b: int)
    requires a % 12 == b % 12 && -12 < a - b < 12
    ensures a == b
  {
    var qa, qb := a / 12, b / 12;
    assert a == 12 * qa + a % 12 && b == 12 * qb + b % 12;
    assert a - b == 12 * (qa - qb);
    if qa > qb {
      MulAtLeast(12, qa - qb);
    } else if qa < qb {
      MulAtLeast(12, qb - qa);
    }
  }

  /** When no event is a year or more away from month `k`, grouping by name counts the same as grouping by month. */
  lemma {:induction false} NameCountsMonth(events: seq<Event>, k: int)
    requires forall i :: 0 <= i < |events| ==> -12 < events[i].month - k < 12
    ensures EventsIn(events, ByName, k % 12) == EventsIn(events, ByMonth, k)
    ensures AttendeesIn(events, ByName, k % 12) == AttendeesIn(events, ByMonth, k)
    decreases |events|
  {
    if |events| > 0 {
      var n := |events| - 1;
      NameCountsMonth(events[..n], k);
      if events[n].month % 12 == k % 12 {
        SameName(events[n].month, k);
      }
    }
  }

  /**
   * The handler's series is right whenever the day of the month is at most
   * the 28th and every event lies in the seven months the query window
   * starts in and the chart ends with: then it draws the intended bars.
   */
  lemma AsWrittenAgreesInWindow(events: seq<Event>, now: int, day: nat)
    requires day <= 28
    requires forall i :: 0 <= i < |events| ==> now - 6 <= events[i].month <= now
    ensures SeriesAsWritten(events, now, day) == SeriesCorrected(events, now)
  {
    var a, c := SeriesAsWritten(events, now, day), SeriesCorrected(events, now);
    forall i | 0 <= i < 6 ensures a[i] == c[i] {
      NameCountsMonth(events, now - 5 + i);
    }
  }

  // ---------------------------------------------------------------------------
  // The handler
  // ---------------------------------------------------------------------------

  /** The nine counts the handler asks for; `None` is a `null` count. */
  datatype Counts = Counts(
    totalEvents: Option<nat>, totalAttendees: Option<nat>, totalBookings: Option<nat>,
    curEvents: Option<nat>, prevEvents: Option<nat>,
    curAttendees: Option<nat>, prevAttendees: Option<nat>,
    curBookings: Option<nat>, prevBookings: Option<nat>)

  datatype Stats = Stats(totalEvents: nat, totalAttendees: nat, totalBookings: nat, avgSatisfaction: string)

  datatype Changes = Changes(events: int, attendees: int, bookings: int)

  datatype Report = Report(stats: Stats, changes: Changes, eventData: seq<Point>, resourceData: seq<Slice>)

  datatype Answer = Denied(reply: Reply) | Answered(report: Report)

  /**
   * GET on day `day` of month `now`: the gate first; then null totals
   * reported as 0, the three changes, the six-month series as the handler
   * computes it from the recent events, and the distribution of the approved
   * resources' types. A `null` row set reads as no rows.
   */
  function AnalyticsGet(user: Option<string>, profile: Option<Profile>, counts: Counts,
                        recent: Option<seq<Event>>, types: Option<seq<string>>, now: int, day: nat): (a: Answer)
    ensures a.Denied? <==> Gate(user, profile).Some?
    ensures a.Denied? ==> a.reply == Gate(user, profile).value
    ensures a.Answered? ==> a.report.stats == Stats(OrZero(counts.totalEvents), OrZero(counts.totalAttendees), OrZero(counts.totalBookings), "4.6/5")
    ensures a.Answered? ==> a.report.changes == Changes(
      Change(counts.curEvents, counts.prevEvents),
      Change(counts.curAttendees, counts.prevAttendees),
      Change(counts.curBookings, counts.prevBookings))
    ensures a.Answered? ==> a.report.eventData == SeriesAsWritten(recent.GetOr([]), now, day)
    ensures a.Answered? && types.Some? ==> a.report.resourceData == ResourceData(types.value)
    ensures a.Answered? && types.None? ==> a.report.resourceData == []
  {
    var gate := Gate(user, profile);
    if gate.Some? then Denied(gate.value)
    else
      var ts := types.GetOr([]);
      Answered(Report(
        Stats(OrZero(counts.totalEvents), OrZero(counts.totalAttendees), OrZero(counts.totalBookings), "4.6/5"),
        Changes(Change(counts.curEvents, counts.prevEvents),
                Change(counts.curAttendees, counts.prevAttendees),
                Change(counts.curBookings, counts.prevBookings)),
        SeriesAsWritten(recent.GetOr([]), now, day),
        ResourceData(ts)))
  }

  /**
   * Up to the 28th of the month, and with no event later than the current
   * month, the handler's chart is the intended one.
   */
  lemma AnalyticsGetAgreesWhenInWindow(user: string, profile: Profile, counts: Counts, recent: seq<Event>,
                                       types: Option<seq<string>>, now: int, day: nat)
    requires Manages(profile) && day <= 28
    requires forall i :: 0 <= i < |recent| ==> now - 6 <= recent[i].month <= now
    ensures AnalyticsGet(Some(user), Some(profile), counts, Some(recent), types, now, day).report.eventData
         == SeriesCorrected(recent, now)
  {
    AsWrittenAgreesInWindow(recent, now, day);
  }
}
