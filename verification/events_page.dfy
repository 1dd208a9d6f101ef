/**
 * app/dashboard/events/page.tsx: the client-side event list (a status filter
 * and a search box) and the create form.
 */
module EventsPage {
  import opened Wrappers
  import opened Text
  import opened Seqs

  /** An event as the page receives it from GET /api/events. */
  datatype Event = Event(id: string, title: string, description: Option<string>, status: string)

  /** The values the status select offers. */
  const FilterOptions: seq<string> := ["all", "published", "draft"]

  /** `matchesSearch`: the title, or the description when there is one, contains the search text. */
  predicate MatchesSearch(e: Event, search: string) {
    || Contains(Lower(e.title), Lower(search))
    || (e.description.Some? && Contains(Lower(e.description.value), Lower(search)))
  }

  /** `matchesFilter` */
  predicate MatchesFilter(e: Event, filter: string) {
    filter == "all" || e.status == filter
  }

  function EventTest(filter: string, search: string): Event -> bool {
    (e: Event) => MatchesSearch(e, search) && MatchesFilter(e, filter)
  }

  /** `filteredEvents`, in list order. */
  function FilteredEvents(events: seq<Event>, filter: string, search: string): (r: seq<Event>)
    ensures forall e :: e in r <==> e in events && MatchesSearch(e, search) && MatchesFilter(e, filter)
    ensures |r| <= |events|
  {
    Filter(events, EventTest(filter, search))
  }

  function StatusIs(filter: string): Event -> bool {
    (e: Event) => MatchesFilter(e, filter)
  }

  /** An empty search keeps exactly the events that pass the status filter; 'all' keeps everything. */
  lemma EmptySearchKeepsFiltered(events: seq<Event>, filter: string)
    ensures FilteredEvents(events, filter, "") == Filter(events, StatusIs(filter))
    ensures FilteredEvents(events, "all", "") == events
  {
    forall e: Event ensures MatchesSearch(e, "") {
      ContainsEmpty(Lower(e.title));
    }
    FilterExt(events, EventTest(filter, ""), StatusIs(filter));
    FilterAll(events, EventTest("all", ""));
  }

  /** The create form: six text fields. */
  datatype Form = Form(title: string, description: string, startDate: string, endDate: string, location: string, imageUrl: string)

  const EmptyForm: Form := Form("", "", "", "", "", "")

  /** The error reply's `error`, `details`, `hint` and `code` fields; a missing or empty one is falsy. */
  datatype ErrorBody = ErrorBody(error: Option<string>, details: Option<string>, hint: Option<string>, code: Option<string>)

  predicate Given(f: Option<string>) { f.Some? && f.value != "" }

  /** The text appended for one optional field: a paragraph with its title when it is given, nothing when it is falsy. */
  function Section(title: string, f: Option<string>): (r: string)
    ensures Given(f) <==> r != ""
    ensures Given(f) ==> r == "\n\n" + title + ": " + f.value
  {
    if Given(f) then "\n\n" + title + ": " + f.value else ""
  }

  /** The length `Section(title, f)` adds: the two line breaks, the title, ': ' and the text when it is given. */
  function SectionLength(title: string, f: Option<string>): (n: nat)
    ensures n == |Section(title, f)|
  {
    if Given(f) then |title| + |f.value| + 4 else 0
  }

  /** The first line of the alert: the error, or 'Unknown error'. */
  function Headline(error: Option<string>): string {
    "Failed to create event: " + (if Given(error) then error.value else "Unknown error")
  }

  /**
   * `errorMessage`: the error (or 'Unknown error'), then each of details,
   * hint and code that is given, as a titled paragraph; a field that is not
   * given adds nothing.
   */
  function ErrorMessage(b: ErrorBody): (m: string)
    ensures StartsWith(m, Headline(b.error))
    ensures Given(b.details) ==> Contains(m, Section("Details", b.details))
    ensures Given(b.hint) ==> Contains(m, Section("Hint", b.hint))
    ensures Given(b.code) ==> Contains(m, Section("Error Code", b.code))
    ensures |m| == |Headline(b.error)| + SectionLength("Details", b.details) + SectionLength("Hint", b.hint)
                   + SectionLength("Error Code", b.code)
    ensures !Given(b.details) && !Given(b.hint) && !Given(b.code) ==> m == Headline(b.error)
  {
    var d, h, c := Section("Details", b.details), Section("Hint", b.hint), Section("Error Code", b.code);
    Paragraphs(Headline(b.error), d, h, c);
    var m := Headline(b.error) + d + h + c;
    m
  }

  /** Four parts joined: the message starts with the first and holds each of the others. */
  lemma Paragraphs(head: string, d: string, h: string, c: string)
    ensures StartsWith(head + d + h + c, head)
    ensures Contains(head + d + h + c, d) && Contains(head + d + h + c, h) && Contains(head + d + h + c, c)
  {
    var m := head + d + h + c;
    assert m[..|head|] == head;
    ContainsMiddle(head, d, h + c);
    ContainsMiddle(head + d, h, c);
    ContainsMiddle(head + d + h, c, "");
    assert m == head + d + (h + c) && m == head + d + h + c + "";
  }

  /** The create request's result: the new event's id, an error reply, or a thrown value (with its message when it is an Error). */
  datatype CreateResult = Created(id: string) | Rejected(body: ErrorBody) | Threw(message: Option<string>)

  datatype Effect = NoEffect | GoTo(path: string) | Alert(text: string)

  /** The page after `handleCreate`. */
  datatype CreateState = CreateState(form: Form, effect: Effect, requested: bool, creating: bool)

  /**
   * `handleCreate`: a non-manager is alerted and nothing is sent; a created
   * event resets every field and opens the event; a failure keeps the form
   * and alerts. `creating` always ends false.
   */
  function HandleCreate(canManageContent: bool, form: Form, result: CreateResult): (s: CreateState)
    ensures !canManageContent ==> s == CreateState(form, Alert("Only organizers and admins can create events"), false, false)
    ensures canManageContent ==> s.requested
    ensures canManageContent && result.Created? ==> s.form == EmptyForm && s.effect == GoTo("/dashboard/events/" + result.id)
    ensures canManageContent && !result.Created? ==> s.form == form && s.effect.Alert? && StartsWith(s.effect.text, "Failed to create event: ")
    ensures !s.creating
  {
    if !canManageContent then CreateState(form, Alert("Only organizers and admins can create events"), false, false)
    else match result
      case Created(id) => CreateState(EmptyForm, GoTo("/dashboard/events/" + id), true, false)
      case Rejected(body) => CreateState(form, Alert(ErrorMessage(body)), true, false)
      case Threw(m) =>
        var text := "Failed to create event: " + (if m.Some? then m.value else "Network error");
        assert text[..|"Failed to create event: "|] == "Failed to create event: ";
        CreateState(form, Alert(text), true, false)
  }

  /** Only a successful create clears the form; every other path leaves what was typed. */
  lemma FormClearedOnlyOnSuccess(canManageContent: bool, form: Form, result: CreateResult)
    requires form != EmptyForm
    ensures HandleCreate(canManageContent, form, result).form == EmptyForm <==> canManageContent && result.Created?
  {
  }
}
