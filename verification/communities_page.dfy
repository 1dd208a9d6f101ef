/**
 * app/dashboard/communities/page.tsx: the client-side list of communities.
 * The search narrows by name, the first 'General' community gets its own card
 * and the grid shows the rest; the set of joined ids is updated
 * optimistically around a join request.
 */
module CommunitiesPage {
  import opened Wrappers
  import opened Text
  import opened Seqs

  /** A community as the page receives it from GET /api/communities. */
  datatype Community = Community(id: string, name: string, description: string, memberCount: int)

  const GeneralName: string := "General"

  /** `community.name.toLowerCase().includes(search.toLowerCase())` */
  function NameMatches(search: string): Community -> bool {
    (c: Community) => Contains(Lower(c.name), Lower(search))
  }

  /** `filteredCommunities`: a case-insensitive search on the name only, in list order. */
  function FilteredCommunities(cs: seq<Community>, search: string): (r: seq<Community>)
    ensures forall c :: c in r <==> c in cs && Contains(Lower(c.name), Lower(search))
  {
    Filter(cs, NameMatches(search))
  }

  /** An empty search keeps every community. */
  lemma EmptySearchKeepsAll(cs: seq<Community>)
    ensures FilteredCommunities(cs, "") == cs
  {
    forall c: Community ensures NameMatches("")(c) {
      ContainsEmpty(Lower(c.name));
    }
    FilterAll(cs, NameMatches(""));
  }

  /** The description plays no part: two lists that differ only in descriptions filter alike. */
  lemma DescriptionIgnored(c: Community, description: string, search: string)
    ensures c in FilteredCommunities([c], search) <==> c.(description := description) in FilteredCommunities([c.(description := description)], search)
  {
  }

  /** `filteredCommunities.find(c => c.name === 'General')` */
  function GeneralCard(filtered: seq<Community>): (r: Option<Community>)
    ensures r.Some? ==> r.value in filtered && r.value.name == GeneralName
    ensures r.None? <==> forall c :: c in filtered ==> c.name != GeneralName
    ensures r.Some? ==> exists i :: 0 <= i < |filtered| && filtered[i] == r.value && forall j :: 0 <= j < i ==> filtered[j].name != GeneralName
  {
    if |filtered| == 0 then None
    else if filtered[0].name == GeneralName then Some(filtered[0])
    else
      var rest := GeneralCard(filtered[1..]);
      assert forall c :: c in filtered <==> c == filtered[0] || c in filtered[1..];
      if rest.Some? then
        var i :| 0 <= i < |filtered[1..]| && filtered[1..][i] == rest.value && forall j :: 0 <= j < i ==> filtered[1..][j].name != GeneralName;
        assert filtered[i + 1] == rest.value;
        Some(rest.value)
      else None
  }

  /** `community.name !== 'General'` */
  function NotGeneral(): Community -> bool {
    (c: Community) => c.name != GeneralName
  }

  /** The grid: every filtered community not named exactly 'General', in order. */
  function Grid(filtered: seq<Community>): (r: seq<Community>)
    ensures forall c :: c in r <==> c in filtered && c.name != GeneralName
  {
    Filter(filtered, NotGeneral())
  }

  /**
   * The card and the grid never show the same community, and everything
   * filtered that is not named 'General' is in the grid.
   */
  lemma NothingShownTwice(filtered: seq<Community>)
    ensures GeneralCard(filtered).Some? ==> GeneralCard(filtered).value !in Grid(filtered)
    ensures forall c :: c in filtered && c.name != GeneralName ==> c in Grid(filtered)
  {
  }

  /**
   * A second community named 'General' is shown nowhere: the card takes the
   * first, and the grid drops the name altogether.
   */
  lemma SecondGeneralHidden(first: Community, second: Community)
    requires first.name == GeneralName && second.name == GeneralName && first != second
    ensures GeneralCard([first, second]) == Some(first)
    ensures Grid([first, second]) == []
  {
    assert [first, second][1..] == [second];
    assert [second][1..] == [];
    FilterNone([first, second], NotGeneral());
  }

  /** Where the browser goes, and what it is told, after a click. */
  datatype Effect = NoEffect | GoTo(path: string) | Alert(text: string)

  /** The join request's result: ok, an error reply carrying an optional `error` field, or a thrown exception. */
  datatype JoinResult = Joined | JoinRejected(error: Option<string>) | JoinThrew

  /** `${x}` of an optional string field. */
  function FieldText(o: Option<string>): string {
    if o.Some? then o.value else "undefined"
  }

  /** The joined set and the effect after `handleJoin`, before any background refresh lands. */
  datatype JoinState = JoinState(joined: set<string>, effect: Effect, requested: bool)

  /**
   * `handleJoin`: without a user the browser goes to the login page and no
   * request is made; a successful join adds the id and opens the community;
   * a failed one removes the id and alerts.
   */
  function HandleJoin(signedIn: bool, joined: set<string>, id: string, result: JoinResult): (s: JoinState)
    ensures !signedIn ==> s == JoinState(joined, GoTo("/auth/login"), false)
    ensures signedIn ==> s.requested
    ensures signedIn && result.Joined? ==> s.joined == joined + {id} && s.effect == GoTo("/dashboard/communities/" + id)
    ensures signedIn && !result.Joined? ==> s.joined == joined - {id} && s.effect.Alert?
    ensures forall other :: other != id ==> (other in s.joined <==> other in joined)
  {
    if !signedIn then JoinState(joined, GoTo("/auth/login"), false)
    else match result
      case Joined => JoinState(joined + {id}, GoTo("/dashboard/communities/" + id), true)
      case JoinRejected(e) => JoinState(joined - {id}, Alert("Failed to join: " + FieldText(e)), true)
      case JoinThrew => JoinState(joined - {id}, Alert("Failed to join community"), true)
  }

  /**
   * The revert deletes the id whether or not the optimistic add happened, so a
   * failed request for a community already joined drops it from the set
   * until the next membership refresh.
   */
  lemma FailedJoinForgetsMembership(joined: set<string>, id: string, e: Option<string>)
    requires id in joined
    ensures id !in HandleJoin(true, joined, id, JoinRejected(e)).joined
    ensures id in HandleJoin(true, joined, id, Joined).joined
  {
  }

  /**
   * `ensureGeneralCommunity`: whether the init endpoint is called. Only a
   * manager calls it, and only when the listing came back and holds no
   * community named 'General'. `listing` is None when the listing request
   * failed.
   */
  function EnsureGeneral(canManageContent: bool, listing: Option<seq<Community>>): (callsInit: bool)
    ensures callsInit <==> canManageContent && listing.Some? && forall c :: c in listing.value ==> c.name != GeneralName
  {
    canManageContent && listing.Some? && GeneralCard(listing.value).None?
  }

  /** The page never asks for a second 'General': a listing that has one stops the call. */
  lemma EnsureGeneralNeverDuplicates(canManageContent: bool, cs: seq<Community>, c: Community)
    requires c in cs && c.name == GeneralName
    ensures !EnsureGeneral(canManageContent, Some(cs))
  {
  }

  /** The create form. */
  datatype Form = Form(name: string, description: string)

  /** The create request's result: the new community's id, an error reply, or a thrown exception. */
  datatype CreateResult = Created(id: string) | CreateRejected(error: Option<string>) | CreateThrew

  /** The page after `handleCreate`: the form, the effect, whether a request was sent, and `creating`. */
  datatype CreateState = CreateState(form: Form, effect: Effect, requested: bool, creating: bool)

  /**
   * `handleCreate`: a non-manager is alerted before any request; a created
   * community resets the form and is opened; a failure keeps the form and
   * alerts. `creating` ends false on every path.
   */
  function HandleCreate(canManageContent: bool, form: Form, result: CreateResult): (s: CreateState)
    ensures !canManageContent ==> s == CreateState(form, Alert("Only organizers and admins can create communities"), false, false)
    ensures canManageContent ==> s.requested
    ensures s.form == Form("", "") <==> (canManageContent && result.Created?) || form == Form("", "")
    ensures canManageContent && result.Created? ==> s.effect == GoTo("/dashboard/communities/" + result.id)
    ensures canManageContent && !result.Created? ==> s.form == form && s.effect.Alert?
    ensures !s.creating
  {
    if !canManageContent then CreateState(form, Alert("Only organizers and admins can create communities"), false, false)
    else match result
      case Created(id) => CreateState(Form("", ""), GoTo("/dashboard/communities/" + id), true, false)
      case CreateRejected(e) => CreateState(form, Alert("Failed to create community: " + FieldText(e)), true, false)
      case CreateThrew => CreateState(form, Alert("Failed to create community"), true, false)
  }
}
