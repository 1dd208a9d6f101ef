/**
 * Three places where two parts of the application disagree with each other.
 * Each is stated as it is, about the models of both parts; none is corrected.
 */
module Consistency {
  import opened Wrappers
  import opened Json
  import opened Roles
  import opened Api
  import UseRole
  import Sidebar
  import Analytics
  import EventsApi
  import EventsPage
  import CommunityInit

  /** Among the three role names, every one but 'user' manages content. */
  lemma ManagesUnlessUser(role: string)
    requires role == "user" || role == "organizer" || role == "admin"
    ensures Manages(Profile(Some(role))) <==> role != "user"
  {
  }

  /**
   * lib/roles.ts, the role hook and the sidebar offer analytics to every
   * role, but the analytics endpoint admits only organizers and admins: a
   * plain user sees the link and the flag, and is refused with 403.
   */
  lemma AnalyticsOfferedButRefused(user: string, role: string)
    requires UseRole.UseRole(Some(role)).canViewAnalytics
    ensures Sidebar.Analytics in Sidebar.VisibleNavItems(Some(role))
    ensures Analytics.Gate(Some(user), Some(Profile(Some(role)))).None? <==> role != "user"
    ensures role == "user" ==>
      Analytics.Gate(Some(user), Some(Profile(Some(role)))) == Some(ErrorReply(403, "Only admins and organizers can view analytics"))
  {
    UseRole.AnalyticsFlagNamesRole(role);
    Sidebar.AnalyticsForEveryRole(role);
    ManagesUnlessUser(role);
    Analytics.GateAdmitsManagers(user, Profile(Some(role)));
  }

  /** The page's view of a stored event: its status column read as text. */
  function StatusText(row: Object): string {
    if "status" in row && row["status"].Str? then row["status"].s else ""
  }

  /**
   * Every event the endpoint creates has status 'active', but the events
   * page filters on 'published' and 'draft': under either, a new event is
   * never listed, whatever the search text.
   */
  lemma NewEventsMatchNoStatusFilter(fields: Object, auth: Auth, profile: Lookup<Profile>, id: string, title: string,
                                     description: Option<string>, search: string, filter: string)
    requires EventsApi.EventsPlan(Parsed(fields), auth, profile).Insert?
    requires filter in EventsPage.FilterOptions && filter != "all"
    ensures StatusText(EventsApi.EventsPlan(Parsed(fields), auth, profile).row) == "active"
    ensures EventsPage.FilteredEvents(
      [EventsPage.Event(id, title, description, StatusText(EventsApi.EventsPlan(Parsed(fields), auth, profile).row))],
      filter, search) == []
  {
    var e := EventsPage.Event(id, title, description, "active");
    assert !EventsPage.MatchesFilter(e, filter);
    assert e !in EventsPage.FilteredEvents([e], filter, search);
  }

  /**
   * The General-community endpoint answers 200 when the community exists
   * before it looks at the caller's role: a caller with no profile, or a
   * plain user, gets the same answer as an admin.
   */
  lemma InitAnswersBeforeRoleCheck(user: string, communities: seq<Object>, profile: Option<Profile>)
    requires |CommunityInit.Generals(communities)| == 1
    ensures CommunityInit.InitPlan(Some(user), communities, profile) ==
            CommunityInit.InitPlan(Some(user), communities, Some(Profile(Some("admin"))))
    ensures CommunityInit.InitPlan(Some(user), communities, profile).reply.status == 200
  {
  }
}
