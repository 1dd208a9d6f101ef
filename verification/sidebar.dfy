/**
 * components/sidebar.tsx: the navigation list, which entries a role sees,
 * and which entry is highlighted for the current path.
 */
module Sidebar {
  import opened Wrappers
  import opened Text
  import opened Seqs

  datatype NavItem = NavItem(title: string, href: string, roles: seq<string>)

  const Everyone: seq<string> := ["user", "organizer", "admin"]

  const Events := NavItem("Events", "/dashboard/events", Everyone)
  const Resources := NavItem("Resources", "/dashboard/resources", Everyone)
  const Communities := NavItem("Communities", "/dashboard/communities", Everyone)
  const Analytics := NavItem("Analytics", "/dashboard/analytics", Everyone)
  const Approvals := NavItem("Resource Approvals", "/dashboard/resources/approvals", ["admin"])
  const Settings := NavItem("Settings", "/dashboard/settings", Everyone)

  /** `navItems`, in display order. */
  const NavItems: seq<NavItem> := [Events, Resources, Communities, Analytics, Approvals, Settings]

  /** `role || 'user'` for the hook's role. */
  function EffectiveRole(role: Option<string>): string {
    if role.None? || role.value == "" then "user" else role.value
  }

  /** `navItems.filter(item => item.roles.includes(role || 'user'))` */
  function VisibleNavItems(role: Option<string>): (r: seq<NavItem>)
    ensures forall it :: it in r <==> it in NavItems && EffectiveRole(role) in it.roles
  {
    Filter(NavItems, VisibleTo(role))
  }

  /** The filter's test, `item.roles.includes(role || 'user')`. */
  function VisibleTo(role: Option<string>): NavItem -> bool {
    (it: NavItem) => EffectiveRole(role) in it.roles
  }

  /** No role is filtered exactly as the role `user`. */
  lemma NoRoleSeesUserItems()
    ensures VisibleNavItems(None) == VisibleNavItems(Some("user"))
  {
  }

  /** 'Resource Approvals' is listed exactly for admins. */
  lemma ApprovalsOnlyForAdmin(role: Option<string>)
    ensures Approvals in VisibleNavItems(role) <==> role == Some("admin")
  {
  }

  /** Every other entry, Analytics included, is listed for each of the three roles. */
  lemma OthersForEveryRole(role: Option<string>, it: NavItem)
    requires role.None? || role.value in Everyone
    requires it in NavItems && it != Approvals
    ensures it in VisibleNavItems(role)
  {
  }

  /** The Analytics entry is listed for each of the three roles. */
  lemma AnalyticsForEveryRole(role: string)
    requires role in Everyone
    ensures Analytics in VisibleNavItems(Some(role))
  {
    assert Analytics == NavItems[3];
    assert Analytics.title[0] != Approvals.title[0];
    OthersForEveryRole(Some(role), Analytics);
  }

  /** Admins see every entry, in the original order. */
  lemma AdminSeesAll()
    ensures VisibleNavItems(Some("admin")) == NavItems
    ensures |VisibleNavItems(Some("admin"))| == 6
  {
    FilterAll(NavItems, VisibleTo(Some("admin")));
  }

  /** The entries everyone sees, before and after 'Resource Approvals'. */
  const Common: seq<NavItem> := [Events, Resources, Communities, Analytics]

  /** Users and organizers see five entries: all but 'Resource Approvals', in the original order. */
  lemma UserAndOrganizerSeeFive(role: string)
    requires role == "user" || role == "organizer"
    ensures VisibleNavItems(Some(role)) == Common + [Settings]
    ensures |VisibleNavItems(Some(role))| == 5
  {
    assert role in Everyone;
    assert role != "admin";
    NonAdminSeesCommon(role);
  }

  /** Any role of the list but admin sees the four common entries and Settings. */
  lemma NonAdminSeesCommon(role: string)
    requires role in Everyone && role != "admin"
    ensures VisibleNavItems(Some(role)) == Common + [Settings]
  {
    var p := VisibleTo(Some(role));
    assert NavItems == Common + [Approvals, Settings];
    assert forall it :: it in Common ==> p(it);
    assert !p(Approvals) && p(Settings);
    KeepAllButOne(Common, Approvals, Settings, p);
  }

  /** Filtering `c + [x, y]` where only `x` fails keeps `c + [y]`. */
  lemma KeepAllButOne(c: seq<NavItem>, x: NavItem, y: NavItem, p: NavItem -> bool)
    requires forall it :: it in c ==> p(it)
    requires !p(x) && p(y)
    ensures Filter(c + [x, y], p) == c + [y]
  {
    FilterConcat(c, [x, y], p);
    FilterAll(c, p);
    SkipThenKeep(x, y, p);
  }

  /** Filtering two items of which only the second passes keeps the second. */
  lemma SkipThenKeep(x: NavItem, y: NavItem, p: NavItem -> bool)
    requires !p(x) && p(y)
    ensures Filter([x, y], p) == [y]
  {
    assert [x, y] == [x] + [y];
    FilterConcat([x], [y], p);
    FilterNone([x], p);
    FilterAll([y], p);
  }

  /** A role string naming no role sees no entry at all. */
  lemma UnknownRoleSeesNothing(s: string)
    requires s != "" && s !in Everyone
    ensures VisibleNavItems(Some(s)) == []
  {
    FilterNone(NavItems, VisibleTo(Some(s)));
  }

  /**
   * `pathname === item.href || pathname.startsWith(item.href + '/')`: the
   * entry's page itself, or a page below it by a whole path segment.
   */
  function IsActive(pathname: string, href: string): (b: bool)
    ensures b <==> pathname == href ||
                   (|pathname| > |href| && pathname[..|href|] == href && pathname[|href|] == '/')
  {
    var p := href + "/";
    assert StartsWith(pathname, p) <==> |pathname| > |href| && pathname[..|href|] == href && pathname[|href|] == '/' by {
      if |pathname| > |href| {
        assert pathname[..|p|] == pathname[..|href|] + [pathname[|href|]];
      }
    }
    pathname == href || StartsWith(pathname, p)
  }

  /** Highlighting is by whole path segments: a longer sibling name does not match. */
  lemma ActiveBySegment()
    ensures IsActive("/dashboard/events/42", Events.href)
    ensures !IsActive("/dashboard/eventsx", Events.href)
    ensures !IsActive("/dashboard", Events.href)
  {
    assert ("/dashboard/events/42")[..|Events.href + "/"|] == Events.href + "/";
    assert ("/dashboard/eventsx")[..|Events.href + "/"|] != Events.href + "/" by {
      assert ("/dashboard/eventsx")[17] == 'x';
      assert (Events.href + "/")[17] == '/';
    }
  }

  /** On the approvals page both 'Resources' and 'Resource Approvals' are highlighted. */
  lemma ApprovalsPathHighlightsTwo()
    ensures IsActive(Approvals.href, Resources.href)
    ensures IsActive(Approvals.href, Approvals.href)
    ensures !IsActive(Approvals.href, Events.href)
  {
    assert Approvals.href[..|Resources.href + "/"|] == Resources.href + "/";
    assert Approvals.href[..|Events.href + "/"|] != Events.href + "/" by {
      assert Approvals.href[11] == 'r';
      assert (Events.href + "/")[11] == 'e';
    }
  }
}
