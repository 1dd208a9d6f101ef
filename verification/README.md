# Blue Testers: a verified model of the campus manager's core

Blue Testers is a Next.js and Supabase application for a campus. Students and
staff browse events, book shared resources and chat in communities. Organizers
and admins create content, and admins approve resources. This project models
the parts of it that make decisions, as pure Dafny functions over immutable
data, and proves properties of them:

- **the role lattice.** `lib/roles.ts`, the `useRole` hook, the sidebar's role
  filter, and the sign-up metadata that carries the role (modules `Roles`,
  `UseRole`, `Sidebar`, `Signup`, `AuthMetadata`, `UseAuth`, `SyncRole`).
- **the booking availability resolver.** The resources page decides which
  booking is current and which availability message a resource card shows
  (`ResourcesPage`).
- **the API guard chains.** Every route handler is modelled from the session
  check to the JSON reply. The database's answers (session, profile lookup,
  insert result, rows, counts) are parameters (`Api`, `ResourcesApi`,
  `EventsApi`, `CommunitiesApi`, `CommunityInit`, `BookingsApi`, `ProfileApi`,
  `MembershipsApi`, `Notifications`, `Analytics`, `DashboardStats`,
  `ChatApi`).
- **list and aggregate post-processing.** This covers:
  - the notification feed: merge, sort, cut to ten, unread count;
  - analytics: month-over-month change, six-month series, resource-type shares;
  - the dashboard figures;
  - the pages' search and status filters.
- **text and state helpers.** This covers:
  - relative times;
  - page titles;
  - the notification menu's read marks and counter;
  - the chat widgets' send and stream handling;
  - the sign-up error messages.

Shared pieces:

- `Wrappers`: `Option`.
- `Json`: JSON values, truthiness, objects.
- `Text`: ASCII case mapping, substring search, split and join, trimming, decimal digits.
- `Seqs`: filter, map, prefix, distinct.
- `Sorting`: a stable descending sort by an integer key. It stands for
  `order(..., { ascending: false })` and the notification sort.
- `Numbers`: `Math.round` of a quotient and percentages.

`Consistency` states three places where two parts of the application disagree.

A request body is one of three things: text that is not JSON, the JSON
`null`, or any other JSON value. The last is modelled as the object of its own
enumerable properties, since that is all a property read, a destructuring or a
spread sees of it: no keys for a number or a boolean, the indices for a string
or an array.

Timestamps are integers (milliseconds, or absolute month numbers in analytics).
A date that `new Date` cannot read is `None`. Clocks are parameters.

## Model

| member | source | states |
|---|---|---|
| Roles.ParseRole | lib/roles.ts:1-7 | a stored string is a role exactly when it is one of the three names; parsing gives back the role whose name it is |
| Roles.ParseName | lib/roles.ts:3-7 | every role survives being stored as its name and read back |
| Roles.HasRole | lib/roles.ts:12-22 | no role satisfies nothing; otherwise the requirement is met iff it is `user`, the role itself, or the role is admin (rank comparison over user < organizer < admin) |
| Roles.CanManageContent | lib/roles.ts:27-29 | true exactly for organizer and admin |
| Roles.CanApproveResources | lib/roles.ts:34-36 | true exactly for admin (an equality test) |
| Roles.CanViewAnalytics | lib/roles.ts:41-43 | true for every role, false for no role |
| Roles.CanJoinRooms | lib/roles.ts:48-50 | true for every role, false for no role |
| Roles.ManagerRoleIsCanManage | lib/roles.ts:27-29 | the handlers' inline test `['organizer','admin'].includes(role)` agrees with `canManageContent` on every string |
| Roles.HasRoleReflexive | lib/roles.ts:21 | every role meets its own requirement |
| Roles.HasRoleTransitive | lib/roles.ts:21 | meeting requirements composes along the order |
| Roles.HasRoleAntisymmetric | lib/roles.ts:15-21 | two roles that meet each other's requirement are equal |
| Roles.HasRoleMonotone | lib/roles.ts:15-21 | a higher-ranked role meets every requirement a lower one meets |
| Roles.ViewAnalyticsIsJoinRooms | lib/roles.ts:41-50 | the two "any role" permissions coincide |
| Roles.ApproveImpliesManage | lib/roles.ts:27-36 | approving implies managing; an organizer manages but cannot approve |
| UseRole.UseRole | hooks/use-role.ts:9-22 | an empty role reads as none; isAdmin equals canApproveResources; isOrganizer equals canManageContent; isUser and isOrganizer never both hold; analytics is granted iff the role is one of the three names |
| UseRole.HookHasRoleAgrees | hooks/use-role.ts:23 | the hook's `hasRole` closure answers what `hasRole` of lib/roles.ts answers for the parsed profile role |
| UseRole.UnknownRoleGrantsNothing | hooks/use-role.ts:9-22 | a stored string naming no role is kept in `role` but sets no flag and grants no permission |
| Sidebar.VisibleNavItems | components/sidebar.tsx:63-65 | an entry is shown iff it is in the list and its roles include the role, with no role read as `user` |
| Sidebar.NoRoleSeesUserItems | components/sidebar.tsx:63-65 | a missing role sees exactly what `user` sees |
| Sidebar.ApprovalsOnlyForAdmin | components/sidebar.tsx:43-48 | 'Resource Approvals' is shown iff the role is admin |
| Sidebar.OthersForEveryRole | components/sidebar.tsx:18-55 | every other entry, Analytics included, is shown to all three roles |
| Sidebar.AdminSeesAll | components/sidebar.tsx:18-65 | an admin sees all six entries in their original order |
| Sidebar.AnalyticsForEveryRole | components/sidebar.tsx:41-65 | the Analytics entry is shown to each of the three roles |
| Sidebar.UserAndOrganizerSeeFive | components/sidebar.tsx:18-65 | users and organizers see the five other entries, in order |
| Sidebar.UnknownRoleSeesNothing | components/sidebar.tsx:63-65 | a role string that names no role sees no entry at all |
| Sidebar.IsActive | components/sidebar.tsx:77 | an entry is highlighted iff the path is its own or continues it with '/' |
| Sidebar.ActiveBySegment | components/sidebar.tsx:77 | highlighting matches the path or a sub-path, never a longer sibling name |
| Sidebar.ApprovalsPathHighlightsTwo | components/sidebar.tsx:77 | on the approvals page both 'Resources' and 'Resource Approvals' are highlighted |
| ResourcesPage.ResourceBookings | app/dashboard/resources/page.tsx:156-162 | a booking is kept iff it belongs to the resource and its status is confirmed, pending or completed; no cancelled booking is kept |
| ResourcesPage.ResourceBookingsOrder | app/dashboard/resources/page.tsx:156-162 | the selection keeps list order (it distributes over concatenation) |
| ResourcesPage.CurrentBooking | app/dashboard/resources/page.tsx:164-192 | the result is the first kept booking in list order that is active at the instant; there is none iff no kept booking is active |
| ResourcesPage.ActiveAtBothEnds | app/dashboard/resources/page.tsx:174 | a booking counts as current at its first and last instant and at no instant outside them |
| ResourcesPage.UnreadableNeverActive | app/dashboard/resources/page.tsx:170-174 | a booking with an unreadable start or end is never current |
| ResourcesPage.IsResourceBooked | app/dashboard/resources/page.tsx:195-197 | a resource is booked iff one of its kept bookings is active at the instant |
| ResourcesPage.Upcoming | app/dashboard/resources/page.tsx:220-221 | the kept bookings that end after now, and only those |
| ResourcesPage.FirstEarliest | app/dashboard/resources/page.tsx:222-232 | the head of the stable ascending sort: no booking starts before it, and every earlier-listed one starts after it |
| ResourcesPage.LastLatest | app/dashboard/resources/page.tsx:222-253 | the tail of the stable ascending sort: no booking starts after it, and every later-listed one starts before it |
| ResourcesPage.FreeStatus | app/dashboard/resources/page.tsx:224-267 | never 'booked'. 'Available now' iff nothing ends after now. 'Available until' iff the earliest upcoming booking has a readable start later than now, and it names that start. 'Available after' names the end of the last booking of the ascending sort |
| ResourcesPage.BookingStatus | app/dashboard/resources/page.tsx:198-268 | 'booked' iff a booking is current at the first clock reading, until its end. Otherwise the message is FreeStatus over the bookings upcoming at the second reading: 'Available until' iff the earliest has a later readable start, 'Available after' the last one's end. `availableAfter` is set iff the message is booked or 'Available after' |
| ResourcesPage.AvailableAfterUnreachable | app/dashboard/resources/page.tsx:198-268 | with one clock reading and readable starts, 'Available after' is never shown |
| ResourcesPage.AvailableAfterWithTwoClocks | app/dashboard/resources/page.tsx:166-200 | two clock readings that straddle a start do reach 'Available after' |
| ResourcesPage.AvailableAfterWithUnreadableStart | app/dashboard/resources/page.tsx:222-267 | an unreadable start reaches 'Available after' with one clock reading |
| ResourcesPage.IgnoredBookingsIrrelevant | app/dashboard/resources/page.tsx:156-268 | a cancelled, unknown-status or other-resource booking never changes the message |
| ResourcesPage.LaterBookingShown | app/dashboard/resources/page.tsx:220-250 | with one kept booking over and one starting later, the card reads 'Available until' the later start |
| ResourcesPage.Examples | app/dashboard/resources/page.tsx:198-268 | worked cases: booked, past booking, later booking, no bookings, cancelled booking |
| ResourcesPage.FilteredResources | app/dashboard/resources/page.tsx:270-275 | a resource is listed iff its name or description contains the search (ignoring case) and its type matches the filter or the filter is 'all' |
| ResourcesPage.EmptySearchKeepsType | app/dashboard/resources/page.tsx:270-275 | an empty search keeps exactly the chosen type; 'all' with no search keeps everything |
| ResourcesPage.SearchIgnoresCase | app/dashboard/resources/page.tsx:271-272 | lower-casing the search text changes nothing |
| Api.Caught | app/api/bookings/route.ts:72-77 | a catch block answers 500 with the thrown Error's message, or the handler's fallback text |
| Api.StrictGate | app/api/resources/route.ts:54-94 | the caller is admitted iff signed in with an organizer or admin profile. Otherwise: 401 for a session error or no user, 500 for a failed lookup, 404 for no profile, 403 with `currentRole` for any other role |
| Api.LooseGate | app/api/bookings/route.ts:40-55 | the caller is admitted iff there is a user and a manager profile. Otherwise 401 without a user, else 403 |
| Api.GatesAdmitTheSame | app/api/bookings/route.ts:40-55 | the two chains admit the same callers once lookups are reduced to present or absent |
| Api.InsertReply | app/api/resources/route.ts:131-152 | 201 with the stored row iff the insert stored one, else 500. No row gives '<What> was not created'. A failure gives exactly `error`, `details` (its message), `code` and `hint`: a truthy hint is passed on, a falsy one becomes the default hint, and without a default the hint is sent as it came, `null` included |
| ResourcesApi.ViewerRole | app/api/resources/route.ts:12-20 | the role is `user` iff there is no user, no profile, or a missing, empty or `user` role; any other role is the profile's, unchanged |
| ResourcesApi.ResourcesGet | app/api/resources/route.ts:4-43 | a failed query gives the catch reply. Otherwise the rows are newest first, and a row is listed iff it is in the table and, for the role `user`, approved |
| ResourcesApi.AnonymousSeesApprovedOnly | app/api/resources/route.ts:12-30 | a signed-out visitor gets exactly what a plain user gets |
| ResourcesApi.ManagersSeeEverything | app/api/resources/route.ts:28-30 | for organizers and admins the listing is a permutation of the table |
| ResourcesApi.UnknownRoleSeesPending | app/api/resources/route.ts:28-30 | the filter tests for exactly `user`: a role naming no role sees pending resources |
| ResourcesApi.NewResource | app/api/resources/route.ts:107-123 | the row holds the allowed body fields unchanged, plus status, creator and (for admins only) the approval stamp; nothing else |
| ResourcesApi.ResourcesPlan | app/api/resources/route.ts:45-123 | an insert is planned iff the body parses to an object, the strict gate admits and the required fields are present. A malformed body gives the catch reply. A gate refusal is the gate's reply. A `null` body that passes the gate gives the catch reply with the TypeError of reading `name`. 400 iff only validation fails |
| ResourcesApi.ResourcesPost | app/api/resources/route.ts:126-152 | a refusal is the plan's reply; a planned insert is answered by its outcome, with the default hint 'Check RLS policies for resources table'; 201 iff a row was stored, with that row |
| ResourcesApi.AuthorizationBeforeValidation | app/api/resources/route.ts:59-102 | a signed-out caller with an empty body is told 401, not 400 |
| ResourcesApi.NullBodyThrowsAfterGate | app/api/resources/route.ts:47-102 | a `null` body is refused by the gate as an empty object is; past the gate it gets 500 where an empty object gets 400 |
| ResourcesApi.RoleCheckBeforeValidation | app/api/resources/route.ts:89-102 | a plain user with an empty body is told 403, not 400 |
| ResourcesApi.ClientCannotChooseStatus | app/api/resources/route.ts:107-123 | body fields outside the allowed list do not change the plan |
| ResourcesApi.ApprovalFollowsRole | app/api/resources/route.ts:107-123 | an admin's resource is approved and stamped; an organizer's is pending and unstamped |
| EventsApi.EventsGet | app/api/events/route.ts:4-21 | a failed query gives the catch reply; otherwise every row, as a permutation of the table, newest first |
| EventsApi.EventsGetKeepsOrderedTable | app/api/events/route.ts:4-21 | a table already newest-first is returned unchanged |
| EventsApi.NewEvent | app/api/events/route.ts:86-97 | the row holds the allowed fields unchanged, status 'active', the organizer and zero attendees; nothing else |
| EventsApi.EventsPlan | app/api/events/route.ts:23-97 | an insert is planned iff the body parses to an object, the caller is a signed-in manager and the required fields are non-empty. The refusals are the gate's, the catch reply, and 400. A `null` body that passes the gate gives the catch reply with the TypeError of reading `title` |
| EventsApi.EventsPost | app/api/events/route.ts:102-123 | a refusal is the plan's reply; a planned insert is answered by its outcome, with the default hint 'Check RLS policies for events table'; 201 iff a row was stored, with that row |
| EventsApi.NewEventsAreActive | app/api/events/route.ts:94 | a new event is 'active' with zero attendees whatever the body says |
| EventsApi.NullBodyThrowsAfterGate | app/api/events/route.ts:25-80 | a `null` body is refused by the gate as an empty object is; past the gate it gets 500 where an empty object gets 400 |
| EventsApi.RoleCheckBeforeValidation | app/api/events/route.ts:67-80 | a plain user with an empty body is told 403, not 400 |
| EventsApi.NoDateOrderCheck | app/api/events/route.ts:75-80 | an event that ends before it starts is still inserted |
| CommunitiesApi.WithCount | app/api/communities/route.ts:19-22 | the row keeps its fields, and its member count is the join's count, or 0 without one |
| CommunitiesApi.CommunitiesGet | app/api/communities/route.ts:4-31 | a failed query gives the catch reply. Otherwise one entry per row, newest first, and each entry is a row with its count and each row appears |
| CommunitiesApi.NewCommunity | app/api/communities/route.ts:96-103 | the row holds exactly name, description, creator and member count 0 |
| CommunitiesApi.CommunitiesPlan | app/api/communities/route.ts:33-103 | an insert is planned iff the body parses to an object, the strict gate admits and name and description are present; the refusals as for the other creators, a `null` body past the gate included |
| CommunitiesApi.NullBodyThrowsAfterGate | app/api/communities/route.ts:35-90 | a `null` body is refused by the gate as an empty object is; past the gate it gets 500 where an empty object gets 400 |
| CommunitiesApi.CreatorMembership | app/api/communities/route.ts:130-140 | the membership row names the creator, the role 'organizer' and the new community's id |
| CommunitiesApi.CommunitiesPost | app/api/communities/route.ts:105-142 | a refusal is the plan's reply; a planned insert is answered by its outcome without a default hint; 201 with the stored row iff one was stored, and a membership insert follows exactly then |
| CommunitiesApi.NoDefaultHint | app/api/communities/route.ts:107-118 | an insert error without a hint sends `hint: null`; an empty hint is sent as the empty string |
| CommunitiesApi.CreatedMeans201 | app/api/communities/route.ts:128-142 | a stored community is answered 201 with its row whatever the membership insert does |
| CommunityInit.Generals | app/api/communities/init/route.ts:17-21 | the rows named exactly 'General' |
| CommunityInit.Existing | app/api/communities/init/route.ts:17-23 | `.single()` finds a community iff exactly one row is named 'General' |
| CommunityInit.GeneralRow | app/api/communities/init/route.ts:48-57 | the inserted row is named 'General', created by the caller, with member count 0 |
| CommunityInit.InitPlan | app/api/communities/init/route.ts:12-59 | 401 without a user. 200 when General exists, before any role check. 403 unless the caller manages. Otherwise insert a new General row |
| CommunityInit.InitPost | app/api/communities/init/route.ts:61-80 | a refusal is the plan's reply. An insert error is thrown and caught: its message when it is an Error, else the fallback. With no row, reading its id throws. A stored row gives 201 with it iff the builder has a catch method |
| CommunityInit.StoredButRefusedWithoutCatch | app/api/communities/init/route.ts:63-74 | a General community that was stored is still answered 500 when the membership insert cannot be given a catch handler |
| CommunityInit.InitIdempotent | app/api/communities/init/route.ts:17-28 | once a manager has created General, the next call by anyone finds it and inserts nothing |
| CommunityInit.PlainUserNeverInserts | app/api/communities/init/route.ts:37-42 | a plain user never causes an insert |
| CommunityInit.DuplicatesGrow | app/api/communities/init/route.ts:17-28 | with two General rows the lookup fails, so a manager's call inserts a third |
| BookingsApi.BookingsGet | app/api/bookings/route.ts:4-30 | 401 without a user; the catch reply for a failed query. Otherwise exactly the caller's bookings, latest start first |
| BookingsApi.OnlyOwnBookings | app/api/bookings/route.ts:15-19 | nobody sees another user's booking |
| BookingsApi.NewBooking | app/api/bookings/route.ts:60-64 | the row is the body with `user_id` and `status: 'pending'` set by the server |
| BookingsApi.BookingsPlan | app/api/bookings/route.ts:32-67 | the body is read first, then 401 without a user, then 403 unless the profile manages; an insert of the spread body is planned exactly otherwise, a `null` body included |
| BookingsApi.NullBodyBooksNothingButBookerAndStatus | app/api/bookings/route.ts:34-64 | a `null` body is planned as an empty object, so a manager's row holds only the booker and the status |
| BookingsApi.BookingsPost | app/api/bookings/route.ts:57-77 | a refusal is the plan's reply. An insert error is thrown and caught: its message when it is an Error, else 'Failed to create booking'. Otherwise 201 with the stored row |
| BookingsApi.ServerChoosesBookerAndStatus | app/api/bookings/route.ts:60-64 | a body naming another booker or status is overruled |
| BookingsApi.PlainUserCannotBook | app/api/bookings/route.ts:50-55 | a plain user is told 403 whatever the body says |
| ProfileApi.Changes | app/api/users/profile/route.ts:26-32 | the update holds each truthy field of the two, unchanged, plus the time stamp, and nothing else |
| ProfileApi.ProfilePlan | app/api/users/profile/route.ts:11-32 | 401 without a user, then the body is read; a `null` body gives the catch reply with the TypeError of destructuring it; then 400 iff neither field is given; otherwise the caller's own row is updated |
| ProfileApi.NullBodyThrows | app/api/users/profile/route.ts:15-24 | a signed-in caller's `null` body is answered 500, an empty object 400 |
| ProfileApi.ProfilePut | app/api/users/profile/route.ts:34-50 | a refusal is the plan's reply. An update error is thrown and caught: its message when it is an Error, else 'Failed to update profile'. Otherwise 200 with the updated row |
| ProfileApi.RoleNeverChanges | app/api/users/profile/route.ts:26-37 | no body can change the role or the id, and only the caller's row is written |
| ProfileApi.EmptyStringIsMissing | app/api/users/profile/route.ts:19-24 | an empty email alone is rejected with 400 |
| AuthMetadata.Metadata | app/api/users/sync-role/route.ts:17 | missing metadata reads as the empty object |
| AuthMetadata.EmailText | app/api/users/sync-role/route.ts:32 | a missing email reads as '' |
| AuthMetadata.MetadataRole | app/api/users/sync-role/route.ts:18 | the metadata role when truthy, else 'user'; always truthy |
| AuthMetadata.FullName | app/api/users/sync-role/route.ts:19 | the metadata name when truthy, else the email's text before the first '@', else '' |
| AuthMetadata.NameOnly | hooks/use-auth.ts:77 | the metadata name when truthy, else '' |
| AuthMetadata.FullNameFromEmail | app/api/users/sync-role/route.ts:19 | without a metadata name, `jo@x` gives the name `jo` |
| AuthMetadata.FallbacksDiffer | hooks/use-auth.ts:36-77 | the two name fallbacks differ exactly when there is no metadata name but the email gives a non-empty local part |
| SyncRole.SyncRow | app/api/users/sync-role/route.ts:28-38 | the upserted row holds exactly the id, email, full name, metadata role and time stamp |
| SyncRole.SyncPlan | app/api/users/sync-role/route.ts:9-40 | an upsert happens iff the session has a user |
| SyncRole.SyncRolePost | app/api/users/sync-role/route.ts:9-58 | 401 without a session user; 500 with details for an upsert error; 500 without a row; otherwise 200 with `success` and 'Role synced to: ' and the stored role |
| SyncRole.DefaultsToUser | app/api/users/sync-role/route.ts:17-18 | no metadata, or an empty role, stores 'user' |
| SyncRole.MetadataRoleUnchecked | app/api/users/sync-role/route.ts:18 | any non-empty metadata role is stored as it is, even one naming no role |
| SyncRole.MessageNamesStoredRole | app/api/users/sync-role/route.ts:54-58 | a stored 'admin' reads 'Role synced to: admin' |
| MembershipsApi.Selected | app/api/communities/memberships/route.ts:34-38 | a community id is selected iff the caller has a membership row for it and it is listed |
| MembershipsApi.Memberships | app/api/communities/memberships/route.ts:4-60 | 401 without a user; 500 with details for either query error; [] without communities. Otherwise the caller's memberships among listed communities, each once |
| MembershipsApi.DuplicatesCollapse | app/api/communities/memberships/route.ts:48-51 | two rows for one community are reported once |
| MembershipsApi.OthersExcluded | app/api/communities/memberships/route.ts:37 | another user's membership never appears |
| UseAuth.Classify | hooks/use-auth.ts:128-149 | a failed insert is a duplicate iff code 23505 or the message mentions duplicate or unique; otherwise a permission error iff code 42501 or a permission message |
| UseAuth.Minimal | hooks/use-auth.ts:55-60 | the fallback profile holds the user's id and email, the metadata role (always truthy) and the name, with or without the email fallback |
| UseAuth.NotFoundByCode | hooks/use-auth.ts:30 | code PGRST116 alone means 'no row'; without that code, an error with no message or a message shorter than 'No rows' is a real failure |
| UseAuth.NewProfileRow | hooks/use-auth.ts:38-47 | the inserted row has the user's id, the email text, the metadata name with the email fallback, and the metadata role, which is always truthy |
| UseAuth.FailedInsertKeepsAttemptedRow | hooks/use-auth.ts:35-60 | when the insert of a missing profile fails, first load shows the row it tried to insert; an auth change does too, unless the failure is a duplicate that is re-read |
| UseAuth.InitialLoad | hooks/use-auth.ts:16-90 | first load: nothing without a session; a found row is used; a missing row is created; a failed create gives the minimal profile; other lookup errors give the minimal profile without the email fallback; a thrown insert changes nothing |
| UseAuth.AuthChange | hooks/use-auth.ts:94-215 | auth change: the profile is cleared without a session. Found, created or re-read rows are used. A thrown insert gives the minimal profile without the email fallback, and every other failure a minimal profile. Only an insert that returns no row changes nothing |
| UseAuth.FailurePathsKeepIdentity | hooks/use-auth.ts:126-207 | every failure path of an auth change sets a profile whose id is the signed-in user's |
| UseAuth.LoadPathsAgree | hooks/use-auth.ts:16-215 | first load and auth change agree except on a thrown insert, an insert with no row, and a successful re-read |
| UseAuth.DuplicateTakesPrecedence | hooks/use-auth.ts:128-149 | the duplicate test comes before the permission test |
| UseAuth.ProfileRole | hooks/use-auth.ts:10 | a role is read iff the profile's `role` field is a string, and it is that string |
| UseAuth.Logout | hooks/use-auth.ts:224-229 | after logout there is neither a user nor a profile |
| UseAuth.LogoutRevokesEverything | hooks/use-auth.ts:224-229 | after logout the role view grants nothing |
| UseAuth.FallbackWithoutMetadataIsUser | hooks/use-auth.ts:35-60 | a fallback profile without metadata reads as a plain user |
| Signup.RoleLabels | app/auth/signup/page.tsx:231-235 | one label per selectable role, each capitalised |
| Signup.LabelsAreCapitalised | app/auth/signup/page.tsx:13-235 | the labels read User, Organizer, Admin |
| Signup.SelectableRolesAreRoles | app/auth/signup/page.tsx:13 | the form offers exactly the three role names |
| Signup.SignupMetadata | app/auth/signup/page.tsx:37-42 | the metadata holds exactly the full name and the chosen role |
| Signup.ChosenRoleRoundTrips | app/auth/signup/page.tsx:37-42 | a chosen role is read back unchanged by the profile fallback and the role sync |
| Signup.ErrorText | app/auth/signup/page.tsx:110-121 | an Error's message, else the object's non-empty message, else its inner error's non-empty message, else 'Signup failed', for a plain object without either message as for anything else thrown |
| Signup.Words | app/auth/signup/page.tsx:124-136 | a raw text is shown after 'Signup failed: ' |
| Signup.WordsInjective | app/auth/signup/page.tsx:124-136 | the four fixed texts differ, and different raw texts read differently |
| Signup.Shown | app/auth/signup/page.tsx:124-137 | the message is chosen by the first matching word test; the raw text is shown iff none matches |
| Signup.RegisteredAndDuplicateAgree | app/auth/signup/page.tsx:126-133 | 'already registered' and 'duplicate key' give the same message |
| Signup.RateLimitFirst | app/auth/signup/page.tsx:124-127 | a rate-limit mention wins over every other word |
| Signup.HandleSignup | app/auth/signup/page.tsx:34-137 | an error is shown by the word tests; no user shows 'Signup failed'; no session waits for confirmation; a session goes to /dashboard |
| CommunitiesPage.FilteredCommunities | app/dashboard/communities/page.tsx:184-186 | a community is listed iff its name contains the search, ignoring case |
| CommunitiesPage.EmptySearchKeepsAll | app/dashboard/communities/page.tsx:184-186 | an empty search keeps every community |
| CommunitiesPage.DescriptionIgnored | app/dashboard/communities/page.tsx:184-186 | the description plays no part in the search |
| CommunitiesPage.GeneralCard | app/dashboard/communities/page.tsx:256 | the card shows the first filtered community named 'General', if any |
| CommunitiesPage.Grid | app/dashboard/communities/page.tsx:354-355 | the grid holds every filtered community not named 'General' |
| CommunitiesPage.NothingShownTwice | app/dashboard/communities/page.tsx:256-355 | the card's community is not in the grid, and every other filtered community is |
| CommunitiesPage.SecondGeneralHidden | app/dashboard/communities/page.tsx:256-355 | a second 'General' community is shown nowhere |
| CommunitiesPage.HandleJoin | app/dashboard/communities/page.tsx:108-148 | signed out goes to login with no request. A join adds the id and opens the community. A failure removes the id and alerts. Other ids are untouched |
| CommunitiesPage.FailedJoinForgetsMembership | app/dashboard/communities/page.tsx:128-146 | a failed request for a community already joined drops it from the set |
| CommunitiesPage.EnsureGeneral | app/dashboard/communities/page.tsx:48-63 | the init endpoint is called iff the caller manages and the listing came back without a 'General' |
| CommunitiesPage.EnsureGeneralNeverDuplicates | app/dashboard/communities/page.tsx:57-61 | a listing that has 'General' never triggers the call |
| CommunitiesPage.HandleCreate | app/dashboard/communities/page.tsx:150-182 | a non-manager is alerted with no request. Success resets the form and opens the community. Failure keeps the form and alerts. `creating` ends false |
| EventsPage.FilteredEvents | app/dashboard/events/page.tsx:136-141 | an event is listed iff its title or description contains the search (ignoring case) and its status matches the filter or the filter is 'all' |
| EventsPage.EmptySearchKeepsFiltered | app/dashboard/events/page.tsx:136-141 | an empty search keeps exactly the status-filtered events; 'all' keeps everything |
| EventsPage.Section | app/dashboard/events/page.tsx:99-107 | a field's section is empty iff the field is falsy |
| EventsPage.ErrorMessage | app/dashboard/events/page.tsx:98-107 | the alert starts with 'Failed to create event: ' and adds details, hint and code only when given |
| EventsPage.HandleCreate | app/dashboard/events/page.tsx:62-117 | a non-manager is alerted with no request. Success clears every field and opens the event. Failure keeps the form and alerts. `creating` ends false |
| EventsPage.FormClearedOnlyOnSuccess | app/dashboard/events/page.tsx:81-113 | a filled form is cleared iff the caller manages and the create succeeded |
| Header.PageTitle | components/header.tsx:14-37 | the title is the exact path's entry, else 'Dashboard' |
| Header.DetailPagesTitledDashboard | components/header.tsx:37 | a page below a section is titled 'Dashboard' |
| Header.FormatTime | components/header.tsx:79-92 | the largest unit under its bound, with n such that n units <= elapsed < n+1 units; 'Just now' under a minute; a date from seven days on or for an unreadable time |
| Header.FutureIsJustNow | components/header.tsx:82-87 | a future time reads 'Just now' |
| Header.Counted | components/header.tsx:88-90 | a count followed by its unit: the count's digits read back as the count |
| Header.AgoText | components/header.tsx:86-91 | 'Just now', a count with 'm ago', 'h ago' or 'd ago', or the date |
| Header.AgoTextOfFormatTime | components/header.tsx:79-91 | within a week the text names the unit and its floored count; from seven days on it is the date |
| Header.MarkRead | components/header.tsx:142-146 | only entries with the clicked id become read; the rest are unchanged |
| Header.Click | components/header.tsx:141-147 | the entry is marked read and the counter drops by one, never below zero: a counter of 1 or less becomes 0 |
| Header.RereadLowersCounter | components/header.tsx:142-147 | clicking an already-read entry leaves the list but still lowers the counter |
| Header.Fetched | components/header.tsx:49-56 | an answered feed replaces the list and the counter; a refused request leaves the menu as it was |
| Chatroom.FormatTime | components/chatroom.tsx:90-100 | minutes, then whole hours, then a date from one day on, each count bracketing the elapsed time |
| Chatroom.AgreesWithHeaderUnderADay | components/chatroom.tsx:90-100 | under a day the panel and the menu give the same unit and count |
| Chatroom.AvatarInitial | components/chatroom.tsx:135 | one upper-cased letter, or nothing for an empty name, the first letter of the capitalised name |
| Chatroom.IsOwn | components/chatroom.tsx:124 | a message is the caller's iff someone is signed in and is its sender |
| Chatroom.SendMessage | components/chatroom.tsx:61-87 | nothing for blank input or during a send; otherwise the untrimmed text is sent, and the box is cleared and no alert shown iff the send succeeded |
| Chatroom.BodyIsUntrimmed | components/chatroom.tsx:62-71 | surrounding spaces are sent as typed |
| Chatbot.AppendChunk | components/Chatbot.tsx:74-83 | a chunk is appended to the last message when it is the assistant's; nothing else changes |
| Chatbot.StreamAppendsAll | components/Chatbot.tsx:66-84 | streaming into an assistant message leaves its old content followed by every chunk in order |
| Chatbot.Finished | components/Chatbot.tsx:58-91 | a failed request appends one apology; a stream appends one assistant message holding all chunks, and an apology after it when the stream broke |
| Chatbot.HandleSubmit | components/Chatbot.tsx:40-92 | nothing for blank input or while loading. Otherwise the trimmed text is sent after the earlier messages, the reply is streamed, the input is emptied and loading ends |
| Chatbot.OneApologyPerFailure | components/Chatbot.tsx:86-88 | a failed request adds exactly the user's message and one apology |
| Chatbot.StreamedReplyIsWholeText | components/Chatbot.tsx:66-84 | a complete stream leaves the user's message and one assistant message with the whole text |
| ChatApi.CommunityLine | app/api/chat/route.ts:27 | `- name: description`, with 'No description' for a missing or empty one |
| ChatApi.DataContext | app/api/chat/route.ts:24-34 | the heading, then the communities or the sentence saying there are none, then the events only when there is one |
| ChatApi.OneCommunityLine | app/api/chat/route.ts:26-27 | one described community renders as one line |
| ChatApi.UpstreamMessages | app/api/chat/route.ts:53-68 | first a message without a role holding the instructions around the site data, then the client's messages unchanged |
| ChatApi.UpstreamRequest | app/api/chat/route.ts:14-68 | the instructions hold the heading, the communities section and the events section; a failed query counts as no rows |
| ChatApi.FailedEventsQueryDescribesCommunitiesOnly | app/api/chat/route.ts:14-34 | when the events query fails the request describes the communities only, and differs from the one with events |
| ChatApi.EmitLines | app/api/chat/route.ts:97-109 | exactly the parsed contents of the data lines other than `[DONE]` that parse to a non-empty text, in line order |
| ChatApi.DataLineReStreamed | app/api/chat/route.ts:97-109 | a data line whose content parses to a non-empty text is re-emitted |
| ChatApi.EmitLinesConcat | app/api/chat/route.ts:97-109 | the lines of two batches emit what each batch emits, in order |
| ChatApi.StreamOutput | app/api/chat/route.ts:91-111 | a text is emitted iff some chunk's lines emit it; nothing empty is emitted |
| ChatApi.StreamOutputConcat | app/api/chat/route.ts:91-111 | two runs of chunks emit what each run emits, in order |
| ChatApi.OneChunk | app/api/chat/route.ts:91-111 | one chunk emits what its lines emit |
| ChatApi.CutLineIsLost | app/api/chat/route.ts:95-100 | a data line arriving whole is read; the same line cut across two chunks is lost |
| ChatApi.WholeLineRead | app/api/chat/route.ts:95-109 | a data line arriving whole is re-emitted |
| ChatApi.HalvesIgnored | app/api/chat/route.ts:95-100 | the two halves of a cut line emit nothing |
| ChatApi.ChatPost | app/api/chat/route.ts:36-121 | without a key, 500 before any upstream call. An upstream error passes its status through with the error text. Otherwise the stream is re-emitted |
| Notifications.Plural | app/api/notifications/route.ts:60 | the number, then the word, and the bare singular exactly for 1 |
| Notifications.HoursUntil | app/api/notifications/route.ts:55 | the hours until the start, rounded half up |
| Notifications.EventNote | app/api/notifications/route.ts:56-64 | an unread event entry at the start time, linking to the event, saying it starts in the rounded hours |
| Notifications.EventNotes | app/api/notifications/route.ts:35-66 | nothing without an attended event; otherwise one entry per returned event, in order |
| Notifications.FindById | app/api/notifications/route.ts:88-92 | the last row with the id, as a `Map` built from the rows keeps it; none iff no row has it |
| Notifications.BookingNote | app/api/notifications/route.ts:96-104 | an unread booking entry at the start time, naming the resource ('null' for a null name) and linking to it |
| Notifications.BookingNotes | app/api/notifications/route.ts:69-108 | one entry per booking whose resource was found, in order; none when no resource is found |
| Notifications.BookingNotesInOrder | app/api/notifications/route.ts:69-108 | the section is the bookings whose resource was found, each as its entry, in order |
| Notifications.ApprovalNotes | app/api/notifications/route.ts:111-131 | one entry iff the role is admin and the pending count is positive, with the pluralised count |
| Notifications.Preview | app/api/notifications/route.ts:180 | the text when at most 50 characters, else its first 50 and '...' |
| Notifications.MessageNote | app/api/notifications/route.ts:176-184 | an unread message entry at its time, titled with the community, the sender's name before the preview; a null name reads 'null' |
| Notifications.MessageNotesOf | app/api/notifications/route.ts:167-187 | one entry per message whose community and sender were both found |
| Notifications.MessageNotesInOrder | app/api/notifications/route.ts:167-187 | the section is the messages whose community and sender were found, each as its entry, in order |
| Notifications.MessageNotes | app/api/notifications/route.ts:134-140 | nothing unless the caller belongs to some community |
| Notifications.Merged | app/api/notifications/route.ts:191-196 | the events, bookings, approvals and messages sections one after the other, each whole; every entry is unread |
| Notifications.NotificationsGet | app/api/notifications/route.ts:4-204 | 401 without a user. Otherwise at most ten merged entries, newest first, and the unread count of the whole merged list |
| Sorting.SortDescStable | app/api/notifications/route.ts:199 | the sort is stable: for every key, the entries with that key keep their input order |
| Notifications.NewestTenShown | app/api/notifications/route.ts:199-202 | the shown entries are the first ten of the sorted list: none left out is newer |
| Notifications.UnreadCountExceedsShown | app/api/notifications/route.ts:202-203 | with more than ten entries the count exceeds what is shown |
| Notifications.OrphanBookingSkipped | app/api/notifications/route.ts:92-93 | a booking without its resource gives no entry |
| Notifications.ApprovalsOnlyForAdmin | app/api/notifications/route.ts:112-119 | an organizer never sees the approvals entry; an admin sees it iff pending > 0 |
| Notifications.HourWording | app/api/notifications/route.ts:55-60 | two hours reads 'starts in 2 hours', one hour 'starts in 1 hour' |
| Numbers.Round | app/api/analytics/route.ts:129 | `Math.round(p/q)`: the integer r with r - 1/2 <= p/q < r + 1/2 |
| Numbers.Percent | app/api/analytics/route.ts:105 | the rounded percentage, bracketed like Round |
| Numbers.PercentBounds | app/api/analytics/route.ts:105 | a part of a whole is between 0 and 100 percent |
| Analytics.Gate | app/api/analytics/route.ts:11-27 | passes iff there is a user with an organizer or admin profile; 401 without a user, else 403 |
| Analytics.Change | app/api/analytics/route.ts:128-130 | 0 when the previous count is null or 0; otherwise the rounded percentage change |
| Analytics.ChangeProperties | app/api/analytics/route.ts:128-164 | equal counts give 0, doubling gives 100, the sign follows the difference, never below -100, and a null current count gives -100 |
| Analytics.Occurrences | app/api/analytics/route.ts:93-99 | a type occurs iff it is among the types, at most as often as there are resources |
| Analytics.Bump | app/api/analytics/route.ts:97 | the type's count goes up by one, other entries are unchanged, and a new type is appended with count 1 |
| Analytics.BumpKeepsOrder | app/api/analytics/route.ts:97 | counting keeps the order of the names and appends a new one last |
| Analytics.TotalBump | app/api/analytics/route.ts:97-102 | each step adds exactly one to the total |
| Analytics.Tally | app/api/analytics/route.ts:93-102 | one entry per distinct type, their names the distinct types in order of first appearance, each with its number of occurrences, and a total equal to the number of resources |
| Analytics.TallyNewType | app/api/analytics/route.ts:93-99 | an unseen type is added last with count 1 |
| Analytics.TallyOfDistinct | app/api/analytics/route.ts:93-99 | pairwise distinct types are each tallied once, in their order |
| Analytics.DisplayName | app/api/analytics/route.ts:104 | the label has the name's length and an upper-cased first letter; with no '_' in the rest it is the capitalised name |
| Analytics.DisplayNameReplacesFirstUnderscore | app/api/analytics/route.ts:104 | past the first character exactly the first '_' becomes a space |
| Analytics.DisplayNameExample | app/api/analytics/route.ts:104 | 'a_b_c' is labelled 'A b_c' |
| Analytics.ResourceData | app/api/analytics/route.ts:102-106 | one slice per tallied type with its label and rounded share, each between 0 and 100 |
| Analytics.SharesNeedNotSumTo100 | app/api/analytics/route.ts:102-106 | three distinct types once each get a share of 33 each, 99 in all |
| Analytics.NoEventsNoAttendees | app/api/analytics/route.ts:65-69 | a key without events has no attendees |
| Analytics.MonthlyData | app/api/analytics/route.ts:58-71 | a key is present iff some event has it, holding their count and attendee total |
| Analytics.Series | app/api/analytics/route.ts:73-85 | six bars from five months ago to now, each with the count and attendees of its key, 0 when absent |
| Analytics.SeriesAt | app/api/analytics/route.ts:73-85 | one bar per listed month, with the count and attendees of its key, 0 when absent |
| Analytics.SetMonthBack | app/api/analytics/route.ts:76-79 | going back keeps the day of the month, so a day past the target month's end rolls into the next month; up to the 28th it is exact |
| Analytics.BarMonths | app/api/analytics/route.ts:76-79 | the six bar months are where going back 5, 4, ... 0 months lands |
| Analytics.BarMonthsEarlyInMonth | app/api/analytics/route.ts:76-79 | up to the 28th the bars are the last six months |
| Analytics.BarsOnLastDayOfMarch | app/api/analytics/route.ts:76-79 | on 31 March 2025 the bars read Oct, Dec, Dec, Jan, Mar, Mar |
| Analytics.RepeatedBarOnLastDayOfMarch | app/api/analytics/route.ts:76-84 | on that day two bars show the same data and November has none |
| Analytics.SeriesAsWritten | app/api/analytics/route.ts:61-84 | six bars at the months going back reaches from the day of the month, each with the count and attendees of the events with the same month name |
| Analytics.FutureEventInPastBar | app/api/analytics/route.ts:50-84 | an event seven months ahead lands in the bar of five months ago as written, and nowhere when keyed by month |
| Analytics.SeriesCorrected | app/api/analytics/route.ts:73-85 | six consecutive months, each with the count and attendees of only its own month's events |
| Analytics.NameCountsMonth | app/api/analytics/route.ts:63-79 | when every event is less than a year from a month, keying by name counts the same as keying by month |
| Analytics.AsWrittenAgreesInWindow | app/api/analytics/route.ts:50-85 | up to the 28th and for events between six months ago and now, the as-written and corrected series are equal |
| Analytics.AnalyticsGet | app/api/analytics/route.ts:4-181 | the gate first. Then the null totals read as 0, the three changes, the series as the handler computes it, and the type shares (none for a null result) |
| Analytics.AnalyticsGetAgreesWhenInWindow | app/api/analytics/route.ts:50-85 | up to the 28th and with no event after the current month, the handler's chart is the intended one |
| DashboardStats.Usage | app/api/dashboard/stats/route.ts:50-52 | 0 without resources; otherwise the rounded percentage of active bookings over resources |
| DashboardStats.UsageBounds | app/api/dashboard/stats/route.ts:44-52 | at most 100 while bookings do not outnumber resources; two bookings of one resource read 200 |
| DashboardStats.UsageText | app/api/dashboard/stats/route.ts:95 | decimal digits then '%', and the digits read back as the usage |
| DashboardStats.Annotate | app/api/dashboard/stats/route.ts:97-100 | each event in order, unchanged, marked attended iff its id is among the attended ones |
| DashboardStats.AttendingIds | app/api/dashboard/stats/route.ts:77-88 | no attendance query when no event is shown |
| DashboardStats.RecentEvents | app/api/dashboard/stats/route.ts:55-100 | at most the first three events, in order, each attended iff the user's attendance rows name it |
| DashboardStats.DashboardGet | app/api/dashboard/stats/route.ts:4-102 | 401 without a user. Otherwise null counts read as 0, the usage is rendered with '%', and at most three events and three bookings are returned |
| DashboardStats.UnattendedEventUnmarked | app/api/dashboard/stats/route.ts:97-100 | an event without an attendance row is never marked attended |
| Consistency.AnalyticsOfferedButRefused | app/api/analytics/route.ts:22-27 | every role sees the Analytics link and flag, yet the endpoint refuses a plain user with 403 |
| Consistency.NewEventsMatchNoStatusFilter | app/dashboard/events/page.tsx:139-255 | a new event is 'active', so the 'published' and 'draft' filters never list it |
| Consistency.InitAnswersBeforeRoleCheck | app/api/communities/init/route.ts:23-37 | when General exists, any caller gets the same 200 as an admin |

## Left out

- Storage, network and the browser are left out: every query result, session, insert outcome and fetch response is a parameter. Row-level security policies and the queries' own filters and ordering happen in the database, except where a handler's answer depends on them.
- React rendering, loading spinners, intervals and effects are left out, as is the routing itself (only the target path is modelled).
- Dates are not formatted: `toLocaleDateString` / `toLocaleTimeString` text is not produced. Times are integers, and analytics months are absolute month numbers.
- Case mapping is ASCII only.
- Notifications.Preview, Chatroom.AvatarInitial: lengths and positions are counted in Unicode characters, while `substring`, `length` and `charAt` count UTF-16 code units. For text outside the Basic Multilingual Plane the handler cuts after 50 code units and may split a surrogate pair, and the avatar may show a lone surrogate; the model keeps whole characters.
- Api.NullRead, Api.NullDestructure: the TypeError text that a `null` request body causes is Node.js's wording; another engine would put other words in the 500 reply.
- Object-valued fields of a reply are collapsed into one compound JSON value, so the `community` that CommunityInit.InitPlan sends with its 200 reply and the `user` that SyncRole.SyncRolePost sends with its 200 reply are not modelled field by field.
- Floating point is left out: `Math.round` of a floating quotient is modelled on exact rationals, so ties that floating point would misround are not modelled.
- The analytics response's `satisfaction: 0.2` placeholder is not modelled; the `avgSatisfaction` placeholder is.
- The order of `Object.entries` is taken as insertion order. JavaScript puts integer-like keys first, so a resource type named like a number would be listed earlier.
- ChatApi.ChatPost: the JSON parsing of each data line is a parameter. A malformed request body, a thrown fetch and the outer catch's 500 'Internal Server Error' are not modelled. The provider's model name and request headers are left out. The events query names a `date` column the events table does not have, so the database refuses it: its data is null and the events section is left out, which is ChatApi.FailedEventsQueryDescribesCommunitiesOnly. ChatApi.UpstreamRequest still takes the events as a parameter, for a schema that has the column; a missing value then reads 'null'.
- Api.Caught: the resource, event and community creation handlers also return the thrown error's stack trace under `details` in their catch blocks. The model's catch reply for them has only `error`, because a stack trace is engine text.
- ResourcesPage.FreeStatus: when a start time is unreadable, the JavaScript sort comparator returns NaN and the order is left to the engine. The model places such bookings after every readable start, so the 'Available after' time in that case is one of the engine's possible answers, not all of them.
- ResourcesPage.BookingStatus: as for FreeStatus when a start time is unreadable.
- UseAuth.InitialLoad: the hook's loading flag and console logging are not modelled, nor is the redirect after logout.
- Signup.HandleSignup: the profile upsert and the verification read that run when a session exists are not modelled, because their errors are only logged and never change the outcome.
- DashboardStats.DashboardGet, SyncRole.SyncRolePost: the outer `catch` (app/api/dashboard/stats/route.ts:104-110 and app/api/users/sync-role/route.ts:60-66) answers a thrown error with 500, which the model does not produce; only errors the client library returns as values are modelled.
- Notifications.NotificationsGet: a thrown error, which the handler answers with 500, is not modelled. The 24-hour windows and each query's `limit(5)` are the database's job, so the rows arrive already selected.
- CommunitiesPage.HandleJoin: the refetch of communities and memberships after a join is not modelled. The state is the one right after the handler's own update.
- ChatApi.UpstreamMessages: the instruction message is sent without a `role`; how the provider treats such a message is outside the model.
- BookingsApi.BookingsPost, ProfileApi.ProfilePut, CommunityInit.InitPost: a write that returns no row is answered with JSON `null`; the model writes that body as the empty object.
- Api.Caught: whether a thrown PostgREST error is an `Error` instance (`thrownIsError`) and whether the insert builder offers `.catch` (`catchMissing`) depend on the client library, so both are parameters.
- Analytics.AnalyticsGet: the query windows `sixMonthsAgo`, `oneMonthAgo` and `twoMonthsAgo` (app/api/analytics/route.ts:47-48 and 109-112) move back with `setMonth` too and overflow the same way, but the rows they select arrive as parameters; only the chart's months are modelled with the overflow.
- The `[id]` detail pages, the approvals page, settings, and the join and message endpoints under a community are left out.

## Findings

| source | as written | input that shows it | evidently intended | confidence | as-written member | corrected member |
|---|---|---|---|---|---|---|
| app/api/analytics/route.ts:50-84 | the monthly series groups events by the short month name, and the query keeps every event from six months ago on, future ones included | an active event seven months ahead has the name of the month five months ago, and is counted in that past month's bar | each bar counts only the events of its own calendar month | not executed | Analytics.SeriesAsWritten (counterexample: Analytics.FutureEventInPastBar) | Analytics.SeriesCorrected (agreement on past events: Analytics.AsWrittenAgreesInWindow) |
| app/api/analytics/route.ts:76-79 | each bar's month is found by `setMonth(getMonth() - i)` on today's date, which keeps the day of the month | on 31 March 2025 the bars read Oct, Dec, Dec, Jan, Mar, Mar: November and February roll over into the month after them | six consecutive months ending with the current one | not executed | Analytics.SeriesAsWritten (counterexample: Analytics.RepeatedBarOnLastDayOfMarch) | Analytics.SeriesCorrected (agreement up to the 28th: Analytics.BarMonthsEarlyInMonth) |
