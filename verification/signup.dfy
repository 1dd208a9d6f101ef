/**
 * app/auth/signup/page.tsx: the outcome of submitting the sign-up form. The
 * role chosen on the form travels in the sign-up metadata; a failure is shown
 * as one of four fixed messages, chosen by the words in the error text, or as
 * the raw text.
 */
module Signup {
  import opened Wrappers
  import opened Json
  import opened Text
  import opened Roles
  import opened AuthMetadata

  /** `USER_ROLES`, in the order the form lists them. */
  const UserRoles: seq<string> := ["user", "organizer", "admin"]

  /** The labels the role select shows. */
  function RoleLabels(): (r: seq<string>)
    ensures |r| == |UserRoles|
    ensures forall i :: 0 <= i < |r| ==> r[i] == Capitalize(UserRoles[i])
  {
    [Capitalize(UserRoles[0]), Capitalize(UserRoles[1]), Capitalize(UserRoles[2])]
  }

  /** The labels read 'User', 'Organizer', 'Admin'. */
  lemma LabelsAreCapitalised()
    ensures RoleLabels() == ["User", "Organizer", "Admin"]
  {
    assert UpperChar('u') == 'U' && UpperChar('o') == 'O' && UpperChar('a') == 'A';
    assert Capitalize("user") == ['U'] + "user"[1..] == "User";
    assert Capitalize("organizer") == ['O'] + "organizer"[1..] == "Organizer";
    assert Capitalize("admin") == ['A'] + "admin"[1..] == "Admin";
  }

  /** The selectable roles are exactly the names of the three roles. */
  lemma SelectableRolesAreRoles(s: string)
    ensures s in UserRoles <==> ParseRole(s).Some?
  {
  }

  /** `options.data`: the metadata the sign-up call stores. */
  function SignupMetadata(fullName: string, role: string): (m: Object)
    ensures m.Keys == {"full_name", "role"}
    ensures m["full_name"] == Str(fullName) && m["role"] == Str(role)
  {
    map["full_name" := Str(fullName), "role" := Str(role)]
  }

  /**
   * A role chosen on the form survives the metadata: the fallback profile and
   * the role sync read back exactly that role.
   */
  lemma ChosenRoleRoundTrips(fullName: string, role: string)
    requires role in UserRoles
    ensures MetadataRole(SignupMetadata(fullName, role)) == Str(role)
    ensures ParseRole(role).Some? && Name(ParseRole(role).value) == role
  {
  }

  /** What `catch (err)` receives. */
  datatype Thrown =
    | ErrorInstance(message: string)                                // `err instanceof Error`
    | PlainObject(own: Option<string>, inner: Option<string>)       // `err.message`, `err.error?.message`
    | OtherThrown                                                   // a string, number, null, ...

  /** `errorMessage`: the Error's message, else the object's message, else its inner error's, else 'Signup failed'. */
  function ErrorText(t: Thrown): (s: string)
    ensures t.ErrorInstance? ==> s == t.message
    ensures t.PlainObject? && t.own.Some? && t.own.value != "" ==> s == t.own.value
    ensures t.PlainObject? && !(t.own.Some? && t.own.value != "") && t.inner.Some? && t.inner.value != "" ==> s == t.inner.value
    ensures t.PlainObject? && !(t.own.Some? && t.own.value != "") && !(t.inner.Some? && t.inner.value != "") ==> s == "Signup failed"
    ensures t.OtherThrown? ==> s == "Signup failed"
  {
    match t
    case ErrorInstance(m) => m
    case PlainObject(m, inner) =>
      if m.Some? && m.value != "" then m.value
      else if inner.Some? && inner.value != "" then inner.value
      else "Signup failed"
    case OtherThrown => "Signup failed"
  }

  /** The message shown for a failure: one of four fixed texts, or the raw text. */
  datatype Message = RateLimited | AlreadyRegistered | NoTable | NoPermission | Raw(text: string)

  const RateLimitedText := "Too many signup attempts. Please wait a few minutes and try again, or check your email for a confirmation link."
  const RegisteredText := "This email is already registered. Please sign in instead."
  const NoTableText := "Database table not found. Please run the database setup script in Supabase."
  const NoPermissionText := "Permission denied. Please check your database RLS policies."
  const RawPrefix := "Signup failed: "

  /** The words of each message: a raw text is shown after 'Signup failed: '. */
  function Words(m: Message): (w: string)
    ensures m.Raw? ==> w == RawPrefix + m.text && StartsWith(w, RawPrefix)
  {
    match m
    case RateLimited => RateLimitedText
    case AlreadyRegistered => RegisteredText
    case NoTable => NoTableText
    case NoPermission => NoPermissionText
    case Raw(t) =>
      assert (RawPrefix + t)[..|RawPrefix|] == RawPrefix;
      RawPrefix + t
  }

  /**
   * The four fixed texts differ from each other, and two raw texts differ
   * when the error texts do: among fixed or among raw messages, the words
   * tell which message was shown.
   */
  lemma WordsInjective(m: Message, n: Message)
    requires m.Raw? <==> n.Raw?
    requires Words(m) == Words(n)
    ensures m == n
  {
    if m.Raw? {
      assert m.text == Words(m)[|RawPrefix|..];
      assert n.text == Words(n)[|RawPrefix|..];
    } else {
      assert |RateLimitedText| == 111 && |RegisteredText| == 57 && |NoTableText| == 75 && |NoPermissionText| == 59;
    }
  }

  predicate IsRateLimit(t: string) { Contains(t, "rate limit") || Contains(t, "email rate") }
  predicate IsRegistered(t: string) { Contains(t, "already registered") || Contains(t, "already exists") }
  predicate IsMissingTable(t: string) { Contains(t, "relation") && Contains(t, "does not exist") }
  predicate IsPermission(t: string) { Contains(t, "permission denied") || Contains(t, "new row violates") }
  predicate IsDuplicate(t: string) { Contains(t, "duplicate key") || Contains(t, "unique constraint") }

  /** The message shown for an error text, by the first test that matches. */
  function Shown(t: string): (r: Message)
    ensures r == RateLimited <==> IsRateLimit(t)
    ensures r == AlreadyRegistered <==> !IsRateLimit(t) && (IsRegistered(t) || (!IsMissingTable(t) && !IsPermission(t) && IsDuplicate(t)))
    ensures r == NoTable <==> !IsRateLimit(t) && !IsRegistered(t) && IsMissingTable(t)
    ensures r == NoPermission <==> !IsRateLimit(t) && !IsRegistered(t) && !IsMissingTable(t) && IsPermission(t)
    ensures r.Raw? <==> !IsRateLimit(t) && !IsRegistered(t) && !IsMissingTable(t) && !IsPermission(t) && !IsDuplicate(t)
    ensures r.Raw? ==> r.text == t
  {
    if IsRateLimit(t) then RateLimited
    else if IsRegistered(t) then AlreadyRegistered
    else if IsMissingTable(t) then NoTable
    else if IsPermission(t) then NoPermission
    else if IsDuplicate(t) then AlreadyRegistered
    else Raw(t)
  }

  /** The two ways of being already registered give the same message. */
  lemma RegisteredAndDuplicateAgree(a: string, b: string)
    requires !IsRateLimit(a) && IsRegistered(a)
    requires !IsRateLimit(b) && !IsRegistered(b) && !IsMissingTable(b) && !IsPermission(b) && IsDuplicate(b)
    ensures Shown(a) == Shown(b) == AlreadyRegistered
  {
  }

  /** A rate-limit mention wins over every other word in the same text. */
  lemma RateLimitFirst(t: string)
    requires Contains(t, "email rate")
    ensures Words(Shown(t + " already registered")) == Words(RateLimited)
  {
    ContainsAppend(t, " already registered", "email rate");
  }

  /** The sign-up call's result. */
  datatype SignUpResult = SignUpFailed(thrown: Thrown) | SignedUp(hasUser: bool, hasSession: bool)

  /** What the page ends up doing. */
  datatype Outcome = ShowError(shown: Message) | AwaitConfirmation | GoTo(path: string)

  /**
   * `handleSignup`: an error is shown by `Shown`; no user is a thrown
   * 'Signup failed'; a user without a session waits for email confirmation;
   * with a session the page moves to the dashboard.
   */
  function HandleSignup(res: SignUpResult): (o: Outcome)
    ensures res.SignUpFailed? ==> o == ShowError(Shown(ErrorText(res.thrown)))
    ensures res.SignedUp? && !res.hasUser ==> o == ShowError(Shown("Signup failed"))
    ensures o == AwaitConfirmation <==> res.SignedUp? && res.hasUser && !res.hasSession
    ensures o.GoTo? <==> res.SignedUp? && res.hasUser && res.hasSession
    ensures o.GoTo? ==> o.path == "/dashboard"
  {
    match res
    case SignUpFailed(t) => ShowError(Shown(ErrorText(t)))
    case SignedUp(hasUser, hasSession) =>
      if !hasUser then ShowError(Shown(ErrorText(ErrorInstance("Signup failed"))))
      else if !hasSession then AwaitConfirmation
      else GoTo("/dashboard")
  }
}
