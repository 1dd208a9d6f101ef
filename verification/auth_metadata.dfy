/**
 * The signed-in user as the auth service reports it, and the profile fields
 * that hooks/use-auth.ts and app/api/users/sync-role/route.ts both derive from
 * its sign-up metadata when there is no usable profile row.
 */
module AuthMetadata {
  import opened Wrappers
  import opened Json
  import opened Text

  /** `session.user`: id, email (possibly absent) and `user_metadata` (possibly absent). */
  datatype AuthUser = AuthUser(id: string, email: Option<string>, metadata: Option<Object>)

  /** `session.user.user_metadata || {}` */
  function Metadata(u: AuthUser): (m: Object)
    ensures u.metadata.Some? ==> m == u.metadata.value
    ensures u.metadata.None? ==> m == map[]
  {
    u.metadata.GetOr(map[])
  }

  /** `session.user.email || ''` */
  function EmailText(u: AuthUser): (e: string)
    ensures u.email.Some? ==> e == u.email.value
    ensures u.email.None? ==> e == ""
  {
    if u.email.Some? then u.email.value else ""
  }

  /** `userMetadata.role || 'user'`: any truthy value is taken as it is. */
  function MetadataRole(metadata: Object): (v: Value)
    ensures Truthy(v)
    ensures Present(metadata, "role") ==> v == metadata["role"]
    ensures !Present(metadata, "role") ==> v == Str("user")
  {
    if Present(metadata, "role") then metadata["role"] else Str("user")
  }

  /** `userMetadata.full_name || session.user.email?.split('@')[0] || ''` */
  function FullName(metadata: Object, email: Option<string>): (v: Value)
    ensures Present(metadata, "full_name") ==> v == metadata["full_name"]
    ensures !Present(metadata, "full_name") && email.Some? ==> v == Str(BeforeFirst(email.value, '@'))
    ensures !Present(metadata, "full_name") && email.None? ==> v == Str("")
  {
    if Present(metadata, "full_name") then metadata["full_name"]
    else if email.Some? && BeforeFirst(email.value, '@') != "" then Str(BeforeFirst(email.value, '@'))
    else Str("")
  }

  /** `user_metadata?.full_name || ''`: the shorter fallback, without the email. */
  function NameOnly(metadata: Object): (v: Value)
    ensures Present(metadata, "full_name") ==> v == metadata["full_name"]
    ensures !Present(metadata, "full_name") ==> v == Str("")
  {
    if Present(metadata, "full_name") then metadata["full_name"] else Str("")
  }

  /** Without a metadata name, the full name is the email's text before the first '@'. */
  lemma FullNameFromEmail(local: string, domain: string)
    requires local != "" && '@' !in local
    ensures FullName(map[], Some(local + "@" + domain)) == Str(local)
  {
    var e := local + "@" + domain;
    assert e[|local|] == '@';
    assert e[..|local|] == local;
  }

  /** The two name fallbacks differ exactly when there is no metadata name but the email has a local part. */
  lemma FallbacksDiffer(metadata: Object, email: Option<string>)
    ensures FullName(metadata, email) != NameOnly(metadata)
        <==> !Present(metadata, "full_name") && email.Some? && BeforeFirst(email.value, '@') != ""
  {
  }
}
