/**
 * app/api/communities/memberships/route.ts: the ids of the communities the
 * caller belongs to, each once, restricted to communities that exist.
 */
module MembershipsApi {
  import opened Wrappers
  import opened Seqs
  import opened Api

  /** A query whose error is reported, not thrown. */
  datatype Queried<T> = QueryFailed(message: string) | Got(rows: seq<T>)

  datatype MemberRow = MemberRow(communityId: string, userId: string)

  /** The handler's answer: the id list, or an error reply. */
  datatype Answer = Ids(ids: seq<string>) | Failed(reply: Reply)

  /** `.eq('user_id', user).in('community_id', ids)` followed by `.map(m => m.community_id)`. */
  function Selected(rows: seq<MemberRow>, user: string, ids: seq<string>): (r: seq<string>)
    ensures forall c :: c in r <==> exists m :: m in rows && m.userId == user && m.communityId == c && c in ids
  {
    if |rows| == 0 then []
    else
      var rest := Selected(rows[1..], user, ids);
      assert forall m :: m in rows <==> m == rows[0] || m in rows[1..];
      if rows[0].userId == user && rows[0].communityId in ids then [rows[0].communityId] + rest else rest
  }

  /**
   * GET: 401 without a user; 500 with details when either query fails; an
   * empty list when there are no communities; otherwise the caller's
   * memberships among the listed communities, duplicates removed.
   */
  function Memberships(user: Option<string>, communities: Queried<string>, members: Queried<MemberRow>): (a: Answer)
    ensures user.None? ==> a == Failed(ErrorReply(401, "Unauthorized"))
    ensures user.Some? && communities.QueryFailed? ==> a == Failed(DetailedError(500, "Failed to fetch communities", communities.message))
    ensures user.Some? && communities.Got? && communities.rows == [] ==> a == Ids([])
    ensures user.Some? && communities.Got? && communities.rows != [] && members.QueryFailed? ==>
      a == Failed(DetailedError(500, "Failed to fetch memberships", members.message))
    ensures a.Ids? ==> forall i, j :: 0 <= i < j < |a.ids| ==> a.ids[i] != a.ids[j]
    ensures a.Ids? ==> forall c :: c in a.ids ==> c in communities.rows
    ensures a.Ids? ==> forall c :: c in a.ids <==> members.Got? && exists m :: m in members.rows && m.userId == user.value && m.communityId == c && c in communities.rows
  {
    if user.None? then Failed(ErrorReply(401, "Unauthorized"))
    else match communities
      case QueryFailed(m) => Failed(DetailedError(500, "Failed to fetch communities", m))
      case Got(ids) =>
        if ids == [] then Ids([])
        else match members
          case QueryFailed(m) => Failed(DetailedError(500, "Failed to fetch memberships", m))
          case Got(rows) => Ids(Distinct(Selected(rows, user.value, ids)))
  }

  /** Two membership rows for the same community are reported once. */
  lemma DuplicatesCollapse(user: string)
    ensures Memberships(Some(user), Got(["c1"]), Got([MemberRow("c1", user), MemberRow("c1", user)])) == Ids(["c1"])
  {
    var rows := [MemberRow("c1", user), MemberRow("c1", user)];
    assert rows[1..] == [MemberRow("c1", user)];
    assert [MemberRow("c1", user)][1..] == [];
    assert Selected([MemberRow("c1", user)], user, ["c1"]) == ["c1"];
    assert Selected(rows, user, ["c1"]) == ["c1", "c1"];
    assert ["c1", "c1"][..1] == ["c1"];
    assert Distinct(["c1"]) == ["c1"];
  }

  /** Another user's membership never shows up. */
  lemma OthersExcluded(user: string, other: string, ids: seq<string>, c: string)
    requires other != user && ids != []
    ensures Memberships(Some(user), Got(ids), Got([MemberRow(c, other)])) == Ids([])
  {
    assert Selected([MemberRow(c, other)], user, ids) == [];
  }
}
