/** What sequences of user requests do to the store and to the profiles. */
module UserRoutesFacts {
  import opened Wrappers
  import opened Errors
  import opened Models
  import opened Store
  import opened UserCrud
  import opened Identity
  import opened Responses
  import opened ServiceFunctions
  import opened UserRoutes
  import ModelsFacts

  /** `followers` and `following` are the two ends of one relation. */
  lemma FollowersMirrorFollowing(d: Db, u: User, w: User)
    requires Valid(d)
    requires u.id in d.users && d.users[u.id] == u && w.id in d.users && d.users[w.id] == w
    ensures w in LoadUser(d, u).followers <==> u in LoadUser(d, w).following
  {
  }

  /** Following and then unfollowing a user leaves the follower rows as they were. */
  lemma FollowThenUnfollowRestoresFollowers(d: Db, headers: Headers, userId: int, pick: nat -> nat, pick': nat -> nat)
    requires Valid(d)
    requires FollowUserOutcome(d, headers, userId, pick).1.Ok?
    ensures var followed := FollowUserOutcome(d, headers, userId, pick).0;
      var unfollowed := UnfollowUserOutcome(followed, headers, userId, pick');
      unfollowed.1 == Ok(ResultTrue()) && unfollowed.0.followers == d.followers
  {
    var key := GetApiKey(headers).value;
    var followed := FollowUserOutcome(d, headers, userId, pick).0;
    var caller := Resolve(d, key, pick).1;
    ResolvedTarget(d, key, userId, pick);
    assert SelectUserByKey(followed, key) == Some(caller);
    assert IsFollowing(followed, key, userId);
  }

  /** A second follow of the same user is refused with 405 and changes no row. */
  lemma SecondFollowIsRefused(d: Db, headers: Headers, userId: int, pick: nat -> nat, pick': nat -> nat)
    requires Valid(d)
    requires FollowUserOutcome(d, headers, userId, pick).1.Ok?
    ensures var followed := FollowUserOutcome(d, headers, userId, pick).0;
      var again := FollowUserOutcome(followed, headers, userId, pick');
      again.1 == Err(HttpError(MethodNotAllowed, AlreadyFollowing)) && RowsOf(again.0) == RowsOf(followed)
  {
    var key := GetApiKey(headers).value;
    var followed := FollowUserOutcome(d, headers, userId, pick).0;
    assert SelectUserByKey(followed, key) == Some(Resolve(d, key, pick).1);
    assert userId in followed.users;
  }

  /** After a follow, the caller is among the target's followers and the target among the caller's following. */
  lemma FollowShowsInBothProfiles(d: Db, headers: Headers, userId: int, pick: nat -> nat)
    requires Valid(d)
    requires FollowUserOutcome(d, headers, userId, pick).1.Ok?
    ensures var after := FollowUserOutcome(d, headers, userId, pick).0;
      var caller := Resolve(d, GetApiKey(headers).value, pick).1;
      && userId in after.users && caller.id in after.users && after.users[caller.id] == caller
      && caller in LoadUser(after, after.users[userId]).followers
      && after.users[userId] in LoadUser(after, caller).following
  {
    ResolvedTarget(d, GetApiKey(headers).value, userId, pick);
  }

  /** Self-follow is not refused: a known caller may follow their own id. */
  lemma SelfFollowIsAccepted(d: Db, headers: Headers, pick: nat -> nat)
    requires Valid(d)
    requires GetApiKey(headers).Ok? && SelectUserByKey(d, GetApiKey(headers).value).Some?
    requires !IsFollowing(d, GetApiKey(headers).value, SelectUserByKey(d, GetApiKey(headers).value).value.id)
    ensures var me := SelectUserByKey(d, GetApiKey(headers).value).value;
      var res := FollowUserOutcome(d, headers, me.id, pick);
      res.1 == Ok(ResultTrue()) && res.0.followers == d.followers + {(me.id, me.id)}
  {
  }

  /**
   * A caller seen for the first time gets a profile under the next user
   * id, a generated name, and no followers or following.
   */
  lemma NewCallerHasEmptyProfile(d: Db, headers: Headers, pick: nat -> nat)
    requires Valid(d)
    requires GetApiKey(headers).Ok? && SelectUserByKey(d, GetApiKey(headers).value).None?
    ensures var res := GetInfoAboutCurrentUserOutcome(d, headers, pick);
      && res.1.Ok?
      && var profile := Profile(res.0, Resolve(d, GetApiKey(headers).value, pick).1);
      && res.1.value == UserResponse(profile)
      && Field(profile, "id") == Some(JInt(d.nextUserId))
      && Field(profile, "name") == Some(JStr(GenerateRandomString(pick)))
      && Field(profile, "followers") == Some(JArr([]))
      && Field(profile, "following") == Some(JArr([]))
  {
    var (d1, caller) := Resolve(d, GetApiKey(headers).value, pick);
    var v := LoadUser(d1, caller);
    assert caller.id !in d.users;
    assert FollowerIds(d1, caller.id) == {} && FollowingIds(d1, caller.id) == {};
    InOrderOfNothing(d1.nextUserId);
    ModelsFacts.EmptyRelationsRenderAsEmptyLists(v);
  }

  /** Reading one's own profile twice gives the same answer and registers at most once. */
  lemma CurrentUserReadIsIdempotent(d: Db, headers: Headers, pick: nat -> nat, pick': nat -> nat)
    requires Valid(d)
    ensures var first := GetInfoAboutCurrentUserOutcome(d, headers, pick);
      GetInfoAboutCurrentUserOutcome(first.0, headers, pick') == first
  {
    if GetApiKey(headers).Ok? {
      ResolveIsIdempotent(d, GetApiKey(headers).value, pick, pick');
    }
  }

  /** Over empty tables the first caller becomes user 1, so asking for user 1 succeeds. */
  lemma FirstCallerIsUserOne(headers: Headers, pick: nat -> nat)
    requires GetApiKey(headers).Ok?
    ensures var res := GetInfoAboutUserOutcome(Empty(), headers, 1, pick);
      res.1.Ok? && res.0.users[1].key == GetApiKey(headers).value
  {
  }
}
