/**
 * `backend/api/routes/user.py`: follow, unfollow and the two profile
 * reads. As in the tweet routes, each handler is a method proved equal
 * to a function of the store before the request.
 */
module UserRoutes {
  import opened Wrappers
  import opened Errors
  import opened Models
  import opened Store
  import opened UserCrud
  import opened Identity
  import opened Responses
  import opened ServiceFunctions

  /** The caller with `key` exists and follows `userId`. */
  predicate IsFollowing(d: Db, key: string, userId: int)
    requires Valid(d)
  {
    SelectUserByKey(d, key).Some? && (SelectUserByKey(d, key).value.id, userId) in d.followers
  }

  /**
   * The user `userId` exists once the caller is resolved: it is stored
   * already, or it is the id the unseen caller is about to receive.
   */
  predicate TargetExists(d: Db, key: string, userId: int)
    requires Valid(d)
  {
    userId in d.users || (SelectUserByKey(d, key).None? && userId == d.nextUserId)
  }

  /** What resolving the caller means for the target of a user route. */
  lemma ResolvedTarget(d: Db, key: string, userId: int, pick: nat -> nat)
    requires Valid(d)
    ensures userId in Resolve(d, key, pick).0.users <==> TargetExists(d, key, userId)
    ensures (Resolve(d, key, pick).1.id, userId) in d.followers <==> IsFollowing(d, key, userId)
  {
    if SelectUserByKey(d, key).None? {
      assert Resolve(d, key, pick).1.id !in d.users;
    }
  }

  /** The `followers` row a follow inserts. */
  function WithFollow(d: Db, follower: int, followed: int): (r: Db)
    requires Valid(d) && follower in d.users && followed in d.users
    ensures Valid(r)
    ensures r.followers == d.followers + {(follower, followed)}
    ensures r.users == d.users && r.tweets == d.tweets && r.media == d.media && r.likes == d.likes
    ensures r.nextUserId == d.nextUserId && r.nextTweetId == d.nextTweetId && r.nextMediaId == d.nextMediaId
  {
    d.(followers := d.followers + {(follower, followed)})
  }

  /** Removing the `followers` row an unfollow deletes. */
  function WithoutFollow(d: Db, follower: int, followed: int): (r: Db)
    requires Valid(d)
    ensures Valid(r)
    ensures r == d.(followers := d.followers - {(follower, followed)})
  {
    d.(followers := d.followers - {(follower, followed)})
  }

  const FollowNotFound := "User to follow not found"
  const AlreadyFollowing := "Already following this user"
  const UnfollowNotFound := "User to unfollow not found."
  const NotFollowing := "Not following this user."
  const UserNotFound := "User not found"

  function FollowUserOutcome(d: Db, headers: Headers, userId: int, pick: nat -> nat): (res: (Db, Reply))
    requires Valid(d)
    ensures Valid(res.0)
    ensures res.1.Err? ==> RowsOf(res.0) == RowsOf(d)
    ensures GetApiKey(headers).Err? ==> res == (d, Err(HttpError(Forbidden, ApiKeyMissing)))
    ensures GetApiKey(headers).Ok? && !TargetExists(d, GetApiKey(headers).value, userId) ==>
      res.1 == Err(HttpError(NotFound, FollowNotFound))
    ensures GetApiKey(headers).Ok? && TargetExists(d, GetApiKey(headers).value, userId)
            && IsFollowing(d, GetApiKey(headers).value, userId) ==>
      res.1 == Err(HttpError(MethodNotAllowed, AlreadyFollowing))
    ensures GetApiKey(headers).Ok? && TargetExists(d, GetApiKey(headers).value, userId)
            && !IsFollowing(d, GetApiKey(headers).value, userId) ==>
      && res.1 == Ok(ResultTrue())
      && res.0.followers == d.followers + {(Resolve(d, GetApiKey(headers).value, pick).1.id, userId)}
      && res.0.users == Resolve(d, GetApiKey(headers).value, pick).0.users
      && res.0.tweets == d.tweets && res.0.media == d.media && res.0.likes == d.likes
  {
    match GetApiKey(headers)
    case Err(e) => (d, Err(e))
    case Ok(key) =>
      var (d1, user) := Resolve(d, key, pick);
      ResolvedTarget(d, key, userId, pick);
      RestoreIsValid(d, d1);
      var target := SelectUserById(d1, userId);
      if target.None? then (Restore(d1, RowsOf(d)), Err(HttpError(NotFound, FollowNotFound)))
      else if (user.id, userId) in d1.followers then (Restore(d1, RowsOf(d)), Err(HttpError(MethodNotAllowed, AlreadyFollowing)))
      else (WithFollow(d1, user.id, userId), Ok(ResultTrue()))
  }

  /** `follow_user`: the caller joins the target's `followers`. */
  method FollowUser(session: Session, headers: Headers, userId: int, pick: nat -> nat) returns (r: Reply)
    requires Valid(session.State())
    modifies session
    ensures (session.State(), r) == FollowUserOutcome(old(session.State()), headers, userId, pick)
  {
    var apiKey := GetApiKey(headers);
    if apiKey.Err? {
      return Err(apiKey.error);
    }
    var saved := session.Begin();
    var currUser := ResolveOrRegister(session, apiKey.value, pick);
    var userToFollow := SelectUserById(session.State(), userId);
    if userToFollow.None? {
      session.Rollback(saved);
      return Err(HttpError(NotFound, FollowNotFound));
    }
    if (currUser.id, userId) in session.followers {
      session.Rollback(saved);
      return Err(HttpError(MethodNotAllowed, AlreadyFollowing));
    }
    session.followers := session.followers + {(currUser.id, userId)};
    r := Ok(ResultTrue());
  }

  function UnfollowUserOutcome(d: Db, headers: Headers, userId: int, pick: nat -> nat): (res: (Db, Reply))
    requires Valid(d)
    ensures Valid(res.0)
    ensures res.1.Err? ==> RowsOf(res.0) == RowsOf(d)
    ensures GetApiKey(headers).Err? ==> res == (d, Err(HttpError(Forbidden, ApiKeyMissing)))
    ensures GetApiKey(headers).Ok? && !TargetExists(d, GetApiKey(headers).value, userId) ==>
      res.1 == Err(HttpError(NotFound, UnfollowNotFound))
    ensures GetApiKey(headers).Ok? && TargetExists(d, GetApiKey(headers).value, userId)
            && !IsFollowing(d, GetApiKey(headers).value, userId) ==>
      res.1 == Err(HttpError(MethodNotAllowed, NotFollowing))
    ensures GetApiKey(headers).Ok? && TargetExists(d, GetApiKey(headers).value, userId)
            && IsFollowing(d, GetApiKey(headers).value, userId) ==>
      && res.1 == Ok(ResultTrue())
      && res.0 == d.(followers := d.followers - {(SelectUserByKey(d, GetApiKey(headers).value).value.id, userId)})
  {
    match GetApiKey(headers)
    case Err(e) => (d, Err(e))
    case Ok(key) =>
      var (d1, user) := Resolve(d, key, pick);
      ResolvedTarget(d, key, userId, pick);
      RestoreIsValid(d, d1);
      var target := SelectUserById(d1, userId);
      if target.None? then (Restore(d1, RowsOf(d)), Err(HttpError(NotFound, UnfollowNotFound)))
      else if (user.id, userId) !in d1.followers then (Restore(d1, RowsOf(d)), Err(HttpError(MethodNotAllowed, NotFollowing)))
      else (WithoutFollow(d1, user.id, userId), Ok(ResultTrue()))
  }

  /** `unfollow_user`: the caller leaves the target's `followers`. */
  method UnfollowUser(session: Session, headers: Headers, userId: int, pick: nat -> nat) returns (r: Reply)
    requires Valid(session.State())
    modifies session
    ensures (session.State(), r) == UnfollowUserOutcome(old(session.State()), headers, userId, pick)
  {
    var apiKey := GetApiKey(headers);
    if apiKey.Err? {
      return Err(apiKey.error);
    }
    var saved := session.Begin();
    var currUser := ResolveOrRegister(session, apiKey.value, pick);
    var userToUnfollow := SelectUserById(session.State(), userId);
    if userToUnfollow.None? {
      session.Rollback(saved);
      return Err(HttpError(NotFound, UnfollowNotFound));
    }
    if (currUser.id, userId) !in session.followers {
      session.Rollback(saved);
      return Err(HttpError(MethodNotAllowed, NotFollowing));
    }
    session.followers := session.followers - {(currUser.id, userId)};
    r := Ok(ResultTrue());
  }

  /** A stored user's profile, as `User.to_dict` renders it. */
  function Profile(d: Db, u: User): Json
    requires Valid(d)
  {
    UserToDict(LoadUser(d, u))
  }

  /** `get_info_about_current_user`: never fails once a key is given; a new caller stays registered. */
  function GetInfoAboutCurrentUserOutcome(d: Db, headers: Headers, pick: nat -> nat): (res: (Db, Reply))
    requires Valid(d)
    ensures Valid(res.0)
    ensures GetApiKey(headers).Err? ==> res == (d, Err(HttpError(Forbidden, ApiKeyMissing)))
    ensures GetApiKey(headers).Ok? ==>
      var (d1, caller) := Resolve(d, GetApiKey(headers).value, pick);
      res == (d1, Ok(UserResponse(Profile(d1, caller))))
  {
    match GetApiKey(headers)
    case Err(e) => (d, Err(e))
    case Ok(key) =>
      var d1 := Resolve(d, key, pick).0;
      var user := SelectUserByKey(d1, key).value;
      (d1, Ok(UserResponse(Profile(d1, user))))
  }

  /** `get_info_about_current_user`. */
  method GetInfoAboutCurrentUser(session: Session, headers: Headers, pick: nat -> nat) returns (r: Reply)
    requires Valid(session.State())
    modifies session
    ensures (session.State(), r) == GetInfoAboutCurrentUserOutcome(old(session.State()), headers, pick)
  {
    var apiKey := GetApiKey(headers);
    if apiKey.Err? {
      return Err(apiKey.error);
    }
    var _ := ResolveOrRegister(session, apiKey.value, pick);
    var user := SelectUserByKey(session.State(), apiKey.value);
    r := Ok(UserResponse(Profile(session.State(), user.value)));
  }

  /** `get_info_about_user`: 404 rolls the caller's registration back. */
  function GetInfoAboutUserOutcome(d: Db, headers: Headers, userId: int, pick: nat -> nat): (res: (Db, Reply))
    requires Valid(d)
    ensures Valid(res.0)
    ensures res.1.Err? ==> RowsOf(res.0) == RowsOf(d)
    ensures GetApiKey(headers).Err? ==> res == (d, Err(HttpError(Forbidden, ApiKeyMissing)))
    ensures GetApiKey(headers).Ok? ==> (res.1.Ok? <==> TargetExists(d, GetApiKey(headers).value, userId))
    ensures GetApiKey(headers).Ok? && !TargetExists(d, GetApiKey(headers).value, userId) ==>
      res.1 == Err(HttpError(NotFound, UserNotFound))
    ensures res.1.Ok? ==>
      && res.0 == Resolve(d, GetApiKey(headers).value, pick).0
      && userId in res.0.users
      && res.1 == Ok(UserResponse(Profile(res.0, res.0.users[userId])))
  {
    match GetApiKey(headers)
    case Err(e) => (d, Err(e))
    case Ok(key) =>
      var d1 := Resolve(d, key, pick).0;
      ResolvedTarget(d, key, userId, pick);
      RestoreIsValid(d, d1);
      var user := SelectUserById(d1, userId);
      if user.None? then (Restore(d1, RowsOf(d)), Err(HttpError(NotFound, UserNotFound)))
      else (d1, Ok(UserResponse(Profile(d1, user.value))))
  }

  /** `get_info_about_user`. */
  method GetInfoAboutUser(session: Session, headers: Headers, userId: int, pick: nat -> nat) returns (r: Reply)
    requires Valid(session.State())
    modifies session
    ensures (session.State(), r) == GetInfoAboutUserOutcome(old(session.State()), headers, userId, pick)
  {
    var apiKey := GetApiKey(headers);
    if apiKey.Err? {
      return Err(apiKey.error);
    }
    var saved := session.Begin();
    var _ := ResolveOrRegister(session, apiKey.value, pick);
    var user := SelectUserById(session.State(), userId);
    if user.None? {
      session.Rollback(saved);
      return Err(HttpError(NotFound, UserNotFound));
    }
    r := Ok(UserResponse(Profile(session.State(), user.value)));
  }
}
