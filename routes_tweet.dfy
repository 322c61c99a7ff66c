/**
 * `backend/api/routes/tweet.py`: create, delete, like, unlike and list.
 * Each route is a method that changes the session step by step as the
 * handler does, and is proved equal to a function giving the store after
 * the request and the reply. Every write happens inside one
 * `session.begin()`: an exception rolls the rows back, including a caller
 * just registered.
 */
module TweetRoutes {
  import opened Wrappers
  import opened Errors
  import opened Models
  import opened Store
  import opened UserCrud
  import opened TweetCrud
  import opened MediaCrud
  import opened Identity
  import opened Responses
  import opened ServiceFunctions

  /** The request body `InputTweet`. */
  datatype InputTweet = InputTweet(tweetData: string, tweetMediaIds: Option<seq<int>>)

  /** The caller a key resolves to. */
  function Caller(d: Db, key: string, pick: nat -> nat): User
    requires Valid(d)
  {
    Resolve(d, key, pick).1
  }

  /** The caller with `key` exists and has liked `tweetId`. */
  predicate HasLiked(d: Db, key: string, tweetId: int)
    requires Valid(d)
  {
    SelectUserByKey(d, key).Some? && (SelectUserByKey(d, key).value.id, tweetId) in d.likes
  }

  /** The resolved caller's like of `tweetId` is already stored exactly when the caller existed and liked it. */
  lemma ResolvedLiker(d: Db, key: string, tweetId: int, pick: nat -> nat)
    requires Valid(d)
    ensures (Caller(d, key, pick).id, tweetId) in d.likes <==> HasLiked(d, key, tweetId)
  {
    if SelectUserByKey(d, key).None? {
      assert Caller(d, key, pick).id !in d.users;
    }
  }

  /** The caller with `key` exists and wrote `tweetId`. */
  predicate IsAuthor(d: Db, key: string, tweetId: int)
    requires Valid(d) && tweetId in d.tweets
  {
    SelectUserByKey(d, key).Some? && d.tweets[tweetId].authorId == Some(SelectUserByKey(d, key).value.id)
  }

  /** The attachments a new tweet gets: none for a missing or empty id list. */
  function TweetAttachments(media: map<int, Media>, tweetMediaIds: Option<seq<int>>): (r: seq<string>)
    ensures tweetMediaIds.None? || tweetMediaIds.value == [] ==> r == []
    ensures tweetMediaIds.Some? ==> r == AttachmentLinks(media, tweetMediaIds.value)
  {
    if tweetMediaIds.Some? && |tweetMediaIds.value| > 0 then AttachmentLinks(media, tweetMediaIds.value) else []
  }

  function CreateTweetOutcome(d: Db, headers: Headers, tweet: InputTweet, pick: nat -> nat): (res: (Db, Reply))
    requires Valid(d)
    ensures Valid(res.0)
    ensures res.1.Err? ==> RowsOf(res.0) == RowsOf(d)
    ensures GetApiKey(headers).Err? ==> res == (d, Err(HttpError(Forbidden, ApiKeyMissing)))
    ensures GetApiKey(headers).Ok? ==> (res.1.Ok? <==> |tweet.tweetData| <= MaxContentLength)
    ensures GetApiKey(headers).Ok? && |tweet.tweetData| > MaxContentLength ==> res.1 == Err(DataError)
    ensures res.1.Ok? ==>
      var caller := Caller(d, GetApiKey(headers).value, pick);
      && res.1 == Ok(AddTweetResponse(d.nextTweetId))
      && (forall id :: id in d.tweets ==> id < d.nextTweetId)
      && res.0.tweets == d.tweets[d.nextTweetId := Tweet(d.nextTweetId, tweet.tweetData,
                                                         TweetAttachments(d.media, tweet.tweetMediaIds), Some(caller.id))]
      && res.0.users == Resolve(d, GetApiKey(headers).value, pick).0.users
      && res.0.media == d.media && res.0.followers == d.followers && res.0.likes == d.likes
  {
    match GetApiKey(headers)
    case Err(e) => (d, Err(e))
    case Ok(key) =>
      var (d1, user) := Resolve(d, key, pick);
      RestoreIsValid(d, d1);
      var attachments := TweetAttachments(d1.media, tweet.tweetMediaIds);
      var (d2, added) := AddTweetOutcome(d1, tweet.tweetData, attachments, user);
      if added.Err? then (Restore(d2, RowsOf(d)), Err(added.error))
      else (d2, Ok(AddTweetResponse(added.value)))
  }

  /** `create_tweet`. */
  method CreateTweet(session: Session, headers: Headers, tweet: InputTweet, pick: nat -> nat) returns (r: Reply)
    requires Valid(session.State())
    modifies session
    ensures (session.State(), r) == CreateTweetOutcome(old(session.State()), headers, tweet, pick)
  {
    var apiKey := GetApiKey(headers);
    if apiKey.Err? {
      return Err(apiKey.error);
    }
    var tweetMediaIds := tweet.tweetMediaIds;
    var saved := session.Begin();
    var currUser := ResolveOrRegister(session, apiKey.value, pick);
    var attachments := [];
    if tweetMediaIds.Some? && |tweetMediaIds.value| > 0 {
      attachments := GetAttachmentsLinksByIds(session, tweetMediaIds.value);
    }
    var tweetId := AddTweet(session, tweet.tweetData, attachments, currUser);
    if tweetId.Err? {
      session.Rollback(saved);
      return Err(tweetId.error);
    }
    r := Ok(AddTweetResponse(tweetId.value));
  }

  /** `session.delete(tweet)`: the row goes, and with it its rows in `likes`. */
  function DeleteTweetRow(d: Db, tweetId: int): (r: Db)
    requires Valid(d)
    ensures Valid(r)
    ensures r.tweets == d.tweets - {tweetId}
    ensures forall e :: e in r.likes <==> e in d.likes && e.1 != tweetId
    ensures r.users == d.users && r.media == d.media && r.followers == d.followers
    ensures r.nextUserId == d.nextUserId && r.nextTweetId == d.nextTweetId && r.nextMediaId == d.nextMediaId
  {
    d.(tweets := d.tweets - {tweetId}, likes := set e | e in d.likes && e.1 != tweetId)
  }

  const TweetNotFound := "Tweet not found"
  const NotAuthorized := "Not authorized to delete this tweet"

  function DeleteTweetOutcome(d: Db, headers: Headers, tweetId: int, pick: nat -> nat): (res: (Db, Reply))
    requires Valid(d)
    ensures Valid(res.0)
    ensures res.1.Err? ==> RowsOf(res.0) == RowsOf(d)
    ensures GetApiKey(headers).Err? ==> res == (d, Err(HttpError(Forbidden, ApiKeyMissing)))
    ensures GetApiKey(headers).Ok? && tweetId !in d.tweets ==> res.1 == Err(HttpError(NotFound, TweetNotFound))
    ensures GetApiKey(headers).Ok? && tweetId in d.tweets && !IsAuthor(d, GetApiKey(headers).value, tweetId) ==>
      res.1 == Err(HttpError(Forbidden, NotAuthorized))
    ensures GetApiKey(headers).Ok? && tweetId in d.tweets && IsAuthor(d, GetApiKey(headers).value, tweetId) ==>
      res == (DeleteTweetRow(d, tweetId), Ok(ResultTrue()))
  {
    match GetApiKey(headers)
    case Err(e) => (d, Err(e))
    case Ok(key) =>
      var (d1, user) := Resolve(d, key, pick);
      RestoreIsValid(d, d1);
      var tweet := SelectTweetById(d1, tweetId);
      if tweet.None? then (Restore(d1, RowsOf(d)), Err(HttpError(NotFound, TweetNotFound)))
      else if tweet.value.authorId != Some(user.id) then (Restore(d1, RowsOf(d)), Err(HttpError(Forbidden, NotAuthorized)))
      else (DeleteTweetRow(d1, tweetId), Ok(ResultTrue()))
  }

  /** `delete_tweet`. */
  method DeleteTweet(session: Session, headers: Headers, tweetId: int, pick: nat -> nat) returns (r: Reply)
    requires Valid(session.State())
    modifies session
    ensures (session.State(), r) == DeleteTweetOutcome(old(session.State()), headers, tweetId, pick)
  {
    var apiKey := GetApiKey(headers);
    if apiKey.Err? {
      return Err(apiKey.error);
    }
    var saved := session.Begin();
    var currUser := ResolveOrRegister(session, apiKey.value, pick);
    var tweet := SelectTweetById(session.State(), tweetId);
    if tweet.None? {
      session.Rollback(saved);
      return Err(HttpError(NotFound, TweetNotFound));
    }
    if tweet.value.authorId != Some(currUser.id) {
      session.Rollback(saved);
      return Err(HttpError(Forbidden, NotAuthorized));
    }
    session.tweets := session.tweets - {tweetId};
    session.likes := set e | e in session.likes && e.1 != tweetId;
    r := Ok(ResultTrue());
  }

  /** The `likes` row a like inserts. */
  function WithLike(d: Db, userId: int, tweetId: int): (r: Db)
    requires Valid(d) && userId in d.users && tweetId in d.tweets
    ensures Valid(r)
    ensures r.likes == d.likes + {(userId, tweetId)}
    ensures r.users == d.users && r.tweets == d.tweets && r.media == d.media && r.followers == d.followers
    ensures r.nextUserId == d.nextUserId && r.nextTweetId == d.nextTweetId && r.nextMediaId == d.nextMediaId
  {
    d.(likes := d.likes + {(userId, tweetId)})
  }

  /** Removing the `likes` row an unlike deletes. */
  function WithoutLike(d: Db, userId: int, tweetId: int): (r: Db)
    requires Valid(d)
    ensures Valid(r)
    ensures r == d.(likes := d.likes - {(userId, tweetId)})
  {
    d.(likes := d.likes - {(userId, tweetId)})
  }

  const TweetNotFoundForLike := "Tweet not found."
  const AlreadyLiked := "Tweet already liked."
  const NotLiked := "Tweet was not liked."

  function LikeTweetOutcome(d: Db, headers: Headers, tweetId: int, pick: nat -> nat): (res: (Db, Reply))
    requires Valid(d)
    ensures Valid(res.0)
    ensures res.1.Err? ==> RowsOf(res.0) == RowsOf(d)
    ensures GetApiKey(headers).Err? ==> res == (d, Err(HttpError(Forbidden, ApiKeyMissing)))
    ensures GetApiKey(headers).Ok? && tweetId !in d.tweets ==> res.1 == Err(HttpError(NotFound, TweetNotFoundForLike))
    ensures GetApiKey(headers).Ok? && tweetId in d.tweets && HasLiked(d, GetApiKey(headers).value, tweetId) ==>
      res.1 == Err(HttpError(MethodNotAllowed, AlreadyLiked))
    ensures GetApiKey(headers).Ok? && tweetId in d.tweets && !HasLiked(d, GetApiKey(headers).value, tweetId) ==>
      && res.1 == Ok(ResultTrue())
      && res.0.likes == d.likes + {(Caller(d, GetApiKey(headers).value, pick).id, tweetId)}
      && res.0.users == Resolve(d, GetApiKey(headers).value, pick).0.users
      && res.0.tweets == d.tweets && res.0.media == d.media && res.0.followers == d.followers
  {
    match GetApiKey(headers)
    case Err(e) => (d, Err(e))
    case Ok(key) =>
      var (d1, user) := Resolve(d, key, pick);
      RestoreIsValid(d, d1);
      ResolvedLiker(d, key, tweetId, pick);
      var tweet := SelectTweetById(d1, tweetId);
      if tweet.None? then (Restore(d1, RowsOf(d)), Err(HttpError(NotFound, TweetNotFoundForLike)))
      else if (user.id, tweetId) in d1.likes then (Restore(d1, RowsOf(d)), Err(HttpError(MethodNotAllowed, AlreadyLiked)))
      else (WithLike(d1, user.id, tweetId), Ok(ResultTrue()))
  }

  /** `like_tweet`. */
  method LikeTweet(session: Session, headers: Headers, tweetId: int, pick: nat -> nat) returns (r: Reply)
    requires Valid(session.State())
    modifies session
    ensures (session.State(), r) == LikeTweetOutcome(old(session.State()), headers, tweetId, pick)
  {
    var apiKey := GetApiKey(headers);
    if apiKey.Err? {
      return Err(apiKey.error);
    }
    var saved := session.Begin();
    var currUser := ResolveOrRegister(session, apiKey.value, pick);
    var tweet := SelectTweetById(session.State(), tweetId);
    if tweet.None? {
      session.Rollback(saved);
      return Err(HttpError(NotFound, TweetNotFoundForLike));
    }
    if (currUser.id, tweetId) in session.likes {
      session.Rollback(saved);
      return Err(HttpError(MethodNotAllowed, AlreadyLiked));
    }
    session.likes := session.likes + {(currUser.id, tweetId)};
    r := Ok(ResultTrue());
  }

  function UnlikeTweetOutcome(d: Db, headers: Headers, tweetId: int, pick: nat -> nat): (res: (Db, Reply))
    requires Valid(d)
    ensures Valid(res.0)
    ensures res.1.Err? ==> RowsOf(res.0) == RowsOf(d)
    ensures GetApiKey(headers).Err? ==> res == (d, Err(HttpError(Forbidden, ApiKeyMissing)))
    ensures GetApiKey(headers).Ok? && tweetId !in d.tweets ==> res.1 == Err(HttpError(NotFound, TweetNotFoundForLike))
    ensures GetApiKey(headers).Ok? && tweetId in d.tweets && !HasLiked(d, GetApiKey(headers).value, tweetId) ==>
      res.1 == Err(HttpError(MethodNotAllowed, NotLiked))
    ensures GetApiKey(headers).Ok? && tweetId in d.tweets && HasLiked(d, GetApiKey(headers).value, tweetId) ==>
      && res.1 == Ok(ResultTrue())
      && res.0 == d.(likes := d.likes - {(SelectUserByKey(d, GetApiKey(headers).value).value.id, tweetId)})
  {
    match GetApiKey(headers)
    case Err(e) => (d, Err(e))
    case Ok(key) =>
      var (d1, user) := Resolve(d, key, pick);
      RestoreIsValid(d, d1);
      ResolvedLiker(d, key, tweetId, pick);
      var tweet := SelectTweetById(d1, tweetId);
      if tweet.None? then (Restore(d1, RowsOf(d)), Err(HttpError(NotFound, TweetNotFoundForLike)))
      else if (user.id, tweetId) !in d1.likes then (Restore(d1, RowsOf(d)), Err(HttpError(MethodNotAllowed, NotLiked)))
      else (WithoutLike(d1, user.id, tweetId), Ok(ResultTrue()))
  }

  /** `unlike_tweet`. */
  method UnlikeTweet(session: Session, headers: Headers, tweetId: int, pick: nat -> nat) returns (r: Reply)
    requires Valid(session.State())
    modifies session
    ensures (session.State(), r) == UnlikeTweetOutcome(old(session.State()), headers, tweetId, pick)
  {
    var apiKey := GetApiKey(headers);
    if apiKey.Err? {
      return Err(apiKey.error);
    }
    var saved := session.Begin();
    var currUser := ResolveOrRegister(session, apiKey.value, pick);
    var tweet := SelectTweetById(session.State(), tweetId);
    if tweet.None? {
      session.Rollback(saved);
      return Err(HttpError(NotFound, TweetNotFoundForLike));
    }
    if (currUser.id, tweetId) !in session.likes {
      session.Rollback(saved);
      return Err(HttpError(MethodNotAllowed, NotLiked));
    }
    session.likes := session.likes - {(currUser.id, tweetId)};
    r := Ok(ResultTrue());
  }

  /** The feed: each stored tweet, by ascending id, as `Tweet.to_dict` renders it. */
  function Feed(d: Db): (r: seq<Json>)
    requires Valid(d)
    ensures |r| == |d.tweets|
    ensures forall i :: 0 <= i < |r| ==> Field(r[i], "id") == Some(JInt(SelectAllTweets(d)[i].id))
  {
    var tweets := SelectAllTweets(d);
    seq(|tweets|, i requires 0 <= i < |tweets| => TweetToDict(LoadTweet(d, tweets[i])))
  }

  /**
   * `get_all_tweets`. The caller is registered outside `begin()`, in the
   * session's implicit transaction, which is closed without a commit: the
   * registration is not kept.
   */
  function GetAllTweetsOutcome(d: Db, headers: Headers, pick: nat -> nat): (res: (Db, Reply))
    requires Valid(d)
    ensures Valid(res.0)
    ensures RowsOf(res.0) == RowsOf(d)
    ensures GetApiKey(headers).Err? ==> res == (d, Err(HttpError(Forbidden, ApiKeyMissing)))
    ensures GetApiKey(headers).Ok? ==> res.1 == Ok(TweetsResponse(Feed(d)))
  {
    match GetApiKey(headers)
    case Err(e) => (d, Err(e))
    case Ok(key) =>
      var d1 := Resolve(d, key, pick).0;
      FeedIgnoresRegistration(d, key, pick);
      RestoreIsValid(d, d1);
      (Restore(d1, RowsOf(d)), Ok(TweetsResponse(Feed(d1))))
  }

  /** `get_all_tweets`. */
  method GetAllTweets(session: Session, headers: Headers, pick: nat -> nat) returns (r: Reply)
    requires Valid(session.State())
    modifies session
    ensures (session.State(), r) == GetAllTweetsOutcome(old(session.State()), headers, pick)
  {
    var apiKey := GetApiKey(headers);
    if apiKey.Err? {
      return Err(apiKey.error);
    }
    var implicit := session.Begin();
    var _ := ResolveOrRegister(session, apiKey.value, pick);
    var dicts := Feed(session.State());
    session.Rollback(implicit);
    r := Ok(TweetsResponse(dicts));
  }

  /** Registering a caller, who likes nothing yet, does not change the feed. */
  lemma FeedIgnoresRegistration(d: Db, key: string, pick: nat -> nat)
    requires Valid(d)
    ensures Feed(Resolve(d, key, pick).0) == Feed(d)
  {
    var d1 := Resolve(d, key, pick).0;
    if d1 != d {
      FeedIgnoresNewUser(d, d1);
    }
  }

  /** A store that gained only users renders the same feed. */
  lemma FeedIgnoresNewUser(d: Db, d1: Db)
    requires Valid(d) && Valid(d1)
    requires d1.tweets == d.tweets && d1.likes == d.likes
    requires d1.nextTweetId == d.nextTweetId && d.nextUserId <= d1.nextUserId
    requires forall id :: id in d.users ==> id in d1.users && d1.users[id] == d.users[id]
    ensures Feed(d1) == Feed(d)
  {
    SameTweetsSameListing(d, d1);
    var tweets := SelectAllTweets(d);
    forall i | 0 <= i < |tweets|
      ensures Feed(d1)[i] == Feed(d)[i]
    {
      assert tweets[i] in tweets;
      LoadTweetIgnoresNewUser(d, d1, tweets[i]);
    }
  }

  /** The listing reads only the tweets table. */
  lemma SameTweetsSameListing(d: Db, d1: Db)
    requires Valid(d) && Valid(d1)
    requires d1.tweets == d.tweets && d1.nextTweetId == d.nextTweetId
    ensures SelectAllTweets(d1) == SelectAllTweets(d)
  {
    var ids := InOrder(d.tweets.Keys, d.nextTweetId);
    TweetsInOrder(d);
    assert TweetsIn(d1, ids) == TweetsIn(d, ids);
  }

  /** A user added with no edges leaves every tweet's loaded form as it was. */
  lemma LoadTweetIgnoresNewUser(d: Db, d1: Db, t: Tweet)
    requires Valid(d) && Valid(d1)
    requires t.id in d.tweets && d.tweets[t.id] == t
    requires d1.tweets == d.tweets && d1.likes == d.likes && d.nextUserId <= d1.nextUserId
    requires forall id :: id in d.users ==> id in d1.users && d1.users[id] == d.users[id]
    ensures LoadTweet(d1, t) == LoadTweet(d, t)
  {
    var likers := LikerIds(d, t.id);
    assert LikerIds(d1, t.id) == likers;
    assert forall x :: x in likers ==> x in d.users;
    InOrderBound(likers, d.nextUserId, d1.nextUserId);
    var ids := InOrder(likers, d.nextUserId);
    assert forall k :: 0 <= k < |ids| ==> ids[k] in d.users by {
      assert forall k :: 0 <= k < |ids| ==> ids[k] in ids;
    }
    UsersInAgree(d, d1, ids);
  }
}
