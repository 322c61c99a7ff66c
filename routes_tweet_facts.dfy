/** What sequences of tweet requests do to the store and to the replies. */
module TweetRoutesFacts {
  import opened Wrappers
  import opened Errors
  import opened Models
  import opened Store
  import opened UserCrud
  import opened TweetCrud
  import opened Identity
  import opened Responses
  import opened ServiceFunctions
  import opened TweetRoutes

  /** Liking and then unliking a tweet leaves the likes as they were. */
  lemma LikeThenUnlikeRestoresLikes(d: Db, headers: Headers, tweetId: int, pick: nat -> nat, pick': nat -> nat)
    requires Valid(d)
    requires GetApiKey(headers).Ok? && tweetId in d.tweets && !HasLiked(d, GetApiKey(headers).value, tweetId)
    ensures var liked := LikeTweetOutcome(d, headers, tweetId, pick);
      && liked.1 == Ok(ResultTrue())
      && var unliked := UnlikeTweetOutcome(liked.0, headers, tweetId, pick');
      && unliked.1 == Ok(ResultTrue())
      && unliked.0.likes == d.likes
      && unliked.0.tweets == d.tweets
  {
    var key := GetApiKey(headers).value;
    var liked := LikeTweetOutcome(d, headers, tweetId, pick);
    var caller := Caller(d, key, pick);
    assert SelectUserByKey(liked.0, key) == Some(caller);
    assert HasLiked(liked.0, key, tweetId);
    assert (caller.id, tweetId) !in d.likes by {
      if SelectUserByKey(d, key).None? {
        assert caller.id !in d.users;
      }
    }
  }

  /** A second like of the same tweet is refused with 405 and changes no row. */
  lemma SecondLikeIsRefused(d: Db, headers: Headers, tweetId: int, pick: nat -> nat, pick': nat -> nat)
    requires Valid(d)
    requires LikeTweetOutcome(d, headers, tweetId, pick).1.Ok?
    ensures var liked := LikeTweetOutcome(d, headers, tweetId, pick).0;
      var again := LikeTweetOutcome(liked, headers, tweetId, pick');
      again.1 == Err(HttpError(MethodNotAllowed, AlreadyLiked)) && RowsOf(again.0) == RowsOf(liked)
  {
    var key := GetApiKey(headers).value;
    var liked := LikeTweetOutcome(d, headers, tweetId, pick).0;
    assert SelectUserByKey(liked, key) == Some(Caller(d, key, pick));
  }

  /** A caller seen for the first time has liked nothing: an unlike is refused with 405. */
  lemma NewCallerCannotUnlike(d: Db, headers: Headers, tweetId: int, pick: nat -> nat)
    requires Valid(d)
    requires GetApiKey(headers).Ok? && SelectUserByKey(d, GetApiKey(headers).value).None? && tweetId in d.tweets
    ensures var res := UnlikeTweetOutcome(d, headers, tweetId, pick);
      res.1 == Err(HttpError(MethodNotAllowed, NotLiked)) && RowsOf(res.0) == RowsOf(d)
  {
  }

  /** A tweet once deleted is not found by a second delete. */
  lemma SecondDeleteIsNotFound(d: Db, headers: Headers, tweetId: int, pick: nat -> nat, pick': nat -> nat)
    requires Valid(d)
    requires DeleteTweetOutcome(d, headers, tweetId, pick).1.Ok?
    ensures var deleted := DeleteTweetOutcome(d, headers, tweetId, pick).0;
      DeleteTweetOutcome(deleted, headers, tweetId, pick').1 == Err(HttpError(NotFound, TweetNotFound))
  {
  }

  /**
   * A tweet just created is the last of the feed: its id is above every
   * id already used, and it carries the caller as author.
   */
  lemma CreatedTweetEndsTheFeed(d: Db, headers: Headers, tweet: InputTweet, pick: nat -> nat)
    requires Valid(d)
    requires CreateTweetOutcome(d, headers, tweet, pick).1.Ok?
    ensures var after := CreateTweetOutcome(d, headers, tweet, pick).0;
      var feed := SelectAllTweets(after);
      && |feed| == |d.tweets| + 1
      && feed[|feed| - 1].id == d.nextTweetId
      && feed[|feed| - 1].content == tweet.tweetData
      && feed[|feed| - 1].authorId == Some(Caller(d, GetApiKey(headers).value, pick).id)
  {
    var after := CreateTweetOutcome(d, headers, tweet, pick).0;
    var feed := SelectAllTweets(after);
    var t := after.tweets[d.nextTweetId];
    assert d.nextTweetId !in d.tweets;
    assert |after.tweets| == |d.tweets| + 1;
    assert t in feed;
    var k :| 0 <= k < |feed| && feed[k] == t;
    assert k == |feed| - 1;
  }

  /** The author deleting the tweet just created brings the tweets back as they were. */
  lemma CreateThenDeleteRestoresTweets(d: Db, headers: Headers, tweet: InputTweet, pick: nat -> nat, pick': nat -> nat)
    requires Valid(d)
    requires CreateTweetOutcome(d, headers, tweet, pick).1.Ok?
    ensures var created := CreateTweetOutcome(d, headers, tweet, pick).0;
      var deleted := DeleteTweetOutcome(created, headers, d.nextTweetId, pick');
      deleted.1 == Ok(ResultTrue()) && deleted.0.tweets == d.tweets && deleted.0.likes == d.likes
  {
    var created := CreateTweetOutcome(d, headers, tweet, pick).0;
    CreatedTweetIsTheCallers(d, headers, tweet, pick);
    DeletingTheNewTweet(d, created, headers, d.nextTweetId, pick');
  }

  /** A create adds exactly one tweet, under the next id, written by the caller. */
  lemma CreatedTweetIsTheCallers(d: Db, headers: Headers, tweet: InputTweet, pick: nat -> nat)
    requires Valid(d)
    requires CreateTweetOutcome(d, headers, tweet, pick).1.Ok?
    ensures var created := CreateTweetOutcome(d, headers, tweet, pick).0;
      && d.nextTweetId !in d.tweets && d.nextTweetId in created.tweets
      && created.tweets - {d.nextTweetId} == d.tweets
      && created.likes == d.likes
      && IsAuthor(created, GetApiKey(headers).value, d.nextTweetId)
  {
    var key := GetApiKey(headers).value;
    var created := CreateTweetOutcome(d, headers, tweet, pick).0;
    var caller := Caller(d, key, pick);
    assert caller.id in created.users && created.users[caller.id] == caller;
    assert SelectUserByKey(created, key) == Some(caller);
    var t := created.tweets[d.nextTweetId];
    UpdateThenRemove(d.tweets, d.nextTweetId, t);
  }

  /** Adding a fresh key and removing it again gives the map back. */
  lemma UpdateThenRemove<V>(m: map<int, V>, k: int, v: V)
    requires k !in m
    ensures m[k := v] - {k} == m
  {
  }

  /** Deleting, as its author, the one tweet a store gained gives back the tweets and likes it had. */
  lemma DeletingTheNewTweet(d: Db, created: Db, headers: Headers, tweetId: int, pick: nat -> nat)
    requires Valid(d) && Valid(created) && GetApiKey(headers).Ok?
    requires tweetId !in d.tweets && tweetId in created.tweets && created.tweets - {tweetId} == d.tweets
    requires created.likes == d.likes
    requires IsAuthor(created, GetApiKey(headers).value, tweetId)
    ensures var deleted := DeleteTweetOutcome(created, headers, tweetId, pick);
      deleted.1 == Ok(ResultTrue()) && deleted.0.tweets == d.tweets && deleted.0.likes == d.likes
  {
    var deleted := DeleteTweetOutcome(created, headers, tweetId, pick);
    assert deleted.0 == DeleteTweetRow(created, tweetId);
    assert forall e :: e in d.likes ==> e.1 != tweetId;
  }

  /** Over empty tables the feed is `{"result": true, "tweets": []}`. */
  lemma EmptyStoreGivesEmptyFeed(headers: Headers, pick: nat -> nat)
    requires GetApiKey(headers).Ok?
    ensures var res := GetAllTweetsOutcome(Empty(), headers, pick);
      res.1 == Ok(TweetsResponse([])) && RowsOf(res.0) == RowsOf(Empty())
  {
    assert |Feed(Empty())| == 0;
  }
}
