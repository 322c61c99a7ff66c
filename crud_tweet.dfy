/** `backend/api/db/crud/tweet.py`: tweet lookup, the ordered feed, and the insert. */
module TweetCrud {
  import opened Wrappers
  import opened Errors
  import opened Models
  import opened Store

  /** `select_tweet_by_id`: the tweet with that id, or None. */
  function SelectTweetById(d: Db, tweetId: int): (r: Option<Tweet>)
    requires Valid(d)
    ensures r.Some? <==> tweetId in d.tweets
    ensures r.Some? ==> r.value.id == tweetId && d.tweets[tweetId] == r.value
  {
    if tweetId in d.tweets then Some(d.tweets[tweetId]) else None
  }

  /** The tweets with the given ids, in the same order. */
  function TweetsIn(d: Db, ids: seq<int>): (r: seq<Tweet>)
    requires forall k :: 0 <= k < |ids| ==> ids[k] in d.tweets
    ensures |r| == |ids| && forall k :: 0 <= k < |ids| ==> r[k] == d.tweets[ids[k]]
  {
    seq(|ids|, k requires 0 <= k < |ids| => d.tweets[ids[k]])
  }

  /** `select_all_tweets`: every stored tweet exactly once, by ascending id. */
  function SelectAllTweets(d: Db): (r: seq<Tweet>)
    requires Valid(d)
    ensures forall t :: t in r <==> t.id in d.tweets && d.tweets[t.id] == t
    ensures forall i, j :: 0 <= i < j < |r| ==> r[i].id < r[j].id
    ensures |r| == |d.tweets|
  {
    TweetsInOrder(d);
    TweetsIn(d, InOrder(d.tweets.Keys, d.nextTweetId))
  }

  /** The stored tweet ids, ascending. */
  function OrderedTweetIds(d: Db): (ids: seq<int>)
    requires TweetsValid(d)
    ensures forall k :: 0 <= k < |ids| ==> ids[k] in d.tweets
    ensures forall x :: x in ids <==> x in d.tweets
    ensures forall i, j :: 0 <= i < j < |ids| ==> ids[i] < ids[j]
  {
    var ids := InOrder(d.tweets.Keys, d.nextTweetId);
    assert forall k :: 0 <= k < |ids| ==> ids[k] in ids;
    ids
  }

  /** Ordering the keys of `tweets` lists every tweet once, by ascending id. */
  lemma TweetsInOrder(d: Db)
    requires TweetsValid(d)
    ensures forall k :: 0 <= k < |InOrder(d.tweets.Keys, d.nextTweetId)| ==> InOrder(d.tweets.Keys, d.nextTweetId)[k] in d.tweets
    ensures forall t :: t in TweetsIn(d, InOrder(d.tweets.Keys, d.nextTweetId)) <==> t.id in d.tweets && d.tweets[t.id] == t
    ensures forall i, j :: 0 <= i < j < |TweetsIn(d, InOrder(d.tweets.Keys, d.nextTweetId))| ==>
      TweetsIn(d, InOrder(d.tweets.Keys, d.nextTweetId))[i].id < TweetsIn(d, InOrder(d.tweets.Keys, d.nextTweetId))[j].id
    ensures |TweetsIn(d, InOrder(d.tweets.Keys, d.nextTweetId))| == |d.tweets|
  {
    var ids := OrderedTweetIds(d);
    OrderedTweetsMembers(d, ids);
    OrderedTweetsSorted(d, ids);
    DistinctIdsCount(d.tweets.Keys, ids);
  }

  lemma OrderedTweetsMembers(d: Db, ids: seq<int>)
    requires TweetsValid(d) && ids == OrderedTweetIds(d)
    ensures forall t :: t in TweetsIn(d, ids) <==> t.id in d.tweets && d.tweets[t.id] == t
  {
    var r := TweetsIn(d, ids);
    forall t | t in r
      ensures t.id in d.tweets && d.tweets[t.id] == t
    {
      var k :| 0 <= k < |r| && r[k] == t;
    }
    forall t: Tweet | t.id in d.tweets && d.tweets[t.id] == t
      ensures t in r
    {
      var k :| 0 <= k < |ids| && ids[k] == t.id;
      assert r[k] == t;
    }
  }

  lemma OrderedTweetsSorted(d: Db, ids: seq<int>)
    requires TweetsValid(d) && ids == OrderedTweetIds(d)
    ensures forall i, j :: 0 <= i < j < |TweetsIn(d, ids)| ==> TweetsIn(d, ids)[i].id < TweetsIn(d, ids)[j].id
  {
  }

  /** Listing the members of `keys` once each: as many entries as members. */
  lemma DistinctIdsCount(keys: set<int>, ids: seq<int>)
    requires forall x :: x in ids <==> x in keys
    requires forall i, j :: 0 <= i < j < |ids| ==> ids[i] < ids[j]
    ensures |ids| == |keys|
  {
    var listed := set x | x in ids;
    forall x ensures x in listed <==> x in keys {
    }
    assert listed == keys;
    DistinctSeqSize(ids);
  }

  /** A strictly increasing sequence has as many elements as its set. */
  lemma {:induction false} DistinctSeqSize(ids: seq<int>)
    requires forall i, j :: 0 <= i < j < |ids| ==> ids[i] < ids[j]
    ensures |set x | x in ids| == |ids|
  {
    if |ids| > 0 {
      var rest := ids[1..];
      DistinctSeqSize(rest);
      assert (set x | x in ids) == (set x | x in rest) + {ids[0]};
      assert ids[0] !in rest;
    }
  }

  /**
   * The effect of `add_tweet`'s flush: content over `String(500)` or an
   * author that is not a stored user makes it raise and insert nothing;
   * otherwise the row gets the next id of the sequence.
   */
  function AddTweetOutcome(d: Db, content: string, attachments: seq<string>, author: User): (res: (Db, Result<int, Error>))
    requires Valid(d)
    ensures Valid(res.0)
    ensures res.1.Ok? <==> |content| <= MaxContentLength && author.id in d.users
    ensures res.1.Err? ==> res.0 == d
    ensures res.1.Ok? ==>
      && res.1.value == d.nextTweetId
      && (forall id :: id in d.tweets ==> id < res.1.value)
      && res.0 == d.(tweets := d.tweets[res.1.value := Tweet(res.1.value, content, attachments, Some(author.id))],
                     nextTweetId := d.nextTweetId + 1)
  {
    if |content| > MaxContentLength then (d, Err(DataError))
    else if author.id !in d.users then (d, Err(IntegrityError))
    else
      var t := Tweet(d.nextTweetId, content, attachments, Some(author.id));
      (d.(tweets := d.tweets[t.id := t], nextTweetId := d.nextTweetId + 1), Ok(t.id))
  }

  /** `add_tweet`: builds the row, adds it to the session, flushes, returns the id. */
  method AddTweet(session: Session, tweetData: string, attachments: seq<string>, user: User) returns (r: Result<int, Error>)
    requires Valid(session.State())
    modifies session
    ensures (session.State(), r) == AddTweetOutcome(old(session.State()), tweetData, attachments, user)
  {
    if |tweetData| > MaxContentLength {
      return Err(DataError);
    }
    if user.id !in session.users {
      return Err(IntegrityError);
    }
    var newTweet := Tweet(session.nextTweetId, tweetData, attachments, Some(user.id));
    session.tweets := session.tweets[newTweet.id := newTweet];
    session.nextTweetId := session.nextTweetId + 1;
    r := Ok(newTweet.id);
  }

  /** With no tweets stored the feed is empty. */
  lemma NoTweetsGiveEmptyFeed(d: Db)
    requires Valid(d) && d.tweets == map[]
    ensures SelectAllTweets(d) == []
  {
  }
}
