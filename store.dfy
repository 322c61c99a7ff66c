/**
 * The relational store reached through a SQLAlchemy session, as maps and
 * edge sets: users, tweets and media keyed by id; the `followers`
 * association as (follower_id, followed_id) pairs; the `likes` association
 * as (user_id, tweet_id) pairs; and the three auto-increment sequences.
 */
module Store {
  import opened Wrappers
  import opened Models

  datatype Db = Db(
    users: map<int, User>,
    tweets: map<int, Tweet>,
    media: map<int, Media>,
    followers: set<(int, int)>,
    likes: set<(int, int)>,
    nextUserId: int,
    nextTweetId: int,
    nextMediaId: int)

  /**
   * The rows of the store: what a transaction commits or rolls back.
   * The id sequences are not part of it: PostgreSQL does not roll back
   * a sequence value that a failed transaction consumed.
   */
  datatype Rows = Rows(
    users: map<int, User>,
    tweets: map<int, Tweet>,
    media: map<int, Media>,
    followers: set<(int, int)>,
    likes: set<(int, int)>)

  function RowsOf(d: Db): Rows
  {
    Rows(d.users, d.tweets, d.media, d.followers, d.likes)
  }

  /** Rolling back to `saved`: the rows return, the sequences keep their place. */
  function Restore(d: Db, saved: Rows): (r: Db)
    ensures RowsOf(r) == saved
    ensures r.nextUserId == d.nextUserId && r.nextTweetId == d.nextTweetId && r.nextMediaId == d.nextMediaId
  {
    Db(saved.users, saved.tweets, saved.media, saved.followers, saved.likes,
       d.nextUserId, d.nextTweetId, d.nextMediaId)
  }

  /** Rolling back to a valid store keeps it valid, whatever the sequences consumed meanwhile. */
  lemma RestoreIsValid(d: Db, later: Db)
    requires Valid(d)
    requires d.nextUserId <= later.nextUserId && d.nextTweetId <= later.nextTweetId && d.nextMediaId <= later.nextMediaId
    ensures Valid(Restore(later, RowsOf(d)))
  {
  }

  /** Freshly created tables: no rows, every sequence starts at 1. */
  function Empty(): Db
  {
    Db(map[], map[], map[], {}, {}, 1, 1, 1)
  }

  ghost predicate UsersValid(d: Db)
  {
    && (forall id :: id in d.users ==>
          1 <= id < d.nextUserId && d.users[id].id == id && |d.users[id].name| <= MaxNameLength)
    && (forall a, b :: a in d.users && b in d.users && d.users[a].key == d.users[b].key ==> a == b)
  }

  ghost predicate TweetsValid(d: Db)
  {
    forall id :: id in d.tweets ==>
      && 1 <= id < d.nextTweetId
      && d.tweets[id].id == id
      && |d.tweets[id].content| <= MaxContentLength
      && d.tweets[id].authorId.Some? && d.tweets[id].authorId.value in d.users
  }

  ghost predicate MediaValid(d: Db)
  {
    forall id :: id in d.media ==>
      && 1 <= id < d.nextMediaId
      && d.media[id].id == id
      && (d.media[id].uploaderId.Some? ==> d.media[id].uploaderId.value in d.users)
  }

  ghost predicate EdgesValid(d: Db)
  {
    && (forall e :: e in d.followers ==> e.0 in d.users && e.1 in d.users)
    && (forall e :: e in d.likes ==> e.0 in d.users && e.1 in d.tweets)
  }

  /**
   * The table constraints: primary keys below their sequence, unique
   * non-null user keys, the `String(25)` and `String(500)` limits, and
   * foreign keys that point at existing rows.
   */
  ghost predicate Valid(d: Db)
  {
    && 1 <= d.nextUserId && 1 <= d.nextTweetId && 1 <= d.nextMediaId
    && UsersValid(d) && TweetsValid(d) && MediaValid(d) && EdgesValid(d)
  }

  lemma EmptyIsValid()
    ensures Valid(Empty())
  {
  }

  /** The members of `s` in `[0, n)`, in ascending order: `ORDER BY id`. */
  function InOrder(s: set<int>, n: int): (r: seq<int>)
    decreases n
    ensures forall x :: x in r <==> x in s && 0 <= x < n
    ensures forall i, j :: 0 <= i < j < |r| ==> r[i] < r[j]
  {
    if n <= 0 then []
    else
      var prefix := InOrder(s, n - 1);
      assert forall i :: 0 <= i < |prefix| ==> prefix[i] in prefix;
      prefix + (if n - 1 in s then [n - 1] else [])
  }

  /** Nothing to list gives the empty listing. */
  lemma {:induction false} InOrderOfNothing(n: int)
    decreases n
    ensures InOrder({}, n) == []
  {
    if n > 0 {
      InOrderOfNothing(n - 1);
    }
  }

  /** The users with the given ids, in the same order. */
  function UsersIn(d: Db, ids: seq<int>): (r: seq<User>)
    requires forall k :: 0 <= k < |ids| ==> ids[k] in d.users
    ensures |r| == |ids| && forall k :: 0 <= k < |ids| ==> r[k] == d.users[ids[k]]
  {
    seq(|ids|, k requires 0 <= k < |ids| => d.users[ids[k]])
  }

  /** Users that two stores agree on are listed alike by both. */
  lemma UsersInAgree(d: Db, d1: Db, ids: seq<int>)
    requires forall k :: 0 <= k < |ids| ==> ids[k] in d.users
    requires forall id :: id in d.users ==> id in d1.users && d1.users[id] == d.users[id]
    ensures forall k :: 0 <= k < |ids| ==> ids[k] in d1.users
    ensures UsersIn(d1, ids) == UsersIn(d, ids)
  {
    forall k | 0 <= k < |ids|
      ensures ids[k] in d1.users && d1.users[ids[k]] == d.users[ids[k]]
    {
      var id := ids[k];
      assert id in d.users;
    }
    assert forall k :: 0 <= k < |ids| ==> UsersIn(d1, ids)[k] == UsersIn(d, ids)[k];
  }

  /** Raising the bound past every member does not change the ordered listing. */
  lemma {:induction false} InOrderBound(s: set<int>, n: int, m: int)
    requires n <= m
    requires forall x :: x in s ==> x < n
    ensures InOrder(s, m) == InOrder(s, n)
    decreases m - n
  {
    if n < m {
      InOrderBound(s, n, m - 1);
      assert m - 1 !in s;
      assert m > 0 ==> InOrder(s, m) == InOrder(s, m - 1) + [];
    }
  }

  /** With the ids drawn from `s`, a user is listed exactly when its id is in `s`. */
  lemma UsersInOrder(d: Db, s: set<int>)
    requires UsersValid(d)
    requires s <= d.users.Keys
    ensures forall k :: 0 <= k < |InOrder(s, d.nextUserId)| ==> InOrder(s, d.nextUserId)[k] in d.users
    ensures forall w :: w in UsersIn(d, InOrder(s, d.nextUserId)) <==> w.id in s && d.users[w.id] == w
  {
    var ids := InOrder(s, d.nextUserId);
    assert forall k :: 0 <= k < |ids| ==> ids[k] in ids;
    var r := UsersIn(d, ids);
    forall w | w in r
      ensures w.id in s && d.users[w.id] == w
    {
      var k :| 0 <= k < |r| && r[k] == w;
      assert ids[k] in ids;
    }
    forall w: User | w.id in s && d.users[w.id] == w
      ensures w in r
    {
      assert w.id in ids;
      var k :| 0 <= k < |ids| && ids[k] == w.id;
      assert r[k] == w;
    }
  }

  /** The ids of the users who follow `id`. */
  function FollowerIds(d: Db, id: int): set<int>
  {
    set e | e in d.followers && e.1 == id :: e.0
  }

  /** The ids of the users `id` follows: the `following` backref. */
  function FollowingIds(d: Db, id: int): set<int>
  {
    set e | e in d.followers && e.0 == id :: e.1
  }

  /** The ids of the users who liked tweet `id`. */
  function LikerIds(d: Db, id: int): set<int>
  {
    set e | e in d.likes && e.1 == id :: e.0
  }

  /** A user loaded with its followers and following, ordered by id. */
  function LoadUser(d: Db, u: User): (v: UserView)
    requires Valid(d)
    ensures v.user == u
    ensures forall w :: w in v.followers <==> w.id in d.users && d.users[w.id] == w && (w.id, u.id) in d.followers
    ensures forall w :: w in v.following <==> w.id in d.users && d.users[w.id] == w && (u.id, w.id) in d.followers
  {
    assert forall x :: x in FollowerIds(d, u.id) <==> (x, u.id) in d.followers by {
      forall x | (x, u.id) in d.followers ensures x in FollowerIds(d, u.id) {
        var e := (x, u.id);
        assert e in d.followers && e.1 == u.id;
      }
    }
    assert forall x :: x in FollowingIds(d, u.id) <==> (u.id, x) in d.followers by {
      forall x | (u.id, x) in d.followers ensures x in FollowingIds(d, u.id) {
        var e := (u.id, x);
        assert e in d.followers && e.0 == u.id;
      }
    }
    UsersInOrder(d, FollowerIds(d, u.id));
    UsersInOrder(d, FollowingIds(d, u.id));
    var fs := InOrder(FollowerIds(d, u.id), d.nextUserId);
    var gs := InOrder(FollowingIds(d, u.id), d.nextUserId);
    UserView(u, UsersIn(d, fs), UsersIn(d, gs))
  }

  /** A tweet loaded with its author and likers, likers ordered by id. */
  function LoadTweet(d: Db, t: Tweet): (v: TweetView)
    requires Valid(d)
    ensures v.tweet == t
    ensures v.author == if t.authorId.Some? && t.authorId.value in d.users then Some(d.users[t.authorId.value]) else None
    ensures forall w :: w in v.likes <==> w.id in d.users && d.users[w.id] == w && (w.id, t.id) in d.likes
  {
    var author := if t.authorId.Some? && t.authorId.value in d.users then Some(d.users[t.authorId.value]) else None;
    assert forall x :: x in LikerIds(d, t.id) <==> (x, t.id) in d.likes by {
      forall x | (x, t.id) in d.likes ensures x in LikerIds(d, t.id) {
        var e := (x, t.id);
        assert e in d.likes && e.1 == t.id;
      }
    }
    UsersInOrder(d, LikerIds(d, t.id));
    TweetView(t, author, UsersIn(d, InOrder(LikerIds(d, t.id), d.nextUserId)))
  }

  /**
   * The session: the store as the handlers see it. Its fields are the
   * tables; the data-access functions and the routes change them in place.
   */
  class Session {
    var users: map<int, User>
    var tweets: map<int, Tweet>
    var media: map<int, Media>
    var followers: set<(int, int)>
    var likes: set<(int, int)>
    var nextUserId: int
    var nextTweetId: int
    var nextMediaId: int

    /** The store as a value. */
    function State(): Db
      reads this
    {
      Db(users, tweets, media, followers, likes, nextUserId, nextTweetId, nextMediaId)
    }

    /** A session over freshly created tables. */
    constructor ()
      ensures State() == Empty()
    {
      users, tweets, media := map[], map[], map[];
      followers, likes := {}, {};
      nextUserId, nextTweetId, nextMediaId := 1, 1, 1;
    }

    /** `session.begin()`: remembers the rows a rollback returns to. */
    method Begin() returns (saved: Rows)
      ensures saved == RowsOf(State())
    {
      saved := Rows(users, tweets, media, followers, likes);
    }

    /** The rollback that an exception inside `begin()` causes. */
    method Rollback(saved: Rows)
      modifies this
      ensures State() == Restore(old(State()), saved)
    {
      users, tweets, media := saved.users, saved.tweets, saved.media;
      followers, likes := saved.followers, saved.likes;
    }
  }
}
