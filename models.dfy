/**
 * The ORM models of `backend/api/db/models.py`: the three tables, the
 * column limits, and the conversions of loaded objects into the JSON-like
 * dictionaries that the routes return.
 */
module Models {
  import opened Wrappers

  const MaxNameLength := 25
  const MaxContentLength := 500

  /** A row of `users`. */
  datatype User = User(id: int, key: string, name: string)

  /** A row of `tweets`; `attachments` holds link strings copied at creation. */
  datatype Tweet = Tweet(id: int, content: string, attachments: seq<string>, authorId: Option<int>)

  /** A row of `media`. */
  datatype Media = Media(id: int, fileName: string, uploaderId: Option<int>, link: string)

  /** The dictionaries, lists and scalars a response is built from. */
  datatype Json =
    | JNull
    | JBool(b: bool)
    | JInt(i: int)
    | JStr(s: string)
    | JArr(items: seq<Json>)
    | JObj(fields: map<string, Json>)

  /** The keys of a dictionary (none for any other value). */
  function Keys(j: Json): set<string>
  {
    if j.JObj? then j.fields.Keys else {}
  }

  /** `j.get(k)`. */
  function Field(j: Json, k: string): Option<Json>
  {
    if j.JObj? && k in j.fields then Some(j.fields[k]) else None
  }

  /** A user object together with the relations an eager load brings along. */
  datatype UserView = UserView(user: User, followers: seq<User>, following: seq<User>)

  /** A tweet object together with its loaded author and likers. */
  datatype TweetView = TweetView(tweet: Tweet, author: Option<User>, likes: seq<User>)

  /** `j` is the brief form of `u` whose id sits under `idKey`. */
  predicate IsBrief(j: Json, u: User, idKey: string)
  {
    && Keys(j) == {idKey, "name"}
    && Field(j, idKey) == Some(JInt(u.id))
    && Field(j, "name") == Some(JStr(u.name))
  }

  /** `j` is a list holding the brief form of each of `us`, in order. */
  predicate IsBriefList(j: Json, us: seq<User>, idKey: string)
  {
    && j.JArr?
    && |j.items| == |us|
    && forall i :: 0 <= i < |us| ==> IsBrief(j.items[i], us[i], idKey)
  }

  /** `User.to_repr`: the brief form keyed `user_id`. */
  function ToRepr(u: User): (r: Json)
    ensures IsBrief(r, u, "user_id")
  {
    JObj(map["user_id" := JInt(u.id), "name" := JStr(u.name)])
  }

  /** `User.alt_to_repr`: the brief form keyed `id`. */
  function AltToRepr(u: User): (r: Json)
    ensures IsBrief(r, u, "id")
  {
    JObj(map["id" := JInt(u.id), "name" := JStr(u.name)])
  }

  /** `User.to_dict`: the detailed form with both relation lists. */
  function UserToDict(v: UserView): (r: Json)
    ensures Keys(r) == {"id", "name", "followers", "following"}
    ensures Field(r, "id") == Some(JInt(v.user.id))
    ensures Field(r, "name") == Some(JStr(v.user.name))
    ensures Field(r, "followers").Some? && IsBriefList(Field(r, "followers").value, v.followers, "id")
    ensures Field(r, "following").Some? && IsBriefList(Field(r, "following").value, v.following, "id")
  {
    var followers :=
      if |v.followers| > 0 then seq(|v.followers|, i requires 0 <= i < |v.followers| => AltToRepr(v.followers[i]))
      else [];
    var following :=
      if |v.following| > 0 then seq(|v.following|, i requires 0 <= i < |v.following| => AltToRepr(v.following[i]))
      else [];
    JObj(map["id" := JInt(v.user.id), "name" := JStr(v.user.name),
             "followers" := JArr(followers), "following" := JArr(following)])
  }

  /** `Tweet.to_dict`: author in the `id` shape, likers in the `user_id` shape. */
  function TweetToDict(v: TweetView): (r: Json)
    ensures Keys(r) == {"id", "content", "attachments", "author", "likes"}
    ensures Field(r, "id") == Some(JInt(v.tweet.id))
    ensures Field(r, "content") == Some(JStr(v.tweet.content))
    ensures Field(r, "attachments").Some? && IsStringList(Field(r, "attachments").value, v.tweet.attachments)
    ensures v.author.None? ==> Field(r, "author") == Some(JNull)
    ensures v.author.Some? ==> Field(r, "author").Some? && IsBrief(Field(r, "author").value, v.author.value, "id")
    ensures Field(r, "likes").Some? && IsBriefList(Field(r, "likes").value, v.likes, "user_id")
  {
    var author := if v.author.Some? then AltToRepr(v.author.value) else JNull;
    var likes :=
      if |v.likes| > 0 then seq(|v.likes|, i requires 0 <= i < |v.likes| => ToRepr(v.likes[i]))
      else [];
    var attachments := seq(|v.tweet.attachments|, i requires 0 <= i < |v.tweet.attachments| => JStr(v.tweet.attachments[i]));
    JObj(map["id" := JInt(v.tweet.id), "content" := JStr(v.tweet.content),
             "attachments" := JArr(attachments), "author" := author, "likes" := JArr(likes)])
  }

  /** `j` is the list of strings `ss`, unchanged. */
  predicate IsStringList(j: Json, ss: seq<string>)
  {
    j.JArr? && |j.items| == |ss| && forall i :: 0 <= i < |ss| ==> j.items[i] == JStr(ss[i])
  }
}

/** Properties of the response shapes. */
module ModelsFacts {
  import opened Wrappers
  import opened Models

  /** Empty relations render as an empty list, never as null. */
  lemma EmptyRelationsRenderAsEmptyLists(v: UserView)
    requires |v.followers| == 0 && |v.following| == 0
    ensures Field(UserToDict(v), "followers") == Some(JArr([]))
    ensures Field(UserToDict(v), "following") == Some(JArr([]))
  {
  }

  /** A tweet nobody liked renders `likes` as an empty list. */
  lemma NoLikesRenderAsEmptyList(v: TweetView)
    requires |v.likes| == 0
    ensures Field(TweetToDict(v), "likes") == Some(JArr([]))
  {
  }

  /**
   * The two brief shapes carry the same id and name under different keys,
   * so no brief form of one shape equals a brief form of the other.
   */
  lemma BriefShapesDiffer(u: User, w: User)
    ensures Field(ToRepr(u), "user_id") == Field(AltToRepr(u), "id") == Some(JInt(u.id))
    ensures Field(ToRepr(u), "name") == Field(AltToRepr(u), "name")
    ensures ToRepr(u) != AltToRepr(w)
  {
    assert "user_id" in Keys(ToRepr(u));
    assert "user_id" !in Keys(AltToRepr(w));
  }
}
