# fastapi-twitter-clone: a verified model of the backend core

This project models the backend of a small microblog in Dafny: users who follow each other, tweets with attachments and likes, and uploaded media. It also models the frontend's navigation guard. The database is a value:

- users, tweets and media are maps keyed by id;
- the `followers` and `likes` association tables are sets of id pairs;
- the three auto-increment sequences are counters.

`Store.Valid` states the table constraints:

- primary keys sit below their sequence;
- user keys are unique and present;
- names are at most 25 characters and tweet content at most 500;
- foreign keys point at stored rows.

Each request handler is an imperative method on a `Store.Session`, whose fields are the tables. It follows the handler step by step:

1. resolve the caller by its `api-key`, and register a new caller under a generated name;
2. check the guards;
3. apply the change.

Each such method is proved equal to a function `…Outcome` of the store before the request. That function gives the store after the request and the reply. Lemmas about those functions state what the routes promise:

- the 403/404/405 conditions;
- the exact change made on success;
- "an error leaves every row as it was";
- round trips such as like-then-unlike and follow-then-unfollow.

`session.begin()` is a snapshot of the rows, and an exception rolls back to that snapshot. The id sequences are not rolled back, just as PostgreSQL does not return a consumed sequence value. So after an error the rows are unchanged, but a registration that was rolled back may still have moved the user counter.

The responses are JSON values, built by the `to_dict`/`to_repr`/`alt_to_repr` conversions. Object fields are a map, so key order is not modelled.

The application lifecycle is modelled as well:

- the `DatabaseSessionManager` is a class with its two nullable handles;
- the startup and shutdown hooks are methods over it;
- the image directory is a class holding a map from file name to bytes.

The frontend router's `beforeEach` and `loginGuardian` are pure decision functions.

Randomness, headers and the request are parameters:

- `generate_random_string` takes its fourteen draws from `pick`;
- headers are a map from lower-case name to value;
- the request is its scheme and its client host.

`add_media`'s docstring calls its `host` parameter the host of the server, but `load_media` passes `request.client.host`, the address of the client. The model follows the code, so a stored link names the client's host.

## Model

| member | source | states |
|---|---|---|
| Models.ToRepr | backend/api/db/models.py:110-117 | the brief user shape keyed `user_id`, carrying the user's id and name and nothing else |
| Models.AltToRepr | backend/api/db/models.py:119-126 | the brief user shape keyed `id`, carrying the user's id and name and nothing else |
| Models.UserToDict | backend/api/db/models.py:88-108 | the detailed user dict has exactly the keys id, name, followers, following; each followers/following entry is the `{id, name}` shape of the corresponding user, in order |
| Models.TweetToDict | backend/api/db/models.py:171-189 | the tweet dict has exactly id, content, attachments, author, likes; attachments pass through unchanged; author is null without an author and otherwise `{id, name}`; likers use the `{user_id, name}` shape |
| ModelsFacts.EmptyRelationsRenderAsEmptyLists | backend/api/db/models.py:94-102 | a user without followers or following renders both as `[]`, not null |
| ModelsFacts.NoLikesRenderAsEmptyList | backend/api/db/models.py:178-182 | a tweet nobody liked renders `likes` as `[]` |
| ModelsFacts.BriefShapesDiffer | backend/api/db/models.py:117-126 | both brief shapes carry the same id and name, yet a `to_repr` value never equals an `alt_to_repr` value |
| Store.Restore | backend/api/routes/tweet.py:94-116 | rolling back returns exactly the saved rows and leaves the id sequences where they were |
| Store.RestoreIsValid | backend/api/core/base.py:131-135 | rolling back to the rows of a valid store, with the sequences only ever advanced, satisfies every constraint again |
| Store.EmptyIsValid | backend/api/db/models.py:54-77 | freshly created tables satisfy every constraint |
| Store.InOrder | backend/api/db/crud/tweet.py:44-50 | `ORDER BY id`: lists exactly the members of a set of ids, strictly ascending |
| Store.LoadUser | backend/api/db/models.py:79-86 | a user's followers are exactly the stored users with a `followers` row towards it, and its following exactly those it has a row towards (the backref) |
| Store.LoadTweet | backend/api/db/models.py:160-169 | a tweet's author is the stored user with its `author_id`, and its likers exactly the stored users with a `likes` row for it |
| Store.Session.constructor | backend/api/db/models.py:54-77 | a session over freshly created tables: no rows, every sequence at 1 |
| Store.Session.Begin | backend/api/routes/tweet.py:94 | `session.begin()` remembers the current rows |
| Store.Session.Rollback | backend/api/core/base.py:131-135 | a rollback restores the remembered rows and keeps the sequences |
| UserCrud.SelectUserByKey | backend/api/db/crud/user.py:13-44 | None exactly when no stored user has the key; otherwise the one stored user with that key |
| UserCrud.SelectUserById | backend/api/db/crud/user.py:47-76 | the stored user with that id, or None exactly when there is none |
| UserCrud.AddUserOutcome | backend/api/db/crud/user.py:79-96 | succeeds exactly when the name fits `String(25)` and the key is unused; then inserts a user with exactly that key and name under the next id, which no user had; a failed flush inserts nothing |
| UserCrud.AddUser | backend/api/db/crud/user.py:93-96 | the insert as a session update, proved equal to `AddUserOutcome` |
| UserCrud.AddedUserIsFoundByKey | backend/api/db/crud/user.py:93-96 | after `add_user(k, n)`, looking up `k` finds the new user, and lookups of other keys and of existing ids are unchanged |
| Identity.Resolve | backend/api/routes/tweet.py:49-55 | a known key resolves to its user and changes nothing; an unseen key registers a user with that key, a generated name and the next id; either way the caller is then found by its key |
| Identity.ResolveOrRegister | backend/api/routes/user.py:44-50 | the inline lookup-or-register as a session update, proved equal to `Resolve` |
| Identity.ResolveIsIdempotent | backend/api/routes/user.py:143-155 | resolving a second time registers nobody and returns the same caller |
| TweetCrud.SelectTweetById | backend/api/db/crud/tweet.py:13-31 | the stored tweet with that id, or None exactly when there is none |
| TweetCrud.SelectAllTweets | backend/api/db/crud/tweet.py:34-50 | every stored tweet exactly once, as stored, strictly ascending by id |
| TweetCrud.OrderedTweetIds | backend/api/db/crud/tweet.py:45-50 | the ids `ORDER BY id` visits are exactly the stored tweet ids, strictly ascending |
| TweetCrud.NoTweetsGiveEmptyFeed | backend/tests/integration/tweets/test_get_all_tweets.py:1-3 | with no tweets stored the listing is empty |
| TweetCrud.AddTweetOutcome | backend/api/db/crud/tweet.py:53-75 | content over 500 characters raises `DataError` and an author not stored raises `IntegrityError`, both inserting nothing; otherwise inserts a tweet with exactly that content, attachments and author under a new id above every existing id, and returns it |
| TweetCrud.AddTweet | backend/api/db/crud/tweet.py:68-75 | the insert as a session update, proved equal to `AddTweetOutcome` |
| MediaCrud.GetAttachmentsLinksByIds | backend/api/db/crud/media.py:12-34 | the filtering loop returns the links of the ids that have a media row, in input order |
| MediaCrud.AttachmentLinksAppend | backend/api/db/crud/media.py:26-33 | one more id appends that id's link, or nothing when it has no row |
| MediaCrud.AttachmentLinksLength | backend/api/db/crud/media.py:32-33 | ids without a row are skipped: never more links than ids |
| MediaCrud.AttachmentLinksMembers | backend/api/db/crud/media.py:25-34 | a string is among the links exactly when some listed id has a row with that link |
| MediaCrud.AttachmentLinksOfSingletons | backend/api/db/crud/media.py:26-33 | empty input gives `[]`, an unknown id is skipped, a repeated id repeats its link |
| MediaCrud.MediaLink | backend/api/db/crud/media.py:60-64 | the link is scheme + "://" + host + "/api/images/" + file name |
| MediaCrud.LinkNamesItsFile | backend/api/db/crud/media.py:60-64 | a stored link leads back to the file name it was built from |
| MediaCrud.AddMediaOutcome | backend/api/db/crud/media.py:37-68 | an uploader that is not stored raises `IntegrityError`; otherwise inserts a row with the file name, the uploader (or none) and the link under the next id, and returns that id |
| MediaCrud.AddMedia | backend/api/db/crud/media.py:57-68 | the insert as a session update, proved equal to `AddMediaOutcome` |
| MediaCrud.FirstMediaGetsIdOne | backend/tests/integration/media/test_load_media.py:4-11 | the first media of empty tables gets id 1 |
| TweetRoutes.TweetAttachments | backend/api/routes/tweet.py:57-62 | missing or empty media ids give no attachments, otherwise the resolved links |
| TweetRoutes.CreateTweetOutcome | backend/api/routes/tweet.py:29-71 | no key: 403 and nothing changes; with a key it succeeds exactly when the content fits 500 characters; success replies with the new id, above every existing id, adds exactly that tweet authored by the resolved caller, and keeps a new caller registered; `DataError` rolls back every row |
| TweetRoutes.CreateTweet | backend/api/routes/tweet.py:46-71 | the handler, proved equal to `CreateTweetOutcome` |
| TweetRoutes.DeleteTweetRow | backend/api/routes/tweet.py:116 | deleting a tweet removes that tweet and exactly its `likes` rows and nothing else |
| TweetRoutes.DeleteTweetOutcome | backend/api/routes/tweet.py:74-118 | 404 for a missing tweet, 403 when the caller is not its author, both leaving every row; otherwise removes only that tweet and its likes |
| TweetRoutes.DeleteTweet | backend/api/routes/tweet.py:94-118 | the handler, proved equal to `DeleteTweetOutcome` |
| TweetRoutes.LikeTweetOutcome | backend/api/routes/tweet.py:121-168 | 404 for a missing tweet, 405 when the caller already liked it, both leaving every row; otherwise adds exactly the caller's like and replies `{result: true}` |
| TweetRoutes.WithLike | backend/api/routes/tweet.py:166-167 | appending the caller to `tweet.likes` adds exactly that one `likes` row, changes nothing else and keeps every constraint |
| TweetRoutes.LikeTweet | backend/api/routes/tweet.py:143-168 | the handler, proved equal to `LikeTweetOutcome` |
| TweetRoutes.UnlikeTweetOutcome | backend/api/routes/tweet.py:171-214 | 404 for a missing tweet, 405 when the caller has not liked it, both leaving every row; otherwise removes exactly the caller's like and changes nothing else |
| TweetRoutes.WithoutLike | backend/api/routes/tweet.py:212-213 | removing the caller from `tweet.likes` removes exactly that `likes` row, changes nothing else and keeps every constraint |
| TweetRoutes.UnlikeTweet | backend/api/routes/tweet.py:190-214 | the handler, proved equal to `UnlikeTweetOutcome` |
| TweetRoutes.Feed | backend/api/routes/tweet.py:236-237 | one `to_dict` per stored tweet, whose `id` field is entry by entry the id of the listing in ascending id order |
| TweetRoutes.GetAllTweetsOutcome | backend/api/routes/tweet.py:217-239 | never changes a row, since the lazily added caller is not committed; with a key it replies with every tweet in id order as `to_dict` renders it over the store before the request |
| TweetRoutes.GetAllTweets | backend/api/routes/tweet.py:232-239 | the handler, proved equal to `GetAllTweetsOutcome` |
| TweetRoutes.FeedIgnoresRegistration | backend/api/routes/tweet.py:232-237 | registering the caller does not change any tweet's rendering |
| TweetRoutes.FeedIgnoresNewUser | backend/api/routes/tweet.py:232-237 | a store that differs only by added users renders the same feed |
| TweetRoutes.LoadTweetIgnoresNewUser | backend/api/db/models.py:160-169 | a stored tweet loads with the same author and likers once further users are added |
| TweetRoutesFacts.LikeThenUnlikeRestoresLikes | backend/tests/integration/tweets/test_like_unlike_tweet.py:1-8 | like then unlike both reply `{result: true}` and restore the likes and the tweets |
| TweetRoutesFacts.SecondLikeIsRefused | backend/api/routes/tweet.py:160-164 | a second like of the same tweet is refused with 405 and changes no row |
| TweetRoutesFacts.NewCallerCannotUnlike | backend/api/routes/tweet.py:207-211 | an unseen caller has liked nothing, so unlike is refused with 405 and its registration rolled back |
| TweetRoutesFacts.SecondDeleteIsNotFound | backend/api/routes/tweet.py:103-108 | a deleted tweet is not found by a second delete |
| TweetRoutesFacts.CreatedTweetEndsTheFeed | backend/api/db/crud/tweet.py:44-50 | after a create, the listing has one more tweet, and its last entry is the new tweet with the caller as author |
| TweetRoutesFacts.CreateThenDeleteRestoresTweets | backend/tests/integration/tweets/test_delete_tweet.py:1-6 | the author deleting the tweet just created succeeds and brings tweets and likes back as they were |
| TweetRoutesFacts.CreatedTweetIsTheCallers | backend/api/routes/tweet.py:64-69 | a successful create adds exactly one tweet, authored by the resolved caller, and leaves the likes |
| TweetRoutesFacts.DeletingTheNewTweet | backend/api/routes/tweet.py:94-118 | its author deleting a tweet that was just added succeeds and leaves exactly the tweets and likes from before |
| TweetRoutesFacts.EmptyStoreGivesEmptyFeed | backend/tests/integration/tweets/test_get_all_tweets.py:1-3 | over empty tables the listing replies `{result: true, tweets: []}` and stores nothing |
| UserRoutes.ResolvedTarget | backend/api/routes/user.py:44-61 | the target exists after resolving exactly when it was stored or is the id an unseen caller receives |
| UserRoutes.WithFollow | backend/api/routes/user.py:69-70 | a follow adds exactly one `followers` row and keeps every constraint |
| UserRoutes.FollowUserOutcome | backend/api/routes/user.py:22-72 | 404 for a missing target, 405 when already following, both leaving every row; otherwise adds exactly the caller's row to the target's followers |
| UserRoutes.FollowUser | backend/api/routes/user.py:43-72 | the handler, proved equal to `FollowUserOutcome` |
| UserRoutes.UnfollowUserOutcome | backend/api/routes/user.py:75-125 | 404 for a missing target, 405 when not following, both leaving every row; otherwise removes exactly that row and changes nothing else |
| UserRoutes.WithoutFollow | backend/api/routes/user.py:122-123 | removing the caller from the target's followers removes exactly that `followers` row, changes nothing else and keeps every constraint |
| UserRoutes.UnfollowUser | backend/api/routes/user.py:96-125 | the handler, proved equal to `UnfollowUserOutcome` |
| UserRoutes.GetInfoAboutCurrentUserOutcome | backend/api/routes/user.py:128-158 | with a key it always succeeds, keeps the caller registered and replies with the caller's detailed dict |
| UserRoutes.GetInfoAboutCurrentUser | backend/api/routes/user.py:143-158 | the handler, proved equal to `GetInfoAboutCurrentUserOutcome` |
| UserRoutes.GetInfoAboutUserOutcome | backend/api/routes/user.py:161-202 | succeeds exactly when the target exists after resolving; 404 rolls every row back; success changes nothing beyond registering the caller and replies with the target's detailed dict |
| UserRoutes.GetInfoAboutUser | backend/api/routes/user.py:181-202 | the handler, proved equal to `GetInfoAboutUserOutcome` |
| UserRoutesFacts.FollowersMirrorFollowing | backend/api/db/models.py:79-86 | A is among B's followers exactly when B is among A's following |
| UserRoutesFacts.FollowThenUnfollowRestoresFollowers | backend/tests/integration/users/test_follow_unfollow_user.py:1-8 | follow then unfollow both succeed and restore the follower rows |
| UserRoutesFacts.SecondFollowIsRefused | backend/api/routes/user.py:63-67 | a second follow of the same user is refused with 405 and changes no row |
| UserRoutesFacts.FollowShowsInBothProfiles | backend/api/routes/user.py:69 | after a follow, the caller is among the target's followers and the target among the caller's following |
| UserRoutesFacts.SelfFollowIsAccepted | backend/api/routes/user.py:52-69 | self-follow is not rejected: a known caller following its own id succeeds |
| UserRoutesFacts.NewCallerHasEmptyProfile | backend/api/routes/user.py:143-158 | an unseen caller's profile has the next id, the generated name, and `[]` for followers and following |
| UserRoutesFacts.CurrentUserReadIsIdempotent | backend/api/routes/user.py:143-158 | reading one's own profile twice gives the same store and reply |
| UserRoutesFacts.FirstCallerIsUserOne | backend/tests/integration/users/test_get_info_about_user.py:7-10 | over empty tables the first caller becomes user 1, so asking for user 1 succeeds |
| MediaRoutes.ImageDirectory.Write | backend/api/routes/media.py:77-79 | writing with mode `wb+` creates or replaces exactly that file |
| MediaRoutes.GetImage | backend/api/routes/media.py:28-47 | the stored bytes exactly when the name exists, otherwise `FileNotFoundError` naming the file |
| MediaRoutes.LoadMediaOutcome | backend/api/routes/media.py:50-93 | no key: 403 and nothing is written; with a key the file is written under its name, a media row is added under the next id with the uploader found before registration (none for an unseen key), and the reply is `{result: true, media_id}` |
| MediaRoutes.LoadMedia | backend/api/routes/media.py:69-93 | the handler, writing the file before the transaction, proved equal to `LoadMediaOutcome` |
| MediaRoutes.UploadedImageIsServed | backend/tests/integration/media/test_load_image.py:4-10 | after an upload, fetching that name returns its bytes, and the stored link names that file |
| MediaRoutes.RefusedUploadWritesNothing | backend/api/routes/media.py:54 | an upload without a key writes neither the directory nor the store |
| MediaRoutes.ReuploadReplacesFile | backend/api/routes/media.py:77-79 | a second upload under one name replaces the file, keeps other files, and both media rows stay |
| MediaRoutes.OneUpload | backend/api/routes/media.py:77-91 | an upload with a key writes the file under its name and adds a media row under the next id with that file name, keeping every earlier media row |
| MediaRoutes.FirstUploadGetsMediaIdOne | backend/tests/integration/media/test_load_media.py:4-11 | the first upload into empty tables replies `{result: true, media_id: 1}` |
| ServiceFunctions.GetApiKey | backend/api/app_service/service_functions.py:44-64 | 403 "API key missing" exactly when the header is absent or empty; otherwise the header value unchanged |
| ServiceFunctions.GenerateRandomString | backend/api/app_service/service_functions.py:67-75 | exactly 14 characters, each in a–z |
| ServiceFunctions.EveryGeneratedNameIsReachable | backend/api/app_service/service_functions.py:74-75 | every 14-letter lower-case name is one some sequence of draws produces |
| ServiceFunctions.Startup | backend/api/app_service/service_functions.py:29-33 | startup raises the uninitialised error without an engine and otherwise reports whether it created the tables |
| ServiceFunctions.Shutdown | backend/api/app_service/service_functions.py:36-41 | shutdown never raises and leaves both handles None |
| SessionManager.DatabaseSessionManager.constructor | backend/api/core/base.py:32-35 | after `__init__` both handles are None |
| SessionManager.DatabaseSessionManager.Init | backend/api/core/base.py:37-48 | `init` sets the engine for the host and a non-autocommit factory bound to it |
| SessionManager.DatabaseSessionManager.Close | backend/api/core/base.py:76-89 | raises `RuntimeError` when there is no engine and changes nothing; otherwise both handles become None |
| SessionManager.DatabaseSessionManager.Connect | backend/api/core/base.py:91-112 | raises `RuntimeError` without an engine; otherwise opens a connection that commits when the body completes, and rolls back and re-raises when it raises |
| SessionManager.DatabaseSessionManager.Session | backend/api/core/base.py:114-137 | raises `RuntimeError` without a factory; otherwise opens a session, rolls back and re-raises when the body raises, and closes it last in every case |
| SessionManager.DatabaseSessionManager.Startup | backend/api/core/base.py:50-55 | raises without an engine; otherwise creates the tables exactly when they do not exist |
| Router.MatchPath | frontend/src/router/index.js:4-29 | with `createRouter`'s default non-strict, case-insensitive matching, Home is matched exactly by `/` (and the empty path) and Login exactly by `/login` or `/login/`, ignoring ASCII case; no other route name is ever produced |
| Router.ProfileParam | frontend/src/router/index.js:19-23 | a path yields a `profileId` exactly when it matches Profile; the param is one non-empty segment without a slash, after a `/profile/` prefix compared ignoring case, optionally followed by one trailing slash |
| Router.ProfileIdIsOneSegment | frontend/src/router/index.js:19-23 | `/profile/<seg>` and `/profile/<seg>/` match Profile and capture `<seg>`; a second segment matches no route |
| Router.MatchingExamples | frontend/src/router/index.js:4-29 | `/login/` and `/LOGIN` reach Login, `/profile/7/` reaches Profile, `/profile/a/b` matches nothing |
| Router.BeforeEach | frontend/src/router/index.js:31-51 | always closes the mobile menu; logged out (`=== false`) goes to `/login` unless bound for Login, which proceeds; otherwise Home reached by a redirect from Profile goes back to that Profile, and everything else proceeds |
| Router.LoginGuardian | frontend/src/router/index.js:53-60 | a truthy status is sent back to `from`, any other proceeds |
| Router.DecisionIsBranchwise | frontend/src/router/index.js:35-49 | logged out, the only outcomes are `/login` or proceed; otherwise proceed or the named Profile redirect |
| Router.LoginRedirectIsFinal | frontend/src/router/index.js:35-41 | no redirect loop: the `/login` a logged-out user is sent to is let through by both guards |
| Router.ProfileRedirectIsFinal | frontend/src/router/index.js:44-49 | the Profile redirect is final: a logged-in user arriving there proceeds |
| Router.LoginPageOnlyForLoggedOut | frontend/src/router/index.js:14-17 | on the login route a truthy status is sent back to `from`, any other status proceeds |

## Left out

- SQLAlchemy and asyncpg mechanics are not modelled: engine creation, `NullPool`, eager loading and `unique()`, `run_sync`, `flush`. The engine and the session factory are opaque values, and async code is sequential.
- `show_detail_info` only chooses eager loading. The lookups take no such flag, so the flag cannot change which user is returned.
- The race between two first requests with one new key, which makes one of them hit the unique constraint, is concurrency and is not modelled.
- The order of the `followers`, `following` and `likes` lists is not fixed by the queries. The model lists them by ascending id.
- JSON object key order is not modelled, because objects are maps.
- Store.Valid: requires every tweet to have an author. The column is nullable, but every route that inserts a tweet sets the author.
- MediaRoutes.LoadMediaOutcome: models database failures only as constraint violations on the media row. A transaction failing for any other reason (a lost connection) is not modelled. Because the handler writes the file before the transaction starts, the file is written whenever a key is present.
- The uploaded file's name is a string. Starlette allows a missing name, which would violate `file_name NOT NULL`.
- MediaRoutes.GetImage: the directory is a map from name to bytes. Path resolution is not modelled, including `..` segments in a name that escape the directory, and the `mkdir` of the parent.
- ServiceFunctions.GetApiKey: header names are lower-case map keys; the case-insensitive lookup of Starlette headers is not modelled.
- ServiceFunctions.GenerateRandomString: the random choice is the parameter `pick`; which names are likely is not modelled.
- ServiceFunctions.Startup: `check_tables_exists` is the parameter `tablesExist`; the table metadata that `create_all` issues is not modelled.
- SessionManager.DatabaseSessionManager.Close: disposing of the engine's connections is not modelled.
- Logging in the startup and shutdown hooks is not modelled.
- Ids are unbounded integers. The id columns are PostgreSQL `Integer` (int4), and asyncpg raises `DataError` for a bound id of 2^31 or more. The model has no such branch, and its sequences never run out.
- MediaCrud.AttachmentLinks: an id of 2^31 or more is skipped as having no row, where the source's select raises `DataError`.
- TweetRoutes.CreateTweetOutcome: a media id of 2^31 or more in `tweet_media_ids` is skipped and the tweet is created, where the source raises `DataError`, rolls back and stores no tweet.
- TweetRoutes.DeleteTweetOutcome: a tweet id of 2^31 or more gives 404 here, where the source raises `DataError`.
- TweetRoutes.LikeTweetOutcome: a tweet id of 2^31 or more gives 404 here, where the source raises `DataError`.
- TweetRoutes.UnlikeTweetOutcome: a tweet id of 2^31 or more gives 404 here, where the source raises `DataError`.
- UserRoutes.FollowUserOutcome: a user id of 2^31 or more gives 404 here, where the source raises `DataError`.
- UserRoutes.UnfollowUserOutcome: a user id of 2^31 or more gives 404 here, where the source raises `DataError`.
- UserRoutes.GetInfoAboutUserOutcome: a user id of 2^31 or more gives 404 here, where the source raises `DataError`.
- Whether a failed insert consumes a sequence value is not decided. The model does not advance the counter on a failed flush, but it does keep any value consumed before a rollback.
- Response validation by the pydantic `response_model` schemas is not modelled; the replies are the dictionaries the handlers build.
- `backend/api/app_service/exception_handlers.py` is not part of this model. Uncaught errors are the `Err` replies, and their conversion to HTTP bodies is left out.
- The request-logging middleware, environment configuration, inspector helper and application wiring are not part of this model.
- Router.MatchPath: folds only ASCII letters. The other case equivalences of a JavaScript `i` regex, percent-decoding of the path, and the query and hash are not modelled.
- The frontend's store is not modelled beyond the login status the guards read and the menu state `beforeEach` commits. API calls and views are not modelled either.
