/** The response payloads of the routes, as the dictionaries they serialise to. */
module Responses {
  import opened Wrappers
  import opened Errors
  import opened Models

  /** What a route returns: a JSON body, or the error it raises. */
  type Reply = Result<Json, Error>

  /** `Response(result=True)`. */
  function ResultTrue(): Json
  {
    JObj(map["result" := JBool(true)])
  }

  /** `AddTweetResponse(result=True, tweet_id=...)`. */
  function AddTweetResponse(tweetId: int): Json
  {
    JObj(map["result" := JBool(true), "tweet_id" := JInt(tweetId)])
  }

  /** `TweetsResponse(result=True, tweets=...)`. */
  function TweetsResponse(tweets: seq<Json>): Json
  {
    JObj(map["result" := JBool(true), "tweets" := JArr(tweets)])
  }

  /** `UserResponse(result=True, user=...)`. */
  function UserResponse(user: Json): Json
  {
    JObj(map["result" := JBool(true), "user" := user])
  }

  /** The `{'result': True, 'media_id': ...}` of the upload route. */
  function AddMediaResponse(mediaId: int): Json
  {
    JObj(map["result" := JBool(true), "media_id" := JInt(mediaId)])
  }
}
