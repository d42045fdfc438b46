/**
 * The news-with-comments branch of `/api/news` (a request carrying `comm`):
 * a strict decision tree over the single-item news fetch, with every
 * failure of the comments fetch degraded to an empty comment list.
 */
module Composite {
  import opened Wrappers
  import opened Json
  import opened Strconv
  import opened Http

  /** The comments to show: the decoded array if there is one, otherwise none. */
  function CommentsOrEmpty(comments: Fetch<seq<JValue>>): (cs: seq<JValue>)
    ensures comments.Replied? && comments.body.Body? && comments.body.decoded.Some? ==>
      cs == comments.body.decoded.value
    ensures !(comments.Replied? && comments.body.Body? && comments.body.decoded.Some?) ==> cs == []
  {
    match comments
    case Replied(_, Body(_, Some(cs))) => cs
    case _ => []
  }

  /**
   * The reply to a `comm` request, given `m`, the news fetch for the parsed
   * id and the comments fetch for the same id. The comments status is not
   * looked at. Every failure is a JSON error; success is 200 with the first
   * news item found and nothing else is.
   */
  function CompositeReply(comm: string, m: string, news: Fetch<seq<Record>>,
                          comments: Fetch<seq<JValue>>): (r: Reply)
    ensures r.status == 200 <==> r.payload.NewsWithComments?
    ensures !r.payload.NewsWithComments? ==> r.payload.JsonError?
    ensures r.payload.NewsWithComments? ==> NewsFound(news, r.payload.news)
  {
    if m != "" then Reply(400, JsonError(GetAddDeprecated))
    else if ParseInt64(comm).None? then Reply(400, JsonError(InvalidNewsId))
    else
      match news
      case TransportFailed => Reply(500, JsonError(NewsFetchFailed))
      case Replied(status, body) =>
        if status != 200 then Reply(status, JsonError(NewsNotFound))
        else
          match body
          case ReadFailed => Reply(500, JsonError(NewsReadFailed))
          case Body(_, None) => Reply(500, JsonError(NewsDecodeFailed))
          case Body(_, Some(items)) =>
            if items == [] then Reply(404, JsonError(NewsNotFound))
            else Reply(200, NewsWithComments(items[0], CommentsOrEmpty(comments)))
  }

  /** The news fetch produced at least one item; `item` is the first. */
  predicate NewsFound(news: Fetch<seq<Record>>, item: Record)
  {
    news.Replied? && news.status == 200 && news.body.Body? && news.body.decoded.Some?
    && news.body.decoded.value != [] && news.body.decoded.value[0] == item
  }

  /** `m` is rejected first: before the id is parsed and before anything is fetched. */
  lemma DeprecatedParameterFirst(comm: string, m: string, news: Fetch<seq<Record>>,
                                 comments: Fetch<seq<JValue>>)
    requires m != ""
    ensures CompositeReply(comm, m, news, comments) == Reply(400, JsonError(GetAddDeprecated))
  {
  }

  /** A `comm` that is not a 64-bit integer is rejected before anything is fetched. */
  lemma NonNumericIdRejected(comm: string, news: Fetch<seq<Record>>, comments: Fetch<seq<JValue>>)
    ensures ParseInt64(comm).None? ==>
      CompositeReply(comm, "", news, comments) == Reply(400, JsonError(InvalidNewsId))
    ensures ParseInt64(comm).None? ==>
      forall news', comments' :: CompositeReply(comm, "", news', comments') == CompositeReply(comm, "", news, comments)
  {
  }

  /** The failures of the news fetch, each with its own status, in the order they are checked. */
  lemma NewsFailures(comm: string, news: Fetch<seq<Record>>, comments: Fetch<seq<JValue>>)
    requires ParseInt64(comm).Some?
    ensures news.TransportFailed? ==>
      CompositeReply(comm, "", news, comments) == Reply(500, JsonError(NewsFetchFailed))
    ensures news.Replied? && news.status != 200 ==>
      CompositeReply(comm, "", news, comments) == Reply(news.status, JsonError(NewsNotFound))
    ensures news.Replied? && news.status == 200 && news.body.ReadFailed? ==>
      CompositeReply(comm, "", news, comments) == Reply(500, JsonError(NewsReadFailed))
    ensures news.Replied? && news.status == 200 && news.body.Body? && news.body.decoded.None? ==>
      CompositeReply(comm, "", news, comments) == Reply(500, JsonError(NewsDecodeFailed))
    ensures news.Replied? && news.status == 200 && news.body.Body? && news.body.decoded == Some([]) ==>
      CompositeReply(comm, "", news, comments) == Reply(404, JsonError(NewsNotFound))
  {
  }

  /**
   * Once a news item is found, every comments outcome gives 200 with that
   * item: the decoded comments whatever the comments status was, and `[]` on
   * a transport, read or decode failure.
   */
  lemma CommentsNeverFailTheReply(comm: string, news: Fetch<seq<Record>>, item: Record,
                                  comments: Fetch<seq<JValue>>)
    requires ParseInt64(comm).Some? && NewsFound(news, item)
    ensures CompositeReply(comm, "", news, comments).status == 200
    ensures CompositeReply(comm, "", news, comments).payload.NewsWithComments?
    ensures CompositeReply(comm, "", news, comments).payload.news == item
    ensures comments.TransportFailed? || comments.body.ReadFailed? || comments.body.decoded.None? ==>
      CompositeReply(comm, "", news, comments).payload.comments == []
    ensures comments.Replied? && comments.body.Body? && comments.body.decoded.Some? ==>
      CompositeReply(comm, "", news, comments).payload.comments == comments.body.decoded.value
  {
  }

  /** The reply is 200 exactly when `m` is absent, the id parses and a news item was found. */
  lemma CompositeSuccessIff(comm: string, m: string, news: Fetch<seq<Record>>,
                            comments: Fetch<seq<JValue>>)
    ensures CompositeReply(comm, m, news, comments).status == 200
      <==> m == "" && ParseInt64(comm).Some? && exists item :: NewsFound(news, item)
  {
    if m == "" && ParseInt64(comm).Some? && news.Replied? && news.status == 200 && news.body.Body?
       && news.body.decoded.Some? && news.body.decoded.value != [] {
      assert NewsFound(news, news.body.decoded.value[0]);
    }
  }
}
