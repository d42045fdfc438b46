/**
 * The comment endpoints: `/api/comments/add` forwards a new comment, and
 * `/api/comments` relays the comments of one news item. Both are early-exit
 * decision trees.
 */
module Comments {
  import opened Wrappers
  import opened Json
  import opened Strconv
  import opened Http

  /** The inbound comment body: not decodable as `{"text": string}`, or decoded. */
  datatype CommentBody = Malformed | CommentText(text: string)

  /** The news id of a new comment: `news_id`, or `id` when `news_id` is empty. */
  function CommentNewsIdParam(query: Query): (id: string)
    ensures Param(query, "news_id") != "" ==> id == Param(query, "news_id")
    ensures id == Param(query, "news_id") || id == Param(query, "id")
    ensures id == "" <==> Param(query, "news_id") == "" && Param(query, "id") == ""
  {
    if Param(query, "news_id") != "" then Param(query, "news_id") else Param(query, "id")
  }

  /**
   * The reply to `/api/comments/add`, given the inbound body and the outcome
   * of the POST to the comments service (whose body is relayed, never decoded).
   * Only a wrong method is answered in plain text; a 200 is always the
   * comments service's own body.
   */
  function AddCommentReply(verb: string, query: Query, body: CommentBody, upstream: Fetch<()>): (r: Reply)
    ensures r.payload.TextError? <==> verb != Post
    ensures r.status == 200 <==> r.payload.Relayed?
    ensures r.payload.Relayed? ==> upstream.Replied? && upstream.body.Body? && r.payload.raw == upstream.body.raw
  {
    if verb != Post then Reply(405, TextError(PostRequired))
    else if ParseInt64(CommentNewsIdParam(query)).None? then Reply(400, JsonError(InvalidCommentNewsId))
    else
      match body
      case Malformed => Reply(400, JsonError(MalformedCommentJson))
      case CommentText(text) =>
        if text == "" then Reply(400, JsonError(EmptyComment))
        else
          match upstream
          case TransportFailed => Reply(500, JsonError(AddCommentFailed))
          case Replied(status, b) =>
            if status != 200 && status != 201 then Reply(status, JsonError(AddCommentRejected))
            else
              match b
              case ReadFailed => Reply(500, JsonError(CommentsReadFailed))
              case Body(raw, _) => Reply(200, Relayed(raw))
  }

  /** A non-empty `news_id` wins: whatever `id` says is ignored. */
  lemma NewsIdTakesPrecedence(verb: string, query: Query, other: string, body: CommentBody, upstream: Fetch<()>)
    requires Param(query, "news_id") != ""
    ensures AddCommentReply(verb, query["id" := other], body, upstream) == AddCommentReply(verb, query, body, upstream)
  {
    assert Param(query["id" := other], "news_id") == Param(query, "news_id");
  }

  /** The validation failures of a POST, in the order they are checked. */
  lemma AddCommentValidation(query: Query, body: CommentBody, upstream: Fetch<()>)
    ensures CommentNewsIdParam(query) == "" ==>
      AddCommentReply(Post, query, body, upstream) == Reply(400, JsonError(InvalidCommentNewsId))
    ensures ParseInt64(CommentNewsIdParam(query)).None? ==>
      AddCommentReply(Post, query, body, upstream) == Reply(400, JsonError(InvalidCommentNewsId))
    ensures ParseInt64(CommentNewsIdParam(query)).Some? && body.Malformed? ==>
      AddCommentReply(Post, query, body, upstream) == Reply(400, JsonError(MalformedCommentJson))
    ensures ParseInt64(CommentNewsIdParam(query)).Some? && body == CommentText("") ==>
      AddCommentReply(Post, query, body, upstream) == Reply(400, JsonError(EmptyComment))
  {
  }

  /**
   * For a valid comment: a 200 or 201 from the comments service becomes a
   * 200 carrying its body verbatim; any other status is relayed with a
   * generic error body; a transport failure is a 500.
   */
  lemma AddCommentRelay(query: Query, text: string, upstream: Fetch<()>)
    requires ParseInt64(CommentNewsIdParam(query)).Some? && text != ""
    ensures upstream.TransportFailed? ==>
      AddCommentReply(Post, query, CommentText(text), upstream) == Reply(500, JsonError(AddCommentFailed))
    ensures upstream.Replied? && upstream.status != 200 && upstream.status != 201 ==>
      AddCommentReply(Post, query, CommentText(text), upstream)
        == Reply(upstream.status, JsonError(AddCommentRejected))
    ensures upstream.Replied? && (upstream.status == 200 || upstream.status == 201) && upstream.body.Body? ==>
      AddCommentReply(Post, query, CommentText(text), upstream) == Reply(200, Relayed(upstream.body.raw))
  {
  }

  /** Only a POST is accepted, and a 200 is only ever the comments service's own body. */
  lemma AddCommentSuccessIff(verb: string, query: Query, body: CommentBody, upstream: Fetch<()>)
    ensures (verb != Post ==> AddCommentReply(verb, query, body, upstream) == Reply(405, TextError(PostRequired)))
    ensures AddCommentReply(verb, query, body, upstream).status == 200
        && AddCommentReply(verb, query, body, upstream).payload.Relayed?
      <==> verb == Post && ParseInt64(CommentNewsIdParam(query)).Some? && body.CommentText? && body.text != ""
           && upstream.Replied? && (upstream.status == 200 || upstream.status == 201) && upstream.body.Body?
  {
  }

  /**
   * The reply to `/api/comments`, given the outcome of the GET to the
   * comments service; `decoded` says whether its body is valid JSON. Only a
   * wrong method is answered in plain text; a 200 is always the comments
   * service's own valid JSON body.
   */
  function CommentsReply(verb: string, query: Query, upstream: Fetch<JValue>): (r: Reply)
    ensures r.payload.TextError? <==> verb != Get
    ensures r.status == 200 <==> r.payload.Relayed?
    ensures r.payload.Relayed? ==>
      upstream.Replied? && upstream.body.Body? && upstream.body.decoded.Some? && r.payload.raw == upstream.body.raw
  {
    if verb != Get then Reply(405, TextError(MethodNotAllowed))
    else if Param(query, "id") == "" then Reply(400, JsonError(MissingNewsId))
    else if ParseInt64(Param(query, "id")).None? then Reply(400, JsonError(InvalidNewsId))
    else
      match upstream
      case TransportFailed => Reply(500, JsonError(CommentsFetchFailed))
      case Replied(status, b) =>
        if status != 200 then Reply(status, JsonError(CommentsRejected))
        else
          match b
          case ReadFailed => Reply(500, JsonError(CommentsUnprocessable))
          case Body(_, None) => Reply(500, JsonError(CommentsUnprocessable))
          case Body(raw, Some(_)) => Reply(200, Relayed(raw))
  }

  /**
   * A 200 is given exactly for a GET with a numeric `id` whose upstream
   * answered 200 with valid JSON, and it carries that body byte for byte.
   * Every other outcome is an error reply, each with its own status, in the
   * order they are checked: the method, a missing id, a non-numeric id, the
   * transport, the upstream status (relayed), and an unreadable or invalid body.
   */
  lemma CommentsReplyCases(verb: string, query: Query, upstream: Fetch<JValue>)
    ensures CommentsReply(verb, query, upstream).status == 200 <==>
      verb == Get && ParseInt64(Param(query, "id")).Some? && upstream.Replied? && upstream.status == 200
      && upstream.body.Body? && upstream.body.decoded.Some?
    ensures CommentsReply(verb, query, upstream).status == 200 ==>
      CommentsReply(verb, query, upstream).payload == Relayed(upstream.body.raw)
    ensures CommentsReply(verb, query, upstream).status != 200 ==>
      CommentsReply(verb, query, upstream).payload.JsonError? || CommentsReply(verb, query, upstream).payload.TextError?
    ensures verb != Get ==>
      CommentsReply(verb, query, upstream) == Reply(405, TextError(MethodNotAllowed))
    ensures verb == Get && Param(query, "id") == "" ==>
      CommentsReply(verb, query, upstream) == Reply(400, JsonError(MissingNewsId))
    ensures verb == Get && Param(query, "id") != "" && ParseInt64(Param(query, "id")).None? ==>
      CommentsReply(verb, query, upstream) == Reply(400, JsonError(InvalidNewsId))
    ensures verb == Get && ParseInt64(Param(query, "id")).Some? && upstream.TransportFailed? ==>
      CommentsReply(verb, query, upstream) == Reply(500, JsonError(CommentsFetchFailed))
    ensures verb == Get && ParseInt64(Param(query, "id")).Some? && upstream.Replied? && upstream.status != 200 ==>
      CommentsReply(verb, query, upstream) == Reply(upstream.status, JsonError(CommentsRejected))
    ensures verb == Get && ParseInt64(Param(query, "id")).Some? && upstream.Replied? && upstream.status == 200
            && (upstream.body.ReadFailed? || upstream.body.decoded.None?) ==>
      CommentsReply(verb, query, upstream) == Reply(500, JsonError(CommentsUnprocessable))
  {
  }
}
