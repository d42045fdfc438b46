/**
 * What a handler sees and answers: the inbound query, the outcome of an
 * upstream call, and the reply it writes (status and body kind).
 */
module Http {
  import opened Wrappers
  import opened Bytes
  import opened Json
  import opened Views
  import opened Pagination

  const Get: string := "GET"
  const Post: string := "POST"

  /** The first value of each query parameter. */
  type Query = map<string, string>

  /** `query.Get(key)`: the first value, or `""` when the key is absent. */
  function Param(q: Query, key: string): string
  {
    if key in q then q[key] else ""
  }

  /**
   * The body of an upstream response: reading it failed, or it was read as
   * `raw`, and `decoded` is what JSON decoding into the handler's target type
   * gave (`None` when decoding failed).
   */
  datatype Body<T> = ReadFailed | Body(raw: Bytes, decoded: Option<T>)

  /** The outcome of an upstream call: the transport failed, or a response arrived. */
  datatype Fetch<T> = TransportFailed | Replied(status: int, body: Body<T>)

  /** The message of an error reply, one per distinct message the handlers write. */
  datatype Msg =
    | InternalError          // the request id could not be generated
    | MethodNotAllowed
    | PostRequired
    | GetAddDeprecated       // `m` given with `comm`
    | InvalidNewsId
    | NewsListFailed
    | NewsFetchFailed
    | NewsNotFound
    | NewsReadFailed
    | NewsDecodeFailed
    | InvalidCommentNewsId
    | MalformedCommentJson
    | EmptyComment
    | AddCommentFailed
    | AddCommentRejected
    | CommentsReadFailed
    | MissingNewsId
    | CommentsFetchFailed
    | CommentsRejected
    | CommentsUnprocessable

  /**
   * The body a handler writes: a plain-text error (`http.Error`), a JSON
   * `{"error": ...}` object, one of the two paginated listings, the composite
   * news-and-comments object, or an upstream body relayed byte for byte.
   */
  datatype Payload =
    | TextError(msg: Msg)
    | JsonError(msg: Msg)
    | Summaries(summaries: Envelope<NewsSummary>)
    | FullItems(fulls: Envelope<NewsFull>)
    | NewsWithComments(news: Record, comments: seq<JValue>)
    | Relayed(raw: Bytes)

  datatype Reply = Reply(status: int, payload: Payload)
}
