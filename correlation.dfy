/**
 * The correlation id: chosen (or generated) once per inbound request by the
 * request-id middleware, echoed in `X-Request-ID`, and appended as the
 * `request_id` query parameter of every backend call.
 */
module Correlation {
  import opened Wrappers
  import opened Bytes
  import opened Strconv
  import opened Http
  import Hex

  /** The length, in hex characters, of a generated id. */
  const GeneratedIdLength: nat := 8

  /**
   * The random source: unavailable, or the bytes it would deliver. A read
   * that cannot fill the buffer is an error, as `rand.Read` reports it.
   */
  datatype Entropy = Unavailable | Stream(bytes: Bytes)

  /**
   * `generateRequestID(length)`: `length / 2` random bytes, hex-encoded. No
   * bytes are needed when `length / 2` is 0, so the id is then `""` and the
   * random source is not consulted.
   */
  function GenerateRequestId(length: nat, rnd: Entropy): (id: Option<string>)
    ensures id.Some? <==> length / 2 == 0 || (rnd.Stream? && |rnd.bytes| >= length / 2)
    ensures length / 2 == 0 ==> id == Some("")
    ensures id.Some? ==> |id.value| == 2 * (length / 2)
    ensures id.Some? ==> forall i | 0 <= i < |id.value| :: Hex.IsLowerHexChar(id.value[i])
    ensures id.Some? && length / 2 > 0 ==> Hex.Decode(id.value) == Some(rnd.bytes[..length / 2])
  {
    var n := length / 2;
    if n == 0 then Some("")
    else
      match rnd
      case Unavailable => None
      case Stream(b) =>
        if |b| < n then None
        else
          Hex.DecodeEncode(b[..n]);
          Some(Hex.Encode(b[..n]))
  }

  /** The id the middleware settles on: the supplied `request_id` verbatim, else a generated one. */
  function AssignRequestId(supplied: string, rnd: Entropy): (id: Option<string>)
    ensures supplied != "" ==> id == Some(supplied)
    ensures supplied == "" ==> id == GenerateRequestId(GeneratedIdLength, rnd)
  {
    if supplied != "" then Some(supplied) else GenerateRequestId(GeneratedIdLength, rnd)
  }

  /** What the client receives: the `X-Request-ID` header, if one was set, and the reply. */
  datatype Exchange = Exchange(requestIdHeader: Option<string>, reply: Reply)

  /**
   * The request-id middleware around a handler that is given the chosen id
   * through the request context. Without an id it answers 500 itself, with
   * no header, and the handler does not run.
   */
  function WithRequestId(supplied: string, rnd: Entropy, handler: string -> Reply): (e: Exchange)
    ensures supplied != "" ==> e.requestIdHeader == Some(supplied)
    ensures e.requestIdHeader.Some? ==>
      e.requestIdHeader.value != "" && e.reply == handler(e.requestIdHeader.value)
    ensures e.requestIdHeader.None? ==> e.reply == Reply(500, TextError(InternalError))
  {
    match AssignRequestId(supplied, rnd)
    case None => Exchange(None, Reply(500, TextError(InternalError)))
    case Some(id) => Exchange(Some(id), handler(id))
  }

  /**
   * A supplied id is echoed unchanged and handed to the handler; otherwise
   * the id is 8 lower-case hex characters encoding the first 4 random bytes,
   * and only an unavailable or short random source makes the request fail.
   */
  lemma RequestIdSelection(supplied: string, rnd: Entropy, handler: string -> Reply)
    ensures supplied != "" ==> WithRequestId(supplied, rnd, handler) == Exchange(Some(supplied), handler(supplied))
    ensures supplied == "" && rnd.Stream? && |rnd.bytes| >= 4 ==>
      var id := Hex.Encode(rnd.bytes[..4]);
      |id| == 8 && WithRequestId(supplied, rnd, handler) == Exchange(Some(id), handler(id))
    ensures WithRequestId(supplied, rnd, handler).requestIdHeader.None? <==>
      supplied == "" && (rnd.Unavailable? || |rnd.bytes| < 4)
    ensures WithRequestId(supplied, rnd, handler).requestIdHeader.None? ==>
      WithRequestId(supplied, rnd, handler).reply == Reply(500, TextError(InternalError))
  {
  }

  /** Different random bytes give different generated ids. */
  lemma GeneratedIdsDistinct(a: Bytes, b: Bytes)
    requires |a| == 4 && |b| == 4 && a != b
    ensures GenerateRequestId(GeneratedIdLength, Stream(a)) != GenerateRequestId(GeneratedIdLength, Stream(b))
  {
    assert a[..4] == a && b[..4] == b;
    if Hex.Encode(a) == Hex.Encode(b) {
      Hex.EncodeInjective(a, b);
    }
  }

  /** The base URLs of the two backends. */
  datatype Services = Services(newsUrl: string, commentsUrl: string)

  /** The defaults used when no configuration overrides them. */
  const DefaultServices: Services := Services("http://localhost:8080", "http://localhost:8082")

  const FormContentType: string := "application/x-www-form-urlencoded"
  const JsonContentType: string := "application/json"

  /** The JSON object `{"text": text}` forwarded for a new comment. */
  datatype OutboundBody = TextObject(text: string)

  /**
   * An outbound backend request: method, URL without the correlation
   * parameter, the `request_id` parameter if appended, the Content-Type
   * header if set, and the body if any.
   */
  datatype Outbound = Outbound(verb: string, url: string, requestId: Option<string>,
                               contentType: Option<string>, body: Option<OutboundBody>)

  /**
   * `makeBackendRequest`: the form Content-Type only for a POST with a body,
   * and `request_id` only when the context carries a non-empty id.
   */
  function BackendRequest(verb: string, url: string, contextId: string, body: Option<OutboundBody>): (o: Outbound)
    ensures o.verb == verb && o.url == url && o.body == body
    ensures o.requestId.Some? <==> contextId != ""
    ensures o.requestId.Some? ==> o.requestId.value == contextId
    ensures o.contentType.Some? <==> verb == Post && body.Some?
    ensures o.contentType.Some? ==> o.contentType.value == FormContentType
  {
    Outbound(verb, url, if contextId != "" then Some(contextId) else None,
             if verb == Post && body.Some? then Some(FormContentType) else None, body)
  }

  /** The request of both listings: every news item. */
  function NewsListRequest(svc: Services, contextId: string): (o: Outbound)
    ensures o.verb == Get && o.contentType.None? && o.body.None?
    ensures o.requestId.Some? <==> contextId != ""
    ensures o.requestId.Some? ==> o.requestId.value == contextId
  {
    BackendRequest(Get, svc.newsUrl + "/api/news/", contextId, None)
  }

  /**
   * `prefix` followed by the `%d` spelling of `newsId`: a 64-bit id is read
   * back from the part after the prefix.
   */
  function WithId(prefix: string, newsId: int): (url: string)
    ensures prefix <= url
    ensures MinInt64 <= newsId <= MaxInt64 ==> ParseInt64(url[|prefix|..]) == Some(newsId)
  {
    var url := prefix + FormatInt(newsId);
    assert url[|prefix|..] == FormatInt(newsId);
    if MinInt64 <= newsId <= MaxInt64 then
      ParseFormatRoundTrip(newsId);
      url
    else
      url
  }

  /** The single-item news request of the composite flow. */
  function NewsItemRequest(svc: Services, contextId: string, newsId: int): (o: Outbound)
    ensures o.verb == Get && o.contentType.None? && o.body.None?
    ensures o.requestId.Some? <==> contextId != ""
    ensures o.requestId.Some? ==> o.requestId.value == contextId
    ensures svc.newsUrl + "/api/news/" <= o.url
    ensures MinInt64 <= newsId <= MaxInt64 ==> ParseInt64(o.url[|svc.newsUrl + "/api/news/"|..]) == Some(newsId)
  {
    BackendRequest(Get, WithId(svc.newsUrl + "/api/news/", newsId), contextId, None)
  }

  /** The comments request of the composite flow and of `/api/comments`. */
  function CommentsRequest(svc: Services, contextId: string, newsId: int): (o: Outbound)
    ensures o.verb == Get && o.contentType.None? && o.body.None?
    ensures o.requestId.Some? <==> contextId != ""
    ensures o.requestId.Some? ==> o.requestId.value == contextId
    ensures svc.commentsUrl + "/api/comm_news?id=" <= o.url
    ensures MinInt64 <= newsId <= MaxInt64 ==>
      ParseInt64(o.url[|svc.commentsUrl + "/api/comm_news?id="|..]) == Some(newsId)
  {
    BackendRequest(Get, WithId(svc.commentsUrl + "/api/comm_news?id=", newsId), contextId, None)
  }

  /**
   * The new-comment request, built by hand rather than by
   * `makeBackendRequest`: JSON Content-Type, same `request_id` rule.
   */
  function AddCommentRequest(svc: Services, contextId: string, newsId: int, text: string): (o: Outbound)
    ensures o.verb == Post && o.contentType == Some(JsonContentType) && o.body == Some(TextObject(text))
    ensures o.requestId.Some? <==> contextId != ""
    ensures o.requestId.Some? ==> o.requestId.value == contextId
    ensures svc.commentsUrl + "/api/comm_add_news?id=" <= o.url
    ensures MinInt64 <= newsId <= MaxInt64 ==>
      ParseInt64(o.url[|svc.commentsUrl + "/api/comm_add_news?id="|..]) == Some(newsId)
  {
    Outbound(Post, WithId(svc.commentsUrl + "/api/comm_add_news?id=", newsId),
             if contextId != "" then Some(contextId) else None,
             Some(JsonContentType), Some(TextObject(text)))
  }

  /**
   * Once the middleware has settled on an id, every backend request the
   * gateway makes carries it as `request_id`; none of the GET requests gets
   * a Content-Type, and the comment POST is sent as JSON.
   */
  lemma EveryCallCarriesTheId(supplied: string, rnd: Entropy, svc: Services, newsId: int, text: string)
    requires AssignRequestId(supplied, rnd).Some?
    ensures var id := AssignRequestId(supplied, rnd).value;
      NewsListRequest(svc, id).requestId == Some(id)
      && NewsItemRequest(svc, id, newsId).requestId == Some(id)
      && CommentsRequest(svc, id, newsId).requestId == Some(id)
      && AddCommentRequest(svc, id, newsId, text).requestId == Some(id)
      && (supplied != "" ==> id == supplied)
      && NewsListRequest(svc, id).contentType.None?
      && NewsItemRequest(svc, id, newsId).contentType.None?
      && CommentsRequest(svc, id, newsId).contentType.None?
      && AddCommentRequest(svc, id, newsId, text).contentType == Some(JsonContentType)
  {
    var id := AssignRequestId(supplied, rnd).value;
    assert id != "" by {
      if supplied == "" {
        assert |id| == 8;
      }
    }
  }

  /** The id the composite flow puts in the news URL reads back as the id it parsed. */
  lemma ItemUrlCarriesParsedId(comm: string, svc: Services, contextId: string)
    requires ParseInt64(comm).Some?
    ensures var id := ParseInt64(comm).value;
      NewsItemRequest(svc, contextId, id).url == svc.newsUrl + "/api/news/" + FormatInt(id)
      && ParseInt64(FormatInt(id)) == Some(id)
  {
    ParseFormatRoundTrip(ParseInt64(comm).value);
  }
}
