/**
 * `handleNews` and `handleFullNews`: the two listing endpoints, with the
 * composite branch of `/api/news` taken before the method is checked.
 */
module Handlers {
  import opened Json
  import opened Views
  import opened Pagination
  import opened Http
  import opened Listing
  import opened Composite

  /** A listing as the reply the endpoint writes, `wrap` choosing the payload kind. */
  function ListingReply<V>(listed: Listed<V>, wrap: Envelope<V> -> Payload): Reply
  {
    match listed
    case Unavailable => Reply(500, JsonError(NewsListFailed))
    case Listed(e) => Reply(200, wrap(e))
  }

  function WrapSummaries(e: Envelope<NewsSummary>): Payload { Summaries(e) }

  function WrapFull(e: Envelope<NewsFull>): Payload { FullItems(e) }

  /**
   * `/api/news`: with a non-empty `comm`, the composite flow, whatever the
   * method; otherwise GET only, and the summary listing.
   */
  function NewsReply(verb: string, query: Query, list: Fetch<seq<Record>>,
                     item: Fetch<seq<Record>>, comments: Fetch<seq<JValue>>): (r: Reply)
    ensures Param(query, "comm") == "" ==> (r.payload.Summaries? <==> verb == Get && !list.TransportFailed?)
    ensures Param(query, "comm") == "" ==> (r.status == 200 <==> r.payload.Summaries?)
    ensures Param(query, "comm") != "" ==> r.payload.NewsWithComments? || r.payload.JsonError?
  {
    if Param(query, "comm") != "" then CompositeReply(Param(query, "comm"), Param(query, "m"), item, comments)
    else if verb != Get then Reply(405, TextError(MethodNotAllowed))
    else ListingReply(ListingOf(query, list, Summarize), WrapSummaries)
  }

  /** `/api/fullnews`: GET only, and the full listing. */
  function FullNewsReply(verb: string, query: Query, list: Fetch<seq<Record>>): (r: Reply)
    ensures r.payload.FullItems? <==> verb == Get && !list.TransportFailed?
    ensures r.status == 200 <==> r.payload.FullItems?
    ensures r.status == 405 <==> verb != Get
    ensures verb == Get ==> (r.status == 500 <==> list.TransportFailed?)
  {
    if verb != Get then Reply(405, TextError(MethodNotAllowed))
    else ListingReply(ListingOf(query, list, Expand), WrapFull)
  }

  /**
   * `handleNews` as it runs, through the listing loops of `ServeListing`;
   * `NewsReply` is its specification.
   */
  method HandleNews(verb: string, query: Query, list: Fetch<seq<Record>>,
                    item: Fetch<seq<Record>>, comments: Fetch<seq<JValue>>) returns (r: Reply)
    ensures r == NewsReply(verb, query, list, item, comments)
  {
    var comm := Param(query, "comm");
    if comm != "" {
      return CompositeReply(comm, Param(query, "m"), item, comments);
    }
    if verb != Get {
      return Reply(405, TextError(MethodNotAllowed));
    }
    var listed := ServeListing(query, list, Summarize);
    r := ListingReply(listed, WrapSummaries);
  }

  /**
   * `handleFullNews` as it runs, through the listing loops of `ServeListing`;
   * `FullNewsReply` is its specification.
   */
  method HandleFullNews(verb: string, query: Query, list: Fetch<seq<Record>>) returns (r: Reply)
    ensures r == FullNewsReply(verb, query, list)
  {
    if verb != Get {
      return Reply(405, TextError(MethodNotAllowed));
    }
    var listed := ServeListing(query, list, Expand);
    r := ListingReply(listed, WrapFull);
  }

  /** The composite branch is taken for any method, a POST included. */
  lemma CompositeIgnoresMethod(verb: string, query: Query, list: Fetch<seq<Record>>,
                               item: Fetch<seq<Record>>, comments: Fetch<seq<JValue>>)
    requires Param(query, "comm") != ""
    ensures NewsReply(verb, query, list, item, comments) == NewsReply(Get, query, list, item, comments)
    ensures NewsReply(verb, query, list, item, comments)
      == CompositeReply(Param(query, "comm"), Param(query, "m"), item, comments)
  {
  }

  /**
   * Without `comm` a listing request is never rejected for its parameters:
   * it is 405 for a non-GET, 500 only when the news service cannot be
   * reached, and 200 with an envelope otherwise.
   */
  lemma ListingRepliesNeverReject(verb: string, query: Query, list: Fetch<seq<Record>>,
                                  item: Fetch<seq<Record>>, comments: Fetch<seq<JValue>>)
    requires Param(query, "comm") == ""
    ensures verb != Get ==> NewsReply(verb, query, list, item, comments) == Reply(405, TextError(MethodNotAllowed))
    ensures verb == Get ==>
      (NewsReply(verb, query, list, item, comments).status == 500 <==> list.TransportFailed?)
    ensures verb == Get && !list.TransportFailed? ==>
      NewsReply(verb, query, list, item, comments).status == 200
      && NewsReply(verb, query, list, item, comments).payload.Summaries?
    ensures verb != Get ==> FullNewsReply(verb, query, list) == Reply(405, TextError(MethodNotAllowed))
    ensures verb == Get ==> (FullNewsReply(verb, query, list).status == 500 <==> list.TransportFailed?)
    ensures verb == Get && !list.TransportFailed? ==>
      FullNewsReply(verb, query, list).status == 200 && FullNewsReply(verb, query, list).payload.FullItems?
  {
  }
}
