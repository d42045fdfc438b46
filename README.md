# apigw request logic, modelled in Dafny

The API gateway sits in front of a news service and a comments service. This
project models the request logic of its server (`pkg/server/server.go`) as
total functions over explicit inputs. It also proves what that logic promises.

- **Listing engine** (`Listing`, `Pagination`, `Views`): lenient `page`/`count`
  parsing, the case-insensitive title search, the page count, the page window,
  the empty envelope, and the projection of raw records into the summary
  (`/api/news`) or full (`/api/fullnews`) view. The parsing, filtering, slicing
  and conversion loops are methods (`ParsePagination`, `FilterNews`,
  `PaginateFiltered`, `ProjectPage`, `ServeListing`). Each is proved equal to
  the functions the lemmas talk about.
- **Composite news+comments flow** (`Composite`): the `comm` branch of
  `/api/news`, as a decision tree over the outcomes of the two upstream calls.
- **Comment endpoints** (`Comments`): the add-comment and read-comments
  decision trees.
- **Correlation id** (`Correlation`, `Hex`): choosing or generating the
  `request_id`, the `X-Request-ID` header, and the outbound request rules of
  `makeBackendRequest`.
- **Handlers** (`Handlers`): `handleNews` and `handleFullNews` put together.

Upstream calls are not performed. Each handler receives the outcome of its
upstream call as a value (`Http.Fetch`): the transport failed, or a status
arrived with a body that could not be read, or with raw bytes plus the result
of JSON decoding them. A decoded news record is a map from string to a small
JSON value (`JStr`, `JNum`, `JOther`). The random bytes of a generated id are
an `Entropy` parameter. Integers are mathematical. `ParseInt64` accepts exactly
the values `strconv.ParseInt(s, 10, 64)` accepts, which are also the values
`strconv.Atoi` accepts on a 64-bit platform.

The model follows the code; in particular:

- A transport failure while fetching a listing is answered with 500 and a JSON
  error. It is not answered with the empty envelope. Only a non-200 status, a
  read error, an empty body or a decode error give the empty envelope.
- In the composite flow, the deprecated `m` parameter is rejected before `comm`
  is parsed.
- A page holds `min(count, total - (page-1)*count)` items only when every record
  in the window has a numeric `id`. Records without one are skipped, so the page
  may hold fewer.
- `created_at` is left out of a full view not only when it is absent. It is also
  left out when it is not a string, or is the empty string (`omitempty`).

## Model

| member | source | states |
|---|---|---|
| Strconv.ParseInt64 | pkg/server/server.go:266-272 | a parsed value lies in the 64-bit range; the empty string never parses |
| Strconv.DecimalRoundTrip | pkg/server/server.go:275 | the `%d` spelling of a natural number is all digits and reads back as that number |
| Strconv.ParseFormatRoundTrip | pkg/server/server.go:266-275 | every 64-bit id the composite flow parses and prints into the upstream URL parses back to itself |
| Strconv.FormatInt | pkg/server/server.go:275 | the `%d` spelling has a minus sign exactly for a negative value, followed by the decimal digits of the magnitude |
| Strconv.ParsePlusSign | pkg/server/server.go:399-400 | a leading `+` is accepted and does not change the value |
| Strconv.NonNumericRejected | pkg/server/server.go:399-400 | a string with any character that is neither a digit nor a sign is rejected |
| Pagination.LenientPositive | pkg/server/server.go:394-411 | the result is at least 1; it differs from the default only when the string parses to that positive value; a failed parse or a non-positive value gives the default |
| Pagination.ParsePagination | pkg/server/server.go:394-411 | page and count are always at least 1, and are the lenient readings with defaults 1 and 10 |
| Pagination.LenientPositiveVerbatim | pkg/server/server.go:398-403 | any positive 64-bit integer spelled in decimal is taken verbatim |
| Pagination.TotalPages | pkg/server/server.go:477-478 | `(total + count - 1) / count` is the ceiling of total/count, and it is 0 exactly when there are no items |
| Pagination.TotalPagesIsCeiling | pkg/server/server.go:477-478 | the ceiling is unique, so the page count is the only number of pages that covers the items |
| Pagination.PageWindow | pkg/server/server.go:489-502 | no window when there are no items or the start is past the end; otherwise `[(page-1)*count, min(page*count, total))`, of length `min(count, total - start)` |
| Pagination.WindowExistsIffPageInRange | pkg/server/server.go:477-497 | exactly the pages 1..total_pages have items to show |
| Pagination.WindowsAreAdjacent | pkg/server/server.go:489-502 | consecutive pages tile the filtered collection without gaps or overlap |
| Pagination.EmptyEnvelope | pkg/server/server.go:900-921 | no items, 0 pages, 0 items in total, the request's page and count echoed |
| Strings.ToLower | pkg/server/server.go:461 | lower-casing keeps the length, maps each character, and leaves no upper-case ASCII letter |
| Strings.ContainsIff | pkg/server/server.go:468 | the substring test holds exactly when the term occurs at some offset |
| Strings.Contains | pkg/server/server.go:468 | a term that is a prefix is contained; a term longer than the text never is |
| Views.GetStringValue | pkg/server/server.go:924-929 | the value under the key if it is a string, otherwise `""` |
| Views.NumericId | pkg/server/server.go:510-513 | an id exists exactly when the record's `id` is a JSON number |
| Views.Summarize | pkg/server/server.go:515-520 | the summary carries the given id, and every non-empty field is the record's string under that key |
| Views.SummaryFields | pkg/server/server.go:515-520 | the summary takes the given id, and each of title, pub_date, source_url is the record's string or `""` |
| Views.Expand | pkg/server/server.go:672-683 | the full view carries the given id, and every non-empty field, `created_at` included, is the record's string under that key |
| Views.ExpandFields | pkg/server/server.go:672-678 | each of title, description, pub_date and source_url is the record's string or `""`; the id is the one given |
| Views.ExpandExtendsSummary | pkg/server/server.go:672-678 | the full view agrees with the summary on the shared fields |
| Views.CreatedAtPresence | pkg/server/server.go:680-683 | `created_at` is emitted exactly when the record holds it as a non-empty string, and then with its value; the other five keys always appear |
| Listing.KeepMatching | pkg/server/server.go:459-471 | the filtered records all match and are no more numerous than the input |
| Listing.SearchFilter | pkg/server/server.go:459-474 | an empty term keeps the input; with a term every kept record matches the lower-cased term; never more records than the input |
| Listing.FilterNews | pkg/server/server.go:458-474 | the filtering loop computes the search filter |
| Listing.KeepMatchingAppend | pkg/server/server.go:462-471 | the filter distributes over concatenation, so it preserves order |
| Listing.KeepMatchingSingle | pkg/server/server.go:463-470 | one record is kept exactly when its string title contains the lower-cased term |
| Listing.KeepMatchingMembers | pkg/server/server.go:462-471 | a record is in the result exactly when it is in the input and matches |
| Listing.KeepMatchingIdempotent | pkg/server/server.go:459-471 | filtering twice is filtering once |
| Listing.SearchFilterTitleRule | pkg/server/server.go:459-474 | an empty term returns the input unchanged; with a term, records without a string title are dropped |
| Listing.ElectSearchExample | pkg/server/server.go:460-470 | the term "Elect" keeps "Election Results" and "electronics news" and drops "Sports" |
| Listing.ProjectAll | pkg/server/server.go:509-522 | projection never yields more items than the page slice |
| Listing.ProjectPage | pkg/server/server.go:507-522 | the conversion loop with its `continue` skip computes the projection |
| Listing.ProjectAllSingle | pkg/server/server.go:509-520 | one record yields its view under its numeric id, and a record whose id is not a number is skipped |
| Listing.ProjectAllAppend | pkg/server/server.go:509-522 | the projection distributes over concatenation, so it preserves order |
| Listing.ProjectAllNumeric | pkg/server/server.go:509-522 | when every id is numeric, one view per record, position by position |
| Listing.PaginateFiltered | pkg/server/server.go:476-531 | the pagination steps compute the envelope of the page window |
| Listing.Paginate | pkg/server/server.go:476-531 | page and count are echoed; the envelope is empty exactly when the page starts at or past the last record; otherwise it carries the post-filter total, the ceiling page count and at most one window of views |
| Listing.ListingOf | pkg/server/server.go:413-533 | the listing is an error exactly when the transport failed; every envelope echoes the parsed page and count |
| Listing.ServeListing | pkg/server/server.go:388-533 | the listing as the handler runs it equals the listing function |
| Listing.ListingDegrades | pkg/server/server.go:430-456 | non-200, read error, empty body and decode error all give the empty envelope with the request's page and count |
| Listing.ListingEnvelopeShape | pkg/server/server.go:476-531 | every envelope echoes page and count (both at least 1); it is either empty or an in-range page whose page count is the ceiling and whose items fit the window |
| Listing.PaginateInRange | pkg/server/server.go:489-505 | an in-range page is the projection of exactly the window's slice, with total pages and total items |
| Listing.ListingInRange | pkg/server/server.go:489-531 | for an in-range page the items are the projection of `filtered[(page-1)*count .. min(page*count, total))`, with `min(count, total-(page-1)*count)` items when every id is numeric |
| Listing.ListingOutOfRange | pkg/server/server.go:480-497 | no matching records, or a start past the last item, gives the empty envelope |
| Listing.SecondPageOfTwelve | pkg/server/server.go:486-505 | page 2 with count 5 over 12 numeric-id records returns records 5..9 with 3 pages |
| Composite.CommentsOrEmpty | pkg/server/server.go:328-377 | the decoded comments, whatever the comments status, or `[]` on any transport, read or decode failure |
| Composite.CompositeReply | pkg/server/server.go:252-378 | the reply is 200 exactly for a news-with-comments payload, which holds a news item the fetch found; every other reply is a JSON error |
| Composite.DeprecatedParameterFirst | pkg/server/server.go:252-260 | `m` with `comm` is a 400, before the id is parsed |
| Composite.NonNumericIdRejected | pkg/server/server.go:265-272 | a `comm` that is not a 64-bit integer is a 400, whatever the upstream fetches would have returned |
| Composite.NewsFailures | pkg/server/server.go:276-322 | news transport error 500, non-200 relayed, read error 500, decode error 500, empty array 404 |
| Composite.CommentsNeverFailTheReply | pkg/server/server.go:324-377 | once a news item is found, every comments outcome gives 200 with that item, and comments `[]` on failure |
| Composite.CompositeSuccessIff | pkg/server/server.go:252-378 | the reply is 200 exactly when `m` is absent, the id parses and the news fetch yields an item |
| Comments.CommentNewsIdParam | pkg/server/server.go:715-718 | a non-empty `news_id` is used; otherwise `id`; the result is empty only when both are |
| Comments.AddCommentReply | pkg/server/server.go:701-824 | only a non-POST is answered in plain text; the reply is 200 exactly when it relays the comments service's own body |
| Comments.NewsIdTakesPrecedence | pkg/server/server.go:715-718 | a non-empty `news_id` decides the id; `id` is then ignored |
| Comments.AddCommentValidation | pkg/server/server.go:714-752 | empty or non-numeric id 400; then bad JSON 400; then empty text 400 |
| Comments.AddCommentRelay | pkg/server/server.go:790-823 | upstream 200/201 gives 200 with the upstream body verbatim; other statuses are relayed with a generic body; transport failure 500 |
| Comments.AddCommentSuccessIff | pkg/server/server.go:701-824 | non-POST is 405; a relayed 200 happens exactly when every check passes and the upstream answered 200 or 201 |
| Comments.CommentsReply | pkg/server/server.go:827-897 | only a non-GET is answered in plain text; the reply is 200 exactly when it relays the comments service's own body, which decoded as JSON |
| Comments.CommentsReplyCases | pkg/server/server.go:827-897 | 200 exactly for a GET with a numeric id whose upstream answered 200 with valid JSON, relayed byte for byte; non-GET 405; missing id 400; non-numeric id 400; transport failure 500; a non-200 upstream status relayed with an error body; unreadable or invalid JSON body 500 |
| Hex.Encode | pkg/server/server.go:210 | two lower-case hex characters per byte |
| Hex.DecodeEncode | pkg/server/server.go:210 | decoding the encoding gives the bytes back |
| Hex.EncodeInjective | pkg/server/server.go:210 | distinct byte strings have distinct encodings |
| Correlation.GenerateRequestId | pkg/server/server.go:205-211 | when `length/2` is 0 the id is `""` and never fails; otherwise an id exists exactly when the source yields `length/2` bytes, and it is `2*(length/2)` lower-case hex characters that decode to those bytes |
| Correlation.AssignRequestId | pkg/server/server.go:113-127 | a supplied `request_id` is used verbatim; otherwise the id is generated with length 8 |
| Correlation.WithRequestId | pkg/server/server.go:110-146 | a supplied id is the header; whenever a header is set it is non-empty and the handler's reply is given with it; without one the reply is 500 |
| Correlation.RequestIdSelection | pkg/server/server.go:113-144 | the chosen id is echoed in `X-Request-ID` and given to the handler; a generated one has 8 characters; only a failing random source gives 500 and no header |
| Correlation.GeneratedIdsDistinct | pkg/server/server.go:205-211 | different random bytes give different ids |
| Correlation.BackendRequest | pkg/server/server.go:220-239 | `request_id` is appended exactly when the context id is non-empty; the form Content-Type is set exactly for a POST with a body |
| Correlation.NewsListRequest | pkg/server/server.go:413-415 | a GET with no Content-Type and no body; `request_id` exactly when the context id is non-empty |
| Correlation.NewsItemRequest | pkg/server/server.go:274-276 | a GET with no Content-Type and no body, the `request_id` rule, and a URL whose part after `/api/news/` reads back as the id |
| Correlation.CommentsRequest | pkg/server/server.go:327-329 | a GET with no Content-Type and no body, the `request_id` rule, and a URL whose `id` parameter reads back as the id |
| Correlation.AddCommentRequest | pkg/server/server.go:754-788 | a POST with the JSON Content-Type and the `{"text": ...}` body, the `request_id` rule, and a URL whose `id` parameter reads back as the id |
| Correlation.EveryCallCarriesTheId | pkg/server/server.go:232-239 | every backend call carries the middleware's id; the GET calls carry no Content-Type; the comment POST carries JSON |
| Correlation.ItemUrlCarriesParsedId | pkg/server/server.go:266-276 | the news URL of the composite flow names the id as parsed |
| Handlers.NewsReply | pkg/server/server.go:246-534 | without `comm`: a summary envelope exactly for a GET whose listing fetch reached the news service, and 200 exactly for that envelope; with `comm`: a news-with-comments reply or a JSON error |
| Handlers.FullNewsReply | pkg/server/server.go:537-698 | a full envelope exactly for a GET whose listing fetch reached the news service, and 200 exactly for it; 405 exactly for a non-GET; for a GET, 500 exactly on transport failure |
| Handlers.HandleNews | pkg/server/server.go:246-534 | `handleNews` computes the news reply function |
| Handlers.HandleFullNews | pkg/server/server.go:537-698 | `handleFullNews` computes the full-news reply function |
| Handlers.CompositeIgnoresMethod | pkg/server/server.go:252-386 | with `comm` the composite flow runs whatever the HTTP method |
| Handlers.ListingRepliesNeverReject | pkg/server/server.go:381-456 | without `comm`: non-GET 405; 500 exactly on transport failure; otherwise 200 with an envelope, for both listings |

## Left out

- HTTP transport and server lifecycle (`http.DefaultClient.Do`, `ListenAndServe`, `Start`, the `ServeMux` routing of `setupRoutes`, the `responseWriter` wrapper). These are library I/O. Upstream responses are `Http.Fetch` values instead.
- `loggingMiddleware` and every `log.Printf`. They only affect log output.
- `crypto/rand.Read`. Randomness is the `Correlation.Entropy` parameter. Only the length and hex rules are modelled.
- JSON encoding and decoding. Decoding is an abstract success or failure that carries the decoded value. Encoded output is the `Http.Payload` value.
- Views.NumericId: JSON numbers are integers here. Go's `float64` ids, and the truncation of `int64(id)`, are not modelled.
- Strings.ToLower: only ASCII letters are lower-cased. Unicode case mapping of `strings.ToLower` is not modelled.
- Listing.PaginateFiltered: `totalItems + count - 1` (server.go:478), `(page - 1) * count` and `startIndex + count` (server.go:489-490) are computed over unbounded integers, so the ceiling, window and range results hold only there. Go's 64-bit `int` wraps. With `count` = 9223372036854775807 and 2 records, `total_pages` comes out as -1. With `page` = 4611686018427387905 and `count` = 4, the start wraps to 0 and page 1's records are returned. With `page` = 6917529027641081857 and `count` = 2, the start wraps to -2^62, passes the range check, and the slice at server.go:505 panics.
- Pagination.TotalPages: the same wrap of `totalItems + count - 1` is not modelled; the ceiling property holds over unbounded integers only.
- Context cancellation and deadlines of outbound calls. These are concurrency and runtime behaviour.
- Outbound URL query re-encoding (`q.Encode` sorts and percent-escapes). `Correlation.Outbound.requestId` stands for the appended parameter.
- Comments.AddCommentReply: a comment request that cannot be built (`http.NewRequestWithContext`, a malformed configured URL) counts as a transport failure. Both answer 500, with different messages in the source. The `json.Marshal` failure branch cannot happen for a map of strings, so it is not modelled.
- Error message texts, including the transport error text appended to two messages, are reduced to the `Http.Msg` tags.
- Composite.CommentsOrEmpty: a comments body of JSON `null` decodes to a nil slice, which Go re-encodes as `null`. The model does not tell it apart from `[]`.
- Query parameters: only the first value of each key is modelled. An empty value is the same as an absent key, as with `query.Get`.
- `handleNewsWithID` (`/api/news/{id}`) is not part of this model. It repeats the news-fetch steps of the composite flow.
- `pkg/config/config.go`: `LoadConfig` is file I/O. Of `NewConfig` only the two default service URLs appear, as `Correlation.DefaultServices`.
- `server/main.go` is not part of this model. It only parses flags and starts the server.
