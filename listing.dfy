/**
 * The news listing engine shared by `/api/news` (without `comm`) and
 * `/api/fullnews`: fetch everything, filter by title, cut out one page and
 * project it into the endpoint's view.
 */
module Listing {
  import opened Wrappers
  import opened Json
  import opened Strings
  import opened Views
  import opened Pagination
  import opened Http

  /** The record has a string title whose lower-cased form contains `lowerTerm`. */
  predicate TitleMatches(item: Record, lowerTerm: string)
  {
    "title" in item && item["title"].JStr? && Contains(ToLower(item["title"].str), lowerTerm)
  }

  /** The records that match, in their original order. */
  function KeepMatching(items: seq<Record>, lowerTerm: string): (r: seq<Record>)
    ensures |r| <= |items|
    ensures forall i | 0 <= i < |r| :: TitleMatches(r[i], lowerTerm)
  {
    if items == [] then []
    else
      var last := items[|items| - 1];
      KeepMatching(items[..|items| - 1], lowerTerm) + (if TitleMatches(last, lowerTerm) then [last] else [])
  }

  /** The search step: no term keeps every record, a term keeps the matching ones. */
  function SearchFilter(items: seq<Record>, term: string): (r: seq<Record>)
    ensures term == "" ==> r == items
    ensures |r| <= |items|
    ensures term != "" ==> forall i | 0 <= i < |r| :: TitleMatches(r[i], ToLower(term))
  {
    if term == "" then items else KeepMatching(items, ToLower(term))
  }

  /** The filtering loop of both listings. */
  method FilterNews(allNews: seq<Record>, searchTerm: string) returns (filtered: seq<Record>)
    ensures filtered == SearchFilter(allNews, searchTerm)
  {
    if searchTerm == "" {
      filtered := allNews;
      return;
    }
    var term := ToLower(searchTerm);
    filtered := [];
    for i := 0 to |allNews|
      invariant filtered == KeepMatching(allNews[..i], term)
    {
      var item := allNews[i];
      assert allNews[..i + 1][..i] == allNews[..i];
      if !("title" in item && item["title"].JStr?) {
        continue;
      }
      var title := item["title"].str;
      if Contains(ToLower(title), term) {
        filtered := filtered + [item];
      }
    }
    assert allNews[..|allNews|] == allNews;
  }

  /** Filtering a concatenation filters each part: the filter keeps the input's order. */
  lemma {:induction false} KeepMatchingAppend(a: seq<Record>, b: seq<Record>, lowerTerm: string)
    ensures KeepMatching(a + b, lowerTerm) == KeepMatching(a, lowerTerm) + KeepMatching(b, lowerTerm)
  {
    if b != [] {
      var b' := b[..|b| - 1];
      assert (a + b)[..|a + b| - 1] == a + b';
      assert (a + b)[|a + b| - 1] == b[|b| - 1];
      KeepMatchingAppend(a, b', lowerTerm);
    } else {
      assert a + b == a;
    }
  }

  /** A single record is kept exactly when it matches. */
  lemma KeepMatchingSingle(x: Record, lowerTerm: string)
    ensures KeepMatching([x], lowerTerm) == if TitleMatches(x, lowerTerm) then [x] else []
  {
    assert [x][..0] == [];
  }

  /** A record is in the result exactly when it is in the input and matches. */
  lemma {:induction false} KeepMatchingMembers(items: seq<Record>, lowerTerm: string, x: Record)
    ensures x in KeepMatching(items, lowerTerm) <==> x in items && TitleMatches(x, lowerTerm)
  {
    if items != [] {
      var init := items[..|items| - 1];
      KeepMatchingMembers(init, lowerTerm, x);
      assert items == init + [items[|items| - 1]];
    }
  }

  /** Filtering a filtered sequence again changes nothing. */
  lemma {:induction false} KeepMatchingIdempotent(items: seq<Record>, lowerTerm: string)
    ensures KeepMatching(KeepMatching(items, lowerTerm), lowerTerm) == KeepMatching(items, lowerTerm)
  {
    if items != [] {
      var init := items[..|items| - 1];
      var last := items[|items| - 1];
      KeepMatchingIdempotent(init, lowerTerm);
      var tail := if TitleMatches(last, lowerTerm) then [last] else [];
      KeepMatchingAppend(KeepMatching(init, lowerTerm), tail, lowerTerm);
      KeepMatchingSingle(last, lowerTerm);
    }
  }

  /**
   * With a search term, a record without a string title never survives;
   * without a term, the records come back unchanged.
   */
  lemma SearchFilterTitleRule(items: seq<Record>, term: string, x: Record)
    ensures term == "" ==> SearchFilter(items, term) == items
    ensures term != "" ==>
      (x in SearchFilter(items, term) <==> x in items && TitleMatches(x, ToLower(term)))
    ensures term != "" && ("title" !in x || !x["title"].JStr?) ==> x !in SearchFilter(items, term)
  {
    if term != "" {
      KeepMatchingMembers(items, ToLower(term), x);
    }
  }

  /** The case-insensitive search: `Elect` keeps `Election Results` and `electronics news`. */
  lemma ElectSearchExample()
    ensures var a, b, c := map["title" := JStr("Election Results")], map["title" := JStr("Sports")],
                           map["title" := JStr("electronics news")];
      SearchFilter([a, b, c], "Elect") == [a, c]
  {
    var a, b, c := map["title" := JStr("Election Results")], map["title" := JStr("Sports")],
                   map["title" := JStr("electronics news")];
    var t := ToLower("Elect");
    assert t == "elect";
    assert TitleMatches(a, t) by {
      assert ToLower("Election Results")[..5] == t;
      assert t <= ToLower("Election Results");
    }
    assert TitleMatches(c, t) by {
      assert ToLower("electronics news")[..5] == t;
      assert t <= ToLower("electronics news");
    }
    assert !TitleMatches(b, t) by {
      var s := ToLower("Sports");
      assert s == "sports";
      var s1 := s[1..];
      assert s[0] != t[0] && s1[0] != t[0];
      assert s1[1..] == s[2..];
      assert !Contains(s[2..], t);
      assert !Contains(s1, t);
      assert !Contains(s, t);
    }
    assert [a, b, c][..2] == [a, b];
    assert [a, b][..1] == [a];
    assert [a][..0] == [];
    assert KeepMatching([a], t) == [a];
    assert KeepMatching([a, b], t) == [a];
  }

  /** The projection loop's meaning: each record with a numeric id, in order, through `view`. */
  function ProjectAll<V>(items: seq<Record>, view: (Record, int) -> V): (r: seq<V>)
    ensures |r| <= |items|
  {
    if items == [] then []
    else
      var last := items[|items| - 1];
      ProjectAll(items[..|items| - 1], view)
        + (match NumericId(last) case Some(id) => [view(last, id)] case None => [])
  }

  /** The conversion loop of both listings: records without a numeric id are skipped. */
  method ProjectPage<V>(paged: seq<Record>, view: (Record, int) -> V) returns (out: seq<V>)
    ensures out == ProjectAll(paged, view)
  {
    out := [];
    for i := 0 to |paged|
      invariant out == ProjectAll(paged[..i], view)
    {
      var item := paged[i];
      assert paged[..i + 1][..i] == paged[..i];
      if !("id" in item && item["id"].JNum?) {
        continue;
      }
      out := out + [view(item, item["id"].num)];
    }
    assert paged[..|paged|] == paged;
  }

  /** Projecting a concatenation projects each part: the projection keeps order. */
  lemma {:induction false} ProjectAllAppend<V>(a: seq<Record>, b: seq<Record>, view: (Record, int) -> V)
    ensures ProjectAll(a + b, view) == ProjectAll(a, view) + ProjectAll(b, view)
  {
    if b != [] {
      var b' := b[..|b| - 1];
      assert (a + b)[..|a + b| - 1] == a + b';
      assert (a + b)[|a + b| - 1] == b[|b| - 1];
      ProjectAllAppend(a, b', view);
    } else {
      assert a + b == a;
    }
  }

  /** One record gives its view when its id is numeric and is skipped otherwise. */
  lemma ProjectAllSingle<V>(x: Record, view: (Record, int) -> V)
    ensures NumericId(x).Some? ==> ProjectAll([x], view) == [view(x, NumericId(x).value)]
    ensures NumericId(x).None? ==> ProjectAll([x], view) == []
  {
    assert [x][..0] == [];
  }

  predicate AllIdsNumeric(items: seq<Record>)
  {
    forall i | 0 <= i < |items| :: NumericId(items[i]).Some?
  }

  /** When every id is numeric nothing is skipped: one view per record, position by position. */
  lemma {:induction false} ProjectAllNumeric<V>(items: seq<Record>, view: (Record, int) -> V)
    requires AllIdsNumeric(items)
    ensures |ProjectAll(items, view)| == |items|
    ensures forall k | 0 <= k < |items| ::
      ProjectAll(items, view)[k] == view(items[k], NumericId(items[k]).value)
  {
    if items != [] {
      var init := items[..|items| - 1];
      assert AllIdsNumeric(init) by {
        forall i | 0 <= i < |init| ensures NumericId(init[i]).Some? {
          assert init[i] == items[i];
        }
      }
      ProjectAllNumeric(init, view);
    }
  }

  /** A listing either could not reach the news service or produced an envelope. */
  datatype Listed<V> = Unavailable | Listed(envelope: Envelope<V>)

  /**
   * Counting, windowing and projecting the filtered records. The page and
   * count are always echoed; the envelope is empty exactly when the page
   * starts at or past the last record, and otherwise carries the post-filter
   * item count, its ceiling page count and at most one window of views.
   */
  function Paginate<V>(filtered: seq<Record>, page: int, count: int, view: (Record, int) -> V): (e: Envelope<V>)
    requires page >= 1 && count >= 1
    ensures e.currentPage == page && e.itemsPerPage == count
    ensures IsEmptyEnvelope(e, page, count) <==> (page - 1) * count >= |filtered|
    ensures !IsEmptyEnvelope(e, page, count) ==>
      e.totalItems == |filtered| && IsCeiling(e.totalPages, |filtered|, count)
      && |e.items| <= Min(count, |filtered| - (page - 1) * count)
  {
    match PageWindow(page, count, |filtered|)
    case None => EmptyEnvelope(page, count)
    case Some(w) =>
      Envelope(ProjectAll(filtered[w.start..w.end], view), TotalPages(|filtered|, count), page, count, |filtered|)
  }

  function PageOf(query: Query): int { LenientPositive(Param(query, "page"), DefaultPage) }

  function CountOf(query: Query): int { LenientPositive(Param(query, "count"), DefaultCount) }

  /** The upstream answered 200 with a non-empty body that decoded to `all`. */
  predicate Decodes(fetch: Fetch<seq<Record>>, all: seq<Record>)
  {
    fetch.Replied? && fetch.status == 200 && fetch.body.Body? && fetch.body.raw != []
    && fetch.body.decoded == Some(all)
  }

  /**
   * The listing for one request: a transport failure is the only error; every
   * other upstream failure is answered with the empty envelope.
   */
  function ListingOf<V>(query: Query, fetch: Fetch<seq<Record>>, view: (Record, int) -> V): (r: Listed<V>)
    ensures r.Unavailable? <==> fetch.TransportFailed?
    ensures r.Listed? ==> r.envelope.currentPage == PageOf(query) && r.envelope.itemsPerPage == CountOf(query)
  {
    var page, count := PageOf(query), CountOf(query);
    match fetch
    case TransportFailed => Unavailable
    case Replied(status, body) =>
      if status != 200 then Listed(EmptyEnvelope(page, count))
      else
        match body
        case ReadFailed => Listed(EmptyEnvelope(page, count))
        case Body(raw, decoded) =>
          if raw == [] then Listed(EmptyEnvelope(page, count))
          else
            match decoded
            case None => Listed(EmptyEnvelope(page, count))
            case Some(all) => Listed(Paginate(SearchFilter(all, Param(query, "s")), page, count, view))
  }

  /**
   * The listing as the handlers run it, through the filtering and conversion
   * loops; `ListingOf` is its specification.
   */
  method ServeListing<V>(query: Query, fetch: Fetch<seq<Record>>, view: (Record, int) -> V) returns (r: Listed<V>)
    ensures r == ListingOf(query, fetch, view)
  {
    var page, count := ParsePagination(Param(query, "page"), Param(query, "count"));
    if fetch.TransportFailed? {
      return Unavailable;
    }
    if fetch.status != 200 || fetch.body.ReadFailed? || fetch.body.raw == [] || fetch.body.decoded.None? {
      return Listed(EmptyEnvelope(page, count));
    }
    var filtered := FilterNews(fetch.body.decoded.value, Param(query, "s"));
    var envelope := PaginateFiltered(filtered, page, count, view);
    r := Listed(envelope);
  }

  /**
   * Counting, range check, clamping and conversion as the handlers run them;
   * `Paginate` is its specification.
   */
  method PaginateFiltered<V>(filtered: seq<Record>, page: int, count: int, view: (Record, int) -> V)
    returns (e: Envelope<V>)
    requires page >= 1 && count >= 1
    ensures e == Paginate(filtered, page, count, view)
  {
    var totalItems := |filtered|;
    var totalPages := (totalItems + count - 1) / count;
    if totalItems == 0 {
      return EmptyEnvelope(page, count);
    }
    var startIndex := (page - 1) * count;
    var endIndex := startIndex + count;
    if startIndex >= totalItems {
      return EmptyEnvelope(page, count);
    }
    if endIndex > totalItems {
      endIndex := totalItems;
    }
    assert PageWindow(page, count, totalItems) == Some(Window(startIndex, endIndex));
    var items := ProjectPage(filtered[startIndex..endIndex], view);
    e := Envelope(items, totalPages, page, count, totalItems);
  }

  /** A non-200 status, a read error, an empty body or a decode error all give the empty envelope. */
  lemma ListingDegrades<V>(query: Query, fetch: Fetch<seq<Record>>, view: (Record, int) -> V)
    requires fetch.Replied?
    requires forall all :: !Decodes(fetch, all)
    ensures ListingOf(query, fetch, view) == Listed(EmptyEnvelope(PageOf(query), CountOf(query)))
  {
    if fetch.status == 200 && fetch.body.Body? && fetch.body.raw != [] && fetch.body.decoded.Some? {
      assert Decodes(fetch, fetch.body.decoded.value);
    }
  }

  /**
   * Every envelope echoes the parsed page and count (both at least 1) and is
   * either the empty envelope or an in-range page whose page count is the
   * ceiling of the item count and whose items fit the window.
   */
  lemma ListingEnvelopeShape<V>(query: Query, fetch: Fetch<seq<Record>>, view: (Record, int) -> V)
    requires ListingOf(query, fetch, view).Listed?
    ensures var e, page, count := ListingOf(query, fetch, view).envelope, PageOf(query), CountOf(query);
      page >= 1 && count >= 1 && e.currentPage == page && e.itemsPerPage == count
      && (IsEmptyEnvelope(e, page, count)
          || (e.totalItems > 0 && IsCeiling(e.totalPages, e.totalItems, count)
              && (page - 1) * count < e.totalItems
              && |e.items| <= Min(count, e.totalItems - (page - 1) * count)))
  {
    var page, count := PageOf(query), CountOf(query);
    var e := ListingOf(query, fetch, view).envelope;
    if !IsEmptyEnvelope(e, page, count) {
      var all := fetch.body.decoded.value;
      var f := SearchFilter(all, Param(query, "s"));
      TotalPagesIsCeiling(|f|, count, 0);
    }
  }

  /**
   * An in-range page is exactly the projection of
   * `filtered[(page-1)*count .. min(page*count, total))`, with the page count
   * and the post-filter item count; when every id is numeric it holds
   * `min(count, total - (page-1)*count)` items, one per record.
   */
  lemma ListingInRange<V>(query: Query, fetch: Fetch<seq<Record>>, view: (Record, int) -> V, all: seq<Record>)
    requires Decodes(fetch, all)
    requires (PageOf(query) - 1) * CountOf(query) < |SearchFilter(all, Param(query, "s"))|
    ensures var f, page, count := SearchFilter(all, Param(query, "s")), PageOf(query), CountOf(query);
      var start, end := (page - 1) * count, Min(page * count, |f|);
      0 <= start < end <= |f|
      && ListingOf(query, fetch, view)
         == Listed(Envelope(ProjectAll(f[start..end], view), TotalPages(|f|, count), page, count, |f|))
      && (AllIdsNumeric(f[start..end]) ==>
            |ListingOf(query, fetch, view).envelope.items| == Min(count, |f| - start) == end - start)
  {
    var f, page, count := SearchFilter(all, Param(query, "s")), PageOf(query), CountOf(query);
    var start, end := (page - 1) * count, Min(page * count, |f|);
    PaginateInRange(f, page, count, view);
    assert ListingOf(query, fetch, view) == Listed(Paginate(f, page, count, view));
    if AllIdsNumeric(f[start..end]) {
      ProjectAllNumeric(f[start..end], view);
    }
  }

  lemma PaginateInRange<V>(f: seq<Record>, page: int, count: int, view: (Record, int) -> V)
    requires page >= 1 && count >= 1 && (page - 1) * count < |f|
    ensures var start, end := (page - 1) * count, Min(page * count, |f|);
      0 <= start < end <= |f|
      && end - start == Min(count, |f| - start)
      && Paginate(f, page, count, view)
         == Envelope(ProjectAll(f[start..end], view), TotalPages(|f|, count), page, count, |f|)
  {
    var w := PageWindow(page, count, |f|);
    assert w.Some?;
  }

  /** No matching records, or a page past the last one, gives the empty envelope. */
  lemma ListingOutOfRange<V>(query: Query, fetch: Fetch<seq<Record>>, view: (Record, int) -> V, all: seq<Record>)
    requires Decodes(fetch, all)
    requires (PageOf(query) - 1) * CountOf(query) >= |SearchFilter(all, Param(query, "s"))|
    ensures ListingOf(query, fetch, view) == Listed(EmptyEnvelope(PageOf(query), CountOf(query)))
  {
  }

  /** Page 2 of 5 over 12 records with numeric ids: records 5 to 9, three pages. */
  lemma SecondPageOfTwelve<V>(fetch: Fetch<seq<Record>>, view: (Record, int) -> V, all: seq<Record>)
    requires Decodes(fetch, all) && |all| == 12 && AllIdsNumeric(all)
    ensures var q := map["page" := "2", "count" := "5"];
      var e := ListingOf(q, fetch, view).envelope;
      ListingOf(q, fetch, view).Listed?
      && e.totalPages == 3 && e.currentPage == 2 && e.itemsPerPage == 5 && e.totalItems == 12
      && |e.items| == 5
      && forall k | 0 <= k < 5 :: e.items[k] == view(all[5 + k], NumericId(all[5 + k]).value)
  {
    var q := map["page" := "2", "count" := "5"];
    assert Param(q, "s") == "";
    assert Param(q, "page") == Strconv.Decimal(2);
    assert Param(q, "count") == Strconv.Decimal(5);
    LenientPositiveVerbatim(2, DefaultPage);
    LenientPositiveVerbatim(5, DefaultCount);
    ListingInRange(q, fetch, view, all);
    assert AllIdsNumeric(all[5..10]) by {
      forall i | 0 <= i < 5 ensures NumericId(all[5..10][i]).Some? {
        assert all[5..10][i] == all[5 + i];
      }
    }
    ProjectAllNumeric(all[5..10], view);
  }
}
