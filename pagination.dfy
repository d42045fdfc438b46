/**
 * Page and count parameters, the page count and the page window of the news
 * listings, and the paginated envelope they are answered with.
 */
module Pagination {
  import opened Wrappers
  import opened Strconv

  const DefaultPage: int := 1
  const DefaultCount: int := 10

  /**
   * A query value read leniently: a positive integer that fits in 64 bits is
   * taken, anything else (absent, empty, not a number, zero or negative)
   * gives the default. It is never an error.
   */
  function LenientPositive(s: string, default: int): (r: int)
    ensures default >= 1 ==> 1 <= r
    ensures r != default ==> ParseInt64(s) == Some(r) && r > 0
    ensures ParseInt64(s).Some? && ParseInt64(s).value > 0 ==> r == ParseInt64(s).value
    ensures ParseInt64(s).None? || ParseInt64(s).value <= 0 ==> r == default
  {
    if s == "" then default
    else
      match ParseInt64(s)
      case Some(v) => if v > 0 then v else default
      case None => default
  }

  /**
   * The parameter parsing of both listings: start from the defaults and
   * overwrite each one only with a positive parsed value.
   */
  method ParsePagination(pageStr: string, countStr: string) returns (page: int, count: int)
    ensures page == LenientPositive(pageStr, DefaultPage)
    ensures count == LenientPositive(countStr, DefaultCount)
    ensures page >= 1 && count >= 1
  {
    page := DefaultPage;
    count := DefaultCount;
    if pageStr != "" {
      var parsed := ParseInt64(pageStr);
      if parsed.Some? && parsed.value > 0 {
        page := parsed.value;
      }
    }
    if countStr != "" {
      var parsed := ParseInt64(countStr);
      if parsed.Some? && parsed.value > 0 {
        count := parsed.value;
      }
    }
  }

  /** The canonical spelling of any positive 64-bit value is taken verbatim. */
  lemma LenientPositiveVerbatim(n: nat, default: int)
    requires 1 <= n <= MaxInt64
    ensures LenientPositive(Decimal(n), default) == n
  {
    DecimalRoundTrip(n);
  }

  /** `p` is the ceiling of `total / count`. */
  ghost predicate IsCeiling(p: int, total: nat, count: int)
    requires count >= 1
  {
    (p - 1) * count < total <= p * count
  }

  /**
   * `(totalItems + count - 1) / count`: the number of pages, the ceiling of
   * `totalItems / count`; no items means no pages.
   */
  function TotalPages(totalItems: nat, count: int): (pages: nat)
    requires count >= 1
    ensures IsCeiling(pages, totalItems, count)
    ensures pages == 0 <==> totalItems == 0
  {
    var q := (totalItems + count - 1) / count;
    var r := (totalItems + count - 1) % count;
    assert totalItems + count - 1 == q * count + r;
    assert (q - 1) * count == q * count - count;
    q
  }

  /** The ceiling is unique, so the integer formula is the only page count. */
  lemma TotalPagesIsCeiling(totalItems: nat, count: int, p: int)
    requires count >= 1
    ensures IsCeiling(p, totalItems, count) ==> p == TotalPages(totalItems, count)
  {
    var q: int := TotalPages(totalItems, count);
    if IsCeiling(p, totalItems, count) {
      MulCancelStrict(p - 1, q, count);
      MulCancelStrict(q - 1, p, count);
    }
  }

  lemma MulCancelStrict(a: int, b: int, c: int)
    requires c >= 1 && a * c < b * c
    ensures a < b
  {
  }

  lemma MulMonotone(a: int, b: int, c: int)
    requires a <= b && c >= 0
    ensures a * c <= b * c
  {
  }

  /** The half-open range `[start, end)` of the filtered items a page shows. */
  datatype Window = Window(start: nat, end: nat)

  function Min(a: int, b: int): int { if a <= b then a else b }

  /**
   * The page window: none when there is nothing to show or the page starts
   * past the last item; otherwise it starts at `(page - 1) * count` and
   * holds `count` items, clamped to the end of the collection.
   */
  function PageWindow(page: int, count: int, totalItems: nat): (w: Option<Window>)
    requires page >= 1 && count >= 1
    ensures w.None? <==> totalItems == 0 || (page - 1) * count >= totalItems
    ensures w.Some? ==> w.value.start == (page - 1) * count
    ensures w.Some? ==> w.value.start < w.value.end <= totalItems
    ensures w.Some? ==> w.value.end == Min(page * count, totalItems)
    ensures w.Some? ==> w.value.end - w.value.start == Min(count, totalItems - w.value.start)
  {
    if totalItems == 0 then None
    else
      var start := (page - 1) * count;
      assert start >= 0 by { MulMonotone(0, page - 1, count); }
      var end := start + count;
      if start >= totalItems then None
      else Some(Window(start, if end > totalItems then totalItems else end))
  }

  /** Exactly the pages `1 ..= TotalPages` have a window. */
  lemma WindowExistsIffPageInRange(page: int, count: int, totalItems: nat)
    requires page >= 1 && count >= 1
    ensures PageWindow(page, count, totalItems).Some? <==> page <= TotalPages(totalItems, count)
  {
    var p := TotalPages(totalItems, count);
    TotalPagesIsCeiling(totalItems, count, p);
    if page <= p {
      MulMonotone(page - 1, p - 1, count);
    } else {
      MulMonotone(p, page - 1, count);
    }
  }

  /** Consecutive pages tile the collection: each starts where the previous ended. */
  lemma WindowsAreAdjacent(page: int, count: int, totalItems: nat)
    requires page >= 1 && count >= 1
    requires PageWindow(page + 1, count, totalItems).Some?
    ensures PageWindow(page, count, totalItems).Some?
    ensures PageWindow(page, count, totalItems).value.end == PageWindow(page + 1, count, totalItems).value.start
  {
    MulMonotone(page - 1, page, count);
  }

  /** `PaginatedResponse`. */
  datatype Envelope<T> = Envelope(items: seq<T>, totalPages: int, currentPage: int,
                                  itemsPerPage: int, totalItems: int)

  /** An envelope with no items and no pages that echoes the request's page and count. */
  predicate IsEmptyEnvelope<T>(e: Envelope<T>, page: int, count: int)
  {
    e.items == [] && e.totalPages == 0 && e.totalItems == 0
    && e.currentPage == page && e.itemsPerPage == count
  }

  /** `sendEmptyPaginatedResponse`. */
  function EmptyEnvelope<T>(page: int, count: int): (e: Envelope<T>)
    ensures IsEmptyEnvelope(e, page, count)
  {
    Envelope([], 0, page, count, 0)
  }
}
