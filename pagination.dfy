/**
 * bntl/pagination.py: one page of a query's results with the numbers the
 * page navigation needs. The cursor's `skip`/`limit` are applied to the
 * matching documents in the order the store returns them.
 */
module Pagination {
  import opened Common

  /** `PagedResponseSchema`. */
  datatype PagedResponse<T> = PagedResponse(total: int, page: int, fromPage: int, toPage: int,
                                            totalPages: int, size: int, items: seq<T>)

  /** Python's `a // b` (floor division); Dafny's `/` agrees with it only for a positive divisor. */
  function FloorDiv(a: int, b: int): (q: int)
    requires b != 0
    ensures b > 0 ==> q * b <= a < q * b + b
    ensures b < 0 ==> q * b >= a > q * b + b
  {
    if b > 0 then a / b else (-a) / (-b)
  }

  function Max(a: int, b: int): int { if a >= b then a else b }
  function Min(a: int, b: int): int { if a <= b then a else b }
  function Abs(a: int): nat { if a >= 0 then a else -a }

  /** How many of n results remain after skipping `skip` (>= 0), capped at |limit| unless limit is 0. */
  function WindowLength(n: nat, skip: int, limit: int): nat
  {
    if limit == 0 then Max(0, n - skip) else Min(Abs(limit), Max(0, n - skip))
  }

  /**
   * The documents a cursor yields after `.skip(skip).limit(limit)`: a negative skip is refused,
   * a zero limit means no limit, and a negative limit returns at most |limit| documents.
   */
  function Window<T>(results: seq<T>, skip: int, limit: int): (r: Result<seq<T>>)
    ensures r.Err? <==> skip < 0
    ensures r.Ok? ==> |r.value| == WindowLength(|results|, skip, limit)
    ensures r.Ok? ==> forall j :: 0 <= j < |r.value| ==> r.value[j] == results[skip + j]
  {
    if skip < 0 then Err(ValueError("skip must be >= 0"))
    else
      var from := Min(skip, |results|);
      var to := if limit == 0 then |results| else Min(from + Abs(limit), |results|);
      Ok(results[from..to])
  }

  /**
   * `paginate(coll, query, ResponseSchema, page, size, transform)`, with `results` the documents
   * matching the query in cursor order and `transform` the conversion applied to each.
   * The cursor is consumed only after `total // size`, so a zero size raises ZeroDivisionError.
   */
  function Paginate<T, U>(results: seq<T>, page: int, size: int, transform: T -> U): Result<PagedResponse<U>>
  {
    var window :- Window(results, (page - 1) * size, size);
    var total := |results|;
    if size == 0 then Err(ZeroDivisionError)
    else
      var totalPages := FloorDiv(total, size);
      Ok(PagedResponse(total, page, Max(1, page - 4), Min(totalPages, page + 4), totalPages, size,
                       seq(|window|, i requires 0 <= i < |window| => transform(window[i]))))
  }

  /**
   * For page >= 1 and size >= 1, page p holds results [(p-1)*size, p*size) (cut at the end),
   * each transformed, in cursor order; so never more than `size` items.
   */
  lemma {:induction false} PageContents<T, U>(results: seq<T>, page: int, size: int, transform: T -> U)
    requires page >= 1 && size >= 1
    ensures var r := Paginate(results, page, size, transform);
      && r.Ok?
      && var first := (page - 1) * size;
         && |r.value.items| == Max(0, Min(page * size, |results|) - first)
         && |r.value.items| <= size
         && forall i :: 0 <= i < |r.value.items| ==> r.value.items[i] == transform(results[first + i])
  {
    var first := (page - 1) * size;
    MulSign(page - 1, size);
    assert first + size == page * size;
  }

  /** The response echoes the total, page and size it was computed from; total_pages is
      total // size and the window is [max(1, page - 4), min(total_pages, page + 4)]. */
  lemma {:induction false} EchoesRequest<T, U>(results: seq<T>, page: int, size: int, transform: T -> U)
    ensures var r := Paginate(results, page, size, transform);
      r.Ok? ==> && size != 0
                && r.value.total == |results| && r.value.page == page && r.value.size == size
                && r.value.totalPages == FloorDiv(|results|, size)
                && r.value.fromPage == Max(1, page - 4)
                && r.value.toPage == Min(r.value.totalPages, page + 4)
  {
  }

  /** A zero size is refused with ZeroDivisionError; a non-positive page with a positive size
      gives a negative skip, which the cursor refuses. */
  lemma {:induction false} RefusedRequests<T, U>(results: seq<T>, page: int, size: int, transform: T -> U)
    ensures size == 0 ==> Paginate(results, page, size, transform) == Err(ZeroDivisionError)
    ensures page <= 0 && size > 0 ==> Paginate(results, page, size, transform).Err?
  {
    if page <= 0 && size > 0 {
      MulSign(page, size);
      assert (page - 1) * size == page * size - size;
    }
  }

  /** The sign of a product with a positive factor. */
  lemma {:induction false} MulSign(a: int, b: int)
    requires b >= 1
    ensures a <= 0 ==> a * b <= 0
    ensures a >= 0 ==> a * b >= 0
  {
  }

  /** Fewer results than one page make zero full pages; a remainder leaves a partial page. */
  lemma {:induction false} FloorFacts(n: nat, size: int)
    requires size >= 1
    ensures var tp := FloorDiv(n, size);
      && tp >= 0
      && tp * size <= n < (tp + 1) * size
      && (n < size ==> tp == 0)
      && (n % size != 0 ==> tp * size < n)
  {
    var tp := FloorDiv(n, size);
    assert (tp + 1) * size == tp * size + size;
    assert (tp - 1) * size == tp * size - size;
    MulSign(tp + 1, size);
    MulSign(tp - 1, size);
  }

  /** How many items page p holds. */
  lemma {:induction false} PageLength<T, U>(results: seq<T>, page: int, size: int, transform: T -> U)
    requires page >= 1 && size >= 1
    ensures var r := Paginate(results, page, size, transform);
      r.Ok? && |r.value.items| == Max(0, Min(page * size, |results|) - (page - 1) * size)
  {
    assert (page - 1) * size + size == page * size;
    MulSign(page - 1, size);
  }

  /** `total_pages` is the floor of total / size. */
  lemma {:induction false} TotalPagesFloor<T, U>(results: seq<T>, page: int, size: int, transform: T -> U)
    requires page >= 1 && size >= 1
    ensures var r := Paginate(results, page, size, transform);
      && r.Ok?
      && r.value.totalPages * size <= |results| < (r.value.totalPages + 1) * size
  {
    PageLength(results, page, size, transform);
    EchoesRequest(results, page, size, transform);
    FloorFacts(|results|, size);
  }

  /** A partial last page is not counted in total_pages: when the total is not a multiple of
      size, the page after the last one counted still holds items. */
  lemma {:induction false} PartialPageUncounted<T, U>(results: seq<T>, size: int, transform: T -> U)
    requires size >= 1 && |results| % size != 0
    ensures var r := Paginate(results, FloorDiv(|results|, size) + 1, size, transform);
      r.Ok? && r.value.items != []
  {
    var n := |results|;
    var tp := FloorDiv(n, size);
    var p := tp + 1;
    var k := tp * size;
    assert p >= 1 && k < n < k + size && p * size == k + size && (p - 1) * size == k by {
      FloorFacts(n, size);
    }
    PageLength(results, p, size, transform);
  }

  /**
   * The navigation window: 1 <= from_page <= page, to_page <= page + 4, and at most nine pages
   * are offered; when there are fewer results than one page, to_page is 0, below from_page.
   */
  lemma {:induction false} NavigationWindow<T, U>(results: seq<T>, page: int, size: int, transform: T -> U)
    requires page >= 1 && size >= 1
    ensures var r := Paginate(results, page, size, transform);
      && r.Ok?
      && 1 <= r.value.fromPage <= page
      && r.value.toPage <= page + 4
      && r.value.toPage - r.value.fromPage <= 8
      && (|results| < size ==> r.value.toPage == 0 < r.value.fromPage)
  {
    PageLength(results, page, size, transform);
    EchoesRequest(results, page, size, transform);
    FloorFacts(|results|, size);
  }
}
