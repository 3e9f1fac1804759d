/** Paged lists: the slices a list service fetches and the record `CustomApiResponse.paginated` wraps them in. */
module Pagination {

  datatype Page<T> = Page(data: seq<T>, total: nat, page: nat, limit: nat, lastPage: int)

  function Min(a: int, b: int): int
  {
    if a < b then a else b
  }

  function Ceil(x: real): int
  {
    -((-x).Floor)
  }

  /** `skip` and `take` on the ordered result list. */
  function FindMany<T>(rows: seq<T>, skip: nat, take: nat): seq<T>
  {
    rows[Min(skip, |rows|)..Min(skip + take, |rows|)]
  }

  function Paginated<T>(data: seq<T>, page: nat, limit: nat, total: nat): Page<T>
    requires limit >= 1
  {
    Page(data, total, page, limit, Ceil(total as real / limit as real))
  }

  /** The query DTO admits pages and limits from 1 on. */
  function FindAll<T>(rows: seq<T>, page: nat, limit: nat): Page<T>
    requires page >= 1 && limit >= 1
  {
    Paginated(FindMany(rows, Skip(page, limit), limit), page, limit, |rows|)
  }

  function Skip(page: nat, limit: nat): nat
    requires page >= 1
  {
    limit * (page - 1)
  }

  // ---------------------------------------------------------------- the last page

  lemma CeilIsLeast(x: real)
    ensures (Ceil(x) - 1) as real < x <= Ceil(x) as real
  {
  }

  lemma TimesQuotient(total: nat, limit: nat, n: int)
    requires limit >= 1
    ensures total as real / limit as real <= n as real <==> total <= limit * n
  {
    var x := total as real / limit as real;
    assert x * limit as real == total as real;
    if x <= n as real {
      assert x * limit as real <= n as real * limit as real;
      assert (limit * n) as real == n as real * limit as real;
    } else {
      assert x * limit as real > n as real * limit as real;
      assert (limit * n) as real == n as real * limit as real;
    }
  }

  lemma NotNegative(limit: nat, n: int)
    requires limit >= 1 && limit * n >= 0
    ensures n >= 0
  {
  }

  /** The reported last page is the number of pages needed: enough, and one fewer is not. */
  lemma LastPageIsLeast<T>(rows: seq<T>, page: nat, limit: nat)
    requires page >= 1 && limit >= 1
    ensures var last := FindAll(rows, page, limit).lastPage;
      last >= 0 && limit * (last - 1) < |rows| <= limit * last
  {
    var last := FindAll(rows, page, limit).lastPage;
    CeilIsLeast(|rows| as real / limit as real);
    TimesQuotient(|rows|, limit, last);
    TimesQuotient(|rows|, limit, last - 1);
    NotNegative(limit, last);
  }

  function LastPage(total: nat, limit: nat): (n: nat)
    requires limit >= 1
    ensures limit * (n - 1) < total <= limit * n
  {
    LastPageIsLeast(seq(total, _ => 0), 1, limit);
    Ceil(total as real / limit as real)
  }

  /** The record says which page of what size it is, and of how many rows. */
  lemma RecordSays<T>(rows: seq<T>, page: nat, limit: nat)
    requires page >= 1 && limit >= 1
    ensures var r := FindAll(rows, page, limit);
      && r.total == |rows| && r.page == page && r.limit == limit
      && r.lastPage == (|rows| + limit - 1) / limit
  {
    var last := FindAll(rows, page, limit).lastPage;
    LastPageIsLeast(rows, page, limit);
    OneMore(limit, last);
    QuotientIs(|rows| + limit - 1, limit, last);
  }

  lemma QuotientIs(a: int, limit: int, n: int)
    requires limit >= 1 && limit * n <= a < limit * n + limit
    ensures a / limit == n
  {
    var q := a / limit;
    assert limit * q <= a < limit * q + limit;
    if q < n { TimesMonotone(limit, q + 1, n); OneMore(limit, q + 1); }
    if q > n { TimesMonotone(limit, n + 1, q); OneMore(limit, n + 1); }
  }

  // ---------------------------------------------------------------- the pages partition the list

  function Data<T>(rows: seq<T>, page: nat, limit: nat): seq<T>
    requires page >= 1 && limit >= 1
  {
    FindAll(rows, page, limit).data
  }

  /** Pages `1..n`, one after the other. */
  function FirstPages<T>(rows: seq<T>, n: nat, limit: nat): seq<T>
    requires limit >= 1
  {
    if n == 0 then [] else FirstPages(rows, n - 1, limit) + Data(rows, n, limit)
  }

  lemma OneMore(limit: int, n: int)
    ensures limit * n == limit * (n - 1) + limit
  {
  }

  lemma TimesMonotone(limit: nat, a: int, b: int)
    requires a <= b
    ensures limit * a <= limit * b
  {
  }

  lemma {:induction false} FirstPagesArePrefix<T>(rows: seq<T>, n: nat, limit: nat)
    requires limit >= 1
    ensures FirstPages(rows, n, limit) == rows[..Min(limit * n, |rows|)]
  {
    if n > 0 {
      FirstPagesArePrefix(rows, n - 1, limit);
      OneMore(limit, n);
      var a, b := Min(limit * (n - 1), |rows|), Min(limit * n, |rows|);
      assert Data(rows, n, limit) == rows[a..b];
      assert rows[..a] + rows[a..b] == rows[..b];
    }
  }

  /** Reading pages 1 to the last in turn gives every row exactly once, in order. */
  lemma PagesPartition<T>(rows: seq<T>, limit: nat)
    requires limit >= 1
    ensures FirstPages(rows, LastPage(|rows|, limit), limit) == rows
  {
    FirstPagesArePrefix(rows, LastPage(|rows|, limit), limit);
  }

  /** Pages before the last are full, the last holds the rest and is not empty unless the list is, later ones are empty. */
  lemma PageSizes<T>(rows: seq<T>, page: nat, limit: nat)
    requires page >= 1 && limit >= 1
    ensures var last := LastPage(|rows|, limit); var size := |Data(rows, page, limit)|;
      && (page < last ==> size == limit)
      && (page == last ==> size == |rows| - limit * (last - 1) && 0 < size <= limit)
      && (page > last ==> size == 0)
  {
    var last := LastPage(|rows|, limit);
    OneMore(limit, page);
    OneMore(limit, last);
    if page < last { TimesMonotone(limit, page, last - 1); }
    if page > last { TimesMonotone(limit, last, page - 1); }
  }

  /** A row is on exactly one page, the one its position says. */
  lemma RowIsOnPage<T>(rows: seq<T>, k: nat, page: nat, limit: nat)
    requires page >= 1 && limit >= 1 && k < |rows|
    ensures Skip(page, limit) <= k < Skip(page, limit) + limit <==> page == k / limit + 1
    ensures page == k / limit + 1 ==> k % limit < |Data(rows, page, limit)| && Data(rows, page, limit)[k % limit] == rows[k]
  {
    var q := k / limit;
    assert k == limit * q + k % limit;
    if page - 1 < q { TimesMonotone(limit, page, q); OneMore(limit, page); }
    if page - 1 > q { TimesMonotone(limit, q + 1, page - 1); OneMore(limit, q + 1); }
  }
}
