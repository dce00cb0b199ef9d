/** Page parameters of list queries: the bounds a request must satisfy and
    the OFFSET/LIMIT window a page stands for. */
module Pagination {
  import opened Common

  const DefaultPage: int := 1
  const DefaultPageSize: int := 20
  const MaxPageSize: int := 100

  datatype PaginationParams = PaginationParams(page: int, pageSize: int)

  /** The field constraints: page >= 1 and 1 <= page_size <= 100. */
  predicate ValidParams(p: PaginationParams)
  {
    p.page >= 1 && 1 <= p.pageSize <= MaxPageSize
  }

  datatype ParamError = PageTooSmall | PageSizeTooSmall | PageSizeTooLarge

  /** Builds the parameters from query values, rejecting out-of-range ones
      with one error per violated constraint. */
  function MakeParams(page: int := DefaultPage, pageSize: int := DefaultPageSize): (r: Result<PaginationParams, seq<ParamError>>)
    ensures r.Success? <==> ValidParams(PaginationParams(page, pageSize))
    ensures r.Success? ==> r.value == PaginationParams(page, pageSize)
    ensures r.Failure? ==> (PageTooSmall in r.error <==> page < 1)
    ensures r.Failure? ==> (PageSizeTooSmall in r.error <==> pageSize < 1)
    ensures r.Failure? ==> (PageSizeTooLarge in r.error <==> pageSize > MaxPageSize)
  {
    var errors := (if page < 1 then [PageTooSmall] else [])
      + (if pageSize < 1 then [PageSizeTooSmall] else [])
      + (if pageSize > MaxPageSize then [PageSizeTooLarge] else []);
    if errors == [] then Success(PaginationParams(page, pageSize)) else Failure(errors)
  }

  /** A query without page values gets page 1 of 20 items, which the bounds accept. */
  lemma DefaultParamsValid()
    ensures MakeParams() == Success(PaginationParams(DefaultPage, DefaultPageSize))
    ensures ValidParams(PaginationParams(DefaultPage, DefaultPageSize))
  {
  }

  /** The SQL OFFSET of a page: how many items the earlier pages hold. */
  function Offset(p: PaginationParams): (r: nat)
    requires ValidParams(p)
    ensures r % p.pageSize == 0
    ensures r / p.pageSize == p.page - 1
  {
    OffsetIsPageMultiple(p.page - 1, p.pageSize);
    (p.page - 1) * p.pageSize
  }

  /** The SQL LIMIT of a page. */
  function Limit(p: PaginationParams): (r: nat)
    requires ValidParams(p)
    ensures 1 <= r <= MaxPageSize
    ensures r == p.pageSize
  {
    p.pageSize
  }

  /** A positive multiple of `n` is at least `n`. */
  lemma MultipleAtLeast(d: int, n: int)
    requires d >= 1 && n >= 1
    ensures d * n >= n
  {
    assert d * n == (d - 1) * n + n;
    assert (d - 1) * n >= 0;
  }

  lemma OffsetIsPageMultiple(k: nat, n: int)
    requires n >= 1
    ensures (k * n) % n == 0 && (k * n) / n == k
  {
    var q := (k * n) / n;
    var m := (k * n) % n;
    assert k * n == q * n + m;
    assert (k - q) * n == k * n - q * n;
    if k > q {
      MultipleAtLeast(k - q, n);
    } else if k < q {
      MultipleAtLeast(q - k, n);
    }
  }

  /** The page after `p`, with the same page size. */
  function NextPage(p: PaginationParams): (r: PaginationParams)
    requires ValidParams(p)
    ensures ValidParams(r) && r.pageSize == p.pageSize && r.page == p.page + 1
  {
    PaginationParams(p.page + 1, p.pageSize)
  }

  /** Consecutive pages abut: the next page starts where this one ends. */
  lemma {:induction false} ConsecutivePagesAbut(p: PaginationParams)
    requires ValidParams(p)
    ensures Offset(NextPage(p)) == Offset(p) + Limit(p)
  {
    assert p.page * p.pageSize == (p.page - 1) * p.pageSize + p.pageSize;
  }

  /** Windows of two different pages of the same size do not overlap:
      the earlier one ends no later than the later one starts. */
  lemma {:induction false} WindowsDisjoint(p: PaginationParams, q: PaginationParams)
    requires ValidParams(p) && ValidParams(q)
    requires p.pageSize == q.pageSize && p.page < q.page
    ensures Offset(p) + Limit(p) <= Offset(q)
  {
    var n := p.pageSize;
    assert Offset(q) - Offset(p) == (q.page - 1) * n - (p.page - 1) * n;
    assert (q.page - 1) * n - (p.page - 1) * n == (q.page - p.page) * n;
    MultipleAtLeast(q.page - p.page, n);
  }

  /** The windows leave no gaps: every item index lies in exactly one page,
      the one numbered index / page_size + 1. */
  lemma {:induction false} IndexInExactlyOnePage(i: nat, pageSize: int)
    requires 1 <= pageSize <= MaxPageSize
    ensures var p := PaginationParams(i / pageSize + 1, pageSize);
      ValidParams(p) && Offset(p) <= i < Offset(p) + Limit(p)
    ensures forall q: PaginationParams ::
      (ValidParams(q) && q.pageSize == pageSize && Offset(q) <= i < Offset(q) + Limit(q))
      ==> q.page == i / pageSize + 1
  {
    var p := PaginationParams(i / pageSize + 1, pageSize);
    assert Offset(p) == (i / pageSize) * pageSize;
    assert i == (i / pageSize) * pageSize + i % pageSize && 0 <= i % pageSize < pageSize;
    forall q: PaginationParams | ValidParams(q) && q.pageSize == pageSize
      && Offset(q) <= i < Offset(q) + Limit(q)
      ensures q.page == i / pageSize + 1
    {
      if q.page < p.page {
        WindowsDisjoint(q, p);
      } else if q.page > p.page {
        WindowsDisjoint(p, q);
      }
    }
  }
}
