/** `paginate` (utils/pagination.js): one page of an already filtered and
    sorted query result, with the total count and the number of pages. */
module Pagination {

  datatype Page<T> = Page(results: seq<T>, total: nat, page: int, totalPages: nat)

  /** Documents skipped before the page starts. */
  function Skip(page: int, limit: int): (s: int)
    requires page >= 1 && limit >= 1
    ensures s >= 0
    ensures page == 1 ==> s == 0
    ensures s + limit == page * limit
  {
    (page - 1) * limit
  }

  /** Math.ceil(total / limit) for a positive limit. */
  function CeilDiv(total: nat, limit: nat): (q: nat)
    requires limit >= 1
    ensures q * limit >= total
    ensures total == 0 <==> q == 0
    ensures q > 0 ==> (q - 1) * limit < total
  {
    if total == 0 then 0 else 1 + CeilDiv(if total <= limit then 0 else total - limit, limit)
  }

  /** `matching` is the whole query result in sort order; the page holds at
      most `limit` documents starting `Skip(page, limit)` documents in. */
  function Paginate<T>(matching: seq<T>, page: int := 1, limit: int := 20): (p: Page<T>)
    requires page >= 1 && limit >= 1
    ensures p.page == page && p.total == |matching|
    ensures |p.results| <= limit
    ensures Skip(page, limit) >= |matching| ==> p.results == []
    ensures Skip(page, limit) < |matching| ==>
              |p.results| == (if |matching| - Skip(page, limit) < limit then |matching| - Skip(page, limit) else limit)
    ensures forall k :: 0 <= k < |p.results| ==> p.results[k] == matching[Skip(page, limit) + k]
    ensures p.totalPages * limit >= p.total
    ensures p.totalPages > 0 ==> (p.totalPages - 1) * limit < p.total
  {
    var skip := Skip(page, limit);
    var rest := if skip < |matching| then matching[skip..] else [];
    var results := if |rest| <= limit then rest else rest[..limit];
    Page(results, |matching|, page, CeilDiv(|matching|, limit))
  }

  /** A page number within `totalPages` starts inside the result, so it is non-empty. */
  lemma {:induction false} PageWithinRangeIsNonEmpty<T>(matching: seq<T>, page: int, limit: int)
    requires limit >= 1 && 1 <= page <= Paginate(matching, page, limit).totalPages
    ensures Paginate(matching, page, limit).results != []
  {
    var p := Paginate(matching, page, limit);
    assert (page - 1) * limit <= (p.totalPages - 1) * limit by {
      MulMono(page - 1, p.totalPages - 1, limit);
    }
  }

  lemma MulMono(a: int, b: int, c: nat)
    requires 0 <= a <= b
    ensures a * c <= b * c
  {
  }
}
