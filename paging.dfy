/**
 * `skip((page - 1) * limit).take(limit)` with the total counted before paging,
 * as both the public screener and the admin list return it.
 */
module Paging {

  /** What a paged list endpoint returns: one page, the size of the whole result, and the echoed paging. */
  datatype PageResult<T> = PageResult(data: seq<T>, total: nat, page: int, limit: int)

  function Offset(page: int, limit: int): int
  {
    (page - 1) * limit
  }

  /** The rows from offset `(page - 1) * limit`, at most `limit` of them. */
  function PageOf<T>(xs: seq<T>, page: int, limit: int): (r: seq<T>)
    requires page >= 1 && limit >= 1
    ensures |r| <= limit
    ensures Offset(page, limit) >= |xs| ==> r == []
    ensures Offset(page, limit) + limit <= |xs| ==> |r| == limit
    ensures Offset(page, limit) < |xs| < Offset(page, limit) + limit ==> |r| == |xs| - Offset(page, limit)
    ensures r != [] ==> 0 <= Offset(page, limit) && Offset(page, limit) + |r| <= |xs|
    ensures forall i :: 0 <= i < |r| ==> r[i] == xs[Offset(page, limit) + i]
  {
    var skip := Offset(page, limit);
    assert skip >= 0 by {
      assert page - 1 >= 0;
    }
    if skip >= |xs| then []
    else if skip + limit <= |xs| then xs[skip..skip + limit]
    else xs[skip..]
  }

  /** Every row of the result is on exactly the page its position says: page `k / limit + 1`, slot `k % limit`. */
  lemma EveryRowOnItsPage<T>(xs: seq<T>, limit: int, k: nat) returns (page: int, slot: nat)
    requires limit >= 1 && k < |xs|
    ensures page == k / limit + 1 && slot == k % limit && page >= 1
    ensures slot < |PageOf(xs, page, limit)| && PageOf(xs, page, limit)[slot] == xs[k]
  {
    page := k / limit + 1;
    slot := k % limit;
    assert Offset(page, limit) == k - k % limit by {
      assert (page - 1) * limit == (k / limit) * limit;
      assert k == (k / limit) * limit + k % limit;
    }
  }

  /** A page past the last one is empty; a non-empty page starts inside the result. */
  lemma PastTheEndIsEmpty<T>(xs: seq<T>, page: int, limit: int)
    requires page >= 1 && limit >= 1
    ensures PageOf(xs, page, limit) == [] <==> Offset(page, limit) >= |xs|
  {
    if Offset(page, limit) < |xs| {
      assert PageOf(xs, page, limit)[0] == xs[Offset(page, limit)];
    }
  }
}
