/** Lookups over tables kept as sequences of rows in insertion order. */
module Collections {
  import opened Wrappers

  /** Position of the first row satisfying `p`: a `findOne({ where })` without ORDER BY. */
  function FirstIndex<T>(xs: seq<T>, p: T -> bool): (r: Option<nat>)
    ensures r.Some? ==> r.value < |xs| && p(xs[r.value])
    ensures r.Some? ==> forall j :: 0 <= j < r.value ==> !p(xs[j])
    ensures r.None? <==> forall j :: 0 <= j < |xs| ==> !p(xs[j])
  {
    if xs == [] then None
    else if p(xs[0]) then Some(0)
    else match FirstIndex(xs[1..], p)
      case None => None
      case Some(k) => Some(k + 1)
  }

  /** The first row satisfying `p`, as `findOne({ where })` returns it. */
  function Find<T>(xs: seq<T>, p: T -> bool): (r: Option<T>)
    ensures r.Some? ==> r.value in xs && p(r.value)
    ensures r.None? <==> forall j :: 0 <= j < |xs| ==> !p(xs[j])
  {
    match FirstIndex(xs, p)
    case None => None
    case Some(k) => Some(xs[k])
  }

  /** Number of rows satisfying `p`. */
  function Count<T>(xs: seq<T>, p: T -> bool): (n: nat)
    ensures n <= |xs|
    ensures n == 0 <==> forall j :: 0 <= j < |xs| ==> !p(xs[j])
  {
    if xs == [] then 0
    else (if p(xs[0]) then 1 else 0) + Count(xs[1..], p)
  }

  /** The rows satisfying `p`, in their original order: a `WHERE` clause. */
  function Filter<T(!new)>(xs: seq<T>, p: T -> bool): (r: seq<T>)
    ensures |r| == Count(xs, p)
    ensures forall x :: x in r <==> x in xs && p(x)
  {
    if xs == [] then []
    else
      assert forall x :: x in xs <==> x == xs[0] || x in xs[1..];
      (if p(xs[0]) then [xs[0]] else []) + Filter(xs[1..], p)
  }

  /** Counting distributes over concatenation. */
  lemma {:induction false} CountAppend<T>(xs: seq<T>, ys: seq<T>, p: T -> bool)
    ensures Count(xs + ys, p) == Count(xs, p) + Count(ys, p)
  {
    if xs == [] {
      assert xs + ys == ys;
    } else {
      assert (xs + ys)[1..] == xs[1..] + ys;
      CountAppend(xs[1..], ys, p);
    }
  }

  /** A row satisfying `p` at position `k` is the only one iff no other position satisfies it. */
  lemma {:induction false} CountOne<T>(xs: seq<T>, p: T -> bool, k: nat)
    requires k < |xs| && p(xs[k])
    requires forall j :: 0 <= j < |xs| && j != k ==> !p(xs[j])
    ensures Count(xs, p) == 1
  {
    if k == 0 {
      assert Count(xs[1..], p) == 0;
    } else {
      CountOne(xs[1..], p, k - 1);
    }
  }
}
