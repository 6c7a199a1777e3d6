/**
 * ORDER BY as the database applies it to the screener and the admin list:
 * a sort key per row, PostgreSQL's NULL placement (NULL is greater than every
 * value: last in ASC, first in DESC), and a sort proved to return an ordered
 * permutation of its input.
 */
module Ordering {
  import opened Wrappers

  datatype SortOrder = Asc | Desc

  /** The value a row is ordered by: a nullable decimal column, a text column or a timestamp. */
  datatype SortKey = Amount(amount: Option<real>) | Text(text: string) | Moment(moment: int)

  /** Code-point lexicographic order on strings. */
  predicate TextLe(a: string, b: string)
  {
    if a == [] then true
    else if b == [] then false
    else if a[0] != b[0] then a[0] < b[0]
    else TextLe(a[1..], b[1..])
  }

  function Rank(k: SortKey): nat
  {
    match k
    case Amount(_) => 0
    case Text(_) => 1
    case Moment(_) => 2
  }

  /** Ascending order on keys; keys of different shapes never meet in one query. */
  predicate KeyLe(a: SortKey, b: SortKey)
  {
    if Rank(a) != Rank(b) then Rank(a) < Rank(b)
    else match a
      case Amount(x) => b.amount.None? || (x.Some? && x.value <= b.amount.value)
      case Text(s) => TextLe(s, b.text)
      case Moment(t) => t <= b.moment
  }

  /** `a` may precede `b` in a result sorted by `o`. */
  predicate InOrder(a: SortKey, b: SortKey, o: SortOrder)
  {
    if o == Asc then KeyLe(a, b) else KeyLe(b, a)
  }

  lemma {:induction false} TextLeTotal(a: string, b: string)
    ensures TextLe(a, b) || TextLe(b, a)
  {
    if a != [] && b != [] && a[0] == b[0] {
      TextLeTotal(a[1..], b[1..]);
    }
  }

  lemma {:induction false} TextLeTransitive(a: string, b: string, c: string)
    requires TextLe(a, b) && TextLe(b, c)
    ensures TextLe(a, c)
  {
    if a != [] && b != [] && c != [] && a[0] == b[0] && b[0] == c[0] {
      TextLeTransitive(a[1..], b[1..], c[1..]);
    }
  }

  lemma InOrderTotal(a: SortKey, b: SortKey, o: SortOrder)
    ensures InOrder(a, b, o) || InOrder(b, a, o)
  {
    if a.Text? && b.Text? {
      TextLeTotal(a.text, b.text);
    }
  }

  lemma InOrderTransitive(a: SortKey, b: SortKey, c: SortKey, o: SortOrder)
    requires InOrder(a, b, o) && InOrder(b, c, o)
    ensures InOrder(a, c, o)
  {
    if a.Text? && b.Text? && c.Text? {
      if o == Asc {
        TextLeTransitive(a.text, b.text, c.text);
      } else {
        TextLeTransitive(c.text, b.text, a.text);
      }
    }
  }

  ghost predicate SortedBy<T>(xs: seq<T>, key: T -> SortKey, o: SortOrder)
  {
    forall i, j :: 0 <= i < j < |xs| ==> InOrder(key(xs[i]), key(xs[j]), o)
  }

  /** Places `x` before the first element it may precede. */
  function Insert<T>(x: T, xs: seq<T>, key: T -> SortKey, o: SortOrder): (r: seq<T>)
    ensures multiset(r) == multiset(xs) + multiset{x}
    ensures |r| == |xs| + 1
  {
    if xs == [] then [x]
    else if InOrder(key(x), key(xs[0]), o) then [x] + xs
    else
      assert xs == [xs[0]] + xs[1..];
      [xs[0]] + Insert(x, xs[1..], key, o)
  }

  /** The rows of `xs` rearranged by `key` in direction `o` (insertion sort). */
  function Sort<T>(xs: seq<T>, key: T -> SortKey, o: SortOrder): (r: seq<T>)
    ensures multiset(r) == multiset(xs)
    ensures |r| == |xs|
  {
    if xs == [] then []
    else
      assert xs == [xs[0]] + xs[1..];
      Insert(xs[0], Sort(xs[1..], key, o), key, o)
  }

  lemma {:induction false} InsertSorted<T>(x: T, xs: seq<T>, key: T -> SortKey, o: SortOrder)
    requires SortedBy(xs, key, o)
    ensures SortedBy(Insert(x, xs, key, o), key, o)
  {
    if xs == [] {
    } else if InOrder(key(x), key(xs[0]), o) {
      var r := [x] + xs;
      forall i, j | 0 <= i < j < |r|
        ensures InOrder(key(r[i]), key(r[j]), o)
      {
        if i == 0 && j > 1 {
          InOrderTransitive(key(x), key(xs[0]), key(xs[j - 1]), o);
        }
      }
    } else {
      var tail := Insert(x, xs[1..], key, o);
      InsertSorted(x, xs[1..], key, o);
      InOrderTotal(key(x), key(xs[0]), o);
      var r := [xs[0]] + tail;
      forall i, j | 0 <= i < j < |r|
        ensures InOrder(key(r[i]), key(r[j]), o)
      {
        if i == 0 {
          var y := r[j];
          assert y in multiset(tail);
          assert y == x || y in xs[1..];
        }
      }
    }
  }

  /** The sort returns its rows ordered by the key. */
  lemma {:induction false} SortSorted<T>(xs: seq<T>, key: T -> SortKey, o: SortOrder)
    ensures SortedBy(Sort(xs, key, o), key, o)
  {
    if xs != [] {
      SortSorted(xs[1..], key, o);
      InsertSorted(xs[0], Sort(xs[1..], key, o), key, o);
    }
  }
}
