/**
 * The category machinery shared by the skills view and the projects view:
 * the list of filter buttons (the "all" tag followed by every distinct
 * category in first-occurrence order) and the filter that a selected
 * button applies to a list of records.
 *
 * Records are generic; `key` projects a record onto its category.
 */
module Catalog {

  /** The tag of the "show everything" filter button. */
  const All: string := "全部"

  function Min(a: int, b: int): int
  {
    if a <= b then a else b
  }

  ghost predicate NoDuplicates(s: seq<string>)
  {
    forall i, j :: 0 <= i < j < |s| ==> s[i] != s[j]
  }

  /** The position of the first occurrence of `x` in `xs`. */
  function IndexOf(xs: seq<string>, x: string): (k: nat)
    requires x in xs
    ensures k < |xs| && xs[k] == x && x !in xs[..k]
  {
    if xs[0] == x then 0
    else
      var k' := IndexOf(xs[1..], x);
      assert xs[..k' + 1] == [xs[0]] + xs[1..][..k'];
      k' + 1
  }

  lemma IndexOfUnique(xs: seq<string>, x: string, k: nat)
    requires k < |xs| && xs[k] == x && x !in xs[..k]
    ensures IndexOf(xs, x) == k
  {
  }

  /**
   * The values of `xs` without repetitions, each at the place where it first
   * occurs: the iteration order of a JavaScript `Set` built from `xs`, which
   * visits each element in left-to-right order and keeps it only when it is
   * not already present.
   */
  function Distinct(xs: seq<string>): (r: seq<string>)
    ensures forall x :: x in r <==> x in xs
    ensures NoDuplicates(r)
    ensures |r| <= |xs|
    decreases |xs|
  {
    if xs == [] then []
    else
      var front := xs[..|xs| - 1];
      var last := xs[|xs| - 1];
      assert xs == front + [last];
      var d := Distinct(front);
      if last in d then d else d + [last]
  }

  /** The JavaScript `Set` keeps the order in which values first appear. */
  lemma {:induction false} DistinctInFirstOccurrenceOrder(xs: seq<string>, i: nat, j: nat)
    requires i < j < |Distinct(xs)|
    ensures IndexOf(xs, Distinct(xs)[i]) < IndexOf(xs, Distinct(xs)[j])
    decreases |xs|
  {
    var front := xs[..|xs| - 1];
    var last := xs[|xs| - 1];
    assert xs == front + [last];
    var d := Distinct(front);
    var r := Distinct(xs);
    assert r[i] in d;
    IndexOfUnique(xs, r[i], IndexOf(front, r[i]));
    if j < |d| {
      assert r[j] == d[j];
      IndexOfUnique(xs, r[j], IndexOf(front, r[j]));
      DistinctInFirstOccurrenceOrder(front, i, j);
    } else {
      assert last !in d && r[j] == last;
      assert xs[..|xs| - 1] == front;
      IndexOfUnique(xs, last, |xs| - 1);
    }
  }

  /** The filter buttons: the "all" tag, then every distinct category. */
  function CategoryList(cats: seq<string>): (r: seq<string>)
    ensures |r| >= 1 && r[0] == All
    ensures forall c :: c in r[1..] <==> c in cats
    ensures NoDuplicates(r[1..])
    ensures NoDuplicates(r) <==> All !in cats
  {
    var r := [All] + Distinct(cats);
    assert r[1..] == Distinct(cats);
    HeadRepeatedInTail(r);
    r
  }

  /** `x` occurs in `xs` before every occurrence of `y`: it comes first in first-occurrence order. */
  ghost predicate OccursBefore(xs: seq<string>, x: string, y: string)
  {
    exists a :: 0 <= a < |xs| && xs[a] == x && forall p :: 0 <= p < |xs| && xs[p] == y ==> a < p
  }

  /** The categories after the "all" tag are in the order in which they first occur. */
  lemma CategoryListInFirstOccurrenceOrder(cats: seq<string>, i: nat, j: nat)
    requires 1 <= i < j < |CategoryList(cats)|
    ensures OccursBefore(cats, CategoryList(cats)[i], CategoryList(cats)[j])
  {
    TailIsDistinct(cats);
    DistinctOccursBefore(cats, i - 1, j - 1);
    OccursBeforeTransfer(cats, CategoryList(cats), Distinct(cats), i, j);
  }

  lemma OccursBeforeTransfer(xs: seq<string>, r: seq<string>, d: seq<string>, i: nat, j: nat)
    requires 1 <= i < j < |r| && |r| == |d| + 1
    requires r[i] == d[i - 1] && r[j] == d[j - 1]
    requires OccursBefore(xs, d[i - 1], d[j - 1])
    ensures OccursBefore(xs, r[i], r[j])
  {
  }

  lemma TailIsDistinct(cats: seq<string>)
    ensures |CategoryList(cats)| == |Distinct(cats)| + 1
    ensures forall k :: 1 <= k < |CategoryList(cats)| ==> CategoryList(cats)[k] == Distinct(cats)[k - 1]
  {
  }

  lemma DistinctOccursBefore(xs: seq<string>, i: nat, j: nat)
    requires i < j < |Distinct(xs)|
    ensures OccursBefore(xs, Distinct(xs)[i], Distinct(xs)[j])
  {
    var d := Distinct(xs);
    DistinctInFirstOccurrenceOrder(xs, i, j);
    FirstBeforeEvery(xs, d[i], d[j]);
  }

  /** If `x` first occurs before `y` does, it occurs before every occurrence of `y`. */
  lemma FirstBeforeEvery(xs: seq<string>, x: string, y: string)
    requires x in xs && y in xs && IndexOf(xs, x) < IndexOf(xs, y)
    ensures OccursBefore(xs, x, y)
  {
    var a := IndexOf(xs, x);
    var b := IndexOf(xs, y);
    forall q | 0 <= q < b
      ensures xs[q] != y
    {
      assert xs[..b][q] == xs[q];
    }
  }

  lemma HeadRepeatedInTail(r: seq<string>)
    requires |r| >= 1
    ensures r[0] in r[1..] ==> !NoDuplicates(r)
  {
    if r[0] in r[1..] {
      var k :| 0 <= k < |r| - 1 && r[1..][k] == r[0];
      assert r[0] == r[k + 1];
    }
  }

  /** The category of every record, in list order. */
  function Keys<T>(xs: seq<T>, key: T -> string): (ks: seq<string>)
    ensures |ks| == |xs|
    ensures forall i :: 0 <= i < |xs| ==> ks[i] == key(xs[i])
  {
    seq(|xs|, i requires 0 <= i < |xs| => key(xs[i]))
  }

  /** `a` is obtained from `b` by deleting elements, keeping the order of the rest. */
  ghost predicate IsSubsequence<T>(a: seq<T>, b: seq<T>)
    decreases |b|
  {
    a == [] || (b != [] && ((a[0] == b[0] && IsSubsequence(a[1..], b[1..])) || IsSubsequence(a, b[1..])))
  }

  /** `xs.filter(x => key(x) === c)` */
  function Filter<T>(xs: seq<T>, key: T -> string, c: string): (r: seq<T>)
    ensures |r| <= |xs|
    ensures forall i :: 0 <= i < |r| ==> r[i] in xs && key(r[i]) == c
    ensures forall i :: 0 <= i < |xs| && key(xs[i]) == c ==> xs[i] in r
  {
    if xs == [] then []
    else
      assert xs == [xs[0]] + xs[1..];
      (if key(xs[0]) == c then [xs[0]] else []) + Filter(xs[1..], key, c)
  }

  lemma {:induction false} FilterIsSubsequence<T>(xs: seq<T>, key: T -> string, c: string)
    ensures IsSubsequence(Filter(xs, key, c), xs)
  {
    if xs != [] {
      FilterIsSubsequence(xs[1..], key, c);
      var rest := Filter(xs[1..], key, c);
      if key(xs[0]) == c {
        assert Filter(xs, key, c) == [xs[0]] + rest;
        assert ([xs[0]] + rest)[1..] == rest;
      } else {
        assert Filter(xs, key, c) == rest;
      }
    }
  }

  /** The filter keeps every matching record as often as it occurs, and nothing else. */
  lemma {:induction false} FilterMultiplicity<T>(xs: seq<T>, key: T -> string, c: string, x: T)
    ensures multiset(Filter(xs, key, c))[x] == if key(x) == c then multiset(xs)[x] else 0
  {
    if xs != [] {
      FilterMultiplicity(xs[1..], key, c, x);
      assert xs == [xs[0]] + xs[1..];
      assert multiset(xs) == multiset([xs[0]]) + multiset(xs[1..]);
      var head := if key(xs[0]) == c then [xs[0]] else [];
      assert multiset(Filter(xs, key, c)) == multiset(head) + multiset(Filter(xs[1..], key, c));
    }
  }

  /**
   * The list a view shows under the selected button: everything under the
   * "all" tag, the records of the selected category otherwise.
   */
  function ViewFilter<T>(xs: seq<T>, key: T -> string, selected: string): (r: seq<T>)
  {
    if selected == All then xs else Filter(xs, key, selected)
  }

  /** Under any other tag the view is exactly the order-preserving subsequence of matching records. */
  lemma ViewFilterSpec<T>(xs: seq<T>, key: T -> string, selected: string)
    ensures selected == All ==> ViewFilter(xs, key, selected) == xs
    ensures selected != All ==> IsSubsequence(ViewFilter(xs, key, selected), xs)
    ensures selected != All ==> forall x :: multiset(ViewFilter(xs, key, selected))[x] ==
                                            if key(x) == selected then multiset(xs)[x] else 0
  {
    if selected != All {
      FilterIsSubsequence(xs, key, selected);
      forall x ensures multiset(ViewFilter(xs, key, selected))[x] ==
                       if key(x) == selected then multiset(xs)[x] else 0 {
        FilterMultiplicity(xs, key, selected, x);
      }
    }
  }

  /**
   * A button taken from the list built from the records never selects an
   * empty view unless there are no records at all.
   */
  lemma ViewEmptyOnlyWithoutRecords<T>(xs: seq<T>, key: T -> string, selected: string)
    requires selected in CategoryList(Keys(xs, key))
    ensures ViewFilter(xs, key, selected) == [] <==> xs == []
  {
    if selected != All {
      var cats := CategoryList(Keys(xs, key));
      var k :| 0 <= k < |cats| && cats[k] == selected;
      assert cats[1..][k - 1] == selected;
      var i :| 0 <= i < |xs| && Keys(xs, key)[i] == selected;
      assert xs[i] in Filter(xs, key, selected);
    }
  }

  /** The first `n` records: `xs.slice(0, n)`. */
  function Take<T>(xs: seq<T>, n: nat): (r: seq<T>)
    ensures |r| == Min(n, |xs|)
    ensures r == xs[..|r|]
  {
    xs[..Min(n, |xs|)]
  }
}
