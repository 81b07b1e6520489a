/**
 * The array operations the list views rely on, as pure functions on sequences:
 * `Array.prototype.filter`, `map` used as replace-by-key, `slice` with its
 * index normalisation, and the stable `sort` driven by a three-way comparator.
 */
module Lists {

  /** `s.filter(keep)`: the elements that satisfy `keep`, in their original order. */
  function Filter<T(!new)>(s: seq<T>, keep: T -> bool): (r: seq<T>)
    ensures |r| <= |s|
    ensures forall x :: x in r <==> x in s && keep(x)
    ensures forall x :: multiset(r)[x] == if keep(x) then multiset(s)[x] else 0
    decreases |s|
  {
    if s == [] then []
    else
      var rest := Filter(s[1..], keep);
      assert s == [s[0]] + s[1..];
      if keep(s[0]) then [s[0]] + rest else rest
  }

  /** `r` is obtained from `s` by deleting some elements, keeping the order of the rest. */
  predicate IsSubsequence<T(==)>(r: seq<T>, s: seq<T>)
    decreases |s|
  {
    if r == [] then true
    else if s == [] then false
    else if r[0] == s[0] then IsSubsequence(r[1..], s[1..])
    else IsSubsequence(r, s[1..])
  }

  lemma {:induction false} FilterIsSubsequence<T(!new)>(s: seq<T>, keep: T -> bool)
    ensures IsSubsequence(Filter(s, keep), s)
    decreases |s|
  {
    if s != [] {
      FilterIsSubsequence(s[1..], keep);
      var rest := Filter(s[1..], keep);
      if keep(s[0]) {
        assert Filter(s, keep) == [s[0]] + rest;
        assert ([s[0]] + rest)[1..] == rest;
      } else {
        assert Filter(s, keep) == rest;
        SubsequenceOfTail(rest, s);
      }
    }
  }

  lemma {:induction false} SubsequenceOfTail<T>(r: seq<T>, s: seq<T>)
    requires s != [] && IsSubsequence(r, s[1..])
    ensures IsSubsequence(r, s)
    decreases |s|, 0
  {
    if r != [] && r[0] == s[0] {
      SubsequenceDropFirst(r, s[1..]);
    }
  }

  lemma {:induction false} SubsequenceDropFirst<T>(r: seq<T>, s: seq<T>)
    requires r != [] && IsSubsequence(r, s)
    ensures IsSubsequence(r[1..], s)
    decreases |s|, 1
  {
    if r[0] == s[0] {
      SubsequenceOfTail(r[1..], s);
    } else {
      SubsequenceDropFirst(r, s[1..]);
      SubsequenceOfTail(r[1..], s);
    }
  }

  lemma {:induction false} SubsequenceRefl<T>(s: seq<T>)
    ensures IsSubsequence(s, s)
    decreases |s|
  {
    if s != [] {
      SubsequenceRefl(s[1..]);
    }
  }

  /** A subsequence is never longer than the sequence it is taken from. */
  lemma {:induction false} SubsequenceLength<T>(r: seq<T>, s: seq<T>)
    requires IsSubsequence(r, s)
    ensures |r| <= |s|
    decreases |s|
  {
    if r != [] {
      if r[0] == s[0] {
        SubsequenceLength(r[1..], s[1..]);
      } else {
        SubsequenceLength(r, s[1..]);
      }
    }
  }

  /** A filter whose predicate holds everywhere returns the list unchanged. */
  lemma {:induction false} FilterAll<T(!new)>(s: seq<T>, keep: T -> bool)
    requires forall i :: 0 <= i < |s| ==> keep(s[i])
    ensures Filter(s, keep) == s
    decreases |s|
  {
    if s != [] {
      var tail := s[1..];
      forall i | 0 <= i < |tail|
        ensures keep(tail[i])
      {
        assert tail[i] == s[i + 1];
      }
      FilterAll(tail, keep);
      assert keep(s[0]);
      assert Filter(s, keep) == [s[0]] + Filter(tail, keep);
      assert s == [s[0]] + tail;
    }
  }

  /** Filtering twice keeps what passes both tests, as one filter would, so the order is kept. */
  lemma FilterTwice<T(!new)>(s: seq<T>, first: T -> bool, second: T -> bool)
    ensures IsSubsequence(Filter(Filter(s, first), second), s)
  {
    var both := (x: T) => first(x) && second(x);
    FilterFilter(s, first, second, both);
    FilterIsSubsequence(s, both);
  }

  lemma {:induction false} FilterFilter<T(!new)>(s: seq<T>, first: T -> bool, second: T -> bool, both: T -> bool)
    requires forall x :: both(x) == (first(x) && second(x))
    ensures Filter(Filter(s, first), second) == Filter(s, both)
    decreases |s|
  {
    if s != [] {
      FilterFilter(s[1..], first, second, both);
      var rest := Filter(s[1..], first);
      if first(s[0]) {
        assert Filter(s, first) == [s[0]] + rest;
        assert ([s[0]] + rest)[1..] == rest;
      }
    }
  }

  /** `s.map(x => hit(x) ? y : x)`: every element `hit` selects is replaced by `y`. */
  function ReplaceWhere<T>(s: seq<T>, hit: T -> bool, y: T): (r: seq<T>)
    ensures |r| == |s|
    ensures forall i :: 0 <= i < |s| ==> r[i] == if hit(s[i]) then y else s[i]
    decreases |s|
  {
    if s == [] then []
    else [if hit(s[0]) then y else s[0]] + ReplaceWhere(s[1..], hit, y)
  }

  /** Nothing is replaced when no element is selected. */
  lemma ReplaceNothing<T>(s: seq<T>, hit: T -> bool, y: T)
    requires forall i :: 0 <= i < |s| ==> !hit(s[i])
    ensures ReplaceWhere(s, hit, y) == s
  {
  }

  /** The ECMAScript normalisation of a relative index into `0..len`. */
  function ClampIndex(k: int, len: nat): (r: nat)
    ensures r <= len
    ensures 0 <= k <= len ==> r == k
    ensures k > len ==> r == len
    ensures k < 0 ==> r == if len + k < 0 then 0 else len + k
  {
    if k < 0 then (if len + k < 0 then 0 else len + k)
    else if k > len then len
    else k
  }

  /** `s.slice(start, end)`, negative indices counting from the end. */
  function Slice<T>(s: seq<T>, start: int, end: int): (r: seq<T>)
    ensures |r| <= |s|
    ensures forall x :: x in r ==> x in s
    ensures var from, to := ClampIndex(start, |s|), ClampIndex(end, |s|);
      r == if from <= to then s[from..to] else []
  {
    var from, to := ClampIndex(start, |s|), ClampIndex(end, |s|);
    if from <= to then s[from..to] else []
  }

  /** The two products of the page window: the first index is never negative and the end is one page further. */
  lemma PageBounds(page: int, size: int)
    requires page >= 1 && size >= 1
    ensures (page - 1) * size >= 0 && page * size == (page - 1) * size + size
  {
  }

  /** `s.slice(lo, lo + size)` from a non-negative index: at most `size` elements, starting at `lo`. */
  lemma WindowSlice<T>(s: seq<T>, lo: int, size: int)
    requires lo >= 0 && size >= 1
    ensures var r := Slice(s, lo, lo + size);
      && |r| <= size
      && (lo <= |s| ==> r == s[lo .. if lo + size <= |s| then lo + size else |s|])
      && (lo >= |s| ==> r == [])
  {
  }

  /**
   * The page window `s.slice((page - 1) * size, page * size)` for a page
   * numbered from 1: at most `size` elements, starting at the page's first index.
   */
  lemma PageSlice<T>(s: seq<T>, page: int, size: int)
    requires page >= 1 && size >= 1
    ensures var r := Slice(s, (page - 1) * size, page * size);
      && |r| <= size
      && ((page - 1) * size <= |s| ==>
            r == s[(page - 1) * size .. if page * size <= |s| then page * size else |s|])
      && ((page - 1) * size >= |s| ==> r == [])
  {
    PageBounds(page, size);
    WindowSlice(s, (page - 1) * size, size);
  }

  /**
   * Page `page` (numbered from 1) of `size` elements:
   * `s.slice((page - 1) * size, page * size)`.
   */
  function Page<T>(s: seq<T>, page: int, size: int): (r: seq<T>)
    ensures page >= 1 && size >= 1 ==>
      && |r| <= size
      && ((page - 1) * size >= |s| ==> r == [])
      && ((page - 1) * size <= |s| ==>
            r == s[(page - 1) * size .. if page * size <= |s| then page * size else |s|])
  {
    if page >= 1 && size >= 1 then
      PageSlice(s, page, size);
      Slice(s, (page - 1) * size, page * size)
    else
      Slice(s, (page - 1) * size, page * size)
  }

  /** A page that starts inside the list begins with the element at its first index `start`. */
  lemma PageFirst<T>(s: seq<T>, page: int, size: int, start: int)
    requires page >= 1 && size >= 1 && start == (page - 1) * size && start < |s|
    ensures Page(s, page, size) != [] && Page(s, page, size)[0] == s[start]
  {
    PageBounds(page, size);
  }

  // ---------------------------------------------------------------------------
  // Sorting with a three-way comparator, as `Array.prototype.sort` does: stable,
  // and `cmp(a, b) > 0` means that `b` must come first.

  /** Places `x` after every element that does not compare greater than it. */
  function Insert<T>(s: seq<T>, x: T, cmp: (T, T) -> int): (r: seq<T>)
    ensures multiset(r) == multiset(s) + multiset{x}
    ensures |r| == |s| + 1
    decreases |s|
  {
    if s == [] then [x]
    else if cmp(s[0], x) > 0 then [x] + s
    else
      assert s == [s[0]] + s[1..];
      [s[0]] + Insert(s[1..], x, cmp)
  }

  /** The stable sort of `s`: each element is inserted after the ones sorted before it. */
  function SortBy<T>(s: seq<T>, cmp: (T, T) -> int): (r: seq<T>)
    ensures multiset(r) == multiset(s)
    ensures |r| == |s|
    decreases |s|
  {
    if s == [] then []
    else
      assert s == s[..|s| - 1] + [s[|s| - 1]];
      Insert(SortBy(s[..|s| - 1], cmp), s[|s| - 1], cmp)
  }

  /** Two lists with the same multiset hold the same elements. */
  lemma SameElements<T>(a: seq<T>, b: seq<T>)
    requires multiset(a) == multiset(b)
    ensures forall x :: x in a <==> x in b
  {
    forall x
      ensures x in a <==> x in b
    {
      assert x in a <==> x in multiset(a);
      assert x in b <==> x in multiset(b);
    }
  }

  /** The comparator answers consistently when its arguments are swapped. */
  ghost predicate Antisymmetric<T(!new)>(cmp: (T, T) -> int)
  {
    forall a, b :: cmp(a, b) > 0 <==> cmp(b, a) < 0
  }

  /** No two neighbours are out of order. */
  ghost predicate Sorted<T>(s: seq<T>, cmp: (T, T) -> int)
  {
    forall i :: 0 <= i < |s| - 1 ==> cmp(s[i], s[i + 1]) <= 0
  }

  /** Inserting into a non-empty list puts either its old head or the new element first. */
  lemma InsertHead<T>(s: seq<T>, x: T, cmp: (T, T) -> int)
    requires s != []
    ensures Insert(s, x, cmp)[0] == s[0] || Insert(s, x, cmp)[0] == x
  {
  }

  /** A list is sorted when its head is in order with its sorted tail. */
  lemma SortedCons<T>(a: T, rest: seq<T>, cmp: (T, T) -> int)
    requires Sorted(rest, cmp)
    requires rest != [] ==> cmp(a, rest[0]) <= 0
    ensures Sorted([a] + rest, cmp)
  {
    var r := [a] + rest;
    forall i | 0 <= i < |r| - 1
      ensures cmp(r[i], r[i + 1]) <= 0
    {
      if i > 0 {
        assert r[i] == rest[i - 1] && r[i + 1] == rest[i];
      }
    }
  }

  /** Inserting into a sorted list keeps it sorted. */
  lemma {:induction false} InsertSorted<T(!new)>(s: seq<T>, x: T, cmp: (T, T) -> int)
    requires Antisymmetric(cmp) && Sorted(s, cmp)
    ensures Sorted(Insert(s, x, cmp), cmp)
    decreases |s|
  {
    if s == [] {
      assert Insert(s, x, cmp) == [x];
    } else if cmp(s[0], x) > 0 {
      assert cmp(x, s[0]) < 0;
      SortedCons(x, s, cmp);
    } else {
      var tail := s[1..];
      assert Sorted(tail, cmp) by {
        forall i | 0 <= i < |tail| - 1
          ensures cmp(tail[i], tail[i + 1]) <= 0
        {
          assert tail[i] == s[i + 1] && tail[i + 1] == s[i + 2];
        }
      }
      InsertSorted(tail, x, cmp);
      var rest := Insert(tail, x, cmp);
      if tail != [] {
        InsertHead(tail, x, cmp);
        assert cmp(s[0], s[1]) <= 0;
      }
      SortedCons(s[0], rest, cmp);
      assert Insert(s, x, cmp) == [s[0]] + rest;
    }
  }

  /** With a consistent comparator the sorted list has no neighbours out of order. */
  lemma {:induction false} SortBySorted<T(!new)>(s: seq<T>, cmp: (T, T) -> int)
    requires Antisymmetric(cmp)
    ensures Sorted(SortBy(s, cmp), cmp)
    decreases |s|
  {
    if s != [] {
      SortBySorted(s[..|s| - 1], cmp);
      InsertSorted(SortBy(s[..|s| - 1], cmp), s[|s| - 1], cmp);
    }
  }

  /** A comparator that calls everything equal keeps the list as it was (stability). */
  lemma {:induction false} SortByAllEqual<T>(s: seq<T>, cmp: (T, T) -> int)
    requires forall a, b :: cmp(a, b) == 0
    ensures SortBy(s, cmp) == s
    decreases |s|
  {
    if s != [] {
      SortByAllEqual(s[..|s| - 1], cmp);
      InsertAtEnd(s[..|s| - 1], s[|s| - 1], cmp);
      assert s == s[..|s| - 1] + [s[|s| - 1]];
    }
  }

  lemma {:induction false} InsertAtEnd<T>(s: seq<T>, x: T, cmp: (T, T) -> int)
    requires forall i :: 0 <= i < |s| ==> cmp(s[i], x) <= 0
    ensures Insert(s, x, cmp) == s + [x]
    decreases |s|
  {
    if s != [] {
      InsertAtEnd(s[1..], x, cmp);
      assert s == [s[0]] + s[1..];
    }
  }
}
