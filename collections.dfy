/**
 * The Array.prototype operations the pages compose: filter, map, find, reverse, a
 * stable sort driven by a comparator, and the include-or-remove toggle used for
 * check-box selections.
 */
module Collections {
  import opened Wrappers

  // ---------------------------------------------------------------- filter

  /** `xs.filter(p)`. */
  function Filter<T>(xs: seq<T>, p: T -> bool): (r: seq<T>)
    ensures |r| <= |xs|
    ensures forall i :: 0 <= i < |r| ==> p(r[i])
    ensures forall i :: 0 <= i < |r| ==> r[i] in xs
    ensures forall i :: 0 <= i < |xs| && p(xs[i]) ==> xs[i] in r
    ensures multiset(r) <= multiset(xs)
  {
    if xs == [] then []
    else
      assert xs == [xs[0]] + xs[1..];
      (if p(xs[0]) then [xs[0]] else []) + Filter(xs[1..], p)
  }

  /** An element survives the filter exactly when it is in the sequence and passes. */
  lemma FilterMember<T>(xs: seq<T>, p: T -> bool, x: T)
    ensures x in Filter(xs, p) <==> x in xs && p(x)
  {
  }

  /** Filtering distributes over concatenation, so it keeps the original order. */
  lemma {:induction false} FilterAppend<T>(a: seq<T>, b: seq<T>, p: T -> bool)
    ensures Filter(a + b, p) == Filter(a, p) + Filter(b, p)
    decreases |a|
  {
    if a == [] {
      assert a + b == b;
    } else {
      assert (a + b)[0] == a[0];
      assert (a + b)[1..] == a[1..] + b;
      FilterAppend(a[1..], b, p);
    }
  }

  /** Filtering twice is filtering once by the conjunction. */
  lemma {:induction false} FilterFilter<T>(xs: seq<T>, p: T -> bool, q: T -> bool)
    ensures Filter(Filter(xs, p), q) == Filter(xs, x => p(x) && q(x))
    decreases |xs|
  {
    if xs != [] {
      FilterFilter(xs[1..], p, q);
      var head := if p(xs[0]) then [xs[0]] else [];
      FilterAppend(head, Filter(xs[1..], p), q);
    }
  }

  /** Filtering by `p` and then by `q` is filtering by any `r` that is their conjunction. */
  lemma FilterRefine<T>(xs: seq<T>, p: T -> bool, q: T -> bool, r: T -> bool)
    requires forall x :: r(x) == (p(x) && q(x))
    ensures Filter(Filter(xs, p), q) == Filter(xs, r)
  {
    FilterFilter(xs, p, q);
    FilterCongruent(xs, x => p(x) && q(x), r);
  }

  /** A filter that every element passes keeps the sequence as it is. */
  lemma {:induction false} FilterAllPass<T>(xs: seq<T>, p: T -> bool)
    requires forall i :: 0 <= i < |xs| ==> p(xs[i])
    ensures Filter(xs, p) == xs
    decreases |xs|
  {
    if xs != [] {
      FilterAllPass(xs[1..], p);
    }
  }

  /** Two filters that agree on every element give the same result. */
  lemma {:induction false} FilterCongruent<T>(xs: seq<T>, p: T -> bool, q: T -> bool)
    requires forall i :: 0 <= i < |xs| ==> p(xs[i]) == q(xs[i])
    ensures Filter(xs, p) == Filter(xs, q)
    decreases |xs|
  {
    if xs != [] {
      FilterCongruent(xs[1..], p, q);
    }
  }

  /** Numbers in strictly increasing order. */
  predicate Increasing(xs: seq<int>) {
    forall i, j :: 0 <= i < j < |xs| ==> xs[i] < xs[j]
  }

  /** Filtering an increasing sequence leaves it increasing. */
  lemma {:induction false} FilterIncreasing(xs: seq<int>, p: int -> bool)
    requires Increasing(xs)
    ensures Increasing(Filter(xs, p))
    decreases |xs|
  {
    if xs != [] {
      var tail := xs[1..];
      assert Increasing(tail);
      FilterIncreasing(tail, p);
      var rest := Filter(tail, p);
      forall k | 0 <= k < |rest| ensures xs[0] < rest[k] {
        assert rest[k] in tail;
      }
      var r := Filter(xs, p);
      if p(xs[0]) {
        assert r == [xs[0]] + rest;
      } else {
        assert r == rest;
      }
    }
  }

  // ---------------------------------------------------------------- map, find, reverse

  /** `xs.map(f)`. */
  function Map<T, U>(xs: seq<T>, f: T -> U): (r: seq<U>)
    ensures |r| == |xs|
    ensures forall i :: 0 <= i < |xs| ==> r[i] == f(xs[i])
  {
    seq(|xs|, i requires 0 <= i < |xs| => f(xs[i]))
  }

  /** `xs.find(p)`: the first element satisfying `p`, None (undefined) when there is none. */
  function Find<T>(xs: seq<T>, p: T -> bool): (r: Option<T>)
    ensures r.Some? ==> r.value in xs && p(r.value)
    ensures r.None? <==> forall i :: 0 <= i < |xs| ==> !p(xs[i])
  {
    if xs == [] then None else if p(xs[0]) then Some(xs[0]) else Find(xs[1..], p)
  }

  /** `[...xs].reverse()`. */
  function Reverse<T>(xs: seq<T>): (r: seq<T>)
    ensures |r| == |xs|
    ensures forall i :: 0 <= i < |xs| ==> r[i] == xs[|xs| - 1 - i]
  {
    if xs == [] then [] else Reverse(xs[1..]) + [xs[0]]
  }

  /** Reversing twice restores the sequence. */
  lemma ReverseReverse<T>(xs: seq<T>)
    ensures Reverse(Reverse(xs)) == xs
  {
  }

  /** Reversing keeps the same elements with the same multiplicities. */
  lemma {:induction false} ReversePermutes<T>(xs: seq<T>)
    ensures multiset(Reverse(xs)) == multiset(xs)
    decreases |xs|
  {
    if xs != [] {
      ReversePermutes(xs[1..]);
      assert xs == [xs[0]] + xs[1..];
    }
  }

  // ---------------------------------------------------------------- sort

  /**
   * `le(a, b)` holds when the comparator puts `a` no later than `b` (`cmp(a, b) <= 0`).
   * A comparator that subtracts keys is total in this sense.
   */
  ghost predicate Total<T(!new)>(le: (T, T) -> bool) {
    forall a: T, b: T :: le(a, b) || le(b, a)
  }

  /** Each element is placed no later than its successor. */
  predicate Sorted<T>(xs: seq<T>, le: (T, T) -> bool) {
    forall i :: 0 <= i < |xs| - 1 ==> le(xs[i], xs[i + 1])
  }

  /** Put `x` in front of the first element it may precede. */
  function Insert<T>(x: T, s: seq<T>, le: (T, T) -> bool): (r: seq<T>)
    ensures |r| == |s| + 1
    ensures multiset(r) == multiset(s) + multiset{x}
    ensures r[0] == x || (|s| > 0 && r[0] == s[0])
  {
    if s == [] then [x]
    else if le(x, s[0]) then [x] + s
    else
      assert s == [s[0]] + s[1..];
      [s[0]] + Insert(x, s[1..], le)
  }

  lemma {:induction false} InsertSorted<T(!new)>(x: T, s: seq<T>, le: (T, T) -> bool)
    requires Total(le) && Sorted(s, le)
    ensures Sorted(Insert(x, s, le), le)
    decreases |s|
  {
    if s != [] && !le(x, s[0]) {
      InsertSorted(x, s[1..], le);
    }
  }

  /**
   * `Array.prototype.sort(cmp)`: insertion of each element in front of the sorted rest,
   * placing it before the elements it ties with, so that ties keep their order (the
   * sort is stable).
   */
  function SortWith<T>(xs: seq<T>, le: (T, T) -> bool): (r: seq<T>)
    ensures |r| == |xs|
    ensures multiset(r) == multiset(xs)
  {
    if xs == [] then []
    else
      assert xs == [xs[0]] + xs[1..];
      Insert(xs[0], SortWith(xs[1..], le), le)
  }

  /** The sort keeps exactly the elements it was given. */
  lemma SortWithMembers<T>(xs: seq<T>, le: (T, T) -> bool)
    ensures forall x :: x in SortWith(xs, le) <==> x in xs
  {
    forall x ensures x in SortWith(xs, le) <==> x in xs {
      assert x in SortWith(xs, le) <==> x in multiset(SortWith(xs, le));
      assert x in xs <==> x in multiset(xs);
    }
  }

  /** With a total comparator the sort's result is in order. */
  lemma {:induction false} SortWithSorted<T(!new)>(xs: seq<T>, le: (T, T) -> bool)
    requires Total(le)
    ensures Sorted(SortWith(xs, le), le)
    decreases |xs|
  {
    if xs != [] {
      SortWithSorted(xs[1..], le);
      InsertSorted(xs[0], SortWith(xs[1..], le), le);
    }
  }

  /** `cls` picks elements that all tie with one another under `le`. */
  ghost predicate TieClass<T(!new)>(cls: T -> bool, le: (T, T) -> bool) {
    forall a: T, b: T :: cls(a) && cls(b) ==> le(a, b)
  }

  /** The filter of a sequence with a given first element. */
  lemma FilterCons<T>(x: T, s: seq<T>, p: T -> bool)
    ensures Filter([x] + s, p) == (if p(x) then [x] else []) + Filter(s, p)
  {
    assert ([x] + s)[0] == x && ([x] + s)[1..] == s;
  }

  /** Two heads of which at most one is non-empty can trade places. */
  lemma SwapHeads<T>(a: seq<T>, b: seq<T>, t: seq<T>)
    requires a == [] || b == []
    ensures a + (b + t) == b + (a + t)
  {
  }

  /** Inserting `x` places it before every element of `s` it ties with. */
  lemma {:induction false} InsertKeepsTies<T(!new)>(x: T, s: seq<T>, le: (T, T) -> bool, cls: T -> bool)
    requires TieClass(cls, le)
    ensures Filter(Insert(x, s, le), cls) == (if cls(x) then [x] else []) + Filter(s, cls)
    decreases |s|
  {
    if s == [] {
      FilterCons(x, [], cls);
    } else if le(x, s[0]) {
      FilterCons(x, s, cls);
    } else {
      InsertKeepsTies(x, s[1..], le, cls);
      FilterCons(s[0], Insert(x, s[1..], le), cls);
      assert !(cls(x) && cls(s[0]));
      SwapHeads(if cls(s[0]) then [s[0]] else [], if cls(x) then [x] else [], Filter(s[1..], cls));
    }
  }

  /**
   * The sort is stable: the elements of a class that tie with one another come out in the
   * order they went in.
   */
  lemma {:induction false} SortWithStable<T(!new)>(xs: seq<T>, le: (T, T) -> bool, cls: T -> bool)
    requires TieClass(cls, le)
    ensures Filter(SortWith(xs, le), cls) == Filter(xs, cls)
    decreases |xs|
  {
    if xs != [] {
      SortWithStable(xs[1..], le, cls);
      InsertKeepsTies(xs[0], SortWith(xs[1..], le), le, cls);
    }
  }

  /** An already ordered sequence is left as it is. */
  lemma {:induction false} SortWithOfSorted<T>(xs: seq<T>, le: (T, T) -> bool)
    requires Sorted(xs, le)
    ensures SortWith(xs, le) == xs
    decreases |xs|
  {
    if xs != [] {
      SortWithOfSorted(xs[1..], le);
    }
  }

  // ---------------------------------------------------------------- selection toggle

  /** No value occurs twice. */
  predicate NoDuplicates<T(==)>(xs: seq<T>) {
    forall i, j :: 0 <= i < j < |xs| ==> xs[i] != xs[j]
  }

  /** `xs.filter(y => y !== x)`. */
  function Without<T(==)>(xs: seq<T>, x: T): (r: seq<T>)
    ensures x !in r
    ensures forall i :: 0 <= i < |r| ==> r[i] in xs
    ensures forall i :: 0 <= i < |xs| && xs[i] != x ==> xs[i] in r
  {
    Filter(xs, y => y != x)
  }

  /** `prev.includes(x) ? prev.filter(y => y !== x) : [...prev, x]`. */
  function Toggle<T(==)>(sel: seq<T>, x: T): (r: seq<T>)
    ensures x in r <==> x !in sel
    ensures forall i :: 0 <= i < |r| && r[i] != x ==> r[i] in sel
    ensures forall i :: 0 <= i < |sel| && sel[i] != x ==> sel[i] in r
  {
    if x in sel then Without(sel, x) else sel + [x]
  }

  /** Removing an absent value changes nothing. */
  lemma WithoutAbsent<T>(xs: seq<T>, x: T)
    requires x !in xs
    ensures Without(xs, x) == xs
  {
    FilterAllPass(xs, y => y != x);
  }

  /** Toggling a value that was not selected, then toggling it again, restores the selection. */
  lemma ToggleTwiceAbsent<T>(sel: seq<T>, x: T)
    requires x !in sel
    ensures Toggle(Toggle(sel, x), x) == sel
  {
    FilterAppend(sel, [x], y => y != x);
    WithoutAbsent(sel, x);
  }

  /** Toggling twice always restores the set of selected values. */
  lemma ToggleTwiceSameSet<T>(sel: seq<T>, x: T)
    ensures forall i :: 0 <= i < |sel| ==> sel[i] in Toggle(Toggle(sel, x), x)
    ensures forall y :: y in Toggle(Toggle(sel, x), x) ==> y in sel
  {
  }

  /** Toggling keeps a selection free of duplicates. */
  lemma {:induction false} ToggleNoDuplicates<T>(sel: seq<T>, x: T)
    requires NoDuplicates(sel)
    ensures NoDuplicates(Toggle(sel, x))
  {
    if x in sel {
      FilterNoDuplicates(sel, y => y != x);
    }
  }

  /** A filter of a duplicate-free sequence is duplicate-free. */
  lemma {:induction false} FilterNoDuplicates<T>(xs: seq<T>, p: T -> bool)
    requires NoDuplicates(xs)
    ensures NoDuplicates(Filter(xs, p))
    decreases |xs|
  {
    if xs != [] {
      FilterNoDuplicates(xs[1..], p);
      var rest := Filter(xs[1..], p);
      assert xs[0] !in xs[1..];
      assert xs[0] !in rest;
    }
  }
}
