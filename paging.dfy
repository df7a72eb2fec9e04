/**
 * Client-side pagination shared by the list pages: `Math.ceil(n / size)` page counts,
 * `Array.prototype.slice` with its clamping rules, and the page `p` (counted from 1)
 * as `xs.slice((p - 1) * size, p * size)`.
 */
module Paging {
  import opened Collections

  function Min(a: int, b: int): int {
    if a <= b then a else b
  }

  function Max(a: int, b: int): int {
    if a >= b then a else b
  }

  /** `Math.ceil(n / size)`: the number of pages `n` rows fill. */
  function CeilDiv(n: nat, size: nat): (r: nat)
    requires size > 0
    ensures r * size >= n
    ensures r > 0 ==> (r - 1) * size < n
    ensures r == 0 <==> n == 0
  {
    (n + size - 1) / size
  }

  /** How `slice` reads an index: negative counts from the end, and the result is clamped to `0..len`. */
  function ClampIndex(i: int, len: nat): (r: nat)
    ensures r <= len
    ensures 0 <= i <= len ==> r == i
    ensures i > len ==> r == len
  {
    if i < 0 then (if len + i < 0 then 0 else len + i) else if i > len then len else i
  }

  /** `xs.slice(start, end)`. */
  function Slice<T>(xs: seq<T>, start: int, end: int): (r: seq<T>)
    ensures |r| <= |xs|
    ensures 0 <= start <= end ==> |r| == Min(end, |xs|) - Min(start, |xs|)
    ensures 0 <= start ==> forall i :: 0 <= i < |r| ==> start + i < |xs| && r[i] == xs[start + i]
  {
    var a := ClampIndex(start, |xs|);
    var b := ClampIndex(end, |xs|);
    if a < b then xs[a..b] else []
  }

  /** Rows shown on page `page` (counted from 1). */
  function Page<T>(xs: seq<T>, page: int, size: nat): seq<T> {
    Slice(xs, (page - 1) * size, page * size)
  }

  /** A page holds at most `size` rows, the rows that follow the earlier pages. */
  lemma PageContents<T>(xs: seq<T>, page: int, size: nat)
    requires page >= 1
    ensures |Page(xs, page, size)| <= size
    ensures forall i :: 0 <= i < |Page(xs, page, size)| ==>
      0 <= (page - 1) * size + i < |xs| && Page(xs, page, size)[i] == xs[(page - 1) * size + i]
  {
    assert (page - 1) * size <= page * size;
    assert page * size - (page - 1) * size == size;
  }

  /** Every page up to the last one holds at least one row; pages past it are empty. */
  lemma PageNonEmpty<T>(xs: seq<T>, page: int, size: nat)
    requires size > 0 && page >= 1
    ensures Page(xs, page, size) != [] <==> page <= CeilDiv(|xs|, size)
  {
    var total := CeilDiv(|xs|, size);
    var lo := (page - 1) * size;
    assert page * size == lo + size;
    assert Page(xs, page, size) != [] <==> lo < |xs|;
    if page <= total {
      MulLe(page - 1, total - 1, size);
    } else {
      MulLe(total, page - 1, size);
    }
  }

  /** Multiplying by a natural number keeps the order. */
  lemma MulLe(a: nat, b: nat, c: nat)
    requires a <= b
    ensures a * c <= b * c
  {
    var d := b - a;
    assert b * c == a * c + d * c;
  }

  /** The row at index `i` is row `i % size` of page `i / size + 1`. */
  lemma RowOnPage<T>(xs: seq<T>, i: nat, size: nat)
    requires size > 0 && i < |xs|
    ensures i % size < |Page(xs, i / size + 1, size)|
    ensures Page(xs, i / size + 1, size)[i % size] == xs[i]
  {
    var p := i / size + 1;
    assert (p - 1) * size + i % size == i;
    assert p * size > i;
    PageContents(xs, p, size);
  }

  /** Pages 1 to `n`, one after another. */
  function PagesUpTo<T>(xs: seq<T>, size: nat, n: nat): seq<T> {
    if n == 0 then [] else PagesUpTo(xs, size, n - 1) + Page(xs, n, size)
  }

  /** The first `n` pages are exactly the first `n * size` rows. */
  lemma {:induction false} PagesUpToPrefix<T>(xs: seq<T>, size: nat, n: nat)
    ensures PagesUpTo(xs, size, n) == xs[..Min(n * size, |xs|)]
  {
    if n > 0 {
      PagesUpToPrefix(xs, size, n - 1);
      var a := Min((n - 1) * size, |xs|);
      var b := Min(n * size, |xs|);
      assert (n - 1) * size <= n * size;
      assert Page(xs, n, size) == xs[a..b];
      assert xs[..a] + xs[a..b] == xs[..b];
    }
  }

  /** Reading all the pages in order shows every row exactly once, in order. */
  lemma PagesCoverAll<T>(xs: seq<T>, size: nat)
    requires size > 0
    ensures PagesUpTo(xs, size, CeilDiv(|xs|, size)) == xs
  {
    PagesUpToPrefix(xs, size, CeilDiv(|xs|, size));
    assert xs[..|xs|] == xs;
  }

  /** The same with the page count never below 1 (an empty list still has page 1). */
  lemma PagesCoverAtLeastOne<T>(xs: seq<T>, size: nat)
    requires size > 0
    ensures PagesUpTo(xs, size, Max(1, CeilDiv(|xs|, size))) == xs
  {
    PagesCoverAll(xs, size);
    if xs == [] {
      assert PagesUpTo(xs, size, 1) == PagesUpTo(xs, size, 0) + Page(xs, 1, size);
    }
  }

  /**
   * What pagination promises for page `page`: at most `size` rows, each the row that
   * follows the earlier pages, and all `max(1, ceil(n / size))` pages together giving
   * back the list.
   */
  ghost predicate WellPaged<T>(xs: seq<T>, page: int, size: nat)
    requires size > 0
  {
    PageRowsFollow(xs, page, size) && PagesCoverList(xs, size)
  }

  /** Page `page` holds at most `size` rows, each the row that follows the earlier pages. */
  ghost predicate PageRowsFollow<T>(xs: seq<T>, page: int, size: nat) {
    |Page(xs, page, size)| <= size
    && forall i :: 0 <= i < |Page(xs, page, size)| ==>
         0 <= (page - 1) * size + i < |xs| && Page(xs, page, size)[i] == xs[(page - 1) * size + i]
  }

  /** All `max(1, ceil(n / size))` pages together give back the list. */
  ghost predicate PagesCoverList<T>(xs: seq<T>, size: nat)
    requires size > 0
  {
    PagesUpTo(xs, size, Max(1, CeilDiv(|xs|, size))) == xs
  }

  lemma Paged<T>(xs: seq<T>, page: int, size: nat)
    requires size > 0 && page >= 1
    ensures WellPaged(xs, page, size)
  {
    assert PageRowsFollow(xs, page, size) by {
      PageContents(xs, page, size);
    }
    assert PagesCoverList(xs, size) by {
      PagesCoverAtLeastOne(xs, size);
    }
  }

  /** The serial number printed in a row: `(page - 1) * size + index + 1`. */
  function Serial(page: int, size: nat, index: nat): int {
    (page - 1) * size + index + 1
  }

  /** The serial number of a row is its position, counted from 1, in the whole list. */
  lemma SerialIsPosition<T>(xs: seq<T>, page: int, size: nat, index: nat)
    requires page >= 1 && index < |Page(xs, page, size)|
    ensures 1 <= Serial(page, size, index) <= |xs|
    ensures xs[Serial(page, size, index) - 1] == Page(xs, page, size)[index]
  {
    PageContents(xs, page, size);
  }

  /** The "previous" button: `Math.max(current - 1, 1)`. */
  function PrevPage(current: int): (r: int)
    ensures r >= 1
    ensures current > 1 ==> r == current - 1
    ensures current <= 1 ==> r == 1
  {
    Max(current - 1, 1)
  }

  /** The "next" button: `Math.min(current + 1, total)`. */
  function NextPage(current: int, total: int): (r: int)
    ensures r <= total
    ensures current < total ==> r == current + 1
    ensures current >= total ==> r == total
  {
    Min(current + 1, total)
  }

  /** Pages an in-range current page can move to stay in range. */
  lemma PrevNextStayInRange(current: int, total: int)
    requires 1 <= current <= total
    ensures 1 <= PrevPage(current) <= total
    ensures 1 <= NextPage(current, total) <= total
  {
  }

  // ---------------------------------------------------------------- page buttons

  /** A button of the pager: a page number or an ellipsis. */
  datatype Button = PageButton(n: int) | Dots

  /** 1, 2, ..., total. */
  function PageRange(total: nat): (r: seq<int>)
    ensures |r| == total && Increasing(r)
    ensures forall i :: 0 <= i < total ==> r[i] == i + 1
  {
    seq(total, i requires 0 <= i < total => i + 1)
  }

  /** The pages in 1..total that pass `keep`, in order, and no others. */
  lemma PagesKept(total: nat, keep: int -> bool)
    ensures Increasing(Filter(PageRange(total), keep))
    ensures forall i :: 0 <= i < |Filter(PageRange(total), keep)| ==>
      1 <= Filter(PageRange(total), keep)[i] <= total && keep(Filter(PageRange(total), keep)[i])
    ensures forall p :: 1 <= p <= total && keep(p) ==> p in Filter(PageRange(total), keep)
  {
    var all := PageRange(total);
    var r := Filter(all, keep);
    FilterIncreasing(all, keep);
    forall i | 0 <= i < |r| ensures 1 <= r[i] <= total {
      assert r[i] in all;
    }
    forall p | 1 <= p <= total && keep(p) ensures p in r {
      assert all[p - 1] == p;
    }
  }

  /** The page numbers a button list shows, in order. */
  function Numbers(bs: seq<Button>): (r: seq<int>)
    ensures forall p :: p in r <==> PageButton(p) in bs
  {
    if bs == [] then []
    else (if bs[0].PageButton? then [bs[0].n] else []) + Numbers(bs[1..])
  }

  lemma {:induction false} NumbersAppend(a: seq<Button>, b: seq<Button>)
    ensures Numbers(a + b) == Numbers(a) + Numbers(b)
    decreases |a|
  {
    if a == [] {
      assert a + b == b;
    } else {
      assert (a + b)[1..] == a[1..] + b;
      NumbersAppend(a[1..], b);
    }
  }

  lemma NumbersTwo(x: Button, y: Button)
    ensures Numbers([x, y]) == Numbers([x]) + Numbers([y])
  {
    NumbersAppend([x], [y]);
    assert [x] + [y] == [x, y];
  }

  lemma {:induction false} NumbersOfPages(ps: seq<int>)
    ensures Numbers(Map(ps, (p: int) => PageButton(p))) == ps
    decreases |ps|
  {
    if ps != [] {
      var bs := Map(ps, (p: int) => PageButton(p));
      assert bs[1..] == Map(ps[1..], (p: int) => PageButton(p));
      NumbersOfPages(ps[1..]);
    }
  }

  /** The pages of 1..n that pass `keep`, collected one page at a time. */
  function KeptUpTo(n: nat, keep: int -> bool): seq<int> {
    if n == 0 then [] else KeptUpTo(n - 1, keep) + (if keep(n) then [n] else [])
  }

  /** Filtering `1..n` is collecting the kept pages one at a time. */
  lemma {:induction false} KeptUpToIsFilter(n: nat, keep: int -> bool)
    ensures Filter(PageRange(n), keep) == KeptUpTo(n, keep)
  {
    if n > 0 {
      assert PageRange(n) == PageRange(n - 1) + [n];
      FilterAppend(PageRange(n - 1), [n], keep);
      KeptUpToIsFilter(n - 1, keep);
    }
  }

  /** Pages `a+1..b` add at most `b - a` kept pages, and none when none of them is kept. */
  lemma {:induction false} KeptGrowth(a: nat, b: nat, keep: int -> bool)
    requires a <= b
    ensures |KeptUpTo(b, keep)| <= |KeptUpTo(a, keep)| + (b - a)
    ensures (forall p :: a < p <= b ==> !keep(p)) ==> KeptUpTo(b, keep) == KeptUpTo(a, keep)
    decreases b - a
  {
    if a < b {
      KeptGrowth(a, b - 1, keep);
    }
  }
}
