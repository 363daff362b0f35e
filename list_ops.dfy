/** The list transformations the in-memory bills, expenses and incomes pages
    share: `Array.prototype.filter`, replace-by-id with `map`, remove-by-id,
    the next id for a new record, `Array.prototype.slice` and the
    five-per-page paging with its Previous and Next buttons. */
module ListOps {
  import opened Common

  /** `xs.filter(keep)` */
  function Filter<T(!new)>(xs: seq<T>, keep: T -> bool): (r: seq<T>)
    ensures |r| <= |xs|
    ensures forall x :: x in r <==> x in xs && keep(x)
    ensures multiset(r) <= multiset(xs)
  {
    if xs == [] then []
    else
      assert xs == [xs[0]] + xs[1..];
      (if keep(xs[0]) then [xs[0]] else []) + Filter(xs[1..], keep)
  }

  /** Filtering distributes over concatenation: the kept elements keep their
      relative order. */
  lemma {:induction false} FilterAppend<T(!new)>(xs: seq<T>, ys: seq<T>, keep: T -> bool)
    ensures Filter(xs + ys, keep) == Filter(xs, keep) + Filter(ys, keep)
  {
    if xs == [] {
      assert xs + ys == ys;
    } else {
      assert (xs + ys)[0] == xs[0] && (xs + ys)[1..] == xs[1..] + ys;
      FilterAppend(xs[1..], ys, keep);
    }
  }

  /** A filter that keeps every element changes nothing. */
  lemma {:induction false} FilterKeepsAll<T(!new)>(xs: seq<T>, keep: T -> bool)
    requires forall i :: 0 <= i < |xs| ==> keep(xs[i])
    ensures Filter(xs, keep) == xs
  {
    if xs != [] {
      FilterKeepsAll(xs[1..], keep);
    }
  }

  /** A filter that rejects only the first element drops exactly that one. */
  lemma FilterDropsHead<T(!new)>(xs: seq<T>, keep: T -> bool)
    requires xs != [] && !keep(xs[0])
    requires forall i :: 1 <= i < |xs| ==> keep(xs[i])
    ensures Filter(xs, keep) == xs[1..]
  {
    FilterKeepsAll(xs[1..], keep);
  }

  /** `xs.filter(x => key(x) !== k)` */
  function RemoveById<T(!new)>(xs: seq<T>, key: T -> int, k: int): (r: seq<T>)
    ensures forall x :: x in r ==> key(x) != k
    ensures forall x :: x in xs && key(x) != k ==> x in r
    ensures |r| <= |xs|
  {
    Filter(xs, x => key(x) != k)
  }

  /** Removing an id that no element carries leaves the list as it was. */
  lemma RemoveAbsentId<T(!new)>(xs: seq<T>, key: T -> int, k: int)
    requires forall x :: x in xs ==> key(x) != k
    ensures RemoveById(xs, key, k) == xs
  {
    FilterKeepsAll(xs, x => key(x) != k);
  }

  /** `xs.map(x => key(x) === k ? f(x) : x)` */
  function ReplaceWhere<T(!new)>(xs: seq<T>, key: T -> int, k: int, f: T -> T): (r: seq<T>)
    ensures |r| == |xs|
    ensures forall i :: 0 <= i < |xs| && key(xs[i]) != k ==> r[i] == xs[i]
    ensures forall i :: 0 <= i < |xs| && key(xs[i]) == k ==> r[i] == f(xs[i])
  {
    seq(|xs|, i requires 0 <= i < |xs| => if key(xs[i]) == k then f(xs[i]) else xs[i])
  }

  /** When `f` keeps the id, the ids of the list are unchanged, every element
      with another id was already there, and, when `f` is idempotent,
      replacing twice is replacing once. */
  lemma ReplaceWhereKeepsIds<T(!new)>(xs: seq<T>, key: T -> int, k: int, f: T -> T)
    requires forall x :: key(f(x)) == key(x)
    ensures Keys(ReplaceWhere(xs, key, k, f), key) == Keys(xs, key)
    ensures forall x :: x in ReplaceWhere(xs, key, k, f) && key(x) != k ==> x in xs
    ensures (forall x :: f(f(x)) == f(x)) ==>
              ReplaceWhere(ReplaceWhere(xs, key, k, f), key, k, f) == ReplaceWhere(xs, key, k, f)
  {
    var once := ReplaceWhere(xs, key, k, f);
    forall x | x in once && key(x) != k ensures x in xs {
      var i :| 0 <= i < |once| && once[i] == x;
    }
  }

  /** The largest id of a non-empty list. */
  function MaxId(ids: seq<int>): (m: int)
    requires ids != []
    ensures m in ids
    ensures forall i :: i in ids ==> i <= m
  {
    if |ids| == 1 then ids[0]
    else
      assert ids == [ids[0]] + ids[1..];
      Max(ids[0], MaxId(ids[1..]))
  }

  /** The id given to a new record: one more than the largest id, or 1 for an
      empty list. It is never an id the list already holds. */
  function NextId(ids: seq<int>): (r: int)
    ensures forall i :: i in ids ==> i < r
    ensures ids != [] ==> r - 1 in ids
    ensures ids == [] ==> r == 1
  {
    (if ids == [] then 0 else MaxId(ids)) + 1
  }

  /** The ids of a list, in order. */
  function Keys<T>(xs: seq<T>, key: T -> int): (ks: seq<int>)
    ensures |ks| == |xs|
    ensures forall i :: 0 <= i < |xs| ==> ks[i] == key(xs[i])
  {
    seq(|xs|, i requires 0 <= i < |xs| => key(xs[i]))
  }

  /** No two records of the list share an id. */
  predicate UniqueKeys<T>(xs: seq<T>, key: T -> int) {
    forall i, j :: 0 <= i < j < |xs| ==> key(xs[i]) != key(xs[j])
  }

  /** A record given the next id can be put in front of the list without
      two records sharing an id. */
  lemma PrependNextIdKeepsUnique<T(!new)>(xs: seq<T>, key: T -> int, x: T)
    requires UniqueKeys(xs, key)
    requires key(x) == NextId(Keys(xs, key))
    ensures UniqueKeys([x] + xs, key)
    ensures forall y :: y in xs ==> key(y) != key(x)
  {
    var ks := Keys(xs, key);
    forall y | y in xs ensures key(y) != key(x) {
      var i :| 0 <= i < |xs| && xs[i] == y;
      assert ks[i] in ks;
    }
    var ys := [x] + xs;
    forall i, j | 0 <= i < j < |ys| ensures key(ys[i]) != key(ys[j]) {
      if i == 0 {
        assert ys[j] == xs[j - 1] && ys[j] in xs;
      } else {
        assert ys[i] == xs[i - 1] && ys[j] == xs[j - 1];
      }
    }
  }

  /** Filtering never makes two records share an id. */
  lemma {:induction false} FilterKeepsUnique<T(!new)>(xs: seq<T>, keep: T -> bool, key: T -> int)
    requires UniqueKeys(xs, key)
    ensures UniqueKeys(Filter(xs, keep), key)
  {
    if xs != [] {
      var tail := xs[1..];
      assert UniqueKeys(tail, key) by {
        forall i, j | 0 <= i < j < |tail| ensures key(tail[i]) != key(tail[j]) {
          assert tail[i] == xs[i + 1] && tail[j] == xs[j + 1];
        }
      }
      FilterKeepsUnique(tail, keep, key);
      var rest := Filter(tail, keep);
      var head := if keep(xs[0]) then [xs[0]] else [];
      var r := head + rest;
      forall i, j | 0 <= i < j < |r| ensures key(r[i]) != key(r[j]) {
        if head != [] && i == 0 {
          assert r[j] == rest[j - 1] && r[j] in tail;
          var k :| 0 <= k < |tail| && tail[k] == r[j];
          assert xs[k + 1] == r[j];
        } else {
          assert r[i] == rest[i - |head|] && r[j] == rest[j - |head|];
        }
      }
    }
  }

  /** Removing by id never makes two records share an id. */
  lemma RemoveByIdKeepsUnique<T(!new)>(xs: seq<T>, key: T -> int, k: int)
    requires UniqueKeys(xs, key)
    ensures UniqueKeys(RemoveById(xs, key, k), key)
  {
    FilterKeepsUnique(xs, x => key(x) != k, key);
  }

  /** Replacing records by ones with the same id keeps the ids unique. */
  lemma ReplaceWhereKeepsUnique<T(!new)>(xs: seq<T>, key: T -> int, k: int, f: T -> T)
    requires UniqueKeys(xs, key)
    requires forall x :: key(f(x)) == key(x)
    ensures UniqueKeys(ReplaceWhere(xs, key, k, f), key)
  {
  }

  /** `Math.max(...xs)` on JavaScript numbers: -Infinity for no arguments,
      NaN as soon as one argument is NaN. */
  function JsMax(xs: seq<Num>): Num {
    if xs == [] then NegInf
    else
      var m := JsMax(xs[1..]);
      match (xs[0], m)
      case (NaN, _) => NaN
      case (_, NaN) => NaN
      case (PosInf, _) => PosInf
      case (_, PosInf) => PosInf
      case (NegInf, _) => m
      case (_, NegInf) => xs[0]
      case (Finite(a), Finite(b)) => if a < b then m else xs[0]
  }

  /** `n + 1` on JavaScript numbers. */
  function PlusOne(n: Num): Num {
    match n
    case Finite(v) => Finite(v + 1.0)
    case _ => n
  }

  /** The id the list pages compute for a new record,
      `Math.max(...list.map(x => x.id)) + 1`. */
  function NextIdAsWritten(ids: seq<Num>): Num {
    PlusOne(JsMax(ids))
  }

  /** On a list of integer ids the expression agrees with `NextId`. */
  lemma {:induction false} NextIdAsWrittenAgrees(ids: seq<int>)
    requires ids != []
    ensures NextIdAsWritten(seq(|ids|, i requires 0 <= i < |ids| => Finite(ids[i] as real)))
            == Finite(NextId(ids) as real)
  {
    var nums := seq(|ids|, i requires 0 <= i < |ids| => Finite(ids[i] as real));
    JsMaxOfFinite(ids, nums);
  }

  lemma {:induction false} JsMaxOfFinite(ids: seq<int>, nums: seq<Num>)
    requires ids != [] && |nums| == |ids|
    requires forall i :: 0 <= i < |ids| ==> nums[i] == Finite(ids[i] as real)
    ensures JsMax(nums) == Finite(MaxId(ids) as real)
  {
    if |ids| > 1 {
      JsMaxOfFinite(ids[1..], nums[1..]);
    } else {
      assert JsMax(nums[1..]) == NegInf;
    }
  }

  /** The expression goes wrong once the list is empty: the record created
      then gets the id -Infinity, and so does the one created after it, so
      two records share an id (and a delete by that id removes both). */
  lemma NextIdAsWrittenDuplicates()
    ensures NextIdAsWritten([]) == NegInf
    ensures NextIdAsWritten([NegInf]) == NegInf
  {
  }

  /** `s.slice(start, end)`: negative positions count from the end, positions
      are clamped to the list, and an empty range gives the empty list. */
  function JsSlice<T(!new)>(s: seq<T>, start: int, end: int): (r: seq<T>)
    ensures |r| <= |s|
  {
    var from := if start < 0 then Max(|s| + start, 0) else Min(start, |s|);
    var to := if end < 0 then Max(|s| + end, 0) else Min(end, |s|);
    if from < to then s[from..to] else []
  }

  const ItemsPerPage: nat := 5

  /** `Math.ceil(n / 5)`: the number of pages, 0 for an empty list. */
  function PageCount(n: nat): (r: nat)
    ensures (r - 1) * ItemsPerPage < n <= r * ItemsPerPage || (n == 0 && r == 0)
  {
    (n + ItemsPerPage - 1) / ItemsPerPage
  }

  /** `list.slice((page - 1) * 5, page * 5)` */
  function PageOf<T(!new)>(xs: seq<T>, page: int): seq<T> {
    JsSlice(xs, (page - 1) * ItemsPerPage, page * ItemsPerPage)
  }

  /** On a page numbered from 1 the slice is the run of at most five elements
      that starts at `(page - 1) * 5`; pages 1 to PageCount are not empty and
      later pages are. */
  lemma PageOfSpec<T(!new)>(xs: seq<T>, page: int)
    requires page >= 1
    ensures var lo := Min((page - 1) * ItemsPerPage, |xs|);
            var hi := Min(page * ItemsPerPage, |xs|);
            PageOf(xs, page) == xs[lo..hi]
    ensures |PageOf(xs, page)| <= ItemsPerPage
    ensures PageOf(xs, page) != [] <==> page <= PageCount(|xs|)
  {
  }

  /** The "Showing a to b of n results" line: `(page - 1) * 5 + 1` and
      `Math.min(page * 5, n)`. */
  function ShownRange(page: int, n: nat): (r: (int, int))
    ensures page >= 1 ==> r.0 >= 1 && r.1 <= n
  {
    ((page - 1) * ItemsPerPage + 1, Min(page * ItemsPerPage, n))
  }

  /** On a page that holds rows the line names exactly the positions, counted
      from 1, of the rows the page shows. */
  lemma RangeMatchesPage<T(!new)>(xs: seq<T>, page: int)
    ensures 1 <= page <= PageCount(|xs|) ==>
              var (a, b) := ShownRange(page, |xs|);
              1 <= a <= b <= |xs| && b - a + 1 == |PageOf(xs, page)|
              && PageOf(xs, page) == xs[a - 1..b]
  {
    if 1 <= page {
      PageOfSpec(xs, page);
    }
  }

  /** Pages 1 to `k` one after another. */
  function Pages<T(!new)>(xs: seq<T>, k: nat): seq<T> {
    if k == 0 then [] else Pages(xs, k - 1) + PageOf(xs, k)
  }

  /** Reading every page from 1 to PageCount in turn shows every element of
      the list exactly once, in order. */
  lemma AllPagesCoverList<T(!new)>(xs: seq<T>)
    ensures Pages(xs, PageCount(|xs|)) == xs
  {
    PagesPrefix(xs, PageCount(|xs|));
  }

  lemma {:induction false} PagesPrefix<T(!new)>(xs: seq<T>, k: nat)
    ensures Pages(xs, k) == xs[..Min(k * ItemsPerPage, |xs|)]
  {
    if k > 0 {
      PagesPrefix(xs, k - 1);
      PageOfSpec(xs, k);
      var a := Min((k - 1) * ItemsPerPage, |xs|);
      var b := Min(k * ItemsPerPage, |xs|);
      assert xs[..a] + xs[a..b] == xs[..b];
    }
  }

  /** The page the Previous button moves to, `Math.max(1, page - 1)`. */
  function PreviousPage(page: int): (r: int)
    ensures r >= 1
    ensures page > 1 ==> r == page - 1
  {
    Max(1, page - 1)
  }

  /** The page the Next button moves to on the bills and incomes pages,
      `Math.min(totalPages, page + 1)`. */
  function NextPageAsWritten(page: int, totalPages: int): int {
    Min(totalPages, page + 1)
  }

  /** The Next button is enabled unless `page === totalPages`. */
  predicate NextEnabled(page: int, totalPages: int) {
    page != totalPages
  }

  /** When the filters match nothing there are no pages, yet on page 1 the
      Next button is enabled and moves to page 0. */
  lemma NextPageAsWrittenLeavesRange()
    ensures NextEnabled(1, PageCount(0)) && NextPageAsWritten(1, PageCount(0)) == 0
  {
  }

  /** The Next move clamped to the last page, where an empty list still has
      page 1: from any page in range it stays in range, and it moves forward
      by exactly one page when there is a next page. */
  function NextPage(page: int, totalPages: int): (r: int)
    ensures 1 <= page ==> 1 <= r <= Max(1, totalPages)
    ensures page < totalPages ==> r == page + 1
    ensures totalPages >= 1 ==> r == NextPageAsWritten(page, totalPages)
  {
    Min(Max(1, totalPages), page + 1)
  }
}
