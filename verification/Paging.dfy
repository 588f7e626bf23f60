/** The paged file query: filtering, ordering and windowing the index, cutting a page to a
    byte budget, and following the offsets through the whole result. */
module Paging {
  import opened Common

  /** Relative paths, in their lexicographic order. */
  type Path = nat

  datatype Entry = Entry(path: Path, size: nat, deleted: bool)

  datatype FileSort = ByPath | BySize

  /** The index is a map ordered by path: an ascending sequence of entries. */
  predicate IsIndex(files: seq<Entry>) {
    forall i, j | 0 <= i < j < |files| :: files[i].path < files[j].path
  }

  predicate DistinctPaths(s: seq<Entry>) {
    forall i, j | 0 <= i < j < |s| :: s[i].path != s[j].path
  }

  // ---------- the answer to a query ----------

  predicate Listed(e: Entry, matcher: Path -> bool, includeDeleted: bool) {
    (includeDeleted || !e.deleted) && matcher(e.path)
  }

  function Filter(s: seq<Entry>, matcher: Path -> bool, includeDeleted: bool): seq<Entry> {
    if s == [] then []
    else Filter(s[..|s| - 1], matcher, includeDeleted)
         + (if Listed(s[|s| - 1], matcher, includeDeleted) then [s[|s| - 1]] else [])
  }

  predicate Below(sort: FileSort, x: Entry, y: Entry) {
    match sort
    case ByPath => x.path < y.path
    case BySize => x.size < y.size || (x.size == y.size && x.path < y.path)
  }

  predicate Less(sort: FileSort, desc: bool, x: Entry, y: Entry) {
    if desc then Below(sort, y, x) else Below(sort, x, y)
  }

  predicate Sorted(sort: FileSort, desc: bool, s: seq<Entry>) {
    forall i, j | 0 <= i < j < |s| :: Less(sort, desc, s[i], s[j])
  }

  function Insert(sort: FileSort, desc: bool, x: Entry, s: seq<Entry>): (r: seq<Entry>)
    ensures multiset(r) == multiset{x} + multiset(s)
  {
    if s == [] || Less(sort, desc, x, s[0]) then
      assert [x] + s == [x] + s[..];
      [x] + s
    else
      assert s == [s[0]] + s[1..];
      [s[0]] + Insert(sort, desc, x, s[1..])
  }

  function SortBy(sort: FileSort, desc: bool, s: seq<Entry>): (r: seq<Entry>)
    ensures multiset(r) == multiset(s)
  {
    if s == [] then []
    else
      assert s == [s[0]] + s[1..];
      Insert(sort, desc, s[0], SortBy(sort, desc, s[1..]))
  }

  function Window<T>(s: seq<T>, offset: nat, limit: nat): seq<T> {
    if offset >= |s| then [] else if offset + limit >= |s| then s[offset..] else s[offset..offset + limit]
  }

  /** The whole result: filter, then sort. */
  function Result(files: seq<Entry>, matcher: Path -> bool, includeDeleted: bool,
                  sort: FileSort, desc: bool): seq<Entry> {
    SortBy(sort, desc, Filter(files, matcher, includeDeleted))
  }

  function Reverse(s: seq<Entry>): (r: seq<Entry>)
    ensures |r| == |s| && forall k | 0 <= k < |s| :: r[k] == s[|s| - 1 - k]
  {
    seq(|s|, k requires 0 <= k < |s| => s[|s| - 1 - k])
  }

  // ---------- sorting ----------

  lemma LessIsOrder(sort: FileSort, desc: bool, x: Entry, y: Entry, z: Entry)
    ensures !Less(sort, desc, x, x)
    ensures x.path != y.path ==> Less(sort, desc, x, y) || Less(sort, desc, y, x)
    ensures Less(sort, desc, x, y) && Less(sort, desc, y, z) ==> Less(sort, desc, x, z)
  {}

  lemma SortedCons(sort: FileSort, desc: bool, x: Entry, s: seq<Entry>)
    requires Sorted(sort, desc, s) && (forall k | 0 <= k < |s| :: Less(sort, desc, x, s[k]))
    ensures Sorted(sort, desc, [x] + s)
  {}

  lemma {:induction false} InsertSorted(sort: FileSort, desc: bool, x: Entry, s: seq<Entry>)
    requires Sorted(sort, desc, s) && (forall k | 0 <= k < |s| :: s[k].path != x.path)
    ensures Sorted(sort, desc, Insert(sort, desc, x, s))
  {
    if s == [] {
    } else if Less(sort, desc, x, s[0]) {
      forall k | 0 <= k < |s| ensures Less(sort, desc, x, s[k]) { LessIsOrder(sort, desc, x, s[0], s[k]); }
      SortedCons(sort, desc, x, s);
    } else {
      var t := Insert(sort, desc, x, s[1..]);
      InsertSorted(sort, desc, x, s[1..]);
      LessIsOrder(sort, desc, x, s[0], x);
      forall k | 0 <= k < |t| ensures Less(sort, desc, s[0], t[k]) {
        assert t[k] in multiset(t);
        if t[k] != x {
          assert t[k] in multiset(s[1..]);
          var j :| 0 <= j < |s[1..]| && s[1..][j] == t[k];
          assert s[j + 1] == t[k];
        }
      }
      SortedCons(sort, desc, s[0], t);
    }
  }

  lemma MultisetPaths(s: seq<Entry>, t: seq<Entry>, x: Entry)
    requires multiset(s) == multiset(t)
    ensures x in s <==> x in t
  {
    assert x in s <==> x in multiset(s);
    assert x in t <==> x in multiset(t);
  }

  lemma {:induction false} SortBySorted(sort: FileSort, desc: bool, s: seq<Entry>)
    requires DistinctPaths(s)
    ensures Sorted(sort, desc, SortBy(sort, desc, s))
  {
    if s != [] {
      var t := SortBy(sort, desc, s[1..]);
      SortBySorted(sort, desc, s[1..]);
      forall k | 0 <= k < |t| ensures t[k].path != s[0].path { MultisetPaths(t, s[1..], t[k]); }
      InsertSorted(sort, desc, s[0], t);
    }
  }

  lemma SameHead(sort: FileSort, desc: bool, s: seq<Entry>, t: seq<Entry>)
    requires Sorted(sort, desc, s) && Sorted(sort, desc, t) && s != [] && t != []
    requires s[0] in t && t[0] in s
    ensures s[0] == t[0]
  {
    LessIsOrder(sort, desc, s[0], t[0], s[0]);
  }

  lemma TailBag(s: seq<Entry>)
    requires s != []
    ensures multiset(s[1..]) == multiset(s) - multiset{s[0]}
  {
    assert s == [s[0]] + s[1..];
  }

  /** The order is strict and total, so any sort yields the same sequence. */
  lemma {:induction false} SortUnique(sort: FileSort, desc: bool, s: seq<Entry>, t: seq<Entry>)
    requires Sorted(sort, desc, s) && Sorted(sort, desc, t) && multiset(s) == multiset(t)
    ensures s == t
  {
    assert |multiset(s)| == |s| && |multiset(t)| == |t|;
    if s != [] {
      MultisetPaths(s, t, s[0]);
      MultisetPaths(s, t, t[0]);
      SameHead(sort, desc, s, t);
      TailBag(s);
      TailBag(t);
      SortUnique(sort, desc, s[1..], t[1..]);
      assert s == [s[0]] + s[1..] && t == [t[0]] + t[1..];
    }
  }

  // ---------- filtering ----------

  lemma {:induction false} FilterMembers(s: seq<Entry>, matcher: Path -> bool, del: bool, x: Entry)
    ensures x in Filter(s, matcher, del) <==> x in s && Listed(x, matcher, del)
  {
    if s != [] {
      FilterMembers(s[..|s| - 1], matcher, del, x);
      assert s == s[..|s| - 1] + [s[|s| - 1]];
    }
  }

  lemma {:induction false} FilterSorted(s: seq<Entry>, matcher: Path -> bool, del: bool, sort: FileSort, desc: bool)
    requires Sorted(sort, desc, s)
    ensures Sorted(sort, desc, Filter(s, matcher, del))
  {
    if s != [] {
      var init := s[..|s| - 1];
      FilterSorted(init, matcher, del, sort, desc);
      var f := Filter(init, matcher, del);
      forall k | 0 <= k < |f| ensures Less(sort, desc, f[k], s[|s| - 1]) {
        FilterMembers(init, matcher, del, f[k]);
      }
    }
  }

  lemma {:induction false} FilterBag(s: seq<Entry>, matcher: Path -> bool, del: bool, x: Entry)
    ensures multiset(Filter(s, matcher, del))[x] == if Listed(x, matcher, del) then multiset(s)[x] else 0
  {
    if s != [] {
      FilterBag(s[..|s| - 1], matcher, del, x);
      assert s == s[..|s| - 1] + [s[|s| - 1]];
    }
  }

  lemma {:induction false} ReverseBag(s: seq<Entry>)
    ensures multiset(Reverse(s)) == multiset(s)
  {
    if s != [] {
      ReverseBag(s[..|s| - 1]);
      assert s == s[..|s| - 1] + [s[|s| - 1]];
      assert Reverse(s) == [s[|s| - 1]] + Reverse(s[..|s| - 1]);
    }
  }

  lemma FilterDistinct(files: seq<Entry>, matcher: Path -> bool, del: bool)
    requires IsIndex(files)
    ensures DistinctPaths(Filter(files, matcher, del))
  {
    FilterSorted(files, matcher, del, ByPath, false);
  }

  /** Walking the index in either direction is already the path sort. */
  lemma WalkIsPathSort(files: seq<Entry>, matcher: Path -> bool, del: bool, desc: bool)
    requires IsIndex(files)
    ensures Filter(if desc then Reverse(files) else files, matcher, del)
         == Result(files, matcher, del, ByPath, desc)
  {
    var walk := if desc then Reverse(files) else files;
    var f := Filter(walk, matcher, del);
    assert Sorted(ByPath, desc, walk);
    FilterSorted(walk, matcher, del, ByPath, desc);
    FilterDistinct(files, matcher, del);
    SortBySorted(ByPath, desc, Filter(files, matcher, del));
    ReverseBag(files);
    forall x ensures multiset(f)[x] == multiset(Filter(files, matcher, del))[x] {
      FilterBag(walk, matcher, del, x);
      FilterBag(files, matcher, del, x);
    }
    assert multiset(f) == multiset(Filter(files, matcher, del));
    SortUnique(ByPath, desc, f, Result(files, matcher, del, ByPath, desc));
  }

  // ---------- select_files ----------

  function Scanned(s: seq<Entry>, includeDeleted: bool): nat {
    |Filter(s, _ => true, includeDeleted)|
  }

  lemma FilterStep(s: seq<Entry>, k: nat, matcher: Path -> bool, del: bool)
    requires k < |s|
    ensures Filter(s[..k + 1], matcher, del)
         == Filter(s[..k], matcher, del) + (if Listed(s[k], matcher, del) then [s[k]] else [])
  {
    assert s[..k + 1][..k] == s[..k];
  }

  /** Either branch answers filter, sort, drop, take, and counts all matches. */
  method SelectFiles(files: seq<Entry>, matcher: Path -> bool, includeDeleted: bool,
                     sort: FileSort, desc: bool, offset: nat, limit: nat)
    returns (rows: seq<Entry>, matched: nat, scanned: nat)
    requires IsIndex(files)
    ensures rows == Window(Result(files, matcher, includeDeleted, sort, desc), offset, limit)
    ensures matched == |Result(files, matcher, includeDeleted, sort, desc)|
    ensures scanned == Scanned(files, includeDeleted)
  {
    match sort {
      case ByPath => rows, matched, scanned := SelectByPath(files, matcher, includeDeleted, desc, offset, limit);
      case BySize => rows, matched, scanned := SelectBySize(files, matcher, includeDeleted, desc, offset, limit);
    }
  }

  /** One streaming pass that collects only the window. */
  method SelectByPath(files: seq<Entry>, matcher: Path -> bool, includeDeleted: bool,
                      desc: bool, offset: nat, limit: nat)
    returns (rows: seq<Entry>, matched: nat, scanned: nat)
    requires IsIndex(files)
    ensures rows == Window(Result(files, matcher, includeDeleted, ByPath, desc), offset, limit)
    ensures matched == |Result(files, matcher, includeDeleted, ByPath, desc)|
    ensures scanned == Scanned(files, includeDeleted)
  {
    var end := offset + limit;
    var walk := if desc then Reverse(files) else files;
    rows, matched, scanned := [], 0, 0;
    for k := 0 to |walk|
      invariant matched == |Filter(walk[..k], matcher, includeDeleted)|
      invariant rows == Window(Filter(walk[..k], matcher, includeDeleted), offset, limit)
      invariant scanned == Scanned(walk[..k], includeDeleted)
    {
      FilterStep(walk, k, matcher, includeDeleted);
      FilterStep(walk, k, _ => true, includeDeleted);
      if walk[k].deleted && !includeDeleted { continue; }
      scanned := scanned + 1;
      if !matcher(walk[k].path) { continue; }
      if offset <= matched < end { rows := rows + [walk[k]]; }
      matched := matched + 1;
    }
    assert walk[..|walk|] == walk;
    WalkIsPathSort(files, matcher, includeDeleted, desc);
    ScannedEitherWay(files, includeDeleted);
  }

  lemma ScannedEitherWay(files: seq<Entry>, del: bool)
    requires IsIndex(files)
    ensures Scanned(Reverse(files), del) == Scanned(files, del)
  {
    WalkIsPathSort(files, _ => true, del, true);
    var r := SortBy(ByPath, true, Filter(files, _ => true, del));
    assert |multiset(r)| == |r|;
  }

  /** All matches collected, then sorted, then windowed. */
  method SelectBySize(files: seq<Entry>, matcher: Path -> bool, includeDeleted: bool,
                      desc: bool, offset: nat, limit: nat)
    returns (rows: seq<Entry>, matched: nat, scanned: nat)
    requires IsIndex(files)
    ensures rows == Window(Result(files, matcher, includeDeleted, BySize, desc), offset, limit)
    ensures matched == |Result(files, matcher, includeDeleted, BySize, desc)|
    ensures scanned == Scanned(files, includeDeleted)
  {
    var hits: seq<Entry> := [];
    scanned := 0;
    for k := 0 to |files|
      invariant hits == Filter(files[..k], matcher, includeDeleted)
      invariant scanned == Scanned(files[..k], includeDeleted)
    {
      FilterStep(files, k, matcher, includeDeleted);
      FilterStep(files, k, _ => true, includeDeleted);
      if files[k].deleted && !includeDeleted { continue; }
      scanned := scanned + 1;
      if matcher(files[k].path) { hits := hits + [files[k]]; }
    }
    assert files[..|files|] == files;
    var sorted := SortBy(BySize, desc, hits);
    assert |multiset(sorted)| == |sorted| && |multiset(hits)| == |hits|;
    matched := |hits|;
    rows := Window(sorted, offset, limit);
  }

  // ---------- the byte budget ----------

  const QUERY_PAGE_BUDGET: nat := 700 * 1024

  function Cost<T>(items: seq<T>, cost: T -> nat): nat {
    if items == [] then 0 else Cost(items[..|items| - 1], cost) + cost(items[|items| - 1])
  }

  /** The cost of a list is the sum of the costs of its rows. */
  lemma {:induction false} CostAdds<T>(a: seq<T>, b: seq<T>, x: T, cost: T -> nat)
    ensures Cost([x], cost) == cost(x) && Cost(a + b, cost) == Cost(a, cost) + Cost(b, cost)
    decreases |b|
  {
    assert [x][..0] == [];
    if b == [] {
      assert a + b == a;
    } else {
      CostAdds(a, b[..|b| - 1], x, cost);
      assert (a + b)[..|a + b| - 1] == a + b[..|b| - 1];
    }
  }

  /** n rows are served: at least one, and no more than stay under the budget. */
  ghost predicate Cut<T>(items: seq<T>, cost: T -> nat, n: nat) {
    && n <= |items| && (items != [] ==> n >= 1)
    && (n > 1 ==> Cost(items[..n], cost) < QUERY_PAGE_BUDGET)
    && (n < |items| ==> Cost(items[..n + 1], cost) >= QUERY_PAGE_BUDGET)
  }

  lemma {:induction false} CostMono<T>(items: seq<T>, cost: T -> nat, i: nat, j: nat)
    requires i <= j <= |items|
    ensures Cost(items[..i], cost) <= Cost(items[..j], cost)
    decreases j
  {
    if i < j {
      CostMono(items, cost, i, j - 1);
      assert items[..j][..j - 1] == items[..j - 1];
    }
  }

  /** The length of a page is determined by the budget. */
  lemma CutUnique<T>(items: seq<T>, cost: T -> nat, n: nat, m: nat)
    requires Cut(items, cost, n) && Cut(items, cost, m)
    ensures n == m
  {
    if n < m { CostMono(items, cost, n + 1, m); }
    if m < n { CostMono(items, cost, m + 1, n); }
  }

  /** Rows go out until the budget is used up; the first always does. */
  method FillBudget<T>(items: seq<T>, cost: T -> nat) returns (out: seq<T>, cut: bool)
    ensures out <= items && Cut(items, cost, |out|)
    ensures cut <==> |out| < |items|
  {
    out := [];
    var budget := QUERY_PAGE_BUDGET;
    for k := 0 to |items|
      invariant out == items[..k]
      invariant budget == if Cost(out, cost) < QUERY_PAGE_BUDGET then QUERY_PAGE_BUDGET - Cost(out, cost) else 0
      invariant k > 1 ==> budget > 0
    {
      assert items[..k + 1][..k] == items[..k];
      var c := cost(items[k]);
      budget := if c < budget then budget - c else 0;
      if budget == 0 && out != [] { return out, true; }
      out := out + [items[k]];
    }
    cut := false;
  }

  // ---------- following the offsets ----------

  function NextOffset(offset: nat, returned: nat, matched: nat): (r: Option<nat>)
    ensures r.Some? ==> offset < r.value < matched
    ensures r.None? ==> returned == 0 || offset + returned >= matched
  {
    if returned > 0 && offset + returned < matched then Some(offset + returned) else None
  }

  /** One reply: the window of the result at the offset, cut to the budget. */
  ghost function Reply<T>(result: seq<T>, cost: T -> nat, offset: nat, limit: nat): (page: seq<T>)
    ensures page <= Window(result, offset, limit)
    ensures page == [] <==> Window(result, offset, limit) == []
  {
    CutExists(Window(result, offset, limit), cost);
    var n: nat :| Cut(Window(result, offset, limit), cost, n);
    Window(result, offset, limit)[..n]
  }

  lemma {:induction false} CutFrom<T>(items: seq<T>, cost: T -> nat, n: nat) returns (m: nat)
    requires 1 <= n <= |items| && (n > 1 ==> Cost(items[..n], cost) < QUERY_PAGE_BUDGET)
    ensures Cut(items, cost, m)
    decreases |items| - n
  {
    if n == |items| || Cost(items[..n + 1], cost) >= QUERY_PAGE_BUDGET {
      m := n;
    } else {
      m := CutFrom(items, cost, n + 1);
    }
  }

  lemma CutExists<T>(items: seq<T>, cost: T -> nat)
    ensures exists n: nat :: Cut(items, cost, n)
  {
    if items == [] { assert Cut(items, cost, 0); } else { var m := CutFrom(items, cost, 1); }
  }

  /** All rows a client sees that asks again at every next offset it is given. */
  ghost function Follow<T>(result: seq<T>, cost: T -> nat, offset: nat, limit: nat): seq<T>
    decreases |result| - offset
  {
    var page := Reply(result, cost, offset, limit);
    match NextOffset(offset, |page|, |result|)
    case None => page
    case Some(next) => page + Follow(result, cost, next, limit)
  }

  lemma PageIsSlice<T>(result: seq<T>, offset: nat, limit: nat, page: seq<T>)
    requires offset < |result| && page <= Window(result, offset, limit)
    ensures offset + |page| <= |result| && page == result[offset..offset + |page|]
    ensures page + result[offset + |page|..] == result[offset..]
  {
    var w := Window(result, offset, limit);
    assert page == w[..|page|];
    assert forall k | 0 <= k < |w| :: w[k] == result[offset + k];
  }

  lemma {:induction false} FollowFrom<T>(result: seq<T>, cost: T -> nat, offset: nat, limit: nat)
    requires limit > 0 && offset <= |result|
    ensures Follow(result, cost, offset, limit) == result[offset..]
    decreases |result| - offset
  {
    var page := Reply(result, cost, offset, limit);
    if offset < |result| {
      PageIsSlice(result, offset, limit, page);
      var next := NextOffset(offset, |page|, |result|);
      if next.Some? { FollowFrom(result, cost, next.value, limit); }
    }
  }

  /** Following the offsets from 0 yields the whole result, in order and once each, exactly
      when the limit is positive or there is nothing to list. */
  lemma PagesCoverResult<T>(result: seq<T>, cost: T -> nat, limit: nat)
    ensures Follow(result, cost, 0, limit) == result <==> limit > 0 || result == []
  {
    if limit > 0 {
      FollowFrom(result, cost, 0, limit);
      assert result[0..] == result;
    }
  }

  /** `x` may stand before `y`: by ascending or descending size or path, paths deciding between equal sizes. */
  predicate InOrder(sort: FileSort, desc: bool, x: Entry, y: Entry) {
    && (sort == BySize ==> if desc then x.size >= y.size else x.size <= y.size)
    && (sort == ByPath || x.size == y.size ==> if desc then x.path > y.path else x.path < y.path)
  }

  /** So a paged file query lists every matching entry of the index exactly once, sorted. */
  lemma PagedQuery(files: seq<Entry>, matcher: Path -> bool, del: bool, sort: FileSort, desc: bool,
                   cost: Entry -> nat, limit: nat)
    requires IsIndex(files) && limit > 0
    ensures var rows := Follow(Result(files, matcher, del, sort, desc), cost, 0, limit);
            && (forall i, j :: 0 <= i < j < |rows| ==> InOrder(sort, desc, rows[i], rows[j]))
            && forall x :: multiset(rows)[x] == if x in files && matcher(x.path) && (x.deleted ==> del) then 1 else 0
  {
    PagesCoverResult(Result(files, matcher, del, sort, desc), cost, limit);
    ResultInOrder(files, matcher, del, sort, desc);
    ResultListsOnce(files, matcher, del, sort, desc);
  }

  lemma ResultInOrder(files: seq<Entry>, matcher: Path -> bool, del: bool, sort: FileSort, desc: bool)
    requires IsIndex(files)
    ensures var rows := Result(files, matcher, del, sort, desc);
            forall i, j :: 0 <= i < j < |rows| ==> InOrder(sort, desc, rows[i], rows[j])
  {
    FilterDistinct(files, matcher, del);
    SortBySorted(sort, desc, Filter(files, matcher, del));
  }

  lemma ResultListsOnce(files: seq<Entry>, matcher: Path -> bool, del: bool, sort: FileSort, desc: bool)
    requires IsIndex(files)
    ensures var rows := Result(files, matcher, del, sort, desc);
            forall x :: multiset(rows)[x] == if x in files && matcher(x.path) && (x.deleted ==> del) then 1 else 0
  {
    forall x ensures multiset(Filter(files, matcher, del))[x]
                     == if x in files && matcher(x.path) && (x.deleted ==> del) then 1 else 0 {
      FilterBag(files, matcher, del, x);
      OnceInIndex(files, x);
    }
  }

  lemma {:induction false} OnceInIndex(files: seq<Entry>, x: Entry)
    requires IsIndex(files)
    ensures multiset(files)[x] == if x in files then 1 else 0
  {
    if files != [] {
      var init := files[..|files| - 1];
      OnceInIndex(init, x);
      assert files == init + [files[|files| - 1]];
    }
  }
}
