/** The pagination bar component: the page buttons it shows around the
    current page, the ellipses it puts into the gaps, and when it renders at
    all. `buildPageItems` collects page numbers in a JavaScript `Set`, sorts
    them numerically and walks the sorted list pushing items. */
module PaginationControls {
  import opened Common
  import opened StableSort

  /** One entry of the bar: a page button, or an ellipsis whose React key
      `ellipsis-<previous>-<page>` is kept as the two page numbers it
      separates. */
  datatype Item = Page(value: int) | Ellipsis(previous: int, next: int)

  /** The comparator `(a, b) => a - b`. */
  function Numeric(): Comparator<int> {
    (a: int, b: int) => a - b
  }

  lemma NumericConsistent()
    ensures Consistent(Numeric())
  {
    var cmp := Numeric();
    forall a: int, b: int ensures cmp(a, b) < 0 <==> cmp(b, a) > 0 {
      assert cmp(a, b) == a - b && cmp(b, a) == b - a;
    }
    forall a: int, b: int, c: int | cmp(a, b) <= 0 && cmp(b, c) <= 0 ensures cmp(a, c) <= 0 {
      assert cmp(a, b) == a - b && cmp(b, c) == b - c && cmp(a, c) == a - c;
    }
  }

  ghost predicate Distinct<T>(s: seq<T>) {
    forall i, j :: 0 <= i < j < |s| ==> s[i] != s[j]
  }

  ghost predicate Increasing(s: seq<int>) {
    forall i, j :: 0 <= i < j < |s| ==> s[i] < s[j]
  }

  /** `Set.prototype.add` on a set kept in insertion order, as a JavaScript
      `Set` is: a value already present leaves the set unchanged. */
  function SetAdd(s: seq<int>, x: int): (r: seq<int>)
    ensures forall y :: y in r <==> y in s || y == x
    ensures Distinct(s) ==> Distinct(r)
    ensures |r| <= |s| + 1
  {
    if x in s then s else s + [x]
  }

  /** The set the source fills: 1, the last page, the current page, and the
      neighbours of the current page that lie in `[1, totalPages]`, in the
      order they are added. */
  function PageSet(currentPage: int, totalPages: int): (r: seq<int>)
    ensures Distinct(r)
    ensures |r| <= 5
    ensures forall x :: x in r <==> IsListedPage(currentPage, totalPages, x)
  {
    var s := SetAdd(SetAdd(SetAdd([], 1), totalPages), currentPage);
    var s' := if currentPage - 1 >= 1 then SetAdd(s, currentPage - 1) else s;
    if currentPage + 1 <= totalPages then SetAdd(s', currentPage + 1) else s'
  }

  /** The pages the bar lists. */
  predicate IsListedPage(currentPage: int, totalPages: int, x: int) {
    || x == 1
    || x == totalPages
    || x == currentPage
    || (x == currentPage - 1 && currentPage - 1 >= 1)
    || (x == currentPage + 1 && currentPage + 1 <= totalPages)
  }

  /** `Array.from(pages).sort((a, b) => a - b)`. */
  function SortedPages(currentPage: int, totalPages: int): seq<int> {
    Sort(PageSet(currentPage, totalPages), Numeric())
  }

  /** The items pushed for the sorted pages `sp`: each page, preceded by an
      ellipsis when it is more than one above the page before it. */
  function ItemsFor(sp: seq<int>): seq<Item>
    decreases |sp|
  {
    if sp == [] then []
    else
      var n := |sp| - 1;
      ItemsFor(sp[..n])
      + (if n > 0 && sp[n] - sp[n - 1] > 1 then [Ellipsis(sp[n - 1], sp[n])] else [])
      + [Page(sp[n])]
  }

  /** What `buildPageItems` returns. */
  function PageItems(currentPage: int, totalPages: int): seq<Item> {
    ItemsFor(SortedPages(currentPage, totalPages))
  }

  /** The page numbers of the items, in order. */
  function PageValues(items: seq<Item>): (r: seq<int>)
    ensures |r| <= |items|
  {
    if items == [] then []
    else (if items[0].Page? then [items[0].value] else []) + PageValues(items[1..])
  }

  /** `buildPageItems`: add the pages to a set, sort a copy, and push an item
      per page with an ellipsis before every gap. */
  method BuildPageItems(currentPage: int, totalPages: int) returns (items: seq<Item>)
    ensures items == PageItems(currentPage, totalPages)
  {
    var pages: seq<int> := [];
    pages := SetAdd(pages, 1);
    pages := SetAdd(pages, totalPages);
    pages := SetAdd(pages, currentPage);
    if currentPage - 1 >= 1 {
      pages := SetAdd(pages, currentPage - 1);
    }
    if currentPage + 1 <= totalPages {
      pages := SetAdd(pages, currentPage + 1);
    }
    var sortedPages := Sort(pages, Numeric());
    items := PushItems(sortedPages);
  }

  /** The `sortedPages.forEach` loop of `buildPageItems`. */
  method PushItems(sortedPages: seq<int>) returns (items: seq<Item>)
    ensures items == ItemsFor(sortedPages)
  {
    items := [];
    var index := 0;
    while index < |sortedPages|
      invariant 0 <= index <= |sortedPages|
      invariant items == ItemsFor(sortedPages[..index])
    {
      var page := sortedPages[index];
      assert sortedPages[..index + 1][..index] == sortedPages[..index];
      if index > 0 {
        var previous := sortedPages[index - 1];
        if page - previous > 1 {
          items := items + [Ellipsis(previous, page)];
        }
      }
      items := items + [Page(page)];
      index := index + 1;
    }
    assert sortedPages[..index] == sortedPages;
  }

  // ---------------------------------------------------------------- the pages

  lemma {:induction false} InsertDistinct(x: int, s: seq<int>, cmp: Comparator<int>)
    requires Distinct(s) && x !in s
    ensures Distinct(Insert(x, s, cmp))
  {
    if s != [] && cmp(x, s[0]) >= 0 {
      var h, tail := s[0], s[1..];
      var t := Insert(x, tail, cmp);
      InsertPast(x, s, cmp);
      TailDistinct(s);
      assert x !in tail;
      InsertDistinct(x, tail, cmp);
      InsertPermutes(x, tail, cmp);
      assert h !in t by {
        assert h in multiset(t) <==> h in multiset(tail) || h == x;
      }
      ConsDistinct(h, t);
    } else if s != [] {
      InsertFront(x, s, cmp);
      ConsDistinct(x, s);
    }
  }

  /** The tail of a duplicate-free list is duplicate-free and misses the head. */
  lemma TailDistinct(s: seq<int>)
    requires Distinct(s) && s != []
    ensures Distinct(s[1..]) && s[0] !in s[1..]
  {
    var t := s[1..];
    forall i, j | 0 <= i < j < |t| ensures t[i] != t[j] {
      assert t[i] == s[i + 1] && t[j] == s[j + 1];
    }
    forall k | 0 <= k < |t| ensures t[k] != s[0] {
      assert t[k] == s[k + 1];
    }
  }

  /** A new head keeps a duplicate-free list duplicate-free. */
  lemma ConsDistinct(h: int, t: seq<int>)
    requires Distinct(t) && h !in t
    ensures Distinct([h] + t)
  {
    var r := [h] + t;
    forall i, j | 0 <= i < j < |r| ensures r[i] != r[j] {
      if i == 0 {
        assert r[j] == t[j - 1];
      } else {
        assert r[i] == t[i - 1] && r[j] == t[j - 1];
      }
    }
  }

  /** Sorting keeps a duplicate-free list duplicate-free. */
  lemma {:induction false} SortDistinct(s: seq<int>, cmp: Comparator<int>)
    requires Distinct(s)
    ensures Distinct(Sort(s, cmp))
  {
    if s != [] {
      var init := s[..|s| - 1];
      var x := s[|s| - 1];
      assert s == init + [x];
      assert Distinct(init);
      assert x !in init by {
        forall k | 0 <= k < |init| ensures init[k] != x {
          assert init[k] == s[k];
        }
      }
      SortDistinct(init, cmp);
      SortSnoc(init, x, cmp);
      assert x !in Sort(init, cmp) by {
        SortPermutes(init, cmp);
        assert x in Sort(init, cmp) <==> x in multiset(Sort(init, cmp));
      }
      InsertDistinct(x, Sort(init, cmp), cmp);
    }
  }

  /** The sorted page list holds exactly the listed pages, each once, in
      strictly increasing order, and has at most five of them. */
  lemma SortedPagesCorrect(currentPage: int, totalPages: int)
    ensures var sp := SortedPages(currentPage, totalPages);
      && (forall x :: x in sp <==> IsListedPage(currentPage, totalPages, x))
      && Increasing(sp)
      && |sp| <= 5
  {
    var pages := PageSet(currentPage, totalPages);
    var sp := SortedPages(currentPage, totalPages);
    SortPermutes(pages, Numeric());
    forall x ensures x in sp <==> x in pages {
      assert x in sp <==> x in multiset(sp);
      assert x in pages <==> x in multiset(pages);
    }
    NumericConsistent();
    SortSorted(pages, Numeric());
    SortDistinct(pages, Numeric());
    forall i, j | 0 <= i < j < |sp| ensures sp[i] < sp[j] {
      assert Numeric()(sp[i], sp[j]) <= 0;
    }
  }

  /** An increasing list whose values all lie in `[lo, hi]` and that holds
      both `lo` and `hi` starts with `lo` and ends with `hi`. */
  lemma IncreasingEnds(sp: seq<int>, lo: int, hi: int)
    requires Increasing(sp)
    requires lo in sp && hi in sp
    requires forall x :: x in sp ==> lo <= x <= hi
    ensures sp != [] && sp[0] == lo && sp[|sp| - 1] == hi
  {
    var a :| 0 <= a < |sp| && sp[a] == lo;
    var b :| 0 <= b < |sp| && sp[b] == hi;
    assert sp[0] in sp && sp[|sp| - 1] in sp;
  }

  /** A list holding exactly the listed pages, for a current page inside
      `[1, totalPages]`, lies in `[1, totalPages]` and holds both ends. */
  lemma ListedPagesBounds(sp: seq<int>, currentPage: int, totalPages: int)
    requires 1 <= currentPage <= totalPages
    requires forall x :: x in sp <==> IsListedPage(currentPage, totalPages, x)
    ensures 1 in sp && totalPages in sp && currentPage in sp
    ensures forall x :: x in sp ==> 1 <= x <= totalPages
  {
    assert IsListedPage(currentPage, totalPages, 1);
    assert IsListedPage(currentPage, totalPages, totalPages);
    assert IsListedPage(currentPage, totalPages, currentPage);
  }

  /** With `1 <= currentPage <= totalPages` the bar starts with page 1 and
      ends with the last page. */
  lemma {:induction false} SortedPagesEnds(currentPage: int, totalPages: int)
    requires 1 <= currentPage <= totalPages
    ensures var sp := SortedPages(currentPage, totalPages);
      sp != [] && sp[0] == 1 && sp[|sp| - 1] == totalPages
  {
    SortedPagesCorrect(currentPage, totalPages);
    ListedPagesEnds(SortedPages(currentPage, totalPages), currentPage, totalPages);
  }

  lemma ListedPagesEnds(sp: seq<int>, currentPage: int, totalPages: int)
    requires 1 <= currentPage <= totalPages
    requires forall x :: x in sp <==> IsListedPage(currentPage, totalPages, x)
    requires Increasing(sp)
    ensures sp != [] && sp[0] == 1 && sp[|sp| - 1] == totalPages
  {
    ListedPagesBounds(sp, currentPage, totalPages);
    IncreasingEnds(sp, 1, totalPages);
  }

  // ---------------------------------------------------------------- the items

  lemma {:induction false} PageValuesAppend(a: seq<Item>, b: seq<Item>)
    ensures PageValues(a + b) == PageValues(a) + PageValues(b)
  {
    if a == [] {
      assert a + b == b;
    } else {
      assert (a + b)[0] == a[0];
      assert (a + b)[1..] == a[1..] + b;
      PageValuesAppend(a[1..], b);
    }
  }

  /** The page buttons show exactly the sorted pages, in order. */
  lemma {:induction false} ItemsForPages(sp: seq<int>)
    ensures PageValues(ItemsFor(sp)) == sp
  {
    if sp != [] {
      var n := |sp| - 1;
      var gap: seq<Item> := if n > 0 && sp[n] - sp[n - 1] > 1 then [Ellipsis(sp[n - 1], sp[n])] else [];
      ItemsForPages(sp[..n]);
      assert PageValues(gap) == [];
      PageValuesStep(ItemsFor(sp[..n]), gap, sp[n]);
      assert ItemsFor(sp) == ItemsFor(sp[..n]) + gap + [Page(sp[n])];
      assert sp[..n] + [sp[n]] == sp;
    }
  }

  /** Pushing a gap without pages and then a page adds just that page. */
  lemma PageValuesStep(prefix: seq<Item>, gap: seq<Item>, v: int)
    requires PageValues(gap) == []
    ensures PageValues(prefix + gap + [Page(v)]) == PageValues(prefix) + [v]
  {
    PageValuesAppend(prefix, gap);
    PageValuesAppend(prefix + gap, [Page(v)]);
    assert PageValues([Page(v)]) == [v];
  }

  /** A non-empty list of items starts with the first page and ends with the
      last: an ellipsis is never first or last. */
  lemma {:induction false} ItemsForEnds(sp: seq<int>)
    ensures |ItemsFor(sp)| >= |sp|
    ensures sp != [] ==> ItemsFor(sp)[0] == Page(sp[0])
    ensures sp != [] ==> ItemsFor(sp)[|ItemsFor(sp)| - 1] == Page(sp[|sp| - 1])
  {
    if sp != [] {
      var n := |sp| - 1;
      ItemsForEnds(sp[..n]);
      if n > 0 {
        assert sp[..n][0] == sp[0];
      }
    }
  }

  /** Every ellipsis sits between the two pages its key names, and those pages
      are more than one apart; so no two ellipses are adjacent. */
  ghost predicate EllipsesBetweenGaps(items: seq<Item>) {
    forall k :: 0 <= k < |items| && items[k].Ellipsis? ==>
      && 0 < k < |items| - 1
      && items[k - 1] == Page(items[k].previous)
      && items[k + 1] == Page(items[k].next)
      && items[k].next - items[k].previous > 1
  }

  /** Two page buttons next to each other are at most one page apart. */
  ghost predicate NoHiddenGaps(items: seq<Item>) {
    forall k :: 0 <= k < |items| - 1 && items[k].Page? && items[k + 1].Page? ==>
      items[k + 1].value - items[k].value <= 1
  }

  /** An ellipsis appears between two consecutive pages exactly when they are
      more than one apart. */
  lemma {:induction false} ItemsForGaps(sp: seq<int>)
    ensures EllipsesBetweenGaps(ItemsFor(sp))
    ensures NoHiddenGaps(ItemsFor(sp))
  {
    if sp != [] {
      var n := |sp| - 1;
      var prefix := ItemsFor(sp[..n]);
      ItemsForGaps(sp[..n]);
      ItemsForEnds(sp[..n]);
      if n > 0 {
        assert sp[..n][n - 1] == sp[n - 1];
        GapsExtend(prefix, true, sp[n - 1], sp[n]);
      } else {
        assert sp[..n] == [];
        GapsExtend(prefix, false, 0, sp[n]);
      }
    }
  }

  /** Pushing one more page, with an ellipsis before it when it is more than
      one above the last page pushed, keeps both gap properties. */
  lemma GapsExtend(prefix: seq<Item>, hasPrevious: bool, previous: int, page: int)
    requires EllipsesBetweenGaps(prefix) && NoHiddenGaps(prefix)
    requires hasPrevious ==> prefix != [] && prefix[|prefix| - 1] == Page(previous)
    requires !hasPrevious ==> prefix == []
    ensures var gap := if hasPrevious && page - previous > 1 then [Ellipsis(previous, page)] else [];
      EllipsesBetweenGaps(prefix + gap + [Page(page)]) && NoHiddenGaps(prefix + gap + [Page(page)])
  {
    var gap := if hasPrevious && page - previous > 1 then [Ellipsis(previous, page)] else [];
    var items := prefix + gap + [Page(page)];
    forall k | 0 <= k < |items| && items[k].Ellipsis?
      ensures 0 < k < |items| - 1
      ensures items[k - 1] == Page(items[k].previous)
      ensures items[k + 1] == Page(items[k].next)
      ensures items[k].next - items[k].previous > 1
    {
      if k < |prefix| {
        assert items[k] == prefix[k] && items[k - 1] == prefix[k - 1] && items[k + 1] == prefix[k + 1];
      }
    }
    forall k | 0 <= k < |items| - 1 && items[k].Page? && items[k + 1].Page?
      ensures items[k + 1].value - items[k].value <= 1
    {
      if k + 1 < |prefix| {
        assert items[k] == prefix[k] && items[k + 1] == prefix[k + 1];
      }
    }
  }

  /** What `buildPageItems` returns, described without its loop: the page
      buttons are the listed pages in strictly increasing order, there are at
      most five of them, and ellipses mark exactly the gaps. */
  lemma PageItemsCorrect(currentPage: int, totalPages: int)
    ensures var items := PageItems(currentPage, totalPages);
      var pages := PageValues(items);
      && (forall x :: x in pages <==> IsListedPage(currentPage, totalPages, x))
      && Increasing(pages)
      && |pages| <= 5
      && EllipsesBetweenGaps(items)
      && NoHiddenGaps(items)
  {
    var sp := SortedPages(currentPage, totalPages);
    ItemsForPages(sp);
    ItemsForGaps(sp);
    SortedPagesCorrect(currentPage, totalPages);
  }

  /** For a current page inside `[1, totalPages]` the bar runs from page 1 to
      the last page. */
  lemma PageItemsEnds(currentPage: int, totalPages: int)
    requires 1 <= currentPage <= totalPages
    ensures var items := PageItems(currentPage, totalPages);
      items != [] && items[0] == Page(1) && items[|items| - 1] == Page(totalPages)
  {
    SortedPagesEnds(currentPage, totalPages);
    ItemsForEnds(SortedPages(currentPage, totalPages));
  }

  // ---------------------------------------------------------------- rendering

  /** The rendered bar: the two arrow buttons' `disabled` flags and the items
      between them. */
  datatype Controls = Controls(prevDisabled: bool, items: seq<Item>, nextDisabled: bool)

  /** The component: nothing for a single page or none, otherwise the bar. */
  function Render(currentPage: int, totalPages: int): (r: Option<Controls>)
    ensures r.None? <==> totalPages <= 1
  {
    if totalPages <= 1 then None
    else Some(Controls(currentPage == 1, PageItems(currentPage, totalPages), currentPage == totalPages))
  }

  /** The page button that gets the `active` class. */
  predicate IsActive(currentPage: int, item: Item) {
    item.Page? && item.value == currentPage
  }

  /** In items whose page values increase, a page that is listed has exactly
      one button. */
  lemma {:induction false} OneButtonPerPage(items: seq<Item>, page: int)
    requires Increasing(PageValues(items))
    requires page in PageValues(items)
    ensures exists k :: 0 <= k < |items| && IsActive(page, items[k])
    ensures forall i, j :: 0 <= i < |items| && 0 <= j < |items| && IsActive(page, items[i]) && IsActive(page, items[j]) ==> i == j
  {
    var k := ActiveButtonExists(items, page);
    ActiveButtonUnique(items, page, k);
  }

  /** A listed page has a button. */
  lemma {:induction false} ActiveButtonExists(items: seq<Item>, page: int) returns (k: int)
    requires page in PageValues(items)
    ensures 0 <= k < |items| && IsActive(page, items[k])
  {
    var pages := PageValues(items);
    var p :| 0 <= p < |pages| && pages[p] == page;
    k := PagePosition(items, p);
  }

  /** With increasing page values, an active button is the only one. */
  lemma {:induction false} ActiveButtonUnique(items: seq<Item>, page: int, k: int)
    requires Increasing(PageValues(items))
    requires 0 <= k < |items| && IsActive(page, items[k])
    ensures forall j :: 0 <= j < |items| && IsActive(page, items[j]) ==> j == k
  {
    forall j | 0 <= j < |items| && IsActive(page, items[j]) ensures j == k {
      ActivePair(items, page, j, k);
    }
  }

  /** Two active buttons are the same button. */
  lemma {:induction false} ActivePair(items: seq<Item>, page: int, i: int, j: int)
    requires Increasing(PageValues(items))
    requires 0 <= i < |items| && 0 <= j < |items| && IsActive(page, items[i]) && IsActive(page, items[j])
    ensures i == j
  {
    if i < j {
      PageButtonsIncrease(items, i, j);
    } else if j < i {
      PageButtonsIncrease(items, j, i);
    }
  }

  /** Exactly one button of the bar is active; previous is disabled exactly
      when the active button is the first item and next exactly when it is
      the last; and every button selects a page inside `[1, totalPages]`. */
  ghost predicate BarCorrect(c: Controls, currentPage: int, totalPages: int) {
    && (exists k :: 0 <= k < |c.items| && IsActive(currentPage, c.items[k]))
    && (forall i, j :: 0 <= i < |c.items| && 0 <= j < |c.items| && IsActive(currentPage, c.items[i]) && IsActive(currentPage, c.items[j]) ==> i == j)
    && c.items != []
    && (c.prevDisabled <==> IsActive(currentPage, c.items[0]))
    && (c.nextDisabled <==> IsActive(currentPage, c.items[|c.items| - 1]))
    && (forall k :: 0 <= k < |c.items| && c.items[k].Page? ==> 1 <= c.items[k].value <= totalPages)
  }

  /** With more than one page the bar is shown, and for a current page
      inside `[1, totalPages]` it is correct in the sense of `BarCorrect`. */
  lemma {:induction false} RenderCorrect(currentPage: int, totalPages: int)
    requires 1 <= currentPage <= totalPages && totalPages > 1
    ensures Render(currentPage, totalPages).Some?
    ensures BarCorrect(Render(currentPage, totalPages).value, currentPage, totalPages)
  {
    var c := Render(currentPage, totalPages).value;
    PageItemsBar(currentPage, totalPages);
    BarFacts(c, currentPage, totalPages);
  }

  /** The items show exactly the listed pages, in increasing order, from
      page 1 to the last page. */
  ghost predicate ShowsListedPages(items: seq<Item>, currentPage: int, totalPages: int) {
    && (forall x :: x in PageValues(items) <==> IsListedPage(currentPage, totalPages, x))
    && Increasing(PageValues(items))
    && items != [] && items[0] == Page(1) && items[|items| - 1] == Page(totalPages)
  }

  /** For a current page inside `[1, totalPages]` the bar shows exactly the
      listed pages, in increasing order, from page 1 to the last page. */
  lemma PageItemsBar(currentPage: int, totalPages: int)
    requires 1 <= currentPage <= totalPages
    ensures ShowsListedPages(PageItems(currentPage, totalPages), currentPage, totalPages)
  {
    SortedPagesCorrect(currentPage, totalPages);
    ItemsBar(SortedPages(currentPage, totalPages), currentPage, totalPages);
  }

  /** The items pushed for the listed pages in increasing order show them. */
  lemma ItemsBar(sp: seq<int>, currentPage: int, totalPages: int)
    requires 1 <= currentPage <= totalPages
    requires forall x :: x in sp <==> IsListedPage(currentPage, totalPages, x)
    requires Increasing(sp)
    ensures ShowsListedPages(ItemsFor(sp), currentPage, totalPages)
  {
    ListedPagesEnds(sp, currentPage, totalPages);
    ItemsForPages(sp);
    ItemsForEnds(sp);
  }

  /** The facts behind `RenderCorrect`, for any bar whose page values are the
      listed pages in increasing order, that runs from page 1 to the last
      page, and whose arrows are disabled on the first and the last page. */
  lemma BarFacts(c: Controls, currentPage: int, totalPages: int)
    requires 1 <= currentPage <= totalPages
    requires ShowsListedPages(c.items, currentPage, totalPages)
    requires c.prevDisabled == (currentPage == 1) && c.nextDisabled == (currentPage == totalPages)
    ensures BarCorrect(c, currentPage, totalPages)
  {
    var items := c.items;
    var pages := PageValues(items);
    ListedPagesBounds(pages, currentPage, totalPages);
    OneButtonPerPage(items, currentPage);
    PageIndexes(items);
    forall k | 0 <= k < |items| && items[k].Page? ensures 1 <= items[k].value <= totalPages {
      assert items[k].value in pages;
    }
  }

  /** Every page item's value is among the page values. */
  lemma {:induction false} PageIndexes(items: seq<Item>)
    ensures forall k :: 0 <= k < |items| && items[k].Page? ==> items[k].value in PageValues(items)
  {
    if items != [] {
      PageIndexes(items[1..]);
      forall k | 0 <= k < |items| && items[k].Page? ensures items[k].value in PageValues(items) {
        if k > 0 {
          assert items[k] == items[1..][k - 1];
        }
      }
    }
  }

  /** The position in `items` of the `p`-th page button. */
  lemma {:induction false} PagePosition(items: seq<Item>, p: nat) returns (k: nat)
    requires p < |PageValues(items)|
    ensures k < |items| && items[k] == Page(PageValues(items)[p])
  {
    if items[0].Page? && p == 0 {
      k := 0;
    } else {
      var rest := PagePosition(items[1..], if items[0].Page? then p - 1 else p);
      k := rest + 1;
    }
  }

  /** With increasing page values, a later page button shows a larger page. */
  lemma {:induction false} PageButtonsIncrease(items: seq<Item>, lo: int, hi: int)
    requires 0 <= lo < hi < |items| && items[lo].Page? && items[hi].Page?
    requires Increasing(PageValues(items))
    ensures items[lo].value < items[hi].value
  {
    PageCountBefore(items, lo, hi);
    var pages := PageValues(items);
    var a, b :| 0 <= a < b < |pages| && pages[a] == items[lo].value && pages[b] == items[hi].value;
  }

  lemma {:induction false} PageCountBefore(items: seq<Item>, lo: nat, hi: nat)
    requires lo < hi < |items| && items[lo].Page? && items[hi].Page?
    ensures exists a, b :: 0 <= a < b < |PageValues(items)| && PageValues(items)[a] == items[lo].value && PageValues(items)[b] == items[hi].value
  {
    var rest := items[1..];
    assert PageValues(items) == (if items[0].Page? then [items[0].value] else []) + PageValues(rest);
    if lo == 0 {
      PageIndexes(rest);
      assert items[hi] == rest[hi - 1];
      var b :| 0 <= b < |PageValues(rest)| && PageValues(rest)[b] == items[hi].value;
      assert PageValues(items)[0] == items[0].value && PageValues(items)[b + 1] == items[hi].value;
    } else {
      assert items[lo] == rest[lo - 1] && items[hi] == rest[hi - 1];
      PageCountBefore(rest, lo - 1, hi - 1);
      var a, b :| 0 <= a < b < |PageValues(rest)| && PageValues(rest)[a] == items[lo].value && PageValues(rest)[b] == items[hi].value;
      var off := if items[0].Page? then 1 else 0;
      assert PageValues(items)[a + off] == items[lo].value && PageValues(items)[b + off] == items[hi].value;
    }
  }
}
