/** The navigation order of the song page (`frontend/src/pages/Song.tsx`):
    every song of every category in one list, sorted by page number when any
    song has one and otherwise by category and song order; a window around
    the current song; and the neighbours and swipe buffers the page shows. */
module SongNavigation {
  import opened Common
  import opened StableSort
  import opened Lexicographic
  import opened CategoryClient

  /** `SongDetail`: a song with the id and name of its category. */
  datatype SongDetail = SongDetail(
    id: int,
    title: string,
    author: Option<string>,
    melody: Option<string>,
    content: Option<string>,
    categoryId: int,
    categoryName: string,
    pageNumber: Option<int>,
    negativePageNumber: Option<int>)

  /** `OrderedSongDetail`: the detail with the sort keys of its place. */
  datatype OrderedSongDetail = Ordered(
    detail: SongDetail,
    categoryOrder: int,
    categoryPosition: int,
    songPosition: int,
    songOrder: int)

  /** `toSongDetail(song, category)`. */
  function ToSongDetail(song: SongSummary, category: Category): (d: SongDetail)
    ensures d.id == song.id && d.title == song.title
    ensures d.author == song.author && d.melody == song.melody && d.content == song.content
    ensures d.categoryId == category.id && d.categoryName == category.name
    ensures d.pageNumber == song.pageNumber && d.negativePageNumber == song.negativePageNumber
  {
    SongDetail(song.id, song.title, song.author, song.melody, song.content, category.id, category.name,
               song.pageNumber, song.negativePageNumber)
  }

  // ---------------------------------------------------------------------------
  // Collecting

  /** The record pushed for song `j` of category `i`. */
  function Entry(cs: seq<Category>, i: nat, j: nat): (e: OrderedSongDetail)
    requires i < |cs| && j < |cs[i].songs|
    ensures e.detail == ToSongDetail(cs[i].songs[j], cs[i])
    ensures e.categoryPosition == i && e.songPosition == j
    ensures e.categoryOrder == OrderKey(cs[i].order) && e.songOrder == OrderKey(cs[i].songs[j].order)
  {
    Ordered(ToSongDetail(cs[i].songs[j], cs[i]), OrderKey(cs[i].order), i, j, OrderKey(cs[i].songs[j].order))
  }

  /** The records of category `i`, in song order. */
  function CategoryEntries(cs: seq<Category>, i: nat): (es: seq<OrderedSongDetail>)
    requires i < |cs|
    ensures |es| == |cs[i].songs|
    ensures forall j :: 0 <= j < |es| ==> es[j] == Entry(cs, i, j)
  {
    seq(|cs[i].songs|, j requires 0 <= j < |cs[i].songs| => Entry(cs, i, j))
  }

  /** The records of the first `n` categories, in the order they are pushed. */
  function CollectUpTo(cs: seq<Category>, n: nat): seq<OrderedSongDetail>
    requires n <= |cs|
  {
    if n == 0 then [] else CollectUpTo(cs, n - 1) + CategoryEntries(cs, n - 1)
  }

  /** The `ordered` array before the sort. */
  function Collected(cs: seq<Category>): seq<OrderedSongDetail> {
    CollectUpTo(cs, |cs|)
  }

  /** The number of songs in the first `n` categories. */
  function Offset(cs: seq<Category>, n: nat): nat
    requires n <= |cs|
  {
    if n == 0 then 0 else Offset(cs, n - 1) + |cs[n - 1].songs|
  }

  /** The songs of category `i` come after those of the categories before it. */
  lemma {:induction false} OffsetBound(cs: seq<Category>, i: nat, n: nat)
    requires i < n <= |cs|
    ensures Offset(cs, i) + |cs[i].songs| <= Offset(cs, n)
  {
    if i < n - 1 {
      OffsetBound(cs, i, n - 1);
    }
  }

  /** Song `j` of category `i` is record `Offset(cs, i) + j` of the first `n` categories. */
  ghost predicate PushedAt(cs: seq<Category>, n: nat, i: nat, j: nat)
    requires i < n <= |cs| && j < |cs[i].songs|
  {
    Offset(cs, i) + j < |CollectUpTo(cs, n)| && CollectUpTo(cs, n)[Offset(cs, i) + j] == Entry(cs, i, j)
  }

  /** Song `j` of category `i` is pushed as the record at `Offset(cs, i) + j`,
      so there is exactly one record for every song. */
  lemma {:induction false} CollectUpToIndex(cs: seq<Category>, n: nat)
    requires n <= |cs|
    ensures |CollectUpTo(cs, n)| == Offset(cs, n)
    ensures forall i: nat, j: nat :: i < n && j < |cs[i].songs| ==> PushedAt(cs, n, i, j)
  {
    if n > 0 {
      CollectUpToIndex(cs, n - 1);
      var prev, last := CollectUpTo(cs, n - 1), CategoryEntries(cs, n - 1);
      assert CollectUpTo(cs, n) == prev + last;
      forall i: nat, j: nat | i < n && j < |cs[i].songs| ensures PushedAt(cs, n, i, j) {
        OffsetBound(cs, i, n);
        if i < n - 1 {
          assert PushedAt(cs, n - 1, i, j);
          assert (prev + last)[Offset(cs, i) + j] == prev[Offset(cs, i) + j];
        } else {
          assert (prev + last)[Offset(cs, i) + j] == last[j];
        }
      }
    }
  }

  /** Every record is the record of one song. */
  lemma {:induction false} CollectUpToMembers(cs: seq<Category>, n: nat, k: int)
    requires n <= |cs| && 0 <= k < |CollectUpTo(cs, n)|
    ensures exists i: nat, j: nat :: i < n && j < |cs[i].songs| && CollectUpTo(cs, n)[k] == Entry(cs, i, j)
    ensures IsRecordOfSomeSong(cs, CollectUpTo(cs, n)[k])
  {
    var prev := CollectUpTo(cs, n - 1);
    if k < |prev| {
      CollectUpToMembers(cs, n - 1, k);
      var i: nat, j: nat :| i < n - 1 && j < |cs[i].songs| && prev[k] == Entry(cs, i, j);
      assert CollectUpTo(cs, n)[k] == prev[k];
    } else {
      assert CollectUpTo(cs, n)[k] == CategoryEntries(cs, n - 1)[k - |prev|];
    }
  }

  /** The collected records are exactly one per song, each carrying its song,
      its category's id and name, and its two positions. */
  lemma CollectedIsOnePerSong(cs: seq<Category>)
    ensures |Collected(cs)| == Offset(cs, |cs|)
    ensures forall i: nat, j: nat :: i < |cs| && j < |cs[i].songs| ==> PushedAt(cs, |cs|, i, j)
    ensures forall k :: 0 <= k < |Collected(cs)| ==> IsRecordOfSomeSong(cs, Collected(cs)[k])
  {
    CollectUpToIndex(cs, |cs|);
    forall k | 0 <= k < |Collected(cs)| ensures IsRecordOfSomeSong(cs, Collected(cs)[k]) {
      CollectUpToMembers(cs, |cs|, k);
    }
  }

  /** `x` is the record of some song of `cs`. */
  ghost predicate IsRecordOfSomeSong(cs: seq<Category>, x: OrderedSongDetail) {
    exists i: nat, j: nat :: i < |cs| && j < |cs[i].songs| && x == Entry(cs, i, j)
  }

  // ---------------------------------------------------------------------------
  // Sorting

  /** `ordered.some((song) => song.page_number !== null)`. */
  function UsePageOrder(ordered: seq<OrderedSongDetail>): (b: bool)
    ensures b <==> exists k :: 0 <= k < |ordered| && ordered[k].detail.pageNumber.Some?
  {
    if ordered == [] then false
    else if ordered[0].detail.pageNumber.Some? then true
    else
      assert forall k :: 1 <= k < |ordered| ==> ordered[k] == ordered[1..][k - 1];
      UsePageOrder(ordered[1..])
  }

  /** The keys after the page number: category order, category position,
      song order, song position. */
  function PlainKeys(x: OrderedSongDetail): seq<int> {
    [x.categoryOrder, x.categoryPosition, x.songOrder, x.songPosition]
  }

  /** The page number (missing sorts last) before the other keys. */
  function PageKeys(x: OrderedSongDetail): seq<int> {
    [OrderKey(x.detail.pageNumber)] + PlainKeys(x)
  }

  function DetailTitle(x: OrderedSongDetail): string { x.detail.title }

  /** The comparator of `buildOrderedSongDetails`; the title by
      `localeCompare` is the last resort. */
  function DetailComparator(collator: Collator, usePageOrder: bool): Comparator<OrderedSongDetail> {
    if usePageOrder then ByKeys(collator, PageKeys, DetailTitle) else ByKeys(collator, PlainKeys, DetailTitle)
  }

  /** The spelled-out meaning of `DetailComparator`. */
  lemma DetailComparatorApply(collator: Collator, usePageOrder: bool, a: OrderedSongDetail, b: OrderedSongDetail)
    ensures DetailComparator(collator, usePageOrder)(a, b) ==
      KeyCompare(collator, if usePageOrder then PageKeys(a) else PlainKeys(a),
                 if usePageOrder then PageKeys(b) else PlainKeys(b), a.detail.title, b.detail.title)
  {
    if usePageOrder {
      assert DetailComparator(collator, usePageOrder) == ByKeys(collator, PageKeys, DetailTitle);
      assert ByKeys(collator, PageKeys, DetailTitle)(a, b)
          == KeyCompare(collator, PageKeys(a), PageKeys(b), DetailTitle(a), DetailTitle(b));
    } else {
      assert DetailComparator(collator, usePageOrder) == ByKeys(collator, PlainKeys, DetailTitle);
      assert ByKeys(collator, PlainKeys, DetailTitle)(a, b)
          == KeyCompare(collator, PlainKeys(a), PlainKeys(b), DetailTitle(a), DetailTitle(b));
    }
  }

  lemma DetailComparatorConsistent(collator: Collator, usePageOrder: bool)
    requires Consistent(collator)
    ensures Consistent(DetailComparator(collator, usePageOrder))
  {
    if usePageOrder {
      ByKeysConsistent(collator, PageKeys, DetailTitle, 5);
    } else {
      ByKeysConsistent(collator, PlainKeys, DetailTitle, 4);
    }
  }

  /** The navigation order: the collected records sorted by `DetailComparator`. */
  function NavigationOrder(cs: seq<Category>, collator: Collator): seq<OrderedSongDetail> {
    var collected := Collected(cs);
    Sort(collected, DetailComparator(collator, UsePageOrder(collected)))
  }

  /** `buildOrderedSongDetails(categories)`: nested loops push one record per
      song, and the array is then sorted. */
  method BuildOrderedSongDetails(categories: Option<seq<Category>>, collator: Collator)
    returns (ordered: seq<OrderedSongDetail>)
    ensures categories.None? ==> ordered == []
    ensures categories.Some? ==> ordered == NavigationOrder(categories.value, collator)
  {
    if categories.None? {
      return [];
    }
    var cs := categories.value;
    ordered := [];
    var i := 0;
    while i < |cs|
      invariant 0 <= i <= |cs|
      invariant ordered == CollectUpTo(cs, i)
    {
      var categoryOrder := OrderKey(cs[i].order);
      var j := 0;
      while j < |cs[i].songs|
        invariant 0 <= j <= |cs[i].songs|
        invariant ordered == CollectUpTo(cs, i) + CategoryEntries(cs, i)[..j]
      {
        var song := cs[i].songs[j];
        ordered := ordered + [Ordered(ToSongDetail(song, cs[i]), categoryOrder, i, j, OrderKey(song.order))];
        assert CategoryEntries(cs, i)[..j + 1] == CategoryEntries(cs, i)[..j] + [Entry(cs, i, j)];
        j := j + 1;
      }
      assert CategoryEntries(cs, i)[..j] == CategoryEntries(cs, i);
      i := i + 1;
    }
    var usePageOrder := UsePageOrder(ordered);
    ordered := Sort(ordered, DetailComparator(collator, usePageOrder));
  }

  /** The navigation order is a permutation of the collected records and is
      sorted by the comparator. */
  lemma NavigationOrderSorted(cs: seq<Category>, collator: Collator)
    requires Consistent(collator)
    ensures multiset(NavigationOrder(cs, collator)) == multiset(Collected(cs))
    ensures Sorted(NavigationOrder(cs, collator), DetailComparator(collator, UsePageOrder(Collected(cs))))
  {
    DetailComparatorConsistent(collator, UsePageOrder(Collected(cs)));
    SortPermutes(Collected(cs), DetailComparator(collator, UsePageOrder(Collected(cs))));
    SortSorted(Collected(cs), DetailComparator(collator, UsePageOrder(Collected(cs))));
  }

  lemma KeyCompareFirstKey(collator: Collator, ka: seq<int>, kb: seq<int>, ta: string, tb: string)
    requires ka != [] && kb != []
    requires KeyCompare(collator, ka, kb, ta, tb) <= 0
    ensures ka[0] <= kb[0]
  {
  }

  /** When some song has a page number, pages ascend through the navigation
      order (a missing page counting as `MAX_SAFE_INTEGER`); otherwise
      category orders ascend. */
  lemma NavigationOrderPrimaryKey(cs: seq<Category>, collator: Collator, i: int, j: int)
    requires Consistent(collator)
    requires 0 <= i < j < |NavigationOrder(cs, collator)|
    ensures var r := NavigationOrder(cs, collator);
      if UsePageOrder(Collected(cs)) then OrderKey(r[i].detail.pageNumber) <= OrderKey(r[j].detail.pageNumber)
      else r[i].categoryOrder <= r[j].categoryOrder
  {
    var r := NavigationOrder(cs, collator);
    var usePage := UsePageOrder(Collected(cs));
    NavigationOrderSorted(cs, collator);
    assert DetailComparator(collator, usePage)(r[i], r[j]) <= 0;
    DetailComparatorApply(collator, usePage, r[i], r[j]);
    if usePage {
      KeyCompareFirstKey(collator, PageKeys(r[i]), PageKeys(r[j]), r[i].detail.title, r[j].detail.title);
    } else {
      KeyCompareFirstKey(collator, PlainKeys(r[i]), PlainKeys(r[j]), r[i].detail.title, r[j].detail.title);
    }
  }

  /** Two records of one category list compare equal only when they are the
      same record: `(categoryPosition, songPosition)` identifies a record, so
      the comparator is a strict total order on them and the sort's result
      does not depend on its stability. */
  lemma ComparatorSeparatesEntries(cs: seq<Category>, collator: Collator, usePageOrder: bool,
                                   i1: nat, j1: nat, i2: nat, j2: nat)
    requires i1 < |cs| && j1 < |cs[i1].songs| && i2 < |cs| && j2 < |cs[i2].songs|
    requires DetailComparator(collator, usePageOrder)(Entry(cs, i1, j1), Entry(cs, i2, j2)) == 0
    ensures i1 == i2 && j1 == j2
  {
    var a, b := Entry(cs, i1, j1), Entry(cs, i2, j2);
    DetailComparatorApply(collator, usePageOrder, a, b);
    if usePageOrder {
      KeyCompareZero(collator, PageKeys(a), PageKeys(b), a.detail.title, b.detail.title);
      assert PageKeys(a)[2] == PageKeys(b)[2] && PageKeys(a)[4] == PageKeys(b)[4];
    } else {
      KeyCompareZero(collator, PlainKeys(a), PlainKeys(b), a.detail.title, b.detail.title);
      assert PlainKeys(a)[1] == PlainKeys(b)[1] && PlainKeys(a)[3] == PlainKeys(b)[3];
    }
  }

  // ---------------------------------------------------------------------------
  // The window and the neighbours

  /** Radius of the window kept around the current song (`WINDOW_RADIUS`). */
  const WindowRadius: int := 2

  datatype SongWindow = SongWindow(songs: seq<OrderedSongDetail>, startIndex: int)

  function Max(a: int, b: int): int { if a >= b then a else b }
  function Min(a: int, b: int): int { if a <= b then a else b }

  /** `getSongWindow(ordered, centerIndex, radius)`. */
  function GetSongWindow(ordered: seq<OrderedSongDetail>, centerIndex: int, radius: int): (w: SongWindow)
    ensures w.startIndex == Max(centerIndex - radius, 0)
    ensures 0 <= centerIndex < |ordered| && 0 <= radius ==>
      && w.songs == ordered[w.startIndex..Min(centerIndex + radius + 1, |ordered|)]
      && |w.songs| <= 2 * radius + 1
      && 0 <= centerIndex - w.startIndex < |w.songs| && w.songs[centerIndex - w.startIndex] == ordered[centerIndex]
  {
    var start := Max(centerIndex - radius, 0);
    var end := Min(centerIndex + radius + 1, |ordered|);
    SongWindow(JsSlice(ordered, start, end), start)
  }

  /** `ordered.findIndex((item) => item.id === songId)`. */
  function FindIndex(ordered: seq<OrderedSongDetail>, songId: int): (k: int)
    ensures -1 <= k < |ordered|
    ensures k == -1 <==> forall m :: 0 <= m < |ordered| ==> ordered[m].detail.id != songId
    ensures k >= 0 ==> ordered[k].detail.id == songId && forall m :: 0 <= m < k ==> ordered[m].detail.id != songId
  {
    if ordered == [] then -1
    else if ordered[0].detail.id == songId then 0
    else
      var k := FindIndex(ordered[1..], songId);
      assert forall m :: 1 <= m < |ordered| ==> ordered[m] == ordered[1..][m - 1];
      if k == -1 then -1 else k + 1
  }

  /** What the page shows around the song at `centerIndex`. */
  datatype Selection = Selection(
    song: SongDetail,
    prev: Option<SongDetail>,
    next: Option<SongDetail>,
    prevBuffer: Option<SongDetail>,
    nextBuffer: Option<SongDetail>)

  function Detail(x: Option<OrderedSongDetail>): Option<SongDetail> {
    if x.Some? then Some(x.value.detail) else None
  }

  /** The found branch of `updateFromCategories`: the neighbours are
      `ordered[c ± 1] ?? null`, and the buffers are `ordered[c ± 2]`, falling
      back to the ends of the window of radius 2. */
  function Select(ordered: seq<OrderedSongDetail>, centerIndex: int): (s: Selection)
    requires 0 <= centerIndex < |ordered|
    ensures s.song == ordered[centerIndex].detail
    ensures s.prev == if centerIndex == 0 then None else Some(ordered[centerIndex - 1].detail)
    ensures s.next == if centerIndex == |ordered| - 1 then None else Some(ordered[centerIndex + 1].detail)
    ensures s.prevBuffer == Some(ordered[Max(centerIndex - 2, 0)].detail)
    ensures s.nextBuffer == Some(ordered[Min(centerIndex + 2, |ordered| - 1)].detail)
  {
    var window := GetSongWindow(ordered, centerIndex, WindowRadius);
    var ws := window.songs;
    Selection(
      ordered[centerIndex].detail,
      Detail(At(ordered, centerIndex - 1)),
      Detail(At(ordered, centerIndex + 1)),
      Detail(OrElse(At(ordered, centerIndex - 2), At(ws, 0))),
      Detail(OrElse(At(ordered, centerIndex + 2), At(ws, |ws| - 1))))
  }

  /** The song page's navigation state, as `updateFromCategories` sets it. */
  class SongPage {
    var song: Option<SongDetail>
    var error: Option<string>
    var nextSong: Option<SongDetail>
    var prevSong: Option<SongDetail>
    var prevSongBuffer: Option<SongDetail>
    var nextSongBuffer: Option<SongDetail>

    constructor ()
      ensures song.None? && error.None? && nextSong.None? && prevSong.None?
      ensures prevSongBuffer.None? && nextSongBuffer.None?
    {
      song, error, nextSong, prevSong, prevSongBuffer, nextSongBuffer := None, None, None, None, None, None;
    }

    /** The page shows `s`, with no error. */
    predicate Shows(s: Selection)
      reads this
    {
      && song == Some(s.song) && error.None? && nextSong == s.next && prevSong == s.prev
      && prevSongBuffer == s.prevBuffer && nextSongBuffer == s.nextBuffer
    }

    /** The page shows the error "No song found." and nothing else. */
    predicate ShowsNotFound()
      reads this
    {
      && song.None? && error == Some("No song found.") && nextSong.None? && prevSong.None?
      && prevSongBuffer.None? && nextSongBuffer.None?
    }

    /** `updateFromCategories(categoriesData, finalAttempt)` for the route's
        `songId`; the result says whether the song was found. */
    method UpdateFromCategories(categoriesData: Option<seq<Category>>, finalAttempt: bool, songId: int,
                                collator: Collator)
      returns (found: bool)
      modifies this
      ensures categoriesData.None? ==> !found
      ensures categoriesData.Some? ==>
        found == (FindIndex(NavigationOrder(categoriesData.value, collator), songId) != -1)
      ensures found ==>
        && categoriesData.Some?
        && var ordered := NavigationOrder(categoriesData.value, collator);
           Shows(Select(ordered, FindIndex(ordered, songId)))
      ensures !found && finalAttempt && categoriesData.Some? ==> ShowsNotFound()
      ensures !found && (!finalAttempt || categoriesData.None?) ==> unchanged(this)
    {
      if categoriesData.None? {
        return false;
      }
      var ordered := BuildOrderedSongDetails(categoriesData, collator);
      var centerIndex := FindIndex(ordered, songId);
      if centerIndex != -1 {
        Show(Select(ordered, centerIndex));
        return true;
      }
      if finalAttempt {
        ShowNotFound();
      }
      return false;
    }

    /** `setSong(centerSong)`, `setError(null)` and the neighbour and buffer setters. */
    method Show(s: Selection)
      modifies this
      ensures Shows(s)
    {
      song, error := Some(s.song), None;
      nextSong, prevSong := s.next, s.prev;
      prevSongBuffer, nextSongBuffer := s.prevBuffer, s.nextBuffer;
    }

    /** The setters of the final attempt that did not find the song. */
    method ShowNotFound()
      modifies this
      ensures ShowsNotFound()
    {
      song, error, nextSong, prevSong := None, Some("No song found."), None, None;
      prevSongBuffer, nextSongBuffer := None, None;
    }
  }
}
