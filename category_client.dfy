/** The category repository of `frontend/src/services/categoryClient.ts`:
    canonical sorting of categories and their songs, the cached read at a
    12-hour expiry, the step after a fetch response, cache invalidation and
    the flattening of categories into songs annotated with their category. */
module CategoryClient {
  import opened Common
  import opened StableSort
  import opened Lexicographic
  import opened Cache

  /** `CATEGORY_CACHE_TTL_MS`: 12 hours in milliseconds. */
  const CategoryCacheTtlMs: int := 12 * 60 * 60 * 1000

  datatype SongSummary = SongSummary(
    id: int,
    title: string,
    author: Option<string>,
    melody: Option<string>,
    order: Option<int>,
    pageNumber: Option<int>,
    negativePageNumber: Option<int>,
    content: Option<string>,
    category: int)

  datatype Category = Category(id: int, name: string, order: Option<int>, songs: seq<SongSummary>)

  /** A song with the id and name of the category that holds it. */
  datatype SongWithCategory = SongWithCategory(song: SongSummary, categoryName: string)

  // ---------------------------------------------------------------------------
  // Canonical sort

  function SongKey(s: SongSummary): seq<int> { [OrderKey(s.order)] }
  function SongTitle(s: SongSummary): string { s.title }
  function CategoryKey(c: Category): seq<int> { [OrderKey(c.order)] }
  function CategoryName(c: Category): string { c.name }

  /** The comparator of `sortSongs`: `order ?? MAX_SAFE_INTEGER`, then the
      title by `localeCompare`. */
  function SongComparator(collator: Collator): Comparator<SongSummary> {
    ByKeys(collator, SongKey, SongTitle)
  }

  /** The comparator of `sortCategories`: `order ?? MAX_SAFE_INTEGER`, then the
      name by `localeCompare`. */
  function CategoryComparator(collator: Collator): Comparator<Category> {
    ByKeys(collator, CategoryKey, CategoryName)
  }

  /** "a comes no later than b" in the canonical order, spelled out on the fields. */
  ghost predicate SongPrecedes(collator: Collator, a: SongSummary, b: SongSummary) {
    || OrderKey(a.order) < OrderKey(b.order)
    || (OrderKey(a.order) == OrderKey(b.order) && collator(a.title, b.title) <= 0)
  }

  ghost predicate CategoryPrecedes(collator: Collator, a: Category, b: Category) {
    || OrderKey(a.order) < OrderKey(b.order)
    || (OrderKey(a.order) == OrderKey(b.order) && collator(a.name, b.name) <= 0)
  }

  /** `sortSongs(songs)`: a sorted copy; the input is a value and stays as it is. */
  function SortSongs(songs: seq<SongSummary>, collator: Collator): seq<SongSummary> {
    Sort(songs, SongComparator(collator))
  }

  /** The category with its songs put in canonical order (`{...category, songs: sortSongs(category.songs ?? [])}`). */
  function WithSortedSongs(c: Category, collator: Collator): (r: Category)
    ensures r.id == c.id && r.name == c.name && r.order == c.order
  {
    c.(songs := SortSongs(c.songs, collator))
  }

  function MapWithSortedSongs(cs: seq<Category>, collator: Collator): (r: seq<Category>)
    ensures |r| == |cs|
    ensures forall i :: 0 <= i < |cs| ==> r[i] == WithSortedSongs(cs[i], collator)
  {
    seq(|cs|, i requires 0 <= i < |cs| => WithSortedSongs(cs[i], collator))
  }

  /** `sortCategories(categories)`. */
  function SortCategories(cs: seq<Category>, collator: Collator): seq<Category> {
    Sort(MapWithSortedSongs(cs, collator), CategoryComparator(collator))
  }

  lemma SongComparatorConsistent(collator: Collator)
    requires Consistent(collator)
    ensures Consistent(SongComparator(collator))
  {
    ByKeysConsistent(collator, SongKey, SongTitle, 1);
  }

  lemma CategoryComparatorConsistent(collator: Collator)
    requires Consistent(collator)
    ensures Consistent(CategoryComparator(collator))
  {
    ByKeysConsistent(collator, CategoryKey, CategoryName, 1);
  }

  /** `sortSongs` returns a permutation of its input, ordered by
      `order ?? MAX_SAFE_INTEGER` and then by title. */
  lemma SortSongsCorrect(songs: seq<SongSummary>, collator: Collator)
    requires Consistent(collator)
    ensures multiset(SortSongs(songs, collator)) == multiset(songs)
    ensures forall i, j :: 0 <= i < j < |songs| ==>
      SongPrecedes(collator, SortSongs(songs, collator)[i], SortSongs(songs, collator)[j])
  {
    var r := SortSongs(songs, collator);
    SortPermutes(songs, SongComparator(collator));
    SongComparatorConsistent(collator);
    SortSorted(songs, SongComparator(collator));
    forall i, j | 0 <= i < j < |songs| ensures SongPrecedes(collator, r[i], r[j]) {
      assert SongComparator(collator)(r[i], r[j]) <= 0;
      assert SongComparator(collator) == ByKeys(collator, SongKey, SongTitle);
      assert ByKeys(collator, SongKey, SongTitle)(r[i], r[j])
          == KeyCompare(collator, SongKey(r[i]), SongKey(r[j]), SongTitle(r[i]), SongTitle(r[j]));
      assert SongComparator(collator)(r[i], r[j])
          == KeyCompare(collator, [OrderKey(r[i].order)], [OrderKey(r[j].order)], r[i].title, r[j].title);
      KeyCompareSingle(collator, OrderKey(r[i].order), OrderKey(r[j].order), r[i].title, r[j].title);
    }
  }

  /** `sortCategories` returns a permutation of the categories, each with its
      songs sorted, ordered by `order ?? MAX_SAFE_INTEGER` and then by name.
      Every output category is an input category with the same id, name and
      order and the same multiset of songs: no song changes category. */
  lemma SortCategoriesCorrect(cs: seq<Category>, collator: Collator)
    requires Consistent(collator)
    ensures multiset(SortCategories(cs, collator)) == multiset(MapWithSortedSongs(cs, collator))
    ensures |SortCategories(cs, collator)| == |cs|
    ensures forall i, j :: 0 <= i < j < |cs| ==>
      CategoryPrecedes(collator, SortCategories(cs, collator)[i], SortCategories(cs, collator)[j])
    ensures forall c :: c in SortCategories(cs, collator) ==>
      exists c0 :: c0 in cs && c == WithSortedSongs(c0, collator)
                 && c.id == c0.id && c.name == c0.name && c.order == c0.order
                 && multiset(c.songs) == multiset(c0.songs)
  {
    var m := MapWithSortedSongs(cs, collator);
    var r := SortCategories(cs, collator);
    SortPermutes(m, CategoryComparator(collator));
    CategoryComparatorConsistent(collator);
    SortSorted(m, CategoryComparator(collator));
    forall i, j | 0 <= i < j < |cs| ensures CategoryPrecedes(collator, r[i], r[j]) {
      assert CategoryComparator(collator)(r[i], r[j]) <= 0;
      assert CategoryComparator(collator) == ByKeys(collator, CategoryKey, CategoryName);
      assert ByKeys(collator, CategoryKey, CategoryName)(r[i], r[j])
          == KeyCompare(collator, CategoryKey(r[i]), CategoryKey(r[j]), CategoryName(r[i]), CategoryName(r[j]));
      assert CategoryComparator(collator)(r[i], r[j])
          == KeyCompare(collator, [OrderKey(r[i].order)], [OrderKey(r[j].order)], r[i].name, r[j].name);
      KeyCompareSingle(collator, OrderKey(r[i].order), OrderKey(r[j].order), r[i].name, r[j].name);
    }
    forall c | c in r
      ensures exists c0 :: c0 in cs && c == WithSortedSongs(c0, collator)
                 && c.id == c0.id && c.name == c0.name && c.order == c0.order
                 && multiset(c.songs) == multiset(c0.songs)
    {
      assert c in multiset(m);
      var k :| 0 <= k < |m| && m[k] == c;
      SortSongsCorrect(cs[k].songs, collator);
      assert cs[k] in cs;
    }
  }

  /** Sorting already sorted categories changes nothing: the cached copy that
      `fetchCategories` wrote is already in canonical order when
      `getCachedCategories` sorts it again. */
  lemma SortCategoriesIdempotent(cs: seq<Category>, collator: Collator)
    requires Consistent(collator)
    ensures SortCategories(SortCategories(cs, collator), collator) == SortCategories(cs, collator)
  {
    var r := SortCategories(cs, collator);
    SortCategoriesCorrect(cs, collator);
    forall i | 0 <= i < |r| ensures WithSortedSongs(r[i], collator) == r[i] {
      assert r[i] in r;
      var c0 :| c0 in cs && r[i] == WithSortedSongs(c0, collator);
      SongComparatorConsistent(collator);
      SortIdempotent(c0.songs, SongComparator(collator));
    }
    assert MapWithSortedSongs(r, collator) == r;
    CategoryComparatorConsistent(collator);
    SortIdempotent(MapWithSortedSongs(cs, collator), CategoryComparator(collator));
  }

  /** A missing order sorts after every explicit order below the sentinel. */
  lemma SongsNullOrderLast(songs: seq<SongSummary>, collator: Collator, i: int, j: int)
    requires Consistent(collator)
    requires 0 <= i < j < |songs|
    requires SortSongs(songs, collator)[i].order.None?
    ensures !(SortSongs(songs, collator)[j].order.Some? && SortSongs(songs, collator)[j].order.value < MaxSafeInteger)
  {
    SortSongsCorrect(songs, collator);
    assert SongPrecedes(collator, SortSongs(songs, collator)[i], SortSongs(songs, collator)[j]);
  }

  lemma CategoriesNullOrderLast(cs: seq<Category>, collator: Collator, i: int, j: int)
    requires Consistent(collator)
    requires 0 <= i < j < |cs|
    requires SortCategories(cs, collator)[i].order.None?
    ensures !(SortCategories(cs, collator)[j].order.Some? && SortCategories(cs, collator)[j].order.value < MaxSafeInteger)
  {
    SortCategoriesCorrect(cs, collator);
    assert CategoryPrecedes(collator, SortCategories(cs, collator)[i], SortCategories(cs, collator)[j]);
  }

  function FixtureSong(id: int, title: string, order: Option<int>, page: Option<int>, category: int): SongSummary {
    SongSummary(id, title, None, None, order, page, if page.Some? then Some(-page.value) else None, None, category)
  }

  function FixtureZeta(): Category {
    Category(2, "Zeta", Some(2), [FixtureSong(20, "Beta Song", Some(3), Some(120), 2),
                                  FixtureSong(21, "Alpha Song", Some(1), Some(115), 2)])
  }

  function FixtureGamma(): Category {
    Category(3, "Gamma", None, [FixtureSong(30, "Gamma Song", None, None, 3)])
  }

  function FixtureAlpha(): Category {
    Category(1, "Alpha", Some(2), [FixtureSong(10, "Delta Song", None, None, 1),
                                   FixtureSong(11, "Alpha Song", Some(2), Some(45), 1)])
  }

  function FixtureOmega(): Category {
    Category(4, "Omega", Some(5), [FixtureSong(40, "Omega Song", Some(1), Some(5), 4)])
  }

  /** The unsorted categories of the category client's unit test. */
  function Fixture(): seq<Category> {
    [FixtureZeta(), FixtureGamma(), FixtureAlpha(), FixtureOmega()]
  }

  /** The sign of the song comparator, spelled out on the fields. */
  lemma SongComparatorSign(collator: Collator, a: SongSummary, b: SongSummary)
    ensures SongComparator(collator)(a, b) < 0 <==>
      OrderKey(a.order) < OrderKey(b.order) || (OrderKey(a.order) == OrderKey(b.order) && collator(a.title, b.title) < 0)
  {
    assert SongComparator(collator) == ByKeys(collator, SongKey, SongTitle);
    assert SongComparator(collator)(a, b) == KeyCompare(collator, SongKey(a), SongKey(b), SongTitle(a), SongTitle(b));
    assert KeyCompare(collator, [OrderKey(a.order)], [OrderKey(b.order)], a.title, b.title)
        == if OrderKey(a.order) != OrderKey(b.order) then OrderKey(a.order) - OrderKey(b.order)
           else KeyCompare(collator, [], [], a.title, b.title);
  }

  lemma CategoryComparatorSign(collator: Collator, a: Category, b: Category)
    ensures CategoryComparator(collator)(a, b) < 0 <==>
      OrderKey(a.order) < OrderKey(b.order) || (OrderKey(a.order) == OrderKey(b.order) && collator(a.name, b.name) < 0)
  {
    assert CategoryComparator(collator) == ByKeys(collator, CategoryKey, CategoryName);
    assert CategoryComparator(collator)(a, b)
        == KeyCompare(collator, CategoryKey(a), CategoryKey(b), CategoryName(a), CategoryName(b));
    assert KeyCompare(collator, [OrderKey(a.order)], [OrderKey(b.order)], a.name, b.name)
        == if OrderKey(a.order) != OrderKey(b.order) then OrderKey(a.order) - OrderKey(b.order)
           else KeyCompare(collator, [], [], a.name, b.name);
  }

  /** Two songs whose second one strictly precedes the first swap places. */
  lemma TwoSongsSwap(collator: Collator, x: SongSummary, y: SongSummary)
    requires SongComparator(collator)(y, x) < 0
    ensures SortSongs([x, y], collator) == [y, x]
  {
    var cmp := SongComparator(collator);
    SortSnoc([], x, cmp);
    assert [] + [x] == [x];
    SortSnoc([x], y, cmp);
    assert [x] + [y] == [x, y];
    InsertFront(y, [x], cmp);
  }

  /** The first three insertions of the category step of the unit test. */
  lemma SortThreeCategories(cmp: Comparator<Category>, z: Category, g: Category, a: Category)
    requires cmp(g, z) >= 0 && cmp(a, z) < 0
    ensures Sort([z, g, a], cmp) == [a, z, g]
  {
    SortSnoc([], z, cmp);
    assert [] + [z] == [z];
    SortSnoc([z], g, cmp);
    assert [z] + [g] == [z, g];
    InsertPast(g, [z], cmp);
    SortSnoc([z, g], a, cmp);
    assert [z, g] + [a] == [z, g, a];
    InsertFront(a, [z, g], cmp);
  }

  /** The last insertion of the category step: `o` goes past `a` and `z` and
      stops in front of `g`. */
  lemma InsertFourthCategory(cmp: Comparator<Category>, o: Category, a: Category, z: Category, g: Category)
    requires cmp(o, a) >= 0 && cmp(o, z) >= 0 && cmp(o, g) < 0
    ensures Insert(o, [a, z, g], cmp) == [a, z, o, g]
  {
    InsertFront(o, [g], cmp);
    assert [z, g][1..] == [g];
    InsertPast(o, [z, g], cmp);
    assert [a, z, g][1..] == [z, g];
    InsertPast(o, [a, z, g], cmp);
  }

  /** The four insertions of the category step, given the comparisons they make. */
  lemma SortFourCategories(cmp: Comparator<Category>, z: Category, g: Category, a: Category, o: Category)
    requires cmp(g, z) >= 0 && cmp(a, z) < 0
    requires cmp(o, a) >= 0 && cmp(o, z) >= 0 && cmp(o, g) < 0
    ensures Sort([z, g, a, o], cmp) == [a, z, o, g]
  {
    assert [z, g, a, o] == [z, g, a] + [o];
    calc {
      Sort([z, g, a, o], cmp);
      { SortSnoc([z, g, a], o, cmp); }
      Insert(o, Sort([z, g, a], cmp), cmp);
      { SortThreeCategories(cmp, z, g, a); }
      Insert(o, [a, z, g], cmp);
      { InsertFourthCategory(cmp, o, a, z, g); }
      [a, z, o, g];
    }
  }

  /** The category step of the unit-test scenario, on any four categories with
      the test's orders and names. */
  lemma FixtureCategoryOrder(collator: Collator, zeta: Category, gamma: Category, alpha: Category, omega: Category)
    requires collator("Alpha", "Zeta") < 0
    requires zeta.order == Some(2) && zeta.name == "Zeta"
    requires gamma.order == None && gamma.name == "Gamma"
    requires alpha.order == Some(2) && alpha.name == "Alpha"
    requires omega.order == Some(5) && omega.name == "Omega"
    ensures Sort([zeta, gamma, alpha, omega], CategoryComparator(collator)) == [alpha, zeta, omega, gamma]
  {
    var cmp := CategoryComparator(collator);
    assert cmp(gamma, zeta) >= 0 by { CategoryComparatorSign(collator, gamma, zeta); }
    assert cmp(alpha, zeta) < 0 by { CategoryComparatorSign(collator, alpha, zeta); }
    assert cmp(omega, alpha) >= 0 by { CategoryComparatorSign(collator, omega, alpha); }
    assert cmp(omega, zeta) >= 0 by { CategoryComparatorSign(collator, omega, zeta); }
    assert cmp(omega, gamma) < 0 by { CategoryComparatorSign(collator, omega, gamma); }
    SortFourCategories(cmp, zeta, gamma, alpha, omega);
  }

  /** The unit-test scenario: with "Alpha" before "Zeta" in the locale, the
      categories come out as Alpha, Zeta, Omega, Gamma (Gamma has no order),
      and the explicit song orders put "Alpha Song" first in both Alpha and
      Zeta. */
  lemma FixtureSortsAsTestExpects(collator: Collator)
    requires collator("Alpha", "Zeta") < 0
    ensures var r := SortCategories(Fixture(), collator);
      && |r| == 4
      && [r[0].name, r[1].name, r[2].name, r[3].name] == ["Alpha", "Zeta", "Omega", "Gamma"]
      && |r[0].songs| == 2 && [r[0].songs[0].title, r[0].songs[1].title] == ["Alpha Song", "Delta Song"]
      && |r[1].songs| == 2 && [r[1].songs[0].title, r[1].songs[1].title] == ["Alpha Song", "Beta Song"]
  {
    var zeta, gamma, alpha, omega := FixtureZeta(), FixtureGamma(), FixtureAlpha(), FixtureOmega();
    assert SortSongs(zeta.songs, collator) == [zeta.songs[1], zeta.songs[0]] by {
      SongComparatorSign(collator, zeta.songs[1], zeta.songs[0]);
      TwoSongsSwap(collator, zeta.songs[0], zeta.songs[1]);
    }
    assert SortSongs(alpha.songs, collator) == [alpha.songs[1], alpha.songs[0]] by {
      SongComparatorSign(collator, alpha.songs[1], alpha.songs[0]);
      TwoSongsSwap(collator, alpha.songs[0], alpha.songs[1]);
    }
    var m := MapWithSortedSongs(Fixture(), collator);
    var z, g, a, o := WithSortedSongs(zeta, collator), WithSortedSongs(gamma, collator),
                      WithSortedSongs(alpha, collator), WithSortedSongs(omega, collator);
    assert m == [z, g, a, o];
    FixtureCategoryOrder(collator, z, g, a, o);
    assert SortCategories(Fixture(), collator) == [a, z, o, g];
  }

  // ---------------------------------------------------------------------------
  // Flattening

  /** The record `getAllSongsFromCategories` pushes for `song` in `c`:
      `{...song, category: c.id, categoryName: c.name}`. */
  function Annotate(song: SongSummary, c: Category): (r: SongWithCategory)
    ensures r.song.category == c.id && r.categoryName == c.name
    ensures r.song.(category := song.category) == song
  {
    SongWithCategory(song.(category := c.id), c.name)
  }

  function AnnotateAll(c: Category): (r: seq<SongWithCategory>)
    ensures |r| == |c.songs|
    ensures forall k :: 0 <= k < |c.songs| ==> r[k] == Annotate(c.songs[k], c)
  {
    seq(|c.songs|, k requires 0 <= k < |c.songs| => Annotate(c.songs[k], c))
  }

  /** The songs of the categories, category after category, each in the order
      its category lists them. */
  function Flatten(cs: seq<Category>): seq<SongWithCategory> {
    if cs == [] then [] else Flatten(cs[..|cs| - 1]) + AnnotateAll(cs[|cs| - 1])
  }

  function TotalSongs(cs: seq<Category>): nat {
    if cs == [] then 0 else |cs[0].songs| + TotalSongs(cs[1..])
  }

  lemma {:induction false} FlattenConcat(a: seq<Category>, b: seq<Category>)
    ensures Flatten(a + b) == Flatten(a) + Flatten(b)
  {
    if b == [] {
      assert a + b == a;
    } else {
      var b', x := b[..|b| - 1], b[|b| - 1];
      assert (a + b)[..|a + b| - 1] == a + b';
      assert (a + b)[|a + b| - 1] == x;
      assert Flatten(a + b) == Flatten(a + b') + AnnotateAll(x);
      assert Flatten(b) == Flatten(b') + AnnotateAll(x);
      FlattenConcat(a, b');
      AppendAssoc(Flatten(a), Flatten(b'), AnnotateAll(x));
    }
  }

  lemma AppendAssoc<T>(p: seq<T>, q: seq<T>, r: seq<T>)
    ensures (p + q) + r == p + (q + r)
  {
  }

  lemma FlattenSingle(c: Category)
    ensures Flatten([c]) == AnnotateAll(c)
  {
    assert [c][..0] == [];
  }

  /** The flattened list has one record per song. */
  lemma {:induction false} FlattenLength(cs: seq<Category>)
    ensures |Flatten(cs)| == TotalSongs(cs)
  {
    if cs != [] {
      assert cs == [cs[0]] + cs[1..];
      FlattenConcat([cs[0]], cs[1..]);
      FlattenSingle(cs[0]);
      FlattenLength(cs[1..]);
    }
  }

  lemma TotalSongsPrefix(cs: seq<Category>, i: nat)
    requires i < |cs|
    ensures TotalSongs(cs[..i + 1]) == TotalSongs(cs[..i]) + |cs[i].songs|
  {
    FlattenLength(cs[..i + 1]);
    FlattenLength(cs[..i]);
    assert (cs[..i + 1])[..i] == cs[..i];
  }

  /** Song `j` of category `i` is found right after the songs of the categories
      before it, carrying category `i`'s id and name. */
  lemma FlattenAt(cs: seq<Category>, i: nat, j: nat)
    requires i < |cs| && j < |cs[i].songs|
    ensures TotalSongs(cs[..i]) + j < |Flatten(cs)|
    ensures Flatten(cs)[TotalSongs(cs[..i]) + j] == Annotate(cs[i].songs[j], cs[i])
  {
    assert cs == cs[..i] + [cs[i]] + cs[i + 1..];
    FlattenConcat(cs[..i] + [cs[i]], cs[i + 1..]);
    FlattenConcat(cs[..i], [cs[i]]);
    FlattenSingle(cs[i]);
    FlattenLength(cs[..i]);
  }

  /** Every record of the flattened list is some song of some category,
      annotated with that category. */
  lemma {:induction false} FlattenFrom(cs: seq<Category>, n: nat)
    requires n < |Flatten(cs)|
    ensures exists i, j :: 0 <= i < |cs| && 0 <= j < |cs[i].songs| && Flatten(cs)[n] == Annotate(cs[i].songs[j], cs[i])
  {
    var init, last := cs[..|cs| - 1], cs[|cs| - 1];
    assert Flatten(cs) == Flatten(init) + AnnotateAll(last);
    if n < |Flatten(init)| {
      FlattenFrom(init, n);
      var i, j :| 0 <= i < |init| && 0 <= j < |init[i].songs| && Flatten(init)[n] == Annotate(init[i].songs[j], init[i]);
      assert init[i] == cs[i];
    } else {
      var j := n - |Flatten(init)|;
      assert Flatten(cs)[n] == Annotate(last.songs[j], last);
    }
  }

  /** The nested `forEach` loops of `getAllSongsFromCategories`. */
  method FlattenCategories(categories: seq<Category>) returns (songs: seq<SongWithCategory>)
    ensures songs == Flatten(categories)
  {
    songs := [];
    var i := 0;
    while i < |categories|
      invariant 0 <= i <= |categories|
      invariant songs == Flatten(categories[..i])
    {
      var category := categories[i];
      var j := 0;
      while j < |category.songs|
        invariant 0 <= j <= |category.songs|
        invariant songs == Flatten(categories[..i]) + AnnotateAll(category.(songs := category.songs[..j]))
      {
        songs := songs + [Annotate(category.songs[j], category)];
        j := j + 1;
      }
      assert category.(songs := category.songs[..j]) == category;
      assert categories[..i + 1][..i] == categories[..i];
      i := i + 1;
    }
    assert categories[..i] == categories;
  }

  // ---------------------------------------------------------------------------
  // Cached and fetched reads

  /** What `fetch('/api/categories/')` produces. */
  datatype Response =
    | NetworkFailure
    | HttpResponse(ok: bool, body: Body)

  /** What `response.json()` makes of the body. */
  datatype Body =
    | Unparseable                   // not JSON: `response.json()` rejects
    | NotIterable                   // JSON, but an object, a number, `true` or `null`
    | CategoryList(cs: seq<Category>)

  datatype FetchError =
    | FailedToFetch   // `response.ok` is false
    | NetworkError    // `fetch` itself rejects
    | InvalidJson     // `response.json()` rejects
    | NotAnArray      // `[...categories]` in `sortCategories` throws a TypeError

  /** `getCachedCategories()` at time `now`. */
  method GetCachedCategories(cache: LocalCache<seq<Category>>, now: int, collator: Collator)
    returns (r: Option<seq<Category>>)
    modifies cache
    ensures var hit := if cache.available then Lookup(old(cache.storage), CategoriesKey, CategoryCacheTtlMs, now) else None;
            r == if hit.Some? then Some(SortCategories(hit.value, collator)) else None
    ensures cache.available ==> cache.storage == AfterLookup(old(cache.storage), CategoriesKey, CategoryCacheTtlMs, now)
    ensures !cache.available ==> cache.storage == old(cache.storage)
  {
    var cached := cache.Get(CategoriesKey, CategoryCacheTtlMs, now);
    if cached.None? {
      return None;
    }
    return Some(SortCategories(cached.value, collator));
  }

  /** The part of `fetchCategories` after the request: a failed response, or a
      body that is not a list, throws and leaves the cache alone; a good one is sorted, written to the cache at
      time `now` and returned. */
  method FetchCategories(cache: LocalCache<seq<Category>>, response: Response, now: int, quotaExceeded: bool,
                         collator: Collator)
    returns (r: Result<seq<Category>, FetchError>)
    modifies cache
    ensures response.NetworkFailure? ==> r == Err(NetworkError) && cache.storage == old(cache.storage)
    ensures response.HttpResponse? && !response.ok ==> r == Err(FailedToFetch) && cache.storage == old(cache.storage)
    ensures response.HttpResponse? && response.ok && response.body.Unparseable? ==>
              r == Err(InvalidJson) && cache.storage == old(cache.storage)
    ensures response.HttpResponse? && response.ok && response.body.NotIterable? ==>
              r == Err(NotAnArray) && cache.storage == old(cache.storage)
    ensures response.HttpResponse? && response.ok && response.body.CategoryList? ==>
              && r == Ok(SortCategories(response.body.cs, collator))
              && cache.storage == if cache.available && !quotaExceeded
                                  then old(cache.storage)[StorageKey(CategoriesKey) := Envelope(r.value, now)]
                                  else old(cache.storage)
  {
    if response.NetworkFailure? {
      return Err(NetworkError);
    }
    if !response.ok {
      return Err(FailedToFetch);
    }
    if response.body.Unparseable? {
      return Err(InvalidJson);
    }
    if response.body.NotIterable? {
      return Err(NotAnArray);
    }
    var sorted := SortCategories(response.body.cs, collator);
    cache.Set(CategoriesKey, sorted, now, quotaExceeded);
    return Ok(sorted);
  }

  /** `clearCategoryCache()`: removes the categories entry and nothing else. */
  method ClearCategoryCache(cache: LocalCache<seq<Category>>)
    modifies cache
    ensures cache.available ==> cache.storage == old(cache.storage) - {StorageKey(CategoriesKey)}
    ensures !cache.available ==> cache.storage == old(cache.storage)
  {
    cache.Clear(Some([CategoriesKey]));
    assert StorageKeys([CategoriesKey]) == {StorageKey(CategoriesKey)};
  }

  /** `getAllSongsFromCategories()` at time `now`: absent when nothing is
      cached, otherwise the flattened sorted categories. */
  method GetAllSongsFromCategories(cache: LocalCache<seq<Category>>, now: int, collator: Collator)
    returns (r: Option<seq<SongWithCategory>>)
    modifies cache
    ensures var hit := if cache.available then Lookup(old(cache.storage), CategoriesKey, CategoryCacheTtlMs, now) else None;
            r == if hit.Some? then Some(Flatten(SortCategories(hit.value, collator))) else None
    ensures cache.available ==> cache.storage == AfterLookup(old(cache.storage), CategoriesKey, CategoryCacheTtlMs, now)
    ensures !cache.available ==> cache.storage == old(cache.storage)
  {
    var categories := GetCachedCategories(cache, now, collator);
    if categories.None? {
      return None;
    }
    var songs := FlattenCategories(categories.value);
    return Some(songs);
  }

  /** A fetch followed, within the expiry age, by a cached read gives back the
      fetched (sorted) categories, and sorting them again changes nothing. */
  method FetchThenRead(cache: LocalCache<seq<Category>>, body: seq<Category>, fetchedAt: int, readAt: int,
                       collator: Collator)
    returns (fetched: Result<seq<Category>, FetchError>, cached: Option<seq<Category>>)
    requires cache.available
    requires Consistent(collator)
    requires fetchedAt <= readAt <= fetchedAt + CategoryCacheTtlMs
    modifies cache
    ensures fetched == Ok(SortCategories(body, collator))
    ensures cached == Some(SortCategories(body, collator))
  {
    fetched := FetchCategories(cache, HttpResponse(true, CategoryList(body)), fetchedAt, false, collator);
    SetThenGet(old(cache.storage), CategoriesKey, fetched.value, fetchedAt, CategoryCacheTtlMs, readAt);
    cached := GetCachedCategories(cache, readAt, collator);
    SortCategoriesIdempotent(body, collator);
  }
}
