# albins2 songbook: a Dafny model of its core

albins2 is a songbook web application. A Django back end stores songbooks,
their categories and the songs of each category. A React front end keeps
the category tree in `localStorage` and offers search and per-song
navigation on top of it. This project models the parts of the application
that decide what the user sees, and proves properties of them:

- `Cache` (`frontend/src/utils/cache.ts`): the timestamped `localStorage`
  envelope under the `albins:` prefix, its expiry on read, and the deletion of
  stale or malformed entries.
- `CategoryClient` (`frontend/src/services/categoryClient.ts`):
  - the canonical order of categories and of the songs inside them: `order`,
    with a missing order read as `Number.MAX_SAFE_INTEGER`, then a locale
    comparison of the name or title;
  - the cached read with a 12-hour expiry and the handling of the fetch
    response;
  - cache invalidation;
  - the flattening of categories into songs that carry their category.
- `Search` (`frontend/src/pages/Search.tsx`):
  - record formatting with "Unknown" defaults;
  - blank-query detection;
  - the seven-level relevance rank of a song;
  - the stable sort by rank;
  - paging at 20 results per page, with the previous and next handlers and
    the page buttons.
- `PaginationControls` (`frontend/src/components/PaginationControls.tsx`):
  - the set of visible page numbers: first, last, and current plus or minus one;
  - their numeric sort;
  - an ellipsis inserted wherever a gap is hidden;
  - the rendered bar, with its disabled and active states.
- `SongNavigation` (`frontend/src/pages/Song.tsx`):
  - the collection of every song of every category;
  - the navigation order: by page number when any song has one, then by
    category order, category position, song order, song position and title;
  - the window around a song;
  - the neighbour and buffer songs shown for the current song;
  - the "No song found." error on the final attempt.
- `ApiModels` (`backend/api/models.py`):
  - the automatic `order` assigned by `Category.save` and `Song.save`, in
    steps of 10 after the highest existing order;
  - what the database does with a NULL order when it sorts descending;
  - the constraints checked on insert;
  - the `["order", "id"]` listing order.

`StableSort` models `Array.prototype.sort` as a stable insertion sort. The
model proves that the result is a permutation of the input, sorted under any
consistent comparator, stable, and unchanged when sorted a second time.
`Lexicographic` builds the comparators the source writes by hand: integer
keys first, then a string comparison.

Several inputs of the source are parameters of the model:

- The locale comparison `String.prototype.localeCompare` is an uninterpreted
  `Collator`. The model assumes only that it is a consistent three-way
  comparator.
- `String.prototype.normalize("NFD")` with the diacritic strip and
  lower-casing is a function parameter `norm`.
- The clock is a `now` argument.
- The outcome of `fetch` is a `Response` value.
- The database engine's placement of NULL in a descending sort is the flag
  `nullsLargest`. It is true on PostgreSQL, where NULL sorts as the largest
  value, and false on SQLite and MySQL.

Where the source updates state in place, the model is a class with
`modifies` clauses:

- `Cache.LocalCache` for `localStorage`;
- `Search.SearchState` for the React state of the search page;
- `SongNavigation.SongPage` for the React state of the song page;
- `ApiModels.Database` for the two tables.

The loops of the source are methods with loop invariants, each proved equal
to a specification function:

- `Cache.LocalCache.Clear`;
- `CategoryClient.FlattenCategories`;
- `SongNavigation.BuildOrderedSongDetails`;
- `PaginationControls.BuildPageItems`.

## Model

| member | source | states |
|---|---|---|
| Common.OrderKey | frontend/src/services/categoryClient.ts:30-31 | a present order is its own key; a missing one is `Number.MAX_SAFE_INTEGER` |
| Common.JsSlice | frontend/src/pages/Search.tsx:116-118 | `slice` with in-range bounds is the subsequence between them, and an end past the length is clamped to the length |
| Common.At | frontend/src/pages/Song.tsx:163-167 | indexing gives the element exactly when the index is in bounds, and `undefined` otherwise |
| StableSort.Sort | frontend/src/services/categoryClient.ts:29 | sorting keeps the length of its input |
| StableSort.SortPermutes | frontend/src/services/categoryClient.ts:29 | sorting returns a permutation (the same multiset) of its input |
| StableSort.SortSorted | frontend/src/services/categoryClient.ts:29-38 | under a consistent comparator, every element of the sorted result is at most every later element |
| StableSort.SortStable | frontend/src/pages/Search.tsx:110 | elements that compare equal keep their relative input order |
| StableSort.SortIdempotent | frontend/src/services/categoryClient.ts:59-62 | sorting an already sorted list changes nothing |
| Lexicographic.ByKeysConsistent | frontend/src/pages/Song.tsx:62-87 | comparing integer keys in turn and then text is a consistent comparator whenever the text comparison is |
| Lexicographic.KeyCompareSingle | frontend/src/services/categoryClient.ts:30-38 | with one key, a comes first iff its key is smaller, or the keys tie and the texts compare at most zero |
| Cache.StorageKey | frontend/src/utils/cache.ts:1 | the storage key is `albins:` followed by the logical key |
| Cache.StorageKeyInjective | frontend/src/utils/cache.ts:30 | two logical keys never share a storage key |
| Cache.Lookup | frontend/src/utils/cache.ts:36-58 | a read hits exactly when a well-formed envelope is present and at most `maxAgeMs` old, and then returns its data |
| Cache.AfterLookup | frontend/src/utils/cache.ts:44-52 | a read removes the entry exactly when it is a bad envelope or a stale one, and changes nothing else |
| Cache.SetThenGet | frontend/src/utils/cache.ts:22-58 | data written is read back unchanged while it is at most `maxAgeMs` old, and that read deletes nothing |
| Cache.StaleEntryRemoved | frontend/src/utils/cache.ts:49-52 | an entry older than `maxAgeMs` is a miss, and the read deletes it |
| Cache.StorageKeys | frontend/src/utils/cache.ts:63-66 | the storage keys are exactly the prefixed logical keys |
| Cache.LocalCache.constructor | frontend/src/utils/cache.ts:10-16 | the cache starts with the given storage and availability |
| Cache.LocalCache.Set | frontend/src/utils/cache.ts:22-34 | with storage available and the quota not exceeded, the envelope `{data, now}` is stored under the prefixed key; otherwise nothing changes |
| Cache.LocalCache.Get | frontend/src/utils/cache.ts:36-58 | the result and the new storage are `Lookup` and `AfterLookup`; with no storage the result is a miss and nothing changes |
| Cache.LocalCache.Clear | frontend/src/utils/cache.ts:60-67 | exactly the given keys, or all of `CACHE_KEYS` when none are given, are removed |
| CategoryClient.WithSortedSongs | frontend/src/services/categoryClient.ts:43-46 | the category keeps its id, name and order when its songs are sorted |
| CategoryClient.MapWithSortedSongs | frontend/src/services/categoryClient.ts:42-46 | each category in turn gets its songs sorted, and no category is added or dropped |
| CategoryClient.SongComparatorConsistent | frontend/src/services/categoryClient.ts:29-38 | the song comparator is a consistent comparator |
| CategoryClient.CategoryComparatorConsistent | frontend/src/services/categoryClient.ts:47-56 | the category comparator is a consistent comparator |
| CategoryClient.SortSongs | frontend/src/services/categoryClient.ts:28-39 | `sortSongs` as a stable sort of a copy by the null-last order key, then the collator; specified by `SortSongsCorrect`, `SongsNullOrderLast` and `TwoSongsSwap` |
| CategoryClient.SortSongsCorrect | frontend/src/services/categoryClient.ts:28-39 | `sortSongs` returns a permutation ordered by `order ?? MAX_SAFE_INTEGER` and then by title |
| CategoryClient.SortCategories | frontend/src/services/categoryClient.ts:41-57 | `sortCategories`: sort each category's songs, then the categories by the null-last order key and name; specified by `SortCategoriesCorrect`, `SortCategoriesIdempotent` and `CategoriesNullOrderLast` |
| CategoryClient.SortCategoriesCorrect | frontend/src/services/categoryClient.ts:41-57 | `sortCategories` returns a permutation of the categories with their songs sorted, ordered by order and then name; every output category comes from an input category |
| CategoryClient.SortCategoriesIdempotent | frontend/src/services/categoryClient.ts:59-62 | sorting an already sorted tree again gives the same tree |
| CategoryClient.SongsNullOrderLast | frontend/src/services/categoryClient.ts:30-31 | no song with an explicit order below the sentinel follows a song with no order |
| CategoryClient.CategoriesNullOrderLast | frontend/src/services/categoryClient.ts:48-49 | no category with an explicit order below the sentinel follows a category with no order |
| CategoryClient.SongComparatorSign | frontend/src/services/categoryClient.ts:29-38 | the song comparator is negative exactly when the order key is smaller, or the keys tie and the title compares below |
| CategoryClient.CategoryComparatorSign | frontend/src/services/categoryClient.ts:47-56 | the category comparator is negative exactly when the order key is smaller, or the keys tie and the name compares below |
| CategoryClient.TwoSongsSwap | frontend/src/services/categoryClient.ts:28-39 | two songs of which the second strictly precedes the first swap places |
| CategoryClient.FixtureSortsAsTestExpects | frontend/src/services/categoryClient.test.ts:146-168 | the test's categories come out as Alpha, Zeta, Omega, Gamma with "Alpha Song" first in Zeta |
| CategoryClient.Annotate | frontend/src/services/categoryClient.ts:94-98 | the record carries the category's id and name and is otherwise the song |
| CategoryClient.AnnotateAll | frontend/src/services/categoryClient.ts:93-99 | one record per song of the category, in order |
| CategoryClient.Flatten | frontend/src/services/categoryClient.ts:91-102 | the annotated songs, category after category; specified by `FlattenLength`, `FlattenAt` and `FlattenFrom`, and the loops of `FlattenCategories` are proved to compute it |
| CategoryClient.FlattenLength | frontend/src/services/categoryClient.ts:85-103 | the flattened list has exactly one record per song |
| CategoryClient.FlattenAt | frontend/src/services/categoryClient.ts:92-100 | song j of category i sits right after all songs of the categories before i |
| CategoryClient.FlattenFrom | frontend/src/services/categoryClient.ts:92-100 | every flattened record is some song of some category, annotated with that category |
| CategoryClient.FlattenCategories | frontend/src/services/categoryClient.ts:91-102 | the nested loops produce the flattened list |
| CategoryClient.GetCachedCategories | frontend/src/services/categoryClient.ts:59-62 | a fresh cached tree is returned re-sorted, and a miss is null; the cache changes as the read prescribes |
| CategoryClient.FetchCategories | frontend/src/services/categoryClient.ts:64-81 | a network failure, a non-OK response, an unparseable body and a body that is not a list are errors that leave the cache alone; an OK list is sorted, cached as sorted and returned |
| CategoryClient.ClearCategoryCache | frontend/src/services/categoryClient.ts:83 | only the categories entry is removed |
| CategoryClient.GetAllSongsFromCategories | frontend/src/services/categoryClient.ts:85-103 | a miss gives null, and a hit gives the flattened sorted tree |
| CategoryClient.FetchThenRead | frontend/src/services/categoryClient.ts:59-81 | a cached read after a fetch, within 12 hours, returns exactly the tree the fetch returned |
| Search.OrDefault | frontend/src/pages/Search.tsx:52-54 | an empty or missing value falls back to the default, and any other value is kept |
| Search.FormatSong | frontend/src/pages/Search.tsx:49-56 | author, melody and category name default to "Unknown" when missing or empty, content to ""; id and title are kept |
| Search.FormatSongIdempotent | frontend/src/pages/Search.tsx:49-56 | formatting a formatted record again changes nothing |
| Search.FormatAll | frontend/src/pages/Search.tsx:49-57 | every record is formatted in place, none added or dropped |
| Search.TrimStart | frontend/src/pages/Search.tsx:69 | strips exactly the leading whitespace |
| Search.TrimEnd | frontend/src/pages/Search.tsx:69 | strips exactly the trailing whitespace |
| Search.IsBlank | frontend/src/pages/Search.tsx:69 | `!searchQuery.trim()`; specified by `BlankIffAllWhitespace` |
| Search.BlankIffAllWhitespace | frontend/src/pages/Search.tsx:69-72 | a query is blank iff it consists only of whitespace |
| Search.IncludesIff | frontend/src/pages/Search.tsx:85 | `includes` holds iff the needle occurs at some position |
| Search.IncludesItself | frontend/src/pages/Search.tsx:85-86 | every field includes itself, so an exact match is also a partial match |
| Search.RankRules | frontend/src/pages/Search.tsx:77-101 | five field rules, each with an exact rank no larger than its partial rank, all in 1..7 |
| Search.FirstHitSpec | frontend/src/pages/Search.tsx:77-101 | no rank iff no field includes the query; otherwise the rank of the first field that does |
| Search.FirstHitOfFive | frontend/src/pages/Search.tsx:85-100 | the first-hit rule unrolled into the source's chain of five tests |
| Search.RankSong | frontend/src/pages/Search.tsx:77-101 | the five guarded assignments of `rankSong`; specified by `RankSongIsFirstHit`, `RankNoneIff`, `RankFromFirstHit`, `TitleHitRank` and `ExactHitRank` |
| Search.RankSongIsFirstHit | frontend/src/pages/Search.tsx:77-101 | `rankSong` is the first-hit rule over title, author, content, melody and category name, in that order |
| Search.RankNoneIff | frontend/src/pages/Search.tsx:85-100 | a song has no rank iff none of its five fields includes the query |
| Search.RankFromFirstHit | frontend/src/pages/Search.tsx:77-101 | a rank lies in 1..7 and comes from the first field that includes the query |
| Search.TitleHitRank | frontend/src/pages/Search.tsx:85-87 | a title hit ranks 1 when exact and 2 otherwise |
| Search.ExactHitRank | frontend/src/pages/Search.tsx:85-99 | an exact match on the first matching field gives that field's exact rank |
| Search.WithRanks | frontend/src/pages/Search.tsx:104-109 | every kept pair carries the song's own rank |
| Search.Strip | frontend/src/pages/Search.tsx:110 | keeps the songs of the ranked pairs, in order |
| Search.WithRanksAreHits | frontend/src/pages/Search.tsx:104-109 | the kept songs are exactly the songs with a rank, in input order |
| Search.RankDifferenceConsistent | frontend/src/pages/Search.tsx:110 | `a.rank - b.rank` is a consistent comparator |
| Search.FilterSongs | frontend/src/pages/Search.tsx:67-72 | a blank query shows every song |
| Search.SortedRanks | frontend/src/pages/Search.tsx:104-110 | the matched list is sorted by rank and only holds ranked songs |
| Search.SortByRank | frontend/src/pages/Search.tsx:110 | the stable sort by `a.rank - b.rank`; specified by `SortByRankIsBuckets` and `SortedRanks` |
| Search.SortByRankIsBuckets | frontend/src/pages/Search.tsx:110 | the stable sort by rank equals concatenating rank 1, rank 2, ... rank 7 songs, each in input order |
| Search.FilterSongsAreHits | frontend/src/pages/Search.tsx:104-112 | for a non-blank query the result is a permutation of the songs that match |
| Search.FilterSongsRankOrder | frontend/src/pages/Search.tsx:104-112 | results of a smaller rank come first, and equal ranks keep their input order |
| Search.FilterSongsBuckets | frontend/src/pages/Search.tsx:104-112 | the result is the matching songs grouped by rank from 1 to 7, each group in input order |
| Search.StripSort | frontend/src/pages/Search.tsx:110 | sorting the ranked pairs keeps the same songs |
| Search.TotalPages | frontend/src/pages/Search.tsx:119 | the page count is the least number of 20-result pages that hold every result |
| Search.PageResults | frontend/src/pages/Search.tsx:116-118 | a page holds at most 20 results |
| Search.PageOfResult | frontend/src/pages/Search.tsx:116-119 | result i appears on page i / 20 + 1, which is in range |
| Search.PageInRange | frontend/src/pages/Search.tsx:116-119 | an in-range page is the slice of 20 results that starts at (page - 1) * 20 |
| Search.NextPage | frontend/src/pages/Search.tsx:121-123 | advances only below the last page |
| Search.PrevPage | frontend/src/pages/Search.tsx:125-127 | goes back only above page 1 |
| Search.PageHandlersStayInRange | frontend/src/pages/Search.tsx:121-127 | the handlers keep the page in range, and next then previous returns to the start |
| Search.SearchState.constructor | frontend/src/pages/Search.tsx:16-23 | empty songs, empty query, empty results, page 1 |
| Search.SearchState.Load | frontend/src/pages/Search.tsx:48-72 | the formatted songs are stored, the results are recomputed for the current query, and the page resets to 1 |
| Search.SearchState.SetQuery | frontend/src/pages/Search.tsx:66-113 | the results become the filter of the songs by the new query, and the page resets to 1 |
| Search.SearchState.CurrentResults | frontend/src/pages/Search.tsx:116-118 | the visible page holds at most 20 results |
| Search.SearchState.HandleNextPage | frontend/src/pages/Search.tsx:121-123 | the page becomes `NextPage`, and nothing else changes |
| Search.SearchState.HandlePrevPage | frontend/src/pages/Search.tsx:125-127 | the page becomes `PrevPage`, and nothing else changes |
| Search.SearchState.ClickPageButton | frontend/src/pages/Search.tsx:185-193 | button i selects page i + 1, and nothing else changes |
| Search.SearchState.PrevDisabled | frontend/src/pages/Search.tsx:179 | the previous-page button's `disabled`; specified by `DisabledIffStuck` |
| Search.SearchState.NextDisabled | frontend/src/pages/Search.tsx:198 | the next-page button's `disabled`; specified by `DisabledIffStuck` |
| Search.SearchState.DisabledIffStuck | frontend/src/pages/Search.tsx:174-199 | with results shown, a button is disabled exactly when its handler would not move the page |
| PaginationControls.NumericConsistent | frontend/src/components/PaginationControls.tsx:30 | `a - b` is a consistent comparator |
| PaginationControls.SetAdd | frontend/src/components/PaginationControls.tsx:17-28 | adding to the set inserts the value, and a duplicate-free list stays duplicate-free |
| PaginationControls.PageSet | frontend/src/components/PaginationControls.tsx:17-28 | at most five distinct pages: exactly page 1, the last page and the neighbours of the current page that are in range |
| PaginationControls.SortDistinct | frontend/src/components/PaginationControls.tsx:30 | sorting keeps a duplicate-free list duplicate-free |
| PaginationControls.SortedPages | frontend/src/components/PaginationControls.tsx:17-30 | the page set sorted numerically; specified by `SortedPagesCorrect` and `SortedPagesEnds` |
| PaginationControls.SortedPagesCorrect | frontend/src/components/PaginationControls.tsx:17-30 | the sorted pages are strictly increasing, at most five, and exactly the listed pages |
| PaginationControls.SortedPagesEnds | frontend/src/components/PaginationControls.tsx:17-30 | for a current page in range, the sorted pages start at 1 and end at the last page |
| PaginationControls.ItemsForPages | frontend/src/components/PaginationControls.tsx:34-46 | dropping the ellipses gives back the sorted pages |
| PaginationControls.ItemsForEnds | frontend/src/components/PaginationControls.tsx:34-46 | the bar starts and ends with a page button |
| PaginationControls.ItemsForGaps | frontend/src/components/PaginationControls.tsx:34-46 | an ellipsis sits between the two pages it separates, and only where they differ by more than one |
| PaginationControls.BuildPageItems | frontend/src/components/PaginationControls.tsx:16-49 | the loop produces the page items of the sorted page set |
| PaginationControls.PushItems | frontend/src/components/PaginationControls.tsx:34-46 | the `forEach` loop pushes exactly the items of the sorted pages: each page, with an ellipsis before it when it is more than one above the page before |
| PaginationControls.PageItems | frontend/src/components/PaginationControls.tsx:16-49 | what `buildPageItems` returns; specified by `PageItemsCorrect`, `PageItemsEnds` and `PageItemsBar`, and computed by `BuildPageItems` |
| PaginationControls.PageItemsCorrect | frontend/src/components/PaginationControls.tsx:16-49 | the pages of the bar are exactly the listed pages in increasing order, with an ellipsis at each gap and nowhere else |
| PaginationControls.PageItemsEnds | frontend/src/components/PaginationControls.tsx:16-49 | for a current page in range, the bar starts at page 1 and ends at the last page |
| PaginationControls.PageItemsBar | frontend/src/components/PaginationControls.tsx:16-49 | for a current page in range, the bar's pages are exactly the listed pages, increasing, from page 1 to the last page |
| PaginationControls.Render | frontend/src/components/PaginationControls.tsx:51-53 | nothing is rendered iff there is at most one page |
| PaginationControls.OneButtonPerPage | frontend/src/components/PaginationControls.tsx:75-86 | a listed page has exactly one button |
| PaginationControls.RenderCorrect | frontend/src/components/PaginationControls.tsx:55-96 | with more than one page the bar is shown, and (`BarCorrect`) exactly one button is active; previous is disabled iff the first button is active, and next iff the last is; every button is in 1..total |
| SongNavigation.ToSongDetail | frontend/src/pages/Song.tsx:29-39 | the detail copies the song's fields and the category's id and name |
| SongNavigation.Entry | frontend/src/pages/Song.tsx:47-56 | the entry for song j of category i records its detail, both positions and both order keys |
| SongNavigation.CategoryEntries | frontend/src/pages/Song.tsx:49-57 | one entry per song of the category, in order |
| SongNavigation.CollectUpToIndex | frontend/src/pages/Song.tsx:41-58 | after n categories, there is one entry per song of those categories at its computed offset |
| SongNavigation.CollectUpToMembers | frontend/src/pages/Song.tsx:41-58 | every collected entry is the entry of some song |
| SongNavigation.CollectedIsOnePerSong | frontend/src/pages/Song.tsx:41-58 | the collected list has exactly one entry per song and nothing else |
| SongNavigation.UsePageOrder | frontend/src/pages/Song.tsx:60 | page order is used iff some song has a page number |
| SongNavigation.DetailComparator | frontend/src/pages/Song.tsx:62-87 | the comparator of `buildOrderedSongDetails`; specified by `DetailComparatorApply`, `DetailComparatorConsistent` and `ComparatorSeparatesEntries` |
| SongNavigation.DetailComparatorApply | frontend/src/pages/Song.tsx:62-87 | the navigation comparator spelled out: page number when page order is used, then category order, category position, song order, song position, and last the title |
| SongNavigation.DetailComparatorConsistent | frontend/src/pages/Song.tsx:62-87 | the navigation comparator is consistent |
| SongNavigation.BuildOrderedSongDetails | frontend/src/pages/Song.tsx:41-88 | no categories gives an empty list; otherwise the collected entries in navigation order |
| SongNavigation.NavigationOrder | frontend/src/pages/Song.tsx:41-88 | the collected records sorted by `DetailComparator`; specified by `NavigationOrderSorted` and `NavigationOrderPrimaryKey`, and computed by `BuildOrderedSongDetails` |
| SongNavigation.NavigationOrderSorted | frontend/src/pages/Song.tsx:41-88 | the navigation order is a permutation of the collected entries, sorted by the comparator |
| SongNavigation.KeyCompareFirstKey | frontend/src/pages/Song.tsx:62-72 | an entry that comes no later than another has a primary key that is no larger |
| SongNavigation.NavigationOrderPrimaryKey | frontend/src/pages/Song.tsx:62-72 | later entries never have a smaller primary key: page number in page mode, otherwise category order |
| SongNavigation.ComparatorSeparatesEntries | frontend/src/pages/Song.tsx:62-87 | the comparator ties two entries only when they are the same song in the same category |
| SongNavigation.GetSongWindow | frontend/src/pages/Song.tsx:90-100 | the window starts at center - radius clamped at 0, holds the songs from there to center + radius, and puts the center at the right offset |
| SongNavigation.FindIndex | frontend/src/pages/Song.tsx:158 | -1 iff no entry has the id, otherwise the first entry that has it |
| SongNavigation.Select | frontend/src/pages/Song.tsx:159-167 | the song, its immediate neighbours or none at the ends, and the buffers two away, clamped to the list |
| SongNavigation.SongPage.constructor | frontend/src/pages/Song.tsx:105-126 | no song, no error and no neighbours |
| SongNavigation.SongPage.UpdateFromCategories | frontend/src/pages/Song.tsx:152-181 | a found song is shown with its neighbours; a missing song on the final attempt shows "No song found."; otherwise nothing changes |
| SongNavigation.SongPage.Show | frontend/src/pages/Song.tsx:160-167 | the page shows the selection and clears the error |
| SongNavigation.SongPage.ShowNotFound | frontend/src/pages/Song.tsx:171-178 | the page shows the error "No song found." and clears the song, its neighbours and its buffers |
| ApiModels.DescendingConsistent | backend/api/models.py:29 | `order_by("-order")` is a consistent comparator on either engine |
| ApiModels.MaxOrder | backend/api/models.py:27-32 | the largest non-null order, or none when all are null |
| ApiModels.LastOrder | backend/api/models.py:27-31 | the order of the first row of `.order_by("-order")`; specified by `LastOrderIsHighest` and `LastOrderFacts` |
| ApiModels.LastOrderIsHighest | backend/api/models.py:27-31 | no first row iff no rows; the first row has a null order with NULLs largest and any null present, and otherwise the largest order |
| ApiModels.LastOrderFacts | backend/api/models.py:27-32 | the first row's order is one of the orders in the book |
| ApiModels.BookOrders | backend/api/models.py:28 | the orders of exactly the rows of the songbook |
| ApiModels.CategoryOrder | backend/api/models.py:25-33 | the order `Category.save` stores; specified by `AutoCategoryOrder` and `SaveCategoryKeepsOrder` |
| ApiModels.SaveCategory | backend/api/models.py:12-34 | `Category.objects.create`; specified by `SaveCategoryKeepsOrder`, `AutoCategoryOrder`, `CategoryNameUnique`, `CategoryWithoutSongbook`, `SaveCategoryPreservesValid` and `FirstTwoCategories` |
| ApiModels.SaveCategoryKeepsOrder | backend/api/models.py:26 | an explicit order is stored as given, and a negative one is rejected |
| ApiModels.CategoryWithoutSongbook | backend/api/models.py:15 | without a songbook no order is computed and the insert fails on the non-null key |
| ApiModels.AutoCategoryOrder | backend/api/models.py:26-33 | a category without order gets the book's highest order plus 10, or 10 when there is none or it is null |
| ApiModels.CategoryNameUnique | backend/api/models.py:21-23 | an insert fails iff the name is taken in the same songbook, and the same name in another book is accepted |
| ApiModels.SaveCategoryPreservesValid | backend/api/models.py:12-34 | a successful insert keeps the orders non-negative, the ids increasing and the names unique per book |
| ApiModels.FirstTwoCategories | backend/api/models.py:25-34 | the first two categories of a book get orders 10 and 20 |
| ApiModels.CategoryOrders | backend/api/models.py:55 | the orders of exactly the songs of the category |
| ApiModels.CategoryOrdersFacts | backend/api/models.py:55 | the category's order list is empty iff it has no songs, holds a null iff some song of it has a null order, and is all null iff every song of it has a null order |
| ApiModels.SongOrder | backend/api/models.py:53-56 | the order `Song.save` stores; specified by `AutoSongOrderFirst`, `AutoSongOrderFails`, `AutoSongOrderNext` and `SaveSongKeepsOrder` |
| ApiModels.SaveSong | backend/api/models.py:39-57 | `Song.objects.create`; specified by `SaveSongKeepsOrder`, `AutoSongOrderNext`, `AutoSongOrderFails`, `SaveSongPreservesValid`, `AutoSongOrderNonNegative` and `FirstTwoSongs` |
| ApiModels.AutoSongOrderFirst | backend/api/models.py:54-56 | the first song of a category without order gets 10 |
| ApiModels.AutoSongOrderFails | backend/api/models.py:55-56 | the automatic order fails with a type error iff the first row has a null order: with NULLs largest when any null is present, otherwise only when all are null |
| ApiModels.AutoSongOrderNext | backend/api/models.py:55-56 | otherwise a song without order gets the category's highest order plus 10 |
| ApiModels.SaveSongPreservesValid | backend/api/models.py:46-57 | a successful insert keeps song orders non-negative and ids increasing |
| ApiModels.AutoSongOrderNonNegative | backend/api/models.py:46-56 | a song insert without order fails only with the type error, never on the sign check |
| ApiModels.FirstTwoSongs | backend/api/models.py:53-57 | the first two songs of a category get orders 10 and 20 |
| ApiModels.SaveSongKeepsOrder | backend/api/models.py:54 | a non-negative explicit order is stored as given |
| ApiModels.ByOrderThenIdConsistent | backend/api/models.py:20 | ordering by order and then id is a consistent comparator |
| ApiModels.ListOrdered | backend/api/models.py:20 | rows with distinct ids are listed by order and then by id, strictly |
| ApiModels.ListCategories | backend/api/models.py:20 | `Category.objects.all()` in Meta ordering; specified by `ListCategoriesOrdered` |
| ApiModels.ListCategoriesOrdered | backend/api/models.py:20 | the categories are listed by order and then id |
| ApiModels.ListSongs | backend/api/models.py:51 | `Song.objects.all()` in Meta ordering; specified by `ListSongsOrdered` |
| ApiModels.ListSongsOrdered | backend/api/models.py:51 | the songs are listed by order and then id |
| ApiModels.Database.constructor | backend/api/models.py:12-51 | both tables start empty, and the engine is fixed |
| ApiModels.Database.CreateCategory | backend/api/models.py:25-34 | the result is `SaveCategory`; on success the row is appended with the next id, and on failure nothing changes |
| ApiModels.Database.CreateSong | backend/api/models.py:53-57 | the result is `SaveSong`; on success the row is appended with the next id, and on failure nothing changes |

## Left out

- **JSON and `localStorage` errors.** JSON serialisation and parsing are not
  modelled. Stored values are already classified as an envelope, a bad
  envelope, unparseable text or an empty value. A throwing `getItem` or
  `removeItem` is not modelled.
- **Storage availability.** `hasStorage()` is the fixed flag `available`. The
  exception that a blocked `localStorage` raises on access is not modelled.
- **Quota errors.** The `setItem` quota error is the `quotaExceeded` argument.
- **Locale functions.** `localeCompare` and `normalize("NFD")` are parameters,
  because the model has no Unicode tables. The model assumes only that the
  collator is consistent.
- **Asynchronous and rendering code.** React effects, render cycles,
  cancellation flags, swipe gestures and animation, the service worker, the
  Django views, serializers, admin and scripts, and the legacy `songs` app
  are not part of this model. Only the state transitions the core performs
  are modelled.
- **The song page around its updates.** Song.tsx tries the cached
  categories first and then fetches (lines 183-207). The model gives
  `SongPage.UpdateFromCategories` the data of either attempt as arguments.
  It leaves out the promise chain and the loading flag. It also leaves out
  the steps after the fetch: clearing the neighbours again when the song is
  not found, and the "Failed to load song." error when the fetch fails and
  there was no cached song.
- **In-place sorting.** `Array.prototype.sort` is modelled on sequence
  values, as a stable insertion sort. The source's sorts all act on fresh
  arrays, so no aliasing is lost. The engine's actual algorithm is not
  modelled, only the result it must give under a consistent comparator.
- **Comparator arithmetic.** `orderA - orderB` and `a.rank - b.rank` are
  exact integer differences. The model does not capture JavaScript's
  floating-point subtraction near `MAX_SAFE_INTEGER`.
- **`Search.FilterSongs` fields.** Matched songs are returned without the
  intermediate `rank` field. The source spreads the song and adds `rank`.
  Only the song fields are visible afterwards.
- **Missing song lists.** `category.songs ?? []` in categoryClient.ts is
  modelled with `songs` always present.
- **Missing titles.** A missing title is not modelled. Titles are strings.
- **`SongNavigation.ComparatorSeparatesEntries`.** Determinism of the
  navigation order is stated as "the comparator never ties two distinct
  entries". The model does not state that any two sorts give the same list.
- **`ApiModels.SaveCategory` and `ApiModels.SaveSong` updates.** Only inserts
  (`objects.create`) are modelled. Calling `save()` on an existing row runs
  the same order rule, and the model does not cover that.
- **Integer limits.** The upper bound of `PositiveIntegerField` and an
  engine's integer-range error are not modelled. Orders are unbounded.
- **Order of the failing constraint.** When several constraints fail at
  once, the model reports the missing songbook first, then the negative
  order, then the duplicate name. A real database may report a different
  one.
- **The song's payload fields.** Melody, author, content and audio are
  payload. They play no part in the rules modelled here.
- **Foreign keys.** A song's category is always given. A reference to a
  missing category or songbook is not modelled.
- **Page-number sign coercion.** `backend/api/tests.py` (lines 60-90)
  expects `page_number` and `negative_page_number` fields whose signs
  `save()` coerces. `backend/api/models.py` declares neither field and has
  no such coercion, so the model follows the model file and leaves them
  out.
- **No numeric fast path in search.** `Search.tsx` ranks songs only by text
  (lines 77-112). It has no page-number match and no tie-break, and equal
  ranks keep the loaded order.
- **Unparseable cache entries are kept.** `getCache` keeps an entry it cannot
  parse: its `catch` returns null without `removeItem` (cache.ts lines 55-57).
  Only a parsed entry without a numeric timestamp, or a stale one, is removed
  (cache.ts lines 44-52).
- **The request URL.** `frontend/src/services/categoryClient.test.ts` (line
  190) expects a request to `/api/songbook/`. `fetchCategories` requests
  `/api/categories/` (categoryClient.ts line 65). The URL is not part of the
  model: `FetchCategories` receives the response as an argument. The same test's
  response is a songbook object with a `categories` field (lines 172-177),
  not a list. On such a body `[...categories]` (categoryClient.ts line 42)
  throws, so `fetchCategories` rejects and the cache is not written; the
  model's `NotIterable` body gives `Err(NotAnArray)` with the storage
  unchanged. A body that is a JSON string is iterable in JavaScript and is
  not modelled.
