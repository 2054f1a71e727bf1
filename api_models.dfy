/** The backend's `Category` and `Song` tables: how `save()` fills in a
    missing `order` from the rows already stored, the constraints the
    database enforces on insert, and the default `order, id` ordering.

    A table is a sequence of rows in insertion order. Where PostgreSQL and
    SQLite disagree (whether `NULL` sorts above or below every number) the
    engine is the parameter `nullsLargest`: true for PostgreSQL, false for
    SQLite and MySQL. */
module ApiModels {
  import opened Common
  import opened StableSort

  /** The step `save()` adds to the last order. */
  const OrderStep: int := 10

  datatype CategoryRow = CategoryRow(id: nat, name: string, order: Option<int>, songbook: nat)
  datatype SongRow = SongRow(id: nat, title: string, category: nat, order: Option<int>)

  /** The fields passed to `Category.objects.create`; `songbook` is the
      foreign key's id, `None` when none was given. */
  datatype NewCategory = NewCategory(name: string, order: Option<int>, songbook: Option<nat>)
  datatype NewSong = NewSong(title: string, category: nat, order: Option<int>)

  /** Which database constraint rejected an insert. */
  datatype Constraint =
    | SongbookNotNull          // the foreign key column is `NOT NULL`
    | OrderNonNegative         // `PositiveIntegerField`'s `CHECK ("order" >= 0)`
    | UniqueCategoryPerBook    // `UniqueConstraint(fields=["songbook", "name"])`

  datatype SaveError =
    | IntegrityError(constraint: Constraint)
    /** `last_order.order + 10` with a `NULL` order raises `TypeError`. */
    | TypeError

  // ------------------------------------------------------------ NULL ordering

  /** Ascending comparison of two `order` values as the engine does it:
      numbers by value, `NULL` above every number when `nullsLargest` and below
      every number otherwise. */
  function OrderCompare(a: Option<int>, b: Option<int>, nullsLargest: bool): int {
    if a.None? && b.None? then 0
    else if a.None? then (if nullsLargest then 1 else -1)
    else if b.None? then (if nullsLargest then -1 else 1)
    else a.value - b.value
  }

  /** `order_by("-order")`. */
  function Descending(nullsLargest: bool): Comparator<Option<int>> {
    (a: Option<int>, b: Option<int>) => OrderCompare(b, a, nullsLargest)
  }

  lemma DescendingConsistent(nullsLargest: bool)
    ensures Consistent(Descending(nullsLargest))
  {
    var cmp := Descending(nullsLargest);
    forall a: Option<int>, b: Option<int> ensures cmp(a, b) < 0 <==> cmp(b, a) > 0 {
      assert cmp(a, b) == OrderCompare(b, a, nullsLargest) && cmp(b, a) == OrderCompare(a, b, nullsLargest);
    }
    forall a: Option<int>, b: Option<int>, c: Option<int> | cmp(a, b) <= 0 && cmp(b, c) <= 0 ensures cmp(a, c) <= 0 {
      assert cmp(a, b) == OrderCompare(b, a, nullsLargest) && cmp(b, c) == OrderCompare(c, b, nullsLargest);
      assert cmp(a, c) == OrderCompare(c, a, nullsLargest);
    }
  }

  /** The largest non-null order, `None` when every order is null. */
  function MaxOrder(orders: seq<Option<int>>): (r: Option<int>)
    ensures r.None? <==> forall k :: 0 <= k < |orders| ==> orders[k].None?
    ensures r.Some? ==> r in orders
    ensures r.Some? ==> forall k :: 0 <= k < |orders| && orders[k].Some? ==> orders[k].value <= r.value
  {
    if orders == [] then None
    else
      var rest := MaxOrder(orders[1..]);
      assert forall k :: 1 <= k < |orders| ==> orders[k] == orders[1..][k - 1];
      if orders[0].None? then rest
      else if rest.None? || rest.value < orders[0].value then orders[0]
      else rest
  }

  /** `.order_by("-order").first()` on the given orders, reading only the
      `order` of the row it returns: `None` when there are no rows. */
  function LastOrder(orders: seq<Option<int>>, nullsLargest: bool): Option<Option<int>> {
    if orders == [] then None else Some(Sort(orders, Descending(nullsLargest))[0])
  }

  lemma SortedHead<T(!new)>(s: seq<T>, cmp: Comparator<T>)
    requires Consistent(cmp)
    requires s != []
    ensures forall k :: 0 <= k < |Sort(s, cmp)| ==> cmp(Sort(s, cmp)[0], Sort(s, cmp)[k]) <= 0
  {
    var r := Sort(s, cmp);
    SortSorted(s, cmp);
    forall k | 0 <= k < |r| ensures cmp(r[0], r[k]) <= 0 {
      if k == 0 {
        ConsistentFacts(cmp, r[0], r[0], r[0]);
      }
    }
  }

  /** A listed order that no other order exceeds is the largest. */
  lemma MaxOrderIs(orders: seq<Option<int>>, v: int)
    requires Some(v) in orders
    requires forall k :: 0 <= k < |orders| && orders[k].Some? ==> orders[k].value <= v
    ensures MaxOrder(orders) == Some(v)
  {
    var m := MaxOrder(orders);
    var k :| 0 <= k < |orders| && orders[k] == Some(v);
    var n :| 0 <= n < |orders| && orders[n] == m;
  }

  /** The head of a list sorted by `order_by("-order")`. */
  lemma DescendingHead(r: seq<Option<int>>, nullsLargest: bool)
    requires r != []
    requires forall k :: 0 <= k < |r| ==> Descending(nullsLargest)(r[0], r[k]) <= 0
    ensures nullsLargest && None in r ==> r[0].None?
    ensures r[0].Some? ==> forall k :: 0 <= k < |r| && r[k].Some? ==> r[k].value <= r[0].value
    ensures r[0].None? && !nullsLargest ==> forall k :: 0 <= k < |r| ==> r[k].None?
  {
    var cmp := Descending(nullsLargest);
    forall k | 0 <= k < |r| ensures OrderCompare(r[k], r[0], nullsLargest) <= 0 {
      assert cmp(r[0], r[k]) == OrderCompare(r[k], r[0], nullsLargest);
    }
    if nullsLargest && None in r {
      var k :| 0 <= k < |r| && r[k] == None;
      assert OrderCompare(r[k], r[0], nullsLargest) <= 0;
    }
  }

  /** What the first row of `order_by("-order")` holds: a `NULL` order on an
      engine that sorts `NULL` above numbers when any order is null, and
      otherwise the largest order (null only when every order is). */
  lemma LastOrderIsHighest(orders: seq<Option<int>>, nullsLargest: bool)
    ensures orders == [] <==> LastOrder(orders, nullsLargest).None?
    ensures orders != [] && nullsLargest && None in orders ==> LastOrder(orders, nullsLargest) == Some(None)
    ensures orders != [] && !(nullsLargest && None in orders) ==> LastOrder(orders, nullsLargest) == Some(MaxOrder(orders))
  {
    if orders != [] {
      var cmp := Descending(nullsLargest);
      var r := Sort(orders, cmp);
      SortPermutes(orders, cmp);
      DescendingConsistent(nullsLargest);
      SortedHead(orders, cmp);
      SameElements(orders, r);
      DescendingHead(r, nullsLargest);
      if !(nullsLargest && None in orders) {
        if r[0].Some? {
          forall k | 0 <= k < |orders| && orders[k].Some? ensures orders[k].value <= r[0].value {
            assert orders[k] in r;
          }
          MaxOrderIs(orders, r[0].value);
        } else {
          forall k | 0 <= k < |orders| ensures orders[k].None? {
            assert orders[k] in r;
          }
        }
      }
    }
  }

  /** A sorted copy holds the same elements. */
  lemma SameElements<T>(s: seq<T>, r: seq<T>)
    requires multiset(r) == multiset(s)
    ensures forall x :: x in r <==> x in s
  {
    forall x ensures x in r <==> x in s {
      assert x in r <==> x in multiset(r);
      assert x in s <==> x in multiset(s);
    }
  }

  lemma LastOrderSingle(o: Option<int>, nullsLargest: bool)
    ensures LastOrder([o], nullsLargest) == Some(o)
  {
    assert [o][..0] == [];
    assert Sort([o], Descending(nullsLargest)) == Insert(o, [], Descending(nullsLargest));
  }

  /** `LastOrderIsHighest` restated on membership, the form the callers use. */
  lemma LastOrderFacts(orders: seq<Option<int>>, nullsLargest: bool)
    ensures var last := LastOrder(orders, nullsLargest);
      && (last.None? <==> orders == [])
      && (last.Some? ==> (last.value.None? <==> (nullsLargest && None in orders) || (forall o :: o in orders ==> o.None?)))
      && (last.Some? && last.value.Some? ==>
            && last.value in orders
            && forall o :: o in orders && o.Some? ==> o.value <= last.value.value)
  {
    LastOrderIsHighest(orders, nullsLargest);
    var m := MaxOrder(orders);
    if forall o :: o in orders ==> o.None? {
      forall k | 0 <= k < |orders| ensures orders[k].None? {
        assert orders[k] in orders;
      }
    }
    if m.Some? {
      forall o | o in orders && o.Some? ensures o.value <= m.value {
        var k :| 0 <= k < |orders| && orders[k] == o;
      }
    }
  }

  // ---------------------------------------------------------------- Category

  /** The orders of the rows already in songbook `book`. */
  function BookOrders(rows: seq<CategoryRow>, book: nat): (r: seq<Option<int>>)
    ensures forall o :: o in r <==> exists k :: 0 <= k < |rows| && rows[k].songbook == book && rows[k].order == o
  {
    if rows == [] then []
    else
      assert forall k :: 1 <= k < |rows| ==> rows[k] == rows[1..][k - 1];
      (if rows[0].songbook == book then [rows[0].order] else []) + BookOrders(rows[1..], book)
  }

  /** `if self.order is None and self.songbook_id`: a songbook id of 0 is
      falsy, as in Python. */
  predicate HasSongbookId(c: NewCategory) {
    c.songbook.Some? && c.songbook.value != 0
  }

  /** The order `Category.save` stores. */
  function CategoryOrder(c: NewCategory, rows: seq<CategoryRow>, nullsLargest: bool): Option<int> {
    if c.order.None? && HasSongbookId(c) then
      var last := LastOrder(BookOrders(rows, c.songbook.value), nullsLargest);
      var base := if last.Some? && last.value.Some? then last.value.value else 0;
      Some(base + OrderStep)
    else c.order
  }

  /** Whether a row of songbook `book` already has the name `name`. */
  predicate NameTaken(rows: seq<CategoryRow>, book: nat, name: string) {
    exists k :: 0 <= k < |rows| && rows[k].songbook == book && rows[k].name == name
  }

  /** `Category.objects.create(...)`: compute the order, then insert the row
      with the next id unless a constraint rejects it. */
  function SaveCategory(rows: seq<CategoryRow>, nextId: nat, c: NewCategory, nullsLargest: bool): Result<CategoryRow, SaveError> {
    var order := CategoryOrder(c, rows, nullsLargest);
    if c.songbook.None? then Err(IntegrityError(SongbookNotNull))
    else if order.Some? && order.value < 0 then Err(IntegrityError(OrderNonNegative))
    else if NameTaken(rows, c.songbook.value, c.name) then Err(IntegrityError(UniqueCategoryPerBook))
    else Ok(CategoryRow(nextId, c.name, order, c.songbook.value))
  }

  /** The rows of one table satisfy the schema: non-negative orders, ids in
      increasing order below the next id, and one name per songbook. */
  ghost predicate CategoriesValid(rows: seq<CategoryRow>, nextId: nat) {
    && (forall k :: 0 <= k < |rows| && rows[k].order.Some? ==> rows[k].order.value >= 0)
    && (forall k :: 0 <= k < |rows| ==> rows[k].id < nextId)
    && (forall i, j :: 0 <= i < j < |rows| ==> rows[i].id < rows[j].id)
    && (forall i, j :: 0 <= i < j < |rows| ==> rows[i].songbook != rows[j].songbook || rows[i].name != rows[j].name)
  }

  /** An explicit order is stored as given. */
  lemma SaveCategoryKeepsOrder(rows: seq<CategoryRow>, nextId: nat, c: NewCategory, nullsLargest: bool)
    requires c.order.Some?
    ensures SaveCategory(rows, nextId, c, nullsLargest).Ok? ==> SaveCategory(rows, nextId, c, nullsLargest).value.order == c.order
    ensures c.songbook.Some? && c.order.value < 0 ==> SaveCategory(rows, nextId, c, nullsLargest) == Err(IntegrityError(OrderNonNegative))
  {
  }

  /** Without a songbook the order stays null, and the insert is refused. */
  lemma CategoryWithoutSongbook(rows: seq<CategoryRow>, nextId: nat, c: NewCategory, nullsLargest: bool)
    requires c.songbook.None?
    ensures CategoryOrder(c, rows, nullsLargest) == c.order
    ensures SaveCategory(rows, nextId, c, nullsLargest) == Err(IntegrityError(SongbookNotNull))
  {
  }

  predicate NullInBook(rows: seq<CategoryRow>, book: nat) {
    exists k :: 0 <= k < |rows| && rows[k].songbook == book && rows[k].order.None?
  }

  /** A missing order becomes 10 more than the highest order in the same
      songbook, or 10 when the songbook has none. On an engine that sorts
      `NULL` highest, one null order in the songbook makes the new order 10. */
  lemma AutoCategoryOrder(rows: seq<CategoryRow>, c: NewCategory, nullsLargest: bool)
    requires c.order.None? && HasSongbookId(c)
    ensures var book := c.songbook.value;
      var order := CategoryOrder(c, rows, nullsLargest);
      && order.Some?
      && (nullsLargest && NullInBook(rows, book) ==> order.value == OrderStep)
      && (!(nullsLargest && NullInBook(rows, book)) ==>
            && (forall k :: 0 <= k < |rows| && rows[k].songbook == book && rows[k].order.Some? ==> rows[k].order.value < order.value)
            && ((exists k :: 0 <= k < |rows| && rows[k].songbook == book && rows[k].order == Some(order.value - OrderStep))
                || (order.value == OrderStep && forall k :: 0 <= k < |rows| && rows[k].songbook == book ==> rows[k].order.None?)))
  {
    var book := c.songbook.value;
    var orders := BookOrders(rows, book);
    LastOrderFacts(orders, nullsLargest);
    var last := LastOrder(orders, nullsLargest);
    assert NullInBook(rows, book) <==> None in orders;
    if !(nullsLargest && NullInBook(rows, book)) {
      if last.Some? && last.value.Some? {
        forall k | 0 <= k < |rows| && rows[k].songbook == book && rows[k].order.Some?
          ensures rows[k].order.value <= last.value.value
        {
          assert rows[k].order in orders;
        }
      } else {
        forall k | 0 <= k < |rows| && rows[k].songbook == book ensures rows[k].order.None? {
          assert rows[k].order in orders;
        }
      }
    }
  }

  /** The insert fails on the name exactly when the songbook already has a
      category of that name; the same name in another songbook is accepted. */
  lemma CategoryNameUnique(rows: seq<CategoryRow>, nextId: nat, c: NewCategory, nullsLargest: bool)
    requires c.songbook.Some?
    requires c.order.None? || c.order.value >= 0
    requires CategoriesValid(rows, nextId)
    ensures SaveCategory(rows, nextId, c, nullsLargest).Err? <==> NameTaken(rows, c.songbook.value, c.name)
    ensures (forall k :: 0 <= k < |rows| && rows[k].name == c.name ==> rows[k].songbook != c.songbook.value) ==>
              SaveCategory(rows, nextId, c, nullsLargest).Ok?
  {
    var order := CategoryOrder(c, rows, nullsLargest);
    if c.order.None? && HasSongbookId(c) {
      var orders := BookOrders(rows, c.songbook.value);
      var last := LastOrder(orders, nullsLargest);
      LastOrderIsHighest(orders, nullsLargest);
      if last.Some? && last.value.Some? {
        assert last.value in orders;
      }
    }
    assert order.None? || order.value >= 0;
  }

  /** A successful save extends a valid table to a valid table. */
  lemma SaveCategoryPreservesValid(rows: seq<CategoryRow>, nextId: nat, c: NewCategory, nullsLargest: bool)
    requires CategoriesValid(rows, nextId)
    requires SaveCategory(rows, nextId, c, nullsLargest).Ok?
    ensures CategoriesValid(rows + [SaveCategory(rows, nextId, c, nullsLargest).value], nextId + 1)
  {
    var row := SaveCategory(rows, nextId, c, nullsLargest).value;
    var rows' := rows + [row];
    forall i, j | 0 <= i < j < |rows'| ensures rows'[i].songbook != rows'[j].songbook || rows'[i].name != rows'[j].name {
      if j == |rows| {
        assert rows'[i] == rows[i];
      }
    }
  }

  /** The first two categories created without an order in a new songbook
      get 10 and 20. */
  lemma FirstTwoCategories(book: nat, first: string, second: string, nullsLargest: bool)
    requires book != 0 && first != second
    ensures var a := SaveCategory([], 1, NewCategory(first, None, Some(book)), nullsLargest);
      && a.Ok? && a.value.order == Some(10)
      && var b := SaveCategory([a.value], 2, NewCategory(second, None, Some(book)), nullsLargest);
      && b.Ok? && b.value.order == Some(20)
  {
    var a := SaveCategory([], 1, NewCategory(first, None, Some(book)), nullsLargest);
    assert BookOrders([], book) == [];
    assert a == Ok(CategoryRow(1, first, Some(10), book));
    var row := a.value;
    assert BookOrders([row], book) == [Some(10)] by {
      assert [row][1..] == [];
    }
    LastOrderSingle(Some(10), nullsLargest);
    assert CategoryOrder(NewCategory(second, None, Some(book)), [row], nullsLargest) == Some(20);
    assert !NameTaken([row], book, second);
  }

  // -------------------------------------------------------------------- Song

  /** The orders of the songs already in category `category`. */
  function CategoryOrders(rows: seq<SongRow>, category: nat): (r: seq<Option<int>>)
    ensures forall o :: o in r <==> exists k :: 0 <= k < |rows| && rows[k].category == category && rows[k].order == o
  {
    if rows == [] then []
    else
      assert forall k :: 1 <= k < |rows| ==> rows[k] == rows[1..][k - 1];
      (if rows[0].category == category then [rows[0].order] else []) + CategoryOrders(rows[1..], category)
  }

  /** The order `Song.save` stores: as given, or 10 more than the last order
      in the category (10 for an empty category). A null last order makes the
      addition raise. */
  function SongOrder(s: NewSong, rows: seq<SongRow>, nullsLargest: bool): Result<Option<int>, SaveError> {
    if s.order.Some? then Ok(s.order)
    else OrderAfter(LastOrder(CategoryOrders(rows, s.category), nullsLargest))
  }

  /** `last_order + 10` on the order read from the first row, if any. */
  function OrderAfter(last: Option<Option<int>>): Result<Option<int>, SaveError> {
    if last.None? then Ok(Some(OrderStep))
    else if last.value.None? then Err(TypeError)
    else Ok(Some(last.value.value + OrderStep))
  }

  /** `Song.objects.create(...)`. */
  function SaveSong(rows: seq<SongRow>, nextId: nat, s: NewSong, nullsLargest: bool): Result<SongRow, SaveError> {
    var order := SongOrder(s, rows, nullsLargest);
    if order.Err? then Err(order.error)
    else if order.value.Some? && order.value.value < 0 then Err(IntegrityError(OrderNonNegative))
    else Ok(SongRow(nextId, s.title, s.category, order.value))
  }

  ghost predicate SongsValid(rows: seq<SongRow>, nextId: nat) {
    && (forall k :: 0 <= k < |rows| && rows[k].order.Some? ==> rows[k].order.value >= 0)
    && (forall k :: 0 <= k < |rows| ==> rows[k].id < nextId)
    && (forall i, j :: 0 <= i < j < |rows| ==> rows[i].id < rows[j].id)
  }

  predicate InCategory(rows: seq<SongRow>, category: nat) {
    exists k :: 0 <= k < |rows| && rows[k].category == category
  }

  predicate NullInCategory(rows: seq<SongRow>, category: nat) {
    exists k :: 0 <= k < |rows| && rows[k].category == category && rows[k].order.None?
  }

  predicate AllNullInCategory(rows: seq<SongRow>, category: nat) {
    forall k :: 0 <= k < |rows| && rows[k].category == category ==> rows[k].order.None?
  }

  /** The category's orders say the same as its rows. */
  lemma CategoryOrdersFacts(rows: seq<SongRow>, category: nat)
    ensures var orders := CategoryOrders(rows, category);
      && (InCategory(rows, category) <==> orders != [])
      && (NullInCategory(rows, category) <==> None in orders)
      && (AllNullInCategory(rows, category) <==> forall o :: o in orders ==> o.None?)
  {
    var orders := CategoryOrders(rows, category);
    if InCategory(rows, category) {
      var k :| 0 <= k < |rows| && rows[k].category == category;
      assert rows[k].order in orders;
    }
    if AllNullInCategory(rows, category) {
      forall o | o in orders ensures o.None? {
      }
    } else {
      var k :| 0 <= k < |rows| && rows[k].category == category && rows[k].order.Some?;
      assert rows[k].order in orders;
    }
  }

  /** A song without an order in an empty category gets 10. */
  lemma AutoSongOrderFirst(rows: seq<SongRow>, s: NewSong, nullsLargest: bool)
    requires s.order.None? && !InCategory(rows, s.category)
    ensures SongOrder(s, rows, nullsLargest) == Ok(Some(OrderStep))
  {
    CategoryOrdersFacts(rows, s.category);
    LastOrderFacts(CategoryOrders(rows, s.category), nullsLargest);
  }

  /** In a non-empty category the automatic order fails exactly when the
      first row of `order_by("-order")` has a null order: some order is null
      on an engine that sorts `NULL` highest, or every order is null. */
  lemma AutoSongOrderFails(rows: seq<SongRow>, s: NewSong, nullsLargest: bool)
    requires s.order.None? && InCategory(rows, s.category)
    ensures SongOrder(s, rows, nullsLargest) == Err(TypeError) <==>
              (nullsLargest && NullInCategory(rows, s.category)) || AllNullInCategory(rows, s.category)
  {
    CategoryOrdersFacts(rows, s.category);
    LastOrderFacts(CategoryOrders(rows, s.category), nullsLargest);
  }

  /** Otherwise it is 10 more than the highest order in the category. */
  lemma AutoSongOrderNext(rows: seq<SongRow>, s: NewSong, nullsLargest: bool)
    requires s.order.None? && InCategory(rows, s.category)
    requires SongOrder(s, rows, nullsLargest).Ok?
    ensures var r := SongOrder(s, rows, nullsLargest).value;
      && r.Some?
      && (forall k :: 0 <= k < |rows| && rows[k].category == s.category && rows[k].order.Some? ==> rows[k].order.value < r.value)
      && (exists k :: 0 <= k < |rows| && rows[k].category == s.category && rows[k].order == Some(r.value - OrderStep))
  {
    var orders := CategoryOrders(rows, s.category);
    var k :| 0 <= k < |rows| && rows[k].category == s.category;
    assert rows[k].order in orders;
    OrderAfterHighest(orders, nullsLargest);
    var r := SongOrder(s, rows, nullsLargest).value;
    AboveCategoryOrders(rows, s.category, r.value);
  }

  /** A successful automatic order is 10 more than the highest of the
      non-empty orders, all of which lie below it. */
  lemma OrderAfterHighest(orders: seq<Option<int>>, nullsLargest: bool)
    requires orders != []
    requires OrderAfter(LastOrder(orders, nullsLargest)).Ok?
    ensures var r := OrderAfter(LastOrder(orders, nullsLargest)).value;
      && r.Some?
      && Some(r.value - OrderStep) in orders
      && forall o :: o in orders && o.Some? ==> o.value < r.value
  {
    LastOrderFacts(orders, nullsLargest);
  }

  /** A value above every order of the category, `OrderStep` above one of
      them, is what the rows say it is. */
  lemma AboveCategoryOrders(rows: seq<SongRow>, category: nat, next: int)
    requires Some(next - OrderStep) in CategoryOrders(rows, category)
    requires forall o :: o in CategoryOrders(rows, category) && o.Some? ==> o.value < next
    ensures forall k :: 0 <= k < |rows| && rows[k].category == category && rows[k].order.Some? ==> rows[k].order.value < next
    ensures exists k :: 0 <= k < |rows| && rows[k].category == category && rows[k].order == Some(next - OrderStep)
  {
    var orders := CategoryOrders(rows, category);
    forall k | 0 <= k < |rows| && rows[k].category == category && rows[k].order.Some?
      ensures rows[k].order.value < next
    {
      assert rows[k].order in orders;
    }
  }

  /** A successful song save extends a valid table to a valid table. */
  lemma SaveSongPreservesValid(rows: seq<SongRow>, nextId: nat, s: NewSong, nullsLargest: bool)
    requires SongsValid(rows, nextId)
    requires SaveSong(rows, nextId, s, nullsLargest).Ok?
    ensures SongsValid(rows + [SaveSong(rows, nextId, s, nullsLargest).value], nextId + 1)
  {
  }

  /** On a valid table the only way a song save fails is a null last order:
      automatic orders are never negative. */
  lemma AutoSongOrderNonNegative(rows: seq<SongRow>, nextId: nat, s: NewSong, nullsLargest: bool)
    requires SongsValid(rows, nextId)
    requires s.order.None?
    ensures SaveSong(rows, nextId, s, nullsLargest).Err? ==> SaveSong(rows, nextId, s, nullsLargest) == Err(TypeError)
  {
    var orders := CategoryOrders(rows, s.category);
    CategoryOrdersNonNegative(rows, nextId, s.category);
    OrderAfterNonNegative(orders, nullsLargest);
  }

  /** On a valid table every order of a category is non-negative. */
  lemma CategoryOrdersNonNegative(rows: seq<SongRow>, nextId: nat, category: nat)
    requires SongsValid(rows, nextId)
    ensures forall o :: o in CategoryOrders(rows, category) && o.Some? ==> o.value >= 0
  {
    forall o | o in CategoryOrders(rows, category) && o.Some? ensures o.value >= 0 {
      var k :| 0 <= k < |rows| && rows[k].category == category && rows[k].order == o;
    }
  }

  /** Ten more than the last of non-negative orders is non-negative. */
  lemma OrderAfterNonNegative(orders: seq<Option<int>>, nullsLargest: bool)
    requires forall o :: o in orders && o.Some? ==> o.value >= 0
    ensures OrderAfter(LastOrder(orders, nullsLargest)).Ok? ==>
      OrderAfter(LastOrder(orders, nullsLargest)).value.Some? && OrderAfter(LastOrder(orders, nullsLargest)).value.value >= 0
  {
    LastOrderFacts(orders, nullsLargest);
  }

  /** The first two songs created without an order in an empty category get
      10 and 20; an explicit order is kept. */
  lemma FirstTwoSongs(category: nat, first: string, second: string, nullsLargest: bool)
    ensures var a := SaveSong([], 1, NewSong(first, category, None), nullsLargest);
      && a.Ok? && a.value.order == Some(10)
      && var b := SaveSong([a.value], 2, NewSong(second, category, None), nullsLargest);
      && b.Ok? && b.value.order == Some(20)
  {
    var a := SaveSong([], 1, NewSong(first, category, None), nullsLargest);
    assert CategoryOrders([], category) == [];
    assert a == Ok(SongRow(1, first, category, Some(10)));
    var row := a.value;
    assert CategoryOrders([row], category) == [Some(10)] by {
      assert [row][1..] == [];
    }
    LastOrderSingle(Some(10), nullsLargest);
  }

  lemma SaveSongKeepsOrder(rows: seq<SongRow>, nextId: nat, s: NewSong, nullsLargest: bool)
    requires s.order.Some? && s.order.value >= 0
    ensures SaveSong(rows, nextId, s, nullsLargest) == Ok(SongRow(nextId, s.title, s.category, s.order))
  {
  }

  // ------------------------------------------------------------ the ordering

  /** `ordering = ["order", "id"]`: by order with the engine's `NULL`
      placement, then by id. */
  function ByOrderThenId<R>(order: R -> Option<int>, id: R -> nat, nullsLargest: bool): Comparator<R> {
    (a: R, b: R) => if order(a) == order(b) then id(a) - id(b) else OrderCompare(order(a), order(b), nullsLargest)
  }

  lemma ByOrderThenIdConsistent<R(!new)>(order: R -> Option<int>, id: R -> nat, nullsLargest: bool)
    ensures Consistent(ByOrderThenId(order, id, nullsLargest))
  {
    var cmp := ByOrderThenId(order, id, nullsLargest);
    forall a: R, b: R ensures cmp(a, b) < 0 <==> cmp(b, a) > 0 {
      assert cmp(a, b) == if order(a) == order(b) then id(a) - id(b) else OrderCompare(order(a), order(b), nullsLargest);
      assert cmp(b, a) == if order(b) == order(a) then id(b) - id(a) else OrderCompare(order(b), order(a), nullsLargest);
    }
    forall a: R, b: R, c: R | cmp(a, b) <= 0 && cmp(b, c) <= 0 ensures cmp(a, c) <= 0 {
      assert cmp(a, b) == if order(a) == order(b) then id(a) - id(b) else OrderCompare(order(a), order(b), nullsLargest);
      assert cmp(b, c) == if order(b) == order(c) then id(b) - id(c) else OrderCompare(order(b), order(c), nullsLargest);
      assert cmp(a, c) == if order(a) == order(c) then id(a) - id(c) else OrderCompare(order(a), order(c), nullsLargest);
    }
  }

  /** An application of `ByOrderThenId`, spelled out. */
  lemma ByOrderThenIdApply<R>(order: R -> Option<int>, id: R -> nat, nullsLargest: bool, a: R, b: R)
    ensures ByOrderThenId(order, id, nullsLargest)(a, b) ==
              if order(a) == order(b) then id(a) - id(b) else OrderCompare(order(a), order(b), nullsLargest)
  {
  }

  /** Where row `a` may come before row `b` in the default ordering. */
  predicate OrderedBefore<R>(order: R -> Option<int>, id: R -> nat, nullsLargest: bool, a: R, b: R) {
    if order(a) == order(b) then id(a) < id(b) else OrderCompare(order(a), order(b), nullsLargest) < 0
  }

  /** A table's listing in the default ordering holds the same rows, and when
      the ids increase along the table every row comes strictly before the
      rows after it. */
  lemma ListOrdered<R(!new)>(rows: seq<R>, order: R -> Option<int>, id: R -> nat, nullsLargest: bool)
    requires forall i, j :: 0 <= i < j < |rows| ==> id(rows[i]) < id(rows[j])
    ensures var r := Sort(rows, ByOrderThenId(order, id, nullsLargest));
      && multiset(r) == multiset(rows)
      && forall i, j :: 0 <= i < j < |r| ==> OrderedBefore(order, id, nullsLargest, r[i], r[j])
  {
    var cmp := ByOrderThenId(order, id, nullsLargest);
    var r := Sort(rows, cmp);
    SortPermutes(rows, cmp);
    ByOrderThenIdConsistent(order, id, nullsLargest);
    SortSorted(rows, cmp);
    forall i, j | 0 <= i < j < |r| ensures OrderedBefore(order, id, nullsLargest, r[i], r[j]) {
      assert cmp(r[i], r[j]) <= 0;
      ByOrderThenIdApply(order, id, nullsLargest, r[i], r[j]);
      DistinctIds(rows, r, id, i, j);
    }
  }

  /** Two positions of a rearrangement of a table whose ids increase hold
      rows with different ids. */
  lemma DistinctIds<R>(rows: seq<R>, r: seq<R>, id: R -> nat, i: nat, j: nat)
    requires forall a, b :: 0 <= a < b < |rows| ==> id(rows[a]) < id(rows[b])
    requires multiset(r) == multiset(rows)
    requires i < j < |r|
    ensures id(r[i]) != id(r[j])
  {
    assert r[i] in multiset(rows) && r[j] in multiset(rows);
    var a :| 0 <= a < |rows| && rows[a] == r[i];
    var b :| 0 <= b < |rows| && rows[b] == r[j];
    if a == b {
      CountTwo(r, i, j);
      CountAtMostOne(rows, id, r[i]);
    }
  }

  lemma {:induction false} CountTwo<T>(s: seq<T>, i: nat, j: nat)
    requires i < j < |s| && s[i] == s[j]
    ensures multiset(s)[s[i]] >= 2
  {
    var x := s[i];
    assert s == s[..i] + [x] + s[i + 1..j] + [x] + s[j + 1..];
    assert multiset(s) == multiset(s[..i]) + multiset{x} + multiset(s[i + 1..j]) + multiset{x} + multiset(s[j + 1..]);
  }

  lemma {:induction false} CountAtMostOne<R>(rows: seq<R>, id: R -> nat, x: R)
    requires forall a, b :: 0 <= a < b < |rows| ==> id(rows[a]) < id(rows[b])
    ensures multiset(rows)[x] <= 1
  {
    if rows != [] {
      var rest := rows[1..];
      assert rows == [rows[0]] + rest;
      CountAtMostOne(rest, id, x);
      if rows[0] == x {
        forall k | 0 <= k < |rest| ensures rest[k] != x {
          assert rest[k] == rows[k + 1];
        }
      }
    }
  }

  function CategoryRowOrder(r: CategoryRow): Option<int> { r.order }
  function CategoryRowId(r: CategoryRow): nat { r.id }
  function SongRowOrder(r: SongRow): Option<int> { r.order }
  function SongRowId(r: SongRow): nat { r.id }

  /** `Category.objects.order_by("order", "id")`. */
  function ListCategories(rows: seq<CategoryRow>, nullsLargest: bool): seq<CategoryRow> {
    Sort(rows, ByOrderThenId(CategoryRowOrder, CategoryRowId, nullsLargest))
  }

  /** `Song.objects.order_by("order", "id")`. */
  function ListSongs(rows: seq<SongRow>, nullsLargest: bool): seq<SongRow> {
    Sort(rows, ByOrderThenId(SongRowOrder, SongRowId, nullsLargest))
  }

  lemma ListCategoriesOrdered(rows: seq<CategoryRow>, nextId: nat, nullsLargest: bool)
    requires CategoriesValid(rows, nextId)
    ensures var r := ListCategories(rows, nullsLargest);
      && multiset(r) == multiset(rows)
      && forall i, j :: 0 <= i < j < |r| ==> OrderedBefore(CategoryRowOrder, CategoryRowId, nullsLargest, r[i], r[j])
  {
    ListOrdered(rows, CategoryRowOrder, CategoryRowId, nullsLargest);
  }

  lemma ListSongsOrdered(rows: seq<SongRow>, nextId: nat, nullsLargest: bool)
    requires SongsValid(rows, nextId)
    ensures var r := ListSongs(rows, nullsLargest);
      && multiset(r) == multiset(rows)
      && forall i, j :: 0 <= i < j < |r| ==> OrderedBefore(SongRowOrder, SongRowId, nullsLargest, r[i], r[j])
  {
    ListOrdered(rows, SongRowOrder, SongRowId, nullsLargest);
  }

  // ----------------------------------------------------------- the database

  /** The two tables and their id sequences. */
  class Database {
    var categories: seq<CategoryRow>
    var songs: seq<SongRow>
    var nextCategoryId: nat
    var nextSongId: nat
    const nullsLargest: bool

    ghost predicate Valid()
      reads this
    {
      CategoriesValid(categories, nextCategoryId) && SongsValid(songs, nextSongId)
    }

    constructor (nullsLargest: bool)
      ensures Valid()
      ensures categories == [] && songs == [] && this.nullsLargest == nullsLargest
    {
      categories, songs := [], [];
      nextCategoryId, nextSongId := 1, 1;
      this.nullsLargest := nullsLargest;
    }

    /** `Category.objects.create(...)`: the row is appended when the save
        succeeds; nothing changes when it fails. */
    method CreateCategory(c: NewCategory) returns (r: Result<CategoryRow, SaveError>)
      requires Valid()
      modifies this
      ensures Valid()
      ensures r == SaveCategory(old(categories), old(nextCategoryId), c, nullsLargest)
      ensures r.Ok? ==> categories == old(categories) + [r.value] && nextCategoryId == old(nextCategoryId) + 1
      ensures r.Err? ==> categories == old(categories) && nextCategoryId == old(nextCategoryId)
      ensures songs == old(songs) && nextSongId == old(nextSongId)
    {
      r := SaveCategory(categories, nextCategoryId, c, nullsLargest);
      if r.Ok? {
        SaveCategoryPreservesValid(categories, nextCategoryId, c, nullsLargest);
        categories, nextCategoryId := categories + [r.value], nextCategoryId + 1;
      }
    }

    /** `Song.objects.create(...)`. */
    method CreateSong(s: NewSong) returns (r: Result<SongRow, SaveError>)
      requires Valid()
      modifies this
      ensures Valid()
      ensures r == SaveSong(old(songs), old(nextSongId), s, nullsLargest)
      ensures r.Ok? ==> songs == old(songs) + [r.value] && nextSongId == old(nextSongId) + 1
      ensures r.Err? ==> songs == old(songs) && nextSongId == old(nextSongId)
      ensures categories == old(categories) && nextCategoryId == old(nextCategoryId)
    {
      r := SaveSong(songs, nextSongId, s, nullsLargest);
      if r.Ok? {
        SaveSongPreservesValid(songs, nextSongId, s, nullsLargest);
        songs, nextSongId := songs + [r.value], nextSongId + 1;
      }
    }
  }
}
