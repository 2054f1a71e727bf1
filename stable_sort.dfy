/** `Array.prototype.sort(compareFn)`: section 23.1.3.30 of ECMA-262 (2023)
    requires a stable sort, and with a consistent comparator the result is
    sorted and a permutation of the input. The model is an insertion sort that
    inserts each element after every element it does not precede. */
module StableSort {
  import opened Common

  /** Put `x` just before the first element of `s` that is strictly greater. */
  function Insert<T>(x: T, s: seq<T>, cmp: Comparator<T>): (r: seq<T>)
    ensures |r| == |s| + 1
  {
    if s == [] then [x]
    else if cmp(x, s[0]) < 0 then [x] + s
    else
      assert s == [s[0]] + s[1..];
      [s[0]] + Insert(x, s[1..], cmp)
  }

  /** Sort `s`, taking its elements from left to right. */
  function Sort<T>(s: seq<T>, cmp: Comparator<T>): (r: seq<T>)
    ensures |r| == |s|
  {
    if s == [] then []
    else Insert(s[|s| - 1], Sort(s[..|s| - 1], cmp), cmp)
  }

  /** Inserting adds exactly `x`. */
  lemma {:induction false} InsertPermutes<T>(x: T, s: seq<T>, cmp: Comparator<T>)
    ensures multiset(Insert(x, s, cmp)) == multiset(s) + multiset{x}
  {
    if s != [] && cmp(x, s[0]) >= 0 {
      var h, t := s[0], s[1..];
      var rest := Insert(x, t, cmp);
      InsertPast(x, s, cmp);
      InsertPermutes(x, t, cmp);
      assert s == [h] + t;
      assert multiset([h] + rest) == multiset{h} + multiset(rest);
      assert multiset([h] + t) == multiset{h} + multiset(t);
    } else if s != [] {
      InsertFront(x, s, cmp);
    }
  }

  /** Sorting returns a permutation of its input. */
  lemma {:induction false} SortPermutes<T>(s: seq<T>, cmp: Comparator<T>)
    ensures multiset(Sort(s, cmp)) == multiset(s)
  {
    if s != [] {
      var n := |s| - 1;
      SortPermutes(s[..n], cmp);
      InsertPermutes(s[n], Sort(s[..n], cmp), cmp);
      assert s == s[..n] + [s[n]];
    }
  }

  /** One step of `Insert`: `x` goes in front of a strictly greater head. */
  lemma InsertFront<T>(x: T, s: seq<T>, cmp: Comparator<T>)
    requires s != [] && cmp(x, s[0]) < 0
    ensures Insert(x, s, cmp) == [x] + s
  {
  }

  /** One step of `Insert`: `x` moves past a head it does not precede. */
  lemma InsertPast<T>(x: T, s: seq<T>, cmp: Comparator<T>)
    requires s != [] && cmp(x, s[0]) >= 0
    ensures Insert(x, s, cmp) == [s[0]] + Insert(x, s[1..], cmp)
  {
  }

  /** `Sort` takes the elements from left to right: the last one is inserted
      into the sorted prefix. */
  lemma SortSnoc<T>(s: seq<T>, x: T, cmp: Comparator<T>)
    ensures Sort(s + [x], cmp) == Insert(x, Sort(s, cmp), cmp)
  {
    assert (s + [x])[..|s|] == s;
  }

  ghost predicate Sorted<T>(s: seq<T>, cmp: Comparator<T>) {
    forall i, j {:trigger cmp(s[i], s[j])} :: 0 <= i < j < |s| ==> cmp(s[i], s[j]) <= 0
  }

  /** Every pair of distinct positions is in strictly ascending order. */
  ghost predicate StrictlySorted<T>(s: seq<T>, cmp: Comparator<T>) {
    forall i, j {:trigger cmp(s[i], s[j])} :: 0 <= i < j < |s| ==> cmp(s[i], s[j]) < 0
  }

  /** Inserting an element that is at least `b` into a list whose elements are
      all at least `b` keeps them all at least `b`. */
  lemma {:induction false} InsertBound<T>(x: T, s: seq<T>, cmp: Comparator<T>, b: T)
    requires cmp(b, x) <= 0
    requires forall k :: 0 <= k < |s| ==> cmp(b, s[k]) <= 0
    ensures forall k :: 0 <= k < |s| + 1 ==> cmp(b, Insert(x, s, cmp)[k]) <= 0
  {
    if s != [] && cmp(x, s[0]) >= 0 {
      InsertBound(x, s[1..], cmp, b);
      var r := Insert(x, s, cmp);
      assert r == [s[0]] + Insert(x, s[1..], cmp);
      forall k | 1 <= k < |r| ensures cmp(b, r[k]) <= 0 {
        assert r[k] == Insert(x, s[1..], cmp)[k - 1];
      }
    }
  }

  /** A head that comes no later than every element of a sorted tail keeps
      the list sorted. */
  lemma SortedCons<T>(x: T, s: seq<T>, cmp: Comparator<T>)
    requires Sorted(s, cmp)
    requires forall k :: 0 <= k < |s| ==> cmp(x, s[k]) <= 0
    ensures Sorted([x] + s, cmp)
  {
    var r := [x] + s;
    forall i, j | 0 <= i < j < |r| ensures cmp(r[i], r[j]) <= 0 {
      assert r[j] == s[j - 1];
      if i > 0 {
        assert r[i] == s[i - 1];
      }
    }
  }

  /** An element strictly before the head of a sorted list is strictly before
      every element of it. */
  lemma BeforeHead<T(!new)>(x: T, s: seq<T>, cmp: Comparator<T>)
    requires Consistent(cmp)
    requires Sorted(s, cmp) && s != [] && cmp(x, s[0]) < 0
    ensures forall k :: 0 <= k < |s| ==> cmp(x, s[k]) < 0
  {
    forall k | 0 <= k < |s| ensures cmp(x, s[k]) < 0 {
      if k > 0 {
        assert cmp(s[0], s[k]) <= 0;
        ConsistentFacts(cmp, x, s[0], s[k]);
      }
    }
  }

  /** The tail of a sorted list is sorted and bounded below by the head. */
  lemma SortedTail<T>(s: seq<T>, cmp: Comparator<T>)
    requires Sorted(s, cmp) && s != []
    ensures Sorted(s[1..], cmp)
    ensures forall k :: 0 <= k < |s[1..]| ==> cmp(s[0], s[1..][k]) <= 0
  {
    var t := s[1..];
    forall i, j | 0 <= i < j < |t| ensures cmp(t[i], t[j]) <= 0 {
      assert t[i] == s[i + 1] && t[j] == s[j + 1];
    }
    forall k | 0 <= k < |t| ensures cmp(s[0], t[k]) <= 0 {
      assert t[k] == s[k + 1];
    }
  }

  lemma {:induction false} InsertSorted<T(!new)>(x: T, s: seq<T>, cmp: Comparator<T>)
    requires Consistent(cmp)
    requires Sorted(s, cmp)
    ensures Sorted(Insert(x, s, cmp), cmp)
  {
    if s == [] {
    } else if cmp(x, s[0]) < 0 {
      BeforeHead(x, s, cmp);
      SortedCons(x, s, cmp);
    } else {
      SortedTail(s, cmp);
      InsertSorted(x, s[1..], cmp);
      ConsistentFacts(cmp, x, s[0], x);
      InsertBound(x, s[1..], cmp, s[0]);
      SortedCons(s[0], Insert(x, s[1..], cmp), cmp);
    }
  }

  lemma {:induction false} SortSorted<T(!new)>(s: seq<T>, cmp: Comparator<T>)
    requires Consistent(cmp)
    ensures Sorted(Sort(s, cmp), cmp)
  {
    if s != [] {
      SortSorted(s[..|s| - 1], cmp);
      InsertSorted(s[|s| - 1], Sort(s[..|s| - 1], cmp), cmp);
    }
  }

  /** A predicate that picks out elements of one equivalence class: no two of
      them are ordered strictly. */
  ghost predicate WithinOneClass<T(!new)>(p: T -> bool, cmp: Comparator<T>) {
    forall a, b :: p(a) && p(b) ==> cmp(a, b) == 0
  }

  lemma {:induction false} InsertStable<T(!new)>(x: T, s: seq<T>, cmp: Comparator<T>, p: T -> bool)
    requires Consistent(cmp)
    requires Sorted(s, cmp)
    requires WithinOneClass(p, cmp)
    ensures Filter(Insert(x, s, cmp), p) == Filter(s, p) + (if p(x) then [x] else [])
  {
    if s == [] {
    } else if cmp(x, s[0]) < 0 {
      InsertStableFront(x, s, cmp, p);
    } else {
      SortedTail(s, cmp);
      InsertStable(x, s[1..], cmp, p);
      InsertStablePast(x, s, cmp, p);
    }
  }

  /** The case of `InsertStable` where `x` goes in front. */
  lemma InsertStableFront<T(!new)>(x: T, s: seq<T>, cmp: Comparator<T>, p: T -> bool)
    requires Consistent(cmp)
    requires Sorted(s, cmp) && s != [] && cmp(x, s[0]) < 0
    requires WithinOneClass(p, cmp)
    ensures Filter(Insert(x, s, cmp), p) == Filter(s, p) + (if p(x) then [x] else [])
  {
    InsertFront(x, s, cmp);
    FilterCons(x, s, p);
    if p(x) {
      BeforeHead(x, s, cmp);
      OutsideClass(x, s, cmp, p);
      assert Filter(s, p) + [x] == [x] + Filter(s, p);
    } else {
      assert Filter(s, p) + [] == [] + Filter(s, p);
    }
  }

  /** The case of `InsertStable` where `x` moves past the head. */
  lemma InsertStablePast<T>(x: T, s: seq<T>, cmp: Comparator<T>, p: T -> bool)
    requires s != [] && cmp(x, s[0]) >= 0
    requires Filter(Insert(x, s[1..], cmp), p) == Filter(s[1..], p) + (if p(x) then [x] else [])
    ensures Filter(Insert(x, s, cmp), p) == Filter(s, p) + (if p(x) then [x] else [])
  {
    InsertPast(x, s, cmp);
    FilterPastHead(s, Insert(x, s[1..], cmp), if p(x) then [x] else [], p);
  }

  /** Filtering keeps or drops a head the same way before any tail. */
  lemma FilterPastHead<T>(s: seq<T>, rest: seq<T>, tail: seq<T>, p: T -> bool)
    requires s != []
    requires Filter(rest, p) == Filter(s[1..], p) + tail
    ensures Filter([s[0]] + rest, p) == Filter(s, p) + tail
  {
    var head: seq<T> := if p(s[0]) then [s[0]] else [];
    FilterCons(s[0], rest, p);
    calc {
      Filter([s[0]] + rest, p);
      head + Filter(rest, p);
      head + (Filter(s[1..], p) + tail);
      (head + Filter(s[1..], p)) + tail;
      Filter(s, p) + tail;
    }
  }

  /** Elements strictly after a member of the class are outside it. */
  lemma OutsideClass<T(!new)>(x: T, s: seq<T>, cmp: Comparator<T>, p: T -> bool)
    requires WithinOneClass(p, cmp) && p(x)
    requires forall k :: 0 <= k < |s| ==> cmp(x, s[k]) < 0
    ensures Filter(s, p) == []
  {
    forall y | y in s ensures !p(y) {
      var k :| 0 <= k < |s| && s[k] == y;
      assert cmp(x, s[k]) < 0;
    }
    NoneMatch(s, p);
  }

  lemma {:induction false} NoneMatch<T>(s: seq<T>, p: T -> bool)
    requires forall y :: y in s ==> !p(y)
    ensures Filter(s, p) == []
  {
    if s != [] {
      assert forall y :: y in s[1..] ==> y in s;
      NoneMatch(s[1..], p);
    }
  }

  /** Stability: within any class of equivalent elements the sort keeps the
      input order. */
  lemma {:induction false} SortStable<T(!new)>(s: seq<T>, cmp: Comparator<T>, p: T -> bool)
    requires Consistent(cmp)
    requires WithinOneClass(p, cmp)
    ensures Filter(Sort(s, cmp), p) == Filter(s, p)
  {
    if s != [] {
      var init, last := s[..|s| - 1], s[|s| - 1];
      assert Sort(s, cmp) == Insert(last, Sort(init, cmp), cmp);
      SortStable(init, cmp, p);
      SortSorted(init, cmp);
      InsertStable(last, Sort(init, cmp), cmp, p);
      assert s == init + [last];
      FilterAppend(init, [last], p);
      assert [last][1..] == [];
      assert Filter([last], p) == (if p(last) then [last] else []);
    }
  }

  lemma {:induction false} InsertAtEnd<T>(x: T, s: seq<T>, cmp: Comparator<T>)
    requires forall k :: 0 <= k < |s| ==> cmp(x, s[k]) >= 0
    ensures Insert(x, s, cmp) == s + [x]
  {
    if s != [] {
      InsertAtEnd(x, s[1..], cmp);
      assert s == [s[0]] + s[1..];
    }
  }

  lemma SortedInit<T>(s: seq<T>, cmp: Comparator<T>)
    requires Sorted(s, cmp) && s != []
    ensures Sorted(s[..|s| - 1], cmp)
    ensures forall k :: 0 <= k < |s| - 1 ==> cmp(s[k], s[|s| - 1]) <= 0
  {
    var init := s[..|s| - 1];
    forall i, j | 0 <= i < j < |init| ensures cmp(init[i], init[j]) <= 0 {
      assert init[i] == s[i] && init[j] == s[j];
    }
    forall k | 0 <= k < |init| ensures cmp(init[k], s[|s| - 1]) <= 0 {
      assert init[k] == s[k];
    }
  }

  /** Sorting a sorted list changes nothing, so sorting twice is sorting once. */
  lemma {:induction false} SortOfSorted<T(!new)>(s: seq<T>, cmp: Comparator<T>)
    requires Consistent(cmp)
    requires Sorted(s, cmp)
    ensures Sort(s, cmp) == s
  {
    if s != [] {
      var init, last := s[..|s| - 1], s[|s| - 1];
      SortedInit(s, cmp);
      forall k | 0 <= k < |init| ensures cmp(last, init[k]) >= 0 {
        ConsistentFacts(cmp, init[k], last, last);
      }
      calc {
        Sort(s, cmp);
        Insert(last, Sort(init, cmp), cmp);
        { SortOfSorted(init, cmp); }
        Insert(last, init, cmp);
        { InsertAtEnd(last, init, cmp); }
        init + [last];
        s;
      }
    }
  }

  lemma SortIdempotent<T(!new)>(s: seq<T>, cmp: Comparator<T>)
    requires Consistent(cmp)
    ensures Sort(Sort(s, cmp), cmp) == Sort(s, cmp)
  {
    SortSorted(s, cmp);
    SortOfSorted(Sort(s, cmp), cmp);
  }
}

/** The comparators of the source: compare integer keys one after another
    (`a.key - b.key` for the first key that differs) and fall back to a
    locale-aware comparison of a text field. */
module Lexicographic {
  import opened Common

  function KeyCompare(collator: Collator, ka: seq<int>, kb: seq<int>, ta: string, tb: string): int {
    if ka == [] || kb == [] then collator(ta, tb)
    else if ka[0] != kb[0] then ka[0] - kb[0]
    else KeyCompare(collator, ka[1..], kb[1..], ta, tb)
  }

  /** Keys compared first, then the text field. */
  function ByKeys<T>(collator: Collator, key: T -> seq<int>, text: T -> string): Comparator<T> {
    (a: T, b: T) => KeyCompare(collator, key(a), key(b), text(a), text(b))
  }

  lemma {:induction false} KeyCompareAntisymmetric(collator: Collator, ka: seq<int>, kb: seq<int>, ta: string, tb: string)
    requires Consistent(collator)
    ensures KeyCompare(collator, ka, kb, ta, tb) < 0 <==> KeyCompare(collator, kb, ka, tb, ta) > 0
  {
    if ka != [] && kb != [] && ka[0] == kb[0] {
      KeyCompareAntisymmetric(collator, ka[1..], kb[1..], ta, tb);
    }
  }

  lemma {:induction false} KeyCompareTransitive(collator: Collator, n: nat, ka: seq<int>, kb: seq<int>, kc: seq<int>,
                                                ta: string, tb: string, tc: string)
    requires Consistent(collator)
    requires |ka| == n && |kb| == n && |kc| == n
    requires KeyCompare(collator, ka, kb, ta, tb) <= 0 && KeyCompare(collator, kb, kc, tb, tc) <= 0
    ensures KeyCompare(collator, ka, kc, ta, tc) <= 0
  {
    if n == 0 {
      ConsistentFacts(collator, ta, tb, tc);
    } else if ka[0] == kb[0] && kb[0] == kc[0] {
      KeyCompareTransitive(collator, n - 1, ka[1..], kb[1..], kc[1..], ta, tb, tc);
    }
  }

  /** Comparing equal-length keys gives zero only when all keys agree and the
      texts compare equal. */
  lemma {:induction false} KeyCompareZero(collator: Collator, ka: seq<int>, kb: seq<int>, ta: string, tb: string)
    requires |ka| == |kb|
    requires KeyCompare(collator, ka, kb, ta, tb) == 0
    ensures ka == kb && collator(ta, tb) == 0
  {
    if ka != [] {
      KeyCompareZero(collator, ka[1..], kb[1..], ta, tb);
      assert ka == [ka[0]] + ka[1..] && kb == [kb[0]] + kb[1..];
    }
  }

  lemma KeyCompareSingle(collator: Collator, x: int, y: int, ta: string, tb: string)
    ensures KeyCompare(collator, [x], [y], ta, tb) <= 0 <==> x < y || (x == y && collator(ta, tb) <= 0)
  {
    if x == y {
      assert KeyCompare(collator, [x], [y], ta, tb) == KeyCompare(collator, [], [], ta, tb);
    }
  }

  /** With a consistent collator and keys of one fixed length, `ByKeys` is a
      consistent comparator. */
  lemma ByKeysConsistent<T(!new)>(collator: Collator, key: T -> seq<int>, text: T -> string, n: nat)
    requires Consistent(collator)
    requires forall x :: |key(x)| == n
    ensures Consistent(ByKeys(collator, key, text))
  {
    var cmp := ByKeys(collator, key, text);
    forall a, b ensures cmp(a, b) < 0 <==> cmp(b, a) > 0 {
      KeyCompareAntisymmetric(collator, key(a), key(b), text(a), text(b));
    }
    forall a, b, c | cmp(a, b) <= 0 && cmp(b, c) <= 0 ensures cmp(a, c) <= 0 {
      KeyCompareTransitive(collator, n, key(a), key(b), key(c), text(a), text(b), text(c));
    }
  }
}
