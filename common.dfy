/** Values and helpers shared by every part of the model: optional values
    (JavaScript `null` / `undefined`, Python `None`), the
    `Number.MAX_SAFE_INTEGER` sentinel that stands in for a missing sort key,
    locale-aware string comparison as an uninterpreted comparator, and the
    sequence operations the source takes from `Array.prototype`. */
module Common {

  datatype Option<+T> = None | Some(value: T)

  /** A value or the error that a thrown exception or a rejected promise carries. */
  datatype Result<+T, +E> = Ok(value: T) | Err(error: E)

  /** `Number.MAX_SAFE_INTEGER`, 2^53 - 1. */
  const MaxSafeInteger: int := 0x1F_FFFF_FFFF_FFFF

  /** `value ?? Number.MAX_SAFE_INTEGER`: a missing order or page number sorts
      as the largest safe integer. An explicit value equal to the sentinel ties
      with a missing one. */
  function OrderKey(value: Option<int>): (k: int)
    ensures value.Some? ==> k == value.value
    ensures value.None? ==> k == MaxSafeInteger
  {
    match value
    case None => MaxSafeInteger
    case Some(v) => v
  }

  /** A three-way comparator in the style of `Array.prototype.sort`: negative,
      zero or positive. */
  type Comparator<!T> = (T, T) -> int

  /** `String.prototype.localeCompare`, left uninterpreted: the model only
      assumes that it is a consistent comparator. */
  type Collator = Comparator<string>

  /** A comparator that orders its values as a total preorder: the sign flips
      when the arguments are swapped and "at most" is transitive. */
  ghost predicate Consistent<T(!new)>(cmp: Comparator<T>) {
    && (forall a, b :: cmp(a, b) < 0 <==> cmp(b, a) > 0)
    && (forall a, b, c {:trigger cmp(a, b), cmp(b, c), cmp(a, c)} :: cmp(a, b) <= 0 && cmp(b, c) <= 0 ==> cmp(a, c) <= 0)
  }

  lemma ConsistentFacts<T(!new)>(cmp: Comparator<T>, a: T, b: T, c: T)
    requires Consistent(cmp)
    ensures cmp(a, a) == 0
    ensures cmp(a, b) == 0 <==> cmp(b, a) == 0
    ensures cmp(a, b) > 0 ==> cmp(b, a) < 0
    ensures cmp(a, b) <= 0 || cmp(b, a) <= 0
    ensures cmp(a, b) <= 0 && cmp(b, c) <= 0 ==> cmp(a, c) <= 0
    ensures cmp(a, b) < 0 && cmp(b, c) <= 0 ==> cmp(a, c) < 0
    ensures cmp(a, b) <= 0 && cmp(b, c) < 0 ==> cmp(a, c) < 0
  {
    // Mention every application so that the axioms get instantiated.
    var ab, ba, bc, cb, ac, ca := cmp(a, b), cmp(b, a), cmp(b, c), cmp(c, b), cmp(a, c), cmp(c, a);
    var aa := cmp(a, a);
  }

  /** The subsequence of `s` whose elements satisfy `p`, in order
      (`Array.prototype.filter`). */
  function Filter<T>(s: seq<T>, p: T -> bool): (r: seq<T>)
    ensures |r| <= |s|
  {
    if s == [] then [] else (if p(s[0]) then [s[0]] else []) + Filter(s[1..], p)
  }

  lemma FilterCons<T>(x: T, s: seq<T>, p: T -> bool)
    ensures Filter([x] + s, p) == (if p(x) then [x] else []) + Filter(s, p)
  {
    assert ([x] + s)[1..] == s;
  }

  lemma {:induction false} FilterAppend<T>(a: seq<T>, b: seq<T>, p: T -> bool)
    ensures Filter(a + b, p) == Filter(a, p) + Filter(b, p)
  {
    if a == [] {
      assert a + b == b;
    } else {
      var h, t := a[0], a[1..];
      var head := if p(h) then [h] else [];
      assert a == [h] + t && a + b == [h] + (t + b);
      FilterCons(h, t + b, p);
      FilterCons(h, t, p);
      FilterAppend(t, b, p);
      assert head + (Filter(t, p) + Filter(b, p)) == (head + Filter(t, p)) + Filter(b, p);
    }
  }

  /** `Array.prototype.slice(start, end)`: negative indices count from the end,
      and both ends are clamped into `[0, |s|]`. */
  function SliceIndex(i: int, len: nat): (k: nat)
    ensures k <= len
    ensures 0 <= i <= len ==> k == i
    ensures i > len ==> k == len
  {
    if i < 0 then (if len + i < 0 then 0 else len + i) else if i > len then len else i
  }

  function JsSlice<T>(s: seq<T>, start: int, end: int): (r: seq<T>)
    ensures 0 <= start <= end <= |s| ==> r == s[start..end]
    ensures 0 <= start && |s| <= end && start <= |s| ==> r == s[start..]
    ensures |r| <= |s|
  {
    var from, to := SliceIndex(start, |s|), SliceIndex(end, |s|);
    if from < to then s[from..to] else []
  }

  /** `array[i]` in JavaScript: `undefined` (here `None`) outside the bounds. */
  function At<T>(s: seq<T>, i: int): (r: Option<T>)
    ensures r.Some? <==> 0 <= i < |s|
    ensures r.Some? ==> r.value == s[i]
  {
    if 0 <= i < |s| then Some(s[i]) else None
  }

  /** `a ?? b` on optional values. */
  function OrElse<T>(a: Option<T>, b: Option<T>): Option<T> {
    if a.Some? then a else b
  }
}
