/** The search page of `frontend/src/pages/Search.tsx`: the loaded songs are
    defaulted field by field, every song is ranked against the normalised
    query by a five-field rule table, the matches are stably sorted by rank,
    and the result is shown twenty per page. */
module Search {
  import opened Common
  import opened StableSort

  // ---------------------------------------------------------------------------
  // Records

  /** A song as `/api/songs/` returns it; every text field but the title may be
      missing. */
  datatype RawSong = RawSong(
    id: int,
    title: string,
    author: Option<string>,
    melody: Option<string>,
    categoryName: Option<string>,
    content: Option<string>)

  /** The page's `Song` record after defaulting. */
  datatype Song = Song(id: int, title: string, author: string, melody: string, categoryName: string, content: string)

  /** A match together with the rank it was given (`{ ...song, rank }`). */
  datatype RankedSong = RankedSong(song: Song, rank: int)

  /** `value || fallback` on an optional string: a missing value and the
      empty string are both falsy. */
  function OrDefault(value: Option<string>, fallback: string): (r: string)
    ensures value.Some? && value.value != "" ==> r == value.value
    ensures value.None? || value.value == "" ==> r == fallback
  {
    if value.Some? && value.value != "" then value.value else fallback
  }

  /** The `data.map` step after a successful fetch. */
  function FormatSong(raw: RawSong): (s: Song)
    ensures s.id == raw.id && s.title == raw.title
    ensures s.author != "" && s.melody != "" && s.categoryName != ""
    ensures raw.author.Some? && raw.author.value != "" ==> s.author == raw.author.value
    ensures raw.author.None? || raw.author.value == "" ==> s.author == "Unknown"
    ensures raw.melody.Some? && raw.melody.value != "" ==> s.melody == raw.melody.value
    ensures raw.melody.None? || raw.melody.value == "" ==> s.melody == "Unknown"
    ensures raw.categoryName.Some? && raw.categoryName.value != "" ==> s.categoryName == raw.categoryName.value
    ensures raw.categoryName.None? || raw.categoryName.value == "" ==> s.categoryName == "Unknown"
    ensures raw.content.Some? ==> s.content == raw.content.value
    ensures raw.content.None? ==> s.content == ""
  {
    Song(raw.id, raw.title, OrDefault(raw.author, "Unknown"), OrDefault(raw.melody, "Unknown"),
         OrDefault(raw.categoryName, "Unknown"), OrDefault(raw.content, ""))
  }

  /** A formatted song read back as a fetched record. */
  function AsRaw(s: Song): RawSong {
    RawSong(s.id, s.title, Some(s.author), Some(s.melody), Some(s.categoryName), Some(s.content))
  }

  /** Defaulting is idempotent: a formatted song formats to itself. */
  lemma FormatSongIdempotent(raw: RawSong)
    ensures FormatSong(AsRaw(FormatSong(raw))) == FormatSong(raw)
  {
    var s := FormatSong(raw);
    assert FormatSong(AsRaw(s)).content == s.content;
  }

  function FormatAll(raws: seq<RawSong>): (r: seq<Song>)
    ensures |r| == |raws|
    ensures forall i :: 0 <= i < |raws| ==> r[i] == FormatSong(raws[i])
  {
    seq(|raws|, i requires 0 <= i < |raws| => FormatSong(raws[i]))
  }

  // ---------------------------------------------------------------------------
  // The query

  /** The characters `String.prototype.trim` removes: WhiteSpace and
      LineTerminator of sections 12.2 and 12.3 of ECMA-262. */
  predicate IsJsWhitespace(c: char) {
    || c == '\U{0009}' || c == '\U{000B}' || c == '\U{000C}' || c == '\U{0020}' || c == '\U{00A0}'
    || c == '\U{FEFF}' || c == '\U{000A}' || c == '\U{000D}' || c == '\U{2028}' || c == '\U{2029}'
    || c == '\U{1680}' || ('\U{2000}' <= c <= '\U{200A}') || c == '\U{202F}' || c == '\U{205F}'
    || c == '\U{3000}'
  }

  function TrimStart(s: string): (r: string)
    ensures |r| <= |s| && r == s[|s| - |r|..]
    ensures r != [] ==> !IsJsWhitespace(r[0])
    ensures forall k :: 0 <= k < |s| - |r| ==> IsJsWhitespace(s[k])
  {
    if s != [] && IsJsWhitespace(s[0]) then TrimStart(s[1..]) else s
  }

  function TrimEnd(s: string): (r: string)
    ensures |r| <= |s| && r == s[..|r|]
    ensures r != [] ==> !IsJsWhitespace(r[|r| - 1])
    ensures forall k :: |r| <= k < |s| ==> IsJsWhitespace(s[k])
  {
    if s != [] && IsJsWhitespace(s[|s| - 1]) then TrimEnd(s[..|s| - 1]) else s
  }

  /** `String.prototype.trim`. */
  function Trim(s: string): string {
    TrimEnd(TrimStart(s))
  }

  /** `!searchQuery.trim()`: the trimmed query is the empty string. */
  predicate IsBlank(query: string) {
    Trim(query) == ""
  }

  /** A query is blank exactly when every character of it is whitespace. */
  lemma BlankIffAllWhitespace(query: string)
    ensures IsBlank(query) <==> forall k :: 0 <= k < |query| ==> IsJsWhitespace(query[k])
  {
    var t := TrimStart(query);
  }

  /** `haystack.includes(needle)`. */
  predicate Includes(haystack: string, needle: string) {
    if |needle| <= |haystack| && haystack[..|needle|] == needle then true
    else if haystack == [] then false
    else Includes(haystack[1..], needle)
  }

  /** `needle` occurs in `haystack` at offset `i`. */
  predicate OccursAt(haystack: string, needle: string, i: int) {
    0 <= i && i + |needle| <= |haystack| && haystack[i..i + |needle|] == needle
  }

  /** `includes` finds the needle at some offset of the haystack. */
  lemma {:induction false} IncludesIff(haystack: string, needle: string)
    ensures Includes(haystack, needle) <==> exists i :: OccursAt(haystack, needle, i)
  {
    if |needle| <= |haystack| && haystack[..|needle|] == needle {
      assert OccursAt(haystack, needle, 0);
    } else if haystack == [] {
    } else {
      IncludesIff(haystack[1..], needle);
      if exists i :: OccursAt(haystack, needle, i) {
        var i :| OccursAt(haystack, needle, i);
        OccursInTail(haystack, needle, i);
      }
      if Includes(haystack[1..], needle) {
        var i :| OccursAt(haystack[1..], needle, i);
        OccursAfterHead(haystack, needle, i);
      }
    }
  }

  /** An occurrence past the first offset is an occurrence in the tail. */
  lemma {:induction false} OccursInTail(haystack: string, needle: string, i: int)
    requires haystack != [] && OccursAt(haystack, needle, i) && i != 0
    ensures OccursAt(haystack[1..], needle, i - 1)
  {
    assert haystack[1..][i - 1..i - 1 + |needle|] == haystack[i..i + |needle|];
  }

  /** An occurrence in the tail is an occurrence one offset later. */
  lemma {:induction false} OccursAfterHead(haystack: string, needle: string, i: int)
    requires haystack != [] && OccursAt(haystack[1..], needle, i)
    ensures OccursAt(haystack, needle, i + 1)
  {
    assert haystack[1..][i..i + |needle|] == haystack[i + 1..i + 1 + |needle|];
  }

  lemma IncludesItself(s: string)
    ensures Includes(s, s)
  {
    assert s[..|s|] == s;
  }

  // ---------------------------------------------------------------------------
  // Ranking

  /** One line of the rank table: a normalised field, the rank of an exact
      match and the rank of a substring match. */
  datatype Rule = Rule(field: string, exact: int, partial: int)

  /** The rank table of `rankSong`, in priority order. */
  function RankRules(song: Song, norm: string -> string): (rules: seq<Rule>)
    ensures |rules| == 5
    ensures forall i :: 0 <= i < |rules| ==> 1 <= rules[i].exact <= rules[i].partial <= 7
  {
    [ Rule(norm(song.title), 1, 2),
      Rule(norm(song.author), 3, 4),
      Rule(norm(OrDefault(Some(song.content), "")), 5, 5),
      Rule(norm(song.melody), 6, 7),
      Rule(norm(song.categoryName), 6, 7) ]
  }

  /** The rank of the first rule whose field contains the query. */
  function FirstHit(rules: seq<Rule>, query: string): Option<int> {
    if rules == [] then None
    else if Includes(rules[0].field, query) then Some(RuleRank(rules[0], query))
    else FirstHit(rules[1..], query)
  }

  /** No rank iff no rule's field contains the query; otherwise the rank of
      the first rule whose field does. */
  lemma {:induction false} FirstHitSpec(rules: seq<Rule>, query: string)
    ensures FirstHit(rules, query).None? <==> forall i :: 0 <= i < |rules| ==> !Includes(rules[i].field, query)
    ensures FirstHit(rules, query).Some? ==>
      exists i :: 0 <= i < |rules| && FirstHitAt(rules, query, i) && FirstHit(rules, query).value == RuleRank(rules[i], query)
  {
    if rules != [] {
      if Includes(rules[0].field, query) {
        assert FirstHitAt(rules, query, 0);
      } else {
        var tail := rules[1..];
        FirstHitSpec(tail, query);
        assert forall i :: 1 <= i < |rules| ==> rules[i] == tail[i - 1];
        if FirstHit(tail, query).Some? {
          var i :| 0 <= i < |tail| && FirstHitAt(tail, query, i) && FirstHit(tail, query).value == RuleRank(tail[i], query);
          assert FirstHitAt(rules, query, i + 1);
        }
      }
    }
  }

  /** Rule `i` is the first whose field contains the query. */
  predicate FirstHitAt(rules: seq<Rule>, query: string, i: int)
    requires 0 <= i < |rules|
  {
    Includes(rules[i].field, query) && forall j :: 0 <= j < i ==> !Includes(rules[j].field, query)
  }

  /** The rank a hit on `rule` gives: the exact rank when the field equals the query. */
  function RuleRank(rule: Rule, query: string): int {
    if rule.field == query then rule.exact else rule.partial
  }

  /** `rankSong(song)` for the normalised query `queryNorm`: five guarded
      assignments to `rank`, each taken only while no earlier one has. */
  function RankSong(song: Song, queryNorm: string, norm: string -> string): Option<int> {
    var titleNorm, authorNorm, melodyNorm := norm(song.title), norm(song.author), norm(song.melody);
    var categoryNorm, contentNorm := norm(song.categoryName), norm(OrDefault(Some(song.content), ""));
    var rank := None;
    var rank := if Includes(titleNorm, queryNorm) then Some(if titleNorm == queryNorm then 1 else 2) else rank;
    var rank := if rank.None? && Includes(authorNorm, queryNorm) then Some(if authorNorm == queryNorm then 3 else 4) else rank;
    var rank := if rank.None? && Includes(contentNorm, queryNorm) then Some(5) else rank;
    var rank := if rank.None? && Includes(melodyNorm, queryNorm) then Some(if melodyNorm == queryNorm then 6 else 7) else rank;
    var rank := if rank.None? && Includes(categoryNorm, queryNorm) then Some(if categoryNorm == queryNorm then 6 else 7) else rank;
    rank
  }

  /** One unrolling of `FirstHit` on the table from rule `k` on. */
  function FirstHitFrom(rules: seq<Rule>, query: string, k: nat): Option<int>
    requires k < |rules|
  {
    if Includes(rules[k].field, query) then Some(RuleRank(rules[k], query)) else FirstHit(rules[k + 1..], query)
  }

  /** `FirstHit` on a table of five rules, unrolled. */
  lemma FirstHitOfFive(rules: seq<Rule>, query: string)
    requires |rules| == 5
    ensures FirstHit(rules, query) ==
      if Includes(rules[0].field, query) then Some(RuleRank(rules[0], query))
      else if Includes(rules[1].field, query) then Some(RuleRank(rules[1], query))
      else if Includes(rules[2].field, query) then Some(RuleRank(rules[2], query))
      else if Includes(rules[3].field, query) then Some(RuleRank(rules[3], query))
      else if Includes(rules[4].field, query) then Some(RuleRank(rules[4], query))
      else None
  {
    assert rules[5..] == [];
    assert FirstHit(rules[4..], query) == FirstHitFrom(rules, query, 4);
    assert FirstHit(rules[3..], query) == FirstHitFrom(rules, query, 3) by { assert rules[3..][1..] == rules[4..]; }
    assert FirstHit(rules[2..], query) == FirstHitFrom(rules, query, 2) by { assert rules[2..][1..] == rules[3..]; }
    assert FirstHit(rules[1..], query) == FirstHitFrom(rules, query, 1) by { assert rules[1..][1..] == rules[2..]; }
  }

  /** The guarded assignments compute the first hit of the rank table. */
  lemma RankSongIsFirstHit(song: Song, queryNorm: string, norm: string -> string)
    ensures RankSong(song, queryNorm, norm) == FirstHit(RankRules(song, norm), queryNorm)
  {
    var rules := RankRules(song, norm);
    FirstHitOfFive(rules, queryNorm);
    assert rules[0] == Rule(norm(song.title), 1, 2);
    assert rules[1] == Rule(norm(song.author), 3, 4);
    assert rules[2] == Rule(norm(OrDefault(Some(song.content), "")), 5, 5);
    assert rules[3] == Rule(norm(song.melody), 6, 7);
    assert rules[4] == Rule(norm(song.categoryName), 6, 7);
  }

  /** The rank is null exactly when none of the five normalised fields contains
      the normalised query. */
  lemma RankNoneIff(song: Song, queryNorm: string, norm: string -> string)
    ensures RankSong(song, queryNorm, norm).None? <==>
      && !Includes(norm(song.title), queryNorm)
      && !Includes(norm(song.author), queryNorm)
      && !Includes(norm(song.content), queryNorm)
      && !Includes(norm(song.melody), queryNorm)
      && !Includes(norm(song.categoryName), queryNorm)
  {
    RankSongIsFirstHit(song, queryNorm, norm);
    var rules := RankRules(song, norm);
    FirstHitSpec(rules, queryNorm);
    assert (&& !Includes(rules[0].field, queryNorm) && !Includes(rules[1].field, queryNorm)
            && !Includes(rules[2].field, queryNorm) && !Includes(rules[3].field, queryNorm)
            && !Includes(rules[4].field, queryNorm))
        ==> forall i :: 0 <= i < |rules| ==> !Includes(rules[i].field, queryNorm);
  }

  /** A rank comes from the first field that contains the query: the exact
      rank of that field's pair when the field equals the query, the other
      rank of the pair when it only contains it; and every rank is in 1..7. */
  lemma RankFromFirstHit(song: Song, queryNorm: string, norm: string -> string)
    requires RankSong(song, queryNorm, norm).Some?
    ensures 1 <= RankSong(song, queryNorm, norm).value <= 7
    ensures exists i :: (&& 0 <= i < 5 && FirstHitAt(RankRules(song, norm), queryNorm, i)
                         && RankSong(song, queryNorm, norm).value == RuleRank(RankRules(song, norm)[i], queryNorm))
  {
    RankSongIsFirstHit(song, queryNorm, norm);
    FirstHitSpec(RankRules(song, norm), queryNorm);
  }

  /** A title that equals the query always ranks first, and a title that only
      contains it ranks second. */
  lemma TitleHitRank(song: Song, queryNorm: string, norm: string -> string)
    requires Includes(norm(song.title), queryNorm)
    ensures RankSong(song, queryNorm, norm) == Some(if norm(song.title) == queryNorm then 1 else 2)
  {
  }

  /** An exact match of a field outranks (has a smaller rank than) a
      substring match of that field: a song that exactly matches in some field
      and has no hit before it gets the exact rank. */
  lemma ExactHitRank(song: Song, queryNorm: string, norm: string -> string, i: int)
    requires 0 <= i < 5
    requires RankRules(song, norm)[i].field == queryNorm
    requires forall j :: 0 <= j < i ==> !Includes(RankRules(song, norm)[j].field, queryNorm)
    ensures RankSong(song, queryNorm, norm) == Some(RankRules(song, norm)[i].exact)
  {
    var rules := RankRules(song, norm);
    RankSongIsFirstHit(song, queryNorm, norm);
    FirstHitSpec(rules, queryNorm);
    IncludesItself(queryNorm);
    var r := FirstHit(rules, queryNorm);
    assert r.Some?;
    var k :| 0 <= k < |rules| && FirstHitAt(rules, queryNorm, k) && r.value == RuleRank(rules[k], queryNorm);
    assert k == i;
  }

  // ---------------------------------------------------------------------------
  // Filtering and sorting

  /** `songs.map(...).filter(...)`: every song with a rank, with that rank, in
      input order. */
  function WithRanks(songs: seq<Song>, queryNorm: string, norm: string -> string): (r: seq<RankedSong>)
    ensures |r| <= |songs|
    ensures forall x :: x in r ==> RankSong(x.song, queryNorm, norm) == Some(x.rank)
  {
    if songs == [] then []
    else
      var rank := RankSong(songs[0], queryNorm, norm);
      (if rank.Some? then [RankedSong(songs[0], rank.value)] else []) + WithRanks(songs[1..], queryNorm, norm)
  }

  /** The songs a query matches. */
  function IsHit(queryNorm: string, norm: string -> string): Song -> bool {
    (s: Song) => RankSong(s, queryNorm, norm).Some?
  }

  function Strip(rs: seq<RankedSong>): (r: seq<Song>)
    ensures |r| == |rs|
    ensures forall i :: 0 <= i < |rs| ==> r[i] == rs[i].song
  {
    seq(|rs|, i requires 0 <= i < |rs| => rs[i].song)
  }

  lemma {:induction false} StripAppend(a: seq<RankedSong>, b: seq<RankedSong>)
    ensures Strip(a + b) == Strip(a) + Strip(b)
  {
  }

  /** The ranked songs are exactly the hits, in input order. */
  lemma {:induction false} WithRanksAreHits(songs: seq<Song>, queryNorm: string, norm: string -> string)
    ensures Strip(WithRanks(songs, queryNorm, norm)) == Filter(songs, IsHit(queryNorm, norm))
  {
    if songs != [] {
      WithRanksAreHits(songs[1..], queryNorm, norm);
      var rank := RankSong(songs[0], queryNorm, norm);
      var head: seq<RankedSong> := if rank.Some? then [RankedSong(songs[0], rank.value)] else [];
      StripAppend(head, WithRanks(songs[1..], queryNorm, norm));
      assert Strip(head) == if IsHit(queryNorm, norm)(songs[0]) then [songs[0]] else [];
    }
  }

  /** `(a, b) => a.rank - b.rank`. */
  function RankDifference(a: RankedSong, b: RankedSong): int {
    a.rank - b.rank
  }

  lemma RankDifferenceConsistent()
    ensures Consistent(RankDifference)
  {
  }

  function HasRank(k: int): RankedSong -> bool {
    (x: RankedSong) => x.rank == k
  }

  /** The songs of rank `lo`, then those of rank `lo + 1`, and so on up to
      `hi`, each group in the order of `rs`. */
  function Buckets(rs: seq<RankedSong>, lo: int, hi: int): seq<RankedSong>
    decreases hi - lo
  {
    if lo > hi then [] else Filter(rs, HasRank(lo)) + Buckets(rs, lo + 1, hi)
  }

  /** The matches sorted by rank (the sort of lines 104-110). */
  function SortByRank(rs: seq<RankedSong>): seq<RankedSong> {
    Sort(rs, RankDifference)
  }

  /** The `filteredSongs` the query yields: the loaded list itself for a blank
      query, and otherwise the matches sorted by rank. */
  function FilterSongs(songs: seq<Song>, query: string, norm: string -> string): (r: seq<Song>)
    ensures IsBlank(query) ==> r == songs
  {
    if IsBlank(query) then songs
    else Strip(SortByRank(WithRanks(songs, norm(query), norm)))
  }

  lemma {:induction false} BucketsOfEmpty(lo: int, hi: int)
    ensures Buckets([], lo, hi) == []
    decreases hi - lo
  {
    if lo <= hi {
      BucketsOfEmpty(lo + 1, hi);
    }
  }

  /** An element whose rank lies outside `lo..hi` is in no bucket. */
  lemma {:induction false} BucketsSkip(x: RankedSong, t: seq<RankedSong>, lo: int, hi: int)
    requires !(lo <= x.rank <= hi)
    ensures Buckets([x] + t, lo, hi) == Buckets(t, lo, hi)
    decreases hi - lo
  {
    if lo <= hi {
      var xt := [x] + t;
      var f := Filter(t, HasRank(lo));
      BucketsSkip(x, t, lo + 1, hi);
      FilterCons(x, t, HasRank(lo));
      assert !HasRank(lo)(x);
      assert Filter(xt, HasRank(lo)) == [] + f == f;
      assert Buckets(xt, lo, hi) == Filter(xt, HasRank(lo)) + Buckets(xt, lo + 1, hi);
      assert Buckets(t, lo, hi) == f + Buckets(t, lo + 1, hi);
    }
  }

  /** A bucket below the least rank of a list is empty. */
  lemma NoSmallerRank(t: seq<RankedSong>, r: int, lo: int)
    requires forall k :: 0 <= k < |t| ==> r <= t[k].rank
    requires lo < r
    ensures Filter(t, HasRank(lo)) == []
  {
    forall y | y in t ensures !HasRank(lo)(y) {
      var k :| 0 <= k < |t| && t[k] == y;
    }
    NoneMatch(t, HasRank(lo));
  }

  /** A least element at the front stays at the front. */
  lemma {:induction false} BucketsCons(x: RankedSong, t: seq<RankedSong>, lo: int, hi: int)
    requires lo <= x.rank <= hi
    requires forall k :: 0 <= k < |t| ==> x.rank <= t[k].rank
    ensures Buckets([x] + t, lo, hi) == [x] + Buckets(t, lo, hi)
    decreases hi - lo
  {
    if x.rank == lo {
      BucketsConsHere(x, t, lo, hi);
    } else {
      BucketsCons(x, t, lo + 1, hi);
      BucketsConsAbove(x, t, lo, hi);
    }
  }

  /** An element of rank `lo` heads the bucket of rank `lo`. */
  lemma BucketsConsHere(x: RankedSong, t: seq<RankedSong>, lo: int, hi: int)
    requires x.rank == lo <= hi
    ensures Buckets([x] + t, lo, hi) == [x] + Buckets(t, lo, hi)
  {
    var f := Filter(t, HasRank(lo));
    var b := Buckets(t, lo + 1, hi);
    calc {
      Buckets([x] + t, lo, hi);
      Filter([x] + t, HasRank(lo)) + Buckets([x] + t, lo + 1, hi);
      { FilterCons(x, t, HasRank(lo)); assert HasRank(lo)(x); }
      ([x] + f) + Buckets([x] + t, lo + 1, hi);
      { BucketsSkip(x, t, lo + 1, hi); }
      ([x] + f) + b;
      [x] + (f + b);
      [x] + Buckets(t, lo, hi);
    }
  }

  /** Below the rank of a least element the buckets are empty, so it heads
      the buckets from `lo` on once it heads those from `lo + 1` on. */
  lemma BucketsConsAbove(x: RankedSong, t: seq<RankedSong>, lo: int, hi: int)
    requires lo < x.rank <= hi
    requires forall k :: 0 <= k < |t| ==> x.rank <= t[k].rank
    requires Buckets([x] + t, lo + 1, hi) == [x] + Buckets(t, lo + 1, hi)
    ensures Buckets([x] + t, lo, hi) == [x] + Buckets(t, lo, hi)
  {
    var xt := [x] + t;
    var b := Buckets(t, lo + 1, hi);
    assert Buckets(t, lo, hi) == Filter(t, HasRank(lo)) + b;
    assert Buckets(xt, lo, hi) == Filter(xt, HasRank(lo)) + Buckets(xt, lo + 1, hi);
    FilterCons(x, t, HasRank(lo));
    assert !HasRank(lo)(x);
    NoSmallerRank(t, x.rank, lo);
    assert [] + ([x] + b) == [x] + ([] + b);
  }

  /** A list sorted by rank, with ranks in `lo..hi`, is the concatenation of its buckets. */
  lemma {:induction false} SortedIsBuckets(s: seq<RankedSong>, lo: int, hi: int)
    requires Sorted(s, RankDifference)
    requires forall k :: 0 <= k < |s| ==> lo <= s[k].rank <= hi
    ensures Buckets(s, lo, hi) == s
  {
    if s == [] {
      BucketsOfEmpty(lo, hi);
    } else {
      var t := s[1..];
      assert Sorted(t, RankDifference) by {
        forall i, j | 0 <= i < j < |t| ensures RankDifference(t[i], t[j]) <= 0 {
          assert t[i] == s[i + 1] && t[j] == s[j + 1];
          assert RankDifference(s[i + 1], s[j + 1]) <= 0;
        }
      }
      forall k | 0 <= k < |t| ensures s[0].rank <= t[k].rank {
        assert RankDifference(s[0], s[k + 1]) <= 0;
      }
      SortedIsBuckets(t, lo, hi);
      BucketsCons(s[0], t, lo, hi);
      assert s == [s[0]] + t;
    }
  }

  /** Lists that agree on every bucket have the same buckets. */
  lemma {:induction false} BucketsAgree(a: seq<RankedSong>, b: seq<RankedSong>, lo: int, hi: int)
    requires forall k :: lo <= k <= hi ==> Filter(a, HasRank(k)) == Filter(b, HasRank(k))
    ensures Buckets(a, lo, hi) == Buckets(b, lo, hi)
    decreases hi - lo
  {
    if lo <= hi {
      BucketsAgree(a, b, lo + 1, hi);
    }
  }

  /** Every match carries its own rank, and that rank is in 1..7; so does
      every element of the sorted matches. */
  lemma SortedRanks(songs: seq<Song>, queryNorm: string, norm: string -> string)
    ensures var sorted := SortByRank(WithRanks(songs, queryNorm, norm));
      forall x :: x in sorted ==> RankSong(x.song, queryNorm, norm) == Some(x.rank) && 1 <= x.rank <= 7
  {
    var rs := WithRanks(songs, queryNorm, norm);
    var sorted := SortByRank(rs);
    SortPermutes(rs, RankDifference);
    forall x | x in sorted ensures RankSong(x.song, queryNorm, norm) == Some(x.rank) && 1 <= x.rank <= 7 {
      assert x in multiset(sorted);
      assert x in rs;
      RankFromFirstHit(x.song, queryNorm, norm);
    }
  }

  /** The sort by rank puts the rank-1 songs first, then the rank-2 songs, and
      so on to rank 7, and keeps the input order within each rank. */
  lemma SortByRankIsBuckets(songs: seq<Song>, queryNorm: string, norm: string -> string)
    ensures SortByRank(WithRanks(songs, queryNorm, norm)) == Buckets(WithRanks(songs, queryNorm, norm), 1, 7)
  {
    var rs := WithRanks(songs, queryNorm, norm);
    var sorted := SortByRank(rs);
    RankDifferenceConsistent();
    SortSorted(rs, RankDifference);
    SortedRanks(songs, queryNorm, norm);
    assert forall k :: 0 <= k < |sorted| ==> 1 <= sorted[k].rank <= 7;
    SortedIsBuckets(sorted, 1, 7);
    forall k | 1 <= k <= 7 ensures Filter(sorted, HasRank(k)) == Filter(rs, HasRank(k)) {
      SortStable(rs, RankDifference, HasRank(k));
    }
    BucketsAgree(sorted, rs, 1, 7);
  }

  /** For a non-blank query the result holds every matching song exactly
      once. */
  lemma FilterSongsAreHits(songs: seq<Song>, query: string, norm: string -> string)
    requires !IsBlank(query)
    ensures multiset(FilterSongs(songs, query, norm)) == multiset(Filter(songs, IsHit(norm(query), norm)))
  {
    var rs := WithRanks(songs, norm(query), norm);
    WithRanksAreHits(songs, norm(query), norm);
    StripSort(rs, RankDifference);
  }

  /** For a non-blank query every song of the result has a rank, and the
      ranks ascend. */
  lemma FilterSongsRankOrder(songs: seq<Song>, query: string, norm: string -> string)
    requires !IsBlank(query)
    ensures var r := FilterSongs(songs, query, norm);
      forall i :: 0 <= i < |r| ==> RankSong(r[i], norm(query), norm).Some?
    ensures var r := FilterSongs(songs, query, norm);
      forall i, j :: 0 <= i < j < |r| ==>
        RankSong(r[i], norm(query), norm).value <= RankSong(r[j], norm(query), norm).value
  {
    var qn := norm(query);
    var rs := WithRanks(songs, qn, norm);
    var sorted := SortByRank(rs);
    var r := FilterSongs(songs, query, norm);
    assert r == Strip(sorted);
    SortedRanks(songs, qn, norm);
    RankDifferenceConsistent();
    SortSorted(rs, RankDifference);
    forall i | 0 <= i < |r| ensures RankSong(r[i], qn, norm) == Some(sorted[i].rank) {
      assert sorted[i] in sorted;
    }
    forall i, j | 0 <= i < j < |r| ensures sorted[i].rank <= sorted[j].rank {
      assert RankDifference(sorted[i], sorted[j]) <= 0;
    }
  }

  /** For a non-blank query the result is the rank-1 matches in loading
      order, then the rank-2 matches, and so on to rank 7: the sort by rank is
      stable. */
  lemma FilterSongsBuckets(songs: seq<Song>, query: string, norm: string -> string)
    requires !IsBlank(query)
    ensures FilterSongs(songs, query, norm) == Strip(Buckets(WithRanks(songs, norm(query), norm), 1, 7))
  {
    SortByRankIsBuckets(songs, norm(query), norm);
  }

  lemma {:induction false} StripInsert(x: RankedSong, s: seq<RankedSong>, cmp: Comparator<RankedSong>)
    ensures multiset(Strip(Insert(x, s, cmp))) == multiset(Strip(s)) + multiset{x.song}
  {
    if s == [] {
      assert Strip([x]) == [x.song];
    } else if cmp(x, s[0]) < 0 {
      InsertFront(x, s, cmp);
      StripCons(x, s);
    } else {
      var rest := Insert(x, s[1..], cmp);
      InsertPast(x, s, cmp);
      StripInsert(x, s[1..], cmp);
      StripCons(s[0], rest);
      StripCons(s[0], s[1..]);
      assert s == [s[0]] + s[1..];
    }
  }

  lemma StripCons(x: RankedSong, s: seq<RankedSong>)
    ensures multiset(Strip([x] + s)) == multiset{x.song} + multiset(Strip(s))
  {
    StripAppend([x], s);
    assert Strip([x]) == [x.song];
  }

  lemma StripSnoc(s: seq<RankedSong>, x: RankedSong)
    ensures multiset(Strip(s + [x])) == multiset(Strip(s)) + multiset{x.song}
  {
    StripAppend(s, [x]);
    assert Strip([x]) == [x.song];
  }

  /** Sorting the matches keeps the multiset of their songs. */
  lemma {:induction false} StripSort(s: seq<RankedSong>, cmp: Comparator<RankedSong>)
    ensures multiset(Strip(Sort(s, cmp))) == multiset(Strip(s))
  {
    if s != [] {
      var init, last := s[..|s| - 1], s[|s| - 1];
      var sorted := Sort(init, cmp);
      assert s == init + [last];
      SortSnoc(init, last, cmp);
      StripSort(init, cmp);
      StripInsert(last, sorted, cmp);
      StripSnoc(init, last);
    }
  }

  // ---------------------------------------------------------------------------
  // Paging

  const ResultsPerPage: int := 20

  /** `Math.ceil(filteredSongs.length / resultsPerPage)`. */
  function TotalPages(n: nat): (t: nat)
    ensures t * ResultsPerPage >= n
    ensures t > 0 ==> (t - 1) * ResultsPerPage < n
  {
    (n + ResultsPerPage - 1) / ResultsPerPage
  }

  /** `filteredSongs.slice(indexOfFirstResult, indexOfLastResult)` on page `page`. */
  function PageResults<T>(filtered: seq<T>, page: int): (r: seq<T>)
    ensures |r| <= ResultsPerPage
  {
    var last := page * ResultsPerPage;
    JsSlice(filtered, last - ResultsPerPage, last)
  }

  /** Result `i` is shown on page `i / 20 + 1`, at position `i % 20`, and that
      page is one of the `TotalPages` pages. */
  lemma PageOfResult<T>(filtered: seq<T>, i: int)
    requires 0 <= i < |filtered|
    ensures 1 <= i / ResultsPerPage + 1 <= TotalPages(|filtered|)
    ensures var page := PageResults(filtered, i / ResultsPerPage + 1);
      i % ResultsPerPage < |page| && page[i % ResultsPerPage] == filtered[i]
  {
    var p := i / ResultsPerPage + 1;
    var first := (p - 1) * ResultsPerPage;
    assert first == i - i % ResultsPerPage;
    var n := |filtered|;
    var end := if p * ResultsPerPage <= n then p * ResultsPerPage else n;
    assert PageResults(filtered, p) == filtered[first..end];
  }

  /** A page inside `1..TotalPages` is a contiguous run of the results and is
      not empty. */
  lemma PageInRange<T>(filtered: seq<T>, page: int)
    requires 1 <= page <= TotalPages(|filtered|)
    ensures var first := (page - 1) * ResultsPerPage;
      var end := if page * ResultsPerPage <= |filtered| then page * ResultsPerPage else |filtered|;
      first < end && PageResults(filtered, page) == filtered[first..end]
  {
  }

  /** `handleNextPage`: one page on while there is one. */
  function NextPage(current: int, totalPages: int): (p: int)
    ensures current < totalPages ==> p == current + 1
    ensures current >= totalPages ==> p == current
  {
    if current < totalPages then current + 1 else current
  }

  /** `handlePrevPage`: one page back while not on the first. */
  function PrevPage(current: int): (p: int)
    ensures current > 1 ==> p == current - 1
    ensures current <= 1 ==> p == current
  {
    if current > 1 then current - 1 else current
  }

  /** Neither handler leaves the range `1..max(totalPages, 1)`, and going on
      and back returns to the same page. */
  lemma PageHandlersStayInRange(current: int, totalPages: int)
    requires 1 <= current && (current <= totalPages || current == 1)
    ensures 1 <= NextPage(current, totalPages) && (NextPage(current, totalPages) <= totalPages || NextPage(current, totalPages) == 1)
    ensures 1 <= PrevPage(current) && (PrevPage(current) <= totalPages || PrevPage(current) == 1)
    ensures current < totalPages ==> PrevPage(NextPage(current, totalPages)) == current
  {
  }

  /** The page's state: the loaded songs, the query, the filtered list and the
      current page. */
  class SearchState {
    var songs: seq<Song>
    var query: string
    var filtered: seq<Song>
    var currentPage: int

    /** The `normalize` helper (NFD, combining marks removed, lower case),
        left uninterpreted. */
    const norm: string -> string

    /** The page stays within `1..totalPages`; with no results it is 1. */
    ghost predicate Valid()
      reads this
    {
      1 <= currentPage && (currentPage <= TotalPages(|filtered|) || currentPage == 1)
    }

    constructor (norm: string -> string)
      ensures Valid()
      ensures this.norm == norm && songs == [] && query == "" && filtered == [] && currentPage == 1
    {
      this.norm := norm;
      songs, query, filtered, currentPage := [], "", [], 1;
    }

    /** The songs loaded and formatted; the filtering effect then runs again
        because `songs` changed. */
    method Load(data: seq<RawSong>)
      requires Valid()
      modifies this
      ensures Valid()
      ensures songs == FormatAll(data) && query == old(query)
      ensures filtered == FilterSongs(songs, query, norm) && currentPage == 1
    {
      songs := FormatAll(data);
      filtered := FilterSongs(songs, query, norm);
      currentPage := 1;
    }

    /** A new query: the page is reset to 1 and the list re-filtered. */
    method SetQuery(q: string)
      requires Valid()
      modifies this
      ensures Valid()
      ensures query == q && songs == old(songs)
      ensures filtered == FilterSongs(songs, q, norm) && currentPage == 1
    {
      var f := FilterSongs(songs, q, norm);
      query, filtered, currentPage := q, f, 1;
    }

    /** The songs shown on the current page. */
    function CurrentResults(): (r: seq<Song>)
      reads this
      ensures |r| <= ResultsPerPage
    {
      PageResults(filtered, currentPage)
    }

    method HandleNextPage()
      requires Valid()
      modifies this
      ensures Valid()
      ensures currentPage == NextPage(old(currentPage), TotalPages(|filtered|))
      ensures songs == old(songs) && query == old(query) && filtered == old(filtered)
    {
      if currentPage < TotalPages(|filtered|) {
        currentPage := currentPage + 1;
      }
    }

    method HandlePrevPage()
      requires Valid()
      modifies this
      ensures Valid()
      ensures currentPage == PrevPage(old(currentPage))
      ensures songs == old(songs) && query == old(query) && filtered == old(filtered)
    {
      if currentPage > 1 {
        currentPage := currentPage - 1;
      }
    }

    /** A click on the page button with index `i` (labelled `i + 1`); the
        buttons are rendered for `i` in `0..totalPages`. */
    method ClickPageButton(i: int)
      requires Valid()
      requires 0 <= i < TotalPages(|filtered|)
      modifies this
      ensures Valid()
      ensures currentPage == i + 1
      ensures songs == old(songs) && query == old(query) && filtered == old(filtered)
    {
      currentPage := i + 1;
    }

    /** `disabled={currentPage === 1}` on the previous-page button. */
    predicate PrevDisabled()
      reads this
    {
      currentPage == 1
    }

    /** `disabled={currentPage === totalPages}` on the next-page button. */
    predicate NextDisabled()
      reads this
    {
      currentPage == TotalPages(|filtered|)
    }

    /** While results are shown, a disabled button is exactly a handler that
        would not move. */
    lemma DisabledIffStuck()
      requires Valid() && |filtered| > 0
      ensures PrevDisabled() <==> PrevPage(currentPage) == currentPage
      ensures NextDisabled() <==> NextPage(currentPage, TotalPages(|filtered|)) == currentPage
    {
    }
  }
}
