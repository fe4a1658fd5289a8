/**
 * `searchApi.search`: a case-insensitive substring search over the three
 * tables, returning the matching rooms, bins and items, each in table order.
 *
 * Lower-casing is ASCII only (A-Z to a-z). The query is lower-cased once and
 * looked for with `includes`, so the empty query is found in every text and
 * matches every record.
 */
module SearchApi {
  import opened Wrappers
  import opened Types
  import Records

  datatype SearchResults = SearchResults(rooms: seq<Room>, bins: seq<Bin>, items: seq<Item>)

  function LowerChar(c: char): char {
    if 'A' <= c <= 'Z' then (c as int - 'A' as int + 'a' as int) as char else c
  }

  /** `toLowerCase` on ASCII letters; every other character is kept. */
  function Lower(s: string): (r: string)
    ensures |r| == |s|
    ensures forall k :: 0 <= k < |s| && 'A' <= s[k] <= 'Z' ==> r[k] as int == s[k] as int + 32
    ensures forall k :: 0 <= k < |s| && !('A' <= s[k] <= 'Z') ==> r[k] == s[k]
  {
    seq(|s|, i requires 0 <= i < |s| => LowerChar(s[i]))
  }

  /** Lower-casing leaves no upper-case letter behind, so doing it twice changes nothing. */
  lemma LowerIdempotent(s: string)
    ensures Lower(Lower(s)) == Lower(s)
    ensures forall k :: 0 <= k < |s| ==> !('A' <= Lower(s)[k] <= 'Z')
  {
  }

  /** `hay.includes(needle)`: `needle` occurs in `hay` at some position. */
  predicate Includes(hay: string, needle: string) {
    exists k :: 0 <= k <= |hay| && needle <= hay[k..]
  }

  /** The empty string occurs in every string. */
  lemma IncludesEmpty(hay: string)
    ensures Includes(hay, "")
  {
    assert "" <= hay[0..];
  }

  /** A needle holding a character that `hay` lacks is not found in `hay`. */
  lemma NotIncludedWithoutChar(hay: string, needle: string, c: char)
    requires c in needle && c !in hay
    ensures !Includes(hay, needle)
  {
  }

  /** A text found verbatim is still found once both sides are lower-cased. */
  lemma IncludesLower(hay: string, needle: string)
    requires Includes(hay, needle)
    ensures Includes(Lower(hay), Lower(needle))
  {
    var k :| 0 <= k <= |hay| && needle <= hay[k..];
    var lh, ln := Lower(hay), Lower(needle);
    forall j | 0 <= j < |ln| ensures ln[j] == lh[k..][j] {
      assert needle[j] == hay[k..][j] == hay[k + j];
    }
    assert ln == lh[k..][..|ln|];
  }

  /** `x && x.toLowerCase().includes(q)`: an absent or empty optional text never matches. */
  predicate OptionalMatches(text: Option<string>, q: string) {
    text.Some? && text.value != "" && Includes(Lower(text.value), q)
  }

  predicate TextMatches(text: string, q: string) {
    Includes(Lower(text), q)
  }

  predicate SomeTagMatches(tags: seq<string>, q: string) {
    exists k :: 0 <= k < |tags| && TextMatches(tags[k], q)
  }

  /** A room matches on its name or its notes. */
  predicate RoomMatches(r: Room, q: string) {
    TextMatches(r.name, q) || OptionalMatches(r.notes, q)
  }

  /** A bin matches on its name, its id, any of its tags or its notes. */
  predicate BinMatches(b: Bin, q: string) {
    TextMatches(b.name, q) || TextMatches(b.id, q) || SomeTagMatches(b.tags, q) || OptionalMatches(b.notes, q)
  }

  /** An item matches on its name, any of its tags or its notes. */
  predicate ItemMatches(i: Item, q: string) {
    TextMatches(i.name, q) || SomeTagMatches(i.tags, q) || OptionalMatches(i.notes, q)
  }

  /** `search(query)` over the given tables. */
  function Search(rooms: seq<Room>, bins: seq<Bin>, items: seq<Item>, query: string): (r: SearchResults)
    ensures forall x :: x in r.rooms <==> x in rooms && RoomMatches(x, Lower(query))
    ensures forall x :: x in r.bins <==> x in bins && BinMatches(x, Lower(query))
    ensures forall x :: x in r.items <==> x in items && ItemMatches(x, Lower(query))
    ensures forall x :: multiset(r.rooms)[x] == if RoomMatches(x, Lower(query)) then multiset(rooms)[x] else 0
    ensures forall x :: multiset(r.bins)[x] == if BinMatches(x, Lower(query)) then multiset(bins)[x] else 0
    ensures forall x :: multiset(r.items)[x] == if ItemMatches(x, Lower(query)) then multiset(items)[x] else 0
    ensures Records.IsSubsequence(r.rooms, rooms)
    ensures Records.IsSubsequence(r.bins, bins)
    ensures Records.IsSubsequence(r.items, items)
  {
    var q := Lower(query);
    var roomHit := (x: Room) => RoomMatches(x, q);
    var binHit := (x: Bin) => BinMatches(x, q);
    var itemHit := (x: Item) => ItemMatches(x, q);
    Records.FilterIsSubsequence(rooms, roomHit);
    Records.FilterIsSubsequence(bins, binHit);
    Records.FilterIsSubsequence(items, itemHit);
    Records.FilterCount(rooms, roomHit);
    Records.FilterCount(bins, binHit);
    Records.FilterCount(items, itemHit);
    SearchResults(Records.Filter(rooms, roomHit), Records.Filter(bins, binHit), Records.Filter(items, itemHit))
  }

  /** The empty query matches every record: the result is the three tables themselves. */
  lemma EmptyQueryMatchesEverything(rooms: seq<Room>, bins: seq<Bin>, items: seq<Item>)
    ensures Search(rooms, bins, items, "") == SearchResults(rooms, bins, items)
  {
    var q := Lower("");
    assert q == "";
    forall x: Room ensures RoomMatches(x, q) { IncludesEmpty(Lower(x.name)); }
    forall x: Bin ensures BinMatches(x, q) { IncludesEmpty(Lower(x.name)); }
    forall x: Item ensures ItemMatches(x, q) { IncludesEmpty(Lower(x.name)); }
    Records.FilterKeepsAll(rooms, (x: Room) => RoomMatches(x, q));
    Records.FilterKeepsAll(bins, (x: Bin) => BinMatches(x, q));
    Records.FilterKeepsAll(items, (x: Item) => ItemMatches(x, q));
  }

  /** Queries that differ only in letter case give the same results. */
  lemma SearchIgnoresQueryCase(rooms: seq<Room>, bins: seq<Bin>, items: seq<Item>, query: string)
    ensures Search(rooms, bins, items, Lower(query)) == Search(rooms, bins, items, query)
  {
    LowerIdempotent(query);
  }

  /** A bin is found by any part of one of its tags, as written in the tag. */
  lemma SearchFindsByTag(rooms: seq<Room>, bins: seq<Bin>, items: seq<Item>, query: string, b: Bin, k: nat)
    requires b in bins && k < |b.tags| && Includes(b.tags[k], query)
    ensures b in Search(rooms, bins, items, query).bins
  {
    IncludesLower(b.tags[k], query);
    assert SomeTagMatches(b.tags, Lower(query));
  }

  /** A bin is found by its code typed in any mix of upper and lower case. */
  lemma SearchFindsByCodeIgnoringCase(rooms: seq<Room>, bins: seq<Bin>, items: seq<Item>, query: string, b: Bin)
    requires b in bins && Lower(query) == Lower(b.id)
    ensures b in Search(rooms, bins, items, query).bins
  {
    var q := Lower(query);
    assert q <= q[0..];
    assert TextMatches(b.id, q);
  }

  /** A room none of whose texts holds `c` does not match a query holding `c`. */
  lemma RoomLacksChar(r: Room, q: string, c: char)
    requires c in q && c !in Lower(r.name)
    requires r.notes.Some? ==> c !in Lower(r.notes.value)
    ensures !RoomMatches(r, q)
  {
    NotIncludedWithoutChar(Lower(r.name), q, c);
    if r.notes.Some? {
      NotIncludedWithoutChar(Lower(r.notes.value), q, c);
    }
  }

  /** No tag holding `c` nowhere matches a query holding `c`. */
  lemma TagsLackChar(tags: seq<string>, q: string, c: char)
    requires c in q
    requires forall k :: 0 <= k < |tags| ==> c !in Lower(tags[k])
    ensures !SomeTagMatches(tags, q)
  {
    forall k | 0 <= k < |tags| ensures !TextMatches(tags[k], q) {
      NotIncludedWithoutChar(Lower(tags[k]), q, c);
    }
  }

  lemma BinLacksChar(b: Bin, q: string, c: char)
    requires c in q && c !in Lower(b.name) && c !in Lower(b.id)
    requires forall k :: 0 <= k < |b.tags| ==> c !in Lower(b.tags[k])
    requires b.notes.Some? ==> c !in Lower(b.notes.value)
    ensures !BinMatches(b, q)
  {
    NotIncludedWithoutChar(Lower(b.name), q, c);
    NotIncludedWithoutChar(Lower(b.id), q, c);
    TagsLackChar(b.tags, q, c);
    if b.notes.Some? {
      NotIncludedWithoutChar(Lower(b.notes.value), q, c);
    }
  }

  lemma ItemLacksChar(i: Item, q: string, c: char)
    requires c in q && c !in Lower(i.name)
    requires forall k :: 0 <= k < |i.tags| ==> c !in Lower(i.tags[k])
    requires i.notes.Some? ==> c !in Lower(i.notes.value)
    ensures !ItemMatches(i, q)
  {
    NotIncludedWithoutChar(Lower(i.name), q, c);
    TagsLackChar(i.tags, q, c);
    if i.notes.Some? {
      NotIncludedWithoutChar(Lower(i.notes.value), q, c);
    }
  }

  /**
   * A query holding a character, in either case, that no searched text of any
   * record holds finds nothing: every name, code, tag and note is checked.
   */
  lemma SearchForAbsentTextFindsNothing(rooms: seq<Room>, bins: seq<Bin>, items: seq<Item>, query: string, c: char)
    requires c in Lower(query)
    requires forall r :: r in rooms ==> c !in Lower(r.name) && (r.notes.Some? ==> c !in Lower(r.notes.value))
    requires forall b :: b in bins ==> c !in Lower(b.name) && c !in Lower(b.id) && (b.notes.Some? ==> c !in Lower(b.notes.value))
    requires forall b, k :: b in bins && 0 <= k < |b.tags| ==> c !in Lower(b.tags[k])
    requires forall i :: i in items ==> c !in Lower(i.name) && (i.notes.Some? ==> c !in Lower(i.notes.value))
    requires forall i, k :: i in items && 0 <= k < |i.tags| ==> c !in Lower(i.tags[k])
    ensures Search(rooms, bins, items, query) == SearchResults([], [], [])
  {
    var q := Lower(query);
    forall r | r in rooms ensures !RoomMatches(r, q) { RoomLacksChar(r, q, c); }
    forall b | b in bins ensures !BinMatches(b, q) { BinLacksChar(b, q, c); }
    forall i | i in items ensures !ItemMatches(i, q) { ItemLacksChar(i, q, c); }
    Records.FilterDropsAll(rooms, (x: Room) => RoomMatches(x, q));
    Records.FilterDropsAll(bins, (x: Bin) => BinMatches(x, q));
    Records.FilterDropsAll(items, (x: Item) => ItemMatches(x, q));
  }
}
