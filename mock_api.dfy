/**
 * The simulated back end: four module-level tables (rooms, bins, items,
 * tags) with lookups, scoped queries, creation with generated ids, updates
 * that merge a partial record into the first match, and deletion of the
 * first match.
 *
 * The simulated latency of every call is not modelled: each call is one
 * atomic step. The lookups and scoped queries are functions over a table;
 * the back end's own reads apply them to its fields.
 */
module MockApi {
  import opened Wrappers
  import opened Types
  import Records

  // ---- lookups and scoped queries ----

  /** `getRoom`/`getBin`/`getItem`/`getTag`: the first record whose id is exactly `id`. */
  function Lookup<T>(table: seq<T>, key: T -> string, id: string): (r: Option<T>)
    ensures r.None? <==> forall k :: 0 <= k < |table| ==> key(table[k]) != id
    ensures r.Some? ==> key(r.value) == id && exists i :: Records.IsFirstMatch(table, key, id, i) && table[i] == r.value
  {
    Records.Find(table, key, id)
  }

  /** `getBinsByParent`: the bins whose parent is exactly (`parentId`, `parentType`), in table order. */
  function ChildBins(bins: seq<Bin>, parentId: string, parentType: ParentType): (r: seq<Bin>)
    ensures forall b :: b in r <==> b in bins && b.parentId == parentId && b.parentType == parentType
    ensures forall b :: multiset(r)[b] == if b.parentId == parentId && b.parentType == parentType then multiset(bins)[b] else 0
    ensures Records.IsSubsequence(r, bins)
  {
    var under := (b: Bin) => b.parentId == parentId && b.parentType == parentType;
    Records.FilterIsSubsequence(bins, under);
    Records.FilterCount(bins, under);
    Records.Filter(bins, under)
  }

  /** `getItemsByBin`: the items located in bin `binId`, in table order. */
  function ItemsInBin(items: seq<Item>, binId: string): (r: seq<Item>)
    ensures forall i :: i in r <==> i in items && i.binId == binId
    ensures forall i :: multiset(r)[i] == if i.binId == binId then multiset(items)[i] else 0
    ensures Records.IsSubsequence(r, items)
  {
    var inBin := (i: Item) => i.binId == binId;
    Records.FilterIsSubsequence(items, inBin);
    Records.FilterCount(items, inBin);
    Records.Filter(items, inBin)
  }

  /** `getTagsByType`: the tags of kind `kind` together with the tags of kind BOTH, in table order. */
  function TagsOfType(tags: seq<Tag>, kind: TagType): (r: seq<Tag>)
    ensures forall t :: t in r <==> t in tags && (t.kind == kind || t.kind == TagType.BOTH)
    ensures forall t :: multiset(r)[t] == if t.kind == kind || t.kind == TagType.BOTH then multiset(tags)[t] else 0
    ensures Records.IsSubsequence(r, tags)
  {
    var offered := (t: Tag) => t.kind == kind || t.kind == TagType.BOTH;
    Records.FilterIsSubsequence(tags, offered);
    Records.FilterCount(tags, offered);
    Records.Filter(tags, offered)
  }

  // ---- sequential ids: prefix + (table length + 1) ----

  function Digit(d: nat): (c: char)
    requires d < 10
    ensures '0' <= c <= '9'
  {
    ('0' as int + d) as char
  }

  /** The decimal text of `n`, as a template literal prints a non-negative integer. */
  function DecimalString(n: nat): (s: string)
    ensures |s| >= 1
    ensures forall k :: 0 <= k < |s| ==> '0' <= s[k] <= '9'
    ensures s[0] == '0' <==> n == 0
    ensures n < 10 <==> |s| == 1
    decreases n
  {
    if n < 10 then [Digit(n)] else DecimalString(n / 10) + [Digit(n % 10)]
  }

  /** Reads a string of decimal digits back as a number; the inverse of DecimalString. */
  function ParseDecimal(s: string): nat
    requires forall k :: 0 <= k < |s| ==> '0' <= s[k] <= '9'
    decreases |s|
  {
    if s == [] then 0
    else ParseDecimal(s[..|s| - 1]) * 10 + (s[|s| - 1] as int - '0' as int)
  }

  lemma {:induction false} ParseDecimalString(n: nat)
    ensures ParseDecimal(DecimalString(n)) == n
    decreases n
  {
    var s := DecimalString(n);
    if n >= 10 {
      ParseDecimalString(n / 10);
      assert s[..|s| - 1] == DecimalString(n / 10);
    }
  }

  const RoomPrefix := "room"
  const ItemPrefix := "item"
  const TagPrefix := "tag"

  /** The id `createRoom`/`createItem`/`createTag` give to the next record of a table holding `count`. */
  function SequentialId(prefix: string, count: nat): (id: string)
    ensures |prefix| < |id| && id[..|prefix|] == prefix
    ensures forall k :: |prefix| <= k < |id| ==> '0' <= id[k] <= '9'
    ensures id[|prefix|] != '0'
    ensures ParseDecimal(id[|prefix|..]) == count + 1
  {
    var id := prefix + DecimalString(count + 1);
    assert id[|prefix|..] == DecimalString(count + 1);
    ParseDecimalString(count + 1);
    id
  }

  /** Tables of different lengths produce different sequential ids. */
  lemma SequentialIdInjective(prefix: string, m: nat, n: nat)
    requires SequentialId(prefix, m) == SequentialId(prefix, n)
    ensures m == n
  {
  }

  /**
   * While nothing has been deleted, record `k` of a table carries the id it was
   * created with, and then the next sequential id is not held yet.
   */
  lemma SequentialIdFreshWithoutDeletes<T>(table: seq<T>, key: T -> string, prefix: string)
    requires forall k :: 0 <= k < |table| ==> key(table[k]) == SequentialId(prefix, k)
    ensures !Records.HasKey(table, key, SequentialId(prefix, |table|))
  {
  }

  /**
   * Sequential ids are not unique: after the first of two rooms is deleted,
   * the next room created receives the id of the room that is left.
   */
  lemma SequentialIdRepeatsAfterDelete(r1: Room, r2: Room)
    requires r1.id == "room1" && r2.id == "room2"
    ensures var left := Records.RemoveFirst([r1, r2], RoomKey, "room1");
            left == [r2] && SequentialId(RoomPrefix, |left|) == r2.id
  {
    assert Records.FirstIndex([r1, r2], RoomKey, "room1") == Some(0);
    assert [r1, r2][1..] == [r2];
    assert DecimalString(2) == "2";
  }

  // ---- bin codes: five characters over A-Z and 0-9 ----

  const BinIdChars := "ABCDEFGHIJKLMNOPQRSTUVWXYZ0123456789"
  const BinIdLength := 5

  /** A draw of `Math.floor(Math.random() * chars.length)`: an index into the alphabet. */
  type AlphabetIndex = d: nat | d < 36

  /** An upper-case ASCII letter or a decimal digit. */
  predicate IsCodeChar(c: char) {
    'A' <= c <= 'Z' || '0' <= c <= '9'
  }

  /** `chars.charAt(d)` for a draw `d`: the letters come first, then the digits. */
  function AlphabetChar(d: AlphabetIndex): (c: char)
    ensures IsCodeChar(c)
  {
    if d < 26 then ('A' as int + d) as char else ('0' as int + (d - 26)) as char
  }

  /** AlphabetChar spells out the alphabet string character by character. */
  lemma AlphabetCharIsCharAt()
    ensures |BinIdChars| == 36
    ensures forall d :: 0 <= d < 36 ==> AlphabetChar(d) == BinIdChars[d]
  {
  }

  /** The code spelled by the five draws starting at `start`. */
  function CodeAt(draw: nat -> AlphabetIndex, start: nat): (code: string)
    ensures |code| == BinIdLength
  {
    [AlphabetChar(draw(start)), AlphabetChar(draw(start + 1)), AlphabetChar(draw(start + 2)),
     AlphabetChar(draw(start + 3)), AlphabetChar(draw(start + 4))]
  }

  /** A generated code has five characters, each an upper-case letter or a digit. */
  predicate WellFormedCode(code: string) {
    |code| == BinIdLength && forall k :: 0 <= k < |code| ==> IsCodeChar(code[k])
  }

  lemma CodeAtWellFormed(draw: nat -> AlphabetIndex, start: nat)
    ensures WellFormedCode(CodeAt(draw, start))
  {
  }

  /** The code of the `n`-th call of `generateId` (0-based); each call consumes five draws. */
  function Attempt(draw: nat -> AlphabetIndex, n: nat): string
  {
    CodeAt(draw, BinIdLength * n)
  }

  /** `generateId`: five characters appended one at a time, the `j`-th from draw `start + j`. */
  method GenerateId(draw: nat -> AlphabetIndex, start: nat) returns (id: string)
    ensures id == CodeAt(draw, start)
  {
    id := "";
    for j := 0 to BinIdLength
      invariant |id| == j
      invariant forall k :: 0 <= k < j ==> id[k] == AlphabetChar(draw(start + k))
    {
      id := id + [AlphabetChar(draw(start + j))];
    }
  }

  /** Attempt `n` is the first whose code no bin in `bins` carries. */
  ghost predicate FirstFreeAttempt(bins: seq<Bin>, draw: nat -> AlphabetIndex, n: nat)
  {
    !Records.HasKey(bins, BinKey, Attempt(draw, n)) &&
    forall m :: 0 <= m < n ==> Records.HasKey(bins, BinKey, Attempt(draw, m))
  }

  /** The codes of attempts `0` to `n - 1` are all in `held`. */
  ghost predicate AllHeld(held: set<string>, draw: nat -> AlphabetIndex, n: nat)
  {
    n == 0 || (AllHeld(held, draw, n - 1) && Attempt(draw, n - 1) in held)
  }

  lemma {:induction false} AllHeldBelow(held: set<string>, draw: nat -> AlphabetIndex, n: nat)
    requires AllHeld(held, draw, n)
    ensures forall m :: 0 <= m < n ==> Attempt(draw, m) in held
  {
    if n > 0 {
      AllHeldBelow(held, draw, n - 1);
    }
  }

  /** Attempts are held up to `n`, and attempt `bound` is free, so `n` has not passed `bound`. */
  lemma {:induction false} AllHeldBeforeFree(held: set<string>, draw: nat -> AlphabetIndex, n: nat, bound: nat)
    requires AllHeld(held, draw, n) && Attempt(draw, bound) !in held
    ensures n <= bound
  {
    if n > bound {
      AllHeldBelow(held, draw, n);
    }
  }

  /**
   * The retry loop of `createBin`: generate a code, and generate again while
   * `held` contains it. `draw` supplies the random draws; the ghost `bound`
   * names an attempt whose code is free, which is what makes the loop finish
   * (the source does not bound it).
   */
  method RetryUntilFree(held: set<string>, draw: nat -> AlphabetIndex, ghost bound: nat) returns (code: string, ghost n: nat)
    requires Attempt(draw, bound) !in held
    ensures n <= bound && code == Attempt(draw, n)
    ensures code !in held && AllHeld(held, draw, n)
  {
    var tries: nat := 0;
    code := GenerateId(draw, 0);
    while code in held
      invariant tries <= bound
      invariant code == Attempt(draw, tries)
      invariant AllHeld(held, draw, tries)
      decreases bound - tries
    {
      tries := tries + 1;
      AllHeldBeforeFree(held, draw, tries, bound);
      code := GenerateId(draw, BinIdLength * tries);
    }
    n := tries;
  }

  /**
   * The uniqueness loop of `createBin` over the bin table: the code it settles
   * on is the first attempt that no bin carries (`mockBins.some(b => b.id === newId)`
   * is false for it and true for every earlier attempt).
   */
  method FreshCode(bins: seq<Bin>, draw: nat -> AlphabetIndex, ghost bound: nat) returns (code: string, ghost n: nat)
    requires !Records.HasKey(bins, BinKey, Attempt(draw, bound))
    ensures !Records.HasKey(bins, BinKey, code) && WellFormedCode(code)
    ensures n <= bound && code == Attempt(draw, n) && FirstFreeAttempt(bins, draw, n)
  {
    var held := Records.Keys(bins, BinKey);
    code, n := RetryUntilFree(held, draw, bound);
    AllHeldBelow(held, draw, n);
    CodeAtWellFormed(draw, BinIdLength * n);
  }

  /**
   * The back end's tables. Every method is one call of `roomApi`, `binApi`,
   * `itemApi` or `tagApi`; a method changes its own table and no other.
   */
  class Backend {
    var rooms: seq<Room>
    var bins: seq<Bin>
    var items: seq<Item>
    var tags: seq<Tag>

    /** The tables start out as the seed data they are given. */
    constructor (rooms0: seq<Room>, bins0: seq<Bin>, items0: seq<Item>, tags0: seq<Tag>)
      ensures rooms == rooms0 && bins == bins0 && items == items0 && tags == tags0
    {
      rooms, bins, items, tags := rooms0, bins0, items0, tags0;
    }

    // ---- rooms ----

    method CreateRoom(fields: RoomFields) returns (r: Room)
      modifies this
      ensures r == fields.WithId(SequentialId(RoomPrefix, |old(rooms)|))
      ensures rooms == old(rooms) + [r]
      ensures bins == old(bins) && items == old(items) && tags == old(tags)
    {
      r := fields.WithId(SequentialId(RoomPrefix, |rooms|));
      rooms := rooms + [r];
    }

    method UpdateRoom(id: string, patch: RoomPatch) returns (r: Option<Room>)
      modifies this
      ensures match Records.FirstIndex(old(rooms), RoomKey, id)
              case None => r == None && rooms == old(rooms)
              case Some(i) => r == Some(PatchRoom(old(rooms)[i], patch)) && rooms == old(rooms)[i := r.value]
      ensures bins == old(bins) && items == old(items) && tags == old(tags)
    {
      var index := Records.FirstIndex(rooms, RoomKey, id);
      match index {
        case None =>
          r := None;
        case Some(i) =>
          rooms := rooms[i := PatchRoom(rooms[i], patch)];
          r := Some(rooms[i]);
      }
    }

    method DeleteRoom(id: string) returns (ok: bool)
      modifies this
      ensures ok == Records.HasKey(old(rooms), RoomKey, id)
      ensures rooms == Records.RemoveFirst(old(rooms), RoomKey, id)
      ensures bins == old(bins) && items == old(items) && tags == old(tags)
    {
      var index := Records.FirstIndex(rooms, RoomKey, id);
      match index {
        case None =>
          ok := false;
        case Some(i) =>
          rooms := rooms[..i] + rooms[i + 1..];
          ok := true;
      }
    }

    // ---- bins ----

    /**
     * `createBin`: appends the new bin under a code no bin has (see
     * FreshCode for the retry loop and what `draw` and `bound` are).
     */
    method CreateBin(fields: BinFields, draw: nat -> AlphabetIndex, ghost bound: nat) returns (b: Bin)
      requires !Records.HasKey(bins, BinKey, Attempt(draw, bound))
      modifies this
      ensures !Records.HasKey(old(bins), BinKey, b.id)
      ensures WellFormedCode(b.id)
      ensures exists n: nat :: n <= bound && b.id == Attempt(draw, n) && FirstFreeAttempt(old(bins), draw, n)
      ensures b == fields.WithId(b.id)
      ensures bins == old(bins) + [b]
      ensures Records.DistinctKeys(old(bins), BinKey) ==> Records.DistinctKeys(bins, BinKey)
      ensures rooms == old(rooms) && items == old(items) && tags == old(tags)
    {
      var newId, attempts := FreshCode(bins, draw, bound);
      b := fields.WithId(newId);
      if Records.DistinctKeys(bins, BinKey) {
        Records.AppendUnseenKeepsDistinct(bins, BinKey, b);
      }
      bins := bins + [b];
    }

    method UpdateBin(id: string, patch: BinPatch) returns (r: Option<Bin>)
      modifies this
      ensures match Records.FirstIndex(old(bins), BinKey, id)
              case None => r == None && bins == old(bins)
              case Some(i) => r == Some(PatchBin(old(bins)[i], patch)) && bins == old(bins)[i := r.value]
      ensures rooms == old(rooms) && items == old(items) && tags == old(tags)
    {
      var index := Records.FirstIndex(bins, BinKey, id);
      match index {
        case None =>
          r := None;
        case Some(i) =>
          bins := bins[i := PatchBin(bins[i], patch)];
          r := Some(bins[i]);
      }
    }

    method DeleteBin(id: string) returns (ok: bool)
      modifies this
      ensures ok == Records.HasKey(old(bins), BinKey, id)
      ensures bins == Records.RemoveFirst(old(bins), BinKey, id)
      ensures rooms == old(rooms) && items == old(items) && tags == old(tags)
    {
      var index := Records.FirstIndex(bins, BinKey, id);
      match index {
        case None =>
          ok := false;
        case Some(i) =>
          bins := bins[..i] + bins[i + 1..];
          ok := true;
      }
    }

    // ---- items ----

    method CreateItem(fields: ItemFields) returns (r: Item)
      modifies this
      ensures r == fields.WithId(SequentialId(ItemPrefix, |old(items)|))
      ensures items == old(items) + [r]
      ensures rooms == old(rooms) && bins == old(bins) && tags == old(tags)
    {
      r := fields.WithId(SequentialId(ItemPrefix, |items|));
      items := items + [r];
    }

    method UpdateItem(id: string, patch: ItemPatch) returns (r: Option<Item>)
      modifies this
      ensures match Records.FirstIndex(old(items), ItemKey, id)
              case None => r == None && items == old(items)
              case Some(i) => r == Some(PatchItem(old(items)[i], patch)) && items == old(items)[i := r.value]
      ensures rooms == old(rooms) && bins == old(bins) && tags == old(tags)
    {
      var index := Records.FirstIndex(items, ItemKey, id);
      match index {
        case None =>
          r := None;
        case Some(i) =>
          items := items[i := PatchItem(items[i], patch)];
          r := Some(items[i]);
      }
    }

    method DeleteItem(id: string) returns (ok: bool)
      modifies this
      ensures ok == Records.HasKey(old(items), ItemKey, id)
      ensures items == Records.RemoveFirst(old(items), ItemKey, id)
      ensures rooms == old(rooms) && bins == old(bins) && tags == old(tags)
    {
      var index := Records.FirstIndex(items, ItemKey, id);
      match index {
        case None =>
          ok := false;
        case Some(i) =>
          items := items[..i] + items[i + 1..];
          ok := true;
      }
    }

    // ---- tags ----

    method CreateTag(fields: TagFields) returns (r: Tag)
      modifies this
      ensures r == fields.WithId(SequentialId(TagPrefix, |old(tags)|))
      ensures tags == old(tags) + [r]
      ensures rooms == old(rooms) && bins == old(bins) && items == old(items)
    {
      r := fields.WithId(SequentialId(TagPrefix, |tags|));
      tags := tags + [r];
    }

    method UpdateTag(id: string, patch: TagPatch) returns (r: Option<Tag>)
      modifies this
      ensures match Records.FirstIndex(old(tags), TagKey, id)
              case None => r == None && tags == old(tags)
              case Some(i) => r == Some(PatchTag(old(tags)[i], patch)) && tags == old(tags)[i := r.value]
      ensures rooms == old(rooms) && bins == old(bins) && items == old(items)
    {
      var index := Records.FirstIndex(tags, TagKey, id);
      match index {
        case None =>
          r := None;
        case Some(i) =>
          tags := tags[i := PatchTag(tags[i], patch)];
          r := Some(tags[i]);
      }
    }

    method DeleteTag(id: string) returns (ok: bool)
      modifies this
      ensures ok == Records.HasKey(old(tags), TagKey, id)
      ensures tags == Records.RemoveFirst(old(tags), TagKey, id)
      ensures rooms == old(rooms) && bins == old(bins) && items == old(items)
    {
      var index := Records.FirstIndex(tags, TagKey, id);
      match index {
        case None =>
          ok := false;
        case Some(i) =>
          tags := tags[..i] + tags[i + 1..];
          ok := true;
      }
    }
  }
}
