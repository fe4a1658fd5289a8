/**
 * The record shapes of the inventory: rooms, bins, items and tags.
 *
 * Every record is a value; the stores change a list of records by replacing
 * whole records, never by patching a record from outside. `Omit<X, 'id'>`
 * (the input of a create call) is `XFields`, and `Partial<X>` (the input of
 * an update call) is `XPatch`, whose every field may be absent. For a field
 * that is itself optional, a patch can leave it alone (None), set it to
 * `undefined` (Some(None)) or set a value (Some(Some(v))).
 */
module Types {
  import opened Wrappers

  /** What a bin's `parentId` names: a room or another bin. */
  datatype ParentType = ROOM | BIN

  /** Which entity kinds a tag is offered for. */
  datatype TagType = BIN | ITEM | BOTH

  datatype Room = Room(id: string, name: string, userId: string, notes: Option<string>)

  datatype Bin = Bin(
    id: string,
    name: string,
    parentId: string,
    parentType: ParentType,
    tags: seq<string>,
    notes: Option<string>,
    userId: string)

  /** An item lives in exactly one bin; it never names a room. */
  datatype Item = Item(
    id: string,
    name: string,
    binId: string,
    quantity: int,
    tags: seq<string>,
    notes: Option<string>,
    userId: string,
    imageUrls: Option<seq<string>>)

  /** `type` of the source is `kind` here (`type` is a Dafny keyword). */
  datatype Tag = Tag(id: string, name: string, userId: string, kind: TagType)

  function RoomKey(r: Room): string { r.id }
  function BinKey(b: Bin): string { b.id }
  function ItemKey(i: Item): string { i.id }
  function TagKey(t: Tag): string { t.id }

  // ---- create inputs: every field but the id ----

  datatype RoomFields = RoomFields(name: string, userId: string, notes: Option<string>) {
    function WithId(id: string): Room { Room(id, name, userId, notes) }
  }

  datatype BinFields = BinFields(
    name: string,
    parentId: string,
    parentType: ParentType,
    tags: seq<string>,
    notes: Option<string>,
    userId: string)
  {
    function WithId(id: string): Bin { Bin(id, name, parentId, parentType, tags, notes, userId) }
  }

  datatype ItemFields = ItemFields(
    name: string,
    binId: string,
    quantity: int,
    tags: seq<string>,
    notes: Option<string>,
    userId: string,
    imageUrls: Option<seq<string>>)
  {
    function WithId(id: string): Item { Item(id, name, binId, quantity, tags, notes, userId, imageUrls) }
  }

  datatype TagFields = TagFields(name: string, userId: string, kind: TagType) {
    function WithId(id: string): Tag { Tag(id, name, userId, kind) }
  }

  // ---- update inputs: any subset of the fields, the id included ----

  datatype RoomPatch = RoomPatch(
    id: Option<string>,
    name: Option<string>,
    userId: Option<string>,
    notes: Option<Option<string>>)

  datatype BinPatch = BinPatch(
    id: Option<string>,
    name: Option<string>,
    parentId: Option<string>,
    parentType: Option<ParentType>,
    tags: Option<seq<string>>,
    notes: Option<Option<string>>,
    userId: Option<string>)

  datatype ItemPatch = ItemPatch(
    id: Option<string>,
    name: Option<string>,
    binId: Option<string>,
    quantity: Option<int>,
    tags: Option<seq<string>>,
    notes: Option<Option<string>>,
    userId: Option<string>,
    imageUrls: Option<Option<seq<string>>>)

  datatype TagPatch = TagPatch(
    id: Option<string>,
    name: Option<string>,
    userId: Option<string>,
    kind: Option<TagType>)

  /**
   * One field of a spread `{ ...x, ...patch }`: the patch's value when the patch
   * carries the field, the record's own value otherwise.
   */
  predicate Spread<V(==)>(patched: Option<V>, before: V, after: V) {
    (patched.Some? ==> after == patched.value) && (patched.None? ==> after == before)
  }

  /** `{ ...room, ...patch }`: every field the patch carries wins, the others are kept. */
  function PatchRoom(r: Room, p: RoomPatch): (out: Room)
    ensures p == RoomPatch(None, None, None, None) ==> out == r
    ensures Spread(p.id, r.id, out.id) && Spread(p.name, r.name, out.name)
    ensures Spread(p.userId, r.userId, out.userId) && Spread(p.notes, r.notes, out.notes)
  {
    Room(p.id.GetOr(r.id), p.name.GetOr(r.name), p.userId.GetOr(r.userId), p.notes.GetOr(r.notes))
  }

  /** `{ ...bin, ...patch }`. */
  function PatchBin(b: Bin, p: BinPatch): (out: Bin)
    ensures p == BinPatch(None, None, None, None, None, None, None) ==> out == b
    ensures Spread(p.id, b.id, out.id) && Spread(p.name, b.name, out.name)
    ensures Spread(p.parentId, b.parentId, out.parentId) && Spread(p.parentType, b.parentType, out.parentType)
    ensures Spread(p.tags, b.tags, out.tags) && Spread(p.notes, b.notes, out.notes)
    ensures Spread(p.userId, b.userId, out.userId)
  {
    Bin(p.id.GetOr(b.id), p.name.GetOr(b.name), p.parentId.GetOr(b.parentId),
        p.parentType.GetOr(b.parentType), p.tags.GetOr(b.tags), p.notes.GetOr(b.notes),
        p.userId.GetOr(b.userId))
  }

  /** `{ ...item, ...patch }`. */
  function PatchItem(i: Item, p: ItemPatch): (out: Item)
    ensures p == ItemPatch(None, None, None, None, None, None, None, None) ==> out == i
    ensures Spread(p.id, i.id, out.id) && Spread(p.name, i.name, out.name)
    ensures Spread(p.binId, i.binId, out.binId) && Spread(p.quantity, i.quantity, out.quantity)
    ensures Spread(p.tags, i.tags, out.tags) && Spread(p.notes, i.notes, out.notes)
    ensures Spread(p.userId, i.userId, out.userId) && Spread(p.imageUrls, i.imageUrls, out.imageUrls)
  {
    Item(p.id.GetOr(i.id), p.name.GetOr(i.name), p.binId.GetOr(i.binId),
         p.quantity.GetOr(i.quantity), p.tags.GetOr(i.tags), p.notes.GetOr(i.notes),
         p.userId.GetOr(i.userId), p.imageUrls.GetOr(i.imageUrls))
  }

  /** `{ ...tag, ...patch }`. */
  function PatchTag(t: Tag, p: TagPatch): (out: Tag)
    ensures p == TagPatch(None, None, None, None) ==> out == t
    ensures Spread(p.id, t.id, out.id) && Spread(p.name, t.name, out.name)
    ensures Spread(p.userId, t.userId, out.userId) && Spread(p.kind, t.kind, out.kind)
  {
    Tag(p.id.GetOr(t.id), p.name.GetOr(t.name), p.userId.GetOr(t.userId), p.kind.GetOr(t.kind))
  }
}
