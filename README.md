# scanventory inventory store, modelled in Dafny

scanventory is a mobile inventory app. Rooms hold bins, bins hold other bins
and items, and bins and items carry tags. Every bin has a five-character code
that is printed as a QR label and scanned to open the bin. This project
models the app's in-memory inventory store in two layers.

- **The simulated back end** (`src/api/mockApi.ts`) keeps four tables: rooms,
  bins, items and tags. It offers lookup by id, create, update by merging
  partial fields, and delete of the first record with an id. It also answers
  scoped queries (bins by parent, items by bin, tags by type) and a
  case-insensitive substring search. New rooms, items and tags get the id
  prefix + (table length + 1). New bins get a random code over `A-Z0-9`,
  drawn again until no bin holds it.
- **The client store slices** (`src/store/slices/*.ts`) each hold a list, an
  optional current record, a loading flag and an error. Every asynchronous
  operation moves a slice through pending, then fulfilled or rejected.

Module layout, one file each:

| file | module | models |
|---|---|---|
| `wrappers.dfy` | `Wrappers` | `Option`, for `undefined`/`null` |
| `records.dfy` | `Records` | the list operations the source applies to every table and held list. These are `find`, `findIndex`, `filter`, `push`, `splice`, index assignment and the "append what is not held" merge, written once over a key function |
| `types.dfy` | `Types` | `src/types/index.ts`: the four records, the `ROOM`/`BIN` parent tag and the `BIN`/`ITEM`/`BOTH` tag type. It also has `Omit<X, 'id'>` as `XFields`, `Partial<X>` as `XPatch`, and the spread-merge `{ ...x, ...patch }` |
| `mock_api.dfy` | `MockApi` | the back end: pure lookups and scoped queries as functions, id generation, and the class `Backend` whose methods change its tables |
| `search_api.dfy` | `SearchApi` | `searchApi.search` |
| `async.dfy` | `Async` | the `message || default` rule of every rejected case |
| `bin_slice.dfy`, `item_slice.dfy`, `room_slice.dfy`, `tag_slice.dfy`, `search_slice.dfy` | `BinSlice` … `SearchSlice` | one class per slice state with a method per case reducer, plus one method per thunk. A thunk runs pending, the back-end call, then fulfilled or rejected, as one atomic step |

Record types:
- A `Bin` names its parent by a plain-string `parentId` together with a
  `ParentType` that is exactly one of `ROOM` or `BIN`.
- A `Tag`'s type is exactly one of `BIN`, `ITEM` or `BOTH`. The field is
  called `kind`, because `type` is a Dafny keyword.
- `notes` (and an item's `imageUrls`) are `Option`s; every other field is
  mandatory.
- `tags` are ordered `seq<string>`, so duplicates are possible.
- An `Item` is located by a single `binId` and never names a room.

## Model

| member | source | states |
|---|---|---|
| Records.Keys | src/store/slices/binSlice.ts:127 | an id is in the key set exactly when some record of the list carries it |
| Records.HasKey | src/api/mockApi.ts:92 | `some(r => r.id === id)` (and `findIndex !== -1`): some record of the list carries the id |
| Records.FirstIndex | src/api/mockApi.ts:46 | None exactly when no record has the id (`-1`); otherwise the index of the first record with that id |
| Records.Find | src/api/mockApi.ts:33 | None exactly when no record has the id; otherwise a record with that id at its first position |
| Records.Filter | src/api/mockApi.ts:76 | a record is kept exactly when it is in the list and passes the test; the result is no longer than the list |
| Records.FilterCount | src/api/mockApi.ts:76 | a passing record is kept as many times as it occurs and a failing one not at all |
| Records.FilterIsSubsequence | src/api/mockApi.ts:76 | a filter keeps its elements in table order: the result is a subsequence of the input |
| Records.Unseen | src/store/slices/binSlice.ts:127-128 | `payload.filter(r => !existingIds.has(r.id))`: each payload record whose id is not held, as many times as the payload has it, and no other record |
| Records.MergeUnseen | src/store/slices/binSlice.ts:127-129 | the held list is an unchanged prefix; what follows is exactly `Unseen`, the payload records whose id was not held, in payload order and with their multiplicity |
| Records.MergeUnseenOneNew | src/store/slices/binSlice.ts:127-129 | a single fetched record whose id is not held is appended |
| Records.MergeUnseenOneHeld | src/store/slices/binSlice.ts:127-129 | a single fetched record whose id is held is dropped, even when it differs from the held copy |
| Records.MergeUnseenIdempotent | src/store/slices/binSlice.ts:127-129 | merging the same payload a second time changes nothing |
| Records.MergeUnseenKeys | src/store/slices/binSlice.ts:127-129 | the ids after the merge are the held ids together with the payload ids |
| Records.MergeUnseenDistinct | src/store/slices/binSlice.ts:127-129 | when the held list and the payload each have distinct ids, so does the merged list |
| Records.ReplaceFirst | src/store/slices/binSlice.ts:157-160 | same length; the list is unchanged when no record has the new record's id; otherwise only the first record with that id is replaced and the new record is in the list |
| Records.ReplaceFirstKeepsKeys | src/store/slices/binSlice.ts:157-160 | an update neither adds nor drops an id |
| Records.ReplaceFirstKeepsDistinct | src/store/slices/binSlice.ts:157-160 | an update keeps the ids of a list distinct |
| Records.FindAfterReplaceFirst | src/store/slices/binSlice.ts:157-160 | after an update of a held id, looking that id up yields the new record |
| Records.AppendUnseenKeepsDistinct | src/api/mockApi.ts:91-100 | appending a record whose id is not held keeps the ids distinct |
| Records.RemoveAll | src/store/slices/binSlice.ts:177 | no record with the id is left; every other record is kept as many times as it occurred, in order |
| Records.RemoveFirst | src/api/mockApi.ts:114-117 | the list is unchanged when no record has the id; otherwise exactly the first record with that id is cut out |
| Records.RemoveFirstIsRemoveAll | src/api/mockApi.ts:112-120 | on a list with distinct ids, the back end's splice and the store's filter remove the same records |
| Types.PatchRoom | src/api/mockApi.ts:48 | `{ ...room, ...patch }`: each of id, name, userId and notes takes the patch's value when the patch carries it and keeps the room's otherwise; an empty patch keeps the room |
| Types.PatchBin | src/api/mockApi.ts:107 | `{ ...bin, ...patch }`: each of id, name, parentId, parentType, tags, notes and userId takes the patch's value when the patch carries it and keeps the bin's otherwise; an empty patch keeps the bin |
| Types.PatchItem | src/api/mockApi.ts:150 | `{ ...item, ...patch }`: each of id, name, binId, quantity, tags, notes, userId and imageUrls takes the patch's value when the patch carries it and keeps the item's otherwise; an empty patch keeps the item |
| Types.PatchTag | src/api/mockApi.ts:193 | `{ ...tag, ...patch }`: each of id, name, userId and type takes the patch's value when the patch carries it and keeps the tag's otherwise; an empty patch keeps the tag |
| Async.ErrorText | src/store/slices/binSlice.ts:99-102 | `message || fallback`: a present, non-empty message is the text; an absent or empty one gives the fallback; never empty when the fallback is not |
| MockApi.Lookup | src/api/mockApi.ts:31-34 | `getRoom`/`getBin`/`getItem`/`getTag`: None exactly when no record has the id (exact, case-sensitive); otherwise the first such record |
| MockApi.ChildBins | src/api/mockApi.ts:74-77 | a bin is returned exactly when it is in the table with that parent id and parent type, as many times as the table holds it; table order is kept |
| MockApi.ItemsInBin | src/api/mockApi.ts:133-136 | a item is returned exactly when it is in the table with that bin id, as many times as the table holds it; table order is kept |
| MockApi.TagsOfType | src/api/mockApi.ts:176-179 | a tag is returned exactly when it is in the table with the asked type or BOTH, as many times as the table holds it; table order is kept |
| MockApi.DecimalString | src/api/mockApi.ts:39 | the decimal text of a count is non-empty and made of digits; it starts with `0` exactly when the count is 0, and it is one character long exactly when the count is below 10 (no leading zeros) |
| MockApi.ParseDecimalString | src/api/mockApi.ts:39 | the decimal text of a count reads back as that count |
| MockApi.SequentialId | src/api/mockApi.ts:39 | the id of the next record is the prefix followed by decimal digits only, with no leading zero, and those digits read back as table length + 1 |
| MockApi.SequentialIdInjective | src/api/mockApi.ts:35-43 | tables of different lengths give different sequential ids |
| MockApi.SequentialIdFreshWithoutDeletes | src/api/mockApi.ts:35-43 | while no record was deleted, the next sequential id is not held |
| MockApi.SequentialIdRepeatsAfterDelete | src/api/mockApi.ts:35-61 | after `room1` of two rooms is deleted, the next created room gets the id `room2` that is still held |
| MockApi.AlphabetChar | src/api/mockApi.ts:82-85 | the character for a draw is an upper-case letter or a digit |
| MockApi.AlphabetCharIsCharAt | src/api/mockApi.ts:82 | the alphabet has 36 characters, and the character for draw `d` is the `d`-th character of `chars` |
| MockApi.CodeAt | src/api/mockApi.ts:81-88 | a generated code has five characters |
| MockApi.CodeAtWellFormed | src/api/mockApi.ts:81-88 | a generated code is five characters over A-Z and 0-9 |
| MockApi.GenerateId | src/api/mockApi.ts:81-88 | the loop builds the code spelled by five consecutive draws |
| MockApi.AllHeldBelow | src/api/mockApi.ts:91-94 | every attempt the retry loop has passed over was held |
| MockApi.AllHeldBeforeFree | src/api/mockApi.ts:91-94 | the retry loop never passes an attempt that is free |
| MockApi.RetryUntilFree | src/api/mockApi.ts:91-94 | the loop stops at an attempt no later than the known free one; that code is not held and every earlier one was |
| MockApi.FreshCode | src/api/mockApi.ts:90-94 | over the bin table: the chosen code is carried by no bin, is five characters over A-Z and 0-9, and is the first attempt that no bin carries |
| MockApi.Backend.constructor | src/api/mockApi.ts:2 | the four tables start as the given seed tables |
| MockApi.Backend.CreateRoom | src/api/mockApi.ts:35-43 | the new room has the id prefix plus (old table length + 1) and the given fields, and is appended; the other tables are unchanged |
| MockApi.Backend.UpdateRoom | src/api/mockApi.ts:44-52 | an absent id gives None and leaves the table alone; otherwise only the first room with the id is replaced by itself patched, and that record is returned; the other tables are unchanged |
| MockApi.Backend.DeleteRoom | src/api/mockApi.ts:53-61 | true exactly when the id was present; only the first room with it is removed; the other tables are unchanged; no bin is touched, so nothing cascades |
| MockApi.Backend.CreateItem | src/api/mockApi.ts:137-145 | the new item has the id prefix plus (old table length + 1) and the given fields, and is appended; the other tables are unchanged |
| MockApi.Backend.UpdateItem | src/api/mockApi.ts:146-154 | an absent id gives None and leaves the table alone; otherwise only the first item with the id is replaced by itself patched, and that record is returned; the other tables are unchanged |
| MockApi.Backend.DeleteItem | src/api/mockApi.ts:155-163 | true exactly when the id was present; only the first item with it is removed; the other tables are unchanged |
| MockApi.Backend.CreateTag | src/api/mockApi.ts:180-188 | the new tag has the id prefix plus (old table length + 1) and the given fields, and is appended; the other tables are unchanged |
| MockApi.Backend.UpdateTag | src/api/mockApi.ts:189-197 | an absent id gives None and leaves the table alone; otherwise only the first tag with the id is replaced by itself patched, and that record is returned; the other tables are unchanged |
| MockApi.Backend.DeleteTag | src/api/mockApi.ts:198-206 | true exactly when the id was present; only the first tag with it is removed; the other tables are unchanged |
| MockApi.Backend.CreateBin | src/api/mockApi.ts:78-102 | the new bin has a well-formed code that no old bin had (the first free attempt of the draws) and is appended; the other tables are unchanged and distinct bin ids stay distinct |
| MockApi.Backend.UpdateBin | src/api/mockApi.ts:103-111 | an absent id gives None and leaves the table alone; otherwise only the first bin with the id is replaced by itself patched and returned |
| MockApi.Backend.DeleteBin | src/api/mockApi.ts:112-120 | true exactly when the id was present; only the first bin with it is removed; no item is touched |
| SearchApi.Lower | src/api/mockApi.ts:213 | lower-casing keeps the length, moves each of A-Z to its lower-case letter and keeps every other character |
| SearchApi.LowerIdempotent | src/api/mockApi.ts:213 | lower-casing twice is lower-casing once, and leaves no upper-case letter |
| SearchApi.IncludesEmpty | src/api/mockApi.ts:216 | every text includes the empty query |
| SearchApi.Includes | src/api/mockApi.ts:216 | `hay.includes(needle)`: the needle occurs in the text at some position |
| SearchApi.NotIncludedWithoutChar | src/api/mockApi.ts:216 | a needle holding a character the text lacks is not found in it |
| SearchApi.IncludesLower | src/api/mockApi.ts:213-216 | a needle found verbatim is still found after both are lower-cased |
| SearchApi.RoomMatches | src/api/mockApi.ts:215-218 | a room matches on its name or its non-empty notes |
| SearchApi.BinMatches | src/api/mockApi.ts:220-225 | a bin matches on its name, its code, any of its tags or its non-empty notes |
| SearchApi.ItemMatches | src/api/mockApi.ts:227-231 | an item matches on its name, any of its tags or its non-empty notes |
| SearchApi.Search | src/api/mockApi.ts:211-234 | a room, bin or item is returned exactly when it is in its table and matches the lower-cased query on the fields the source checks, as many times as its table holds it; each result keeps table order |
| SearchApi.EmptyQueryMatchesEverything | src/api/mockApi.ts:213-231 | the empty query returns the three tables whole |
| SearchApi.SearchIgnoresQueryCase | src/api/mockApi.ts:213 | a query and its lower-cased form give the same results |
| SearchApi.SearchFindsByTag | src/api/mockApi.ts:220-225 | for all tables and queries: a bin is found when the query occurs in one of its tags |
| SearchApi.SearchFindsByCodeIgnoringCase | src/api/mockApi.ts:222 | for all tables: a bin is found by its code typed in any mix of upper and lower case |
| SearchApi.RoomLacksChar | src/api/mockApi.ts:215-218 | a room none of whose searched texts holds a character of the query does not match |
| SearchApi.TagsLackChar | src/api/mockApi.ts:223 | tags none of which holds a character of the query do not match |
| SearchApi.BinLacksChar | src/api/mockApi.ts:220-225 | a bin none of whose searched texts holds a character of the query does not match |
| SearchApi.ItemLacksChar | src/api/mockApi.ts:227-231 | an item none of whose searched texts holds a character of the query does not match |
| SearchApi.SearchForAbsentTextFindsNothing | src/api/mockApi.ts:211-234 | for all tables: a query holding a character that no name, code, tag or note holds in either case finds nothing |
| BinSlice.BinState.constructor | src/store/slices/binSlice.ts:12-17 | empty list, no current bin, not loading, no error |
| BinSlice.BinState.ClearCurrentBin | src/store/slices/binSlice.ts:78-80 | the current bin is cleared and nothing else changes |
| BinSlice.BinState.SetError | src/store/slices/binSlice.ts:81-83 | only the error changes, to the given text |
| BinSlice.BinState.ClearError | src/store/slices/binSlice.ts:84-86 | only the error changes, to none |
| BinSlice.BinState.Pending | src/store/slices/binSlice.ts:91-94 | loading is set and the error cleared; the data is untouched |
| BinSlice.BinState.Rejected | src/store/slices/binSlice.ts:99-102 | loading is cleared and the error is the message or the operation's default; the data is untouched |
| BinSlice.BinState.FetchBinsFulfilled | src/store/slices/binSlice.ts:95-98 | the list is replaced wholesale by the payload |
| BinSlice.BinState.FetchBinFulfilled | src/store/slices/binSlice.ts:109-112 | the payload becomes the current bin; the list is untouched |
| BinSlice.BinState.FetchBinsByParentFulfilled | src/store/slices/binSlice.ts:123-130 | the list becomes the held list followed by the payload records with unseen ids (MergeUnseen) |
| BinSlice.BinState.CreateBinFulfilled | src/store/slices/binSlice.ts:141-144 | exactly the created bin is appended |
| BinSlice.BinState.UpdateBinFulfilled | src/store/slices/binSlice.ts:155-164 | the first record with the payload's id is replaced, nothing is appended; the current bin is replaced exactly when its id matches |
| BinSlice.BinState.DeleteBinFulfilled | src/store/slices/binSlice.ts:175-181 | every record with the id is removed; the current bin is cleared exactly when its id matches, else kept |
| BinSlice.FetchBins | src/store/slices/binSlice.ts:20-25 | the list becomes the back end's table; no error |
| BinSlice.FetchBin | src/store/slices/binSlice.ts:27-36 | an absent id ends with the error "Bin not found"; otherwise the looked-up record becomes current; the list is untouched |
| BinSlice.FetchBinsByParent | src/store/slices/binSlice.ts:38-43 | the list becomes the merge of the held list with the back end's scoped query |
| BinSlice.CreateBin | src/store/slices/binSlice.ts:45-50 | the new bin is the given fields under a well-formed code, the first free attempt, that no old bin had; the back end and the store both append that record |
| BinSlice.UpdateBin | src/store/slices/binSlice.ts:52-61 | an absent id ends with "Bin not found" and changes no list; otherwise the back end patches the record and the store replaces its first copy; the current bin becomes the patched record exactly when its id is the patched id, else stays |
| BinSlice.DeleteBin | src/store/slices/binSlice.ts:63-72 | an absent id ends with "Failed to delete bin" and changes no list; otherwise the back end removes the first record and the store every record with the id; the current bin is cleared exactly when its id is the deleted id, else stays |
| BinSlice.ScopedFetchKeepsOtherParents | src/store/slices/binSlice.ts:123-130 | for all held lists and tables: fetching the bins of one parent keeps every held bin in place and adds no bin of another parent |
| BinSlice.ScopedFetchKeepsFirstArrival | src/store/slices/binSlice.ts:127-129 | for any held list not holding the id: of two fetched copies of one bin the first to arrive stays, so the merge depends on arrival order |
| BinSlice.ScanMatchesExactCodeOnly | src/screens/scanner/ScannerScreen.tsx:50 | when every bin code is well formed, a scanned text holding a lower-case letter finds no bin: the match is exact and case-sensitive |
| BinSlice.ScanFindsPrintedCode | src/screens/scanner/ScannerScreen.tsx:50 | when bin codes are distinct, scanning a bin's own code finds that bin |
| ItemSlice.ItemState.constructor | src/store/slices/itemSlice.ts:12-17 | empty list, no current item, not loading, no error |
| ItemSlice.ItemState.ClearCurrentItem | src/store/slices/itemSlice.ts:78-80 | the current item is cleared and nothing else changes |
| ItemSlice.ItemState.SetError | src/store/slices/itemSlice.ts:81-83 | only the error changes, to the given text |
| ItemSlice.ItemState.ClearError | src/store/slices/itemSlice.ts:84-86 | only the error changes, to none |
| ItemSlice.ItemState.Pending | src/store/slices/itemSlice.ts:91-94 | loading is set and the error cleared; the data is untouched |
| ItemSlice.ItemState.Rejected | src/store/slices/itemSlice.ts:99-102 | loading is cleared and the error is the message or the operation's default; the data is untouched |
| ItemSlice.ItemState.FetchItemsFulfilled | src/store/slices/itemSlice.ts:95-98 | the list is replaced wholesale by the payload |
| ItemSlice.ItemState.FetchItemFulfilled | src/store/slices/itemSlice.ts:109-112 | the payload becomes the current item; the list is untouched |
| ItemSlice.ItemState.FetchItemsByBinFulfilled | src/store/slices/itemSlice.ts:123-130 | the list becomes the held list followed by the payload records with unseen ids (MergeUnseen) |
| ItemSlice.ItemState.CreateItemFulfilled | src/store/slices/itemSlice.ts:141-144 | exactly the created item is appended |
| ItemSlice.ItemState.UpdateItemFulfilled | src/store/slices/itemSlice.ts:155-164 | the first record with the payload's id is replaced, nothing is appended; the current item is replaced exactly when its id matches |
| ItemSlice.ItemState.DeleteItemFulfilled | src/store/slices/itemSlice.ts:175-181 | every record with the id is removed; the current item is cleared exactly when its id matches, else kept |
| ItemSlice.FetchItems | src/store/slices/itemSlice.ts:20-25 | the list becomes the back end's table; no error |
| ItemSlice.FetchItem | src/store/slices/itemSlice.ts:27-36 | an absent id ends with the error "Item not found"; otherwise the looked-up record becomes current; the list is untouched |
| ItemSlice.FetchItemsByBin | src/store/slices/itemSlice.ts:38-43 | the list becomes the merge of the held list with the back end's scoped query |
| ItemSlice.CreateItem | src/store/slices/itemSlice.ts:45-50 | the back end appends the new item and the store appends the same record |
| ItemSlice.UpdateItem | src/store/slices/itemSlice.ts:52-61 | an absent id ends with "Item not found" and changes no list; otherwise the back end patches the record and the store replaces its first copy; the current item becomes the patched record exactly when its id is the patched id, else stays |
| ItemSlice.DeleteItem | src/store/slices/itemSlice.ts:63-72 | an absent id ends with "Failed to delete item" and changes no list; otherwise the back end removes the first record and the store every record with the id; the current item is cleared exactly when its id is the deleted id, else stays |
| RoomSlice.RoomState.constructor | src/store/slices/roomSlice.ts:12-17 | empty list, no current room, not loading, no error |
| RoomSlice.RoomState.ClearCurrentRoom | src/store/slices/roomSlice.ts:71-73 | the current room is cleared and nothing else changes |
| RoomSlice.RoomState.SetError | src/store/slices/roomSlice.ts:74-76 | only the error changes, to the given text |
| RoomSlice.RoomState.ClearError | src/store/slices/roomSlice.ts:77-79 | only the error changes, to none |
| RoomSlice.RoomState.Pending | src/store/slices/roomSlice.ts:84-87 | loading is set and the error cleared; the data is untouched |
| RoomSlice.RoomState.Rejected | src/store/slices/roomSlice.ts:92-95 | loading is cleared and the error is the message or the operation's default; the data is untouched |
| RoomSlice.RoomState.FetchRoomsFulfilled | src/store/slices/roomSlice.ts:88-91 | the list is replaced wholesale by the payload |
| RoomSlice.RoomState.FetchRoomFulfilled | src/store/slices/roomSlice.ts:102-105 | the payload becomes the current room; the list is untouched |
| RoomSlice.RoomState.CreateRoomFulfilled | src/store/slices/roomSlice.ts:116-119 | exactly the created room is appended |
| RoomSlice.RoomState.UpdateRoomFulfilled | src/store/slices/roomSlice.ts:130-139 | the first record with the payload's id is replaced, nothing is appended; the current room is replaced exactly when its id matches |
| RoomSlice.RoomState.DeleteRoomFulfilled | src/store/slices/roomSlice.ts:150-156 | every record with the id is removed; the current room is cleared exactly when its id matches, else kept |
| RoomSlice.FetchRooms | src/store/slices/roomSlice.ts:20-25 | the list becomes the back end's table; no error |
| RoomSlice.FetchRoom | src/store/slices/roomSlice.ts:27-36 | an absent id ends with the error "Room not found"; otherwise the looked-up record becomes current; the list is untouched |
| RoomSlice.CreateRoom | src/store/slices/roomSlice.ts:38-43 | the back end appends the new room and the store appends the same record |
| RoomSlice.UpdateRoom | src/store/slices/roomSlice.ts:45-54 | an absent id ends with "Room not found" and changes no list; otherwise the back end patches the record and the store replaces its first copy; the current room becomes the patched record exactly when its id is the patched id, else stays |
| RoomSlice.DeleteRoom | src/store/slices/roomSlice.ts:56-65 | an absent id ends with "Failed to delete room" and changes no list; otherwise the back end removes the first record and the store every record with the id; the current room is cleared exactly when its id is the deleted id, else stays |
| TagSlice.TagState.constructor | src/store/slices/tagSlice.ts:11-15 | empty list, not loading, no error |
| TagSlice.TagState.SetError | src/store/slices/tagSlice.ts:65-67 | only the error changes, to the given text |
| TagSlice.TagState.ClearError | src/store/slices/tagSlice.ts:68-70 | only the error changes, to none |
| TagSlice.TagState.Pending | src/store/slices/tagSlice.ts:75-78 | loading is set and the error cleared; the data is untouched |
| TagSlice.TagState.Rejected | src/store/slices/tagSlice.ts:83-86 | loading is cleared and the error is the message or the operation's default; the data is untouched |
| TagSlice.TagState.FetchTagsFulfilled | src/store/slices/tagSlice.ts:79-82 | the list is replaced wholesale by the payload |
| TagSlice.TagState.FetchTagsByTypeFulfilled | src/store/slices/tagSlice.ts:93-100 | the list becomes the held list followed by the payload records with unseen ids (MergeUnseen) |
| TagSlice.TagState.CreateTagFulfilled | src/store/slices/tagSlice.ts:111-114 | exactly the created tag is appended |
| TagSlice.TagState.UpdateTagFulfilled | src/store/slices/tagSlice.ts:125-131 | the first record with the payload's id is replaced, nothing is appended |
| TagSlice.TagState.DeleteTagFulfilled | src/store/slices/tagSlice.ts:142-145 | every record with the id is removed |
| TagSlice.FetchTags | src/store/slices/tagSlice.ts:18-23 | the list becomes the back end's table; no error |
| TagSlice.FetchTagsByType | src/store/slices/tagSlice.ts:25-30 | the list becomes the merge of the held list with the back end's scoped query |
| TagSlice.CreateTag | src/store/slices/tagSlice.ts:32-37 | the back end appends the new tag and the store appends the same record |
| TagSlice.UpdateTag | src/store/slices/tagSlice.ts:39-48 | an absent id ends with "Tag not found" and changes no list; otherwise the back end patches the record and the store replaces its first copy |
| TagSlice.DeleteTag | src/store/slices/tagSlice.ts:50-59 | an absent id ends with "Failed to delete tag" and changes no list; otherwise the back end removes the first record and the store every record with the id |
| SearchSlice.SearchState.constructor | src/store/slices/searchSlice.ts:16-25 | empty query, three empty result lists, not loading, no error |
| SearchSlice.SearchState.SetQuery | src/store/slices/searchSlice.ts:39-41 | only the query changes |
| SearchSlice.SearchState.ClearResults | src/store/slices/searchSlice.ts:42-48 | the three result lists become empty; query, loading and error are kept |
| SearchSlice.SearchState.SetError | src/store/slices/searchSlice.ts:49-51 | only the error changes, to the given text |
| SearchSlice.SearchState.ClearError | src/store/slices/searchSlice.ts:52-54 | only the error changes, to none |
| SearchSlice.SearchState.Pending | src/store/slices/searchSlice.ts:58-61 | loading is set and the error cleared; the previous results stay |
| SearchSlice.SearchState.Fulfilled | src/store/slices/searchSlice.ts:62-65 | the results are replaced wholesale by the payload and loading is cleared |
| SearchSlice.SearchState.Rejected | src/store/slices/searchSlice.ts:66-69 | the results stay; the error is the message or "Failed to search items" |
| SearchSlice.SearchItems | src/store/slices/searchSlice.ts:28-33 | the results become the back end's search over its current tables for the query; the query field is untouched |

## Left out

- Timing and concurrency are not modelled: the `delay` promises, the search
  screen's debounce, and thunks that finish out of order. Each thunk is one
  atomic step: pending, the back-end call, then fulfilled or rejected.
- MockApi.FreshCode: the random draws `Math.floor(Math.random() * 36)` are an
  oracle `draw` that supplies each draw's index into the alphabet, a number
  below 36. The
  source's retry loop has no bound. The model asks its caller for a ghost
  `bound`, an attempt whose code is known to be free, so that the loop
  terminates. A caller with no such attempt is not covered.
- MockApi.RetryUntilFree, MockApi.Backend.CreateBin and BinSlice.CreateBin carry the same `bound`
  precondition, for the same reason.
- SearchApi.Lower lower-cases ASCII `A-Z` only. JavaScript's full Unicode
  `toLowerCase` is not modelled.
- An item's `quantity` is an unbounded `int`, not a floating-point `number`.
  Nothing in the core does arithmetic on it.
- The `getRooms`/`getBins`/`getItems`/`getTags` calls return the table
  itself; the thunks read the `Backend` fields directly. The model does not
  capture aliasing between a back-end table and the array a slice holds
  afterwards. Nor does it model the freezing that the store library applies to
  its state. Because each `fetchX.fulfilled` stores the back end's own array,
  that freezing could plausibly make a later `push`, `splice` or index
  assignment in `src/api/mockApi.ts` throw in strict mode, so the create,
  update and delete thunks would reject in the running app where the model's
  thunks succeed; this was not executed.
- `userApi`, authentication and the user record are not modelled: they are
  stubs that always return a fixed user. `src/api/mockData.ts` is seed data;
  `Backend` takes its tables as constructor arguments.
- The store library's plumbing (`createSlice`, `createAsyncThunk`,
  `configureStore`, draft copies) is not modelled. Each case reducer is a
  method that updates the slice object in place. A thrown `Error`'s message
  becomes the rejected case's `message`.
- Screens, components, navigation and styles are not modelled. Three screens
  repeat back-end predicates inline, and these are the model's functions:
  - the child-bin filters in `src/screens/rooms/RoomDetailsScreen.tsx:77` and
    `src/screens/bins/BinDetailsScreen.tsx:103` are `MockApi.ChildBins`;
  - the item filter in `src/screens/bins/BinDetailsScreen.tsx:102` is
    `MockApi.ItemsInBin`;
  - the scan lookup in `src/screens/scanner/ScannerScreen.tsx:50` is
    `MockApi.Lookup` (see `BinSlice.ScanMatchesExactCodeOnly`).
- Types.PatchRoom, Types.PatchBin, Types.PatchItem and Types.PatchTag: a
  `Partial<X>` patch can hold an explicit `undefined` on a mandatory field
  (`name`, `parentId`, `binId`, `type`), which the spread then copies over the
  record. The patch types only express a field that is set or absent, so that
  case is not modelled.
- The code makes no promise of a tree shape, valid parents, cycle freedom,
  cascading deletes or a non-negative quantity, so the model states none.
  Deleting a room or a bin leaves the other tables unchanged.

## Behaviour worth noting

- An empty search query matches every record, because every text includes
  the empty string (`SearchApi.EmptyQueryMatchesEverything`).
- A scoped fetch (`fetchBinsByParent`, `fetchItemsByBin`, `fetchTagsByType`)
  keeps held records and appends only records whose ids are not held. A held
  record is not refreshed even when the fetched copy differs, so the merge
  depends on the order in which copies arrive
  (`BinSlice.ScopedFetchKeepsFirstArrival`).
- Sequential ids are not unique once a record has been deleted
  (`MockApi.SequentialIdRepeatsAfterDelete`). They are unique while nothing
  has been deleted (`MockApi.SequentialIdFreshWithoutDeletes`).
- The store's delete removes every held record with the id. The back end's
  delete removes only the first. The two agree on lists with distinct ids
  (`Records.RemoveFirstIsRemoveAll`).
