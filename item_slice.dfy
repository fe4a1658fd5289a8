/**
 * The items slice of the client store: the items held by the client, the item
 * shown by the detail screen, and the status of the last operation.
 *
 * Each case reducer is a method on ItemState. The thunks, which call the back
 * end and then run the fulfilled or the rejected reducer, are the methods at
 * the end of the module; each runs as one atomic step after its pending case.
 */
module ItemSlice {
  import opened Wrappers
  import opened Types
  import Records
  import MockApi
  import Async

  const FetchItemsFailed := "Failed to fetch items"
  const FetchItemFailed := "Failed to fetch item"
  const FetchItemsByBinFailed := "Failed to fetch items by bin"
  const CreateItemFailed := "Failed to create item"
  const UpdateItemFailed := "Failed to update item"
  const DeleteItemFailed := "Failed to delete item"
  /** What `fetchItem` and `updateItem` throw when the back end has no such item. */
  const ItemNotFound := "Item not found"

  class ItemState {
    var items: seq<Item>
    var currentItem: Option<Item>
    var loading: bool
    var error: Option<string>

    /** `initialState`. */
    constructor ()
      ensures items == [] && currentItem == None && !loading && error == None
    {
      items, currentItem, loading, error := [], None, false, None;
    }

    method ClearCurrentItem()
      modifies this
      ensures currentItem == None
      ensures items == old(items) && loading == old(loading) && error == old(error)
    {
      currentItem := None;
    }

    method SetError(message: string)
      modifies this
      ensures error == Some(message)
      ensures items == old(items) && currentItem == old(currentItem) && loading == old(loading)
    {
      error := Some(message);
    }

    method ClearError()
      modifies this
      ensures error == None
      ensures items == old(items) && currentItem == old(currentItem) && loading == old(loading)
    {
      error := None;
    }

    /** The pending case of every thunk of the slice. */
    method Pending()
      modifies this
      ensures loading && error == None
      ensures items == old(items) && currentItem == old(currentItem)
    {
      loading := true;
      error := None;
    }

    /** The rejected case of every thunk; `fallback` is that thunk's default text. */
    method Rejected(fallback: string, message: Option<string>)
      modifies this
      ensures !loading && error == Some(Async.ErrorText(message, fallback))
      ensures items == old(items) && currentItem == old(currentItem)
    {
      loading := false;
      error := Some(Async.ErrorText(message, fallback));
    }

    /** `fetchItems.fulfilled`: the whole list is replaced by the payload. */
    method FetchItemsFulfilled(payload: seq<Item>)
      modifies this
      ensures !loading && items == payload
      ensures currentItem == old(currentItem) && error == old(error)
    {
      loading := false;
      items := payload;
    }

    /** `fetchItem.fulfilled`: the fetched item becomes the current one; the list is not touched. */
    method FetchItemFulfilled(item: Item)
      modifies this
      ensures !loading && currentItem == Some(item)
      ensures items == old(items) && error == old(error)
    {
      loading := false;
      currentItem := Some(item);
    }

    /**
     * `fetchItemsByBin.fulfilled`: the held items stay exactly as they
     * are and only payload items with an id not held yet are appended.
     */
    method FetchItemsByBinFulfilled(payload: seq<Item>)
      modifies this
      ensures !loading && items == Records.MergeUnseen(old(items), payload, ItemKey)
      ensures currentItem == old(currentItem) && error == old(error)
    {
      loading := false;
      var newItems := Records.Unseen(items, payload, ItemKey);
      items := items + newItems;
    }

    /** `createItem.fulfilled`: the created item is pushed at the end. */
    method CreateItemFulfilled(item: Item)
      modifies this
      ensures !loading && items == old(items) + [item]
      ensures currentItem == old(currentItem) && error == old(error)
    {
      loading := false;
      items := items + [item];
    }

    /**
     * `updateItem.fulfilled`: the first held item with the payload's id is
     * replaced (nothing is appended when none has it), and the current item
     * is replaced only when its id is the payload's id.
     */
    method UpdateItemFulfilled(item: Item)
      modifies this
      ensures !loading && items == Records.ReplaceFirst(old(items), ItemKey, item)
      ensures old(currentItem).Some? && old(currentItem).value.id == item.id ==> currentItem == Some(item)
      ensures !(old(currentItem).Some? && old(currentItem).value.id == item.id) ==> currentItem == old(currentItem)
      ensures error == old(error)
    {
      loading := false;
      var index := Records.FirstIndex(items, ItemKey, item.id);
      if index.Some? {
        items := items[index.value := item];
      }
      if currentItem.Some? && currentItem.value.id == item.id {
        currentItem := Some(item);
      }
    }

    /**
     * `deleteItem.fulfilled`: every held item with that id is dropped, and the
     * current item is cleared exactly when it has that id.
     */
    method DeleteItemFulfilled(id: string)
      modifies this
      ensures !loading && items == Records.RemoveAll(old(items), ItemKey, id)
      ensures currentItem.None? <==> old(currentItem).None? || old(currentItem).value.id == id
      ensures currentItem.Some? ==> currentItem == old(currentItem)
      ensures error == old(error)
    {
      loading := false;
      items := Records.RemoveAll(items, ItemKey, id);
      if currentItem.Some? && currentItem.value.id == id {
        currentItem := None;
      }
    }
  }

  // ---- thunks: pending, one back-end call, then fulfilled or rejected ----

  method FetchItems(api: MockApi.Backend, s: ItemState)
    modifies s
    ensures !s.loading && s.error == None
    ensures s.items == api.items && s.currentItem == old(s.currentItem)
  {
    s.Pending();
    s.FetchItemsFulfilled(api.items);
  }

  /** `fetchItem`: rejects with "Item not found" when the back end has no item with that id. */
  method FetchItem(api: MockApi.Backend, s: ItemState, id: string)
    modifies s
    ensures !s.loading && s.items == old(s.items)
    ensures match MockApi.Lookup(api.items, ItemKey, id)
            case None => s.error == Some(ItemNotFound) && s.currentItem == old(s.currentItem)
            case Some(it) => s.error == None && s.currentItem == Some(it)
  {
    s.Pending();
    var found := MockApi.Lookup(api.items, ItemKey, id);
    match found {
      case None => s.Rejected(FetchItemFailed, Some(ItemNotFound));
      case Some(it) => s.FetchItemFulfilled(it);
    }
  }

  method FetchItemsByBin(api: MockApi.Backend, s: ItemState, binId: string)
    modifies s
    ensures !s.loading && s.error == None && s.currentItem == old(s.currentItem)
    ensures s.items == Records.MergeUnseen(old(s.items), MockApi.ItemsInBin(api.items, binId), ItemKey)
  {
    s.Pending();
    s.FetchItemsByBinFulfilled(MockApi.ItemsInBin(api.items, binId));
  }

  method CreateItem(api: MockApi.Backend, s: ItemState, fields: ItemFields) returns (i: Item)
    modifies api, s
    ensures i == fields.WithId(MockApi.SequentialId(MockApi.ItemPrefix, |old(api.items)|))
    ensures api.items == old(api.items) + [i]
    ensures api.rooms == old(api.rooms) && api.bins == old(api.bins) && api.tags == old(api.tags)
    ensures !s.loading && s.error == None
    ensures s.items == old(s.items) + [i] && s.currentItem == old(s.currentItem)
  {
    s.Pending();
    i := api.CreateItem(fields);
    s.CreateItemFulfilled(i);
  }

  /** `updateItem`: rejects with "Item not found", leaving the list alone, when no item has that id. */
  method UpdateItem(api: MockApi.Backend, s: ItemState, id: string, patch: ItemPatch)
    modifies api, s
    ensures api.rooms == old(api.rooms) && api.bins == old(api.bins) && api.tags == old(api.tags)
    ensures !s.loading
    ensures match Records.FirstIndex(old(api.items), ItemKey, id)
            case None =>
              && api.items == old(api.items)
              && s.error == Some(ItemNotFound) && s.items == old(s.items) && s.currentItem == old(s.currentItem)
            case Some(i) =>
              var updated := PatchItem(old(api.items)[i], patch);
              && api.items == old(api.items)[i := updated]
              && s.error == None && s.items == Records.ReplaceFirst(old(s.items), ItemKey, updated)
              && s.currentItem == if old(s.currentItem).Some? && old(s.currentItem).value.id == updated.id then Some(updated) else old(s.currentItem)
  {
    s.Pending();
    var r := api.UpdateItem(id, patch);
    match r {
      case None => s.Rejected(UpdateItemFailed, Some(ItemNotFound));
      case Some(it) => s.UpdateItemFulfilled(it);
    }
  }

  /** `deleteItem`: rejects with "Failed to delete item", leaving the list alone, when no item has that id. */
  method DeleteItem(api: MockApi.Backend, s: ItemState, id: string)
    modifies api, s
    ensures api.items == Records.RemoveFirst(old(api.items), ItemKey, id)
    ensures api.rooms == old(api.rooms) && api.bins == old(api.bins) && api.tags == old(api.tags)
    ensures !s.loading
    ensures !Records.HasKey(old(api.items), ItemKey, id) ==>
              s.error == Some(DeleteItemFailed) && s.items == old(s.items) && s.currentItem == old(s.currentItem)
    ensures Records.HasKey(old(api.items), ItemKey, id) ==>
              && s.error == None && s.items == Records.RemoveAll(old(s.items), ItemKey, id)
              && s.currentItem == if old(s.currentItem).Some? && old(s.currentItem).value.id == id then None else old(s.currentItem)
  {
    s.Pending();
    var ok := api.DeleteItem(id);
    if ok {
      s.DeleteItemFulfilled(id);
    } else {
      s.Rejected(DeleteItemFailed, Some(DeleteItemFailed));
    }
  }
}
