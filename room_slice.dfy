/**
 * The rooms slice of the client store: the rooms held by the client, the room
 * shown by the detail screen, and the status of the last operation.
 *
 * Each case reducer is a method on RoomState. The thunks, which call the back
 * end and then run the fulfilled or the rejected reducer, are the methods at
 * the end of the module; each runs as one atomic step after its pending case.
 */
module RoomSlice {
  import opened Wrappers
  import opened Types
  import Records
  import MockApi
  import Async

  const FetchRoomsFailed := "Failed to fetch rooms"
  const FetchRoomFailed := "Failed to fetch room"
  const CreateRoomFailed := "Failed to create room"
  const UpdateRoomFailed := "Failed to update room"
  const DeleteRoomFailed := "Failed to delete room"
  /** What `fetchRoom` and `updateRoom` throw when the back end has no such room. */
  const RoomNotFound := "Room not found"

  class RoomState {
    var rooms: seq<Room>
    var currentRoom: Option<Room>
    var loading: bool
    var error: Option<string>

    /** `initialState`. */
    constructor ()
      ensures rooms == [] && currentRoom == None && !loading && error == None
    {
      rooms, currentRoom, loading, error := [], None, false, None;
    }

    method ClearCurrentRoom()
      modifies this
      ensures currentRoom == None
      ensures rooms == old(rooms) && loading == old(loading) && error == old(error)
    {
      currentRoom := None;
    }

    method SetError(message: string)
      modifies this
      ensures error == Some(message)
      ensures rooms == old(rooms) && currentRoom == old(currentRoom) && loading == old(loading)
    {
      error := Some(message);
    }

    method ClearError()
      modifies this
      ensures error == None
      ensures rooms == old(rooms) && currentRoom == old(currentRoom) && loading == old(loading)
    {
      error := None;
    }

    /** The pending case of every thunk of the slice. */
    method Pending()
      modifies this
      ensures loading && error == None
      ensures rooms == old(rooms) && currentRoom == old(currentRoom)
    {
      loading := true;
      error := None;
    }

    /** The rejected case of every thunk; `fallback` is that thunk's default text. */
    method Rejected(fallback: string, message: Option<string>)
      modifies this
      ensures !loading && error == Some(Async.ErrorText(message, fallback))
      ensures rooms == old(rooms) && currentRoom == old(currentRoom)
    {
      loading := false;
      error := Some(Async.ErrorText(message, fallback));
    }

    /** `fetchRooms.fulfilled`: the whole list is replaced by the payload. */
    method FetchRoomsFulfilled(payload: seq<Room>)
      modifies this
      ensures !loading && rooms == payload
      ensures currentRoom == old(currentRoom) && error == old(error)
    {
      loading := false;
      rooms := payload;
    }

    /** `fetchRoom.fulfilled`: the fetched room becomes the current one; the list is not touched. */
    method FetchRoomFulfilled(room: Room)
      modifies this
      ensures !loading && currentRoom == Some(room)
      ensures rooms == old(rooms) && error == old(error)
    {
      loading := false;
      currentRoom := Some(room);
    }

    /** `createRoom.fulfilled`: the created room is pushed at the end. */
    method CreateRoomFulfilled(room: Room)
      modifies this
      ensures !loading && rooms == old(rooms) + [room]
      ensures currentRoom == old(currentRoom) && error == old(error)
    {
      loading := false;
      rooms := rooms + [room];
    }

    /**
     * `updateRoom.fulfilled`: the first held room with the payload's id is
     * replaced (nothing is appended when none has it), and the current room
     * is replaced only when its id is the payload's id.
     */
    method UpdateRoomFulfilled(room: Room)
      modifies this
      ensures !loading && rooms == Records.ReplaceFirst(old(rooms), RoomKey, room)
      ensures old(currentRoom).Some? && old(currentRoom).value.id == room.id ==> currentRoom == Some(room)
      ensures !(old(currentRoom).Some? && old(currentRoom).value.id == room.id) ==> currentRoom == old(currentRoom)
      ensures error == old(error)
    {
      loading := false;
      var index := Records.FirstIndex(rooms, RoomKey, room.id);
      if index.Some? {
        rooms := rooms[index.value := room];
      }
      if currentRoom.Some? && currentRoom.value.id == room.id {
        currentRoom := Some(room);
      }
    }

    /**
     * `deleteRoom.fulfilled`: every held room with that id is dropped, and the
     * current room is cleared exactly when it has that id.
     */
    method DeleteRoomFulfilled(id: string)
      modifies this
      ensures !loading && rooms == Records.RemoveAll(old(rooms), RoomKey, id)
      ensures currentRoom.None? <==> old(currentRoom).None? || old(currentRoom).value.id == id
      ensures currentRoom.Some? ==> currentRoom == old(currentRoom)
      ensures error == old(error)
    {
      loading := false;
      rooms := Records.RemoveAll(rooms, RoomKey, id);
      if currentRoom.Some? && currentRoom.value.id == id {
        currentRoom := None;
      }
    }
  }

  // ---- thunks: pending, one back-end call, then fulfilled or rejected ----

  method FetchRooms(api: MockApi.Backend, s: RoomState)
    modifies s
    ensures !s.loading && s.error == None
    ensures s.rooms == api.rooms && s.currentRoom == old(s.currentRoom)
  {
    s.Pending();
    s.FetchRoomsFulfilled(api.rooms);
  }

  /** `fetchRoom`: rejects with "Room not found" when the back end has no room with that id. */
  method FetchRoom(api: MockApi.Backend, s: RoomState, id: string)
    modifies s
    ensures !s.loading && s.rooms == old(s.rooms)
    ensures match MockApi.Lookup(api.rooms, RoomKey, id)
            case None => s.error == Some(RoomNotFound) && s.currentRoom == old(s.currentRoom)
            case Some(room) => s.error == None && s.currentRoom == Some(room)
  {
    s.Pending();
    var found := MockApi.Lookup(api.rooms, RoomKey, id);
    match found {
      case None => s.Rejected(FetchRoomFailed, Some(RoomNotFound));
      case Some(room) => s.FetchRoomFulfilled(room);
    }
  }

  method CreateRoom(api: MockApi.Backend, s: RoomState, fields: RoomFields) returns (r: Room)
    modifies api, s
    ensures r == fields.WithId(MockApi.SequentialId(MockApi.RoomPrefix, |old(api.rooms)|))
    ensures api.rooms == old(api.rooms) + [r]
    ensures api.bins == old(api.bins) && api.items == old(api.items) && api.tags == old(api.tags)
    ensures !s.loading && s.error == None
    ensures s.rooms == old(s.rooms) + [r] && s.currentRoom == old(s.currentRoom)
  {
    s.Pending();
    r := api.CreateRoom(fields);
    s.CreateRoomFulfilled(r);
  }

  /** `updateRoom`: rejects with "Room not found", leaving the list alone, when no room has that id. */
  method UpdateRoom(api: MockApi.Backend, s: RoomState, id: string, patch: RoomPatch)
    modifies api, s
    ensures api.bins == old(api.bins) && api.items == old(api.items) && api.tags == old(api.tags)
    ensures !s.loading
    ensures match Records.FirstIndex(old(api.rooms), RoomKey, id)
            case None =>
              && api.rooms == old(api.rooms)
              && s.error == Some(RoomNotFound) && s.rooms == old(s.rooms) && s.currentRoom == old(s.currentRoom)
            case Some(i) =>
              var updated := PatchRoom(old(api.rooms)[i], patch);
              && api.rooms == old(api.rooms)[i := updated]
              && s.error == None && s.rooms == Records.ReplaceFirst(old(s.rooms), RoomKey, updated)
              && s.currentRoom == if old(s.currentRoom).Some? && old(s.currentRoom).value.id == updated.id then Some(updated) else old(s.currentRoom)
  {
    s.Pending();
    var r := api.UpdateRoom(id, patch);
    match r {
      case None => s.Rejected(UpdateRoomFailed, Some(RoomNotFound));
      case Some(room) => s.UpdateRoomFulfilled(room);
    }
  }

  /** `deleteRoom`: rejects with "Failed to delete room", leaving the list alone, when no room has that id. */
  method DeleteRoom(api: MockApi.Backend, s: RoomState, id: string)
    modifies api, s
    ensures api.rooms == Records.RemoveFirst(old(api.rooms), RoomKey, id)
    ensures api.bins == old(api.bins) && api.items == old(api.items) && api.tags == old(api.tags)
    ensures !s.loading
    ensures !Records.HasKey(old(api.rooms), RoomKey, id) ==>
              s.error == Some(DeleteRoomFailed) && s.rooms == old(s.rooms) && s.currentRoom == old(s.currentRoom)
    ensures Records.HasKey(old(api.rooms), RoomKey, id) ==>
              && s.error == None && s.rooms == Records.RemoveAll(old(s.rooms), RoomKey, id)
              && s.currentRoom == if old(s.currentRoom).Some? && old(s.currentRoom).value.id == id then None else old(s.currentRoom)
  {
    s.Pending();
    var ok := api.DeleteRoom(id);
    if ok {
      s.DeleteRoomFulfilled(id);
    } else {
      s.Rejected(DeleteRoomFailed, Some(DeleteRoomFailed));
    }
  }
}
