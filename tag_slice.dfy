/**
 * The tags slice of the client store: the tags held by the client and the
 * status of the last operation. Unlike the other record slices it keeps no
 * "current" tag.
 *
 * Each case reducer is a method on TagState; the thunks are the methods at the
 * end of the module, each one atomic step after its pending case.
 */
module TagSlice {
  import opened Wrappers
  import opened Types
  import Records
  import MockApi
  import Async

  const FetchTagsFailed := "Failed to fetch tags"
  const FetchTagsByTypeFailed := "Failed to fetch tags by type"
  const CreateTagFailed := "Failed to create tag"
  const UpdateTagFailed := "Failed to update tag"
  const DeleteTagFailed := "Failed to delete tag"
  /** What `updateTag` throws when the back end has no such tag. */
  const TagNotFound := "Tag not found"

  class TagState {
    var tags: seq<Tag>
    var loading: bool
    var error: Option<string>

    /** `initialState`. */
    constructor ()
      ensures tags == [] && !loading && error == None
    {
      tags, loading, error := [], false, None;
    }

    method SetError(message: string)
      modifies this
      ensures error == Some(message)
      ensures tags == old(tags) && loading == old(loading)
    {
      error := Some(message);
    }

    method ClearError()
      modifies this
      ensures error == None
      ensures tags == old(tags) && loading == old(loading)
    {
      error := None;
    }

    /** The pending case of every thunk of the slice. */
    method Pending()
      modifies this
      ensures loading && error == None
      ensures tags == old(tags)
    {
      loading := true;
      error := None;
    }

    /** The rejected case of every thunk; `fallback` is that thunk's default text. */
    method Rejected(fallback: string, message: Option<string>)
      modifies this
      ensures !loading && error == Some(Async.ErrorText(message, fallback))
      ensures tags == old(tags)
    {
      loading := false;
      error := Some(Async.ErrorText(message, fallback));
    }

    /** `fetchTags.fulfilled`: the whole list is replaced by the payload. */
    method FetchTagsFulfilled(payload: seq<Tag>)
      modifies this
      ensures !loading && tags == payload
      ensures error == old(error)
    {
      loading := false;
      tags := payload;
    }

    /**
     * `fetchTagsByType.fulfilled`: the held tags stay exactly as they are and
     * only payload tags with an id not held yet are appended.
     */
    method FetchTagsByTypeFulfilled(payload: seq<Tag>)
      modifies this
      ensures !loading && tags == Records.MergeUnseen(old(tags), payload, TagKey)
      ensures error == old(error)
    {
      loading := false;
      var newTags := Records.Unseen(tags, payload, TagKey);
      tags := tags + newTags;
    }

    /** `createTag.fulfilled`: the created tag is pushed at the end. */
    method CreateTagFulfilled(tag: Tag)
      modifies this
      ensures !loading && tags == old(tags) + [tag]
      ensures error == old(error)
    {
      loading := false;
      tags := tags + [tag];
    }

    /**
     * `updateTag.fulfilled`: the first held tag with the payload's id is
     * replaced; nothing is appended when none has it.
     */
    method UpdateTagFulfilled(tag: Tag)
      modifies this
      ensures !loading && tags == Records.ReplaceFirst(old(tags), TagKey, tag)
      ensures error == old(error)
    {
      loading := false;
      var index := Records.FirstIndex(tags, TagKey, tag.id);
      if index.Some? {
        tags := tags[index.value := tag];
      }
    }

    /** `deleteTag.fulfilled`: every held tag with that id is dropped. */
    method DeleteTagFulfilled(id: string)
      modifies this
      ensures !loading && tags == Records.RemoveAll(old(tags), TagKey, id)
      ensures error == old(error)
    {
      loading := false;
      tags := Records.RemoveAll(tags, TagKey, id);
    }
  }

  // ---- thunks: pending, one back-end call, then fulfilled or rejected ----

  method FetchTags(api: MockApi.Backend, s: TagState)
    modifies s
    ensures !s.loading && s.error == None && s.tags == api.tags
  {
    s.Pending();
    s.FetchTagsFulfilled(api.tags);
  }

  method FetchTagsByType(api: MockApi.Backend, s: TagState, kind: TagType)
    modifies s
    ensures !s.loading && s.error == None
    ensures s.tags == Records.MergeUnseen(old(s.tags), MockApi.TagsOfType(api.tags, kind), TagKey)
  {
    s.Pending();
    s.FetchTagsByTypeFulfilled(MockApi.TagsOfType(api.tags, kind));
  }

  method CreateTag(api: MockApi.Backend, s: TagState, fields: TagFields) returns (t: Tag)
    modifies api, s
    ensures t == fields.WithId(MockApi.SequentialId(MockApi.TagPrefix, |old(api.tags)|))
    ensures api.tags == old(api.tags) + [t]
    ensures api.rooms == old(api.rooms) && api.bins == old(api.bins) && api.items == old(api.items)
    ensures !s.loading && s.error == None && s.tags == old(s.tags) + [t]
  {
    s.Pending();
    t := api.CreateTag(fields);
    s.CreateTagFulfilled(t);
  }

  /** `updateTag`: rejects with "Tag not found", leaving the list alone, when no tag has that id. */
  method UpdateTag(api: MockApi.Backend, s: TagState, id: string, patch: TagPatch)
    modifies api, s
    ensures api.rooms == old(api.rooms) && api.bins == old(api.bins) && api.items == old(api.items)
    ensures !s.loading
    ensures match Records.FirstIndex(old(api.tags), TagKey, id)
            case None =>
              && api.tags == old(api.tags)
              && s.error == Some(TagNotFound) && s.tags == old(s.tags)
            case Some(i) =>
              var updated := PatchTag(old(api.tags)[i], patch);
              && api.tags == old(api.tags)[i := updated]
              && s.error == None && s.tags == Records.ReplaceFirst(old(s.tags), TagKey, updated)
  {
    s.Pending();
    var r := api.UpdateTag(id, patch);
    match r {
      case None => s.Rejected(UpdateTagFailed, Some(TagNotFound));
      case Some(tag) => s.UpdateTagFulfilled(tag);
    }
  }

  /** `deleteTag`: rejects with "Failed to delete tag", leaving the list alone, when no tag has that id. */
  method DeleteTag(api: MockApi.Backend, s: TagState, id: string)
    modifies api, s
    ensures api.tags == Records.RemoveFirst(old(api.tags), TagKey, id)
    ensures api.rooms == old(api.rooms) && api.bins == old(api.bins) && api.items == old(api.items)
    ensures !s.loading
    ensures !Records.HasKey(old(api.tags), TagKey, id) ==> s.error == Some(DeleteTagFailed) && s.tags == old(s.tags)
    ensures Records.HasKey(old(api.tags), TagKey, id) ==>
              s.error == None && s.tags == Records.RemoveAll(old(s.tags), TagKey, id)
  {
    s.Pending();
    var ok := api.DeleteTag(id);
    if ok {
      s.DeleteTagFulfilled(id);
    } else {
      s.Rejected(DeleteTagFailed, Some(DeleteTagFailed));
    }
  }
}
