/**
 * The bins slice of the client store: the bins held by the client, the bin
 * shown by the detail screen, and the status of the last operation.
 *
 * Each case reducer is a method on BinState. The thunks, which call the back
 * end and then run the fulfilled or the rejected reducer, are the methods at
 * the end of the module; each runs as one atomic step after its pending case.
 */
module BinSlice {
  import opened Wrappers
  import opened Types
  import Records
  import MockApi
  import Async

  const FetchBinsFailed := "Failed to fetch bins"
  const FetchBinFailed := "Failed to fetch bin"
  const FetchBinsByParentFailed := "Failed to fetch bins by parent"
  const CreateBinFailed := "Failed to create bin"
  const UpdateBinFailed := "Failed to update bin"
  const DeleteBinFailed := "Failed to delete bin"
  /** What `fetchBin` and `updateBin` throw when the back end has no such bin. */
  const BinNotFound := "Bin not found"

  class BinState {
    var bins: seq<Bin>
    var currentBin: Option<Bin>
    var loading: bool
    var error: Option<string>

    /** `initialState`. */
    constructor ()
      ensures bins == [] && currentBin == None && !loading && error == None
    {
      bins, currentBin, loading, error := [], None, false, None;
    }

    method ClearCurrentBin()
      modifies this
      ensures currentBin == None
      ensures bins == old(bins) && loading == old(loading) && error == old(error)
    {
      currentBin := None;
    }

    method SetError(message: string)
      modifies this
      ensures error == Some(message)
      ensures bins == old(bins) && currentBin == old(currentBin) && loading == old(loading)
    {
      error := Some(message);
    }

    method ClearError()
      modifies this
      ensures error == None
      ensures bins == old(bins) && currentBin == old(currentBin) && loading == old(loading)
    {
      error := None;
    }

    /** The pending case of every thunk of the slice. */
    method Pending()
      modifies this
      ensures loading && error == None
      ensures bins == old(bins) && currentBin == old(currentBin)
    {
      loading := true;
      error := None;
    }

    /** The rejected case of every thunk; `fallback` is that thunk's default text. */
    method Rejected(fallback: string, message: Option<string>)
      modifies this
      ensures !loading && error == Some(Async.ErrorText(message, fallback))
      ensures bins == old(bins) && currentBin == old(currentBin)
    {
      loading := false;
      error := Some(Async.ErrorText(message, fallback));
    }

    /** `fetchBins.fulfilled`: the whole list is replaced by the payload. */
    method FetchBinsFulfilled(payload: seq<Bin>)
      modifies this
      ensures !loading && bins == payload
      ensures currentBin == old(currentBin) && error == old(error)
    {
      loading := false;
      bins := payload;
    }

    /** `fetchBin.fulfilled`: the fetched bin becomes the current one; the list is not touched. */
    method FetchBinFulfilled(bin: Bin)
      modifies this
      ensures !loading && currentBin == Some(bin)
      ensures bins == old(bins) && error == old(error)
    {
      loading := false;
      currentBin := Some(bin);
    }

    /**
     * `fetchBinsByParent.fulfilled`: the held bins stay exactly as they
     * are and only payload bins with an id not held yet are appended.
     */
    method FetchBinsByParentFulfilled(payload: seq<Bin>)
      modifies this
      ensures !loading && bins == Records.MergeUnseen(old(bins), payload, BinKey)
      ensures currentBin == old(currentBin) && error == old(error)
    {
      loading := false;
      var newBins := Records.Unseen(bins, payload, BinKey);
      bins := bins + newBins;
    }

    /** `createBin.fulfilled`: the created bin is pushed at the end. */
    method CreateBinFulfilled(bin: Bin)
      modifies this
      ensures !loading && bins == old(bins) + [bin]
      ensures currentBin == old(currentBin) && error == old(error)
    {
      loading := false;
      bins := bins + [bin];
    }

    /**
     * `updateBin.fulfilled`: the first held bin with the payload's id is
     * replaced (nothing is appended when none has it), and the current bin
     * is replaced only when its id is the payload's id.
     */
    method UpdateBinFulfilled(bin: Bin)
      modifies this
      ensures !loading && bins == Records.ReplaceFirst(old(bins), BinKey, bin)
      ensures old(currentBin).Some? && old(currentBin).value.id == bin.id ==> currentBin == Some(bin)
      ensures !(old(currentBin).Some? && old(currentBin).value.id == bin.id) ==> currentBin == old(currentBin)
      ensures error == old(error)
    {
      loading := false;
      var index := Records.FirstIndex(bins, BinKey, bin.id);
      if index.Some? {
        bins := bins[index.value := bin];
      }
      if currentBin.Some? && currentBin.value.id == bin.id {
        currentBin := Some(bin);
      }
    }

    /**
     * `deleteBin.fulfilled`: every held bin with that id is dropped, and the
     * current bin is cleared exactly when it has that id.
     */
    method DeleteBinFulfilled(id: string)
      modifies this
      ensures !loading && bins == Records.RemoveAll(old(bins), BinKey, id)
      ensures currentBin.None? <==> old(currentBin).None? || old(currentBin).value.id == id
      ensures currentBin.Some? ==> currentBin == old(currentBin)
      ensures error == old(error)
    {
      loading := false;
      bins := Records.RemoveAll(bins, BinKey, id);
      if currentBin.Some? && currentBin.value.id == id {
        currentBin := None;
      }
    }
  }

  // ---- thunks: pending, one back-end call, then fulfilled or rejected ----

  method FetchBins(api: MockApi.Backend, s: BinState)
    modifies s
    ensures !s.loading && s.error == None
    ensures s.bins == api.bins && s.currentBin == old(s.currentBin)
  {
    s.Pending();
    s.FetchBinsFulfilled(api.bins);
  }

  /** `fetchBin`: rejects with "Bin not found" when the back end has no bin with that id. */
  method FetchBin(api: MockApi.Backend, s: BinState, id: string)
    modifies s
    ensures !s.loading && s.bins == old(s.bins)
    ensures match MockApi.Lookup(api.bins, BinKey, id)
            case None => s.error == Some(BinNotFound) && s.currentBin == old(s.currentBin)
            case Some(b) => s.error == None && s.currentBin == Some(b)
  {
    s.Pending();
    var found := MockApi.Lookup(api.bins, BinKey, id);
    match found {
      case None => s.Rejected(FetchBinFailed, Some(BinNotFound));
      case Some(b) => s.FetchBinFulfilled(b);
    }
  }

  method FetchBinsByParent(api: MockApi.Backend, s: BinState, parentId: string, parentType: ParentType)
    modifies s
    ensures !s.loading && s.error == None && s.currentBin == old(s.currentBin)
    ensures s.bins == Records.MergeUnseen(old(s.bins), MockApi.ChildBins(api.bins, parentId, parentType), BinKey)
  {
    s.Pending();
    s.FetchBinsByParentFulfilled(MockApi.ChildBins(api.bins, parentId, parentType));
  }

  method CreateBin(api: MockApi.Backend, s: BinState, fields: BinFields, draw: nat -> MockApi.AlphabetIndex, ghost bound: nat)
    returns (b: Bin)
    requires !Records.HasKey(api.bins, BinKey, MockApi.Attempt(draw, bound))
    modifies api, s
    ensures b == fields.WithId(b.id) && MockApi.WellFormedCode(b.id)
    ensures exists n: nat :: n <= bound && b.id == MockApi.Attempt(draw, n) && MockApi.FirstFreeAttempt(old(api.bins), draw, n)
    ensures api.bins == old(api.bins) + [b] && !Records.HasKey(old(api.bins), BinKey, b.id)
    ensures api.rooms == old(api.rooms) && api.items == old(api.items) && api.tags == old(api.tags)
    ensures !s.loading && s.error == None
    ensures s.bins == old(s.bins) + [b] && s.currentBin == old(s.currentBin)
  {
    s.Pending();
    b := api.CreateBin(fields, draw, bound);
    s.CreateBinFulfilled(b);
  }

  /** `updateBin`: rejects with "Bin not found", leaving the list alone, when no bin has that id. */
  method UpdateBin(api: MockApi.Backend, s: BinState, id: string, patch: BinPatch)
    modifies api, s
    ensures api.rooms == old(api.rooms) && api.items == old(api.items) && api.tags == old(api.tags)
    ensures !s.loading
    ensures match Records.FirstIndex(old(api.bins), BinKey, id)
            case None =>
              && api.bins == old(api.bins)
              && s.error == Some(BinNotFound) && s.bins == old(s.bins) && s.currentBin == old(s.currentBin)
            case Some(i) =>
              var updated := PatchBin(old(api.bins)[i], patch);
              && api.bins == old(api.bins)[i := updated]
              && s.error == None && s.bins == Records.ReplaceFirst(old(s.bins), BinKey, updated)
              && s.currentBin == if old(s.currentBin).Some? && old(s.currentBin).value.id == updated.id then Some(updated) else old(s.currentBin)
  {
    s.Pending();
    var r := api.UpdateBin(id, patch);
    match r {
      case None => s.Rejected(UpdateBinFailed, Some(BinNotFound));
      case Some(b) => s.UpdateBinFulfilled(b);
    }
  }

  /** `deleteBin`: rejects with "Failed to delete bin", leaving the list alone, when no bin has that id. */
  method DeleteBin(api: MockApi.Backend, s: BinState, id: string)
    modifies api, s
    ensures api.bins == Records.RemoveFirst(old(api.bins), BinKey, id)
    ensures api.rooms == old(api.rooms) && api.items == old(api.items) && api.tags == old(api.tags)
    ensures !s.loading
    ensures !Records.HasKey(old(api.bins), BinKey, id) ==>
              s.error == Some(DeleteBinFailed) && s.bins == old(s.bins) && s.currentBin == old(s.currentBin)
    ensures Records.HasKey(old(api.bins), BinKey, id) ==>
              && s.error == None && s.bins == Records.RemoveAll(old(s.bins), BinKey, id)
              && s.currentBin == if old(s.currentBin).Some? && old(s.currentBin).value.id == id then None else old(s.currentBin)
  {
    s.Pending();
    var ok := api.DeleteBin(id);
    if ok {
      s.DeleteBinFulfilled(id);
    } else {
      s.Rejected(DeleteBinFailed, Some(DeleteBinFailed));
    }
  }

  // ---- what a scoped fetch and a scan promise ----

  /**
   * Fetching the bins of one parent keeps every held bin where it was, and
   * adds no bin of another parent: a bin of the result whose parent is not
   * the fetched one was held before.
   */
  lemma ScopedFetchKeepsOtherParents(held: seq<Bin>, table: seq<Bin>, parentId: string, parentType: ParentType)
    ensures var merged := Records.MergeUnseen(held, MockApi.ChildBins(table, parentId, parentType), BinKey);
            && merged[..|held|] == held
            && forall b :: b in merged && !(b.parentId == parentId && b.parentType == parentType) ==> b in held
  {
    var children := MockApi.ChildBins(table, parentId, parentType);
    var merged := Records.MergeUnseen(held, children, BinKey);
    forall b | b in merged && !(b.parentId == parentId && b.parentType == parentType) ensures b in held {
      var k :| 0 <= k < |merged| && merged[k] == b;
      if k < |held| {
        assert merged[..|held|][k] == b;
      }
    }
  }

  /**
   * Two scoped fetches that bring different copies of a bin that is not held
   * leave whichever copy arrived first; the held list is not touched.
   */
  lemma ScopedFetchKeepsFirstArrival(held: seq<Bin>, first: Bin, second: Bin)
    requires first.id == second.id && !Records.HasKey(held, BinKey, first.id)
    ensures Records.MergeUnseen(Records.MergeUnseen(held, [first], BinKey), [second], BinKey) == held + [first]
    ensures Records.MergeUnseen(Records.MergeUnseen(held, [second], BinKey), [first], BinKey) == held + [second]
  {
    Records.MergeUnseenOneNew(held, first, BinKey);
    Records.MergeUnseenOneNew(held, second, BinKey);
    AppendedKeyHeld(held, first);
    AppendedKeyHeld(held, second);
    Records.MergeUnseenOneHeld(held + [first], second, BinKey);
    Records.MergeUnseenOneHeld(held + [second], first, BinKey);
  }

  lemma AppendedKeyHeld(held: seq<Bin>, b: Bin)
    ensures Records.HasKey(held + [b], BinKey, b.id)
  {
    assert (held + [b])[|held|] == b;
  }

  /**
   * The scanner screen resolves a scanned code with the exact, case-sensitive
   * lookup of `getBin`. Every generated code is upper case, so a scanned text
   * holding a lower-case letter finds no bin.
   */
  lemma ScanMatchesExactCodeOnly(bins: seq<Bin>, code: string, k: nat)
    requires forall b :: b in bins ==> MockApi.WellFormedCode(b.id)
    requires k < |code| && 'a' <= code[k] <= 'z'
    ensures MockApi.Lookup(bins, BinKey, code) == None
  {
  }

  /** When bin codes are distinct, scanning the code printed on a bin finds that very bin. */
  lemma ScanFindsPrintedCode(bins: seq<Bin>, i: nat)
    requires Records.DistinctKeys(bins, BinKey) && i < |bins|
    ensures MockApi.Lookup(bins, BinKey, bins[i].id) == Some(bins[i])
  {
    assert Records.IsFirstMatch(bins, BinKey, bins[i].id, i);
  }
}
