/**
 * Ordered lists of records identified by a string key.
 *
 * Every table of the back end and every list held by a store slice is an
 * array of records compared by their `id` field. The array operations the
 * source applies to them (`find`, `findIndex`, `filter`, `push`, `splice`,
 * index assignment and the "append what is not held yet" merge) are defined
 * here once, over a key function, and used for all four entity kinds.
 */
module Records {
  import opened Wrappers

  /** Some record of `s` carries the key `id`. */
  predicate HasKey<T>(s: seq<T>, key: T -> string, id: string) {
    exists k :: 0 <= k < |s| && key(s[k]) == id
  }

  /** The keys held by `s` (the source's `new Set(list.map(r => r.id))`). */
  function Keys<T>(s: seq<T>, key: T -> string): (ks: set<string>)
    ensures forall id :: id in ks <==> HasKey(s, key, id)
  {
    set k | 0 <= k < |s| :: key(s[k])
  }

  /** Position `i` holds `id` and no earlier position does. */
  ghost predicate IsFirstMatch<T>(s: seq<T>, key: T -> string, id: string, i: int) {
    0 <= i < |s| && key(s[i]) == id && forall j :: 0 <= j < i ==> key(s[j]) != id
  }

  /** No two positions of `s` carry the same key. */
  ghost predicate DistinctKeys<T>(s: seq<T>, key: T -> string) {
    forall i, j :: 0 <= i < j < |s| ==> key(s[i]) != key(s[j])
  }

  /** `r` is `s` with some elements dropped and the rest kept in their order. */
  ghost predicate IsSubsequence<T>(r: seq<T>, s: seq<T>)
    decreases |s|
  {
    r == [] || (s != [] && ((r[0] == s[0] && IsSubsequence(r[1..], s[1..])) || IsSubsequence(r, s[1..])))
  }

  /** `findIndex(r => r.id === id)`: the first position holding `id`, or None for -1. */
  function FirstIndex<T>(s: seq<T>, key: T -> string, id: string): (r: Option<nat>)
    ensures r.None? <==> !HasKey(s, key, id)
    ensures r.Some? ==> IsFirstMatch(s, key, id, r.value)
  {
    if s == [] then None
    else if key(s[0]) == id then Some(0)
    else
      match FirstIndex(s[1..], key, id)
      case None =>
        assert forall k :: 1 <= k < |s| ==> s[k] == s[1..][k - 1];
        None
      case Some(i) =>
        assert forall j :: 1 <= j <= i ==> s[j] == s[1..][j - 1];
        Some(i + 1)
  }

  /** `find(r => r.id === id)`: the first record holding `id`, or None for undefined. */
  function Find<T>(s: seq<T>, key: T -> string, id: string): (r: Option<T>)
    ensures r.None? <==> !HasKey(s, key, id)
    ensures r.Some? ==> key(r.value) == id && exists i :: IsFirstMatch(s, key, id, i) && s[i] == r.value
  {
    match FirstIndex(s, key, id)
    case None => None
    case Some(i) => Some(s[i])
  }

  /** `filter(p)`: the elements satisfying `p`, in their order. */
  function Filter<T(!new)>(s: seq<T>, p: T -> bool): (r: seq<T>)
    ensures |r| <= |s|
    ensures forall x :: x in r <==> x in s && p(x)
  {
    if s == [] then []
    else
      assert forall x :: x in s <==> x == s[0] || x in s[1..];
      (if p(s[0]) then [s[0]] else []) + Filter(s[1..], p)
  }

  /** A filter keeps every passing element as often as it occurs and drops every failing one. */
  lemma {:induction false} FilterCount<T(!new)>(s: seq<T>, p: T -> bool)
    ensures forall x :: multiset(Filter(s, p))[x] == if p(x) then multiset(s)[x] else 0
    decreases |s|
  {
    if s != [] {
      FilterCount(s[1..], p);
      assert s == [s[0]] + s[1..];
      var head := if p(s[0]) then [s[0]] else [];
      assert Filter(s, p) == head + Filter(s[1..], p);
      assert multiset(Filter(s, p)) == multiset(head) + multiset(Filter(s[1..], p));
    }
  }

  lemma {:induction false} FilterIsSubsequence<T(!new)>(s: seq<T>, p: T -> bool)
    ensures IsSubsequence(Filter(s, p), s)
    decreases |s|
  {
    if s != [] {
      FilterIsSubsequence(s[1..], p);
      var r := Filter(s, p);
      if p(s[0]) {
        assert r[0] == s[0] && r[1..] == Filter(s[1..], p);
      } else {
        assert r == Filter(s[1..], p);
      }
    }
  }

  lemma {:induction false} FilterAppend<T(!new)>(a: seq<T>, b: seq<T>, p: T -> bool)
    ensures Filter(a + b, p) == Filter(a, p) + Filter(b, p)
    decreases |a|
  {
    if a == [] {
      assert a + b == b;
    } else {
      FilterAppend(a[1..], b, p);
      assert (a + b)[0] == a[0] && (a + b)[1..] == a[1..] + b;
      if p(a[0]) {
        assert Filter(a + b, p) == [a[0]] + Filter(a[1..] + b, p);
        assert Filter(a, p) == [a[0]] + Filter(a[1..], p);
      } else {
        assert Filter(a + b, p) == Filter(a[1..] + b, p);
        assert Filter(a, p) == Filter(a[1..], p);
      }
    }
  }

  /** Keeping the elements every one of which passes gives the list back unchanged. */
  lemma {:induction false} FilterKeepsAll<T(!new)>(s: seq<T>, p: T -> bool)
    requires forall x :: x in s ==> p(x)
    ensures Filter(s, p) == s
    decreases |s|
  {
    if s != [] {
      assert forall x :: x in s[1..] ==> x in s;
      FilterKeepsAll(s[1..], p);
    }
  }

  /** Keeping the elements when none passes gives the empty list. */
  lemma FilterDropsAll<T(!new)>(s: seq<T>, p: T -> bool)
    requires forall x :: x in s ==> !p(x)
    ensures Filter(s, p) == []
  {
  }

  lemma {:induction false} FilterKeepsDistinct<T(!new)>(s: seq<T>, p: T -> bool, key: T -> string)
    requires DistinctKeys(s, key)
    ensures DistinctKeys(Filter(s, p), key)
    decreases |s|
  {
    if s != [] {
      var tail := s[1..];
      assert DistinctKeys(tail, key) by {
        forall i, j | 0 <= i < j < |tail| ensures key(tail[i]) != key(tail[j]) {
          assert tail[i] == s[i + 1] && tail[j] == s[j + 1];
        }
      }
      FilterKeepsDistinct(tail, p, key);
      var rest := Filter(tail, p);
      forall x | x in rest ensures key(x) != key(s[0]) {
        var k :| 0 <= k < |tail| && tail[k] == x;
        assert tail[k] == s[k + 1];
      }
    }
  }

  /**
   * `payload.filter(r => !ids.has(r.id))`: the payload records whose key
   * `held` does not have, each as often as the payload has it.
   */
  function Unseen<T(!new)>(held: seq<T>, payload: seq<T>, key: T -> string): (r: seq<T>)
    ensures forall x :: multiset(r)[x] == if HasKey(held, key, key(x)) then 0 else multiset(payload)[x]
  {
    var existing := Keys(held, key);
    FilterCount(payload, x => key(x) !in existing);
    Filter(payload, x => key(x) !in existing)
  }

  /**
   * The scoped-fetch merge of `fetchBinsByParent`, `fetchItemsByBin` and
   * `fetchTagsByType`: the held list is kept as it is, and only payload
   * records whose key is not already held are appended, in payload order.
   * A held record is never refreshed by the payload.
   */
  function MergeUnseen<T(!new)>(held: seq<T>, payload: seq<T>, key: T -> string): (r: seq<T>)
    ensures |held| <= |r| <= |held| + |payload|
    ensures r[..|held|] == held
    ensures IsSubsequence(r[|held|..], payload)
    ensures forall k :: |held| <= k < |r| ==> r[k] in payload && !HasKey(held, key, key(r[k]))
    ensures forall x :: x in payload && !HasKey(held, key, key(x)) ==> x in r
    ensures r[|held|..] == Unseen(held, payload, key)
  {
    var existing := Keys(held, key);
    var unseen := Unseen(held, payload, key);
    FilterIsSubsequence(payload, x => key(x) !in existing);
    assert (held + unseen)[|held|..] == unseen;
    assert forall k :: |held| <= k < |held| + |unseen| ==> (held + unseen)[k] == unseen[k - |held|] && unseen[k - |held|] in unseen;
    held + unseen
  }

  /** A single payload record whose key is not held is appended. */
  lemma MergeUnseenOneNew<T(!new)>(held: seq<T>, x: T, key: T -> string)
    requires !HasKey(held, key, key(x))
    ensures MergeUnseen(held, [x], key) == held + [x]
  {
  }

  /** A single payload record whose key is held is dropped, even when it differs from the held copy. */
  lemma MergeUnseenOneHeld<T(!new)>(held: seq<T>, x: T, key: T -> string)
    requires HasKey(held, key, key(x))
    ensures MergeUnseen(held, [x], key) == held
  {
  }

  /** Re-applying the same scoped payload changes nothing. */
  lemma MergeUnseenIdempotent<T(!new)>(held: seq<T>, payload: seq<T>, key: T -> string)
    ensures MergeUnseen(MergeUnseen(held, payload, key), payload, key) == MergeUnseen(held, payload, key)
  {
    var m := MergeUnseen(held, payload, key);
    var existing := Keys(m, key);
    forall x | x in payload ensures key(x) in existing {
      if HasKey(held, key, key(x)) {
        var k :| 0 <= k < |held| && key(held[k]) == key(x);
        assert m[k] == m[..|held|][k] == held[k];
      } else {
        var k :| 0 <= k < |m| && m[k] == x;
      }
    }
  }

  /** The merged list holds exactly the keys of both inputs. */
  lemma MergeUnseenKeys<T(!new)>(held: seq<T>, payload: seq<T>, key: T -> string)
    ensures Keys(MergeUnseen(held, payload, key), key) == Keys(held, key) + Keys(payload, key)
  {
    MergedKeysComeFromInputs(held, payload, key);
    InputKeysReachMerge(held, payload, key);
  }

  lemma MergedKeysComeFromInputs<T(!new)>(held: seq<T>, payload: seq<T>, key: T -> string)
    ensures forall id :: HasKey(MergeUnseen(held, payload, key), key, id) ==> HasKey(held, key, id) || HasKey(payload, key, id)
  {
    var m := MergeUnseen(held, payload, key);
    forall id | HasKey(m, key, id) ensures HasKey(held, key, id) || HasKey(payload, key, id) {
      var k :| 0 <= k < |m| && key(m[k]) == id;
      if k < |held| {
        assert m[k] == m[..|held|][k];
      } else {
        var j :| 0 <= j < |payload| && payload[j] == m[k];
      }
    }
  }

  lemma InputKeysReachMerge<T(!new)>(held: seq<T>, payload: seq<T>, key: T -> string)
    ensures forall id :: HasKey(held, key, id) || HasKey(payload, key, id) ==> HasKey(MergeUnseen(held, payload, key), key, id)
  {
    var m := MergeUnseen(held, payload, key);
    forall id | HasKey(held, key, id) || HasKey(payload, key, id) ensures HasKey(m, key, id) {
      if HasKey(held, key, id) {
        var k :| 0 <= k < |held| && key(held[k]) == id;
        assert m[k] == m[..|held|][k];
      } else {
        var k :| 0 <= k < |payload| && key(payload[k]) == id;
        var j :| 0 <= j < |m| && m[j] == payload[k];
      }
    }
  }

  /** Distinct held keys and distinct payload keys give distinct merged keys. */
  lemma MergeUnseenDistinct<T(!new)>(held: seq<T>, payload: seq<T>, key: T -> string)
    requires DistinctKeys(held, key) && DistinctKeys(payload, key)
    ensures DistinctKeys(MergeUnseen(held, payload, key), key)
  {
    var existing := Keys(held, key);
    var unseen := Filter(payload, x => key(x) !in existing);
    FilterKeepsDistinct(payload, x => key(x) !in existing, key);
    var m := held + unseen;
    forall i, j | 0 <= i < j < |m| ensures key(m[i]) != key(m[j]) {
      if j >= |held| {
        assert m[j] == unseen[j - |held|];
        assert m[j] in unseen;
        if i < |held| {
          assert m[i] == held[i];
        } else {
          assert m[i] == unseen[i - |held|];
        }
      }
    }
  }

  /**
   * The `update*.fulfilled` rule: the first record whose key equals the
   * key of `x` is replaced by `x`; when no record has that key nothing is
   * appended and the list is unchanged.
   */
  function ReplaceFirst<T>(s: seq<T>, key: T -> string, x: T): (r: seq<T>)
    ensures |r| == |s|
    ensures HasKey(s, key, key(x)) ==> x in r
    ensures !HasKey(s, key, key(x)) ==> r == s
    ensures forall j :: 0 <= j < |s| ==> r[j] == s[j] || (r[j] == x && IsFirstMatch(s, key, key(x), j))
  {
    match FirstIndex(s, key, key(x))
    case None => s
    case Some(i) =>
      assert s[i := x][i] == x;
      s[i := x]
  }

  /** Replacing keeps the set of keys: an update never adds or drops a record. */
  lemma ReplaceFirstKeepsKeys<T>(s: seq<T>, key: T -> string, x: T)
    ensures Keys(ReplaceFirst(s, key, x), key) == Keys(s, key)
  {
    var r := ReplaceFirst(s, key, x);
    forall id ensures HasKey(r, key, id) <==> HasKey(s, key, id) {
      if HasKey(r, key, id) {
        var k :| 0 <= k < |r| && key(r[k]) == id;
        assert key(s[k]) == id;
      }
      if HasKey(s, key, id) {
        var k :| 0 <= k < |s| && key(s[k]) == id;
        assert key(r[k]) == id;
      }
    }
  }

  /** After an update, looking the record up by its key finds the new record. */
  lemma FindAfterReplaceFirst<T>(s: seq<T>, key: T -> string, x: T)
    requires HasKey(s, key, key(x))
    ensures Find(ReplaceFirst(s, key, x), key, key(x)) == Some(x)
  {
    var i := FirstIndex(s, key, key(x)).value;
    var r := ReplaceFirst(s, key, x);
    assert r == s[i := x];
    assert IsFirstMatch(r, key, key(x), i);
  }

  /** An update whose record keeps its key keeps the keys distinct. */
  lemma ReplaceFirstKeepsDistinct<T>(s: seq<T>, key: T -> string, x: T)
    requires DistinctKeys(s, key)
    ensures DistinctKeys(ReplaceFirst(s, key, x), key)
  {
    var r := ReplaceFirst(s, key, x);
    assert forall k :: 0 <= k < |s| ==> key(r[k]) == key(s[k]);
  }

  /** Appending a record whose key is not held keeps the keys distinct. */
  lemma AppendUnseenKeepsDistinct<T>(s: seq<T>, key: T -> string, x: T)
    requires DistinctKeys(s, key) && !HasKey(s, key, key(x))
    ensures DistinctKeys(s + [x], key)
  {
    var r := s + [x];
    forall i, j | 0 <= i < j < |r| ensures key(r[i]) != key(r[j]) {
      assert r[i] == s[i];
      if j < |s| { assert r[j] == s[j]; }
    }
  }

  /** Every record with key `id` removed, the others kept in order (`filter(r => r.id !== id)`). */
  function RemoveAll<T(!new)>(s: seq<T>, key: T -> string, id: string): (r: seq<T>)
    ensures !HasKey(r, key, id)
    ensures forall x :: x in r <==> x in s && key(x) != id
    ensures forall x :: multiset(r)[x] == if key(x) == id then 0 else multiset(s)[x]
    ensures IsSubsequence(r, s)
  {
    FilterIsSubsequence(s, x => key(x) != id);
    FilterCount(s, x => key(x) != id);
    var r := Filter(s, x => key(x) != id);
    assert forall k :: 0 <= k < |r| ==> r[k] in r;
    r
  }

  /** `splice(findIndex(...), 1)`: only the first record with key `id` removed. */
  function RemoveFirst<T>(s: seq<T>, key: T -> string, id: string): (r: seq<T>)
    ensures !HasKey(s, key, id) ==> r == s
    ensures HasKey(s, key, id) ==> |r| == |s| - 1 && exists i :: IsFirstMatch(s, key, id, i) && r == s[..i] + s[i + 1..]
  {
    match FirstIndex(s, key, id)
    case None => s
    case Some(i) => s[..i] + s[i + 1..]
  }

  /** A failing element contributes nothing to a filter. */
  lemma FilterSkipsFailing<T(!new)>(a: seq<T>, y: T, b: seq<T>, p: T -> bool)
    requires !p(y)
    ensures Filter(a + [y] + b, p) == Filter(a, p) + Filter(b, p)
  {
    FilterAppend(a + [y], b, p);
    FilterAppend(a, [y], p);
    assert [y][1..] == [];
    assert Filter([y], p) == [];
    assert Filter(a, p) + [] == Filter(a, p);
  }

  /** Filtering out one failing element between two passing stretches leaves the two stretches. */
  lemma FilterDropsOne<T(!new)>(a: seq<T>, y: T, b: seq<T>, p: T -> bool)
    requires forall x :: x in a ==> p(x)
    requires forall x :: x in b ==> p(x)
    requires !p(y)
    ensures Filter(a + [y] + b, p) == a + b
  {
    FilterSkipsFailing(a, y, b, p);
    FilterKeepsAll(a, p);
    FilterKeepsAll(b, p);
  }

  /** When keys are distinct, removing the first match removes every match. */
  lemma RemoveFirstIsRemoveAll<T(!new)>(s: seq<T>, key: T -> string, id: string)
    requires DistinctKeys(s, key)
    ensures RemoveFirst(s, key, id) == RemoveAll(s, key, id)
  {
    var p := x => key(x) != id;
    match FirstIndex(s, key, id)
    case None =>
      FilterKeepsAll(s, p);
    case Some(i) =>
      var a, b := s[..i], s[i + 1..];
      assert s == a + [s[i]] + b;
      assert forall k :: 0 <= k < |b| ==> b[k] == s[i + 1 + k];
      FilterDropsOne(a, s[i], b, p);
  }
}
