/** The cache operations the two list controllers share: the `filter` that a successful
    delete applies, the `map` that a successful save applies, and the order in which a
    list widget chooses what to render. Items are identified by a key function (the
    `id` field of a post or of a user). */
module ListCache {
  import opened JsValues

  /** `s.filter(x => key(x) !== id)`. */
  function Without<T(==)>(s: seq<T>, key: T -> string, id: string): (r: seq<T>)
    ensures |r| <= |s|
    ensures forall i :: 0 <= i < |r| ==> key(r[i]) != id
  {
    if s == [] then []
    else
      var rest := Without(s[1..], key, id);
      if key(s[0]) == id then rest else [s[0]] + rest
  }

  /** Filtering removes exactly the items carrying the id: every other item keeps its
      number of occurrences, and those carrying it have none left. */
  lemma {:induction false} WithoutCounts<T(!new)>(s: seq<T>, key: T -> string, id: string)
    ensures forall x :: multiset(Without(s, key, id))[x] == if key(x) == id then 0 else multiset(s)[x]
  {
    if s != [] {
      WithoutCounts(s[1..], key, id);
      assert s == [s[0]] + s[1..];
    }
  }

  /** `s.map(x => key(x) === id ? v : x)`. */
  function ReplaceWhere<T>(s: seq<T>, key: T -> string, id: string, v: T): (r: seq<T>)
    ensures |r| == |s|
    ensures forall i :: 0 <= i < |s| ==> r[i] == if key(s[i]) == id then v else s[i]
  {
    if s == [] then []
    else [if key(s[0]) == id then v else s[0]] + ReplaceWhere(s[1..], key, id, v)
  }

  /** Filtering distributes over concatenation. */
  lemma {:induction false} WithoutAppend<T(!new)>(a: seq<T>, b: seq<T>, key: T -> string, id: string)
    ensures Without(a + b, key, id) == Without(a, key, id) + Without(b, key, id)
  {
    if a == [] {
      assert a + b == b;
    } else {
      assert (a + b)[0] == a[0];
      assert (a + b)[1..] == a[1..] + b;
      WithoutAppend(a[1..], b, key, id);
    }
  }

  /** The position a kept item `s[i]` takes in the filtered list: the number of items kept
      before it. */
  ghost function Rank<T(!new)>(s: seq<T>, key: T -> string, id: string, i: nat): nat
    requires i <= |s|
  {
    |Without(s[..i], key, id)|
  }

  /** A kept item lands at its rank. */
  lemma WithoutPosition<T(!new)>(s: seq<T>, key: T -> string, id: string, i: nat)
    requires i < |s| && key(s[i]) != id
    ensures Rank(s, key, id, i) < |Without(s, key, id)|
    ensures Without(s, key, id)[Rank(s, key, id, i)] == s[i]
  {
    assert s == s[..i] + s[i..];
    WithoutAppend(s[..i], s[i..], key, id);
    assert s[i..] == [s[i]] + s[i + 1..];
  }

  /** Ranks grow past every kept item. */
  lemma RankGrows<T(!new)>(s: seq<T>, key: T -> string, id: string, i: nat, j: nat)
    requires i < j <= |s| && key(s[i]) != id
    ensures Rank(s, key, id, i) < Rank(s, key, id, j)
  {
    assert s[..j] == s[..i] + s[i..j];
    WithoutAppend(s[..i], s[i..j], key, id);
    assert s[i..j] == [s[i]] + s[i + 1..j];
  }

  /** Filtering keeps the relative order of the survivors: two kept items appear in the
      result in the order they had, each at its rank. */
  lemma WithoutPreservesOrder<T(!new)>(s: seq<T>, key: T -> string, id: string, i: nat, j: nat)
    requires i < j < |s| && key(s[i]) != id && key(s[j]) != id
    ensures Rank(s, key, id, i) < Rank(s, key, id, j) < |Without(s, key, id)|
    ensures Without(s, key, id)[Rank(s, key, id, i)] == s[i]
    ensures Without(s, key, id)[Rank(s, key, id, j)] == s[j]
  {
    RankGrows(s, key, id, i, j);
    WithoutPosition(s, key, id, i);
    WithoutPosition(s, key, id, j);
  }

  /** Deleting an id that no item carries changes nothing. */
  lemma {:induction false} WithoutAbsent<T(!new)>(s: seq<T>, key: T -> string, id: string)
    requires forall i :: 0 <= i < |s| ==> key(s[i]) != id
    ensures Without(s, key, id) == s
  {
    if s != [] {
      WithoutAbsent(s[1..], key, id);
    }
  }

  /** Deleting the same id twice is deleting it once. */
  lemma WithoutIdempotent<T(!new)>(s: seq<T>, key: T -> string, id: string)
    ensures Without(Without(s, key, id), key, id) == Without(s, key, id)
  {
    WithoutAbsent(Without(s, key, id), key, id);
  }

  /** Two deletes commute: whichever completes first, the cache ends the same. */
  lemma {:induction false} DeletesCommute<T(!new)>(s: seq<T>, key: T -> string, a: string, b: string)
    ensures Without(Without(s, key, a), key, b) == Without(Without(s, key, b), key, a)
  {
    if s != [] {
      DeletesCommute(s[1..], key, a, b);
      WithoutAppend([s[0]], s[1..], key, a);
      WithoutAppend([s[0]], s[1..], key, b);
      WithoutAppend(Without([s[0]], key, a), Without(s[1..], key, a), key, b);
      WithoutAppend(Without([s[0]], key, b), Without(s[1..], key, b), key, a);
      assert [s[0]][1..] == [];
    }
  }

  /** Saving with a returned item that keeps the id, then deleting that id, is the same as
      deleting it: a save touches only the items a delete of that id would remove. */
  lemma {:induction false} WithoutAfterReplace<T(!new)>(s: seq<T>, key: T -> string, id: string, v: T)
    requires key(v) == id
    ensures Without(ReplaceWhere(s, key, id, v), key, id) == Without(s, key, id)
  {
    if s != [] {
      var r := ReplaceWhere(s, key, id, v);
      assert r[1..] == ReplaceWhere(s[1..], key, id, v);
      WithoutAfterReplace(s[1..], key, id, v);
    }
  }

  /** What a list widget renders, in the order the component tests for it. */
  datatype Screen<T> = Spinner | Failed(message: string) | NothingFound | Listed(rows: seq<T>)

  /** `if (loading) …; if (error) …; if (items.length === 0) …; return list`. */
  function ScreenFor<T>(loading: bool, error: Option<string>, rows: seq<T>): (v: Screen<T>)
    ensures v.Spinner? <==> loading
    ensures v.Failed? <==> !loading && Truthy(error)
    ensures v.Failed? ==> v.message == error.value && v.message != ""
    ensures v.NothingFound? <==> !loading && !Truthy(error) && |rows| == 0
    ensures v.Listed? <==> !loading && !Truthy(error) && |rows| > 0
    ensures v.Listed? ==> v.rows == rows
  {
    if loading then Spinner
    else if Truthy(error) then Failed(error.value)
    else if |rows| == 0 then NothingFound
    else Listed(rows)
  }
}
