/** Lists: distinct members, and splitting into slices of bounded length. */
module Util {
  /** No member occurs twice. */
  ghost predicate Distinct<T>(s: seq<T>) {
    forall i, j | 0 <= i < j < |s| :: s[i] != s[j]
  }

  /** The slices `splitList` produces: full ones, then a shorter one if anything is left. */
  function Chunks<T>(list: seq<T>, limit: nat): seq<seq<T>>
    requires limit > 0
  {
    if list == [] then []
    else if |list| <= limit then [list]
    else [list[..limit]] + Chunks(list[limit..], limit)
  }

  function Flatten<T>(lists: seq<seq<T>>): seq<T> {
    if lists == [] then [] else lists[0] + Flatten(lists[1..])
  }

  lemma {:induction false} FlattenAppend<T>(a: seq<seq<T>>, b: seq<seq<T>>)
    ensures Flatten(a + b) == Flatten(a) + Flatten(b)
  {
    if a == [] {
      assert a + b == b;
    } else {
      assert (a + b)[1..] == a[1..] + b;
      FlattenAppend(a[1..], b);
    }
  }

  lemma FlattenSnoc<T>(chunks: seq<seq<T>>, i: nat)
    requires i < |chunks|
    ensures Flatten(chunks[..i + 1]) == Flatten(chunks[..i]) + chunks[i]
  {
    assert chunks[..i + 1] == chunks[..i] + [chunks[i]];
    FlattenAppend(chunks[..i], [chunks[i]]);
    assert Flatten([chunks[i]]) == chunks[i] + Flatten([chunks[i]][1..]);
  }

  /** Slices lose nothing, keep the order, and are neither empty nor too long. */
  lemma {:induction false} ChunksPartition<T>(list: seq<T>, limit: nat)
    requires limit > 0
    ensures Flatten(Chunks(list, limit)) == list
    ensures forall c | c in Chunks(list, limit) :: 0 < |c| <= limit
  {
    if |list| > limit {
      ChunksPartition(list[limit..], limit);
      assert list == list[..limit] + list[limit..];
    } else if list != [] {
      assert Flatten([list]) == list + Flatten([list][1..]);
    }
  }

  lemma {:induction false} ChunksAreFull<T>(list: seq<T>, limit: nat, i: nat)
    requires limit > 0 && i + 1 < |Chunks(list, limit)|
    ensures |Chunks(list, limit)[i]| == limit
  {
    if i > 0 { ChunksAreFull(list[limit..], limit, i - 1); }
  }

  lemma AreSlices<T>(list: seq<T>, limit: nat)
    requires limit > 0
    ensures var c := Chunks(list, limit);
            && Flatten(c) == list
            && forall i | 0 <= i < |c| :: if i < |c| - 1 then |c[i]| == limit else 0 < |c[i]| <= limit
  {
    ChunksPartition(list, limit);
    forall i | 0 <= i < |Chunks(list, limit)| - 1
      ensures |Chunks(list, limit)[i]| == limit
    {
      ChunksAreFull(list, limit, i);
    }
  }

  /** Slices of `limit` members, the last one of what is left. */
  method SplitList<T>(list: seq<T>, limit: nat) returns (lists: seq<seq<T>>)
    requires limit > 0
    ensures lists == Chunks(list, limit)
    ensures Flatten(lists) == list
    ensures forall i | 0 <= i < |lists| :: if i < |lists| - 1 then |lists[i]| == limit else 0 < |lists[i]| <= limit
  {
    lists := [];
    var i := 0;
    while i < |list|
      invariant lists + (if i < |list| then Chunks(list[i..], limit) else []) == Chunks(list, limit)
      decreases |list| - i
    {
      var next := if i + limit < |list| then i + limit else |list|;
      ghost var rest := if i + limit < |list| then Chunks(list[i + limit..], limit) else [];
      if i + limit < |list| {
        assert list[i..][..limit] == list[i..next] && list[i..][limit..] == list[i + limit..];
      } else {
        assert list[i..] == list[i..next];
      }
      assert Chunks(list[i..], limit) == [list[i..next]] + rest;
      assert lists + ([list[i..next]] + rest) == (lists + [list[i..next]]) + rest;
      lists := lists + [list[i..next]];
      i := i + limit;
    }
    AreSlices(list, limit);
  }
}
