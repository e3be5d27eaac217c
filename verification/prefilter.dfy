/**
 Selecting the transactions of interest among those of a block: answers cached earlier are reused, the
 rest go through an inverted index from keys (output addresses, or spent outpoints) to transactions, and
 one bulk query tells which keys are known.
 */
module Prefilter {
  import opened Util
  import opened Wrappers

  type Txid = string

  // An output address, or a spent outpoint written txid-index.
  type Key = string

  /** A transaction with the keys it is found by. */
  datatype Tx = Tx(txid: Txid, keys: seq<Key>)

  type Cache = map<Txid, bool>

  /** The bulk query: rows, in any order and number, for exactly those keys that are known. */
  datatype Lookup = Lookup(answer: seq<Key> -> seq<Key>, known: Key -> bool)

  ghost predicate Honest(l: Lookup) {
    forall keys, k {:trigger k in l.answer(keys)} :: k in l.answer(keys) <==> k in keys && l.known(k)
  }

  predicate HasKnownKey(l: Lookup, tx: Tx) {
    exists j | 0 <= j < |tx.keys| :: l.known(tx.keys[j])
  }

  /** The naive scan's test of one transaction. */
  predicate Wanted(l: Lookup, cache: Cache, tx: Tx) {
    if tx.txid in cache then cache[tx.txid] else HasKnownKey(l, tx)
  }

  /** `result` picks the transactions at the positions `order`: each wanted one exactly once, no other. */
  ghost predicate PicksWanted(l: Lookup, cache: Cache, txs: seq<Tx>, order: seq<nat>, result: seq<Tx>) {
    && Distinct(order)
    && (forall i: nat :: i in order <==> i < |txs| && Wanted(l, cache, txs[i]))
    && |result| == |order|
    && (forall j | 0 <= j < |order| :: order[j] < |txs| && result[j] == txs[order[j]])
  }

  // ----- the inverted index

  type Index = map<Key, seq<nat>>

  ghost predicate InIndex(index: Index, k: Key, i: nat) {
    k in index && i in index[k]
  }

  /** The index maps each key of the first `n` transactions, cached ones aside, to where it occurs. */
  ghost predicate Indexes(index: Index, cache: Cache, txs: seq<Tx>, n: nat)
    requires n <= |txs|
  {
    forall k: Key, i: nat {:trigger InIndex(index, k, i)} ::
      InIndex(index, k, i) <==> i < n && txs[i].txid !in cache && k in txs[i].keys
  }

  function AddTo(index: Index, k: Key, i: nat): (more: Index)
    ensures forall h: Key, p: nat {:trigger InIndex(more, h, p)} ::
              InIndex(more, h, p) <==> InIndex(index, h, p) || (h == k && p == i)
  {
    index[k := (if k in index then index[k] else []) + [i]]
  }

  /** Adds the keys of transaction `i`. */
  method IndexTx(index: Index, keys: seq<Key>, cache: Cache, txs: seq<Tx>, i: nat)
    returns (more: Index, all: seq<Key>)
    requires i < |txs| && txs[i].txid !in cache && Indexes(index, cache, txs, i)
    requires forall k :: k in keys <==> k in index
    ensures Indexes(more, cache, txs, i + 1)
    ensures forall k :: k in all <==> k in more
  {
    more, all := index, keys;
    var own := txs[i].keys;
    for j := 0 to |own|
      invariant forall k: Key, p: nat {:trigger InIndex(more, k, p)} ::
                  InIndex(more, k, p) <==> InIndex(index, k, p) || (k in own[..j] && p == i)
      invariant forall k :: k in all <==> k in more
    {
      assert own[..j + 1] == own[..j] + [own[j]];
      all := all + [own[j]];
      more := AddTo(more, own[j], i);
    }
    assert own[..|own|] == own;
  }

  /** Reads the cache and indexes what is not in it. */
  method BuildIndex(cache: Cache, txs: seq<Tx>)
    returns (alreadySeen: seq<Tx>, index: Index, keys: seq<Key>, ghost seen: seq<nat>)
    ensures ByCache(cache, txs, seen, alreadySeen)
    ensures Indexes(index, cache, txs, |txs|)
    ensures forall k :: k in keys <==> k in index
  {
    alreadySeen, seen, index, keys := [], [], map[], [];
    for i := 0 to |txs|
      invariant Distinct(seen) && |alreadySeen| == |seen|
      invariant forall j | 0 <= j < |seen| :: seen[j] < i && alreadySeen[j] == txs[seen[j]]
      invariant forall p: nat :: p in seen <==> p < i && txs[p].txid in cache && cache[txs[p].txid]
      invariant Indexes(index, cache, txs, i)
      invariant forall k :: k in keys <==> k in index
    {
      var tx := txs[i];
      // Answered by the cache
      if tx.txid in cache {
        if cache[tx.txid] { alreadySeen, seen := alreadySeen + [tx], seen + [i]; }
      } else {
        index, keys := IndexTx(index, keys, cache, txs, i);
      }
    }
  }

  /** Collects the transactions under one key that were not collected yet. */
  method Collect(indexTxs: seq<nat>, filtered: seq<nat>) returns (more: seq<nat>)
    requires Distinct(filtered)
    ensures Distinct(more)
    ensures forall i :: i in more <==> i in filtered || i in indexTxs
  {
    more := filtered;
    for j := 0 to |indexTxs|
      invariant Distinct(more)
      invariant forall i :: i in more <==> i in filtered || i in indexTxs[..j]
    {
      if indexTxs[j] !in more { more := more + [indexTxs[j]]; }
      assert indexTxs[..j + 1] == indexTxs[..j] + [indexTxs[j]];
    }
    assert indexTxs[..|indexTxs|] == indexTxs;
  }

  /** The bulk query, cut into bounded requests where the source does so. */
  method QueryKnown(l: Lookup, keys: seq<Key>, limit: Option<nat>) returns (rows: seq<Key>)
    requires Honest(l) && (limit.Some? ==> limit.value > 0)
    ensures forall k :: k in rows <==> k in keys && l.known(k)
  {
    if limit.None? {
      rows := l.answer(keys);
      return;
    }
    var lists := SplitList(keys, limit.value);
    ChunksPartition(keys, limit.value);
    rows := [];
    assert lists[..0] == [];
    for i := 0 to |lists|
      invariant forall k :: k in rows <==> k in Flatten(lists[..i]) && l.known(k)
    {
      FlattenSnoc(lists, i);
      rows := rows + l.answer(lists[i]);
    }
    assert lists[..|lists|] == lists;
  }

  /** The positions the index gives for the answered keys, each once. */
  method FilterByIndex(index: Index, rows: seq<Key>) returns (filtered: seq<nat>)
    ensures Distinct(filtered)
    ensures forall i: nat :: i in filtered <==> Found(index, rows, i)
  {
    filtered := [];
    for r := 0 to |rows|
      invariant Distinct(filtered)
      invariant forall i: nat :: i in filtered <==> Found(index, rows[..r], i)
    {
      FoundMore(index, rows, r);
      if rows[r] in index {
        filtered := Collect(index[rows[r]], filtered);
      }
    }
    assert rows[..|rows|] == rows;
  }

  lemma FoundMore(index: Index, rows: seq<Key>, r: nat)
    requires r < |rows|
    ensures forall i: nat {:trigger Found(index, rows[..r + 1], i)} ::
              Found(index, rows[..r + 1], i) <==> Found(index, rows[..r], i) || InIndex(index, rows[r], i)
  {
  }

  /** The transactions at the given positions. */
  function At(txs: seq<Tx>, positions: seq<nat>): (r: seq<Tx>)
    requires forall j | 0 <= j < |positions| :: positions[j] < |txs|
    ensures |r| == |positions| && forall j | 0 <= j < |r| :: positions[j] < |txs| && r[j] == txs[positions[j]]
  {
    if positions == [] then []
    else At(txs, positions[..|positions| - 1]) + [txs[positions[|positions| - 1]]]
  }

  /** One slice: cached answers first, then the rest through the index. */
  method PrefilterSlice(l: Lookup, cache: Cache, txs: seq<Tx>, limit: Option<nat>)
    returns (result: seq<Tx>, ghost order: seq<nat>)
    requires Honest(l) && (limit.Some? ==> limit.value > 0)
    ensures PicksWanted(l, cache, txs, order, result)
  {
    var alreadySeen, index, keys; ghost var seen;
    alreadySeen, index, keys, seen := BuildIndex(cache, txs);
    // The rest is looked up in bulk
    var rows := QueryKnown(l, keys, limit);
    var filtered := FilterByIndex(index, rows);
    FoundIffKnown(l, cache, txs, index, keys, rows);
    PositionsInRange(l, cache, txs, filtered);
    result := alreadySeen + At(txs, filtered);
    order := seen + filtered;
    SplitsWanted(l, cache, txs, seen, alreadySeen, filtered);
  }

  /** The positions of the uncached transactions with a known key. */
  ghost predicate ByIndex(l: Lookup, cache: Cache, txs: seq<Tx>, filtered: seq<nat>) {
    && Distinct(filtered)
    && forall p: nat :: p in filtered <==> p < |txs| && txs[p].txid !in cache && HasKnownKey(l, txs[p])
  }

  lemma PositionsInRange(l: Lookup, cache: Cache, txs: seq<Tx>, filtered: seq<nat>)
    requires ByIndex(l, cache, txs, filtered)
    ensures forall j | 0 <= j < |filtered| :: filtered[j] < |txs|
  {
    forall j | 0 <= j < |filtered|
      ensures filtered[j] < |txs|
    {
      assert filtered[j] in filtered;
    }
  }

  /** The positions of the transactions cached as wanted, and those transactions. */
  ghost predicate ByCache(cache: Cache, txs: seq<Tx>, seen: seq<nat>, alreadySeen: seq<Tx>) {
    && Distinct(seen) && |alreadySeen| == |seen|
    && (forall j | 0 <= j < |seen| :: seen[j] < |txs| && alreadySeen[j] == txs[seen[j]])
    && forall p: nat :: p in seen <==> p < |txs| && txs[p].txid in cache && cache[txs[p].txid]
  }

  lemma DistinctConcat(a: seq<nat>, b: seq<nat>)
    requires Distinct(a) && Distinct(b) && forall p: nat :: !(p in a && p in b)
    ensures Distinct(a + b)
  {
    forall i, j | 0 <= i < |a| && 0 <= j < |b|
      ensures a[i] != b[j]
    {
      assert a[i] in a && b[j] in b;
    }
  }

  lemma SplitsWanted(l: Lookup, cache: Cache, txs: seq<Tx>, seen: seq<nat>, alreadySeen: seq<Tx>, filtered: seq<nat>)
    requires ByCache(cache, txs, seen, alreadySeen) && ByIndex(l, cache, txs, filtered)
    requires forall j | 0 <= j < |filtered| :: filtered[j] < |txs|
    ensures PicksWanted(l, cache, txs, seen + filtered, alreadySeen + At(txs, filtered))
  {
    var order, result := seen + filtered, alreadySeen + At(txs, filtered);
    DistinctConcat(seen, filtered);
    forall p: nat
      ensures p in order <==> p < |txs| && Wanted(l, cache, txs[p])
    {
      assert p in order <==> p in seen || p in filtered;
    }
    forall j | 0 <= j < |order|
      ensures order[j] < |txs| && result[j] == txs[order[j]]
    {
      PickedAt(txs, seen, alreadySeen, filtered, j);
    }
  }

  lemma PickedAt(txs: seq<Tx>, seen: seq<nat>, alreadySeen: seq<Tx>, filtered: seq<nat>, j: nat)
    requires |alreadySeen| == |seen| && j < |seen| + |filtered|
    requires forall i | 0 <= i < |seen| :: seen[i] < |txs| && alreadySeen[i] == txs[seen[i]]
    requires forall i | 0 <= i < |filtered| :: filtered[i] < |txs|
    ensures var p := (seen + filtered)[j]; p < |txs| && (alreadySeen + At(txs, filtered))[j] == txs[p]
  {
    if j >= |seen| { assert (seen + filtered)[j] == filtered[j - |seen|]; }
  }

  /** Some answered key leads to the transaction. */
  ghost predicate Found(index: Index, rows: seq<Key>, i: nat) {
    exists k | k in rows :: InIndex(index, k, i)
  }

  lemma FoundIffKnown(l: Lookup, cache: Cache, txs: seq<Tx>, index: Index, keys: seq<Key>, rows: seq<Key>)
    requires Indexes(index, cache, txs, |txs|)
    requires forall k :: k in keys <==> k in index
    requires forall k :: k in rows <==> k in keys && l.known(k)
    ensures forall i: nat :: Found(index, rows, i) <==> i < |txs| && txs[i].txid !in cache && HasKnownKey(l, txs[i])
  {
    forall i: nat
      ensures Found(index, rows, i) <==> i < |txs| && txs[i].txid !in cache && HasKnownKey(l, txs[i])
    {
      if i < |txs| && txs[i].txid !in cache && HasKnownKey(l, txs[i]) {
        var j :| 0 <= j < |txs[i].keys| && l.known(txs[i].keys[j]);
        assert InIndex(index, txs[i].keys[j], i);
      }
      if Found(index, rows, i) {
        var k :| k in rows && InIndex(index, k, i);
        var j :| 0 <= j < |txs[i].keys| && txs[i].keys[j] == k;
      }
    }
  }

  const MAX_NB_TXS := 5000

  ghost function Moved(order: seq<nat>, offset: nat): seq<nat> {
    seq(|order|, j requires 0 <= j < |order| => order[j] + offset)
  }

  lemma PicksAppend(l: Lookup, cache: Cache, a: seq<Tx>, oa: seq<nat>, ra: seq<Tx>,
                    b: seq<Tx>, ob: seq<nat>, rb: seq<Tx>)
    requires PicksWanted(l, cache, a, oa, ra) && PicksWanted(l, cache, b, ob, rb)
    ensures PicksWanted(l, cache, a + b, oa + Moved(ob, |a|), ra + rb)
  {
    var order := oa + Moved(ob, |a|);
    forall i: nat
      ensures i in order <==> i < |a + b| && Wanted(l, cache, (a + b)[i])
    {
      InMoved(ob, |a|, i);
      assert i in oa ==> i < |a|;
    }
    forall i, j | 0 <= i < j < |order|
      ensures order[i] != order[j]
    {
      if i < |oa| <= j { assert oa[i] in oa; }
    }
    forall j | 0 <= j < |order|
      ensures order[j] < |a + b| && (ra + rb)[j] == (a + b)[order[j]]
    {
      if j < |oa| { assert oa[j] in oa; } else { assert ob[j - |oa|] in ob; }
    }
  }

  lemma InMoved(order: seq<nat>, offset: nat, i: nat)
    ensures i in Moved(order, offset) <==> i >= offset && i - offset in order
  {
    if i >= offset && i - offset in order {
      var j :| 0 <= j < |order| && order[j] == i - offset;
      assert Moved(order, offset)[j] == i;
    }
  }

  /**
   The prefilter over a whole bundle, in slices: its result holds every wanted transaction exactly once,
   position by position, and no other. `limit` bounds the keys per query where the source bounds them.
   */
  method PrefilterAll(l: Lookup, cache: Cache, txs: seq<Tx>, limit: Option<nat>)
    returns (result: seq<Tx>, ghost order: seq<nat>)
    requires Honest(l) && (limit.Some? ==> limit.value > 0)
    ensures PicksWanted(l, cache, txs, order, result)
  {
    var lists := SplitList(txs, MAX_NB_TXS);
    ChunksPartition(txs, MAX_NB_TXS);
    result, order := [], [];
    assert lists[..0] == [];
    for i := 0 to |lists|
      invariant PicksWanted(l, cache, Flatten(lists[..i]), order, result)
    {
      FlattenSnoc(lists, i);
      ghost var before := Flatten(lists[..i]);
      var part; ghost var own;
      part, own := PrefilterSlice(l, cache, lists[i], limit);
      PicksAppend(l, cache, before, order, result, lists[i], own, part);
      result, order := result + part, order + Moved(own, |before|);
    }
    assert lists[..|lists|] == lists;
  }

  /** By outputs, one query per slice: in some order, exactly the naive scan's transactions. */
  method PrefilterByOutputs(l: Lookup, cache: Cache, txs: seq<Tx>) returns (result: seq<Tx>)
    requires Honest(l)
    ensures multiset(result) == multiset(Naive(l, cache, txs))
  {
    ghost var order;
    result, order := PrefilterAll(l, cache, txs, None);
    PermutesNaive(l, cache, txs, order, result);
  }

  /** By inputs, with queries of at most 1000 outpoints: the same. */
  method PrefilterByInputs(l: Lookup, cache: Cache, txs: seq<Tx>) returns (result: seq<Tx>)
    requires Honest(l)
    ensures multiset(result) == multiset(Naive(l, cache, txs))
  {
    ghost var order;
    result, order := PrefilterAll(l, cache, txs, Some(1000));
    PermutesNaive(l, cache, txs, order, result);
  }

  // ----- the naive scan

  function Naive(l: Lookup, cache: Cache, txs: seq<Tx>): seq<Tx> {
    if txs == [] then []
    else Naive(l, cache, txs[..|txs| - 1]) + (if Wanted(l, cache, txs[|txs| - 1]) then [txs[|txs| - 1]] else [])
  }

  lemma RemoveAt<T>(s: seq<T>, j: nat)
    requires j < |s|
    ensures multiset(s) == multiset(s[..j] + s[j + 1..]) + multiset{s[j]}
  {
    assert s == s[..j] + [s[j]] + s[j + 1..];
  }

  /** Whatever order the index yields, the result is a permutation of the naive scan's. */
  lemma {:induction false} PermutesNaive(l: Lookup, cache: Cache, txs: seq<Tx>, order: seq<nat>, result: seq<Tx>)
    requires PicksWanted(l, cache, txs, order, result)
    ensures multiset(result) == multiset(Naive(l, cache, txs))
    decreases |txs|
  {
    if txs == [] {
      NoPick(l, cache, order, result);
    } else {
      var n := |txs| - 1;
      if n in order {
        var j :| 0 <= j < |order| && order[j] == n;
        DropPick(l, cache, txs, order, result, j);
        PermutesNaive(l, cache, txs[..n], order[..j] + order[j + 1..], result[..j] + result[j + 1..]);
        RemoveAt(result, j);
      } else {
        KeepPicks(l, cache, txs, order, result);
        PermutesNaive(l, cache, txs[..n], order, result);
      }
    }
  }

  lemma NoPick(l: Lookup, cache: Cache, order: seq<nat>, result: seq<Tx>)
    requires PicksWanted(l, cache, [], order, result)
    ensures result == []
  {
    var first := if |order| > 0 then order[0] else 0;
    assert first >= 0;
  }

  lemma KeepPicks(l: Lookup, cache: Cache, txs: seq<Tx>, order: seq<nat>, result: seq<Tx>)
    requires PicksWanted(l, cache, txs, order, result) && txs != [] && |txs| - 1 !in order
    ensures !Wanted(l, cache, txs[|txs| - 1])
    ensures PicksWanted(l, cache, txs[..|txs| - 1], order, result)
  {
  }

  lemma DropPick(l: Lookup, cache: Cache, txs: seq<Tx>, order: seq<nat>, result: seq<Tx>, j: nat)
    requires PicksWanted(l, cache, txs, order, result) && j < |order| && txs != [] && order[j] == |txs| - 1
    ensures PicksWanted(l, cache, txs[..|txs| - 1], order[..j] + order[j + 1..], result[..j] + result[j + 1..])
  {
  }
}
