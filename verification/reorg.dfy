/**
 Following the node's chain: trace a notified block back to a stored ancestor, rewind what lies above it,
 and apply the node's blocks in order. The stored chain ends equal to the node's.
 */
module Reorg {
  import opened Wrappers
  import opened Util

  type Hash = string
  type Txid = string

  datatype Header = Header(height: nat, prev: Option<Hash>)

  /**
   Known headers, the active chain by height, the transactions of interest in each block, and the stored ones
   that its inputs double-spend, which are deleted.
   */
  datatype Node = Node(headers: map<Hash, Header>, active: seq<Hash>, relevant: Hash -> seq<Txid>,
                       doubleSpent: Hash -> set<Txid>)

  ghost predicate ActiveAt(node: Node, i: nat)
    requires i < |node.active|
  {
    && node.active[i] in node.headers
    && node.headers[node.active[i]] == Header(i, if i == 0 then None else Some(node.active[i - 1]))
  }

  ghost predicate ValidNode(node: Node) {
    forall i {:trigger ActiveAt(node, i)} | 0 <= i < |node.active| :: ActiveAt(node, i)
  }

  datatype BlockRow = BlockRow(hash: Hash, height: nat, parent: Option<nat>)

  type Blocks = map<nat, BlockRow>

  // Transaction rows with the id of the confirming block.
  type Confirmations = map<Txid, Option<nat>>

  // ----- the stored chain

  ghost predicate RowAt(blocks: Blocks, base: nat, ids: seq<nat>, hashes: seq<Hash>, k: nat)
    requires k < |ids| == |hashes|
  {
    && ids[k] in blocks
    && blocks[ids[k]] == BlockRow(hashes[k], base + k, if k == 0 then None else Some(ids[k - 1]))
  }

  /** The rows form one chain, a row per height from `base`, linked by parent; `ids` lists them in order. */
  ghost predicate IsChain(blocks: Blocks, base: nat, ids: seq<nat>, hashes: seq<Hash>) {
    && |ids| == |hashes|
    && (forall k {:trigger RowAt(blocks, base, ids, hashes, k)} | 0 <= k < |ids| :: RowAt(blocks, base, ids, hashes, k))
    && (forall id | id in blocks :: id in ids)
  }

  ghost predicate HeaderAt(node: Node, base: nat, hashes: seq<Hash>, k: nat)
    requires k < |hashes|
  {
    && hashes[k] in node.headers && node.headers[hashes[k]].height == base + k
    && (k > 0 ==> node.headers[hashes[k]].prev == Some(hashes[k - 1]))
  }

  /** Each stored hash is a header of the node's at its height, and follows the one below. */
  ghost predicate FollowsHeaders(node: Node, base: nat, hashes: seq<Hash>) {
    forall k {:trigger HeaderAt(node, base, hashes, k)} | 0 <= k < |hashes| :: HeaderAt(node, base, hashes, k)
  }

  /** Sharing one block means sharing everything below it. */
  lemma {:induction false} CommonBelow(node: Node, base: nat, hashes: seq<Hash>, k: nat, j: nat)
    requires ValidNode(node) && FollowsHeaders(node, base, hashes)
    requires j <= k < |hashes| && base + k < |node.active| && hashes[k] == node.active[base + k]
    ensures hashes[j] == node.active[base + j]
    decreases k - j
  {
    if j < k {
      assert HeaderAt(node, base, hashes, k) && ActiveAt(node, base + k);
      CommonBelow(node, base, hashes, k - 1, j);
    }
  }

  predicate Stored(blocks: Blocks, hash: Hash) {
    exists id | id in blocks :: blocks[id].hash == hash
  }

  /** The lowest height to apply: all blocks from there to `top` have an unstored predecessor, except itself. */
  ghost predicate IsDeepest(blocks: Blocks, node: Node, d: nat, top: nat)
    requires d <= top < |node.active|
  {
    && (d > 0 ==> Stored(blocks, node.active[d - 1]))
    && forall j | d <= j < top :: !Stored(blocks, node.active[j])
  }

  /** The hashes stored after handling the block at height `top`, when `d` is the lowest one applied. */
  ghost function ChainAfter(base: nat, hashes: seq<Hash>, node: Node, d: nat, top: nat): seq<Hash>
    requires d <= top < |node.active| && (d > 0 ==> base < d <= base + |hashes|)
  {
    (if d == 0 then [] else hashes[..d - base]) + node.active[d..top + 1]
  }

  // ----- queries and updates

  class Db {
    var blocks: Blocks
    var txs: Confirmations
    var nextId: nat

    /** Ids are handed out in order from 1, and a confirming block exists. */
    ghost predicate Valid()
      reads this
    {
      && nextId > 0
      && (forall id | id in blocks :: 0 < id < nextId)
      && ConfirmedInStored(txs, blocks)
    }

    ghost function View(): (t: Tables)
      reads this
      ensures Valid() <==> ValidTables(t)
    {
      Tables(blocks, txs, nextId)
    }

    constructor (blocks: Blocks, txs: Confirmations, nextId: nat)
      requires nextId > 0 && (forall id | id in blocks :: 0 < id < nextId) && ConfirmedInStored(txs, blocks)
      ensures Valid() && this.blocks == blocks && this.txs == txs && this.nextId == nextId
    {
      this.blocks, this.txs, this.nextId := blocks, txs, nextId;
    }

    method GetBlockByHash(hash: Hash) returns (id: Option<nat>)
      ensures id.Some? <==> Stored(blocks, hash)
      ensures id.Some? ==> id.value in blocks && blocks[id.value].hash == hash
    {
      if i :| i in blocks && blocks[i].hash == hash {
        id := Some(i);
      } else {
        id := None;
      }
    }

    /** INSERT IGNORE: an already stored hash keeps its row. */
    method AddBlock(row: BlockRow) returns (id: nat)
      requires Valid()
      modifies this
      ensures Valid() && txs == old(txs)
      ensures !Stored(old(blocks), row.hash) ==>
                id == old(nextId) && id !in old(blocks) && blocks == old(blocks)[id := row] && nextId == old(nextId) + 1
      ensures Stored(old(blocks), row.hash) ==>
                id in old(blocks) && old(blocks)[id].hash == row.hash && blocks == old(blocks) && nextId == old(nextId)
    {
      var known := GetBlockByHash(row.hash);
      if known.Some? {
        id := known.value;
      } else {
        id := nextId;
        blocks, nextId := blocks[id := row], nextId + 1;
      }
    }

    method ConfirmTransactions(txids: seq<Txid>, blockId: nat)
      modifies `txs
      ensures txs == Confirmed(old(txs), txids, Some(blockId))
    {
      txs := Confirmed(txs, txids, Some(blockId));
    }

    method UnconfirmTransactions(txids: seq<Txid>)
      modifies `txs
      ensures txs == Confirmed(old(txs), txids, None)
    {
      txs := Confirmed(txs, txids, None);
    }

    /** DELETE; the foreign keys set dangling parents and confirmations to NULL. */
    method DeleteBlocksAfterHeight(height: int)
      requires Valid()
      modifies this
      ensures Valid() && nextId == old(nextId)
      ensures blocks == BlocksUpTo(old(blocks), height)
      ensures txs == WithoutDangling(old(txs), blocks)
    {
      blocks := BlocksUpTo(blocks, height);
      txs := WithoutDangling(txs, blocks);
    }

    method GetTransactionIdsConfirmedAfterHeight(height: int) returns (txids: seq<Txid>)
      requires Valid()
      ensures forall t {:trigger t in txids} :: t in txids <==> ConfirmedAbove(txs, blocks, height, t)
    {
      var rest: set<Txid> := set t | t in txs && txs[t].Some? && blocks[txs[t].value].height > height;
      ghost var all := rest;
      txids := [];
      while rest != {}
        invariant rest <= all
        invariant forall t :: t in txids <==> t in all - rest
        decreases |rest|
      {
        var t :| t in rest;
        txids, rest := txids + [t], rest - {t};
      }
    }
  }

  ghost predicate ConfirmedInStored(txs: Confirmations, blocks: Blocks) {
    forall t | t in txs && txs[t].Some? :: txs[t].value in blocks
  }

  ghost predicate ConfirmedAbove(txs: Confirmations, blocks: Blocks, height: int, t: Txid) {
    t in txs && txs[t].Some? && txs[t].value in blocks && blocks[txs[t].value].height > height
  }

  /** UPDATE ... WHERE txnTxid IN (...): rows that do not exist are not created. */
  function Confirmed(txs: Confirmations, txids: seq<Txid>, block: Option<nat>): Confirmations {
    map t | t in txs :: if t in txids then block else txs[t]
  }

  function BlocksUpTo(blocks: Blocks, height: int): Blocks {
    map id | id in blocks && blocks[id].height <= height ::
      if blocks[id].parent.Some? && blocks[id].parent.value in blocks &&
         blocks[blocks[id].parent.value].height > height
      then blocks[id].(parent := None) else blocks[id]
  }

  function WithoutDangling(txs: Confirmations, blocks: Blocks): Confirmations {
    map t | t in txs :: if txs[t].Some? && txs[t].value !in blocks then None else txs[t]
  }

  // ----- the processor

  /** Headers from the notified block down to the first one whose predecessor is stored (or genesis). */
  method ChainBacktrace(db: Db, node: Node, top: nat) returns (heights: seq<nat>)
    requires ValidNode(node) && top < |node.active|
    ensures 0 < |heights| <= top + 1
    ensures forall k | 0 <= k < |heights| :: heights[k] == top - k
    ensures IsDeepest(db.blocks, node, top - (|heights| - 1), top)
  {
    heights := [top];
    while true
      invariant 0 < |heights| <= top + 1
      invariant forall k | 0 <= k < |heights| :: heights[k] == top - k
      invariant forall j | top - (|heights| - 1) <= j < top :: !Stored(db.blocks, node.active[j])
      decreases top - |heights|
    {
      // Heights go down, so the last is the lowest
      var deepest := heights[|heights| - 1];
      assert ActiveAt(node, deepest);
      var header := node.headers[node.active[deepest]];
      // Genesis has no predecessor
      if header.prev.None? {
        return;
      }
      // Is the predecessor stored?
      var block := db.GetBlockByHash(header.prev.value);
      if block.Some? {
        return;
      }
      assert ActiveAt(node, deepest - 1);
      heights := heights + [node.headers[header.prev.value].height];
    }
  }

  /** Cancels the confirmation of transactions in blocks above the height, then deletes those blocks. */
  method Rewind(db: Db, height: int)
    requires db.Valid()
    modifies db
    ensures db.Valid() && db.nextId == old(db.nextId)
    ensures db.blocks == BlocksUpTo(old(db.blocks), height)
    ensures db.txs.Keys == old(db.txs).Keys
    ensures forall t | t in db.txs ::
              db.txs[t] == if ConfirmedAbove(old(db.txs), old(db.blocks), height, t) then None else old(db.txs)[t]
  {
    var txids := db.GetTransactionIdsConfirmedAfterHeight(height);
    ghost var before := db.txs;
    if |txids| > 0 {
      var txidsPool := SplitList(txids, 1000);
      ConfirmInChunks(db, txidsPool, None);
      ChunksPartition(txids, 1000);
    }
    assert db.txs == Confirmed(before, txids, None);
    db.DeleteBlocksAfterHeight(height);
  }

  /** One update per slice of the list amounts to one update of the whole list. */
  method ConfirmInChunks(db: Db, lists: seq<seq<Txid>>, block: Option<nat>)
    modifies db`txs
    ensures db.txs == Confirmed(old(db.txs), Flatten(lists), block)
  {
    assert Flatten(lists[..0]) == [];
    for i := 0 to |lists|
      invariant db.txs == Confirmed(old(db.txs), Flatten(lists[..i]), block)
    {
      assert lists[..i + 1] == lists[..i] + [lists[i]];
      FlattenAppend(lists[..i], [lists[i]]);
      assert Flatten([lists[i]]) == lists[i] + Flatten([lists[i]][1..]);
      if block.Some? {
        db.ConfirmTransactions(lists[i], block.value);
      } else {
        db.UnconfirmTransactions(lists[i]);
      }
    }
    assert lists[..|lists|] == lists;
  }

  /** The tables as values. */
  datatype Tables = Tables(blocks: Blocks, txs: Confirmations, nextId: nat)

  ghost predicate ValidTables(t: Tables) {
    t.nextId > 0 && (forall id | id in t.blocks :: 0 < id < t.nextId) && ConfirmedInStored(t.txs, t.blocks)
  }

  /**
   A block's transactions of interest are stored, its double-spent ones deleted, and every other one stays;
   those of interest end confirmed in the block with this id, the others keep their confirmation.
   */
  ghost predicate TxsAfterBlock(before: Confirmations, txids: seq<Txid>, gone: set<Txid>, id: nat,
                                after: Confirmations) {
    && (forall t {:trigger t in after} :: t in after <==> (t in before || t in txids) && t !in gone)
    && (forall t | t in after :: after[t] == if t in txids then Some(id) else before[t])
  }

  /**
   What processing a block not yet stored does: a row under a fresh id, whose parent is the row of the previous
   hash, and every transaction of interest that is not deleted confirmed in it.
   */
  ghost predicate IsApplied(before: Tables, node: Node, hash: Hash, after: Tables)
    requires hash in node.headers
  {
    var header, id := node.headers[hash], before.nextId;
    && id !in before.blocks && after.nextId == id + 1
    && (exists parent :: ParentLookup(before.blocks, header.prev, parent) &&
                         after.blocks == before.blocks[id := BlockRow(hash, header.height, parent)])
    && TxsAfterBlock(before.txs, node.relevant(hash), node.doubleSpent(hash), id, after.txs)
  }

  /** Registers the block and confirms its transactions of interest, which are stored by then. */
  method ProcessBlock(db: Db, node: Node, hash: Hash) returns (blockId: nat)
    requires db.Valid() && hash in node.headers
    modifies db
    ensures db.Valid() && blockId in db.blocks
    ensures !Stored(old(db.blocks), hash) ==>
              IsApplied(old(db.View()), node, hash, db.View()) && blockId == old(db.nextId)
    ensures Stored(old(db.blocks), hash) ==>
              && db.blocks == old(db.blocks) && db.blocks[blockId].hash == hash && db.nextId == old(db.nextId)
              && TxsAfterBlock(old(db.txs), node.relevant(hash), node.doubleSpent(hash), blockId, db.txs)
  {
    var header, txids := node.headers[hash], node.relevant(hash);
    // Outputs and inputs of interest are stored with their transactions
    db.txs := (map t | t in txids :: None) + db.txs;
    // Stored transactions that they double-spend go
    db.txs := db.txs - node.doubleSpent(hash);
    var previousId := None;
    if header.prev.Some? {
      previousId := db.GetBlockByHash(header.prev.value);
    }
    ghost var before := db.blocks;
    blockId := db.AddBlock(BlockRow(hash, header.height, previousId));
    var txidLists := SplitList(txids, 100);
    ConfirmInChunks(db, txidLists, Some(blockId));
    ChunksPartition(txids, 100);
    assert ParentLookup(before, header.prev, previousId);
  }

  /** `parent` is the id of a row holding the previous hash, or NULL when there is none. */
  ghost predicate ParentLookup(blocks: Blocks, prev: Option<Hash>, parent: Option<nat>) {
    match parent
    case None => prev.None? || !Stored(blocks, prev.value)
    case Some(id) => prev.Some? && id in blocks && blocks[id].hash == prev.value
  }

  // ----- the stored chain through rewind and re-application

  lemma RewindKeepsChain(blocks: Blocks, base: nat, ids: seq<nat>, hashes: seq<Hash>, n: nat)
    requires IsChain(blocks, base, ids, hashes) && n <= |ids|
    ensures IsChain(BlocksUpTo(blocks, base + n - 1), base, ids[..n], hashes[..n])
  {
    var rest := BlocksUpTo(blocks, base + n - 1);
    forall k | 0 <= k < n
      ensures RowAt(rest, base, ids[..n], hashes[..n], k)
    {
      assert RowAt(blocks, base, ids, hashes, k);
      if k > 0 { assert RowAt(blocks, base, ids, hashes, k - 1); }
    }
    forall id | id in rest
      ensures id in ids[..n]
    {
      var k :| 0 <= k < |ids| && ids[k] == id;
      assert RowAt(blocks, base, ids, hashes, k);
      assert ids[..n][k] == id;
    }
  }

  lemma AppendKeepsChain(blocks: Blocks, base: nat, ids: seq<nat>, hashes: seq<Hash>, id: nat, hash: Hash,
                         parent: Option<nat>)
    requires IsChain(blocks, base, ids, hashes) && id !in blocks
    requires parent == if |ids| == 0 then None else Some(ids[|ids| - 1])
    ensures IsChain(blocks[id := BlockRow(hash, base + |ids|, parent)], base, ids + [id], hashes + [hash])
  {
    var more := blocks[id := BlockRow(hash, base + |ids|, parent)];
    forall k | 0 <= k < |ids| + 1
      ensures RowAt(more, base, ids + [id], hashes + [hash], k)
    {
      if k < |ids| { assert RowAt(blocks, base, ids, hashes, k); }
    }
  }

  /** The id of the only row with the hash of the chain's tip. */
  lemma TipLookup(node: Node, blocks: Blocks, base: nat, ids: seq<nat>, hashes: seq<Hash>, parent: Option<nat>)
    requires IsChain(blocks, base, ids, hashes) && FollowsHeaders(node, base, hashes) && ids != []
    requires ParentLookup(blocks, Some(hashes[|hashes| - 1]), parent)
    ensures parent == Some(ids[|ids| - 1])
  {
    var tip := |ids| - 1;
    assert RowAt(blocks, base, ids, hashes, tip);
    if parent.Some? {
      var k :| 0 <= k < |ids| && ids[k] == parent.value;
      assert RowAt(blocks, base, ids, hashes, k);
      assert HeaderAt(node, base, hashes, k) && HeaderAt(node, base, hashes, tip);
    }
  }

  lemma StoredInChain(blocks: Blocks, base: nat, ids: seq<nat>, hashes: seq<Hash>, hash: Hash) returns (k: nat)
    requires IsChain(blocks, base, ids, hashes) && Stored(blocks, hash)
    ensures k < |hashes| && hashes[k] == hash
  {
    var id :| id in blocks && blocks[id].hash == hash;
    k :| 0 <= k < |ids| && ids[k] == id;
    assert RowAt(blocks, base, ids, hashes, k);
  }

  /** The last height from `d` to `top` whose block holds the transaction. */
  function LastMention(node: Node, d: nat, n: nat, t: Txid): (h: Option<nat>)
    requires d <= n <= |node.active|
    ensures h.Some? ==> d <= h.value < n && t in node.relevant(node.active[h.value])
    ensures forall j | (if h.Some? then h.value + 1 else d) <= j < n :: t !in node.relevant(node.active[j])
    decreases n - d
  {
    if n == d then None
    else if t in node.relevant(node.active[n - 1]) then Some(n - 1)
    else LastMention(node, d, n - 1, t)
  }

  /** The last height from `d` to `top` whose block double-spends the stored transaction. */
  function LastDeletion(node: Node, d: nat, n: nat, t: Txid): (g: Option<nat>)
    requires d <= n <= |node.active|
    ensures g.Some? ==> d <= g.value < n && t in node.doubleSpent(node.active[g.value])
    ensures forall j | (if g.Some? then g.value + 1 else d) <= j < n :: t !in node.doubleSpent(node.active[j])
    decreases n - d
  {
    if n == d then None
    else if t in node.doubleSpent(node.active[n - 1]) then Some(n - 1)
    else LastDeletion(node, d, n - 1, t)
  }

  /**
   Which transactions are stored once the heights from `d` below `n` have been applied: without a deletion, those
   stored before or mentioned; after one, those mentioned at a higher height.
   */
  ghost predicate StoredAsExpected(before: Confirmations, after: Confirmations, node: Node, d: nat, n: nat)
    requires d <= n <= |node.active|
  {
    forall t {:trigger t in after} ::
      match LastDeletion(node, d, n, t)
      case None => t in after <==> t in before || LastMention(node, d, n, t).Some?
      case Some(g) => t in after <==> LastMention(node, d, n, t).Some? && LastMention(node, d, n, t).value > g
  }

  /** Where each transaction is confirmed once the heights from `d` below `n` have been applied. */
  ghost predicate ConfirmedAsExpected(before: Confirmations, blocksBefore: Blocks, after: Confirmations, blocks: Blocks,
                                      node: Node, d: nat, n: nat)
    requires d <= n <= |node.active|
  {
    && ConfirmedInStored(after, blocks)
    && forall t | t in after ::
         match LastMention(node, d, n, t)
         case Some(h) => after[t].Some? && blocks[after[t].value].hash == node.active[h]
         case None =>
           after[t] == if t !in before || ConfirmedAbove(before, blocksBefore, d - 1, t) then None else before[t]
  }

  lemma ActiveFollowsHeaders(node: Node, b: nat, n: nat)
    requires ValidNode(node) && b <= n <= |node.active|
    ensures FollowsHeaders(node, b, node.active[b..n])
  {
    forall k | 0 <= k < n - b
      ensures HeaderAt(node, b, node.active[b..n], k)
    {
      assert ActiveAt(node, b + k);
      if k > 0 { assert ActiveAt(node, b + k - 1); }
    }
  }

  lemma NotYetStored(node: Node, blocks: Blocks, b: nat, ids: seq<nat>, n: nat)
    requires ValidNode(node) && b <= n < |node.active| && IsChain(blocks, b, ids, node.active[b..n])
    ensures !Stored(blocks, node.active[n])
  {
    forall id | id in blocks
      ensures blocks[id].hash != node.active[n]
    {
      var k :| 0 <= k < |ids| && ids[k] == id;
      assert RowAt(blocks, b, ids, node.active[b..n], k) && ActiveAt(node, b + k) && ActiveAt(node, n);
    }
  }

  /** The tables after a rewind to below `d` and the application of the active blocks below height `n`. */
  ghost predicate IsBuilt(t: Tables, node: Node, b: nat, ids: seq<nat>, d: nat, n: nat, before: Tables)
    requires b <= n <= |node.active| && d <= n
  {
    && ValidTables(t)
    && IsChain(t.blocks, b, ids, node.active[b..n])
    && StoredAsExpected(before.txs, t.txs, node, d, n)
    && ConfirmedAsExpected(before.txs, before.blocks, t.txs, t.blocks, node, d, n)
  }

  lemma StepStored(before: Confirmations, mid: Confirmations, after: Confirmations, node: Node, d: nat, n: nat)
    requires d <= n < |node.active| && StoredAsExpected(before, mid, node, d, n)
    requires forall t {:trigger t in after} ::
               t in after <==>
               (t in mid || t in node.relevant(node.active[n])) && t !in node.doubleSpent(node.active[n])
    ensures StoredAsExpected(before, after, node, d, n + 1)
  {
    forall t {:trigger t in after}
      ensures match LastDeletion(node, d, n + 1, t)
              case None => t in after <==> t in before || LastMention(node, d, n + 1, t).Some?
              case Some(g) =>
                t in after <==> LastMention(node, d, n + 1, t).Some? && LastMention(node, d, n + 1, t).value > g
    {
      var h, g := LastMention(node, d, n, t), LastDeletion(node, d, n, t);
      assert t in mid <==> if g.None? then t in before || h.Some? else h.Some? && h.value > g.value;
    }
  }

  lemma StepConfirmations(before: Confirmations, blocksBefore: Blocks, mid: Confirmations, blocks: Blocks,
                          after: Confirmations, node: Node, d: nat, n: nat, id: nat, row: BlockRow)
    requires d <= n < |node.active| && id !in blocks && row.hash == node.active[n]
    requires ConfirmedAsExpected(before, blocksBefore, mid, blocks, node, d, n)
    requires forall t | t in after :: t in mid || t in node.relevant(node.active[n])
    requires forall t | t in after :: after[t] == if t in node.relevant(node.active[n]) then Some(id) else mid[t]
    ensures ConfirmedAsExpected(before, blocksBefore, after, blocks[id := row], node, d, n + 1)
  {
  }

  /** Applying the next active block extends what is built. */
  lemma AppliedExtends(t: Tables, node: Node, b: nat, ids: seq<nat>, d: nat, n: nat, before: Tables, after: Tables)
    requires ValidNode(node) && b <= n < |node.active| && d <= n && (b == n ==> b == 0)
    requires IsBuilt(t, node, b, ids, d, n, before) && ActiveAt(node, n) && IsApplied(t, node, node.active[n], after)
    ensures IsBuilt(after, node, b, ids + [t.nextId], d, n + 1, before)
  {
    var hash, id := node.active[n], t.nextId;
    var parent :| ParentLookup(t.blocks, node.headers[hash].prev, parent) &&
                  after.blocks == t.blocks[id := BlockRow(hash, n, parent)];
    ActiveParent(node, t.blocks, b, ids, n, parent);
    AppendKeepsChain(t.blocks, b, ids, node.active[b..n], id, hash, parent);
    StepStored(before.txs, t.txs, after.txs, node, d, n);
    StepConfirmations(before.txs, before.blocks, t.txs, t.blocks, after.txs, node, d, n, id, BlockRow(hash, n, parent));
    assert node.active[b..n] + [hash] == node.active[b..n + 1];
  }

  /** The previous block of an active block, looked up by hash, is the tip of the chain below it. */
  lemma ActiveParent(node: Node, blocks: Blocks, b: nat, ids: seq<nat>, height: nat, parent: Option<nat>)
    requires ValidNode(node) && b <= height < |node.active| && (b == height ==> b == 0)
    requires IsChain(blocks, b, ids, node.active[b..height]) && ActiveAt(node, height)
    requires ParentLookup(blocks, node.headers[node.active[height]].prev, parent)
    ensures parent == if |ids| == 0 then None else Some(ids[|ids| - 1])
  {
    if b < height {
      ActiveFollowsHeaders(node, b, height);
      assert node.active[b..height][height - b - 1] == node.active[height - 1];
      TipLookup(node, blocks, b, ids, node.active[b..height], parent);
    }
  }

  /** Applies the active blocks at the given heights, lowest first. */
  method ProcessBlockRange(db: Db, node: Node, heights: seq<nat>, ghost b: nat, ghost ids: seq<nat>,
                           ghost before: Tables)
    returns (ghost ids': seq<nat>)
    requires ValidNode(node) && heights != []
    requires forall k | 0 <= k < |heights| :: heights[k] == heights[0] + k
    requires b <= heights[0] && heights[0] + |heights| <= |node.active| && (b == heights[0] ==> b == 0)
    requires IsBuilt(db.View(), node, b, ids, heights[0], heights[0], before)
    modifies db
    ensures IsBuilt(db.View(), node, b, ids', heights[0], heights[0] + |heights|, before) && ids <= ids'
  {
    ids' := ids;
    ghost var d := heights[0];
    for i := 0 to |heights|
      invariant IsBuilt(db.View(), node, b, ids', d, d + i, before) && ids <= ids'
    {
      var height := heights[i];
      assert height == d + i;
      ids' := ApplyBlock(db, node, height, b, ids', d, before);
    }
  }

  /** Applies the active block at one height. */
  method ApplyBlock(db: Db, node: Node, height: nat, ghost b: nat, ghost ids: seq<nat>, ghost d: nat,
                    ghost before: Tables)
    returns (ghost ids': seq<nat>)
    requires ValidNode(node) && b <= height < |node.active| && d <= height && (b == height ==> b == 0)
    requires IsBuilt(db.View(), node, b, ids, d, height, before)
    modifies db
    ensures IsBuilt(db.View(), node, b, ids', d, height + 1, before) && ids <= ids'
  {
    ghost var t := db.View();
    assert ActiveAt(node, height);
    NotYetStored(node, db.blocks, b, ids, height);
    var blockId := ProcessBlock(db, node, node.active[height]);
    AppliedExtends(t, node, b, ids, d, height, before, db.View());
    ids' := ids + [blockId];
  }

  /** The deepest traced block either is the genesis block or sits right above a stored, active block. */
  lemma AncestorSegment(blocks: Blocks, node: Node, base: nat, ids: seq<nat>, hashes: seq<Hash>, d: nat, top: nat)
    requires ValidNode(node) && d <= top < |node.active|
    requires IsChain(blocks, base, ids, hashes) && FollowsHeaders(node, base, hashes) && IsDeepest(blocks, node, d, top)
    ensures d > 0 ==> base < d <= base + |hashes| && hashes[..d - base] == node.active[base..d]
  {
    if d > 0 {
      var k := StoredInChain(blocks, base, ids, hashes, node.active[d - 1]);
      assert HeaderAt(node, base, hashes, k) && ActiveAt(node, d - 1);
      forall j | 0 <= j < d - base
        ensures hashes[j] == node.active[base..d][j]
      {
        CommonBelow(node, base, hashes, k, j);
      }
    }
  }

  ghost function SegmentStart(base: nat, d: nat): nat {
    if d == 0 then 0 else base
  }

  ghost function SegmentIds(base: nat, ids: seq<nat>, d: nat): seq<nat>
    requires d > 0 ==> base <= d <= base + |ids|
  {
    if d == 0 then [] else ids[..d - base]
  }

  lemma AfterRewind(blocks: Blocks, node: Node, base: nat, ids: seq<nat>, hashes: seq<Hash>, d: nat, top: nat)
    requires IsChain(blocks, base, ids, hashes) && d <= top < |node.active|
    requires d > 0 ==> base < d <= base + |hashes| && hashes[..d - base] == node.active[base..d]
    ensures IsChain(BlocksUpTo(blocks, d - 1), SegmentStart(base, d), SegmentIds(base, ids, d),
                    node.active[SegmentStart(base, d)..d])
    ensures ChainAfter(base, hashes, node, d, top) == node.active[SegmentStart(base, d)..top + 1]
  {
    if d == 0 {
      assert BlocksUpTo(blocks, -1) == map[];
    } else {
      RewindKeepsChain(blocks, base, ids, hashes, d - base);
      JoinSlices(node.active, base, d, top + 1);
    }
  }

  lemma JoinSlices<T>(s: seq<T>, i: nat, j: nat, k: nat)
    requires i <= j <= k <= |s|
    ensures s[i..j] + s[j..k] == s[i..k]
  {
  }

  lemma RewoundConfirmations(before: Confirmations, blocks: Blocks, after: Confirmations, node: Node, d: nat)
    requires d <= |node.active| && ConfirmedInStored(before, blocks) && after.Keys == before.Keys
    requires forall t | t in after :: after[t] == if ConfirmedAbove(before, blocks, d - 1, t) then None else before[t]
    ensures ConfirmedAsExpected(before, blocks, after, BlocksUpTo(blocks, d - 1), node, d, d)
    ensures StoredAsExpected(before, after, node, d, d)
  {
  }

  /** Rewinds to the block below height `d`, which is an active one, if there is one. */
  method RewindTo(db: Db, node: Node, height: int, ghost base: nat, ghost ids: seq<nat>, ghost hashes: seq<Hash>,
                  ghost d: nat, ghost top: nat)
    requires db.Valid() && ValidNode(node) && d <= top < |node.active| && height == d - 1
    requires IsChain(db.blocks, base, ids, hashes) && FollowsHeaders(node, base, hashes)
    requires IsDeepest(db.blocks, node, d, top)
    modifies db
    ensures d > 0 ==> base < d <= base + |hashes|
    ensures ChainAfter(base, hashes, node, d, top) == node.active[SegmentStart(base, d)..top + 1]
    ensures IsBuilt(db.View(), node, SegmentStart(base, d), SegmentIds(base, ids, d), d, d, old(db.View()))
  {
    ghost var before := db.View();
    AncestorSegment(db.blocks, node, base, ids, hashes, d, top);
    AfterRewind(db.blocks, node, base, ids, hashes, d, top);
    Rewind(db, height);
    RewoundConfirmations(before.txs, before.blocks, db.txs, node, d);
  }

  method OldestFirst(headers: seq<nat>, top: nat) returns (heights: seq<nat>)
    requires 0 < |headers| <= top + 1 && forall k | 0 <= k < |headers| :: headers[k] == top - k
    ensures |heights| == |headers| && heights[0] == top + 1 - |headers|
    ensures forall k | 0 <= k < |heights| :: heights[k] == heights[0] + k
  {
    heights := seq(|headers|, i requires 0 <= i < |headers| => headers[|headers| - 1 - i]);
  }

  /**
   The handling of a notified block at height `top` of the active chain, from a stored chain that starts
   at `base`. The stored chain becomes the old segment up to the common ancestor followed by the node's
   blocks up to `top`, which is the node's chain itself; transactions of interest are confirmed in the
   last applied block that holds them, and no confirmation in a deleted block survives.
   */
  method OnBlockHash(db: Db, node: Node, top: nat, ghost base: nat, ghost ids: seq<nat>, ghost hashes: seq<Hash>)
    returns (ghost d: nat, ghost base': nat, ghost ids': seq<nat>)
    requires db.Valid() && ValidNode(node) && top < |node.active|
    requires IsChain(db.blocks, base, ids, hashes) && FollowsHeaders(node, base, hashes)
    modifies db
    ensures db.Valid()
    ensures d <= top && IsDeepest(old(db.blocks), node, d, top)
    ensures d > 0 ==> base < d <= base + |hashes| == base + |ids| && ids[..d - base] <= ids'
    ensures base' == (if d == 0 then 0 else base) <= top
    ensures ChainAfter(base, hashes, node, d, top) == node.active[base'..top + 1]
    ensures IsChain(db.blocks, base', ids', node.active[base'..top + 1])
    ensures FollowsHeaders(node, base', node.active[base'..top + 1])
    ensures StoredAsExpected(old(db.txs), db.txs, node, d, top + 1)
    ensures ConfirmedAsExpected(old(db.txs), old(db.blocks), db.txs, db.blocks, node, d, top + 1)
  {
    var headers := ChainBacktrace(db, node, top);
    d := top - (|headers| - 1);
    // From here on, lowest height first
    var heights := OldestFirst(headers, top);
    var deepest: int := heights[0];
    var knownHeight := deepest - 1;
    // What lies above the common ancestor goes
    RewindTo(db, node, knownHeight, base, ids, hashes, d, top);
    base', ids' := SegmentStart(base, d), SegmentIds(base, ids, d);
    // Then the active blocks on top
    ids' := ProcessBlockRange(db, node, heights, base', ids', old(db.View()));
    ActiveFollowsHeaders(node, base', top + 1);
  }
}
