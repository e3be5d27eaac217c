/**
 Confirming imported transactions. A transaction may have been fetched several times, with different blocks
 if one arrived in between; which copy's block is recorded depends on the chunks and their order.
 */
module ImportConfirmations {
  import opened Util
  import opened Wrappers
  import opened Ledger

  type Hash = string

  /** A transaction as fetched, with the hash of its block if it has one. */
  datatype Prepared = Prepared(txid: Txid, ins: seq<Outpoint>, outs: seq<Output>, block: Option<Hash>)

  /** The stored blocks, and the block each confirmed transaction points to. */
  class BlockLinks {
    const stored: set<Hash>
    var confirmed: map<Txid, Hash>

    constructor (stored: set<Hash>)
      ensures this.stored == stored && confirmed == map[]
    {
      this.stored, confirmed := stored, map[];
    }
  }

  // ----- one chunk

  /** A copy of the transaction names this block, which is one of `blocks`. */
  ghost predicate Names(txs: seq<Prepared>, blocks: set<Hash>, t: Txid, h: Hash) {
    h in blocks && exists p | p in txs :: p.txid == t && p.block == Some(h)
  }

  ghost predicate IsNamed(txs: seq<Prepared>, blocks: set<Hash>, t: Txid) {
    exists h | h in blocks :: Names(txs, blocks, t, h)
  }

  /** Transactions with a copy naming one of the blocks point to the block of some copy; other links are kept. */
  ghost predicate ChunkLinks(before: map<Txid, Hash>, txs: seq<Prepared>, blocks: set<Hash>, after: map<Txid, Hash>) {
    && (forall t {:trigger t in after} :: t in after <==> t in before || IsNamed(txs, blocks, t))
    && (forall t {:trigger after[t]} | t in after ::
          if IsNamed(txs, blocks, t) then Names(txs, blocks, t, after[t]) else t in before && after[t] == before[t])
  }

  function InBlock(txs: seq<Prepared>, h: Hash): set<Txid> {
    set p | p in txs && p.block == Some(h) :: p.txid
  }

  function BlocksNamed(txs: seq<Prepared>): set<Hash> {
    set p | p in txs && p.block.Some? :: p.block.value
  }

  lemma NoBlocks(before: map<Txid, Hash>, txs: seq<Prepared>)
    ensures ChunkLinks(before, txs, {}, before)
  {
  }

  lemma NamedMore(txs: seq<Prepared>, blocks: set<Hash>, h: Hash, t: Txid)
    ensures IsNamed(txs, blocks + {h}, t) <==> IsNamed(txs, blocks, t) || t in InBlock(txs, h)
    ensures t in InBlock(txs, h) ==> Names(txs, blocks + {h}, t, h)
    ensures forall g | Names(txs, blocks, t, g) :: Names(txs, blocks + {h}, t, g)
  {
    if t in InBlock(txs, h) { assert Names(txs, blocks + {h}, t, h); }
    if g :| g in blocks && Names(txs, blocks, t, g) { assert Names(txs, blocks + {h}, t, g); }
    if g :| g in blocks + {h} && Names(txs, blocks + {h}, t, g) {
      if g != h { assert Names(txs, blocks, t, g); }
    }
  }

  lemma OneMoreBlock(before: map<Txid, Hash>, txs: seq<Prepared>, blocks: set<Hash>, links: map<Txid, Hash>, h: Hash)
    requires ChunkLinks(before, txs, blocks, links)
    ensures ChunkLinks(before, txs, blocks + {h}, links + map t | t in InBlock(txs, h) :: h)
  {
    var after := links + map t | t in InBlock(txs, h) :: h;
    forall t
      ensures t in after <==> t in before || IsNamed(txs, blocks + {h}, t)
    {
      NamedMore(txs, blocks, h, t);
    }
    forall t | t in after
      ensures if IsNamed(txs, blocks + {h}, t) then Names(txs, blocks + {h}, t, after[t])
              else t in before && after[t] == before[t]
    {
      NamedMore(txs, blocks, h, t);
    }
  }

  lemma OnlyNamedBlocks(before: map<Txid, Hash>, txs: seq<Prepared>, blocks: set<Hash>, after: map<Txid, Hash>)
    requires ChunkLinks(before, txs, blocks * BlocksNamed(txs), after)
    ensures ChunkLinks(before, txs, blocks, after)
  {
    forall t, h
      ensures Names(txs, blocks, t, h) <==> Names(txs, blocks * BlocksNamed(txs), t, h)
    {
    }
    forall t
      ensures IsNamed(txs, blocks, t) <==> IsNamed(txs, blocks * BlocksNamed(txs), t)
    {
      if h :| h in blocks && Names(txs, blocks, t, h) { assert Names(txs, blocks * BlocksNamed(txs), t, h); }
      if h :| h in blocks * BlocksNamed(txs) && Names(txs, blocks * BlocksNamed(txs), t, h) {
        assert Names(txs, blocks, t, h);
      }
    }
  }

  /** Confirms the transactions of a chunk that lie in stored blocks, block by block in no particular order. */
  method ConfirmChunk(links: BlockLinks, txs: seq<Prepared>)
    modifies links
    ensures ChunkLinks(old(links.confirmed), txs, links.stored, links.confirmed)
  {
    ghost var before, done := links.confirmed, {};
    var blocks := links.stored * BlocksNamed(txs);
    NoBlocks(before, txs);
    while blocks != {}
      invariant done + blocks == links.stored * BlocksNamed(txs)
      invariant ChunkLinks(before, txs, done, links.confirmed)
      decreases |blocks|
    {
      var h :| h in blocks;
      ConfirmBlock(links, txs, h, before, done);
      blocks, done := blocks - {h}, done + {h};
    }
    assert done == done + blocks;
    OnlyNamedBlocks(before, txs, links.stored, links.confirmed);
  }

  method ConfirmBlock(links: BlockLinks, txs: seq<Prepared>, h: Hash, ghost before: map<Txid, Hash>,
                      ghost done: set<Hash>)
    requires ChunkLinks(before, txs, done, links.confirmed)
    modifies links
    ensures ChunkLinks(before, txs, done + {h}, links.confirmed)
  {
    OneMoreBlock(before, txs, done, links.confirmed, h);
    links.confirmed := links.confirmed + map t | t in InBlock(txs, h) :: h;
  }

  // ----- all chunks

  /** The last chunk with a copy of the transaction that names a stored block. */
  ghost function LastNaming(chunks: seq<seq<Prepared>>, stored: set<Hash>, t: Txid): (i: Option<nat>)
    ensures i.Some? ==> i.value < |chunks| && IsNamed(chunks[i.value], stored, t)
  {
    if chunks == [] then None
    else if IsNamed(chunks[|chunks| - 1], stored, t) then Some(|chunks| - 1)
    else LastNaming(chunks[..|chunks| - 1], stored, t)
  }

  /** Each transaction points to the block of a copy in the last chunk that has one in a stored block. */
  ghost predicate PhaseLinks(before: map<Txid, Hash>, chunks: seq<seq<Prepared>>, stored: set<Hash>,
                             after: map<Txid, Hash>) {
    && (forall t {:trigger t in after} :: t in after <==> t in before || LastNaming(chunks, stored, t).Some?)
    && (forall t {:trigger after[t]} | t in after ::
          var last := LastNaming(chunks, stored, t);
          if last.Some? then Names(chunks[last.value], stored, t, after[t]) else t in before && after[t] == before[t])
  }

  lemma LastNamingMore(chunks: seq<seq<Prepared>>, i: nat, stored: set<Hash>, t: Txid)
    requires i < |chunks|
    ensures LastNaming(chunks[..i + 1], stored, t) ==
            if IsNamed(chunks[i], stored, t) then Some(i) else LastNaming(chunks[..i], stored, t)
  {
    assert chunks[..i + 1][..i] == chunks[..i];
  }

  lemma OneMoreChunk(before: map<Txid, Hash>, chunks: seq<seq<Prepared>>, i: nat, stored: set<Hash>,
                     mid: map<Txid, Hash>, after: map<Txid, Hash>)
    requires i < |chunks| && PhaseLinks(before, chunks[..i], stored, mid) && ChunkLinks(mid, chunks[i], stored, after)
    ensures PhaseLinks(before, chunks[..i + 1], stored, after)
  {
    var more := chunks[..i + 1];
    forall t
      ensures t in after <==> t in before || LastNaming(more, stored, t).Some?
    {
      LastNamingMore(chunks, i, stored, t);
    }
    forall t | t in after
      ensures var last := LastNaming(more, stored, t);
              if last.Some? then Names(more[last.value], stored, t, after[t])
              else t in before && after[t] == before[t]
    {
      LastNamingMore(chunks, i, stored, t);
    }
  }

  // ----- does the order matter?

  /** All copies that name a stored block name the same one. */
  ghost predicate Agree(txs: seq<Prepared>, stored: set<Hash>) {
    forall t, g, h | Names(txs, stored, t, g) && Names(txs, stored, t, h) :: g == h
  }

  ghost predicate SameCopies(a: seq<Prepared>, b: seq<Prepared>) {
    forall p :: p in a <==> p in b
  }

  lemma {:induction false} InFlatten<T>(chunks: seq<seq<T>>, i: nat, x: T)
    requires i < |chunks| && x in chunks[i]
    ensures x in Flatten(chunks)
  {
    if i > 0 { InFlatten(chunks[1..], i - 1, x); }
  }

  lemma {:induction false} OfChunk<T>(chunks: seq<seq<T>>, x: T) returns (i: nat)
    requires x in Flatten(chunks)
    ensures i < |chunks| && x in chunks[i]
  {
    if x in chunks[0] {
      i := 0;
    } else {
      var j := OfChunk(chunks[1..], x);
      i := j + 1;
    }
  }

  lemma {:induction false} SomeLast(chunks: seq<seq<Prepared>>, stored: set<Hash>, t: Txid, i: nat)
    requires i < |chunks| && IsNamed(chunks[i], stored, t)
    ensures LastNaming(chunks, stored, t).Some?
    decreases |chunks|
  {
    if i < |chunks| - 1 {
      SomeLast(chunks[..|chunks| - 1], stored, t, i);
    }
  }

  /** A recorded block is named by a copy, and a transaction with such a copy has one recorded. */
  lemma PhaseNames(before: map<Txid, Hash>, chunks: seq<seq<Prepared>>, stored: set<Hash>, after: map<Txid, Hash>,
                   txs: seq<Prepared>, t: Txid)
    requires PhaseLinks(before, chunks, stored, after) && SameCopies(Flatten(chunks), txs)
    ensures if IsNamed(txs, stored, t) then t in after && Names(txs, stored, t, after[t])
            else (t in after <==> t in before) && (t in after ==> after[t] == before[t])
  {
    var last := LastNaming(chunks, stored, t);
    if last.Some? {
      var h := after[t];
      var p :| p in chunks[last.value] && p.txid == t && p.block == Some(h);
      InFlatten(chunks, last.value, p);
      assert Names(txs, stored, t, h);
    } else if h :| h in stored && Names(txs, stored, t, h) {
      var p :| p in txs && p.txid == t && p.block == Some(h);
      var i := OfChunk(chunks, p);
      assert Names(chunks[i], stored, t, h);
      SomeLast(chunks, stored, t, i);
    }
  }

  lemma AgreeingOrders(before: map<Txid, Hash>, txs: seq<Prepared>, stored: set<Hash>, a: seq<seq<Prepared>>,
                       b: seq<seq<Prepared>>, x: map<Txid, Hash>, y: map<Txid, Hash>)
    requires Agree(txs, stored) && SameCopies(Flatten(a), txs) && SameCopies(Flatten(b), txs)
    requires PhaseLinks(before, a, stored, x) && PhaseLinks(before, b, stored, y)
    ensures x == y
  {
    forall t
      ensures (t in x <==> t in y) && (t in x ==> x[t] == y[t])
    {
      PhaseNames(before, a, stored, x, txs, t);
      PhaseNames(before, b, stored, y, txs, t);
    }
  }

  /** Some order of the blocks: the links it leads to. */
  lemma ChunkLinksExist(before: map<Txid, Hash>, txs: seq<Prepared>, blocks: set<Hash>)
    returns (after: map<Txid, Hash>)
    ensures ChunkLinks(before, txs, blocks, after)
    decreases blocks
  {
    if blocks == {} {
      after := before;
      NoBlocks(before, txs);
    } else {
      var h :| h in blocks;
      after := ChunkLinksExist(before, txs, blocks - {h});
      OneMoreBlock(before, txs, blocks - {h}, after, h);
      assert blocks - {h} + {h} == blocks;
      after := after + map t | t in InBlock(txs, h) :: h;
    }
  }

  /** Importing one copy once more, last, makes its block the recorded one. */
  lemma LastCopyWins(txs: seq<Prepared>, stored: set<Hash>, p: Prepared)
    returns (chunks: seq<seq<Prepared>>, after: map<Txid, Hash>)
    requires p in txs && p.block.Some? && p.block.value in stored
    ensures PhaseLinks(map[], chunks, stored, after) && SameCopies(Flatten(chunks), txs)
    ensures p.txid in after && after[p.txid] == p.block.value
  {
    chunks := [txs, [p]];
    assert chunks[..0] == [] && chunks[..2] == chunks;
    FlattenSnoc(chunks, 0);
    FlattenSnoc(chunks, 1);
    after := TwoChunks(chunks, stored);
    LinksOfOne(after, p, chunks, stored);
  }

  lemma TwoChunks(chunks: seq<seq<Prepared>>, stored: set<Hash>) returns (after: map<Txid, Hash>)
    requires |chunks| == 2
    ensures PhaseLinks(map[], chunks, stored, after)
  {
    var mid := ChunkLinksExist(map[], chunks[0], stored);
    after := ChunkLinksExist(mid, chunks[1], stored);
    OneMoreChunk(map[], chunks, 0, stored, map[], mid);
    OneMoreChunk(map[], chunks, 1, stored, mid, after);
    assert chunks[..2] == chunks;
  }

  lemma LinksOfOne(after: map<Txid, Hash>, p: Prepared, chunks: seq<seq<Prepared>>, stored: set<Hash>)
    requires PhaseLinks(map[], chunks, stored, after) && |chunks| == 2 && chunks[1] == [p]
    requires p.block.Some? && p.block.value in stored
    ensures p.txid in after && after[p.txid] == p.block.value
  {
    assert Names(chunks[1], stored, p.txid, p.block.value);
    assert LastNaming(chunks, stored, p.txid) == Some(1);
  }

  /** However the copies are ordered, repeated and cut, the same links are recorded. */
  ghost predicate OrderIrrelevant(txs: seq<Prepared>, stored: set<Hash>) {
    forall before, a, b, x, y {:trigger PhaseLinks(before, a, stored, x), PhaseLinks(before, b, stored, y)} |
      SameCopies(Flatten(a), txs) && SameCopies(Flatten(b), txs) &&
      PhaseLinks(before, a, stored, x) && PhaseLinks(before, b, stored, y) :: x == y
  }

  lemma DisagreeingOrders(txs: seq<Prepared>, stored: set<Hash>, t: Txid, g: Hash, h: Hash)
    requires Names(txs, stored, t, g) && Names(txs, stored, t, h) && g != h
    ensures !OrderIrrelevant(txs, stored)
  {
    var p :| p in txs && p.txid == t && p.block == Some(g);
    var q :| q in txs && q.txid == t && q.block == Some(h);
    var a, x := LastCopyWins(txs, stored, p);
    var b, y := LastCopyWins(txs, stored, q);
    assert x != y;
  }

  /** The order is irrelevant if and only if all copies of a transaction that name a stored block name the same one. */
  lemma OrderIrrelevantIff(txs: seq<Prepared>, stored: set<Hash>)
    ensures OrderIrrelevant(txs, stored) <==> Agree(txs, stored)
  {
    if Agree(txs, stored) {
      forall before, a, b, x, y | SameCopies(Flatten(a), txs) && SameCopies(Flatten(b), txs) &&
                                  PhaseLinks(before, a, stored, x) && PhaseLinks(before, b, stored, y)
        ensures x == y
      {
        AgreeingOrders(before, txs, stored, a, b, x, y);
      }
    } else {
      var t, g, h :| Names(txs, stored, t, g) && Names(txs, stored, t, h) && g != h;
      DisagreeingOrders(txs, stored, t, g, h);
    }
  }
}
