/**
 The reorganisation and the pipeline together: blocks are fetched out of order by a pool and processed by the
 worker of a queue, and the tables still end as the blocks applied one after the other, lowest first.
 */
module PipelinedReorg {
  import opened Fifo
  import BlockPipeline
  import Reorg

  /** The job of a range of heights: each height is fetched as the hash of the active block there. */
  ghost predicate IsRange(job: BlockPipeline.Job<Reorg.Hash>, node: Reorg.Node, d: nat, n: nat) {
    && d <= n <= |node.active|
    && |job.heights| == n - d
    && forall i | 0 <= i < n - d :: job.heights[i] == d + i && job.fetch(d + i) == node.active[d + i]
  }

  /** One step of the tables: each block that the worker finishes has been applied to the tables before it. */
  ghost predicate Applies(node: Reorg.Node, tables: seq<Reorg.Tables>, ended: seq<Reorg.Hash>, i: nat)
    requires i < |ended| && |tables| == |ended| + 1
  {
    ended[i] in node.headers && Reorg.IsApplied(tables[i], node, ended[i], tables[i + 1])
  }

  /** `tables` are what the worker saw before each finished call, and at the end. */
  ghost predicate IsWork(node: Reorg.Node, tables: seq<Reorg.Tables>, ended: seq<Reorg.Hash>) {
    && |tables| == |ended| + 1
    && forall i {:trigger Applies(node, tables, ended, i)} | 0 <= i < |ended| :: Applies(node, tables, ended, i)
  }

  /** The ids of the first `i` blocks applied. */
  ghost function IdsAfter(ids: seq<nat>, tables: seq<Reorg.Tables>, i: nat): seq<nat>
    requires i <= |tables|
  {
    if i == 0 then ids else IdsAfter(ids, tables, i - 1) + [tables[i - 1].nextId]
  }

  lemma {:induction false} BuiltUpTo(node: Reorg.Node, tables: seq<Reorg.Tables>, ended: seq<Reorg.Hash>, b: nat,
                                     ids: seq<nat>, d: nat, before: Reorg.Tables, i: nat)
    requires Reorg.ValidNode(node) && b <= d && (b == d ==> b == 0) && d + |ended| <= |node.active|
    requires IsWork(node, tables, ended) && ended == node.active[d..d + |ended|] && i <= |ended|
    requires Reorg.IsBuilt(tables[0], node, b, ids, d, d, before)
    ensures Reorg.IsBuilt(tables[i], node, b, IdsAfter(ids, tables, i), d, d + i, before)
  {
    if i > 0 {
      BuiltUpTo(node, tables, ended, b, ids, d, before, i - 1);
      assert Applies(node, tables, ended, i - 1) && Reorg.ActiveAt(node, d + i - 1);
      assert ended[i - 1] == node.active[d + i - 1];
      Reorg.AppliedExtends(tables[i - 1], node, b, IdsAfter(ids, tables, i - 1), d, d + i - 1, before, tables[i]);
    }
  }

  /**
   A run of the pipeline that has returned, whose worker processes blocks, leaves the tables exactly as built
   by applying the active blocks of the range in order, whatever the fetches and the queue did meanwhile.
   */
  lemma ReturnedRunBuilds(job: BlockPipeline.Job<Reorg.Hash>, states: seq<BlockPipeline.State<Reorg.Hash>>,
                          events: seq<BlockPipeline.Event>, node: Reorg.Node, tables: seq<Reorg.Tables>,
                          b: nat, ids: seq<nat>, d: nat, n: nat, before: Reorg.Tables)
    requires BlockPipeline.ValidJob(job) && BlockPipeline.IsRun(job, states, events)
    requires states[|events|].producer.Returned?
    requires Reorg.ValidNode(node) && IsRange(job, node, d, n) && b <= d && (b == d ==> b == 0)
    requires IsWork(node, tables, states[|events|].queue.ended)
    requires Reorg.IsBuilt(tables[0], node, b, ids, d, d, before)
    ensures |tables| == n - d + 1
    ensures Reorg.IsBuilt(tables[n - d], node, b, IdsAfter(ids, tables, n - d), d, n, before)
  {
    var ended := states[|events|].queue.ended;
    BlockPipeline.OrderAndBounds(job, states, events, |events|);
    assert ended == BlockPipeline.BlocksOf(job, n - d);
    assert ended == node.active[d..n];
    BuiltUpTo(node, tables, ended, b, ids, d, before, n - d);
  }

  /**
   While a run is still going on, the tables hold the part of the chain processed so far: at no time is a
   block applied before the one below it.
   */
  lemma EveryStateBuilds(job: BlockPipeline.Job<Reorg.Hash>, states: seq<BlockPipeline.State<Reorg.Hash>>,
                         events: seq<BlockPipeline.Event>, i: nat, node: Reorg.Node, tables: seq<Reorg.Tables>,
                         b: nat, ids: seq<nat>, d: nat, n: nat, before: Reorg.Tables)
    requires BlockPipeline.ValidJob(job) && BlockPipeline.IsRun(job, states, events) && i <= |events|
    requires Reorg.ValidNode(node) && IsRange(job, node, d, n) && b <= d && (b == d ==> b == 0)
    requires IsWork(node, tables, states[i].queue.ended)
    requires Reorg.IsBuilt(tables[0], node, b, ids, d, d, before)
    ensures var k := |states[i].queue.ended|;
            k <= n - d && Reorg.IsBuilt(tables[k], node, b, IdsAfter(ids, tables, k), d, d + k, before)
  {
    var ended := states[i].queue.ended;
    BlockPipeline.OrderAndBounds(job, states, events, i);
    var all := BlockPipeline.BlocksOf(job, n - d);
    assert ended + states[i].queue.running <= all;
    forall k | 0 <= k < |ended|
      ensures ended[k] == node.active[d + k]
    {
      assert (ended + states[i].queue.running)[k] == all[k];
    }
    assert ended == node.active[d..d + |ended|];
    BuiltUpTo(node, tables, ended, b, ids, d, before, |ended|);
  }
}
