/** The orchestrator: on each block it pushes what is due, shifts late chains and repeats to a fixpoint. */
module Orchestrator {
  import opened Wrappers
  import opened ScheduledTable
  import opened ScheduleHistory
  import opened ScheduledDb

  datatype PushOutcome = Pushed | Rejected | ConnectionLost

  /** The node as seen during one call: its answers may depend on how many requests came before. */
  datatype Node = Node(confirmations: (nat, Txid) -> Option<int>, push: (nat, string) -> PushOutcome)

  ghost predicate FixedConfirmations(node: Node) {
    forall t, txid :: node.confirmations(t, txid) == node.confirmations(0, txid)
  }

  ghost function AnswerAt(node: Node, t: nat): Txid -> Option<int> {
    txid => node.confirmations(t, txid)
  }

  // ----- the recursive shift, row by row

  ghost predicate Under(t: Table, txs: seq<IdRow>, n: nat, k: nat)
    requires Forest(t) && n <= |txs|
  {
    exists j | 0 <= j < n :: k == txs[j].id || Descends(t, k, txs[j].id)
  }

  /** The table once the subtrees of the first `n` children have been shifted. */
  ghost function ShiftedUpTo(t: Table, txs: seq<IdRow>, n: nat, shift: int): Table
    requires Forest(t) && n <= |txs|
  {
    map k | k in t :: if Under(t, txs, n, k) then t[k].(trigger := t[k].trigger + shift) else t[k]
  }

  ghost predicate AreChildren(t: Table, parent: nat, txs: seq<IdRow>) {
    && (forall i | 0 <= i < |txs| ::
          txs[i].id in t && t[txs[i].id].parentId == Some(parent) && txs[i].row == t[txs[i].id])
    && (forall i, j | 0 <= i < j < |txs| :: txs[i].id != txs[j].id)
  }

  lemma ShiftOneRow(t: Table, parent: nat, txs: seq<IdRow>, n: nat, shift: int, u: Table, k: nat)
    requires Forest(t) && Forest(u) && AreChildren(t, parent, txs) && n < |txs| && u.Keys == t.Keys
    requires forall j | j in t :: u[j].parentId == t[j].parentId
    requires k in t
    requires u[k] == if k == txs[n].id || Under(t, txs, n, k) then t[k].(trigger := t[k].trigger + shift) else t[k]
    ensures (if Descends(u, k, txs[n].id) then u[k].(trigger := u[k].trigger + shift) else u[k])
         == (if Under(t, txs, n + 1, k) then t[k].(trigger := t[k].trigger + shift) else t[k])
  {
    var c := txs[n].id;
    DescendsFrame(t, u, k, c);
    if k == c || Descends(t, k, c) { NotUnderEarlier(t, parent, txs, n, k); }
    if Descends(t, c, c) { DescendantIsLater(t, c, c); }
  }

  lemma ShiftOneChild(t: Table, parent: nat, txs: seq<IdRow>, n: nat, shift: int, u: Table)
    requires Forest(t) && AreChildren(t, parent, txs) && n < |txs|
    requires u == ShiftedUpTo(t, txs, n, shift)[txs[n].id := txs[n].row.(trigger := txs[n].row.trigger + shift)]
    ensures Forest(u) && u.Keys == t.Keys
    ensures ShiftBelow(u, txs[n].id, shift) == ShiftedUpTo(t, txs, n + 1, shift)
  {
    MovedKeepsShape(t, parent, txs, n, shift, u);
    var below, next := ShiftBelow(u, txs[n].id, shift), ShiftedUpTo(t, txs, n + 1, shift);
    forall k | k in t
      ensures below[k] == next[k]
    {
      ShiftOneRow(t, parent, txs, n, shift, u, k);
    }
  }

  lemma MovedKeepsShape(t: Table, parent: nat, txs: seq<IdRow>, n: nat, shift: int, u: Table)
    requires Forest(t) && AreChildren(t, parent, txs) && n < |txs|
    requires u == ShiftedUpTo(t, txs, n, shift)[txs[n].id := txs[n].row.(trigger := txs[n].row.trigger + shift)]
    ensures Forest(u) && u.Keys == t.Keys
    ensures forall j | j in t :: u[j].parentId == t[j].parentId
  {
  }

  lemma NoneShifted(t: Table, txs: seq<IdRow>, shift: int)
    requires Forest(t)
    ensures ShiftedUpTo(t, txs, 0, shift) == t
  {
  }

  lemma NextChildUntouched(t: Table, parent: nat, txs: seq<IdRow>, n: nat, shift: int)
    requires Forest(t) && AreChildren(t, parent, txs) && n < |txs|
    ensures var s := ShiftedUpTo(t, txs, n, shift); txs[n].id in s && s[txs[n].id] == txs[n].row
  {
    NotUnderEarlier(t, parent, txs, n, txs[n].id);
  }

  lemma NotUnderEarlier(t: Table, parent: nat, txs: seq<IdRow>, n: nat, k: nat)
    requires Forest(t) && AreChildren(t, parent, txs) && n < |txs|
    requires k == txs[n].id || Descends(t, k, txs[n].id)
    ensures !Under(t, txs, n, k)
  {
    forall j | 0 <= j < n
      ensures !(k == txs[j].id || Descends(t, k, txs[j].id))
    {
      SiblingSubtreesDisjoint(t, k, parent, txs[n].id, txs[j].id);
    }
  }

  ghost predicate AllListed(t: Table, parent: nat, txs: seq<IdRow>) {
    forall id | id in t && t[id].parentId == Some(parent) :: exists i :: 0 <= i < |txs| && txs[i].id == id
  }

  /** The children of a row, each once. */
  method Children(db: Db, parentId: nat) returns (txs: seq<IdRow>)
    ensures AreChildren(db.rows, parentId, txs) && AllListed(db.rows, parentId, txs)
  {
    txs := db.GetNextScheduledTransactions(parentId);
  }

  lemma AllChildrenShifted(t: Table, parent: nat, txs: seq<IdRow>, shift: int)
    requires Forest(t) && AreChildren(t, parent, txs) && AllListed(t, parent, txs)
    ensures ShiftedUpTo(t, txs, |txs|, shift) == ShiftBelow(t, parent, shift)
  {
    forall k | k in t
      ensures Under(t, txs, |txs|, k) <==> Descends(t, k, parent)
    {
      if Descends(t, k, parent) {
        var c := DescendsViaChild(t, k, parent);
      }
      if Under(t, txs, |txs|, k) {
        var j :| 0 <= j < |txs| && (k == txs[j].id || Descends(t, k, txs[j].id));
        if k != txs[j].id { DescendsTransitive(t, k, txs[j].id, parent); }
      }
    }
  }

  lemma {:induction false} DescendsTransitive(t: Table, k: nat, mid: nat, top: nat)
    requires Forest(t) && Descends(t, k, mid) && Descends(t, mid, top)
    ensures Descends(t, k, top)
    decreases k
  {
    if t[k].parentId.value != mid {
      DescendsTransitive(t, t[k].parentId.value, mid, top);
    }
  }

  ghost predicate IdsBelow(t: Table, nextId: nat) {
    forall id | id in t :: id < nextId
  }

  /** A child of `parentId` is `shift` later, a root as it was, any other row as far from its predecessor as before. */
  ghost predicate ShiftedRow(before: Table, after: Table, parentId: nat, shift: int, k: nat)
    requires k in before && k in after
  {
    match before[k].parentId
    case None => after[k] == before[k]
    case Some(p) =>
      && p in before && p in after && after[k] == before[k].(trigger := after[k].trigger)
      && if p == parentId then after[k].trigger == before[k].trigger + shift
         else after[k].trigger - after[p].trigger == before[k].trigger - before[p].trigger
  }

  ghost predicate ShiftedBelow(before: Table, after: Table, parentId: nat, shift: int)
    requires after.Keys == before.Keys
  {
    forall k {:trigger ShiftedRow(before, after, parentId, shift, k)} | k in before ::
      ShiftedRow(before, after, parentId, shift, k)
  }

  /** Adds the shift exactly once to every proper descendant of `parentId`; no other row changes. */
  method UpdateTriggers(db: Db, parentId: nat, shift: int)
    requires Forest(db.rows) && IdsBelow(db.rows, db.nextId) && parentId < db.nextId
    modifies db`rows
    ensures db.rows == ShiftBelow(old(db.rows), parentId, shift)
    ensures db.rows.Keys == old(db.rows).Keys && ShiftedBelow(old(db.rows), db.rows, parentId, shift)
    decreases db.nextId - parentId, 1
  {
    forall k | k in db.rows
      ensures ShiftedRow(db.rows, ShiftBelow(db.rows, parentId, shift), parentId, shift, k)
    {
      ShiftPointwise(db.rows, parentId, shift, k);
    }
    if shift == 0 {
      return;
    }
    ghost var t := db.rows;
    var txs := Children(db, parentId);
    NoneShifted(t, txs, shift);
    for i := 0 to |txs|
      invariant db.rows == ShiftedUpTo(t, txs, i, shift)
    {
      ShiftChild(db, txs[i], shift, t, parentId, txs, i);
    }
    AllChildrenShifted(t, parentId, txs, shift);
  }

  /** One turn of the loop: moves a child, then everything below it. */
  method ShiftChild(db: Db, tx: IdRow, shift: int,
                    ghost t: Table, ghost parentId: nat, ghost txs: seq<IdRow>, ghost i: nat)
    requires Forest(t) && IdsBelow(t, db.nextId) && AreChildren(t, parentId, txs) && i < |txs| && tx == txs[i]
    requires db.rows == ShiftedUpTo(t, txs, i, shift)
    modifies db`rows
    ensures db.rows == ShiftedUpTo(t, txs, i + 1, shift)
    decreases db.nextId - parentId, 0
  {
    var newTrigger := tx.row.trigger + shift;
    NextChildUntouched(t, parentId, txs, i, shift);
    db.UpdateTriggerScheduledTransaction(tx.id, newTrigger);
    ShiftOneChild(t, parentId, txs, i, shift, db.rows);
    assert parentId < tx.id && tx.id in t;
    UpdateTriggers(db, tx.id, shift);
  }

  // ----- one block

  /** Rows still to be visited in this pass are exactly as they were read. */
  ghost predicate SnapshotHolds(t: Table, txs: seq<IdRow>, from: nat) {
    forall j | from <= j < |txs| :: txs[j].id in t && t[txs[j].id] == txs[j].row
  }

  /** An attempt at this height, or the removal of a pushed row. */
  predicate OfBlock(e: Event, height: int) {
    match e
    case Stored(_) => false
    case Attempted(_, at, _) => at == height
    case Removed(_) => true
  }

  /** The run grew, by attempts at this height and removals only. */
  ghost predicate OnlyAttempts(before: seq<Event>, after: seq<Event>, height: int) {
    && |before| <= |after|
    && (forall i | 0 <= i < |before| :: after[i] == before[i])
    && (forall i | |before| <= i < |after| :: OfBlock(after[i], height))
  }

  predicate LosesConnection(e: Event) {
    e.Attempted? && !e.processed
  }

  /** Every attempt from `from` on was processed, except the last one if the connection was lost then. */
  ghost predicate ConnectionHeld(run: seq<Event>, from: nat, connOk: bool) {
    && from <= |run|
    && (!connOk ==> from < |run| && LosesConnection(run[|run| - 1]))
    && forall i | from <= i < (if connOk then |run| else |run| - 1) :: !LosesConnection(run[i])
  }

  /** The events of one attempt. */
  function Concluded(id: nat, height: int, processed: bool): seq<Event> {
    [Attempted(id, height, processed)] + if processed then [Removed(id)] else []
  }

  /** After a push: shift the chain of a late row, then delete the row. */
  method Release(db: Db, tx: IdRow, height: int)
    requires ValidTable(db.rows) && IdsBelow(db.rows, db.nextId)
    requires tx.id in db.rows && db.rows[tx.id] == tx.row
    modifies db`rows
    ensures db.rows == Process(old(db.rows), tx.id, height)
  {
    // Late: what follows has to move
    if tx.row.trigger < height {
      ShiftKeepsShape(db.rows, tx.id, height - tx.row.trigger);
      UpdateTriggers(db, tx.id, height - tx.row.trigger);
    }
    db.DeleteScheduledTransaction(tx.row.txid);
  }

  /** Ends the attempt to push `tx`; unless the connection was lost the row is released. */
  method Conclude(db: Db, tx: IdRow, height: int, processed: bool)
    requires db.Valid() && tx.id in Activated(db.rows, height) && db.rows[tx.id] == tx.row
    modifies db
    ensures db.Valid() && db.run == old(db.run) + Concluded(tx.id, height, processed) && db.nextId == old(db.nextId)
    ensures ValidTable(old(db.rows))
    ensures db.rows == if processed then Process(old(db.rows), tx.id, height) else old(db.rows)
  {
    db.ValidRows();
    ghost var h := db.states[|db.run|];
    if processed {
      Release(db, tx, height);
      ghost var m := AfterAttempt(h, tx.id, height);
      ExtendRun(db.states, db.run, Attempted(tx.id, height, true), m);
      db.states, db.run := db.states + [m], db.run + [Attempted(tx.id, height, true)];
      ExtendRun(db.states, db.run, Removed(tx.id), AfterRemoval(m, tx.id));
      db.states, db.run := db.states + [AfterRemoval(m, tx.id)], db.run + [Removed(tx.id)];
    } else {
      ExtendRun(db.states, db.run, Attempted(tx.id, height, false), h);
      db.states, db.run := db.states + [h], db.run + [Attempted(tx.id, height, false)];
    }
  }

  lemma ShiftKeepsShape(t: Table, id: nat, shift: int)
    requires ValidTable(t)
    ensures Forest(ShiftBelow(t, id, shift)) && UniqueTxids(ShiftBelow(t, id, shift))
    ensures id in t ==> ShiftBelow(t, id, shift)[id] == t[id]
  {
    if id in t && Descends(t, id, id) { DescendantIsLater(t, id, id); }
  }

  /** Asks for the predecessor's confirmations if there is one, and pushes a row that is ready. */
  method TryPush(db: Db, tx: IdRow, height: int, node: Node, clock: nat)
    returns (outcome: Option<PushOutcome>, now: nat)
    requires db.Valid() && tx.id in Activated(db.rows, height) && db.rows[tx.id] == tx.row
    modifies db
    ensures db.Valid() && ValidTable(old(db.rows))
    ensures outcome.None? ==> db.rows == old(db.rows) && db.run == old(db.run)
    ensures outcome.Some? ==> db.run == old(db.run) + Concluded(tx.id, height, outcome.value != ConnectionLost)
    ensures db.nextId == old(db.nextId)
    ensures outcome == Some(ConnectionLost) ==> db.rows == old(db.rows)
    ensures outcome.Some? && outcome.value != ConnectionLost ==> db.rows == Process(old(db.rows), tx.id, height)
    ensures outcome.Some? <==> Ready(tx.row, AnswerAt(node, clock))
    ensures outcome.Some? <==> MayGo(tx.row.parentTxid, tx.row.delay, AnswerAt(node, clock))
    ensures outcome.Some? ==> now > clock && outcome.value == node.push(now - 1, tx.row.raw)
  {
    db.ValidRows();
    outcome, now := None, clock;
    // How deep is its predecessor?
    var parentConfirmations := None;
    if HasParentTx(tx.row) {
      parentConfirmations := node.confirmations(now, tx.row.parentTxid.value);
      now := now + 1;
    }
    if !HasParentTx(tx.row) || (parentConfirmations.Some? && parentConfirmations.value >= tx.row.delay) {
      var answer := node.push(now, tx.row.raw);
      now, outcome := now + 1, Some(answer);
      Conclude(db, tx, height, answer != ConnectionLost);
    }
  }

  /** How far a pass has come: `pushed` rows are gone and the closed form of the block is still the same. */
  ghost predicate Progress(start: Table, runStart: seq<Event>, t: Table, run: seq<Event>, height: int, node: Node,
                           pushed: nat)
  {
    && ValidTable(start) && ValidTable(t)
    && OnlyAttempts(runStart, run, height)
    && |t| + pushed == |start| && (pushed == 0 ==> t == start)
    && (FixedConfirmations(node) ==> Settled(t, height, AnswerAt(node, 0)) == Settled(start, height, AnswerAt(node, 0)))
  }

  lemma ProgressStep(start: Table, runStart: seq<Event>, t: Table, run: seq<Event>, height: int, node: Node,
                     pushed: nat, txs: seq<IdRow>, i: nat)
    requires Progress(start, runStart, t, run, height, node, pushed)
    requires i < |txs| && SnapshotHolds(t, txs, i) && AllActivated(txs, height)
    requires FixedConfirmations(node) ==> Ready(txs[i].row, AnswerAt(node, 0))
    ensures var p := Process(t, txs[i].id, height);
            && Progress(start, runStart, p, run + Concluded(txs[i].id, height, true), height, node, pushed + 1)
            && SnapshotHolds(p, txs, i + 1)
  {
    ProcessKeepsSnapshot(t, txs, i, height);
    if FixedConfirmations(node) { SettledInvariant(t, txs[i].id, height, AnswerAt(node, 0)); }
  }

  /** There is no predecessor, or the node knows it with at least `delay` confirmations. */
  ghost predicate MayGo(parentTxid: Option<Txid>, delay: int, answer: Txid -> Option<int>) {
    match parentTxid
    case None => true
    case Some(p) => p == "" || exists n :: answer(p) == Some(n) && n >= delay
  }

  /**
   What a block may have done to a row: a first row is as it was; a row whose predecessor is left keeps its
   distance; a row whose predecessor went is released as long after the height as it was triggered after it.
   */
  ghost predicate RowAfterBlock(before: Table, after: Table, height: int, id: nat)
    requires id in after
  {
    && id in before && after[id] == before[id].(parentId := after[id].parentId, trigger := after[id].trigger)
    && match before[id].parentId
       case None => after[id] == before[id]
       case Some(p) =>
         && p in before
         && if p in after then
              && after[id].parentId == Some(p)
              && after[id].trigger - after[p].trigger == before[id].trigger - before[p].trigger
            else
              && after[id].parentId == None
              && after[id].trigger == height + before[id].trigger - before[p].trigger
  }

  /** A row that went was free to go and due: at or below the height, itself or released by its predecessor. */
  ghost predicate WentRightly(before: Table, after: Table, height: int, answer: Txid -> Option<int>, id: nat)
    requires id in before
  {
    && MayGo(before[id].parentTxid, before[id].delay, answer)
    && match before[id].parentId
       case None => before[id].trigger <= height
       case Some(p) =>
         p in before && p !in after && height + before[id].trigger - before[p].trigger <= height
  }

  /** Rows that went did so rightly; first rows at or below the height that are left were not free to go. */
  ghost predicate RowsAfterBlock(before: Table, after: Table, height: int, answer: Txid -> Option<int>) {
    && (forall id {:trigger RowAfterBlock(before, after, height, id)} | id in after ::
          RowAfterBlock(before, after, height, id))
    && (forall id {:trigger WentRightly(before, after, height, answer, id)} | id in before && id !in after ::
          WentRightly(before, after, height, answer, id))
    && (forall id | id in after && after[id].parentId.None? && after[id].trigger <= height ::
          !MayGo(after[id].parentTxid, after[id].delay, answer))
  }

  lemma SettledRows(t: Table, height: int, answer: Txid -> Option<int>)
    requires ValidTable(t)
    ensures RowsAfterBlock(t, Settled(t, height, answer), height, answer)
  {
    var s := Settled(t, height, answer);
    forall id | id in s
      ensures RowAfterBlock(t, s, height, id)
    {
      SettledPointwise(t, height, answer, id);
    }
    forall id | id in s && s[id].parentId.None? && s[id].trigger <= height
      ensures !MayGo(s[id].parentTxid, s[id].delay, answer)
    {
      SettledRootsWait(t, height, answer, id);
    }
    forall id | id in t && id !in s
      ensures WentRightly(t, s, height, answer, id)
    {
      assert Due(t, id, height, answer);
    }
  }

  /** One pass over the rows activated by the block. `clock` counts the node's answers. */
  method Pass(db: Db, txs: seq<IdRow>, height: int, node: Node, clock: nat)
    returns (nbTxsPushed: nat, rpcConnOk: bool, now: nat)
    requires db.Valid() && SnapshotHolds(db.rows, txs, 0) && AllActivated(txs, height)
    modifies db
    ensures db.Valid() && Progress(old(db.rows), old(db.run), db.rows, db.run, height, node, nbTxsPushed)
    ensures ConnectionHeld(db.run, |old(db.run)|, rpcConnOk) && db.nextId == old(db.nextId)
    ensures FixedConfirmations(node) && nbTxsPushed == 0 && rpcConnOk ==> NoneReady(txs, |txs|, AnswerAt(node, 0))
  {
    nbTxsPushed, rpcConnOk, now := 0, true, clock;
    db.ValidRows();
    ghost var start, runStart := db.rows, db.run;
    for i := 0 to |txs|
      invariant rpcConnOk && ConnectionHeld(db.run, |runStart|, true)
      invariant db.Valid() && SnapshotHolds(db.rows, txs, i) && db.nextId == old(db.nextId)
      invariant Progress(start, runStart, db.rows, db.run, height, node, nbTxsPushed)
      invariant FixedConfirmations(node) && nbTxsPushed == 0 ==> NoneReady(txs, i, AnswerAt(node, 0))
    {
      nbTxsPushed, rpcConnOk, now := Visit(db, txs, i, height, node, now, nbTxsPushed, start, runStart);
      if !rpcConnOk {
        return;
      }
    }
  }

  ghost predicate NoneReady(txs: seq<IdRow>, n: nat, confirmations: Txid -> Option<int>)
    requires n <= |txs|
  {
    forall i | 0 <= i < n :: !Ready(txs[i].row, confirmations)
  }

  /** One turn of the pass: tries to push a row, after `pushed` others. */
  method Visit(db: Db, txs: seq<IdRow>, i: nat, height: int, node: Node, clock: nat, pushed: nat,
               ghost start: Table, ghost runStart: seq<Event>)
    returns (nbTxsPushed: nat, rpcConnOk: bool, now: nat)
    requires db.Valid() && i < |txs| && SnapshotHolds(db.rows, txs, i) && AllActivated(txs, height)
    requires Progress(start, runStart, db.rows, db.run, height, node, pushed)
    requires ConnectionHeld(db.run, |runStart|, true)
    modifies db
    ensures db.Valid() && SnapshotHolds(db.rows, txs, i + 1) && db.nextId == old(db.nextId)
    ensures pushed <= nbTxsPushed <= pushed + 1
    ensures Progress(start, runStart, db.rows, db.run, height, node, nbTxsPushed)
    ensures ConnectionHeld(db.run, |runStart|, rpcConnOk)
    ensures FixedConfirmations(node) && rpcConnOk && nbTxsPushed == pushed ==> !Ready(txs[i].row, AnswerAt(node, 0))
  {
    ghost var t, run := db.rows, db.run;
    var outcome;
    outcome, now := TryPush(db, txs[i], height, node, clock);
    nbTxsPushed, rpcConnOk := pushed, outcome != Some(ConnectionLost);
    if rpcConnOk && outcome.Some? {
      ProgressStep(start, runStart, t, run, height, node, pushed, txs, i);
      nbTxsPushed := pushed + 1;
    }
  }

  ghost predicate AllActivated(txs: seq<IdRow>, height: int) {
    && (forall j | 0 <= j < |txs| :: txs[j].row.parentId.None? && txs[j].row.trigger <= height)
    && (forall j, k | 0 <= j < k < |txs| :: txs[j].id != txs[k].id)
  }

  lemma ProcessKeepsSnapshot(t: Table, txs: seq<IdRow>, i: nat, height: int)
    requires ValidTable(t) && i < |txs| && SnapshotHolds(t, txs, i) && AllActivated(txs, height)
    ensures var p := Process(t, txs[i].id, height);
            ValidTable(p) && SnapshotHolds(p, txs, i + 1) && |p| == |t| - 1
  {
    ProcessKeepsValid(t, txs[i].id, height);
    var p := Process(t, txs[i].id, height);
    assert |p.Keys| == |t.Keys - {txs[i].id}|;
    forall j | i < j < |txs|
      ensures txs[j].id in p && p[txs[j].id] == txs[j].row
    {
      assert RootOf(t, txs[j].id) == txs[j].id != txs[i].id;
    }
  }

  /**
   The handling of one block. It always terminates, since a repeated pass has removed a row. While the
   node's confirmation counts stay fixed, and unless a push loses its connection, the table ends in the
   closed form, whatever order the rows are read in.
   */
  method OnBlockHash(db: Db, height: int, node: Node) returns (rpcConnOk: bool)
    requires db.Valid()
    modifies db
    ensures db.Valid() && ValidTable(db.rows) && ValidTable(old(db.rows)) && db.nextId == old(db.nextId)
    ensures OnlyAttempts(old(db.run), db.run, height) && ConnectionHeld(db.run, |old(db.run)|, rpcConnOk)
    ensures FixedConfirmations(node) && rpcConnOk ==>
              && db.rows == Settled(old(db.rows), height, AnswerAt(node, 0))
              && forall id | id in Activated(db.rows, height) :: !Ready(db.rows[id], AnswerAt(node, 0))
    ensures FixedConfirmations(node) ==>
              Settled(db.rows, height, AnswerAt(node, 0)) == Settled(old(db.rows), height, AnswerAt(node, 0))
    ensures FixedConfirmations(node) && rpcConnOk ==>
              RowsAfterBlock(old(db.rows), db.rows, height, AnswerAt(node, 0))
    ensures FixedConfirmations(node) ==>
              forall id | id in old(db.rows) && id !in db.rows ::
                MayGo(old(db.rows)[id].parentTxid, old(db.rows)[id].delay, AnswerAt(node, 0))
  {
    db.ValidRows();
    rpcConnOk := true;
    var now, again := 0, true;
    while again
      invariant db.Valid() && ValidTable(db.rows) && (again ==> rpcConnOk) && db.nextId == old(db.nextId)
      invariant OnlyAttempts(old(db.run), db.run, height) && ConnectionHeld(db.run, |old(db.run)|, rpcConnOk)
      invariant FixedConfirmations(node) ==>
                  && Settled(db.rows, height, AnswerAt(node, 0)) == Settled(old(db.rows), height, AnswerAt(node, 0))
                  && (!again && rpcConnOk ==>
                        forall id | id in Activated(db.rows, height) :: !Ready(db.rows[id], AnswerAt(node, 0)))
      decreases |db.rows|, again
    {
      var txs := db.GetActivatedScheduledTransactions(height);
      if |txs| == 0 {
        again := false;
      } else {
        var nbTxsPushed;
        nbTxsPushed, rpcConnOk, now := Pass(db, txs, height, node, now);
        again := rpcConnOk && nbTxsPushed > 0;
      }
    }
    if FixedConfirmations(node) && rpcConnOk {
      QuiescentIsSettled(db.rows, height, AnswerAt(node, 0));
    }
    SettledRows(old(db.rows), height, AnswerAt(node, 0));
    LeftMayGo(old(db.rows), db.rows, height, AnswerAt(node, 0));
  }

  lemma LeftMayGo(before: Table, after: Table, height: int, answer: Txid -> Option<int>)
    requires ValidTable(before) && ValidTable(after)
    ensures Settled(after, height, answer) == Settled(before, height, answer) ==>
              forall id | id in before && id !in after :: MayGo(before[id].parentTxid, before[id].delay, answer)
  {
    if Settled(after, height, answer) == Settled(before, height, answer) {
      forall id | id in before && id !in after
        ensures MayGo(before[id].parentTxid, before[id].delay, answer)
      {
        assert id !in Settled(before, height, answer);
      }
    }
  }
}
