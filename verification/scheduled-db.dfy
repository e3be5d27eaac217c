/** The database queries on scheduled_transactions used by the scheduler and the orchestrator. */
module ScheduledDb {
  import opened Wrappers
  import opened ScheduledTable
  import opened ScheduleHistory

  datatype IdRow = IdRow(id: nat, row: Row)

  /** Puts the members of a set in some order, as a SELECT without ORDER BY does. */
  method InSomeOrder(ids: set<nat>) returns (s: seq<nat>)
    ensures forall id :: id in s <==> id in ids
    ensures forall i, j | 0 <= i < j < |s| :: s[i] != s[j]
  {
    s := [];
    var rest := ids;
    while rest != {}
      invariant rest <= ids
      invariant forall id :: id in s <==> id in ids - rest
      invariant forall i, j | 0 <= i < j < |s| :: s[i] != s[j]
      decreases |rest|
    {
      var id :| id in rest;
      s, rest := s + [id], rest - {id};
    }
  }

  class Db {
    var rows: Table
    var nextId: nat
    // The run that led to this state.
    ghost var states: seq<History>
    ghost var run: seq<Event>

    ghost predicate Valid()
      reads this
    {
      && IsRun(states, run)
      && states[|run|].rows == rows
      && states[|run|].nextId == nextId
      && states[|run|].pending.None?
    }

    ghost function View(): (Table, nat, seq<History>, seq<Event>)
      reads this
    {
      (rows, nextId, states, run)
    }

    constructor ()
      ensures Valid() && rows == map[] && run == []
    {
      rows, nextId := map[], 1;
      states, run := [EMPTY], [];
    }

    lemma ValidRows()
      requires Valid()
      ensures ValidTable(rows)
      ensures forall id | id in rows :: id < nextId
    {
      RunInv(states, run, |run|);
    }

    /** INSERT; fails on a duplicate txid or a parent that is gone. */
    method AddScheduledTransaction(row: Row) returns (id: Option<nat>)
      requires Valid()
      modifies this
      ensures Valid()
      ensures id.Some? <==> Storable(old(rows), row)
      ensures id.Some? ==>
                && id.value == old(nextId) && id.value !in old(rows)
                && rows == old(rows)[id.value := row] && nextId == old(nextId) + 1
                && run == old(run) + [Stored(row)] && states[..|old(states)|] == old(states)
      ensures id.None? ==> rows == old(rows) && run == old(run) && nextId == old(nextId) && states == old(states)
    {
      ValidRows();
      if (exists k | k in rows :: rows[k].txid == row.txid) || (row.parentId.Some? && row.parentId.value !in rows) {
        return None;
      }
      ghost var n := AfterStore(states[|run|], row);
      ExtendRun(states, run, Stored(row), n);
      states, run := states + [n], run + [Stored(row)];
      id := Some(nextId);
      rows, nextId := rows[nextId := row], nextId + 1;
    }

    method DeleteScheduledTransaction(txid: Txid)
      requires UniqueTxids(rows) && Forest(rows)
      modifies `rows
      ensures forall id | id in old(rows) && old(rows)[id].txid == txid :: rows == Delete(old(rows), id)
      ensures forall k :: k in rows <==> k in old(rows) && old(rows)[k].txid != txid
      ensures forall k | k in rows ::
                var was := old(rows)[k];
                rows[k] == was.(parentId := if was.parentId.Some? && was.parentId.value in old(rows) &&
                                               old(rows)[was.parentId.value].txid == txid then None
                                            else was.parentId)
      ensures (forall id | id in old(rows) :: old(rows)[id].txid != txid) ==> rows == old(rows)
    {
      if id :| id in rows && rows[id].txid == txid {
        rows := Delete(rows, id);
      }
    }

    /** Roots whose trigger is not above the height, in no particular order. */
    method GetActivatedScheduledTransactions(height: int) returns (txs: seq<IdRow>)
      ensures forall i | 0 <= i < |txs| :: txs[i].id in Activated(rows, height) && txs[i].row == rows[txs[i].id]
      ensures forall id | id in Activated(rows, height) :: exists i :: 0 <= i < |txs| && txs[i].id == id
      ensures forall id | id in rows ::
                (exists i :: 0 <= i < |txs| && txs[i].id == id) <==>
                rows[id].parentId.None? && rows[id].trigger <= height
      ensures forall i, j | 0 <= i < j < |txs| :: txs[i].id != txs[j].id
    {
      var ids := InSomeOrder(Activated(rows, height));
      txs := WithRows(ids);
      assert forall id | id in Activated(rows, height) :: id in ids;
      forall id | id in rows
        ensures (exists i :: 0 <= i < |txs| && txs[i].id == id) <==>
                rows[id].parentId.None? && rows[id].trigger <= height
      {
        if i :| 0 <= i < |txs| && txs[i].id == id { assert txs[i].id in Activated(rows, height); }
        if rows[id].parentId.None? && rows[id].trigger <= height { assert id in Activated(rows, height); }
      }
    }

    method GetNextScheduledTransactions(parentId: nat) returns (txs: seq<IdRow>)
      ensures forall i | 0 <= i < |txs| ::
                txs[i].id in rows && rows[txs[i].id].parentId == Some(parentId) && txs[i].row == rows[txs[i].id]
      ensures forall id | id in rows && rows[id].parentId == Some(parentId) ::
                exists i :: 0 <= i < |txs| && txs[i].id == id
      ensures forall i, j | 0 <= i < j < |txs| :: txs[i].id != txs[j].id
    {
      var children := set id | id in rows && rows[id].parentId == Some(parentId);
      var ids := InSomeOrder(children);
      txs := WithRows(ids);
      forall i | 0 <= i < |txs|
        ensures txs[i].id in children
      {
        assert ids[i] in children;
      }
      forall id | id in rows && rows[id].parentId == Some(parentId)
        ensures exists i :: 0 <= i < |txs| && txs[i].id == id
      {
        assert id in children;
        assert id in ids;
        var i :| 0 <= i < |ids| && ids[i] == id;
        assert txs[i].id == id;
      }
    }

    function WithRows(ids: seq<nat>): (txs: seq<IdRow>)
      reads this
      requires forall id | id in ids :: id in rows
      ensures |txs| == |ids|
      ensures forall i | 0 <= i < |ids| :: txs[i] == IdRow(ids[i], rows[ids[i]])
    {
      seq(|ids|, i requires 0 <= i < |ids| reads this requires ids[i] in rows => IdRow(ids[i], rows[ids[i]]))
    }

    method UpdateTriggerScheduledTransaction(id: nat, trigger: int)
      modifies `rows
      ensures rows == if id in old(rows) then old(rows)[id := old(rows)[id].(trigger := trigger)] else old(rows)
    {
      if id in rows {
        rows := rows[id := rows[id].(trigger := trigger)];
      }
    }
  }
}
