/**
 The scheduled_transactions table: its rows form a forest through their parent id. This module gives the
 table operations, the effect of processing one due row, and the closed form of a whole block, for any
 triggers the rows may have.
 */
module ScheduledTable {
  import opened Wrappers

  type Txid = string

  /** One row. `parentTxid` survives the deletion of the parent row; `parentId` does not. */
  datatype Row = Row(txid: Txid, raw: string, parentId: Option<nat>, parentTxid: Option<Txid>,
                     delay: int, trigger: int)

  type Table = map<nat, Row>

  // ----- invariants of the table

  /** Foreign key on the parent, and a row is always inserted after its parent. */
  ghost predicate Forest(t: Table) {
    forall id {:trigger t[id].parentId} | id in t && t[id].parentId.Some? ::
      t[id].parentId.value in t && t[id].parentId.value < id
  }

  ghost predicate UniqueTxids(t: Table) {
    forall i, j {:trigger t[i].txid, t[j].txid} | i in t && j in t && t[i].txid == t[j].txid :: i == j
  }

  ghost predicate ValidTable(t: Table) {
    Forest(t) && UniqueTxids(t)
  }

  // ----- tree structure

  /** `id` is a proper descendant of `ancestor`. */
  ghost predicate Descends(t: Table, id: nat, ancestor: nat)
    requires Forest(t)
    decreases id
  {
    && id in t && t[id].parentId.Some?
    && (t[id].parentId.value == ancestor || Descends(t, t[id].parentId.value, ancestor))
  }

  ghost function RootOf(t: Table, id: nat): (r: nat)
    requires Forest(t) && id in t
    ensures r in t && t[r].parentId.None? && r <= id
    decreases id
  {
    if t[id].parentId.None? then id else RootOf(t, t[id].parentId.value)
  }

  // ----- what one processed row does to the table

  ghost function ShiftBelow(t: Table, ancestor: nat, shift: int): Table
    requires Forest(t)
  {
    map id | id in t :: if Descends(t, id, ancestor) then t[id].(trigger := t[id].trigger + shift) else t[id]
  }

  /** DELETE of one row; the foreign key sets the children's parent id to NULL. */
  function Delete(t: Table, id: nat): Table {
    map k | k in t && k != id :: if t[k].parentId == Some(id) then t[k].(parentId := None) else t[k]
  }

  /** A due row is pushed at `height`: a late row shifts its whole subtree... */
  ghost function Moved(t: Table, id: nat, height: int): Table
    requires Forest(t) && id in t
  {
    if t[id].trigger < height then ShiftBelow(t, id, height - t[id].trigger) else t
  }

  /** ...and then the row goes. */
  ghost function Process(t: Table, id: nat, height: int): Table
    requires Forest(t) && id in t
  {
    Delete(Moved(t, id, height), id)
  }

  function Activated(t: Table, height: int): set<nat> {
    set id | id in t && t[id].trigger <= height && t[id].parentId.None?
  }

  function HasParentTx(row: Row): bool {
    row.parentTxid.Some? && row.parentTxid.value != ""
  }

  /** The test the orchestrator makes before a push: no predecessor, or one confirmed often enough. */
  predicate Ready(row: Row, confirmations: Txid -> Option<int>) {
    !HasParentTx(row) ||
    (var c := confirmations(row.parentTxid.value); c.Some? && c.value >= row.delay)
  }

  // ----- closed form of a block

  /**
   `id` leaves the table during a block at `height`, stated without any loop: a root at or below the
   height, or a row triggered no later than its predecessor, which leaves too.
   */
  ghost predicate Due(t: Table, id: nat, height: int, confirmations: Txid -> Option<int>)
    requires Forest(t)
    decreases id
  {
    && id in t
    && Ready(t[id], confirmations)
    && if t[id].parentId.None? then t[id].trigger <= height
       else t[id].trigger <= t[t[id].parentId.value].trigger && Due(t, t[id].parentId.value, height, confirmations)
  }

  /** The lowest proper ancestor that leaves the table. */
  ghost function Leader(t: Table, id: nat, height: int, confirmations: Txid -> Option<int>): (a: Option<nat>)
    requires Forest(t) && id in t
    ensures a.Some? ==> a.value in t && Due(t, a.value, height, confirmations) && RootOf(t, a.value) == RootOf(t, id)
    decreases id
  {
    if t[id].parentId.None? then None
    else if Due(t, t[id].parentId.value, height, confirmations) then t[id].parentId
    else Leader(t, t[id].parentId.value, height, confirmations)
  }

  /** A row that stays keeps its distance to the lowest ancestor that leaves, which is processed at `height`. */
  ghost function SettledRow(t: Table, id: nat, height: int, confirmations: Txid -> Option<int>): Row
    requires Forest(t) && id in t
  {
    var row, leader := t[id], Leader(t, id, height, confirmations);
    row.(parentId := if row.parentId.Some? && Due(t, row.parentId.value, height, confirmations) then None
                     else row.parentId,
         trigger := if leader.Some? then row.trigger + height - t[leader.value].trigger else row.trigger)
  }

  /** The table after a block in which no push loses its connection. */
  ghost function Settled(t: Table, height: int, confirmations: Txid -> Option<int>): Table
    requires Forest(t)
  {
    map id | id in t && !Due(t, id, height, confirmations) :: SettledRow(t, id, height, confirmations)
  }

  // ----- tree lemmas

  lemma {:induction false} DescendantOfRoot(t: Table, id: nat, root: nat)
    requires Forest(t) && id in t && root in t && t[root].parentId.None?
    ensures Descends(t, id, root) <==> id != root && RootOf(t, id) == root
    decreases id
  {
    if t[id].parentId.Some? {
      DescendantOfRoot(t, t[id].parentId.value, root);
    }
  }

  lemma {:induction false} DescendantIsLater(t: Table, id: nat, ancestor: nat)
    requires Forest(t) && Descends(t, id, ancestor)
    ensures ancestor < id
    decreases id
  {
    if t[id].parentId.value != ancestor {
      DescendantIsLater(t, t[id].parentId.value, ancestor);
    }
  }

  /** Two ancestors of one row lie on one path. */
  lemma {:induction false} AncestorsAreComparable(t: Table, id: nat, a: nat, b: nat)
    requires Forest(t) && Descends(t, id, a) && Descends(t, id, b) && a < b
    ensures Descends(t, b, a)
    decreases id
  {
    var p := t[id].parentId.value;
    if p == b {
    } else if p == a {
      DescendantIsLater(t, p, b);
    } else {
      AncestorsAreComparable(t, p, a, b);
    }
  }

  /** Subtrees of two different children of one row share nothing. */
  lemma SiblingSubtreesDisjoint(t: Table, id: nat, parent: nat, a: nat, b: nat)
    requires Forest(t) && a in t && b in t && a != b
    requires t[a].parentId == Some(parent) && t[b].parentId == Some(parent)
    requires Descends(t, id, a) || id == a
    ensures !(Descends(t, id, b) || id == b)
  {
    if Descends(t, id, b) || id == b {
      var lo, hi := if a < b then a else b, if a < b then b else a;
      if Descends(t, id, a) && Descends(t, id, b) {
        AncestorsAreComparable(t, id, lo, hi);
      }
      assert Descends(t, a, b) || Descends(t, b, a);
      assert Descends(t, parent, a) || Descends(t, parent, b) || parent == a || parent == b;
      if Descends(t, parent, a) { DescendantIsLater(t, parent, a); }
      if Descends(t, parent, b) { DescendantIsLater(t, parent, b); }
      assert false;
    }
  }

  lemma {:induction false} DescendsViaChild(t: Table, id: nat, ancestor: nat) returns (child: nat)
    requires Forest(t) && Descends(t, id, ancestor)
    ensures child in t && t[child].parentId == Some(ancestor) && (id == child || Descends(t, id, child))
    decreases id
  {
    var p := t[id].parentId.value;
    if p == ancestor {
      child := id;
    } else {
      child := DescendsViaChild(t, p, ancestor);
    }
  }

  /** Descent only depends on the parent ids. */
  lemma {:induction false} DescendsFrame(t: Table, u: Table, id: nat, ancestor: nat)
    requires Forest(t) && Forest(u) && t.Keys == u.Keys
    requires forall k | k in t :: t[k].parentId == u[k].parentId
    ensures Descends(t, id, ancestor) <==> Descends(u, id, ancestor)
    decreases id
  {
    if id in t && t[id].parentId.Some? {
      DescendsFrame(t, u, t[id].parentId.value, ancestor);
    }
  }

  // ----- one processed row

  /** The row `k` after the root `id` is processed: a child of `id` is released, and the whole tree
      of a late root moves with it. */
  ghost function ProcessedRow(t: Table, id: nat, height: int, k: nat): Row
    requires Forest(t) && id in t && k in t
  {
    t[k].(parentId := if t[k].parentId == Some(id) then None else t[k].parentId,
          trigger := if RootOf(t, k) == id then t[k].trigger + height - t[id].trigger else t[k].trigger)
  }

  /** `p` is `t` without `id`, every other row as `ProcessedRow` says. */
  ghost predicate IsProcessed(t: Table, id: nat, height: int, p: Table)
    requires Forest(t) && id in t
  {
    && p.Keys == t.Keys - {id}
    && forall k {:trigger p[k]} | k in p :: p[k] == ProcessedRow(t, id, height, k)
  }

  lemma ProcessIsRowwise(t: Table, id: nat, height: int)
    requires Forest(t) && id in t && t[id].parentId.None? && t[id].trigger <= height
    ensures IsProcessed(t, id, height, Process(t, id, height))
  {
    forall k | k in t
      ensures Descends(t, k, id) <==> k != id && RootOf(t, k) == id
    {
      DescendantOfRoot(t, k, id);
    }
  }

  /** How much later than its predecessor a row is triggered. */
  ghost function Offset(t: Table, id: nat): int
    requires Forest(t) && id in t && t[id].parentId.Some?
  {
    t[id].trigger - t[t[id].parentId.value].trigger
  }

  lemma ReleasedChild(t: Table, id: nat, height: int, p: Table, k: nat)
    requires Forest(t) && id in t && t[id].parentId.None? && IsProcessed(t, id, height, p)
    requires k in t && t[k].parentId == Some(id)
    ensures k != id && p[k] == t[k].(parentId := None, trigger := height + Offset(t, k))
  {
    assert RootOf(t, k) == RootOf(t, id) == id;
  }

  lemma KeptOffset(t: Table, id: nat, height: int, p: Table, k: nat)
    requires Forest(t) && id in t && IsProcessed(t, id, height, p) && Forest(p) && k in p && p[k].parentId.Some?
    ensures t[k].parentId == p[k].parentId && Offset(p, k) == Offset(t, k)
  {
    var q := t[k].parentId.value;
    assert RootOf(t, k) == RootOf(t, q) && p[q] == ProcessedRow(t, id, height, q);
  }

  /**
   Processing a root keeps the table valid. Every child of the root becomes a root that is triggered its
   offset after the processing height, and every other row keeps its offset to its predecessor.
   */
  lemma ProcessKeepsValid(t: Table, id: nat, height: int)
    requires ValidTable(t) && id in t && t[id].parentId.None? && t[id].trigger <= height
    ensures var p := Process(t, id, height);
            && ValidTable(p) && IsProcessed(t, id, height, p)
            && (forall k | k in t && t[k].parentId == Some(id) ::
                  k != id && p[k] == t[k].(parentId := None, trigger := height + Offset(t, k)))
            && (forall k | k in p && p[k].parentId.Some? ::
                  t[k].parentId == p[k].parentId && Offset(p, k) == Offset(t, k))
  {
    ProcessIsRowwise(t, id, height);
    var p := Process(t, id, height);
    assert Forest(p);
    forall k | k in t && t[k].parentId == Some(id)
      ensures k != id && p[k] == t[k].(parentId := None, trigger := height + Offset(t, k))
    {
      ReleasedChild(t, id, height, p, k);
    }
    forall k | k in p && p[k].parentId.Some?
      ensures t[k].parentId == p[k].parentId && Offset(p, k) == Offset(t, k)
    {
      KeptOffset(t, id, height, p, k);
    }
  }

  /** Triggers do not matter for validity. */
  lemma SameShape(t: Table, m: Table)
    requires ValidTable(t) && m.Keys == t.Keys
    requires forall k {:trigger m[k]} | k in t :: m[k] == t[k].(trigger := m[k].trigger)
    ensures ValidTable(m)
  {
  }

  /** A shift moves the children of `id` and keeps every other distance. */
  lemma ShiftPointwise(t: Table, id: nat, shift: int, k: nat)
    requires Forest(t) && k in t
    ensures var m := ShiftBelow(t, id, shift);
            match t[k].parentId
            case None => m[k] == t[k]
            case Some(p) =>
              && m[k] == t[k].(trigger := m[k].trigger)
              && (p == id ==> m[k].trigger == t[k].trigger + shift)
              && (p != id ==> m[k].trigger - m[p].trigger == t[k].trigger - t[p].trigger)
  {
  }

  lemma MovedOffset(t: Table, id: nat, height: int, m: Table, k: nat)
    requires Forest(t) && id in t && t[id].parentId.None? && m == Moved(t, id, height) && t[id].trigger <= height
    requires m.Keys == t.Keys && k in t
    ensures if t[k].parentId.None? then m[k] == t[k]
            else m[k] == t[k].(trigger := Offset(t, k) + MovedBase(t, m, id, height, k))
  {
    DescendantOfRoot(t, k, id);
    if t[k].parentId.Some? {
      DescendantOfRoot(t, t[k].parentId.value, id);
    }
  }

  /** Moving keeps the table valid and every row's offset, except that children of `id` now count from `height`. */
  lemma MovedKeepsValid(t: Table, id: nat, height: int)
    requires ValidTable(t) && id in t && t[id].parentId.None? && t[id].trigger <= height
    ensures var m := Moved(t, id, height);
            && ValidTable(m) && m.Keys == t.Keys
            && (forall k {:trigger m[k]} | k in t ::
                  if t[k].parentId.None? then m[k] == t[k]
                  else m[k] == t[k].(trigger := Offset(t, k) + MovedBase(t, m, id, height, k)))
  {
    var m := Moved(t, id, height);
    forall k | k in t
      ensures if t[k].parentId.None? then m[k] == t[k]
              else m[k] == t[k].(trigger := Offset(t, k) + MovedBase(t, m, id, height, k))
    {
      MovedOffset(t, id, height, m, k);
    }
    SameShape(t, m);
  }

  /** What row `k` counts from in the moved table `m`. */
  ghost function MovedBase(t: Table, m: Table, id: nat, height: int, k: nat): int
    requires Forest(t) && m.Keys == t.Keys && k in t && t[k].parentId.Some?
  {
    if t[k].parentId == Some(id) then height else m[t[k].parentId.value].trigger
  }

  lemma {:induction false} ProcessKeepsDue(t: Table, id: nat, height: int, conf: Txid -> Option<int>, p: Table, k: nat)
    requires ValidTable(t) && Due(t, id, height, conf) && t[id].parentId.None?
    requires IsProcessed(t, id, height, p) && ValidTable(p) && k in p
    ensures Due(p, k, height, conf) <==> Due(t, k, height, conf)
    decreases k
  {
    assert p[k] == ProcessedRow(t, id, height, k);
    if t[k].parentId.None? {
      assert RootOf(t, k) == k != id;
    } else if t[k].parentId.value == id {
      assert RootOf(t, k) == RootOf(t, id) == id;
    } else {
      KeptOffset(t, id, height, p, k);
      ProcessKeepsDue(t, id, height, conf, p, t[k].parentId.value);
    }
  }

  /** Below a processed root, only rows it led itself lose their leader. */
  lemma {:induction false} ProcessKeepsLeader(t: Table, id: nat, height: int, conf: Txid -> Option<int>,
                                              p: Table, k: nat)
    requires ValidTable(t) && Due(t, id, height, conf) && t[id].parentId.None?
    requires IsProcessed(t, id, height, p) && ValidTable(p) && k in p
    ensures Leader(p, k, height, conf) ==
            if Leader(t, k, height, conf) == Some(id) then None else Leader(t, k, height, conf)
    decreases k
  {
    assert p[k] == ProcessedRow(t, id, height, k);
    if t[k].parentId.Some? && t[k].parentId.value != id {
      ProcessKeepsDue(t, id, height, conf, p, t[k].parentId.value);
      ProcessKeepsLeader(t, id, height, conf, p, t[k].parentId.value);
    }
  }

  lemma SettledRowInvariant(t: Table, id: nat, height: int, conf: Txid -> Option<int>, p: Table, k: nat)
    requires ValidTable(t) && Due(t, id, height, conf) && t[id].parentId.None?
    requires IsProcessed(t, id, height, p) && ValidTable(p) && k in p
    ensures SettledRow(p, k, height, conf) == SettledRow(t, k, height, conf)
  {
    assert p[k] == ProcessedRow(t, id, height, k);
    ProcessKeepsLeader(t, id, height, conf, p, k);
    LedFromRoot(t, k, height, conf, id);
    var leader := Leader(p, k, height, conf);
    if leader.Some? {
      assert p[leader.value] == ProcessedRow(t, id, height, leader.value);
    }
    if t[k].parentId.Some? && t[k].parentId.value != id {
      ProcessKeepsDue(t, id, height, conf, p, t[k].parentId.value);
    }
  }

  /** Below a root that leaves, every row has a leader. */
  lemma {:induction false} LedFromRoot(t: Table, k: nat, height: int, conf: Txid -> Option<int>, root: nat)
    requires Forest(t) && k in t && root in t && t[root].parentId.None? && Due(t, root, height, conf)
    ensures RootOf(t, k) == root && k != root ==> Leader(t, k, height, conf).Some?
    decreases k
  {
    if t[k].parentId.Some? {
      LedFromRoot(t, t[k].parentId.value, height, conf, root);
    }
  }

  /** The closed form is unchanged by processing any due root, so the order of the roots is irrelevant. */
  lemma SettledInvariant(t: Table, id: nat, height: int, conf: Txid -> Option<int>)
    requires ValidTable(t) && id in t && t[id].parentId.None?
    requires t[id].trigger <= height && Ready(t[id], conf)
    ensures ValidTable(Process(t, id, height))
    ensures Settled(Process(t, id, height), height, conf) == Settled(t, height, conf)
  {
    ProcessKeepsValid(t, id, height);
    var p := Process(t, id, height);
    forall k | k in p
      ensures Due(p, k, height, conf) <==> Due(t, k, height, conf)
      ensures SettledRow(p, k, height, conf) == SettledRow(t, k, height, conf)
    {
      ProcessKeepsDue(t, id, height, conf, p, k);
      SettledRowInvariant(t, id, height, conf, p, k);
    }
    SettledAgree(t, p, id, height, conf);
  }

  lemma SettledAgree(t: Table, p: Table, id: nat, height: int, conf: Txid -> Option<int>)
    requires Forest(t) && Forest(p) && p.Keys == t.Keys - {id} && Due(t, id, height, conf)
    requires forall k | k in p :: Due(p, k, height, conf) <==> Due(t, k, height, conf)
    requires forall k | k in p && !Due(p, k, height, conf) ::
               SettledRow(p, k, height, conf) == SettledRow(t, k, height, conf)
    ensures Settled(p, height, conf) == Settled(t, height, conf)
  {
  }

  /** When no activated root is ready, the block is over: nothing is due and the closed form is the table. */
  lemma QuiescentIsSettled(t: Table, height: int, conf: Txid -> Option<int>)
    requires ValidTable(t)
    requires forall id | id in Activated(t, height) :: !Ready(t[id], conf)
    ensures Settled(t, height, conf) == t
  {
    forall id | id in t
      ensures !Due(t, id, height, conf) && SettledRow(t, id, height, conf) == t[id]
    {
      NothingDue(t, id, height, conf);
      var leader := Leader(t, id, height, conf);
      if leader.Some? { NothingDue(t, leader.value, height, conf); }
      if t[id].parentId.Some? { NothingDue(t, t[id].parentId.value, height, conf); }
    }
  }

  /** What the closed form says of each row, in terms of the table before and the rows that left. */
  lemma SettledPointwise(t: Table, height: int, conf: Txid -> Option<int>, id: nat)
    requires ValidTable(t) && id in Settled(t, height, conf)
    ensures var s := Settled(t, height, conf);
            && id in t && s[id] == t[id].(parentId := s[id].parentId, trigger := s[id].trigger)
            && match t[id].parentId
               case None => s[id] == t[id]
               case Some(p) =>
                 if p in s
                 then s[id].parentId == Some(p) && s[id].trigger - s[p].trigger == t[id].trigger - t[p].trigger
                 else s[id].parentId == None && s[id].trigger == height + t[id].trigger - t[p].trigger
  {
    if t[id].parentId.Some? {
      assert Leader(t, id, height, conf).Some? || !Due(t, t[id].parentId.value, height, conf);
    }
  }

  lemma {:induction false} NothingDue(t: Table, id: nat, height: int, conf: Txid -> Option<int>)
    requires Forest(t)
    requires forall id | id in Activated(t, height) :: !Ready(t[id], conf)
    ensures !Due(t, id, height, conf)
    decreases id
  {
    if id in t && t[id].parentId.Some? {
      NothingDue(t, t[id].parentId.value, height, conf);
    }
  }

  /** After a block every root that is old enough still waits for the confirmations of its predecessor. */
  lemma SettledRootsWait(t: Table, height: int, conf: Txid -> Option<int>, id: nat)
    requires ValidTable(t) && id in Activated(Settled(t, height, conf), height)
    ensures !Ready(t[id], conf) && !Ready(Settled(t, height, conf)[id], conf)
  {
  }
}
