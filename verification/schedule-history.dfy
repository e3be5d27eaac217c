/**
 Every run of the scheduler and the orchestrator, as the sequence of its visible events: rows stored,
 pushes attempted, at block heights that may rise or fall, and pushed rows removed. The two programs share
 the table without a lock, so a row may be stored between any two steps of the orchestrator, even between
 the shift of a pushed row's subtree and the removal of that row. The delay guarantees are proved here.
 */
module ScheduleHistory {
  import opened Wrappers
  import opened ScheduledTable

  /**
   An attempt pushes a row and, if that was late, shifts what is below it. `processed` is false when the
   push lost its connection, which leaves the table as it is; otherwise the row is removed next.
   */
  datatype Event =
    | Stored(row: Row)
    | Attempted(id: nat, height: int, processed: bool)
    | Removed(id: nat)

  /**
   The table, what each row looked like when it was stored, how much later than its predecessor it was
   triggered then, the height each processed id was processed at, and the row being processed.
   */
  datatype History = History(rows: Table, nextId: nat, original: map<nat, Row>, offset: map<nat, int>,
                             processedAt: map<nat, int>, pending: Option<(nat, int)>)

  const EMPTY := History(map[], 1, map[], map[], map[], None)

  /** What the table enforces: the txid is new, and a parent exists. */
  predicate Storable(rows: Table, row: Row) {
    && (forall k | k in rows :: rows[k].txid != row.txid)
    && (row.parentId.Some? ==> row.parentId.value in rows)
  }

  /** What the trigger of a row below `id` counts from: the trigger of `id`, or the height it is being processed at. */
  function Base(h: History, id: nat): int
    requires id in h.rows
  {
    if h.pending.Some? && h.pending.value.0 == id then h.pending.value.1 else h.rows[id].trigger
  }

  /** How much later than its predecessor a row to be stored is triggered; zero for a first row. */
  function OffsetIn(h: History, row: Row): int {
    if row.parentId.Some? && row.parentId.value in h.rows then row.trigger - Base(h, row.parentId.value) else 0
  }

  /** The row is triggered its delay after its predecessor's trigger, or the height that is being processed at. */
  predicate ParentTriggers(h: History, row: Row) {
    row.parentId.Some? ==> row.parentId.value in h.rows && row.trigger == Base(h, row.parentId.value) + row.delay
  }

  predicate Enabled(h: History, e: Event) {
    match e
    case Stored(row) => Storable(h.rows, row)
    case Attempted(id, height, _) => h.pending.None? && id in Activated(h.rows, height)
    case Removed(id) => h.pending.Some? && id == h.pending.value.0
  }

  function AfterStore(h: History, row: Row): History {
    h.(rows := h.rows[h.nextId := row], nextId := h.nextId + 1, original := h.original[h.nextId := row],
       offset := h.offset[h.nextId := OffsetIn(h, row)])
  }

  /** What an attempt that is not cut off by its connection does. */
  ghost function AfterAttempt(h: History, id: nat, height: int): History
    requires Forest(h.rows) && id in h.rows
  {
    h.(rows := Moved(h.rows, id, height), pending := Some((id, height)))
  }

  function AfterRemoval(h: History, id: nat): History
    requires h.pending.Some?
  {
    h.(rows := Delete(h.rows, id), processedAt := h.processedAt[id := h.pending.value.1], pending := None)
  }

  /** One event takes the history from `h` to `n`. */
  ghost predicate Step(h: History, e: Event, n: History) {
    && Enabled(h, e)
    && match e
       case Stored(row) => n == AfterStore(h, row)
       case Attempted(id, height, processed) =>
         if processed then Forest(h.rows) && n == AfterAttempt(h, id, height) else n == h
       case Removed(id) => n == AfterRemoval(h, id)
  }

  /**
   Where a stored row stands: a first row untouched, waiting at its offset below its predecessor, or
   released at that offset after the height its predecessor was processed at.
   */
  ghost predicate RowInv(h: History, id: nat)
    requires id in h.rows && id in h.original && id in h.offset
  {
    var was, now := h.original[id], h.rows[id];
    && now == was.(parentId := now.parentId, trigger := now.trigger)
    && match was.parentId
       case None => now == was
       case Some(p) =>
         if now.parentId.Some? then
           now.parentId == Some(p) && p in h.rows && now.trigger == Base(h, p) + h.offset[id]
         else p in h.processedAt && now.trigger == h.processedAt[p] + h.offset[id]
  }

  ghost predicate Inv(h: History) {
    && ValidTable(h.rows)
    && h.original.Keys == h.offset.Keys == h.rows.Keys + h.processedAt.Keys
    && h.rows.Keys !! h.processedAt.Keys
    && (forall id | id in h.original :: id < h.nextId)
    && (h.pending.Some? ==> h.pending.value.0 in h.rows && h.rows[h.pending.value.0].parentId.None?)
    && (forall id {:trigger RowInv(h, id)} | id in h.rows :: RowInv(h, id))
  }

  lemma StoreKeepsTable(t: Table, id: nat, row: Row)
    requires ValidTable(t) && (forall k | k in t :: k < id) && Storable(t, row)
    ensures ValidTable(t[id := row])
  {
  }

  /** What an insert leaves of a row. */
  lemma StoreKeepsRow(h: History, n: History, id: nat)
    requires id in h.rows && id in h.original && id in h.offset && RowInv(h, id)
    requires id in n.rows && id in n.original && id in n.offset
    requires n.rows[id] == h.rows[id] && n.original[id] == h.original[id] && n.offset[id] == h.offset[id]
    requires n.processedAt == h.processedAt && n.pending == h.pending
    requires forall k | k in h.rows :: k in n.rows && n.rows[k] == h.rows[k]
    ensures RowInv(n, id)
  {
  }

  lemma StoredRowInv(h: History, row: Row)
    requires Storable(h.rows, row) && h.nextId !in h.rows
    requires row.parentId.Some? ==> row.parentId.value != h.nextId
    requires h.pending.Some? ==> h.pending.value.0 != h.nextId
    ensures RowInv(AfterStore(h, row), h.nextId)
  {
  }

  lemma StoreKeepsInv(h: History, row: Row, n: History)
    requires Inv(h) && Step(h, Stored(row), n)
    ensures Inv(n)
  {
    StoreKeepsTable(h.rows, h.nextId, row);
    StoreKeepsKeys(h, row, n);
    StoreKeepsRows(h, row, n);
  }

  lemma StoreKeepsRows(h: History, row: Row, n: History)
    requires Storable(h.rows, row) && n == AfterStore(h, row)
    requires h.rows.Keys <= h.original.Keys && h.original.Keys == h.offset.Keys
    requires forall id | id in h.original :: id < h.nextId
    requires h.pending.Some? ==> h.pending.value.0 in h.rows
    requires forall id {:trigger RowInv(h, id)} | id in h.rows :: RowInv(h, id)
    ensures forall id {:trigger RowInv(n, id)} | id in n.rows :: RowInv(n, id)
  {
    StoredRowInv(h, row);
    forall id | id in n.rows
      ensures RowInv(n, id)
    {
      if id in h.rows {
        assert RowInv(h, id);
        StoreKeepsRow(h, n, id);
      }
    }
  }

  lemma StoreKeepsKeys(h: History, row: Row, n: History)
    requires Inv(h) && n == AfterStore(h, row)
    ensures n.original.Keys == n.offset.Keys == n.rows.Keys + n.processedAt.Keys
    ensures n.rows.Keys !! n.processedAt.Keys
    ensures forall id | id in n.original :: id < n.nextId
  {
  }

  lemma AttemptKeepsRowInv(h: History, id: nat, height: int, n: History, k: nat)
    requires ValidTable(h.rows) && k in h.rows && k in h.original && k in h.offset && RowInv(h, k)
    requires h.pending.None? && id in h.rows && n.rows.Keys == h.rows.Keys && n.pending == Some((id, height))
    requires n.original == h.original && n.offset == h.offset && n.processedAt == h.processedAt
    requires if h.rows[k].parentId.None? then n.rows[k] == h.rows[k]
             else n.rows[k] ==
                  h.rows[k].(trigger := Offset(h.rows, k) + MovedBase(h.rows, n.rows, id, height, k))
    ensures RowInv(n, k)
  {
  }

  lemma AttemptKeepsInv(h: History, id: nat, height: int, n: History)
    requires Inv(h) && Step(h, Attempted(id, height, true), n)
    ensures Inv(n)
  {
    MovedKeepsValid(h.rows, id, height);
    forall k | k in n.rows
      ensures RowInv(n, k)
    {
      assert RowInv(h, k);
      AttemptKeepsRowInv(h, id, height, n, k);
    }
  }

  lemma DeleteKeepsTable(t: Table, id: nat)
    requires ValidTable(t) && id in t && t[id].parentId.None?
    ensures ValidTable(Delete(t, id))
  {
  }

  lemma RemovalKeepsInv(h: History, id: nat, n: History)
    requires Inv(h) && Step(h, Removed(id), n)
    ensures Inv(n)
  {
    DeleteKeepsTable(h.rows, id);
    forall k | k in n.rows
      ensures RowInv(n, k)
    {
      assert RowInv(h, k);
    }
  }

  lemma StepKeepsInv(h: History, e: Event, n: History)
    requires Inv(h) && Step(h, e, n)
    ensures Inv(n)
  {
    match e
    case Stored(row) => StoreKeepsInv(h, row, n);
    case Attempted(id, height, processed) =>
      if processed { AttemptKeepsInv(h, id, height, n); }
    case Removed(id) => RemovalKeepsInv(h, id, n);
  }

  // ----- runs

  ghost predicate StepAt(states: seq<History>, run: seq<Event>, i: nat)
    requires i < |run| && |states| == |run| + 1
  {
    Step(states[i], run[i], states[i + 1])
  }

  /** `states` are the histories a run goes through, one before each event and one at the end. */
  ghost predicate IsRun(states: seq<History>, run: seq<Event>) {
    && |states| == |run| + 1
    && states[0] == EMPTY
    && forall i | 0 <= i < |run| :: StepAt(states, run, i)
  }

  lemma ExtendRun(states: seq<History>, run: seq<Event>, e: Event, n: History)
    requires IsRun(states, run) && Step(states[|run|], e, n)
    ensures IsRun(states + [n], run + [e])
  {
    forall i | 0 <= i < |run| + 1
      ensures StepAt(states + [n], run + [e], i)
    {
      assert i < |run| ==> StepAt(states, run, i);
    }
  }

  /** A run decides its states. */
  lemma {:induction false} StatesDecided(states: seq<History>, run: seq<Event>, more: seq<History>, longer: seq<Event>,
                                         i: nat)
    requires IsRun(states, run) && IsRun(more, longer) && run <= longer && i <= |run|
    ensures states[i] == more[i]
  {
    if i > 0 {
      StatesDecided(states, run, more, longer, i - 1);
      assert StepAt(states, run, i - 1) && StepAt(more, longer, i - 1);
    }
  }

  lemma StepAtKeepsInv(states: seq<History>, run: seq<Event>, i: nat)
    requires IsRun(states, run) && i < |run| && Inv(states[i])
    ensures Inv(states[i + 1])
  {
    assert StepAt(states, run, i);
    StepKeepsInv(states[i], run[i], states[i + 1]);
  }

  lemma {:induction false} RunInv(states: seq<History>, run: seq<Event>, i: nat)
    requires IsRun(states, run) && i <= |run|
    ensures Inv(states[i])
  {
    if i == 0 {
      assert Inv(EMPTY);
    } else {
      RunInv(states, run, i - 1);
      StepAtKeepsInv(states, run, i - 1);
    }
  }

  lemma {:induction false} PendingByEvent(states: seq<History>, run: seq<Event>, j: nat) returns (i: nat)
    requires IsRun(states, run) && j <= |run| && states[j].pending.Some?
    ensures i < j && run[i] == Attempted(states[j].pending.value.0, states[j].pending.value.1, true)
  {
    assert StepAt(states, run, j - 1);
    if run[j - 1].Attempted? {
      i := j - 1;
    } else {
      i := PendingByEvent(states, run, j - 1);
    }
  }

  lemma {:induction false} ProcessedByEvent(states: seq<History>, run: seq<Event>, j: nat, id: nat) returns (i: nat)
    requires IsRun(states, run) && j <= |run| && id in states[j].processedAt
    ensures i < j && run[i] == Attempted(id, states[j].processedAt[id], true)
  {
    assert StepAt(states, run, j - 1);
    if run[j - 1] == Removed(id) {
      i := PendingByEvent(states, run, j - 1);
    } else {
      i := ProcessedByEvent(states, run, j - 1, id);
    }
  }

  /** Event `k` stores the row `was` under `id`. */
  ghost predicate StoresAs(states: seq<History>, run: seq<Event>, k: nat, id: nat, was: Row) {
    k < |run| < |states| && run[k] == Stored(was) && states[k].nextId == id && Storable(states[k].rows, was)
  }

  lemma {:induction false} StoredByEvent(states: seq<History>, run: seq<Event>, j: nat, id: nat) returns (k: nat)
    requires IsRun(states, run) && j <= |run| && id in states[j].original
    ensures k < j && StoresAs(states, run, k, id, states[j].original[id])
    ensures id in states[j].offset && states[j].offset[id] == OffsetIn(states[k], states[j].original[id])
  {
    assert StepAt(states, run, j - 1);
    if run[j - 1].Stored? && states[j - 1].nextId == id {
      k := j - 1;
    } else {
      k := StoredByEvent(states, run, j - 1, id);
    }
  }

  lemma {:induction false} ProcessedStaysProcessed(states: seq<History>, run: seq<Event>, i: nat, j: nat)
    requires IsRun(states, run) && i < j <= |run| && run[i].Attempted? && run[i].processed
    ensures run[i].id in states[j].processedAt ||
            (states[j].pending.Some? && states[j].pending.value.0 == run[i].id)
  {
    assert StepAt(states, run, j - 1);
    if i < j - 1 {
      ProcessedStaysProcessed(states, run, i, j - 1);
    }
  }

  /** A processed row is never attempted again. */
  lemma ProcessedOnce(states: seq<History>, run: seq<Event>, i: nat, j: nat)
    requires IsRun(states, run) && i < j < |run| && run[i].Attempted? && run[i].processed
    ensures run[j].Attempted? ==> run[j].id != run[i].id
  {
    RunInv(states, run, j);
    ProcessedStaysProcessed(states, run, i, j);
    assert StepAt(states, run, j);
  }

  // ----- delay safety

  /**
   What is known of an attempt on a row stored below a predecessor: event `k` stored it, event `i`
   processed its predecessor, at height `at`, and the row is triggered as long after `at` as it was
   triggered after its predecessor when it was stored.
   */
  ghost predicate Released(states: seq<History>, run: seq<Event>, j: nat, was: Row, k: nat, i: nat, at: int)
    requires j < |run| < |states| && run[j].Attempted? && was.parentId.Some?
  {
    && k < j && StoresAs(states, run, k, run[j].id, was)
    && i < j && run[i] == Attempted(was.parentId.value, at, true)
    && run[j].id in states[j].rows
    && states[j].rows[run[j].id].trigger == at + OffsetIn(states[k], was) <= run[j].height
  }

  /**
   Delay safety over every run, whatever comes between two events. A first row is never attempted below
   the trigger it was stored with. A row below a predecessor is only ever attempted after the predecessor
   was processed, at some height `at`, and then never below `at` plus the offset it was stored with. This
   trigger is exactly `at` plus the row's delay if and only if the row was triggered its delay after its
   predecessor when it was stored.
   */
  lemma DelaySafety(states: seq<History>, run: seq<Event>, j: nat) returns (was: Row, k: nat, i: nat, at: int)
    requires IsRun(states, run) && j < |run| && run[j].Attempted?
    ensures run[j].id in states[j].original && was == states[j].original[run[j].id]
    ensures was.parentId.None? ==> was.trigger <= run[j].height
    ensures was.parentId.Some? ==>
              && Released(states, run, j, was, k, i, at)
              && (states[j].rows[run[j].id].trigger == at + was.delay <==> ParentTriggers(states[k], was))
  {
    var h, id := states[j], run[j].id;
    RunInv(states, run, j);
    assert StepAt(states, run, j);
    assert RowInv(h, id);
    was := h.original[id];
    k, i, at := 0, 0, 0;
    if was.parentId.Some? {
      k := StoredByEvent(states, run, j, id);
      i := ProcessedByEvent(states, run, j, was.parentId.value);
      at := h.processedAt[was.parentId.value];
    }
  }

  /** When every row is stored its delay after its predecessor, no row is ever attempted ahead of its delay. */
  lemma DelaysAreKept(states: seq<History>, run: seq<Event>, j: nat) returns (was: Row, i: nat, at: int)
    requires IsRun(states, run) && j < |run| && run[j].Attempted?
    requires forall k | 0 <= k < |run| && run[k].Stored? :: ParentTriggers(states[k], run[k].row)
    ensures run[j].id in states[j].original && was == states[j].original[run[j].id]
    ensures was.parentId.Some? ==>
              && i < j && run[i] == Attempted(was.parentId.value, at, true) && run[j].id in states[j].rows
              && at + was.delay == states[j].rows[run[j].id].trigger <= run[j].height
  {
    var k;
    was, k, i, at := DelaySafety(states, run, j);
  }

  /**
   When a delay can be cut short: an attempt on a released row ahead of its delay is possible exactly if
   the row was stored with a trigger less than its delay after its predecessor's.
   */
  lemma EarlyAttemptIff(states: seq<History>, run: seq<Event>, j: nat, id: nat) returns (was: Row, k: nat, at: int)
    requires IsRun(states, run) && j <= |run| && id in states[j].rows && states[j].rows[id].parentId.None?
    requires states[j].pending.None?
    ensures id in states[j].original && was == states[j].original[id]
    ensures was.parentId.Some? ==>
              && k < j && StoresAs(states, run, k, id, was)
              && was.parentId.value in states[j].processedAt && at == states[j].processedAt[was.parentId.value]
              && ((exists height | height < at + was.delay :: Enabled(states[j], Attempted(id, height, true)))
                  <==> was.trigger < Base(states[k], was.parentId.value) + was.delay)
  {
    var h := states[j];
    RunInv(states, run, j);
    assert RowInv(h, id);
    was := h.original[id];
    k, at := 0, 0;
    if was.parentId.Some? {
      k := StoredByEvent(states, run, j, id);
      at := h.processedAt[was.parentId.value];
      if h.offset[id] < was.delay {
        assert Enabled(h, Attempted(id, at + h.offset[id], true));
      }
    }
  }

  // ----- a block between two rows of one script

  const FIRST := Row("a", "raw a", None, None, 0, 101)
  const SECOND := Row("b", "raw b", Some(1), Some("a"), 5, 106)
  const THIRD := Row("c", "raw c", Some(2), Some("b"), 5, 111)

  const LATE_BLOCK_RUN := [Stored(FIRST), Stored(SECOND), Attempted(1, 103, true), Removed(1), Stored(THIRD),
                           Attempted(2, 108, true), Removed(2), Attempted(3, 111, true)]

  /**
   The condition is needed. The first row is pushed late, at 103, which moves the second from 106 to 108
   before the third is stored with its planned trigger 111. The second is pushed at 108 and the third,
   with delay 5, at 111.
   */
  lemma LateBlockCutsDelay() returns (states: seq<History>)
    ensures IsRun(states, LATE_BLOCK_RUN)
    ensures LATE_BLOCK_RUN[5] == Attempted(THIRD.parentId.value, 108, true)
    ensures 3 in states[7].original && states[7].original[3] == THIRD
    ensures LATE_BLOCK_RUN[7].height < 108 + THIRD.delay
  {
    states := UpToLateBlock();
    var s5 := AfterStore(states[4], THIRD);
    states := Continue(states, LATE_BLOCK_RUN, 4, s5);
    states := Continue(states, LATE_BLOCK_RUN, 5, AfterAttempt(s5, 2, 108));
    var s7 := AfterRemoval(states[6], 2);
    assert s7.rows == map[3 := THIRD.(parentId := None)];
    states := Continue(states, LATE_BLOCK_RUN, 6, s7);
    states := Continue(states, LATE_BLOCK_RUN, 7, AfterAttempt(s7, 3, 111));
    assert LATE_BLOCK_RUN[..8] == LATE_BLOCK_RUN;
  }

  lemma Continue(states: seq<History>, run: seq<Event>, n: nat, next: History) returns (more: seq<History>)
    requires n < |run| && IsRun(states, run[..n]) && Step(states[n], run[n], next)
    ensures more == states + [next] && IsRun(more, run[..n + 1])
  {
    ExtendRun(states, run[..n], run[n], next);
    assert run[..n + 1] == run[..n] + [run[n]];
    more := states + [next];
  }

  lemma UpToLateBlock() returns (states: seq<History>)
    ensures IsRun(states, LATE_BLOCK_RUN[..4])
    ensures states[4].rows == map[2 := SECOND.(parentId := None, trigger := 108)]
    ensures states[4].nextId == 3 && states[4].pending.None?
  {
    LateFirst();
    var s1 := AfterStore(EMPTY, FIRST);
    var s2 := AfterStore(s1, SECOND);
    assert s2.rows == map[1 := FIRST, 2 := SECOND];
    var s3 := AfterAttempt(s2, 1, 103);
    var s4 := AfterRemoval(s3, 1);
    states := [EMPTY, s1, s2, s3, s4];
    forall i | 0 <= i < 4
      ensures StepAt(states, LATE_BLOCK_RUN[..4], i)
    {
    }
  }

  lemma LateFirst()
    ensures var two := map[1 := FIRST, 2 := SECOND];
            Forest(two) && Moved(two, 1, 103) == map[1 := FIRST, 2 := SECOND.(trigger := 108)]
  {
    var two := map[1 := FIRST, 2 := SECOND];
    assert Descends(two, 2, 1) && !Descends(two, 1, 1);
  }
}
