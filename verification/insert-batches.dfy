/**
 Bulk inserts. Rows are cut greedily into chunks that respect the parameter and byte budgets, the chunks
 run inside one transaction with retries on lock errors, and the aggregate result is the one a single
 statement over all rows would have given.
 */
module InsertBatches {
  import opened Wrappers
  import opened Util
  import opened Batching

  type Key = string
  type Value = int

  /** A row to insert: its unique key, the column an upsert updates, and the warnings it raises. */
  datatype Row = Row(key: Key, value: Value, warnings: nat)

  datatype Cell = Cell(id: nat, value: Value)

  type Table = map<Key, Cell>

  /** INSERT IGNORE skips a duplicate key with a warning; an upsert overwrites the update column. */
  datatype Kind = Ignore | Upsert

  datatype Tally = Tally(inserted: nat, updated: nat, same: nat, warnings: nat, firstId: nat)

  const NOTHING := Tally(0, 0, 0, 0, 0)

  datatype Progress = Progress(table: Table, nextId: nat, tally: Tally)

  // ----- what rows do, one after the other

  function InsertRow(kind: Kind, p: Progress, r: Row): Progress {
    var t := p.tally.(warnings := p.tally.warnings + r.warnings);
    if r.key !in p.table then
      Progress(p.table[r.key := Cell(p.nextId, r.value)], p.nextId + 1,
               t.(inserted := t.inserted + 1, firstId := if t.firstId == 0 then p.nextId else t.firstId))
    else if kind == Ignore then
      p.(tally := t.(warnings := t.warnings + 1))
    else if p.table[r.key].value == r.value then
      p.(tally := t.(same := t.same + 1))
    else
      p.(table := p.table[r.key := p.table[r.key].(value := r.value)], tally := t.(updated := t.updated + 1))
  }

  function InsertRows(kind: Kind, p: Progress, rows: seq<Row>): Progress
    decreases |rows|
  {
    if rows == [] then p else InsertRow(kind, InsertRows(kind, p, rows[..|rows| - 1]), rows[|rows| - 1])
  }

  lemma {:induction false} InsertAppend(kind: Kind, p: Progress, a: seq<Row>, b: seq<Row>)
    ensures InsertRows(kind, p, a + b) == InsertRows(kind, InsertRows(kind, p, a), b)
    decreases |b|
  {
    if b == [] {
      assert a + b == a;
    } else {
      InsertAppend(kind, p, a, b[..|b| - 1]);
      assert (a + b)[..|a + b| - 1] == a + b[..|b| - 1];
    }
  }

  function Combine(s: Tally, t: Tally): Tally {
    Tally(s.inserted + t.inserted, s.updated + t.updated, s.same + t.same, s.warnings + t.warnings,
          if s.firstId == 0 then t.firstId else s.firstId)
  }

  /** Counting from zero per statement and adding up is counting all along. */
  lemma {:induction false} TallyAdds(kind: Kind, p: Progress, rows: seq<Row>)
    requires p.nextId > 0
    ensures var part, whole := InsertRows(kind, p.(tally := NOTHING), rows), InsertRows(kind, p, rows);
            && whole.table == part.table && whole.nextId == part.nextId > 0
            && whole.tally == Combine(p.tally, part.tally)
    decreases |rows|
  {
    if rows != [] { TallyAdds(kind, p, rows[..|rows| - 1]); }
  }

  lemma {:induction false} TallyShape(kind: Kind, table: Table, nextId: nat, rows: seq<Row>)
    requires nextId > 0
    ensures var p := InsertRows(kind, Progress(table, nextId, NOTHING), rows);
            && (p.tally.inserted == 0 <==> p.tally.firstId == 0)
            && (p.tally.firstId != 0 ==> p.tally.firstId == nextId)
            && p.nextId == nextId + p.tally.inserted
            && (kind == Upsert ==> p.tally.inserted + p.tally.updated + p.tally.same == |rows|)
            && (kind == Ignore ==> p.tally.updated == 0 && p.tally.same == 0)
            && (forall k | k in table :: k in p.table && p.table[k].id == table[k].id)
            && (forall i | 0 <= i < |rows| :: rows[i].key in p.table)
    decreases |rows|
  {
    if rows != [] { TallyShape(kind, table, nextId, rows[..|rows| - 1]); }
  }

  ghost predicate HasKey(rows: seq<Row>, k: Key) {
    exists r | r in rows :: r.key == k
  }

  /** Row `i` is the first one with its key, or the last one. */
  ghost predicate FirstOfKey(rows: seq<Row>, i: nat) {
    i < |rows| && forall j | 0 <= j < i :: rows[j].key != rows[i].key
  }

  ghost predicate LastOfKey(rows: seq<Row>, i: nat) {
    i < |rows| && forall j | i < j < |rows| :: rows[j].key != rows[i].key
  }

  /**
   What rows do to a table, spelt out: their keys are added and ids stay. An ignoring insert keeps the values of
   existing keys and takes that of a new key from its first row; an upsert takes the value from the last row of a key.
   */
  ghost predicate RowsApplied(kind: Kind, before: Table, rows: seq<Row>, after: Table) {
    && (forall k {:trigger k in after} :: k in after <==> k in before || HasKey(rows, k))
    && (forall k | k in before :: after[k].id == before[k].id)
    && (forall k | k in before && (kind == Ignore || !HasKey(rows, k)) :: after[k].value == before[k].value)
    && (kind == Ignore ==>
          forall i: nat | FirstOfKey(rows, i) && rows[i].key !in before :: after[rows[i].key].value == rows[i].value)
    && (kind == Upsert ==> forall i: nat | LastOfKey(rows, i) :: after[rows[i].key].value == rows[i].value)
  }

  lemma {:induction false} KeyApplies(kind: Kind, p: Progress, rows: seq<Row>, k: Key)
    ensures var after := InsertRows(kind, p, rows).table;
            && (k in after <==> k in p.table || HasKey(rows, k))
            && (k in p.table ==> after[k].id == p.table[k].id)
            && (k in p.table && (kind == Ignore || !HasKey(rows, k)) ==> after[k].value == p.table[k].value)
    decreases |rows|
  {
    if rows != [] {
      var n := |rows| - 1;
      KeyApplies(kind, p, rows[..n], k);
      KeyApplies(kind, p, rows[..n], rows[n].key);
      assert rows == rows[..n] + [rows[n]];
    }
  }

  lemma {:induction false} FirstWins(p: Progress, rows: seq<Row>, i: nat)
    requires FirstOfKey(rows, i) && rows[i].key !in p.table
    ensures var after := InsertRows(Ignore, p, rows).table;
            rows[i].key in after && after[rows[i].key].value == rows[i].value
    decreases |rows|
  {
    var n := |rows| - 1;
    if i == n {
      KeyApplies(Ignore, p, rows[..n], rows[n].key);
    } else {
      FirstWins(p, rows[..n], i);
    }
  }

  lemma {:induction false} LastWins(p: Progress, rows: seq<Row>, i: nat)
    requires LastOfKey(rows, i)
    ensures var after := InsertRows(Upsert, p, rows).table;
            rows[i].key in after && after[rows[i].key].value == rows[i].value
    decreases |rows|
  {
    if i < |rows| - 1 { LastWins(p, rows[..|rows| - 1], i); }
  }

  lemma InsertApplies(kind: Kind, p: Progress, rows: seq<Row>)
    ensures RowsApplied(kind, p.table, rows, InsertRows(kind, p, rows).table)
  {
    forall k: Key
      ensures var after := InsertRows(kind, p, rows).table;
              && (k in after <==> k in p.table || HasKey(rows, k))
              && (k in p.table ==> after[k].id == p.table[k].id)
              && (k in p.table && (kind == Ignore || !HasKey(rows, k)) ==> after[k].value == p.table[k].value)
    {
      KeyApplies(kind, p, rows, k);
    }
    forall i: nat | kind == Ignore && FirstOfKey(rows, i) && rows[i].key !in p.table
      ensures InsertRows(kind, p, rows).table[rows[i].key].value == rows[i].value
    {
      FirstWins(p, rows, i);
    }
    forall i: nat | kind == Upsert && LastOfKey(rows, i)
      ensures InsertRows(kind, p, rows).table[rows[i].key].value == rows[i].value
    {
      LastWins(p, rows, i);
    }
  }

  // ----- one statement, as the server reports it

  const MAX_WARNINGS := 65535

  function Cap(n: nat): nat {
    if n < MAX_WARNINGS then n else MAX_WARNINGS
  }

  datatype WriteResult = WriteResult(insertId: nat, affectedRows: nat, warningStatus: nat)

  /** With CLIENT_FOUND_ROWS an upsert of an identical row counts as one affected row, otherwise as none. */
  function Affected(t: Tally, foundRows: bool): nat {
    t.inserted + 2 * t.updated + (if foundRows then t.same else 0)
  }

  /** The table, the id counter and the session's LAST_INSERT_ID. */
  datatype Store = Store(table: Table, nextId: nat, session: nat)

  /** One INSERT of all rows: its effect and its OK packet. */
  function Statement(kind: Kind, foundRows: bool, s: Store, rows: seq<Row>): (Store, WriteResult)
    requires s.nextId > 0 && rows != []
  {
    var p := InsertRows(kind, Progress(s.table, s.nextId, NOTHING), rows);
    var last := rows[|rows| - 1].key;
    TallyShape(kind, s.table, s.nextId, rows);
    (Store(p.table, p.nextId, if p.tally.firstId != 0 then p.tally.firstId else s.session),
     WriteResult(if p.tally.firstId != 0 then p.tally.firstId
                 else if p.tally.updated > 0 then p.table[last].id else 0,
                 Affected(p.tally, foundRows), Cap(p.tally.warnings)))
  }

  /** The id counter moves by the number of new keys. */
  lemma {:induction false} CounterMoves(kind: Kind, p: Progress, rows: seq<Row>)
    ensures var q := InsertRows(kind, p, rows); q.nextId == p.nextId + |q.table| - |p.table|
    decreases |rows|
  {
    if rows != [] {
      var n := |rows| - 1;
      CounterMoves(kind, p, rows[..n]);
      var q := InsertRows(kind, p, rows[..n]);
      InsertSize(q.table, rows[n].key, InsertRows(kind, p, rows).table);
    }
  }

  lemma InsertSize(t: Table, k: Key, u: Table)
    requires t.Keys <= u.Keys <= t.Keys + {k}
    ensures |u| == |t| + if k in u && k !in t then 1 else 0
  {
    assert |u| == |u.Keys| && |t| == |t.Keys|;
    assert u.Keys == t.Keys + if k in u && k !in t then {k} else {};
  }

  /** Every new key has an id from the counter, and no other new key has it. */
  lemma {:induction false} NewIdsDiffer(kind: Kind, p: Progress, rows: seq<Row>, j: Key, k: Key)
    ensures var q := InsertRows(kind, p, rows);
            && p.nextId <= q.nextId
            && (j in q.table && j !in p.table ==> p.nextId <= q.table[j].id < q.nextId)
            && (k in q.table && k !in p.table ==> p.nextId <= q.table[k].id < q.nextId)
            && (j in q.table && k in q.table && j !in p.table && k !in p.table && j != k ==>
                  q.table[j].id != q.table[k].id)
    decreases |rows|
  {
    if rows != [] { NewIdsDiffer(kind, p, rows[..|rows| - 1], j, k); }
  }

  /** Row `i` is the first one whose key is new. */
  ghost predicate FirstNew(table: Table, rows: seq<Row>, i: nat) {
    i < |rows| && rows[i].key !in table && forall j | 0 <= j < i :: rows[j].key in table
  }

  lemma {:induction false} FirstNewGets(kind: Kind, p: Progress, rows: seq<Row>, i: nat)
    requires FirstNew(p.table, rows, i)
    ensures var after := InsertRows(kind, p, rows).table;
            rows[i].key in after && after[rows[i].key].id == p.nextId
    decreases |rows|
  {
    var n := |rows| - 1;
    if i < n {
      FirstNewGets(kind, p, rows[..n], i);
    } else {
      NothingNew(kind, p, rows[..n]);
    }
  }

  lemma NothingNew(kind: Kind, p: Progress, rows: seq<Row>)
    requires forall i | 0 <= i < |rows| :: rows[i].key in p.table
    ensures InsertRows(kind, p, rows).table.Keys == p.table.Keys && InsertRows(kind, p, rows).nextId == p.nextId
  {
    var q := InsertRows(kind, p, rows);
    forall k: Key
      ensures k in q.table <==> k in p.table
    {
      KeyApplies(kind, p, rows, k);
    }
    CounterMoves(kind, p, rows);
    assert q.table.Keys == p.table.Keys;
    assert |q.table| == |q.table.Keys| && |p.table| == |p.table.Keys|;
  }

  /**
   What one statement reports, spelt out: the id given to its first new key; without new keys none, or for an upsert
   that of the last row's key. An ignoring insert affects as many rows as there are new keys. New ids differ.
   */
  ghost predicate Reports(kind: Kind, before: Table, rows: seq<Row>, after: Table, ok: WriteResult) {
    && (forall i: nat | FirstNew(before, rows, i) :: rows[i].key in after && after[rows[i].key].id == ok.insertId)
    && ((forall r | r in rows :: r.key in before) ==>
          ok.insertId == 0 || (kind == Upsert && IsIdOfLast(rows, after, ok)))
    && (kind == Ignore ==> ok.affectedRows == |after| - |before|)
    && (forall j, k | j in after && k in after && j !in before && k !in before && j != k :: after[j].id != after[k].id)
  }

  ghost predicate IsIdOfLast(rows: seq<Row>, after: Table, ok: WriteResult) {
    rows != [] && rows[|rows| - 1].key in after && after[rows[|rows| - 1].key].id == ok.insertId
  }

  lemma FirstNewReported(kind: Kind, foundRows: bool, s: Store, rows: seq<Row>, i: nat)
    requires s.nextId > 0 && rows != [] && FirstNew(s.table, rows, i)
    ensures var (after, ok) := Statement(kind, foundRows, s, rows);
            rows[i].key in after.table && after.table[rows[i].key].id == ok.insertId
  {
    var p := Progress(s.table, s.nextId, NOTHING);
    TallyShape(kind, s.table, s.nextId, rows);
    FirstNewGets(kind, p, rows, i);
    NewIdsDiffer(kind, p, rows, rows[i].key, rows[i].key);
  }

  lemma NothingNewReported(kind: Kind, foundRows: bool, s: Store, rows: seq<Row>)
    requires s.nextId > 0 && rows != [] && forall r | r in rows :: r.key in s.table
    ensures var (after, ok) := Statement(kind, foundRows, s, rows);
            ok.insertId == 0 || (kind == Upsert && IsIdOfLast(rows, after.table, ok))
  {
    TallyShape(kind, s.table, s.nextId, rows);
    NothingNew(kind, Progress(s.table, s.nextId, NOTHING), rows);
    assert rows[|rows| - 1] in rows;
  }

  lemma StatementReports(kind: Kind, foundRows: bool, s: Store, rows: seq<Row>)
    requires s.nextId > 0 && rows != []
    ensures var (after, ok) := Statement(kind, foundRows, s, rows); Reports(kind, s.table, rows, after.table, ok)
  {
    var (after, ok) := Statement(kind, foundRows, s, rows);
    var p := Progress(s.table, s.nextId, NOTHING);
    TallyShape(kind, s.table, s.nextId, rows);
    CounterMoves(kind, p, rows);
    if forall r | r in rows :: r.key in s.table { NothingNewReported(kind, foundRows, s, rows); }
    forall j, k | j in after.table && k in after.table && j !in s.table && k !in s.table && j != k
      ensures after.table[j].id != after.table[k].id
    {
      NewIdsDiffer(kind, p, rows, j, k);
    }
    forall i: nat | FirstNew(s.table, rows, i)
      ensures rows[i].key in after.table && after.table[rows[i].key].id == ok.insertId
    {
      FirstNewReported(kind, foundRows, s, rows, i);
    }
  }

  /** The effect of one statement over all the rows, and what it reports. */
  ghost predicate TakesEffect(kind: Kind, before: Table, rows: seq<Row>, after: Table, ok: WriteResult) {
    RowsApplied(kind, before, rows, after) && Reports(kind, before, rows, after, ok)
  }

  lemma StatementSpeltOut(kind: Kind, foundRows: bool, s: Store, rows: seq<Row>)
    requires s.nextId > 0 && rows != []
    ensures var (after, ok) := Statement(kind, foundRows, s, rows);
            TakesEffect(kind, s.table, rows, after.table, ok)
  {
    InsertApplies(kind, Progress(s.table, s.nextId, NOTHING), rows);
    StatementReports(kind, foundRows, s, rows);
  }

  ghost predicate NoneEmpty<T>(chunks: seq<seq<T>>) {
    forall i | 0 <= i < |chunks| :: chunks[i] != []
  }

  // ----- one statement per chunk, and their results added up

  /** What is carried from chunk to chunk. */
  datatype Aggregate = Aggregate(affectedRows: nat, warningStatus: nat, firstGeneratedId: nat, rowCount: nat)

  /**
   One more statement. Before an upsert the session's id is reset, so that afterwards it tells a newly
   generated id from the id of an updated row.
   */
  function AddStatement(kind: Kind, foundRows: bool, s: Store, a: Aggregate, rows: seq<Row>): (Store, Aggregate)
    requires s.nextId > 0 && rows != []
  {
    var (after, ok) := Statement(kind, foundRows, if kind == Upsert then s.(session := 0) else s, rows);
    var generatedId := if kind == Upsert then after.session else if ok.affectedRows > 0 then ok.insertId else 0;
    (after, Aggregate(a.affectedRows + ok.affectedRows, Cap(a.warningStatus + ok.warningStatus),
                      if a.firstGeneratedId == 0 then generatedId else a.firstGeneratedId, a.rowCount + |rows|))
  }

  /** The chunks' statements, one after the other. */
  function RunStatements(kind: Kind, foundRows: bool, s: Store, chunks: seq<seq<Row>>): (r: (Store, Aggregate))
    requires s.nextId > 0 && NoneEmpty(chunks)
    ensures r.0.nextId >= s.nextId
    decreases |chunks|
  {
    if chunks == [] then (s, Aggregate(0, 0, 0, 0))
    else
      var (before, a) := RunStatements(kind, foundRows, s, chunks[..|chunks| - 1]);
      var rows := chunks[|chunks| - 1];
      TallyShape(kind, before.table, before.nextId, rows);
      AddStatement(kind, foundRows, before, a, rows)
  }

  lemma RunOneMore(kind: Kind, foundRows: bool, s: Store, chunks: seq<seq<Row>>, k: nat)
    requires s.nextId > 0 && NoneEmpty(chunks) && k < |chunks|
    ensures var (before, a) := RunStatements(kind, foundRows, s, chunks[..k]);
            RunStatements(kind, foundRows, s, chunks[..k + 1]) == AddStatement(kind, foundRows, before, a, chunks[k])
  {
    assert chunks[..k + 1][..k] == chunks[..k];
  }

  /** `after` and `a` are what one statement over all the rows would have tallied. */
  ghost predicate IsTallied(kind: Kind, foundRows: bool, s: Store, rows: seq<Row>, after: Store, a: Aggregate) {
    var p := InsertRows(kind, Progress(s.table, s.nextId, NOTHING), rows);
    && after.table == p.table && after.nextId == p.nextId
    && a == Aggregate(Affected(p.tally, foundRows), Cap(p.tally.warnings), p.tally.firstId, |rows|)
    && (kind == Ignore ==> after.session == if a.firstGeneratedId == 0 then s.session else after.session)
  }

  lemma StatementTallies(kind: Kind, foundRows: bool, s: Store, done: seq<Row>, before: Store, a: Aggregate,
                         rows: seq<Row>)
    requires s.nextId > 0 && before.nextId > 0 && rows != [] && IsTallied(kind, foundRows, s, done, before, a)
    ensures var (after, b) := AddStatement(kind, foundRows, before, a, rows);
            IsTallied(kind, foundRows, s, done + rows, after, b)
  {
    var p0 := Progress(s.table, s.nextId, NOTHING);
    var p := InsertRows(kind, p0, done);
    TallyAdds(kind, p0, done);
    InsertAppend(kind, p0, done, rows);
    TallyAdds(kind, p, rows);
    TallyShape(kind, before.table, before.nextId, rows);
  }

  /** However the rows are cut, the added-up results of the chunks' statements are those of one statement. */
  lemma {:induction false} ChunkingInvisible(kind: Kind, foundRows: bool, s: Store, chunks: seq<seq<Row>>)
    requires s.nextId > 0 && NoneEmpty(chunks)
    ensures var (after, a) := RunStatements(kind, foundRows, s, chunks);
            IsTallied(kind, foundRows, s, Flatten(chunks), after, a)
    decreases |chunks|
  {
    if chunks != [] {
      var n := |chunks| - 1;
      ChunkingInvisible(kind, foundRows, s, chunks[..n]);
      var (before, a) := RunStatements(kind, foundRows, s, chunks[..n]);
      StatementTallies(kind, foundRows, s, Flatten(chunks[..n]), before, a, chunks[n]);
      FlattenSnoc(chunks, n);
      assert chunks[..n + 1] == chunks;
    }
  }

  /** The session's id once the aggregate is complete. */
  function FinalSession(kind: Kind, s: Store, after: Store, a: Aggregate): nat {
    if a.firstGeneratedId != 0 then a.firstGeneratedId else if kind == Upsert then s.session else after.session
  }

  // ----- failures

  /** An error of a statement; lock errors are worth a retry. */
  datatype Failure = LockError | OtherError

  /** Which statement of which attempt fails. The commit counts as the statement after the last chunk. */
  type Faults = (nat, nat) -> Option<Failure>

  /** The first failing one of the statements `i` to `n` of an attempt. */
  function FirstFault(faults: Faults, attempt: nat, i: nat, n: nat): (f: Option<nat>)
    requires i <= n + 1
    ensures f.Some? ==> i <= f.value <= n && faults(attempt, f.value).Some?
    ensures forall j | i <= j < (if f.Some? then f.value else n + 1) :: faults(attempt, j).None?
    decreases n + 1 - i
  {
    if i == n + 1 then None else if faults(attempt, i).Some? then Some(i) else FirstFault(faults, attempt, i + 1, n)
  }

  /**
   What an attempt leaves behind when statement `i` fails: the table is rolled back, but not the id counter,
   and the session's id is the one the last step before the failure set.
   */
  function AfterFailure(kind: Kind, foundRows: bool, s: Store, chunks: seq<seq<Row>>, i: nat): (r: Store)
    requires s.nextId > 0 && i <= |chunks| && NoneEmpty(chunks)
    ensures r.table == s.table && r.nextId >= s.nextId
  {
    var (after, a) := RunStatements(kind, foundRows, s, chunks[..i]);
    Store(s.table, after.nextId, if i == |chunks| then FinalSession(kind, s, after, a)
                                 else if kind == Upsert then 0 else after.session)
  }

  /** What `k` failed attempts in a row leave behind. */
  function AfterFailures(kind: Kind, foundRows: bool, s: Store, chunks: seq<seq<Row>>, faults: Faults,
                         attempt: nat, k: nat): (r: Store)
    requires s.nextId > 0 && NoneEmpty(chunks)
    ensures r.table == s.table && r.nextId >= s.nextId
    decreases k
  {
    if k == 0 then s
    else
      var f := FirstFault(faults, attempt, 0, |chunks|);
      var next := if f.Some? then AfterFailure(kind, foundRows, s, chunks, f.value) else s;
      AfterFailures(kind, foundRows, next, chunks, faults, attempt + 1, k - 1)
  }

  /** The attempt's first failure is a lock error. */
  ghost predicate LockFails(faults: Faults, attempt: nat, n: nat) {
    var f := FirstFault(faults, attempt, 0, n);
    f.Some? && faults(attempt, f.value) == Some(LockError)
  }

  /** How an attempt that begins in `start` ends: as one statement over all rows, or rolled back. */
  ghost predicate IsOutcome(kind: Kind, foundRows: bool, start: Store, chunks: seq<seq<Row>>, faults: Faults,
                            attempt: nat, r: Result<WriteResult, Failure>, end: Store)
    requires start.nextId > 0 && NoneEmpty(chunks) && Flatten(chunks) != []
  {
    var f := FirstFault(faults, attempt, 0, |chunks|);
    if f.None? then r.Ok? && (end, r.value) == Statement(kind, foundRows, start, Flatten(chunks))
    else r == Err(faults(attempt, f.value).value) && end == AfterFailure(kind, foundRows, start, chunks, f.value)
  }

  lemma FailedOnce(kind: Kind, foundRows: bool, s: Store, chunks: seq<seq<Row>>, faults: Faults, attempt: nat,
                   r: Result<WriteResult, Failure>, end: Store)
    requires s.nextId > 0 && NoneEmpty(chunks) && Flatten(chunks) != []
    requires IsOutcome(kind, foundRows, s, chunks, faults, attempt, r, end) && r == Err(LockError)
    ensures LockFails(faults, attempt, |chunks|) && end.nextId >= s.nextId && end.table == s.table
    ensures forall k: nat {:trigger AfterFailures(kind, foundRows, end, chunks, faults, attempt + 1, k)} ::
              AfterFailures(kind, foundRows, s, chunks, faults, attempt, k + 1)
              == AfterFailures(kind, foundRows, end, chunks, faults, attempt + 1, k)
  {
  }

  lemma OutcomeTakesEffect(kind: Kind, foundRows: bool, start: Store, chunks: seq<seq<Row>>, faults: Faults,
                           attempt: nat, r: Result<WriteResult, Failure>, end: Store)
    requires start.nextId > 0 && NoneEmpty(chunks) && Flatten(chunks) != []
    requires IsOutcome(kind, foundRows, start, chunks, faults, attempt, r, end)
    ensures r.Ok? ==> TakesEffect(kind, start.table, Flatten(chunks), end.table, r.value)
  {
    StatementSpeltOut(kind, foundRows, start, Flatten(chunks));
  }

  // ----- the connection

  class Connection {
    var table: Table
    var nextId: nat
    var session: nat
    const foundRows: bool

    ghost function View(): Store
      reads this
    {
      Store(table, nextId, session)
    }

    constructor (foundRows: bool)
      ensures View() == Store(map[], 1, 0) && this.foundRows == foundRows
    {
      this.foundRows := foundRows;
      table, nextId, session := map[], 1, 0;
    }

    method Execute(kind: Kind, rows: seq<Row>) returns (ok: WriteResult)
      requires nextId > 0 && rows != []
      modifies this
      ensures nextId > 0 && (View(), ok) == Statement(kind, foundRows, old(View()), rows)
    {
      TallyShape(kind, table, nextId, rows);
      var after, packet := Statement(kind, foundRows, Store(table, nextId, session), rows).0,
                           Statement(kind, foundRows, Store(table, nextId, session), rows).1;
      table, nextId, session := after.table, after.nextId, after.session;
      ok := packet;
    }

    /** The row an upsert's key identifies, by the identity query. */
    method IdOf(row: Row) returns (id: nat)
      requires row.key in table
      ensures id == table[row.key].id
    {
      id := table[row.key].id;
    }

    /** Executes one chunk and adds its result to the aggregate. */
    method AddChunk(kind: Kind, rows: seq<Row>, aggregate: Aggregate) returns (total: Aggregate)
      requires nextId > 0 && rows != []
      modifies this
      ensures nextId >= old(nextId)
      ensures (View(), total) == AddStatement(kind, foundRows, old(View()), aggregate, rows)
    {
      TallyShape(kind, table, nextId, rows);
      if kind == Upsert { session := 0; }
      var result := Execute(kind, rows);
      var generatedId := if kind == Upsert then session else if result.affectedRows > 0 then result.insertId else 0;
      total := Aggregate(aggregate.affectedRows + result.affectedRows,
                         Cap(aggregate.warningStatus + result.warningStatus),
                         if aggregate.firstGeneratedId == 0 then generatedId else aggregate.firstGeneratedId,
                         aggregate.rowCount + |rows|);
    }

    /** Executes the chunks in order, up to the first one that fails. */
    method RunChunks(kind: Kind, chunks: seq<seq<Row>>, faults: Faults, attempt: nat)
      returns (failed: Option<Failure>, aggregate: Aggregate, ghost i: nat)
      requires nextId > 0 && NoneEmpty(chunks)
      modifies this
      ensures i <= |chunks| && (failed.None? <==> i == |chunks|) && nextId >= old(nextId)
      ensures forall j | 0 <= j < i :: faults(attempt, j).None?
      ensures failed.Some? ==> faults(attempt, i) == failed
      ensures failed.None? ==> (View(), aggregate) == RunStatements(kind, foundRows, old(View()), chunks)
      ensures failed.Some? ==>
                View().(table := old(table)) == AfterFailure(kind, foundRows, old(View()), chunks, i)
    {
      failed, aggregate, i := None, Aggregate(0, 0, 0, 0), 0;
      for k := 0 to |chunks|
        invariant i == k && nextId >= old(nextId)
        invariant (View(), aggregate) == RunStatements(kind, foundRows, old(View()), chunks[..k])
        invariant forall j | 0 <= j < k :: faults(attempt, j).None?
      {
        if faults(attempt, k).Some? {
          if kind == Upsert { session := 0; }
          failed := faults(attempt, k);
          return;
        }
        RunOneMore(kind, foundRows, old(View()), chunks, k);
        aggregate := AddChunk(kind, chunks[k], aggregate);
        i := i + 1;
      }
      assert chunks[..|chunks|] == chunks;
    }

    /** Completes the aggregate: the reported id, and the session's id as one statement would leave it. */
    method Finish(kind: Kind, chunks: seq<seq<Row>>, aggregate: Aggregate, previousId: nat, ghost s0: Store)
      returns (result: WriteResult)
      requires s0.nextId > 0 && chunks != [] && NoneEmpty(chunks)
      requires (View(), aggregate) == RunStatements(kind, foundRows, s0, chunks)
      requires previousId == if kind == Upsert then s0.session else 0
      modifies `session
      ensures Flatten(chunks) != [] && (View(), result) == Statement(kind, foundRows, s0, Flatten(chunks))
      ensures session == FinalSession(kind, s0, old(View()), aggregate)
    {
      ChunkingInvisible(kind, foundRows, s0, chunks);
      TallyShape(kind, s0.table, s0.nextId, Flatten(chunks));
      LastOfFlatten(chunks);
      var insertId := aggregate.firstGeneratedId;
      var changedExisting := aggregate.affectedRows > if foundRows then aggregate.rowCount else 0;
      if kind == Upsert && insertId == 0 && changedExisting {
        // Updates only: a single statement would report its last row
        var lastRows := chunks[|chunks| - 1];
        insertId := IdOf(lastRows[|lastRows| - 1]);
      }
      result := WriteResult(insertId, aggregate.affectedRows, aggregate.warningStatus);
      if kind == Upsert || aggregate.firstGeneratedId != 0 {
        session := if aggregate.firstGeneratedId != 0 then aggregate.firstGeneratedId else previousId;
      }
    }

    /** All chunks in one transaction; any failure, of a chunk or of the commit, rolls the table back. */
    method TryChunks(kind: Kind, chunks: seq<seq<Row>>, faults: Faults, attempt: nat)
      returns (r: Result<WriteResult, Failure>)
      requires nextId > 0 && chunks != [] && NoneEmpty(chunks)
      modifies this
      ensures nextId >= old(nextId) && Flatten(chunks) != []
      ensures IsOutcome(kind, foundRows, old(View()), chunks, faults, attempt, r, View())
    {
      var before := table;
      ghost var s0 := View();
      var previousId := if kind == Upsert then session else 0;
      FlattenNonEmpty(chunks);
      var failed, aggregate; ghost var i;
      failed, aggregate, i := RunChunks(kind, chunks, faults, attempt);
      FaultFound(faults, attempt, |chunks|, i);
      if failed.Some? {
        table := before;
        return Err(failed.value);
      }
      assert chunks[..|chunks|] == chunks;
      var result := Finish(kind, chunks, aggregate, previousId, s0);
      if faults(attempt, |chunks|).Some? {
        table := before;
        return Err(faults(attempt, |chunks|).value);
      }
      r := Ok(result);
    }

    /**
     The whole insert, retried on lock errors. `attempts` counts the transactions begun; all but the last
     one failed on a lock. The last one begins with the original table and with the id counter and session
     id the others left. If it succeeds, table, id counter, session id and result are those of one statement
     over all rows from there; otherwise the table is untouched and a lock error means six attempts.
     */
    method InsertChunks(kind: Kind, chunks: seq<seq<Row>>, faults: Faults, retries: nat, attempt: nat)
      returns (r: Result<WriteResult, Failure>, attempts: nat)
      requires nextId > 0 && chunks != [] && NoneEmpty(chunks)
      modifies this
      ensures nextId >= old(nextId) && Flatten(chunks) != []
      ensures 1 <= attempts <= retries + 1 && (r == Err(LockError) ==> attempts == retries + 1)
      ensures forall a | attempt <= a < attempt + attempts - 1 :: LockFails(faults, a, |chunks|)
      ensures IsOutcome(kind, foundRows,
                        AfterFailures(kind, foundRows, old(View()), chunks, faults, attempt, attempts - 1),
                        chunks, faults, attempt + attempts - 1, r, View())
      decreases retries
    {
      attempts := 1;
      r := TryChunks(kind, chunks, faults, attempt);
      if r == Err(LockError) && retries > 0 {
        FailedOnce(kind, foundRows, old(View()), chunks, faults, attempt, r, View());
        r, attempts := InsertChunks(kind, chunks, faults, retries - 1, attempt + 1);
        attempts := attempts + 1;
      }
    }

    /** One statement outside any transaction, retried on lock errors. */
    method ExecuteWithRetries(kind: Kind, rows: seq<Row>, faults: Faults, retries: nat, attempt: nat)
      returns (r: Result<WriteResult, Failure>, attempts: nat)
      requires nextId > 0 && rows != []
      modifies this
      ensures nextId > 0
      ensures r.Ok? ==> (View(), r.value) == Statement(kind, foundRows, old(View()), rows)
      ensures r.Ok? ==> TakesEffect(kind, old(table), rows, table, r.value)
      ensures r.Err? ==> View() == old(View())
      ensures 1 <= attempts <= retries + 1 && (r == Err(LockError) ==> attempts == retries + 1)
      decreases retries
    {
      attempts := 1;
      var failed := faults(attempt, 0);
      if failed.None? {
        StatementSpeltOut(kind, foundRows, View(), rows);
        var ok := Execute(kind, rows);
        r := Ok(ok);
      } else if failed == Some(LockError) && retries > 0 {
        r, attempts := ExecuteWithRetries(kind, rows, faults, retries - 1, attempt + 1);
        attempts := attempts + 1;
      } else {
        r := Err(failed.value);
      }
    }

    /**
     A bulk insert as callers see it. Whatever the budget, hence whatever the cutting, success means the
     effect and the result of one statement over all the rows, from the caller's state unless attempts
     failed before; failure leaves the table as it was; and a lock error is given up on after six attempts.
     */
    method InsertMany(kind: Kind, rows: seq<Row>, budget: Budget<Row>, faults: Faults)
      returns (r: Result<WriteResult, Failure>, attempts: nat)
      requires nextId > 0 && rows != []
      modifies this
      ensures 1 <= attempts <= 6 && (r == Err(LockError) ==> attempts == 6)
      ensures NoneEmpty(Greedy(budget, rows))
      ensures r.Ok? ==>
                (View(), r.value) ==
                Statement(kind, foundRows, StartOf(old(View()), rows, budget, kind, faults, attempts), rows)
      ensures r.Ok? ==> TakesEffect(kind, old(table), rows, table, r.value)
      ensures attempts == 1 ==> StartOf(old(View()), rows, budget, kind, faults, attempts) == old(View())
      ensures r.Err? ==> table == old(table)
      ensures Greedy(budget, rows) != [] && Flatten(Greedy(budget, rows)) == rows
      ensures if |Greedy(budget, rows)| == 1 then r.Err? ==> View() == old(View())
              else IsOutcome(kind, foundRows, StartOf(old(View()), rows, budget, kind, faults, attempts),
                             Greedy(budget, rows), faults, attempts - 1, r, View())
    {
      var chunks := Cut(budget, rows);
      CutIsSound(budget, rows);
      if |chunks| == 1 {
        assert chunks[1..] == [] && Flatten(chunks) == chunks[0] + Flatten(chunks[1..]) == chunks[0];
        r, attempts := ExecuteWithRetries(kind, chunks[0], faults, 5, 0);
        assert StartOf(old(View()), rows, budget, kind, faults, attempts) == old(View());
      } else {
        r, attempts := InsertChunks(kind, chunks, faults, 5, 0);
        ghost var start := AfterFailures(kind, foundRows, old(View()), chunks, faults, 0, attempts - 1);
        assert StartOf(old(View()), rows, budget, kind, faults, attempts) == start;
        OutcomeTakesEffect(kind, foundRows, start, chunks, faults, attempts - 1, r, View());
      }
    }

    /** Where the last of the attempts begins; its table is the original one. */
    ghost function StartOf(s: Store, rows: seq<Row>, budget: Budget<Row>, kind: Kind, faults: Faults, attempts: nat)
      : (r: Store)
      requires s.nextId > 0 && attempts > 0 && NoneEmpty(Greedy(budget, rows))
      ensures r.table == s.table && r.nextId >= s.nextId
    {
      var chunks := Greedy(budget, rows);
      if |chunks| == 1 then s else AfterFailures(kind, foundRows, s, chunks, faults, 0, attempts - 1)
    }
  }

  lemma CutIsSound(budget: Budget<Row>, rows: seq<Row>)
    requires rows != []
    ensures Greedy(budget, rows) != [] && NoneEmpty(Greedy(budget, rows)) && Flatten(Greedy(budget, rows)) == rows
  {
    GreedyFits(budget, rows);
    var chunks := Greedy(budget, rows);
    forall i | 0 <= i < |chunks|
      ensures chunks[i] != []
    {
      assert chunks[i] in chunks;
    }
  }

  lemma FaultFound(faults: Faults, attempt: nat, n: nat, i: nat)
    requires i <= n && forall j | 0 <= j < i :: faults(attempt, j).None?
    ensures FirstFault(faults, attempt, 0, n) ==
            if faults(attempt, i).Some? then Some(i) else FirstFault(faults, attempt, i + 1, n)
  {
    FaultNotBefore(faults, attempt, n, 0, i);
  }

  lemma {:induction false} FaultNotBefore(faults: Faults, attempt: nat, n: nat, i: nat, k: nat)
    requires i <= k <= n && forall j | i <= j < k :: faults(attempt, j).None?
    ensures FirstFault(faults, attempt, i, n) == FirstFault(faults, attempt, k, n)
    decreases k - i
  {
    if i < k { FaultNotBefore(faults, attempt, n, i + 1, k); }
  }

  lemma LastOfFlatten<T>(chunks: seq<seq<T>>)
    requires chunks != [] && chunks[|chunks| - 1] != []
    ensures Flatten(chunks) != []
    ensures var last := chunks[|chunks| - 1]; Flatten(chunks)[|Flatten(chunks)| - 1] == last[|last| - 1]
  {
    FlattenSnoc(chunks, |chunks| - 1);
    assert chunks[..|chunks|] == chunks;
  }

  lemma FlattenNonEmpty<T>(chunks: seq<seq<T>>)
    requires chunks != [] && NoneEmpty(chunks)
    ensures Flatten(chunks) != []
  {
  }
}
