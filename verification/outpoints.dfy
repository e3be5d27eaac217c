/**
 Looking up stored outputs and the inputs that spend them. Large requests are answered chunk by chunk
 within one snapshot, and the merged answer is the one a single UNION query would have given.
 */
module Outpoints {
  import opened Util
  import opened Wrappers
  import opened Batching

  type Txid = string

  datatype Request = Request(txid: Txid, index: nat)

  datatype OutputRow = OutputRow(outID: nat, txid: Txid, index: nat, amount: nat)

  datatype InputRow = InputRow(inID: nat, outID: nat, spender: nat)

  /** The tables as one transaction sees them; `fold` is what the collation compares by. */
  datatype Snapshot = Snapshot(outputs: seq<OutputRow>, inputs: seq<InputRow>, fold: Txid -> Txid)

  /** A result row and the input it comes from, if any. */
  datatype Row = Row(output: OutputRow, input: Option<InputRow>)

  ghost predicate UniqueIds(s: Snapshot) {
    && (forall i, j | 0 <= i < j < |s.outputs| :: s.outputs[i].outID != s.outputs[j].outID)
    && (forall i, j | 0 <= i < j < |s.inputs| :: s.inputs[i].inID != s.inputs[j].inID)
  }

  /** The join condition; the UNION makes every matching output appear once however often it is requested. */
  predicate Requested(s: Snapshot, o: OutputRow, requests: seq<Request>) {
    exists r | r in requests :: s.fold(r.txid) == s.fold(o.txid) && r.index == o.index
  }

  function SpendersOf(inputs: seq<InputRow>, o: OutputRow): seq<Row> {
    if inputs == [] then []
    else (if inputs[0].outID == o.outID then [Row(o, Some(inputs[0]))] else []) + SpendersOf(inputs[1..], o)
  }

  /** The rows of one output: with a left join one per spending input or a single one, else a single one. */
  function RowsOf(s: Snapshot, join: bool, o: OutputRow): seq<Row> {
    var spenders := SpendersOf(s.inputs, o);
    if !join || spenders == [] then [Row(o, None)] else spenders
  }

  function QueryFrom(s: Snapshot, join: bool, outputs: seq<OutputRow>, requests: seq<Request>): seq<Row> {
    if outputs == [] then []
    else (if Requested(s, outputs[0], requests) then RowsOf(s, join, outputs[0]) else [])
         + QueryFrom(s, join, outputs[1..], requests)
  }

  /** One UNION query for all the requests. */
  function Query(s: Snapshot, join: bool, requests: seq<Request>): seq<Row> {
    QueryFrom(s, join, s.outputs, requests)
  }

  /** What the batched lookup deduplicates by. */
  function Identity(row: Row): (nat, Option<nat>) {
    (row.output.outID, if row.input.Some? then Some(row.input.value.inID) else None)
  }

  ghost predicate DistinctIdentities(rows: seq<Row>) {
    forall i, j | 0 <= i < j < |rows| :: Identity(rows[i]) != Identity(rows[j])
  }

  // ----- what a query returns

  /**
   A row answers the requests: one of them has the row's txid, up to collation, and its index, and its input is one
   that spends the output, or with no such input, or without join, absent.
   */
  ghost predicate Answers(s: Snapshot, join: bool, requests: seq<Request>, row: Row) {
    && (exists r | r in requests :: s.fold(r.txid) == s.fold(row.output.txid) && r.index == row.output.index)
    && match row.input
       case Some(i) => join && i in s.inputs && i.outID == row.output.outID
       case None => join ==> forall i | i in s.inputs :: i.outID != row.output.outID
  }

  lemma {:induction false} InSpenders(inputs: seq<InputRow>, o: OutputRow, row: Row)
    ensures row in SpendersOf(inputs, o) <==>
            row.output == o && row.input.Some? && row.input.value in inputs && row.input.value.outID == o.outID
  {
    if inputs != [] {
      InSpenders(inputs[1..], o, row);
      assert inputs == [inputs[0]] + inputs[1..];
    }
  }

  lemma {:induction false} InQuery(s: Snapshot, join: bool, outputs: seq<OutputRow>, requests: seq<Request>, row: Row)
    ensures row in QueryFrom(s, join, outputs, requests) <==>
            row.output in outputs && Answers(s, join, requests, row)
  {
    if outputs != [] {
      InQuery(s, join, outputs[1..], requests, row);
      assert outputs == [outputs[0]] + outputs[1..];
      InRowsOf(s, join, outputs[0], row);
    }
  }

  lemma InRowsOf(s: Snapshot, join: bool, o: OutputRow, row: Row)
    ensures row in RowsOf(s, join, o) <==>
            && row.output == o
            && match row.input
               case Some(i) => join && i in s.inputs && i.outID == o.outID
               case None => join ==> forall i | i in s.inputs :: i.outID != o.outID
  {
    InSpenders(s.inputs, o, row);
    var spenders := SpendersOf(s.inputs, o);
    if spenders != [] {
      InSpenders(s.inputs, o, spenders[0]);
    } else {
      forall i | i in s.inputs
        ensures i.outID != o.outID
      {
        InSpenders(s.inputs, o, Row(o, Some(i)));
      }
    }
  }

  lemma {:induction false} SpendersDistinct(inputs: seq<InputRow>, o: OutputRow)
    requires forall i, j | 0 <= i < j < |inputs| :: inputs[i].inID != inputs[j].inID
    ensures DistinctIdentities(SpendersOf(inputs, o))
  {
    if inputs != [] {
      SpendersDistinct(inputs[1..], o);
      var rest := SpendersOf(inputs[1..], o);
      forall k | 0 <= k < |rest|
        ensures Identity(rest[k]) != Identity(Row(o, Some(inputs[0])))
      {
        InSpenders(inputs[1..], o, rest[k]);
      }
    }
  }

  lemma {:induction false} QueryDistinct(s: Snapshot, join: bool, outputs: seq<OutputRow>, requests: seq<Request>)
    requires UniqueIds(s)
    requires forall i, j | 0 <= i < j < |outputs| :: outputs[i].outID != outputs[j].outID
    ensures DistinctIdentities(QueryFrom(s, join, outputs, requests))
  {
    if outputs != [] {
      QueryDistinct(s, join, outputs[1..], requests);
      var first, rest := RowsOf(s, join, outputs[0]), QueryFrom(s, join, outputs[1..], requests);
      SpendersDistinct(s.inputs, outputs[0]);
      forall i, k | 0 <= i < |first| && 0 <= k < |rest|
        ensures Identity(first[i]) != Identity(rest[k])
      {
        InRowsOf(s, join, outputs[0], first[i]);
        InQuery(s, join, outputs[1..], requests, rest[k]);
      }
    }
  }

  /** Rows of one snapshot with the same identity are the same row. */
  lemma IdentityDecides(s: Snapshot, join: bool, a: seq<Request>, b: seq<Request>, x: Row, y: Row)
    requires UniqueIds(s) && x in Query(s, join, a) && y in Query(s, join, b) && Identity(x) == Identity(y)
    ensures x == y
  {
    InQuery(s, join, s.outputs, a, x);
    InQuery(s, join, s.outputs, b, y);
    InRowsOf(s, join, x.output, x);
    InRowsOf(s, join, y.output, y);
  }

  lemma {:induction false} DistinctCount<T>(s: seq<T>, x: T)
    requires Distinct(s)
    ensures multiset(s)[x] == if x in s then 1 else 0
  {
    if s != [] {
      assert s == [s[0]] + s[1..];
      DistinctCount(s[1..], x);
    }
  }

  /** Sequences without repetition that have the same members are permutations of each other. */
  lemma SameMembers<T>(a: seq<T>, b: seq<T>)
    requires Distinct(a) && Distinct(b)
    requires forall x :: x in a <==> x in b
    ensures multiset(a) == multiset(b)
  {
    forall x
      ensures multiset(a)[x] == multiset(b)[x]
    {
      DistinctCount(a, x);
      DistinctCount(b, x);
    }
  }

  lemma QueryOfBoth(s: Snapshot, join: bool, a: seq<Request>, b: seq<Request>)
    ensures forall r :: r in Query(s, join, a + b) <==> r in Query(s, join, a) || r in Query(s, join, b)
  {
    forall r
      ensures r in Query(s, join, a + b) <==> r in Query(s, join, a) || r in Query(s, join, b)
    {
      InQuery(s, join, s.outputs, a, r);
      InQuery(s, join, s.outputs, b, r);
      InQuery(s, join, s.outputs, a + b, r);
    }
  }

  lemma AnswersQuery(s: Snapshot, join: bool, requests: seq<Request>, rows: seq<Row>)
    requires multiset(rows) == multiset(Query(s, join, requests))
    ensures forall row :: row in rows <==> row.output in s.outputs && Answers(s, join, requests, row)
  {
    forall row
      ensures row in rows <==> row.output in s.outputs && Answers(s, join, requests, row)
    {
      assert row in multiset(rows) <==> row in multiset(Query(s, join, requests));
      InQuery(s, join, s.outputs, requests, row);
    }
  }

  // ----- the lookup

  /** Adds to `result` the rows of one chunk that were not seen before. */
  method Merge(s: Snapshot, join: bool, ghost asked: seq<Request>, chunk: seq<Request>, result: seq<Row>,
               seen: set<(nat, Option<nat>)>)
    returns (merged: seq<Row>, now: set<(nat, Option<nat>)>)
    requires UniqueIds(s) && DistinctIdentities(result)
    requires seen == set r | r in result :: Identity(r)
    requires forall r :: r in result <==> r in Query(s, join, asked)
    ensures DistinctIdentities(merged)
    ensures now == set r | r in merged :: Identity(r)
    ensures forall r :: r in merged <==> r in Query(s, join, asked + chunk)
  {
    merged, now := result, seen;
    var rows := Query(s, join, chunk);
    for i := 0 to |rows|
      invariant DistinctIdentities(merged)
      invariant now == set r | r in merged :: Identity(r)
      invariant forall r :: r in merged <==> r in result || r in rows[..i]
    {
      var row := rows[i];
      if Identity(row) !in now {
        merged, now := merged + [row], now + {Identity(row)};
      } else {
        var other :| other in merged && Identity(other) == Identity(row);
        assert row in rows;
        if other in result { IdentityDecides(s, join, asked, chunk, other, row); }
        else { IdentityDecides(s, join, chunk, chunk, other, row); }
      }
      assert rows[..i + 1] == rows[..i] + [row];
    }
    assert rows[..|rows|] == rows;
    QueryOfBoth(s, join, asked, chunk);
  }

  /** All chunks against one snapshot. */
  method QueryChunks(s: Snapshot, join: bool, chunks: seq<seq<Request>>) returns (result: seq<Row>)
    requires UniqueIds(s)
    ensures DistinctIdentities(result)
    ensures multiset(result) == multiset(Query(s, join, Flatten(chunks)))
  {
    result := [];
    var seen: set<(nat, Option<nat>)> := {};
    NothingRequested(s, join, s.outputs);
    assert chunks[..0] == [];
    for i := 0 to |chunks|
      invariant DistinctIdentities(result)
      invariant seen == set r | r in result :: Identity(r)
      invariant forall r :: r in result <==> r in Query(s, join, Flatten(chunks[..i]))
    {
      FlattenSnoc(chunks, i);
      result, seen := Merge(s, join, Flatten(chunks[..i]), chunks[i], result, seen);
    }
    assert chunks[..|chunks|] == chunks;
    QueryDistinct(s, join, s.outputs, Flatten(chunks));
    SameMembers(result, Query(s, join, Flatten(chunks)));
  }

  lemma {:induction false} NothingRequested(s: Snapshot, join: bool, outputs: seq<OutputRow>)
    ensures QueryFrom(s, join, outputs, []) == []
  {
    if outputs != [] { NothingRequested(s, join, outputs[1..]); }
  }

  function OutpointBudget(queryBytes: nat, maxAllowedPacket: nat): Budget<Request> {
    Budget((r: Request) => |r.txid| + 96, queryBytes + 128, ByteLimit(maxAllowedPacket), MAX_OUTPOINT_BATCH_ROWS)
  }

  /**
   The lookup as callers see it: each (output, spending input) identity exactly once, and exactly the rows
   of one query for all requests, however often an outpoint is requested and in whatever spelling.
   */
  method QueryOutpoints(s: Snapshot, join: bool, spends: seq<Request>, queryBytes: nat, maxAllowedPacket: nat)
    returns (result: seq<Row>)
    requires UniqueIds(s)
    ensures DistinctIdentities(result)
    ensures multiset(result) == multiset(Query(s, join, spends))
    ensures forall row :: row in result <==> row.output in s.outputs && Answers(s, join, spends, row)
  {
    if |spends| == 0 {
      NothingRequested(s, join, s.outputs);
      result := [];
      AnswersQuery(s, join, spends, result);
      return;
    }
    var budget := OutpointBudget(queryBytes, maxAllowedPacket);
    var chunks := Cut(budget, spends);
    GreedyFits(budget, spends);
    if |chunks| == 1 {
      assert chunks[1..] == [] && Flatten(chunks) == chunks[0] + Flatten(chunks[1..]) == chunks[0];
      result := Query(s, join, chunks[0]);
      QueryDistinct(s, join, s.outputs, spends);
    } else {
      result := QueryChunks(s, join, chunks);
    }
    AnswersQuery(s, join, spends, result);
  }
}
