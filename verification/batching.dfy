/**
 Cutting a list of rows greedily so that every chunk respects a row count and a byte budget. Bulk inserts
 and outpoint lookups both cut this way.
 */
module Batching {
  import opened Util

  /** A chunk costs `base` plus the cost of its rows; a single row is always accepted. */
  datatype Budget<!T> = Budget(cost: T -> nat, base: nat, limit: nat, maxRows: nat)

  function Cost<T>(b: Budget<T>, rows: seq<T>): nat {
    if rows == [] then 0 else Cost(b, rows[..|rows| - 1]) + b.cost(rows[|rows| - 1])
  }

  /** A chunk that may be sent. */
  ghost predicate Fits<T>(b: Budget<T>, chunk: seq<T>) {
    |chunk| == 1 || (1 < |chunk| <= b.maxRows && b.base + Cost(b, chunk) <= b.limit)
  }

  /** Whether the row after the first `n` would break one of the limits. */
  predicate Breaks<T>(b: Budget<T>, rows: seq<T>, n: nat)
    requires n < |rows|
  {
    n >= b.maxRows || b.base + Cost(b, rows[..n]) + b.cost(rows[n]) > b.limit
  }

  /** Extends a chunk of `n` rows as far as the limits allow. */
  function Longest<T>(b: Budget<T>, rows: seq<T>, n: nat): (m: nat)
    requires 0 < n <= |rows|
    ensures n <= m <= |rows|
    decreases |rows| - n
  {
    if n == |rows| || Breaks(b, rows, n) then n else Longest(b, rows, n + 1)
  }

  function Greedy<T>(b: Budget<T>, rows: seq<T>): seq<seq<T>> {
    if rows == [] then []
    else
      var n := Longest(b, rows, 1);
      [rows[..n]] + Greedy(b, rows[n..])
  }

  lemma CutStep<T>(b: Budget<T>, rows: seq<T>, start: nat, index: nat)
    requires start < index < |rows|
    requires Longest(b, rows[start..], 1) == Longest(b, rows[start..], index - start)
    ensures Breaks(b, rows[start..], index - start) <==>
            b.base + Cost(b, rows[start..index]) + b.cost(rows[index]) > b.limit || index - start >= b.maxRows
    ensures if Breaks(b, rows[start..], index - start)
            then Greedy(b, rows[start..]) == [rows[start..index]] + Greedy(b, rows[index..])
            else Longest(b, rows[start..], 1) == Longest(b, rows[start..], index + 1 - start)
  {
    var tail := rows[start..];
    assert tail[..index - start] == rows[start..index] && tail[index - start] == rows[index];
    assert tail[index - start..] == rows[index..];
  }

  lemma CostStep<T>(b: Budget<T>, rows: seq<T>, start: nat, index: nat)
    requires start <= index < |rows|
    ensures Cost(b, rows[start..index + 1]) == Cost(b, rows[start..index]) + b.cost(rows[index])
  {
    assert rows[start..index + 1][..index - start] == rows[start..index];
  }

  lemma Regroup<T>(x: seq<T>, y: seq<T>, z: seq<T>)
    ensures x + (y + z) == (x + y) + z
  {
  }

  lemma LastChunk<T>(b: Budget<T>, rows: seq<T>, start: nat)
    requires start < |rows| && Longest(b, rows[start..], 1) == Longest(b, rows[start..], |rows| - start)
    ensures Greedy(b, rows[start..]) == [rows[start..]]
  {
    assert rows[start..][|rows| - start..] == [];
    assert rows[start..][..|rows| - start] == rows[start..];
  }

  /** The loop: one pass over the rows, closing a chunk whenever the next row would break a limit. */
  method Cut<T>(b: Budget<T>, rows: seq<T>) returns (chunks: seq<seq<T>>)
    requires rows != []
    ensures chunks == Greedy(b, rows)
  {
    chunks := [];
    var start, bytes := 0, b.base;
    for index := 0 to |rows|
      invariant 0 <= start <= index && (index > 0 ==> start < index)
      invariant bytes == b.base + Cost(b, rows[start..index])
      invariant chunks + Greedy(b, rows[start..]) == Greedy(b, rows)
      invariant index > start ==> Longest(b, rows[start..], 1) == Longest(b, rows[start..], index - start)
    {
      var rowBytes := b.cost(rows[index]);
      if index > start { CutStep(b, rows, start, index); }
      if index > start && (bytes + rowBytes > b.limit || index - start >= b.maxRows) {
        var chunk := rows[start..index];
        Regroup(chunks, [chunk], Greedy(b, rows[index..]));
        chunks, start, bytes := chunks + [chunk], index, b.base;
      }
      CostStep(b, rows, start, index);
      bytes := bytes + rowBytes;
    }
    LastChunk(b, rows, start);
    chunks := chunks + [rows[start..]];
  }

  // ----- what the greedy cut guarantees

  lemma {:induction false} LongestFits<T>(b: Budget<T>, rows: seq<T>, n: nat)
    requires 0 < n <= |rows| && Fits(b, rows[..n])
    ensures var m := Longest(b, rows, n); Fits(b, rows[..m]) && (m < |rows| ==> Breaks(b, rows, m))
    decreases |rows| - n
  {
    if n < |rows| && !Breaks(b, rows, n) {
      assert rows[..n + 1][..n] == rows[..n];
      LongestFits(b, rows, n + 1);
    }
  }

  /** The chunks make up the rows in order; none is empty or over a limit. */
  lemma {:induction false} GreedyFits<T>(b: Budget<T>, rows: seq<T>)
    ensures Flatten(Greedy(b, rows)) == rows
    ensures forall c | c in Greedy(b, rows) :: Fits(b, c)
    decreases |rows|
  {
    if rows != [] {
      var n := Longest(b, rows, 1);
      LongestFits(b, rows, 1);
      GreedyFits(b, rows[n..]);
      assert rows == rows[..n] + rows[n..];
    }
  }

  /** Every chunk but the last stops where the next row would have broken a limit. */
  lemma {:induction false} GreedyIsMaximal<T>(b: Budget<T>, rows: seq<T>, i: nat)
    requires i + 1 < |Greedy(b, rows)|
    ensures var c, next := Greedy(b, rows)[i], Greedy(b, rows)[i + 1];
            next != [] && Breaks(b, c + [next[0]], |c|)
    decreases |rows|
  {
    var n := Longest(b, rows, 1);
    LongestFits(b, rows, 1);
    if i == 0 {
      assert Greedy(b, rows[n..])[0] == rows[n..][..Longest(b, rows[n..], 1)];
      assert (rows[..n] + [rows[n]])[..n] == rows[..n];
    } else {
      GreedyIsMaximal(b, rows[n..], i - 1);
    }
  }

  // ----- no other cutting needs fewer chunks

  lemma PartOfPrefix<T>(rows: seq<T>, n: nat, lo: nat, hi: nat)
    requires lo <= hi <= n <= |rows|
    ensures rows[..n][lo..hi] == rows[lo..hi]
  {
    forall i | 0 <= i < hi - lo
      ensures rows[..n][lo..hi][i] == rows[lo..hi][i]
    {
    }
  }

  lemma {:induction false} CostOfPart<T>(b: Budget<T>, rows: seq<T>, lo: nat, hi: nat)
    requires lo <= hi <= |rows|
    ensures Cost(b, rows[lo..hi]) <= Cost(b, rows)
    decreases |rows|
  {
    if hi < |rows| {
      CostOfPart(b, rows[..|rows| - 1], lo, hi);
      PartOfPrefix(rows, |rows| - 1, lo, hi);
    } else if lo < |rows| {
      CostOfPart(b, rows[..|rows| - 1], lo, hi - 1);
      PartOfPrefix(rows, |rows| - 1, lo, hi - 1);
      assert rows[lo..hi][..hi - lo - 1] == rows[lo..hi - 1];
    }
  }

  /** A prefix that fits is within the greedy prefix. */
  lemma {:induction false} LongestReaches<T>(b: Budget<T>, rows: seq<T>, n: nat, p: nat)
    requires 0 < n <= p <= |rows| && Fits(b, rows[..p])
    ensures p <= Longest(b, rows, n)
    decreases p - n
  {
    if n < p {
      CostOfPart(b, rows[..p], 0, n + 1);
      assert rows[..p][0..n + 1] == rows[..n + 1] && rows[..n + 1][..n] == rows[..n];
      LongestReaches(b, rows, n + 1, p);
    }
  }

  /** The greedy cut of what is left after dropping `k` rows is no longer than any cutting of all rows. */
  lemma {:induction false} GreedyIsShortest<T>(b: Budget<T>, parts: seq<seq<T>>, k: nat)
    requires forall c | c in parts :: Fits(b, c)
    requires k <= |Flatten(parts)|
    ensures |Greedy(b, Flatten(parts)[k..])| <= |parts|
    decreases |parts|
  {
    var rows := Flatten(parts);
    if parts != [] && k < |rows| {
      var first, others := parts[0], parts[1..];
      var p := |first|;
      assert first in parts;
      if k >= p {
        assert rows[k..] == Flatten(others)[k - p..];
        GreedyIsShortest(b, others, k - p);
      } else {
        var rest := rows[k..];
        assert rest[..p - k] == first[k..p];
        CostOfPart(b, first, k, p);
        LongestReaches(b, rest, 1, p - k);
        var n := Longest(b, rest, 1);
        assert rest[n..] == Flatten(others)[k + n - p..];
        GreedyIsShortest(b, others, k + n - p);
      }
    } else if parts == [] {
      assert rows[k..] == [];
    }
  }

  lemma GreedyIsOptimal<T>(b: Budget<T>, rows: seq<T>, parts: seq<seq<T>>)
    requires Flatten(parts) == rows && forall c | c in parts :: Fits(b, c)
    ensures |Greedy(b, rows)| <= |parts|
  {
    GreedyIsShortest(b, parts, 0);
    assert rows[0..] == rows;
  }

  // ----- the two users

  /** A bound value, by what its encoding costs. */
  datatype Scalar = Text(bytes: nat) | Blob(bytes: nat) | Date | Other

  function ScalarBytes(v: Scalar): nat {
    match v
    case Text(n) => n + 16
    case Blob(n) => n + 16
    case Date => 32
    case Other => 16
  }

  function RowBytes(row: seq<Scalar>): nat {
    if row == [] then 4 else RowBytes(row[..|row| - 1]) + ScalarBytes(row[|row| - 1])
  }

  /** How many dates there are among the values. */
  ghost function Dates(values: seq<Scalar>): nat {
    if values == [] then 0 else Dates(values[..|values| - 1]) + if values[|values| - 1].Date? then 1 else 0
  }

  /** How many bytes of text and binary data there are among the values. */
  ghost function Payload(values: seq<Scalar>): nat {
    if values == [] then 0
    else
      var last := values[|values| - 1];
      Payload(values[..|values| - 1]) + if last.Text? || last.Blob? then last.bytes else 0
  }

  /** The size of an insert of these rows: 4 bytes a row, 16 a value, 16 more a date, and the data itself. */
  ghost function InsertBytes(queryBytes: nat, rows: seq<seq<Scalar>>): nat {
    var values := Flatten(rows);
    queryBytes + 32 + 4 * |rows| + 16 * |values| + 16 * Dates(values) + Payload(values)
  }

  lemma {:induction false} RowBytesCount(values: seq<Scalar>, row: seq<Scalar>)
    ensures RowBytes(row) + 16 * |values| + 16 * Dates(values) + Payload(values)
         == 4 + 16 * |values + row| + 16 * Dates(values + row) + Payload(values + row)
    decreases |row|
  {
    if row == [] {
      assert values + row == values;
    } else {
      RowBytesCount(values, row[..|row| - 1]);
      assert (values + row)[..|values + row| - 1] == values + row[..|row| - 1];
    }
  }

  lemma {:induction false} InsertCost(queryBytes: nat, width: nat, maxAllowedPacket: nat, rows: seq<seq<Scalar>>)
    requires width > 0
    ensures var b := InsertBudget(queryBytes, width, maxAllowedPacket);
            b.base + Cost(b, rows) == InsertBytes(queryBytes, rows)
    decreases |rows|
  {
    if rows == [] {
      assert Flatten(rows) == [];
    } else {
      var n := |rows| - 1;
      InsertCost(queryBytes, width, maxAllowedPacket, rows[..n]);
      FlattenSnoc(rows, n);
      assert rows[..n + 1] == rows;
      RowBytesCount(Flatten(rows[..n]), rows[n]);
    }
  }

  const MAX_INSERT_BATCH_BYTES := 1024 * 1024
  const MAX_PREPARED_PARAMETERS := 65535
  const MAX_OUTPOINT_BATCH_ROWS := 1000

  /** The byte limit left by the server's packet size, never below one. */
  function ByteLimit(maxAllowedPacket: nat): nat {
    var room := maxAllowedPacket - 1024;
    if room < 1 then 1 else if room < MAX_INSERT_BATCH_BYTES then room else MAX_INSERT_BATCH_BYTES
  }

  function InsertBudget(queryBytes: nat, width: nat, maxAllowedPacket: nat): Budget<seq<Scalar>>
    requires width > 0
  {
    Budget(RowBytes, queryBytes + 32, ByteLimit(maxAllowedPacket), MAX_PREPARED_PARAMETERS / width)
  }

  /**
   Chunks of an insert: at most 65535 parameters each, and within a mebibyte and the server's packet size less one
   kibibyte, unless a single row; each but the last is as long as these limits allow.
   */
  method CutInsert(queryBytes: nat, rows: seq<seq<Scalar>>, maxAllowedPacket: nat)
    returns (chunks: seq<seq<seq<Scalar>>>)
    requires rows != [] && 0 < |rows[0]| <= MAX_PREPARED_PARAMETERS
    requires forall r | r in rows :: |r| == |rows[0]|
    ensures Flatten(chunks) == rows && chunks == Greedy(InsertBudget(queryBytes, |rows[0]|, maxAllowedPacket), rows)
    ensures forall c | c in chunks ::
              c != [] && Parameters(c) <= 65535 && (|c| == 1 || InPacket(queryBytes, c, maxAllowedPacket))
    ensures forall i | 0 <= i < |chunks| - 1 ::
              var longer := chunks[i] + chunks[i + 1][..1];
              Parameters(longer) > 65535 || !InPacket(queryBytes, longer, maxAllowedPacket)
  {
    var width := |rows[0]|;
    var b := InsertBudget(queryBytes, width, maxAllowedPacket);
    chunks := Cut(b, rows);
    GreedyFits(b, rows);
    forall c | c in chunks
      ensures c != [] && Parameters(c) <= 65535 && (|c| == 1 || InPacket(queryBytes, c, maxAllowedPacket))
    {
      RowsOfChunk(chunks, c);
      ChunkFits(queryBytes, width, maxAllowedPacket, c);
    }
    forall i | 0 <= i < |chunks| - 1
      ensures var longer := chunks[i] + chunks[i + 1][..1];
              Parameters(longer) > 65535 || !InPacket(queryBytes, longer, maxAllowedPacket)
    {
      RowsOfChunk(chunks, chunks[i]);
      RowsOfChunk(chunks, chunks[i + 1]);
      GreedyIsMaximal(b, rows, i);
      BreaksInsert(queryBytes, width, maxAllowedPacket, chunks[i], chunks[i + 1]);
    }
  }

  /** Each value of each row takes one parameter. */
  ghost function Parameters(rows: seq<seq<Scalar>>): nat {
    |Flatten(rows)|
  }

  lemma {:induction false} RowsOfChunk<T>(chunks: seq<seq<T>>, c: seq<T>)
    requires c in chunks
    ensures forall r | r in c :: r in Flatten(chunks)
  {
    if chunks[0] != c { RowsOfChunk(chunks[1..], c); }
  }

  lemma {:induction false} ParametersOfEqual(rows: seq<seq<Scalar>>, width: nat)
    requires forall r | r in rows :: |r| == width
    ensures var n := |rows|; Parameters(rows) == n * width
  {
    if rows != [] {
      ParametersOfEqual(rows[1..], width);
      OneMore(|rows| - 1, width);
    }
  }

  lemma OneMore(n: nat, width: nat)
    ensures (n + 1) * width == n * width + width
  {
  }

  ghost predicate InPacket(queryBytes: nat, rows: seq<seq<Scalar>>, maxAllowedPacket: nat) {
    InsertBytes(queryBytes, rows) <= 1048576 && InsertBytes(queryBytes, rows) <= maxAllowedPacket - 1024
  }

  /** What fits the budget is within the parameters and the packet. */
  lemma ChunkFits(queryBytes: nat, width: nat, maxAllowedPacket: nat, c: seq<seq<Scalar>>)
    requires 0 < width <= MAX_PREPARED_PARAMETERS && forall r | r in c :: |r| == width
    requires Fits(InsertBudget(queryBytes, width, maxAllowedPacket), c)
    ensures Parameters(c) <= 65535 && (|c| == 1 || InPacket(queryBytes, c, maxAllowedPacket))
  {
    InsertCost(queryBytes, width, maxAllowedPacket, c);
    ParametersOfEqual(c, width);
    WithinParameters(|c|, width);
  }

  /** A further row that breaks a limit of the budget has too many parameters or too many bytes. */
  lemma BreaksInsert(queryBytes: nat, width: nat, maxAllowedPacket: nat, c: seq<seq<Scalar>>, next: seq<seq<Scalar>>)
    requires 0 < width && next != [] && forall r | r in c + [next[0]] :: |r| == width
    requires Breaks(InsertBudget(queryBytes, width, maxAllowedPacket), c + [next[0]], |c|)
    ensures Parameters(c + next[..1]) > 65535 || !InPacket(queryBytes, c + next[..1], maxAllowedPacket)
  {
    assert c + next[..1] == c + [next[0]];
    if |c| >= MAX_PREPARED_PARAMETERS / width {
      ParametersOfEqual(c + [next[0]], width);
      BeyondParameters(|c|, width);
    } else {
      InsertCost(queryBytes, width, maxAllowedPacket, c + [next[0]]);
      assert (c + [next[0]])[..|c|] == c;
    }
  }

  lemma WithinParameters(n: nat, width: nat)
    requires 0 < width <= MAX_PREPARED_PARAMETERS && (n == 1 || n <= MAX_PREPARED_PARAMETERS / width)
    ensures n * width <= MAX_PREPARED_PARAMETERS
  {
  }

  lemma BeyondParameters(n: nat, width: nat)
    requires 0 < width && n >= MAX_PREPARED_PARAMETERS / width
    ensures (n + 1) * width > MAX_PREPARED_PARAMETERS
  {
    assert (n + 1) * width >= (MAX_PREPARED_PARAMETERS / width + 1) * width;
  }
}
