/**
 Transactions, their outputs to tracked addresses, and the inputs that spend stored outputs. Processing a
 transaction replaces any earlier spender of the outputs it spends.
 */
module Ledger {
  import opened Wrappers

  type Txid = string
  type Address = string

  datatype Outpoint = Outpoint(txid: Txid, index: nat)

  datatype Output = Output(addr: Address, amount: nat)

  /** An input row is unique by spending transaction and position. */
  datatype InputKey = InputKey(txid: Txid, index: nat)

  /** What each transaction id stands for: the outpoints it spends and the outputs it creates. */
  datatype Content = Content(ins: Txid -> seq<Outpoint>, outs: Txid -> seq<Output>)

  datatype State = State(txs: set<Txid>, outputs: map<Outpoint, Output>, inputs: map<InputKey, Outpoint>)

  const EMPTY := State({}, map[], map[])

  ghost predicate InputRowOk(c: Content, s: State, k: InputKey)
    requires k in s.inputs
  {
    && k.txid in s.txs && s.inputs[k] in s.outputs
    && k.index < |c.ins(k.txid)| && c.ins(k.txid)[k.index] == s.inputs[k]
  }

  ghost predicate OutputRowOk(c: Content, s: State, o: Outpoint)
    requires o in s.outputs
  {
    o.txid in s.txs && o.index < |c.outs(o.txid)| && c.outs(o.txid)[o.index] == s.outputs[o]
  }

  /** Foreign keys hold and rows say what the transactions say. */
  ghost predicate Faithful(c: Content, s: State) {
    && (forall k {:trigger s.inputs[k]} | k in s.inputs :: InputRowOk(c, s, k))
    && (forall o {:trigger s.outputs[o]} | o in s.outputs :: OutputRowOk(c, s, o))
  }

  /** No stored output is spent by two transactions. */
  ghost predicate SingleSpender(s: State) {
    forall j, k {:trigger s.inputs[j], s.inputs[k]} | j in s.inputs && k in s.inputs && s.inputs[j] == s.inputs[k] ::
      j.txid == k.txid
  }

  /** At most one input row per output. */
  ghost predicate OneRowPerOutput(s: State) {
    forall j, k {:trigger s.inputs[j], s.inputs[k]} | j in s.inputs && k in s.inputs && s.inputs[j] == s.inputs[k] ::
      j == k
  }

  ghost predicate DistinctIns(c: Content) {
    forall t, i, j {:trigger c.ins(t)[i], c.ins(t)[j]} | 0 <= i < j < |c.ins(t)| :: c.ins(t)[i] != c.ins(t)[j]
  }

  /** A transaction spends an outpoint at one position, so a single spender means a single row. */
  lemma OneRowFromSingleSpender(c: Content, s: State)
    requires DistinctIns(c) && Faithful(c, s) && SingleSpender(s)
    ensures OneRowPerOutput(s)
  {
  }

  // ----- table operations

  /** DELETE of transactions; outputs and inputs go with them, and inputs go with the outputs they spend. */
  function DeleteTxs(s: State, gone: set<Txid>): State {
    State(s.txs - gone,
          map o | o in s.outputs && o.txid !in gone :: s.outputs[o],
          map k | k in s.inputs && k.txid !in gone && s.inputs[k].txid !in gone :: s.inputs[k])
  }

  lemma DeleteKeeps(c: Content, s: State, gone: set<Txid>)
    requires Faithful(c, s)
    ensures Faithful(c, DeleteTxs(s, gone))
    ensures SingleSpender(s) ==> SingleSpender(DeleteTxs(s, gone))
  {
  }

  // ----- processing the inputs of a transaction

  /** The position recorded for an outpoint: the last one if it occurs repeatedly. */
  function LastIndex(ins: seq<Outpoint>, o: Outpoint): (i: nat)
    requires o in ins
    ensures i < |ins| && ins[i] == o
  {
    if ins[|ins| - 1] == o then |ins| - 1 else LastIndex(ins[..|ins| - 1], o)
  }

  /** The stored outputs the transaction spends. */
  function Spent(c: Content, s: State, t: Txid): set<Outpoint> {
    set o | o in s.outputs && o in c.ins(t)
  }

  /** Other transactions recorded as spending one of them. */
  function DoubleSpent(c: Content, s: State, t: Txid): set<Txid> {
    set k | k in s.inputs && s.inputs[k] in Spent(c, s, t) && k.txid != t :: k.txid
  }

  /** The input rows of `t`, one for each stored output it spends. */
  function OwnInputs(c: Content, s: State, t: Txid): (r: map<InputKey, Outpoint>)
    ensures forall k {:trigger k in r} :: k in r <==> IsOwnInput(c, s, t, k)
    ensures forall k {:trigger r[k]} | k in r :: k.index < |c.ins(t)| && r[k] == c.ins(t)[k.index]
  {
    var ins := c.ins(t);
    var r := map i | 0 <= i < |ins| && IsOwnInput(c, s, t, InputKey(t, i)) :: InputKey(t, i) := ins[i];
    assert forall k {:trigger IsOwnInput(c, s, t, k)} | IsOwnInput(c, s, t, k) :: k == InputKey(t, k.index);
    r
  }

  predicate IsOwnInput(c: Content, s: State, t: Txid, k: InputKey) {
    && k.txid == t && k.index < |c.ins(t)|
    && c.ins(t)[k.index] in s.outputs
    && LastIndex(c.ins(t), c.ins(t)[k.index]) == k.index
  }

  function AfterInputs(c: Content, s: State, t: Txid): State {
    if Spent(c, s, t) == {} then s
    else DeleteTxs(State(s.txs + {t}, s.outputs, s.inputs + OwnInputs(c, s, t)), DoubleSpent(c, s, t))
  }

  /** The transaction spends an output that `u` was recorded as spending. */
  ghost predicate Loses(s: State, ins: seq<Outpoint>, t: Txid, u: Txid) {
    u != t && exists k | k in s.inputs && k.txid == u :: s.inputs[k] in s.outputs && s.inputs[k] in ins
  }

  /** Position `k` of `t` gets a row: its outpoint is stored and does not occur at a later position. */
  ghost predicate Links(s: State, ins: seq<Outpoint>, t: Txid, k: InputKey) {
    && k.txid == t && k.index < |ins| && ins[k.index] in s.outputs
    && forall j | k.index < j < |ins| :: ins[j] != ins[k.index]
  }

  /**
   What processing inputs `ins` of `t` does to each table, spelt out: nothing if none of them is stored; otherwise
   `t` is recorded with a row for each stored outpoint, and every other transaction recorded as spending one of these
   is gone, with its outputs, its inputs, and the inputs that spend its outputs.
   */
  ghost predicate InputsRecorded(s: State, ins: seq<Outpoint>, t: Txid, a: State) {
    if forall o | o in s.outputs :: o !in ins then a == s
    else
      && (forall u {:trigger u in a.txs} :: u in a.txs <==> (u in s.txs || u == t) && !Loses(s, ins, t, u))
      && (forall o {:trigger o in a.outputs} :: o in a.outputs <==> o in s.outputs && !Loses(s, ins, t, o.txid))
      && (forall o | o in a.outputs :: a.outputs[o] == s.outputs[o])
      && (forall k | Links(s, ins, t, k) && !Loses(s, ins, t, ins[k.index].txid) ::
            k in a.inputs && a.inputs[k] == ins[k.index])
      && (forall k | k in s.inputs && !Links(s, ins, t, k) && !Loses(s, ins, t, k.txid) &&
                     !Loses(s, ins, t, s.inputs[k].txid) ::
            k in a.inputs && a.inputs[k] == s.inputs[k])
      && (forall k | k in a.inputs ::
            && (k in s.inputs || Links(s, ins, t, k))
            && !Loses(s, ins, t, k.txid) && !Loses(s, ins, t, a.inputs[k].txid))
  }

  lemma {:induction false} LastIndexIsLast(ins: seq<Outpoint>, i: nat)
    requires i < |ins|
    ensures LastIndex(ins, ins[i]) == i <==> forall j | i < j < |ins| :: ins[j] != ins[i]
  {
    if i < |ins| - 1 && ins[|ins| - 1] != ins[i] {
      LastIndexIsLast(ins[..|ins| - 1], i);
    }
  }

  lemma InputsSpeltOut(c: Content, s: State, t: Txid)
    ensures InputsRecorded(s, c.ins(t), t, AfterInputs(c, s, t))
  {
    var ins := c.ins(t);
    var gone := DoubleSpent(c, s, t);
    assert forall u :: u in gone <==> Loses(s, ins, t, u);
    forall k: InputKey
      ensures IsOwnInput(c, s, t, k) <==> Links(s, ins, t, k)
    {
      if k.index < |ins| { LastIndexIsLast(ins, k.index); }
    }
    if o :| o in s.outputs && o in ins {
      assert o in Spent(c, s, t);
      var own := OwnInputs(c, s, t);
      assert forall k :: k in own <==> Links(s, ins, t, k);
      var a := DeleteTxs(State(s.txs + {t}, s.outputs, s.inputs + own), gone);
      assert AfterInputs(c, s, t) == a;
    }
  }

  /**
   Processing inputs keeps the ledger faithful and single-spender, and makes the transaction the only
   spender of every stored output it spends that survives.
   */
  lemma InputsReplaceSpenders(c: Content, s: State, t: Txid)
    requires Faithful(c, s) && SingleSpender(s)
    ensures var a := AfterInputs(c, s, t);
            && Faithful(c, a) && SingleSpender(a)
            && a.txs >= s.txs - DoubleSpent(c, s, t)
            && (forall o | o in a.outputs && o in c.ins(t) :: SpentOnlyBy(a, o, t))
            && (forall k | k in s.inputs && s.inputs[k] !in Spent(c, s, t) && k in a.inputs ::
                  a.inputs[k] == s.inputs[k])
  {
    var own, gone := OwnInputs(c, s, t), DoubleSpent(c, s, t);
    assert forall o | o in s.outputs && o in c.ins(t) :: o in Spent(c, s, t);
    if Spent(c, s, t) != {} {
      var m := State(s.txs + {t}, s.outputs, s.inputs + own);
      MergeKeeps(c, s, t);
      DeleteKeeps(c, m, gone);
      var a := DeleteTxs(m, gone);
      assert t !in gone;
      forall j, k | j in a.inputs && k in a.inputs && a.inputs[j] == a.inputs[k]
        ensures j.txid == k.txid
      {
        SurvivorSpends(c, s, t, j);
        SurvivorSpends(c, s, t, k);
      }
      forall o | o in a.outputs && o in c.ins(t)
        ensures SpentOnlyBy(a, o, t)
      {
        assert o in Spent(c, s, t);
        var k := InputKey(t, LastIndex(c.ins(t), o));
        assert IsOwnInput(c, s, t, k) && k in own && own[k] == o;
        forall j | j in a.inputs && a.inputs[j] == o
          ensures j.txid == t
        {
          SurvivorSpends(c, s, t, j);
        }
        assert k in a.inputs && a.inputs[k] == o;
      }
    }
  }

  /** The output has an input row, and all its input rows belong to `t`. */
  ghost predicate SpentOnlyBy(s: State, o: Outpoint, t: Txid) {
    && (exists k | k in s.inputs :: s.inputs[k] == o)
    && (forall k | k in s.inputs && s.inputs[k] == o :: k.txid == t)
  }

  lemma MergeKeeps(c: Content, s: State, t: Txid)
    requires Faithful(c, s)
    ensures Faithful(c, State(s.txs + {t}, s.outputs, s.inputs + OwnInputs(c, s, t)))
    ensures forall k | k in s.inputs && k in OwnInputs(c, s, t) :: s.inputs[k] == OwnInputs(c, s, t)[k]
  {
  }

  /** A surviving input row of a spent output belongs to `t`; any other one was there before. */
  lemma SurvivorSpends(c: Content, s: State, t: Txid, k: InputKey)
    requires Faithful(c, s) && Spent(c, s, t) != {} && k in AfterInputs(c, s, t).inputs
    ensures var o := AfterInputs(c, s, t).inputs[k];
            if o in Spent(c, s, t) then k.txid == t else k in s.inputs && s.inputs[k] == o
  {
    var own, gone := OwnInputs(c, s, t), DoubleSpent(c, s, t);
    assert k !in own ==> k in s.inputs && k.txid !in gone;
    assert k in own ==> own[k] in Spent(c, s, t);
  }

  // ----- processing the outputs of a transaction

  /** Output rows for the outputs of `t` that pay one of the given addresses. */
  function PaidOutputs(c: Content, t: Txid, known: set<Address>): map<Outpoint, Output> {
    PaidUpTo(t, c.outs(t), known, |c.outs(t)|)
  }

  function PaidUpTo(t: Txid, outs: seq<Output>, known: set<Address>, n: nat): (r: map<Outpoint, Output>)
    requires n <= |outs|
    ensures forall o {:trigger o in r} :: o in r <==> o.txid == t && o.index < n && outs[o.index].addr in known
    ensures forall o {:trigger r[o]} | o in r :: o.index < n && r[o] == outs[o.index]
  {
    if n == 0 then map[]
    else
      var r := PaidUpTo(t, outs, known, n - 1);
      if outs[n - 1].addr in known then r[Outpoint(t, n - 1) := outs[n - 1]] else r
  }

  function AfterOutputs(c: Content, s: State, t: Txid, known: set<Address>): State {
    if PaidOutputs(c, t, known) == map[] then s
    else State(s.txs + {t}, PaidOutputs(c, t, known) + s.outputs, s.inputs)
  }

  /**
   What processing outputs `outs` of `t` does to each table, spelt out: an output is stored if it was or if it is one of
   `outs` and pays a known address; stored rows keep their value, inputs stay, and `t` is recorded if an output pays.
   */
  ghost predicate OutputsRecorded(s: State, outs: seq<Output>, t: Txid, known: set<Address>, a: State) {
    && (forall o {:trigger o in a.outputs} ::
          o in a.outputs <==> o in s.outputs || (o.txid == t && o.index < |outs| && outs[o.index].addr in known))
    && (forall o | o in a.outputs :: a.outputs[o] == if o in s.outputs then s.outputs[o] else outs[o.index])
    && (forall u {:trigger u in a.txs} ::
          u in a.txs <==> u in s.txs || (u == t && exists i | 0 <= i < |outs| :: outs[i].addr in known))
    && a.inputs == s.inputs
  }

  lemma OutputsSpeltOut(c: Content, s: State, t: Txid, known: set<Address>)
    ensures OutputsRecorded(s, c.outs(t), t, known, AfterOutputs(c, s, t, known))
  {
    var outs, paid := c.outs(t), PaidOutputs(c, t, known);
    if i :| 0 <= i < |outs| && outs[i].addr in known {
      assert Outpoint(t, i) in paid;
    } else {
      assert paid == map[];
    }
  }

  lemma OutputsKeep(c: Content, s: State, t: Txid, known: set<Address>)
    requires Faithful(c, s) && SingleSpender(s)
    ensures Faithful(c, AfterOutputs(c, s, t, known)) && SingleSpender(AfterOutputs(c, s, t, known))
  {
  }

  /** Faithfulness alone needs no single spender. */
  lemma AfterInputsFaithful(c: Content, s: State, t: Txid)
    requires Faithful(c, s)
    ensures Faithful(c, AfterInputs(c, s, t))
  {
    MergeKeeps(c, s, t);
    DeleteKeeps(c, State(s.txs + {t}, s.outputs, s.inputs + OwnInputs(c, s, t)), DoubleSpent(c, s, t));
  }

  lemma AfterOutputsFaithful(c: Content, s: State, t: Txid, known: set<Address>)
    requires Faithful(c, s)
    ensures Faithful(c, AfterOutputs(c, s, t, known))
  {
  }

  // ----- runs of the tracker

  datatype Step = Inputs(t: Txid) | Outputs(t: Txid, known: set<Address>)

  function Apply(c: Content, s: State, e: Step): State {
    match e
    case Inputs(t) => AfterInputs(c, s, t)
    case Outputs(t, known) => AfterOutputs(c, s, t, known)
  }

  function Replay(c: Content, steps: seq<Step>): State {
    if steps == [] then EMPTY else Apply(c, Replay(c, steps[..|steps| - 1]), steps[|steps| - 1])
  }

  /** Whatever transactions arrive, in whatever order and however often, no output has two spenders. */
  lemma {:induction false} SingleSpenderAlways(c: Content, steps: seq<Step>)
    ensures Faithful(c, Replay(c, steps)) && SingleSpender(Replay(c, steps))
    ensures DistinctIns(c) ==> OneRowPerOutput(Replay(c, steps))
  {
    if steps != [] {
      var before := steps[..|steps| - 1];
      SingleSpenderAlways(c, before);
      match steps[|steps| - 1]
      case Inputs(t) => InputsReplaceSpenders(c, Replay(c, before), t);
      case Outputs(t, known) => OutputsKeep(c, Replay(c, before), t, known);
    }
    if DistinctIns(c) { OneRowFromSingleSpender(c, Replay(c, steps)); }
  }

  // ----- the tables

  /** A row of the spend lookup: a stored output asked for, and one transaction spending it, if any. */
  datatype SpendRow = SpendRow(outpoint: Outpoint, spender: Option<Txid>)

  ghost predicate SpendsRecorded(s: State, o: Outpoint, t: Txid) {
    exists k | k in s.inputs :: k.txid == t && s.inputs[k] == o
  }

  ghost predicate Answers(s: State, spends: seq<Outpoint>, rows: seq<SpendRow>) {
    && (forall r | r in rows :: r.outpoint in spends && r.outpoint in s.outputs)
    && (forall o | o in s.outputs && o in spends :: exists r | r in rows :: r.outpoint == o)
    && (forall o, t {:trigger SpendRow(o, Some(t)) in rows} {:trigger SpendsRecorded(s, o, t)} ::
          SpendRow(o, Some(t)) in rows <==> o in spends && o in s.outputs && SpendsRecorded(s, o, t))
  }

  class Db {
    var state: State

    constructor ()
      ensures state == EMPTY
    {
      state := EMPTY;
    }

    /** Stored outputs among the outpoints, left-joined with the inputs that spend them. */
    method GetOutputSpends(spends: seq<Outpoint>) returns (rows: seq<SpendRow>)
      ensures Answers(state, spends, rows)
    {
      var unspent := set o | o in state.outputs && o in spends && o !in state.inputs.Values :: SpendRow(o, None);
      var spent := set k | k in state.inputs && state.inputs[k] in spends && state.inputs[k] in state.outputs ::
                     SpendRow(state.inputs[k], Some(k.txid));
      rows := [];
      var rest := unspent + spent;
      while rest != {}
        invariant rest <= unspent + spent
        invariant forall r :: r in rows <==> r in unspent + spent && r !in rest
        decreases |rest|
      {
        var r :| r in rest;
        rows, rest := rows + [r], rest - {r};
      }
      forall o | o in state.outputs && o in spends
        ensures exists r | r in rows :: r.outpoint == o
      {
        if o in state.inputs.Values {
          var k :| k in state.inputs && state.inputs[k] == o;
          assert SpendRow(o, Some(k.txid)) in spent;
          assert SpendRow(o, Some(k.txid)) in rows;
        } else {
          assert SpendRow(o, None) in unspent;
          assert SpendRow(o, None) in rows;
        }
      }
      forall o, t
        ensures SpendRow(o, Some(t)) in rows <==> o in spends && o in state.outputs && SpendsRecorded(state, o, t)
      {
        if o in spends && o in state.outputs && SpendsRecorded(state, o, t) {
          var k :| k in state.inputs && k.txid == t && state.inputs[k] == o;
          assert SpendRow(state.inputs[k], Some(k.txid)) in spent;
        }
      }
    }

    /** Indexes the inputs of a transaction by outpoint. */
    method IndexInputs(ins: seq<Outpoint>) returns (indexed: map<Outpoint, nat>)
      ensures forall o :: o in indexed <==> o in ins
      ensures forall o | o in indexed :: o in ins && indexed[o] == LastIndex(ins, o)
    {
      indexed := map[];
      for i := 0 to |ins|
        invariant forall o :: o in indexed <==> o in ins[..i]
        invariant forall o | o in indexed :: o in ins[..i] && indexed[o] == LastIndex(ins[..i], o)
      {
        assert ins[..i + 1] == ins[..i] + [ins[i]];
        assert ins[..i + 1][..i] == ins[..i];
        indexed := indexed[ins[i] := i];
      }
      assert ins[..|ins|] == ins;
    }

    /** Prepares the input rows for the outputs found, and lists their other spenders. */
    method PrepareInputs(ghost c: Content, ghost s: State, t: Txid, ins: seq<Outpoint>, indexed: map<Outpoint, nat>,
                         results: seq<SpendRow>)
      returns (inputs: map<InputKey, Outpoint>, doubleSpent: set<Txid>)
      requires ins == c.ins(t) && forall r | r in results :: r.outpoint in ins && r.outpoint in s.outputs
      requires forall o | o in ins :: o in indexed && indexed[o] == LastIndex(ins, o)
      ensures forall k {:trigger k in inputs} ::
                k in inputs <==> IsOwnInput(c, s, t, k) && ins[k.index] in Found(results)
      ensures forall k {:trigger inputs[k]} | k in inputs :: k.index < |ins| && inputs[k] == ins[k.index]
      ensures doubleSpent == OtherSpenders(results, t)
    {
      inputs, doubleSpent := map[], {};
      for i := 0 to |results|
        invariant forall k {:trigger k in inputs} ::
                    k in inputs <==> IsOwnInput(c, s, t, k) && ins[k.index] in Found(results[..i])
        invariant forall k {:trigger inputs[k]} | k in inputs :: k.index < |ins| && inputs[k] == ins[k.index]
        invariant doubleSpent == OtherSpenders(results[..i], t)
      {
        var r := results[i];
        assert r in results && results[..i + 1] == results[..i] + [r];
        FoundMore(results[..i], r, t);
        var index := indexed[r.outpoint];
        assert IsOwnInput(c, s, t, InputKey(t, index));
        inputs := inputs[InputKey(t, index) := r.outpoint];
        // Someone else spent it before
        if r.spender.Some? && r.spender.value != t {
          doubleSpent := doubleSpent + {r.spender.value};
        }
      }
      assert results[..|results|] == results;
    }

    /** Records the inputs of interest and drops every transaction that spent one of their outputs before. */
    method ProcessInputs(ghost c: Content, t: Txid, ins: seq<Outpoint>)
      requires ins == c.ins(t)
      modifies this
      ensures state == AfterInputs(c, old(state), t)
      ensures InputsRecorded(old(state), ins, t, state)
    {
      var indexed := IndexInputs(ins);
      // Which stored outputs does it spend?
      var results := GetOutputSpends(ins);
      ghost var s := state;
      ResultsAreSpends(c, s, t, results);
      if |results| == 0 {
        InputsSpeltOut(c, s, t);
        return;
      }
      assert results[0] in results;
      var inputs, doubleSpent := PrepareInputs(c, s, t, ins, indexed, results);
      assert inputs == OwnInputs(c, s, t);
      // The transaction is recorded as their spender
      state := State(state.txs + {t}, state.outputs, state.inputs + inputs);
      // Earlier spenders go, with all their rows
      if doubleSpent != {} {
        state := DeleteTxs(state, doubleSpent);
      } else {
        DeleteNothing(state);
      }
      InputsSpeltOut(c, s, t);
    }

    /** Stores the outputs paying known addresses. */
    method ProcessOutputs(ghost c: Content, t: Txid, outs: seq<Output>, known: set<Address>)
      requires outs == c.outs(t)
      modifies this
      ensures state == AfterOutputs(c, old(state), t, known)
      ensures OutputsRecorded(old(state), outs, t, known, state)
    {
      OutputsSpeltOut(c, state, t, known);
      var funded: map<Outpoint, Output> := map[];
      for i := 0 to |outs|
        invariant funded == PaidUpTo(t, outs, known, i)
      {
        if outs[i].addr in known { funded := funded[Outpoint(t, i) := outs[i]]; }
      }
      if funded == map[] {
        return;
      }
      // INSERT IGNORE: rows that exist are kept
      state := State(state.txs + {t}, funded + state.outputs, state.inputs);
    }
  }

  function Found(rows: seq<SpendRow>): set<Outpoint> {
    set r | r in rows :: r.outpoint
  }

  function OtherSpenders(rows: seq<SpendRow>, t: Txid): set<Txid> {
    set r | r in rows && r.spender.Some? && r.spender.value != t :: r.spender.value
  }

  lemma FoundMore(rows: seq<SpendRow>, r: SpendRow, t: Txid)
    ensures Found(rows + [r]) == Found(rows) + {r.outpoint}
    ensures OtherSpenders(rows + [r], t) ==
            OtherSpenders(rows, t) + (if r.spender.Some? && r.spender.value != t then {r.spender.value} else {})
  {
  }

  lemma DeleteNothing(s: State)
    ensures DeleteTxs(s, {}) == s
  {
  }

  /** The lookup finds the spent outputs and the earlier spenders. */
  lemma ResultsAreSpends(c: Content, s: State, t: Txid, rows: seq<SpendRow>)
    requires Answers(s, c.ins(t), rows)
    ensures Found(rows) == Spent(c, s, t) && OtherSpenders(rows, t) == DoubleSpent(c, s, t)
  {
    forall u | u in OtherSpenders(rows, t)
      ensures u in DoubleSpent(c, s, t)
    {
      var r :| r in rows && r.spender == Some(u) && u != t;
      assert SpendRow(r.outpoint, Some(u)) in rows && SpendsRecorded(s, r.outpoint, u);
    }
    forall u | u in DoubleSpent(c, s, t)
      ensures u in OtherSpenders(rows, t)
    {
      var k :| k in s.inputs && s.inputs[k] in Spent(c, s, t) && k.txid != t && k.txid == u;
      assert SpendsRecorded(s, s.inputs[k], u);
      assert SpendRow(s.inputs[k], Some(u)) in rows;
    }
  }
}
