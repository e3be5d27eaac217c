/**
 Bulk import of transactions: all transactions are stored first, then all outputs, then all inputs, each
 phase in chunks. The result only depends on which transactions were imported.
 */
module LedgerImport {
  import opened Util
  import opened Ledger
  import opened ImportConfirmations

  ghost predicate Genuine(c: Content, txs: seq<Prepared>) {
    forall p | p in txs :: p.ins == c.ins(p.txid) && p.outs == c.outs(p.txid)
  }

  function Ids(txs: seq<Prepared>): set<Txid> {
    set p | p in txs :: p.txid
  }

  // ----- the result, as a function of the set of imported transactions

  ghost predicate Pays(c: Content, o: Outpoint, known: set<Address>) {
    o.index < |c.outs(o.txid)| && c.outs(o.txid)[o.index].addr in known
  }

  ghost predicate Links(c: Content, outputs: map<Outpoint, Output>, k: InputKey) {
    k.index < |c.ins(k.txid)| && c.ins(k.txid)[k.index] in outputs
  }

  /** Output rows: those there were, and the imported outputs that pay a known address. */
  ghost predicate HasOutputs(c: Content, before: map<Outpoint, Output>, ids: set<Txid>, known: set<Address>,
                             after: map<Outpoint, Output>) {
    && (forall o {:trigger o in after} :: o in after <==> o in before || (o.txid in ids && Pays(c, o, known)))
    && (forall o {:trigger after[o]} | o in after ::
          if o in before then after[o] == before[o]
          else o.index < |c.outs(o.txid)| && after[o] == c.outs(o.txid)[o.index])
  }

  /** Input rows: those there were, and every imported input that spends a stored output. */
  ghost predicate HasInputs(c: Content, before: map<InputKey, Outpoint>, ids: set<Txid>, outputs: map<Outpoint, Output>,
                            after: map<InputKey, Outpoint>) {
    && (forall k {:trigger k in after} :: k in after <==> k in before || (k.txid in ids && Links(c, outputs, k)))
    && (forall k {:trigger after[k]} | k in after ::
          if k.txid in ids && Links(c, outputs, k) then after[k] == c.ins(k.txid)[k.index]
          else k in before && after[k] == before[k])
  }

  ghost predicate IsImport(c: Content, s: State, ids: set<Txid>, known: set<Address>, a: State) {
    && a.txs == s.txs + ids
    && HasOutputs(c, s.outputs, ids, known, a.outputs)
    && HasInputs(c, s.inputs, ids, a.outputs, a.inputs)
  }

  /** The set of imported transactions decides the result: order, repetition and chunk boundaries do not. */
  lemma ImportIsDetermined(c: Content, s: State, ids: set<Txid>, known: set<Address>, a: State, b: State)
    requires IsImport(c, s, ids, known, a) && IsImport(c, s, ids, known, b)
    ensures a == b
  {
  }

  /** Imported rows stay faithful, and every imported input of a stored output is linked to it. */
  lemma ImportLinksEverything(c: Content, s: State, ids: set<Txid>, known: set<Address>, a: State)
    requires Faithful(c, s) && IsImport(c, s, ids, known, a)
    ensures Faithful(c, a)
    ensures forall t, i {:trigger InputKey(t, i) in a.inputs} |
              t in ids && 0 <= i < |c.ins(t)| && c.ins(t)[i] in a.outputs ::
              InputKey(t, i) in a.inputs && a.inputs[InputKey(t, i)] == c.ins(t)[i]
  {
  }

  // ----- conflicts

  /** `t`, imported or already recorded, spends the stored output. */
  ghost predicate WillSpend(c: Content, s: State, ids: set<Txid>, t: Txid, o: Outpoint) {
    (t in ids && o in c.ins(t)) || SpendsRecorded(s, o, t)
  }

  /** No two of the imported and recorded transactions spend one output stored at the end of the import. */
  ghost predicate WithoutConflict(c: Content, s: State, ids: set<Txid>, known: set<Address>) {
    forall o, t, u {:trigger WillSpend(c, s, ids, t, o), WillSpend(c, s, ids, u, o)} |
      (o in s.outputs || (o.txid in ids && Pays(c, o, known))) &&
      WillSpend(c, s, ids, t, o) && WillSpend(c, s, ids, u, o) :: t == u
  }

  /**
   Unlike the tracker, the import does not replace earlier spenders: it keeps the single-spender invariant
   exactly when no imported transaction shares an output to be stored with another spender.
   */
  lemma ImportSingleSpenderIff(c: Content, s: State, ids: set<Txid>, known: set<Address>, a: State)
    requires Faithful(c, s) && IsImport(c, s, ids, known, a)
    ensures SingleSpender(a) <==> WithoutConflict(c, s, ids, known)
  {
    ImportLinksEverything(c, s, ids, known, a);
    forall o, t
      ensures o in a.outputs && WillSpend(c, s, ids, t, o) <==> SpendsRecorded(a, o, t)
    {
      SpendsAfterImport(c, s, ids, known, a, o, t);
    }
    if SingleSpender(a) {
      forall o, t, u | (o in s.outputs || (o.txid in ids && Pays(c, o, known))) &&
                       WillSpend(c, s, ids, t, o) && WillSpend(c, s, ids, u, o)
        ensures t == u
      {
        assert o in a.outputs;
        assert SpendsRecorded(a, o, t) && SpendsRecorded(a, o, u);
      }
    } else {
      var j, k :| j in a.inputs && k in a.inputs && a.inputs[j] == a.inputs[k] && j.txid != k.txid;
      var o := a.inputs[j];
      assert SpendsRecorded(a, o, j.txid) && SpendsRecorded(a, o, k.txid);
      assert WillSpend(c, s, ids, j.txid, o) && WillSpend(c, s, ids, k.txid, o) && o in a.outputs;
    }
  }

  lemma SpendsAfterImport(c: Content, s: State, ids: set<Txid>, known: set<Address>, a: State, o: Outpoint, t: Txid)
    requires Faithful(c, s) && Faithful(c, a) && IsImport(c, s, ids, known, a)
    ensures o in a.outputs && WillSpend(c, s, ids, t, o) <==> SpendsRecorded(a, o, t)
  {
    if o in a.outputs && t in ids && o in c.ins(t) {
      var i :| 0 <= i < |c.ins(t)| && c.ins(t)[i] == o;
      assert Links(c, a.outputs, InputKey(t, i)) && InputKey(t, i) in a.inputs;
      assert a.inputs[InputKey(t, i)] == o;
    } else if o in a.outputs && SpendsRecorded(s, o, t) {
      var k :| k in s.inputs && k.txid == t && s.inputs[k] == o;
      assert InputRowOk(c, s, k) && k in a.inputs;
      assert a.inputs[k] == o;
    }
    if SpendsRecorded(a, o, t) {
      var k :| k in a.inputs && k.txid == t && a.inputs[k] == o;
      assert InputRowOk(c, a, k);
    }
  }

  // ----- the importer

  function LinkedUpTo(t: Txid, ins: seq<Outpoint>, spent: set<Outpoint>, n: nat): (r: map<InputKey, Outpoint>)
    requires n <= |ins|
    ensures forall k {:trigger k in r} :: k in r <==> k.txid == t && k.index < n && ins[k.index] in spent
    ensures forall k {:trigger r[k]} | k in r :: k.index < n && r[k] == ins[k.index]
  {
    if n == 0 then map[]
    else
      var r := LinkedUpTo(t, ins, spent, n - 1);
      if ins[n - 1] in spent then r[InputKey(t, n - 1) := ins[n - 1]] else r
  }

  /** Stores the transactions of a chunk and confirms those whose block is stored. */
  method AddTransactions(db: Db, links: BlockLinks, txs: seq<Prepared>)
    modifies db, links
    ensures db.state == old(db.state).(txs := old(db.state).txs + Ids(txs))
    ensures ChunkLinks(old(links.confirmed), txs, links.stored, links.confirmed)
  {
    db.state := db.state.(txs := db.state.txs + Ids(txs));
    ConfirmChunk(links, txs);
  }

  method AddOutputs(db: Db, ghost c: Content, txs: seq<Prepared>, known: set<Address>)
    requires Genuine(c, txs)
    modifies db
    ensures db.state == old(db.state).(outputs := db.state.outputs)
    ensures HasOutputs(c, old(db.state).outputs, Ids(txs), known, db.state.outputs)
  {
    var rows: map<Outpoint, Output> := map[];
    for i := 0 to |txs|
      invariant db.state == old(db.state) && HasOutputs(c, map[], Ids(txs[..i]), known, rows)
    {
      IdsMore(txs, i);
      assert txs[i] in txs;
      rows := rows + PaidUpTo(txs[i].txid, txs[i].outs, known, |txs[i].outs|);
    }
    assert txs[..|txs|] == txs;
    // INSERT IGNORE: rows that exist are kept
    db.state := db.state.(outputs := rows + db.state.outputs);
  }

  method AddInputs(db: Db, ghost c: Content, txs: seq<Prepared>)
    requires Genuine(c, txs)
    modifies db
    ensures db.state == old(db.state).(inputs := db.state.inputs)
    ensures HasInputs(c, old(db.state).inputs, Ids(txs), db.state.outputs, db.state.inputs)
  {
    // The stored outputs that some input of the chunk spends
    var spent := set p, o | p in txs && o in p.ins && o in db.state.outputs :: o;
    var rows: map<InputKey, Outpoint> := map[];
    for i := 0 to |txs|
      invariant db.state == old(db.state) && HasInputs(c, map[], Ids(txs[..i]), db.state.outputs, rows)
    {
      IdsMore(txs, i);
      assert txs[i] in txs;
      ghost var linked := LinkedUpTo(txs[i].txid, txs[i].ins, spent, |txs[i].ins|);
      forall k
        ensures k in linked <==> k.txid == txs[i].txid && Links(c, db.state.outputs, k)
      {
        if k.index < |txs[i].ins| { assert txs[i].ins[k.index] in txs[i].ins; }
      }
      rows := rows + LinkedUpTo(txs[i].txid, txs[i].ins, spent, |txs[i].ins|);
    }
    assert txs[..|txs|] == txs;
    // Upsert: the recorded outpoint is overwritten
    db.state := db.state.(inputs := db.state.inputs + rows);
  }

  lemma IdsMore(txs: seq<Prepared>, i: nat)
    requires i < |txs|
    ensures Ids(txs[..i + 1]) == Ids(txs[..i]) + {txs[i].txid}
  {
  }

  lemma IdsAppend(a: seq<Prepared>, b: seq<Prepared>)
    ensures Ids(a + b) == Ids(a) + Ids(b)
  {
  }

  lemma OutputsCompose(c: Content, a: map<Outpoint, Output>, p: set<Txid>, q: set<Txid>, known: set<Address>,
                       b: map<Outpoint, Output>, d: map<Outpoint, Output>)
    requires HasOutputs(c, a, p, known, b) && HasOutputs(c, b, q, known, d)
    ensures HasOutputs(c, a, p + q, known, d)
  {
  }

  lemma InputsCompose(c: Content, outputs: map<Outpoint, Output>, a: map<InputKey, Outpoint>,
                      p: set<Txid>, q: set<Txid>, b: map<InputKey, Outpoint>, d: map<InputKey, Outpoint>)
    requires HasInputs(c, a, p, outputs, b) && HasInputs(c, b, q, outputs, d)
    ensures HasInputs(c, a, p + q, outputs, d)
  {
  }

  lemma ChunkGenuine(c: Content, txs: seq<Prepared>, chunks: seq<seq<Prepared>>, i: nat)
    requires Genuine(c, txs) && Flatten(chunks) == txs && i < |chunks|
    ensures Genuine(c, chunks[i])
  {
    forall p | p in chunks[i] ensures p in txs { InFlatten(chunks, i, p); }
  }

  method OutputPhase(db: Db, ghost c: Content, ghost txs: seq<Prepared>, chunks: seq<seq<Prepared>>,
                     known: set<Address>)
    requires Genuine(c, txs) && Flatten(chunks) == txs
    modifies db
    ensures db.state == old(db.state).(outputs := db.state.outputs)
    ensures HasOutputs(c, old(db.state).outputs, Ids(txs), known, db.state.outputs)
  {
    assert chunks[..0] == [];
    for i := 0 to |chunks|
      invariant db.state == old(db.state).(outputs := db.state.outputs)
      invariant HasOutputs(c, old(db.state).outputs, Ids(Flatten(chunks[..i])), known, db.state.outputs)
    {
      FlattenSnoc(chunks, i);
      IdsAppend(Flatten(chunks[..i]), chunks[i]);
      ChunkGenuine(c, txs, chunks, i);
      ghost var mid := db.state.outputs;
      AddOutputs(db, c, chunks[i], known);
      OutputsCompose(c, old(db.state).outputs, Ids(Flatten(chunks[..i])), Ids(chunks[i]), known, mid, db.state.outputs);
    }
    assert chunks[..|chunks|] == chunks;
  }

  method InputPhase(db: Db, ghost c: Content, ghost txs: seq<Prepared>, chunks: seq<seq<Prepared>>)
    requires Genuine(c, txs) && Flatten(chunks) == txs
    modifies db
    ensures db.state == old(db.state).(inputs := db.state.inputs)
    ensures HasInputs(c, old(db.state).inputs, Ids(txs), db.state.outputs, db.state.inputs)
  {
    assert chunks[..0] == [];
    for i := 0 to |chunks|
      invariant db.state == old(db.state).(inputs := db.state.inputs)
      invariant HasInputs(c, old(db.state).inputs, Ids(Flatten(chunks[..i])), db.state.outputs, db.state.inputs)
    {
      FlattenSnoc(chunks, i);
      IdsAppend(Flatten(chunks[..i]), chunks[i]);
      ChunkGenuine(c, txs, chunks, i);
      ghost var mid := db.state.inputs;
      AddInputs(db, c, chunks[i]);
      InputsCompose(c, db.state.outputs, old(db.state).inputs, Ids(Flatten(chunks[..i])), Ids(chunks[i]), mid,
                    db.state.inputs);
    }
    assert chunks[..|chunks|] == chunks;
  }

  method TransactionPhase(db: Db, links: BlockLinks, chunks: seq<seq<Prepared>>)
    modifies db, links
    ensures db.state == old(db.state).(txs := old(db.state).txs + Ids(Flatten(chunks)))
    ensures PhaseLinks(old(links.confirmed), chunks, links.stored, links.confirmed)
  {
    ghost var s, before := db.state, links.confirmed;
    assert chunks[..0] == [];
    for i := 0 to |chunks|
      invariant db.state == s.(txs := s.txs + Ids(Flatten(chunks[..i])))
      invariant PhaseLinks(before, chunks[..i], links.stored, links.confirmed)
    {
      FlattenSnoc(chunks, i);
      IdsAppend(Flatten(chunks[..i]), chunks[i]);
      ghost var mid := links.confirmed;
      AddTransactions(db, links, chunks[i]);
      OneMoreChunk(before, chunks, i, links.stored, mid, links.confirmed);
    }
    assert chunks[..|chunks|] == chunks;
  }

  /** How the three phases cut their transactions. */
  datatype Cuts = Cuts(transactions: seq<seq<Prepared>>, outputs: seq<seq<Prepared>>, inputs: seq<seq<Prepared>>)

  ghost predicate CutsOf(cuts: Cuts, txs: seq<Prepared>) {
    Flatten(cuts.transactions) == txs && Flatten(cuts.outputs) == txs && Flatten(cuts.inputs) == txs
  }

  /**
   The three phases, however each is cut: the tables are those the set of transactions determines, and each
   transaction is confirmed in the block of a copy in the last chunk that has one in a stored block.
   */
  method ImportPhases(db: Db, links: BlockLinks, ghost c: Content, ghost txs: seq<Prepared>, cuts: Cuts,
                      known: set<Address>)
    requires Genuine(c, txs) && CutsOf(cuts, txs)
    modifies db, links
    ensures IsImport(c, old(db.state), Ids(txs), known, db.state)
    ensures PhaseLinks(old(links.confirmed), cuts.transactions, links.stored, links.confirmed)
  {
    TransactionPhase(db, links, cuts.transactions);
    OutputPhase(db, c, txs, cuts.outputs, known);
    InputPhase(db, c, txs, cuts.inputs);
  }

  /** The import, in batches of 200. */
  method ImportTransactions(db: Db, links: BlockLinks, ghost c: Content, txs: seq<Prepared>, known: set<Address>)
    requires Genuine(c, txs)
    modifies db, links
    ensures IsImport(c, old(db.state), Ids(txs), known, db.state)
    ensures PhaseLinks(old(links.confirmed), Chunks(txs, 200), links.stored, links.confirmed)
  {
    var txsChunks := SplitList(txs, 200);
    ChunksPartition(txs, 200);
    ImportPhases(db, links, c, txs, Cuts(txsChunks, txsChunks, txsChunks), known);
  }

  /**
   Two imports of the same transactions, however ordered, repeated or cut, leave the same tables, and the
   same confirmations if the copies agree on the stored blocks they name.
   */
  method ImportTwice(first: Db, second: Db, links: BlockLinks, others: BlockLinks, ghost c: Content,
                     ghost txs: seq<Prepared>, ghost permuted: seq<Prepared>,
                     cuts: Cuts, otherCuts: Cuts, known: set<Address>)
    requires first != second && first.state == second.state
    requires links != others && links.stored == others.stored && links.confirmed == others.confirmed
    requires Genuine(c, txs) && SameCopies(permuted, txs)
    requires CutsOf(cuts, txs) && CutsOf(otherCuts, permuted)
    modifies first, second, links, others
    ensures first.state == second.state
    ensures Agree(txs, links.stored) ==> links.confirmed == others.confirmed
  {
    ghost var s, confirmed := first.state, links.confirmed;
    ImportPhases(first, links, c, txs, cuts, known);
    ImportPhases(second, others, c, permuted, otherCuts, known);
    assert Ids(txs) == Ids(permuted);
    ImportIsDetermined(c, s, Ids(txs), known, first.state, second.state);
    if Agree(txs, links.stored) {
      AgreeingOrders(confirmed, txs, links.stored, cuts.transactions, otherCuts.transactions,
                     links.confirmed, others.confirmed);
    }
  }

  // ----- the tracker and imports on one ledger

  /** A step of the tracker, or an import of transactions while some addresses are known. */
  datatype AnyStep = Track(step: Step) | Import(ids: set<Txid>, known: set<Address>)

  ghost predicate Leads(c: Content, s: State, e: AnyStep, n: State) {
    match e
    case Track(step) => n == Apply(c, s, step)
    case Import(ids, known) => IsImport(c, s, ids, known, n)
  }

  ghost predicate LeadsAt(c: Content, states: seq<State>, steps: seq<AnyStep>, i: nat)
    requires i < |steps| && |states| == |steps| + 1
  {
    Leads(c, states[i], steps[i], states[i + 1])
  }

  ghost predicate IsMixedRun(c: Content, states: seq<State>, steps: seq<AnyStep>) {
    && |states| == |steps| + 1 && states[0] == EMPTY
    && forall i {:trigger LeadsAt(c, states, steps, i)} | 0 <= i < |steps| :: LeadsAt(c, states, steps, i)
  }

  ghost predicate Harmless(c: Content, s: State, e: AnyStep) {
    e.Import? ==> WithoutConflict(c, s, e.ids, e.known)
  }

  /** Any step keeps the ledger faithful; it keeps single spenders exactly if it is not a conflicting import. */
  lemma LeadsKeeps(c: Content, s: State, e: AnyStep, n: State)
    requires Faithful(c, s) && Leads(c, s, e, n)
    ensures Faithful(c, n)
    ensures SingleSpender(s) ==> (SingleSpender(n) <==> Harmless(c, s, e))
  {
    match e
    case Import(ids, known) =>
      ImportLinksEverything(c, s, ids, known, n);
      ImportSingleSpenderIff(c, s, ids, known, n);
    case Track(Inputs(t)) =>
      AfterInputsFaithful(c, s, t);
      if SingleSpender(s) { InputsReplaceSpenders(c, s, t); }
    case Track(Outputs(t, known)) =>
      AfterOutputsFaithful(c, s, t, known);
      if SingleSpender(s) { OutputsKeep(c, s, t, known); }
  }

  lemma {:induction false} MixedFaithful(c: Content, states: seq<State>, steps: seq<AnyStep>, i: nat)
    requires IsMixedRun(c, states, steps) && i <= |steps|
    ensures Faithful(c, states[i])
  {
    if i > 0 {
      MixedFaithful(c, states, steps, i - 1);
      assert LeadsAt(c, states, steps, i - 1);
      LeadsKeeps(c, states[i - 1], steps[i - 1], states[i]);
    }
  }

  lemma {:induction false} MixedSingle(c: Content, states: seq<State>, steps: seq<AnyStep>, i: nat)
    requires IsMixedRun(c, states, steps) && i <= |steps|
    requires forall j | 0 <= j < |steps| :: Harmless(c, states[j], steps[j])
    ensures SingleSpender(states[i])
  {
    if i > 0 {
      MixedSingle(c, states, steps, i - 1);
      MixedFaithful(c, states, steps, i - 1);
      assert LeadsAt(c, states, steps, i - 1);
      LeadsKeeps(c, states[i - 1], steps[i - 1], states[i]);
    }
  }

  /**
   Single spenders over every run of tracker steps and imports: no stored output ever has two spenders if
   and only if every import of the run is free of conflicts with what is recorded when it begins.
   */
  lemma SingleSpenderRunIff(c: Content, states: seq<State>, steps: seq<AnyStep>)
    requires IsMixedRun(c, states, steps)
    ensures (forall i | 0 <= i <= |steps| :: SingleSpender(states[i]))
            <==> (forall j | 0 <= j < |steps| :: Harmless(c, states[j], steps[j]))
  {
    if forall j | 0 <= j < |steps| :: Harmless(c, states[j], steps[j]) {
      forall i | 0 <= i <= |steps|
        ensures SingleSpender(states[i])
      {
        MixedSingle(c, states, steps, i);
      }
    } else {
      var j :| 0 <= j < |steps| && !Harmless(c, states[j], steps[j]);
      MixedFaithful(c, states, steps, j);
      assert LeadsAt(c, states, steps, j);
      LeadsKeeps(c, states[j], steps[j], states[j + 1]);
    }
  }

  /** An import can leave an output with two spenders: here a stored one and an imported one. */
  lemma ImportCanDoubleSpend(a: State)
    requires IsImport(DOUBLE_SPEND, STORED_SPENDER, {"new"}, {}, a)
    ensures Faithful(DOUBLE_SPEND, STORED_SPENDER) && SingleSpender(STORED_SPENDER) && !SingleSpender(a)
  {
    StoredSpenderIsSound();
    var o := Outpoint("funding", 0);
    var recorded, imported := InputKey("old", 0), InputKey("new", 0);
    assert Links(DOUBLE_SPEND, a.outputs, imported);
    assert recorded in a.inputs && a.inputs[recorded] == o;
    assert imported in a.inputs && a.inputs[imported] == o;
  }

  lemma StoredSpenderIsSound()
    ensures Faithful(DOUBLE_SPEND, STORED_SPENDER) && SingleSpender(STORED_SPENDER)
  {
  }

  const DOUBLE_SPEND := Content(
    t => if t == "old" || t == "new" then [Outpoint("funding", 0)] else [],
    t => if t == "funding" then [Output("address", 1)] else [])

  const STORED_SPENDER := State(
    {"funding", "old"},
    map[Outpoint("funding", 0) := Output("address", 1)],
    map[InputKey("old", 0) := Outpoint("funding", 0)])
}
