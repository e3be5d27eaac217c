/**
 Balances against histories: the sum of an account's unspent outputs, the signed results of its
 transactions, and the running balance that must reach zero below the oldest one.
 */
module Balance {
  import opened Ledger

  // ----- sums over finite sets

  ghost function Sum<T(!new)>(s: set<T>, f: T -> int): int {
    if s == {} then 0 else var x :| x in s; f(x) + Sum(s - {x}, f)
  }

  /** The order of summation is irrelevant. */
  lemma {:induction false} SumRemove<T(!new)>(s: set<T>, f: T -> int, x: T)
    requires x in s
    ensures Sum(s, f) == f(x) + Sum(s - {x}, f)
    decreases |s|
  {
    var y :| y in s && Sum(s, f) == f(y) + Sum(s - {y}, f);
    if y != x {
      SumRemove(s - {y}, f, x);
      SumRemove(s - {x}, f, y);
      assert s - {y} - {x} == s - {x} - {y};
    }
  }

  lemma {:induction false} SumUnion<T(!new)>(a: set<T>, b: set<T>, f: T -> int)
    requires a !! b
    ensures Sum(a + b, f) == Sum(a, f) + Sum(b, f)
    decreases |a|
  {
    if a == {} {
      assert a + b == b;
    } else {
      var x :| x in a;
      SumRemove(a, f, x);
      SumRemove(a + b, f, x);
      assert a + b - {x} == (a - {x}) + b;
      SumUnion(a - {x}, b, f);
    }
  }

  lemma {:induction false} SumConstant<T(!new)>(s: set<T>, f: T -> int, v: int)
    requires forall x | x in s :: f(x) == v
    ensures Sum(s, f) == |s| * v
    decreases |s|
  {
    if s != {} {
      var x :| x in s;
      SumRemove(s, f, x);
      SumConstant(s - {x}, f, v);
    }
  }

  lemma {:induction false} SumZeroIff<T(!new)>(s: set<T>, f: T -> int)
    requires forall x | x in s :: f(x) >= 0
    ensures Sum(s, f) >= 0
    ensures Sum(s, f) == 0 <==> forall x | x in s :: f(x) == 0
    decreases |s|
  {
    if s != {} {
      var x :| x in s;
      SumRemove(s, f, x);
      SumZeroIff(s - {x}, f);
    }
  }

  lemma {:induction false} SumSame<T(!new)>(s: set<T>, f: T -> int, g: T -> int)
    requires forall x | x in s :: f(x) == g(x)
    ensures Sum(s, f) == Sum(s, g)
    decreases |s|
  {
    if s != {} {
      var x :| x in s;
      SumRemove(s, f, x);
      SumRemove(s, g, x);
      SumSame(s - {x}, f, g);
    }
  }

  lemma {:induction false} SumNegated<T(!new)>(s: set<T>, f: T -> int, g: T -> int)
    requires forall x | x in s :: g(x) == -f(x)
    ensures Sum(s, g) == -Sum(s, f)
    decreases |s|
  {
    if s != {} {
      var x :| x in s;
      SumRemove(s, f, x);
      SumRemove(s, g, x);
      SumNegated(s - {x}, f, g);
    }
  }

  /** The sum of the values of a map. */
  ghost function Total<K(!new)>(m: map<K, int>): int {
    Sum(m.Keys, k => if k in m then m[k] else 0)
  }

  lemma TotalIsSum<K(!new)>(m: map<K, int>, s: set<K>, f: K -> int)
    requires m.Keys == s && forall k | k in s :: m[k] == f(k)
    ensures Total(m) == Sum(s, f)
  {
    SumSame(s, k => if k in m then m[k] else 0, f);
  }

  /** Elements outside the map add nothing. */
  lemma TotalIsSparseSum<K(!new)>(m: map<K, int>, s: set<K>, f: K -> int)
    requires m.Keys <= s && forall k | k in s :: f(k) == if k in m then m[k] else 0
    ensures Total(m) == Sum(s, f)
  {
    SumConstant(s - m.Keys, f, 0);
    SumUnion(m.Keys, s - m.Keys, f);
    assert s == m.Keys + (s - m.Keys);
    TotalIsSum(m, m.Keys, f);
  }

  // ----- an account's outputs and the inputs that spend them

  /** Stored outputs paying one of the account's addresses. */
  function Owned(s: State, account: set<Address>): set<Outpoint> {
    set o | o in s.outputs && s.outputs[o].addr in account
  }

  function InputsOf(s: State, o: Outpoint): set<InputKey> {
    set k | k in s.inputs && s.inputs[k] == o
  }

  function InputsOn(s: State, owned: set<Outpoint>): set<InputKey> {
    set k | k in s.inputs && s.inputs[k] in owned
  }

  function Amount(s: State): Outpoint -> int {
    o => if o in s.outputs then s.outputs[o].amount else 0
  }

  function SpentAmount(s: State): InputKey -> int {
    k => if k in s.inputs then Amount(s)(s.inputs[k]) else 0
  }

  /** What the balance query adds up: an output counts if no input row joins it. */
  function UnspentAmount(s: State): Outpoint -> int {
    o => if InputsOf(s, o) == {} then Amount(s)(o) else 0
  }

  /** What additional input rows of one output subtract a second time. */
  function ExcessAmount(s: State): Outpoint -> int {
    o => if InputsOf(s, o) == {} then 0 else (|InputsOf(s, o)| - 1) * Amount(s)(o)
  }

  /** Credits minus debits of an account are its unspent sum, less what extra input rows debit again. */
  lemma {:induction false} Conservation(s: State, owned: set<Outpoint>)
    ensures Sum(owned, Amount(s)) - Sum(InputsOn(s, owned), SpentAmount(s))
         == Sum(owned, UnspentAmount(s)) - Sum(owned, ExcessAmount(s))
    decreases |owned|
  {
    if owned == {} {
      assert InputsOn(s, owned) == {};
    } else {
      var o :| o in owned;
      var rest := owned - {o};
      Conservation(s, rest);
      SumRemove(owned, Amount(s), o);
      SumRemove(owned, UnspentAmount(s), o);
      SumRemove(owned, ExcessAmount(s), o);
      assert InputsOn(s, owned) == InputsOn(s, rest) + InputsOf(s, o);
      SumUnion(InputsOn(s, rest), InputsOf(s, o), SpentAmount(s));
      OneOutput(s, o);
    }
  }

  /** The same for one output: what it credits less what its input rows debit. */
  lemma OneOutput(s: State, o: Outpoint)
    ensures Amount(s)(o) - Sum(InputsOf(s, o), SpentAmount(s)) == UnspentAmount(s)(o) - ExcessAmount(s)(o)
  {
    SumConstant(InputsOf(s, o), SpentAmount(s), Amount(s)(o));
    var n, amount := |InputsOf(s, o)|, Amount(s)(o);
    if n == 0 { assert InputsOf(s, o) == {}; } else { assert amount - n * amount == -((n - 1) * amount); }
  }

  /** Extra rows matter exactly when some owned output of positive amount has more than one. */
  lemma ExcessZeroIff(s: State, owned: set<Outpoint>)
    ensures Sum(owned, ExcessAmount(s)) == 0 <==>
            forall o | o in owned :: |InputsOf(s, o)| <= 1 || Amount(s)(o) == 0
  {
    forall o | o in owned
      ensures ExcessAmount(s)(o) >= 0
      ensures ExcessAmount(s)(o) == 0 <==> |InputsOf(s, o)| <= 1 || Amount(s)(o) == 0
    {
      var n, amount := |InputsOf(s, o)|, Amount(s)(o);
      assert amount >= 0;
      if n > 0 { assert InputsOf(s, o) != {}; ProductZero(n - 1, amount); }
    }
    SumZeroIff(owned, ExcessAmount(s));
  }

  lemma ProductZero(a: nat, b: nat)
    ensures a * b >= 0 && (a * b == 0 <==> a == 0 || b == 0)
  {
  }

  lemma AtMostOneIff<T>(s: set<T>)
    ensures |s| <= 1 <==> forall x, y | x in s && y in s :: x == y
  {
    if x :| x in s {
      assert |s - {x}| == |s| - 1;
      if s - {x} == {} { assert s == {x}; }
      else { var y :| y in s - {x}; }
    }
  }

  /** The same in terms of rows: no two input rows spend one output of the account with a positive amount. */
  lemma NoExcessIff(s: State, account: set<Address>)
    ensures Sum(Owned(s, account), ExcessAmount(s)) == 0 <==>
            forall j, k {:trigger s.inputs[j], s.inputs[k]} |
              && j in s.inputs && k in s.inputs && s.inputs[j] == s.inputs[k] && s.inputs[j] in s.outputs
              && s.outputs[s.inputs[j]].addr in account && s.outputs[s.inputs[j]].amount > 0 ::
              j == k
  {
    ExcessZeroIff(s, Owned(s, account));
    forall o | o in Owned(s, account)
      ensures |InputsOf(s, o)| <= 1 <==> forall j, k | j in InputsOf(s, o) && k in InputsOf(s, o) :: j == k
    {
      AtMostOneIff(InputsOf(s, o));
    }
    if j, k :| j in s.inputs && k in s.inputs && s.inputs[j] == s.inputs[k] && s.inputs[j] in s.outputs &&
               s.outputs[s.inputs[j]].addr in account && s.outputs[s.inputs[j]].amount > 0 && j != k {
      assert s.inputs[j] in Owned(s, account);
      assert j in InputsOf(s, s.inputs[j]) && k in InputsOf(s, s.inputs[j]);
    }
  }

  // ----- the history rows and their assembly

  /** A row of the history query: an output received, or an input spending one. */
  datatype Row = Received(txid: Txid, amount: nat) | Spending(txid: Txid, amount: nat)

  function Signed(r: Row): int {
    var amount: int := r.amount;
    if r.Received? then amount else -amount
  }

  function SignedSum(rows: seq<Row>): int {
    if rows == [] then 0 else SignedSum(rows[..|rows| - 1]) + Signed(rows[|rows| - 1])
  }

  datatype ApiTx = ApiTx(hash: Txid, time: nat, result: int)

  function ResultSum(txs: seq<ApiTx>): int {
    if txs == [] then 0 else ResultSum(txs[..|txs| - 1]) + txs[|txs| - 1].result
  }

  /** The signed rows of one transaction. */
  function ResultOf(rows: seq<Row>, t: Txid): int {
    if rows == [] then 0
    else ResultOf(rows[..|rows| - 1], t) + (if rows[|rows| - 1].txid == t then Signed(rows[|rows| - 1]) else 0)
  }

  lemma {:induction false} ResultSumAppend(a: seq<ApiTx>, b: seq<ApiTx>)
    ensures ResultSum(a + b) == ResultSum(a) + ResultSum(b)
    decreases |b|
  {
    if b == [] {
      assert a + b == a;
    } else {
      ResultSumAppend(a, b[..|b| - 1]);
      assert (a + b)[..|a + b| - 1] == a + b[..|b| - 1];
    }
  }

  lemma ResultSumUpdate(txs: seq<ApiTx>, i: nat, tx: ApiTx)
    requires i < |txs|
    ensures ResultSum(txs[i := tx]) == ResultSum(txs) - txs[i].result + tx.result
  {
    ResultSumAppend(txs[..i] + [txs[i]], txs[i + 1..]);
    ResultSumAppend(txs[..i] + [tx], txs[i + 1..]);
    assert (txs[..i] + [txs[i]])[..i] == txs[..i] == (txs[..i] + [tx])[..i];
    assert txs == txs[..i] + [txs[i]] + txs[i + 1..] && txs[i := tx] == txs[..i] + [tx] + txs[i + 1..];
  }

  /** Each transaction has one entry, found through its position. */
  ghost predicate Indexed(txns: seq<ApiTx>, position: map<Txid, nat>) {
    && (forall t | t in position :: position[t] < |txns| && txns[position[t]].hash == t)
    && (forall i | 0 <= i < |txns| :: txns[i].hash in position && position[txns[i].hash] == i)
  }

  ghost predicate Totals(txns: seq<ApiTx>, added: seq<Row>) {
    forall i | 0 <= i < |txns| :: txns[i].result == ResultOf(added, txns[i].hash)
  }

  /** Each transaction of the page once, with a time the page gives for it. */
  ghost predicate Lists(txs: seq<ApiTx>, page: seq<(Txid, nat)>) {
    && (forall i, j | 0 <= i < j < |txs| :: txs[i].hash != txs[j].hash)
    && (forall tx | tx in txs :: (tx.hash, tx.time) in page)
    && (forall t | InPage(page, t) :: exists tx | tx in txs :: tx.hash == t)
  }

  predicate InPage(page: seq<(Txid, nat)>, t: Txid) {
    exists i | 0 <= i < |page| :: page[i].0 == t
  }

  lemma {:induction false} NoResults(txns: seq<ApiTx>)
    requires forall i | 0 <= i < |txns| :: txns[i].result == 0
    ensures ResultSum(txns) == 0
    decreases |txns|
  {
    if txns != [] { NoResults(txns[..|txns| - 1]); }
  }

  ghost predicate SameEntries(a: seq<ApiTx>, b: seq<ApiTx>) {
    |a| == |b| && forall k | 0 <= k < |a| :: a[k].hash == b[k].hash && a[k].time == b[k].time
  }

  lemma AddKeepsTotals(txns: seq<ApiTx>, position: map<Txid, nat>, added: seq<Row>, r: Row, i: nat, tx: ApiTx)
    requires Indexed(txns, position) && Totals(txns, added) && r.txid in position && i == position[r.txid]
    requires tx == txns[i].(result := txns[i].result + Signed(r))
    ensures Indexed(txns[i := tx], position) && Totals(txns[i := tx], added + [r])
    ensures ResultSum(txns[i := tx]) == ResultSum(txns) + Signed(r)
  {
    ResultSumUpdate(txns, i, tx);
    assert (added + [r])[..|added|] == added;
    forall j | 0 <= j < |txns|
      ensures txns[i := tx][j].result == ResultOf(added + [r], txns[j].hash)
    {
      assert position[txns[j].hash] == j;
    }
  }

  lemma SkipKeepsTotals(txns: seq<ApiTx>, position: map<Txid, nat>, added: seq<Row>, r: Row)
    requires Indexed(txns, position) && Totals(txns, added) && r.txid !in position
    ensures Totals(txns, added + [r])
  {
  }

  /** Transactions under assembly, in insertion order, with their position by hash. */
  class Assembler {
    var txns: seq<ApiTx>
    var position: map<Txid, nat>
    ghost var added: seq<Row>

    ghost predicate Valid()
      reads this
    {
      Indexed(txns, position) && Totals(txns, added)
    }

    /** One entry per transaction of the page, without result yet. */
    constructor (page: seq<(Txid, nat)>)
      ensures Valid() && added == []
      ensures EntriesOf(txns, position, page) && ResultSum(txns) == 0
    {
      txns, position, added := [], map[], [];
      new;
      for i := 0 to |page|
        invariant added == [] && Indexed(txns, position)
        invariant forall k | 0 <= k < |txns| :: txns[k].result == 0 && (txns[k].hash, txns[k].time) in page
        invariant forall t :: t in position <==> InPage(page[..i], t)
      {
        PageStep(page, i);
        if page[i].0 !in position {
          position := position[page[i].0 := |txns|];
          txns := txns + [ApiTx(page[i].0, page[i].1, 0)];
        }
      }
      assert page[..|page|] == page;
      NoResults(txns);
    }

    /** Adds a row to the result of its transaction; rows of other transactions are ignored. */
    method AddRow(r: Row)
      requires Valid()
      modifies this
      ensures Valid() && added == old(added) + [r] && position == old(position) && SameEntries(txns, old(txns))
      ensures ResultSum(txns) == ResultSum(old(txns)) + (if r.txid in position then Signed(r) else 0)
    {
      if r.txid in position {
        var i := position[r.txid];
        var tx := txns[i].(result := txns[i].result + Signed(r));
        AddKeepsTotals(txns, position, added, r, i, tx);
        txns := txns[i := tx];
      } else {
        SkipKeepsTotals(txns, position, added, r);
      }
      added := added + [r];
    }
  }

  lemma PageStep(page: seq<(Txid, nat)>, i: nat)
    requires i < |page|
    ensures forall t :: InPage(page[..i + 1], t) <==> InPage(page[..i], t) || t == page[i].0
  {
  }

  // ----- most recent first

  function InsertTx(tx: ApiTx, txs: seq<ApiTx>): (r: seq<ApiTx>)
    ensures multiset(r) == multiset(txs) + multiset{tx} && ResultSum(r) == ResultSum(txs) + tx.result
  {
    if txs == [] || txs[0].time <= tx.time then
      ResultSumAppend([tx], txs);
      assert ResultSum([tx]) == ResultSum([tx][..0]) + tx.result;
      [tx] + txs
    else
      assert txs == [txs[0]] + txs[1..];
      ResultSumAppend([txs[0]], txs[1..]);
      ResultSumAppend([txs[0]], InsertTx(tx, txs[1..]));
      [txs[0]] + InsertTx(tx, txs[1..])
  }

  /** Descending by time, keeping the order of equal times. */
  function MostRecentFirst(txs: seq<ApiTx>): (r: seq<ApiTx>)
    ensures multiset(r) == multiset(txs) && ResultSum(r) == ResultSum(txs)
  {
    if txs == [] then []
    else
      assert txs == [txs[0]] + txs[1..];
      ResultSumAppend([txs[0]], txs[1..]);
      assert ResultSum([txs[0]]) == ResultSum([txs[0]][..0]) + txs[0].result;
      InsertTx(txs[0], MostRecentFirst(txs[1..]))
  }

  ghost predicate Descending(txs: seq<ApiTx>) {
    forall i, j | 0 <= i < j < |txs| :: txs[j].time <= txs[i].time
  }

  lemma {:induction false} InsertDescending(tx: ApiTx, txs: seq<ApiTx>)
    requires Descending(txs)
    ensures Descending(InsertTx(tx, txs))
  {
    if txs != [] && !(txs[0].time <= tx.time) {
      InsertDescending(tx, txs[1..]);
      var r := InsertTx(tx, txs[1..]);
      forall j | 0 <= j < |r|
        ensures r[j].time <= txs[0].time
      {
        assert r[j] in multiset(r) && multiset(r) == multiset(txs[1..]) + multiset{tx};
        assert r[j] == tx || r[j] in txs[1..];
      }
    }
  }

  lemma {:induction false} SortedByTime(txs: seq<ApiTx>)
    ensures Descending(MostRecentFirst(txs))
  {
    if txs != [] {
      SortedByTime(txs[1..]);
      InsertDescending(txs[0], MostRecentFirst(txs[1..]));
    }
  }

  predicate HashesDiffer(txs: seq<ApiTx>) {
    forall i, j | 0 <= i < j < |txs| :: txs[i].hash != txs[j].hash
  }

  lemma ConsDiffers(tx: ApiTx, txs: seq<ApiTx>)
    requires HashesDiffer(txs) && forall x | x in txs :: x.hash != tx.hash
    ensures HashesDiffer([tx] + txs)
  {
    forall j | 1 <= j < |txs| + 1 ensures ([tx] + txs)[j] in txs {}
  }

  lemma {:induction false} InsertDiffers(tx: ApiTx, txs: seq<ApiTx>)
    requires HashesDiffer(txs) && forall x | x in txs :: x.hash != tx.hash
    ensures HashesDiffer(InsertTx(tx, txs))
    ensures forall x :: x in InsertTx(tx, txs) <==> x in txs || x == tx
  {
    if txs != [] && !(txs[0].time <= tx.time) {
      InsertDiffers(tx, txs[1..]);
      ConsDiffers(txs[0], InsertTx(tx, txs[1..]));
      assert txs == [txs[0]] + txs[1..];
    } else {
      ConsDiffers(tx, txs);
    }
  }

  /** Sorting neither loses nor repeats a transaction. */
  lemma {:induction false} SameTransactions(txs: seq<ApiTx>)
    requires HashesDiffer(txs)
    ensures HashesDiffer(MostRecentFirst(txs))
    ensures forall x :: x in MostRecentFirst(txs) <==> x in txs
  {
    if txs != [] {
      SameTransactions(txs[1..]);
      InsertDiffers(txs[0], MostRecentFirst(txs[1..]));
    }
  }

  /** The entries under assembly are those of the page. */
  ghost predicate EntriesOf(txns: seq<ApiTx>, position: map<Txid, nat>, page: seq<(Txid, nat)>) {
    && (forall t :: t in position <==> InPage(page, t))
    && (forall k | 0 <= k < |txns| :: (txns[k].hash, txns[k].time) in page)
  }

  lemma EntriesKept(before: seq<ApiTx>, after: seq<ApiTx>, position: map<Txid, nat>, page: seq<(Txid, nat)>)
    requires EntriesOf(before, position, page) && SameEntries(after, before)
    ensures EntriesOf(after, position, page)
  {
  }

  lemma SortedLists(txns: seq<ApiTx>, position: map<Txid, nat>, page: seq<(Txid, nat)>)
    requires Indexed(txns, position) && EntriesOf(txns, position, page)
    ensures Lists(MostRecentFirst(txns), page)
    ensures forall tx | tx in MostRecentFirst(txns) :: tx in txns
  {
    SameTransactions(txns);
    forall t | InPage(page, t)
      ensures exists tx | tx in MostRecentFirst(txns) :: tx.hash == t
    {
      assert txns[position[t]] in MostRecentFirst(txns);
    }
  }

  // ----- the wallet

  /** The amounts of the outputs to the account that no input spends. */
  ghost function Unspent(s: State, account: set<Address>): map<Outpoint, int> {
    map o | o in s.outputs && s.outputs[o].addr in account && o !in s.inputs.Values :: s.outputs[o].amount as int
  }

  lemma UnspentIff(s: State, o: Outpoint)
    requires o in s.outputs
    ensures UnspentAmount(s)(o) == if o in s.inputs.Values then 0 else s.outputs[o].amount
  {
    assert Amount(s)(o) == s.outputs[o].amount;
    if o in s.inputs.Values {
      var k :| k in s.inputs && s.inputs[k] == o;
      assert k in InputsOf(s, o);
    } else {
      assert InputsOf(s, o) == {};
    }
  }

  /** The sum over owned outputs leaves out those an input row spends. */
  lemma UnspentTotal(s: State, account: set<Address>)
    ensures Sum(Owned(s, account), UnspentAmount(s)) == Total(Unspent(s, account))
  {
    var unspent := Unspent(s, account);
    forall o | o in Owned(s, account)
      ensures UnspentAmount(s)(o) == if o in unspent then unspent[o] else 0
    {
      UnspentIff(s, o);
    }
    TotalIsSparseSum(unspent, Owned(s, account), UnspentAmount(s));
  }

  /** SUM of the unspent outputs of the account. */
  method GetBalance(s: State, account: set<Address>) returns (balance: int)
    ensures balance == Sum(Owned(s, account), UnspentAmount(s))
    ensures balance == Total(Unspent(s, account))
  {
    UnspentTotal(s, account);
    balance := 0;
    var rest := Owned(s, account);
    while rest != {}
      invariant balance + Sum(rest, UnspentAmount(s)) == Sum(Owned(s, account), UnspentAmount(s))
      decreases |rest|
    {
      var o :| o in rest;
      SumRemove(rest, UnspentAmount(s), o);
      balance := balance + UnspentAmount(s)(o);
      rest := rest - {o};
    }
  }

  lemma {:induction false} ResultOfAppend(a: seq<Row>, b: seq<Row>, t: Txid)
    ensures ResultOf(a + b, t) == ResultOf(a, t) + ResultOf(b, t)
    decreases |b|
  {
    if b == [] {
      assert a + b == a;
    } else {
      ResultOfAppend(a, b[..|b| - 1], t);
      assert (a + b)[..|a + b| - 1] == a + b[..|b| - 1];
    }
  }

  lemma {:induction false} SignedSumAppend(a: seq<Row>, b: seq<Row>)
    ensures SignedSum(a + b) == SignedSum(a) + SignedSum(b)
    decreases |b|
  {
    if b == [] {
      assert a + b == a;
    } else {
      SignedSumAppend(a, b[..|b| - 1]);
      assert (a + b)[..|a + b| - 1] == a + b[..|b| - 1];
    }
  }

  /** The account's outputs created by transactions of the page, and its inputs in them. */
  function OwnedIn(s: State, account: set<Address>, page: seq<(Txid, nat)>): set<Outpoint> {
    set o | o in Owned(s, account) && InPage(page, o.txid)
  }

  function InputsIn(s: State, account: set<Address>, page: seq<(Txid, nat)>): set<InputKey> {
    set k | k in InputsOn(s, Owned(s, account)) && InPage(page, k.txid)
  }

  /** The amounts of the account's outputs that a transaction creates. */
  ghost function Credits(s: State, account: set<Address>, t: Txid): map<Outpoint, int> {
    map o | o in s.outputs && o.txid == t && s.outputs[o].addr in account :: s.outputs[o].amount as int
  }

  /** The amounts of the account's outputs that a transaction's inputs spend. */
  ghost function Debits(s: State, account: set<Address>, t: Txid): map<InputKey, int> {
    map k | k in s.inputs && k.txid == t && s.inputs[k] in s.outputs && s.outputs[s.inputs[k]].addr in account ::
      s.outputs[s.inputs[k]].amount as int
  }

  ghost predicate Distinct<T(!new)>(keys: seq<T>) {
    forall i, j | 0 <= i < j < |keys| :: keys[i] != keys[j]
  }

  /** The elements of one transaction. */
  ghost function Those<T(!new)>(keys: seq<T>, txid: T -> Txid, t: Txid): set<T> {
    set x | x in keys && txid(x) == t
  }

  ghost function Elements<T(!new)>(keys: seq<T>): set<T> {
    set x | x in keys
  }

  lemma SplitLast<T(!new)>(keys: seq<T>, txid: T -> Txid, t: Txid)
    requires keys != [] && Distinct(keys)
    ensures var n := |keys| - 1;
            && keys[n] in Elements(keys) && Elements(keys) - {keys[n]} == Elements(keys[..n])
            && Those(keys, txid, t) - {keys[n]} == Those(keys[..n], txid, t)
            && (keys[n] in Those(keys, txid, t) <==> txid(keys[n]) == t)
  {
    var n := |keys| - 1;
    assert keys == keys[..n] + [keys[n]] && keys[n] !in keys[..n];
  }

  /** Distinct outputs or inputs, and the rows for them. */
  ghost predicate RowsFor<T(!new)>(rows: seq<Row>, keys: seq<T>, f: T -> int, txid: T -> Txid) {
    && |rows| == |keys| && Distinct(keys)
    && forall i | 0 <= i < |keys| :: rows[i].txid == txid(keys[i]) && Signed(rows[i]) == f(keys[i])
  }

  /** Rows add up to the sum over what they stand for, altogether and for each transaction. */
  lemma {:induction false} RowSums<T(!new)>(rows: seq<Row>, keys: seq<T>, f: T -> int, txid: T -> Txid, t: Txid)
    requires RowsFor(rows, keys, f, txid)
    ensures SignedSum(rows) == Sum(Elements(keys), f) && ResultOf(rows, t) == Sum(Those(keys, txid, t), f)
    decreases |keys|
  {
    if keys == [] {
      assert Elements(keys) == {} && Those(keys, txid, t) == {};
    } else {
      var n := |keys| - 1;
      RowSums(rows[..n], keys[..n], f, txid, t);
      SplitLast(keys, txid, t);
      SumRemove(Elements(keys), f, keys[n]);
      if txid(keys[n]) == t {
        SumRemove(Those(keys, txid, t), f, keys[n]);
      } else {
        assert Those(keys, txid, t) - {keys[n]} == Those(keys, txid, t);
      }
    }
  }

  /** One row for each output of the account that a transaction of the page creates. */
  ghost predicate AreReceived(s: State, account: set<Address>, page: seq<(Txid, nat)>, rows: seq<Row>,
                              outs: seq<Outpoint>) {
    && (forall o :: o in outs <==> o in s.outputs && s.outputs[o].addr in account && InPage(page, o.txid))
    && |rows| == |outs| && Distinct(outs)
    && forall i | 0 <= i < |outs| ::
         outs[i] in s.outputs && rows[i] == Received(outs[i].txid, s.outputs[outs[i]].amount)
  }

  /** One row for each input of a transaction of the page that spends an output of the account. */
  ghost predicate AreSpent(s: State, account: set<Address>, page: seq<(Txid, nat)>, rows: seq<Row>,
                           ins: seq<InputKey>) {
    && (forall k :: k in ins <==> k in s.inputs && s.inputs[k] in s.outputs &&
                                  s.outputs[s.inputs[k]].addr in account && InPage(page, k.txid))
    && |rows| == |ins| && Distinct(ins)
    && forall i | 0 <= i < |ins| ::
         && ins[i] in s.inputs && s.inputs[ins[i]] in s.outputs
         && rows[i] == Spending(ins[i].txid, s.outputs[s.inputs[ins[i]]].amount)
  }

  method GetReceived(s: State, account: set<Address>, page: seq<(Txid, nat)>)
    returns (rows: seq<Row>, ghost outs: seq<Outpoint>)
    ensures AreReceived(s, account, page, rows, outs)
  {
    rows, outs := [], [];
    var rest := OwnedIn(s, account, page);
    ghost var all := rest;
    while rest != {}
      invariant rest <= all && forall o :: o in outs <==> o in all && o !in rest
      invariant |rows| == |outs| && Distinct(outs)
      invariant forall i | 0 <= i < |outs| ::
                  outs[i] in s.outputs && rows[i] == Received(outs[i].txid, s.outputs[outs[i]].amount)
      decreases |rest|
    {
      var o :| o in rest;
      rows, outs, rest := rows + [Received(o.txid, s.outputs[o].amount)], outs + [o], rest - {o};
    }
  }

  method GetSpent(s: State, account: set<Address>, page: seq<(Txid, nat)>)
    returns (rows: seq<Row>, ghost ins: seq<InputKey>)
    ensures AreSpent(s, account, page, rows, ins)
  {
    rows, ins := [], [];
    var rest := InputsIn(s, account, page);
    ghost var all := rest;
    while rest != {}
      invariant rest <= all && forall k :: k in ins <==> k in all && k !in rest
      invariant |rows| == |ins| && Distinct(ins)
      invariant forall i | 0 <= i < |ins| ::
                  && ins[i] in s.inputs && s.inputs[ins[i]] in s.outputs
                  && rows[i] == Spending(ins[i].txid, s.outputs[s.inputs[ins[i]]].amount)
      decreases |rest|
    {
      var k :| k in rest;
      rows, ins, rest := rows + [Spending(k.txid, s.outputs[s.inputs[k]].amount)], ins + [k], rest - {k};
    }
  }

  /** The rows received credit what the outputs of each transaction on the page pay. */
  lemma ReceivedSums(s: State, account: set<Address>, page: seq<(Txid, nat)>, rows: seq<Row>, outs: seq<Outpoint>,
                     t: Txid)
    requires AreReceived(s, account, page, rows, outs)
    ensures SignedSum(rows) == Sum(OwnedIn(s, account, page), Amount(s))
    ensures InPage(page, t) ==> ResultOf(rows, t) == Total(Credits(s, account, t))
  {
    var txid := (o: Outpoint) => o.txid;
    RowSums(rows, outs, Amount(s), txid, t);
    assert OwnedIn(s, account, page) == Elements(outs);
    if InPage(page, t) {
      var credits := Credits(s, account, t);
      assert credits.Keys == Those(outs, txid, t);
      TotalIsSum(credits, credits.Keys, Amount(s));
    }
  }

  /** The rows spent debit what the inputs of each transaction on the page spend. */
  lemma SpentSums(s: State, account: set<Address>, page: seq<(Txid, nat)>, rows: seq<Row>, ins: seq<InputKey>, t: Txid)
    requires AreSpent(s, account, page, rows, ins)
    ensures SignedSum(rows) == -Sum(InputsIn(s, account, page), SpentAmount(s))
    ensures InPage(page, t) ==> ResultOf(rows, t) == -Total(Debits(s, account, t))
  {
    var txid, debit := (k: InputKey) => k.txid, (k: InputKey) => -SpentAmount(s)(k);
    forall k | k in ins
      ensures debit(k) == 0 - s.outputs[s.inputs[k]].amount
    {
      assert SpentAmount(s)(k) == Amount(s)(s.inputs[k]) == s.outputs[s.inputs[k]].amount;
    }
    RowSums(rows, ins, debit, txid, t);
    assert InputsIn(s, account, page) == Elements(ins);
    SumNegated(Elements(ins), SpentAmount(s), debit);
    if InPage(page, t) {
      var debits := Debits(s, account, t);
      assert debits.Keys == Those(ins, txid, t);
      SumNegated(debits.Keys, SpentAmount(s), debit);
      TotalIsSum(debits, debits.Keys, SpentAmount(s));
    }
  }

  /** The rows of a page: what its transactions credit to the account and debit from it. */
  method GetRows(s: State, account: set<Address>, page: seq<(Txid, nat)>) returns (rows: seq<Row>)
    ensures forall r | r in rows :: InPage(page, r.txid)
    ensures SignedSum(rows) ==
            Sum(OwnedIn(s, account, page), Amount(s)) - Sum(InputsIn(s, account, page), SpentAmount(s))
    ensures forall t | InPage(page, t) ::
              ResultOf(rows, t) == Total(Credits(s, account, t)) - Total(Debits(s, account, t))
  {
    var received, outs := GetReceived(s, account, page);
    var spent, ins := GetSpent(s, account, page);
    rows := received + spent;
    SignedSumAppend(received, spent);
    ReceivedSums(s, account, page, received, outs, "");
    SpentSums(s, account, page, spent, ins, "");
    forall t | InPage(page, t)
      ensures ResultOf(rows, t) == Total(Credits(s, account, t)) - Total(Debits(s, account, t))
    {
      ReceivedSums(s, account, page, received, outs, t);
      SpentSums(s, account, page, spent, ins, t);
      ResultOfAppend(received, spent, t);
    }
    forall r | r in rows
      ensures InPage(page, r.txid)
    {
      if r in received {
        var i :| 0 <= i < |outs| && received[i] == r;
        assert outs[i] in outs;
      } else {
        var i :| 0 <= i < |ins| && spent[i] == r;
        assert ins[i] in ins;
      }
    }
  }

  method AddRows(assembler: Assembler, rows: seq<Row>, ghost page: seq<(Txid, nat)>)
    requires assembler.Valid() && assembler.added == [] && ResultSum(assembler.txns) == 0
    requires EntriesOf(assembler.txns, assembler.position, page) && forall r | r in rows :: InPage(page, r.txid)
    modifies assembler
    ensures assembler.Valid() && assembler.added == rows && ResultSum(assembler.txns) == SignedSum(rows)
    ensures EntriesOf(assembler.txns, assembler.position, page)
  {
    for i := 0 to |rows|
      invariant assembler.Valid() && assembler.added == rows[..i]
      invariant ResultSum(assembler.txns) == SignedSum(rows[..i])
      invariant EntriesOf(assembler.txns, assembler.position, page)
    {
      assert rows[i] in rows;
      assert rows[..i + 1] == rows[..i] + [rows[i]] && rows[..i + 1][..i] == rows[..i];
      ghost var before := assembler.txns;
      assembler.AddRow(rows[i]);
      EntriesKept(before, assembler.txns, assembler.position, page);
    }
    assert rows[..|rows|] == rows;
  }

  /** The page's transactions, most recent first, each with the signed sum of its rows. */
  method Assemble(rows: seq<Row>, page: seq<(Txid, nat)>) returns (txs: seq<ApiTx>)
    requires forall r | r in rows :: InPage(page, r.txid)
    ensures Descending(txs) && Lists(txs, page) && ResultSum(txs) == SignedSum(rows)
    ensures forall tx | tx in txs :: tx.result == ResultOf(rows, tx.hash)
  {
    var assembler := new Assembler(page);
    AddRows(assembler, rows, page);
    txs := MostRecentFirst(assembler.txns);
    SortedByTime(assembler.txns);
    SortedLists(assembler.txns, assembler.position, page);
  }

  /** The transactions of a page as the database returns them. */
  method GetTxs(s: State, account: set<Address>, page: seq<(Txid, nat)>) returns (txs: seq<ApiTx>)
    ensures Descending(txs) && Lists(txs, page)
    ensures ResultSum(txs) ==
            Sum(OwnedIn(s, account, page), Amount(s)) - Sum(InputsIn(s, account, page), SpentAmount(s))
    ensures forall tx | tx in txs ::
              tx.result == Total(Credits(s, account, tx.hash)) - Total(Debits(s, account, tx.hash))
  {
    var rows := GetRows(s, account, page);
    txs := Assemble(rows, page);
  }

  /** The balance shown after each transaction, most recent first, and what is left below the oldest. */
  method RunningBalance(finalBalance: int, txs: seq<ApiTx>) returns (balances: seq<int>, residual: int)
    ensures |balances| == |txs| && residual == finalBalance - ResultSum(txs)
    ensures forall i | 0 <= i < |txs| :: balances[i] == residual + ResultSum(txs[i..])
  {
    balances := [];
    var balance := finalBalance;
    for i := 0 to |txs|
      invariant |balances| == i && balance == finalBalance - ResultSum(txs[..i])
      invariant forall j | 0 <= j < i :: balances[j] == finalBalance - ResultSum(txs[..j])
    {
      assert txs[..i + 1][..i] == txs[..i];
      balances := balances + [balance];
      balance := balance - txs[i].result;
    }
    assert txs[..|txs|] == txs;
    residual := balance;
    forall i | 0 <= i < |txs|
      ensures balances[i] == residual + ResultSum(txs[i..])
    {
      ResultSumAppend(txs[..i], txs[i..]);
      assert txs[..i] + txs[i..] == txs;
    }
  }

  /** What the transactions that are not on the page credit and debit. */
  ghost function BeyondPage(s: State, account: set<Address>, page: seq<(Txid, nat)>): int {
    Sum(Owned(s, account) - OwnedIn(s, account, page), Amount(s))
    - Sum(InputsOn(s, Owned(s, account)) - InputsIn(s, account, page), SpentAmount(s))
  }

  /** The page has every transaction with an output to the account or an input spending one. */
  ghost predicate HoldsHistory(s: State, account: set<Address>, page: seq<(Txid, nat)>) {
    && (forall o | o in s.outputs && s.outputs[o].addr in account :: InPage(page, o.txid))
    && (forall k | k in s.inputs && s.inputs[k] in s.outputs && s.outputs[s.inputs[k]].addr in account ::
          InPage(page, k.txid))
  }

  lemma PageSplits(s: State, account: set<Address>, page: seq<(Txid, nat)>)
    ensures Sum(OwnedIn(s, account, page), Amount(s)) - Sum(InputsIn(s, account, page), SpentAmount(s))
            + BeyondPage(s, account, page)
         == Sum(Owned(s, account), Amount(s)) - Sum(InputsOn(s, Owned(s, account)), SpentAmount(s))
    ensures HoldsHistory(s, account, page) ==> BeyondPage(s, account, page) == 0
  {
    var owned, inputs := Owned(s, account), InputsOn(s, Owned(s, account));
    var here, there := OwnedIn(s, account, page), InputsIn(s, account, page);
    assert owned == here + (owned - here) && inputs == there + (inputs - there);
    SumUnion(here, owned - here, Amount(s));
    SumUnion(there, inputs - there, SpentAmount(s));
    if HoldsHistory(s, account, page) {
      assert owned - here == {} && inputs - there == {};
    }
  }

  /** The unspent sum less the page's total is the excess plus what the page leaves out. */
  lemma ResidualOfPage(s: State, account: set<Address>, page: seq<(Txid, nat)>)
    ensures Sum(Owned(s, account), UnspentAmount(s))
            - (Sum(OwnedIn(s, account, page), Amount(s)) - Sum(InputsIn(s, account, page), SpentAmount(s)))
         == Sum(Owned(s, account), ExcessAmount(s)) + BeyondPage(s, account, page)
    ensures HoldsHistory(s, account, page) ==> BeyondPage(s, account, page) == 0
  {
    PageSplits(s, account, page);
    Conservation(s, Owned(s, account));
  }

  /**
   A page of a wallet's history with running balances, counted down from the final balance. Below the oldest
   transaction of the page is left what duplicate input rows subtract in excess, plus what the transactions
   not on the page credit and debit. For the whole history that is the excess alone; it is zero if and only
   if no owned output of positive amount has several input rows.
   */
  method LoadTransactions(s: State, account: set<Address>, page: seq<(Txid, nat)>)
    returns (txs: seq<ApiTx>, balances: seq<int>, residual: int)
    ensures Descending(txs) && Lists(txs, page) && |balances| == |txs|
    ensures forall tx | tx in txs ::
              tx.result == Total(Credits(s, account, tx.hash)) - Total(Debits(s, account, tx.hash))
    ensures balances != [] ==> balances[0] == Total(Unspent(s, account))
    ensures forall i | 0 <= i < |txs| :: balances[i] == residual + ResultSum(txs[i..])
    ensures residual == Sum(Owned(s, account), ExcessAmount(s)) + BeyondPage(s, account, page)
    ensures HoldsHistory(s, account, page) ==>
              && residual == Sum(Owned(s, account), ExcessAmount(s))
              && (residual == 0 <==>
                  forall j, k {:trigger s.inputs[j], s.inputs[k]} |
                    && j in s.inputs && k in s.inputs && s.inputs[j] == s.inputs[k] && s.inputs[j] in s.outputs
                    && s.outputs[s.inputs[j]].addr in account && s.outputs[s.inputs[j]].amount > 0 ::
                    j == k)
  {
    var finalBalance := GetBalance(s, account);
    txs := GetTxs(s, account, page);
    balances, residual := RunningBalance(finalBalance, txs);
    ResidualOfPage(s, account, page);
    NoExcessIff(s, account);
    if txs != [] { assert txs[0..] == txs; }
  }

  /** On a ledger the tracker built, the running balance always reaches zero. */
  lemma TrackerHistoryReachesZero(c: Content, steps: seq<Step>, account: set<Address>)
    requires DistinctIns(c)
    ensures var s := Replay(c, steps); Sum(Owned(s, account), ExcessAmount(s)) == 0
  {
    var s := Replay(c, steps);
    SingleSpenderAlways(c, steps);
    forall o | o in Owned(s, account)
      ensures |InputsOf(s, o)| <= 1
    {
      AtMostOneIff(InputsOf(s, o));
    }
    ExcessZeroIff(s, Owned(s, account));
  }
}
