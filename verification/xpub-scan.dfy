/**
 The importer's scan of one chain of an account: derive a window, ask the remote index which addresses
 were used, move the window past the last used one and recurse. It refines the one-index-at-a-time scan
 of the "Address gap limit" rule of BIP44.
 */
module XpubScan {
  import opened Wrappers
  import opened GapScan

  type Address = string
  type Txid = string

  /** One line of the remote index: an address, how many transactions it has, and which. */
  datatype AddressInfo = AddressInfo(address: Address, ntx: nat, txids: seq<Txid>)

  /**
   The account seen from outside: address derivation for the chain; the remote index, which answers a
   list of addresses with lines in an order of its own, or fails; and the node, which knows transactions,
   but may fail to fetch a list of them. `used` and `txidsOf` say what the remote index knows.
   */
  datatype World = World(derive: int -> Address, lookup: seq<Address> -> Option<seq<AddressInfo>>,
                         hasTx: Txid -> bool, fetchFails: seq<Txid> -> bool,
                         used: set<int>, txidsOf: int -> seq<Txid>)

  ghost predicate Injective(w: World) {
    forall i, j {:trigger w.derive(i), w.derive(j)} :: w.derive(i) == w.derive(j) ==> i == j
  }

  ghost predicate LineOf(w: World, i: int, r: AddressInfo) {
    r.address == w.derive(i) && (r.ntx > 0 <==> i in w.used) && r.txids == w.txidsOf(i)
  }

  /** The answer has only lines about the addresses asked for, and one for each used address. */
  ghost predicate HonestAnswer(w: World, indices: seq<int>, answer: seq<AddressInfo>) {
    && (forall r | r in answer :: exists i | i in indices :: LineOf(w, i, r))
    && (forall i | i in indices && i in w.used :: exists r | r in answer :: LineOf(w, i, r))
  }

  ghost predicate HonestWorld(w: World) {
    && Injective(w)
    && forall indices: seq<int> {:trigger Derived(w, indices)} ::
         w.lookup(Derived(w, indices)).Some? ==>
           HonestAnswer(w, indices, w.lookup(Derived(w, indices)).value)
  }

  ghost predicate NeverFails(w: World) {
    forall addresses :: w.lookup(addresses).Some?
  }

  ghost predicate FetchesSucceed(w: World) {
    forall ids :: !w.fetchFails(ids)
  }

  function Derived(w: World, indices: seq<int>): seq<Address> {
    seq(|indices|, i requires 0 <= i < |indices| => w.derive(indices[i]))
  }

  // ----- the batched scan

  datatype ImportAddress = ImportAddress(address: Address, index: int)

  ghost function UsedOf(w: World, indices: seq<int>): set<int> {
    set i | i in indices && i in w.used
  }

  /** One of these indices has the transaction. */
  ghost predicate MentionedBy(w: World, indices: set<int>, t: Txid) {
    exists i | i in indices :: t in w.txidsOf(i)
  }

  /** Some used index among `indices` has the transaction. */
  ghost predicate Mentioned(w: World, indices: seq<int>, t: Txid) {
    MentionedBy(w, UsedOf(w, indices), t)
  }

  ghost predicate Resolves(w: World, indices: seq<int>, addrMap: map<Address, int>) {
    forall i | i in indices :: w.derive(i) in addrMap && addrMap[w.derive(i)] == i
  }

  lemma SeenAll(w: World, indices: seq<int>, answer: seq<AddressInfo>, seen: set<int>)
    requires Injective(w) && HonestAnswer(w, indices, answer) && seen <= UsedOf(w, indices)
    requires forall j | 0 <= j < |answer| && answer[j].ntx > 0 :: exists i | i in seen :: LineOf(w, i, answer[j])
    ensures seen == UsedOf(w, indices)
  {
    forall i | i in UsedOf(w, indices)
      ensures i in seen
    {
      var r :| r in answer && LineOf(w, i, r);
      var j :| 0 <= j < |answer| && answer[j] == r;
      var s :| s in seen && LineOf(w, s, answer[j]);
      assert w.derive(s) == w.derive(i);
    }
  }

  /** Reads the remote's answer: the highest used index, whether anything was used, and the transactions. */
  method ReadAnswer(w: World, ghost indices: seq<int>, addrMap: map<Address, int>, answer: seq<AddressInfo>,
                    u: int, txids: set<Txid>)
    returns (highest: int, gotTransactions: bool, scanTx: seq<Txid>)
    requires Injective(w) && HonestAnswer(w, indices, answer) && Resolves(w, indices, addrMap)
    ensures gotTransactions <==> UsedOf(w, indices) != {}
    ensures highest >= u && (highest == u || highest in UsedOf(w, indices))
    ensures forall i | i in UsedOf(w, indices) :: i <= highest
    ensures forall t :: t in scanTx <==> Mentioned(w, indices, t) && t !in txids
  {
    highest, gotTransactions, scanTx := u, false, [];
    ghost var seen: set<int> := {};
    for k := 0 to |answer|
      invariant seen <= UsedOf(w, indices) && (gotTransactions <==> seen != {})
      invariant highest >= u && (highest == u || highest in seen) && forall i | i in seen :: i <= highest
      invariant forall j | 0 <= j < k && answer[j].ntx > 0 :: exists i | i in seen :: LineOf(w, i, answer[j])
      invariant forall t :: t in scanTx <==> MentionedBy(w, seen, t) && t !in txids
    {
      var r := answer[k];
      assert r in answer;
      if r.ntx > 0 {
        ghost var i :| i in indices && LineOf(w, i, r);
        var index := addrMap[r.address];
        highest := if index > highest then index else highest;
        gotTransactions := true;
        var news := Fresh(r.txids, txids);
        scanTx := scanTx + news;
        MentionedMore(w, seen, i);
        seen := seen + {i};
      }
    }
    SeenAll(w, indices, answer, seen);
  }

  lemma MentionedMore(w: World, a: set<int>, i: int)
    ensures forall t :: MentionedBy(w, a + {i}, t) <==> MentionedBy(w, a, t) || t in w.txidsOf(i)
  {
  }

  method Fresh(ids: seq<Txid>, txids: set<Txid>) returns (r: seq<Txid>)
    ensures forall t :: t in r <==> t in ids && t !in txids
  {
    r := [];
    for i := 0 to |ids|
      invariant forall t :: t in r <==> t in ids[..i] && t !in txids
    {
      if ids[i] !in txids { r := r + [ids[i]]; }
      assert ids[..i + 1] == ids[..i] + [ids[i]];
    }
  }

  method Known(w: World, ids: seq<Txid>) returns (r: seq<Txid>)
    ensures forall t :: t in r <==> t in ids && w.hasTx(t)
  {
    r := [];
    for i := 0 to |ids|
      invariant forall t :: t in r <==> t in ids[..i] && w.hasTx(t)
    {
      if w.hasTx(ids[i]) { r := r + [ids[i]]; }
      assert ids[..i + 1] == ids[..i] + [ids[i]];
    }
  }

  function AddressMap(w: World, indices: seq<int>): (m: map<Address, int>)
    requires Injective(w)
    ensures forall i | i in indices :: w.derive(i) in m && m[w.derive(i)] == i
  {
    if indices == [] then map[]
    else
      assert forall i | i in indices :: i == indices[|indices| - 1] || i in indices[..|indices| - 1];
      AddressMap(w, indices[..|indices| - 1])[w.derive(indices[|indices| - 1]) := indices[|indices| - 1]]
  }

  /** One window of the batched scan against the reference scan. */
  lemma OneWindow(w: World, last: int, lastUsed: int, gap: int, u: int)
    requires lastUsed <= last < lastUsed + gap
    requires var A := UsedOf(w, Range(last + 1, lastUsed + gap + 1));
             u >= lastUsed && (u == lastUsed || u in A) && forall i | i in A :: i <= u
    ensures OneByOne(w.used, last + 1, lastUsed, gap)
         == Range(last + 1, lastUsed + gap + 1) + OneByOne(w.used, lastUsed + gap + 1, u, gap)
    ensures u <= lastUsed + gap
    ensures UsedOf(w, Range(last + 1, lastUsed + gap + 1)) == {} ==> u == lastUsed
    ensures UsedOf(w, Range(last + 1, lastUsed + gap + 1)) != {} ==>
              |Above(w.used, lastUsed + gap)| < |Above(w.used, last)|
  {
    var A := Range(last + 1, lastUsed + gap + 1);
    RangeMembers(last + 1, lastUsed + gap + 1);
    WholeWindow(w.used, last + 1, lastUsed, gap, lastUsed + gap + 1);
    var l := LastUsedIn(w.used, last + 1, lastUsed + gap + 1, lastUsed);
    if i :| i in UsedOf(w, A) {
      assert i in w.used && last + 1 <= i < lastUsed + gap + 1;
      assert l in UsedOf(w, A) && l <= u;
      assert u in UsedOf(w, A) && u <= l;
    } else {
      assert u == lastUsed && (l == lastUsed || l in UsedOf(w, A));
    }
    assert l == u;
    AboveShrinks(w.used, last, lastUsed + gap);
  }

  /** Every fetched transaction is known to the node, new, and mentioned by a derived used address. */
  ghost predicate Fetched(w: World, indices: seq<int>, txids: set<Txid>, transactions: seq<Txid>) {
    forall t | t in transactions :: t !in txids && w.hasTx(t) && Mentioned(w, indices, t)
  }

  ghost predicate FetchedAll(w: World, indices: seq<int>, txids: set<Txid>, transactions: seq<Txid>) {
    forall t | w.hasTx(t) && t !in txids && Mentioned(w, indices, t) :: t in transactions
  }

  lemma FetchedAppend(w: World, a: seq<int>, b: seq<int>, txids: set<Txid>, ta: seq<Txid>, tb: seq<Txid>)
    requires Fetched(w, a, txids, ta) && Fetched(w, b, txids + (set t | t in ta), tb)
    ensures Fetched(w, a + b, txids, ta + tb)
    ensures FetchedAll(w, a, txids, ta) && FetchedAll(w, b, txids + (set t | t in ta), tb) ==>
              FetchedAll(w, a + b, txids, ta + tb)
  {
  }

  /** Derives one window and asks the remote about it. */
  method ScanWindow(w: World, d: int, u: int, gap: int, txids: set<Txid>)
    returns (addresses: seq<ImportAddress>, answered: bool, highest: int, gotTransactions: bool,
             transactions: seq<Txid>)
    requires HonestWorld(w) && u <= d < u + gap
    ensures |addresses| == u + gap - d
    ensures forall k | 0 <= k < |addresses| :: addresses[k] == ImportAddress(w.derive(d + 1 + k), d + 1 + k)
    ensures NeverFails(w) ==> answered
    ensures !answered ==> !gotTransactions && transactions == []
    ensures Fetched(w, Range(d + 1, u + gap + 1), txids, transactions)
    ensures answered ==>
              var used := UsedOf(w, Range(d + 1, u + gap + 1));
              && (gotTransactions <==> used != {})
              && highest >= u && (highest == u || highest in used) && (forall i | i in used :: i <= highest)
              && (FetchesSucceed(w) ==> FetchedAll(w, Range(d + 1, u + gap + 1), txids, transactions))
  {
    // One window, up to the gap
    var A := Range(d + 1, u + gap + 1);
    addresses := seq(|A|, i requires 0 <= i < |A| => ImportAddress(w.derive(A[i]), A[i]));
    var addrMap := AddressMap(w, A);
    var answer := w.lookup(Derived(w, A));
    answered, highest, gotTransactions, transactions := answer.Some?, u, false, [];
    if answered {
      var scanTx;
      highest, gotTransactions, scanTx := ReadAnswer(w, A, addrMap, answer.value, u, txids);
      // A failed fetch loses the window's transactions, but the scan goes on
      if !w.fetchFails(scanTx) {
        transactions := Known(w, scanTx);
      }
    }
  }

  /** What the reference scan derives. */
  ghost function Reference(w: World, last: int, lastUsed: int, gap: int): seq<int> {
    OneByOne(w.used, last + 1, lastUsed, gap)
  }

  /**
   The batched scan derives exactly what the reference scan derives, in the same order, and terminates
   since each recursion leaves fewer used indices above `d`. It returns the transactions of all used
   addresses it derived, except those already fetched. A failing remote cuts both short, a failing fetch
   only loses transactions.
   */
  method Scan(w: World, last: int, lastUsed: int, gap: int, txids: set<Txid>)
    returns (addresses: seq<ImportAddress>, transactions: seq<Txid>)
    requires HonestWorld(w) && lastUsed <= last
    ensures var all := Reference(w, last, lastUsed, gap);
            && |addresses| <= |all| && (NeverFails(w) ==> |addresses| == |all|)
            && forall k | 0 <= k < |addresses| :: addresses[k] == ImportAddress(w.derive(all[k]), all[k])
    ensures Fetched(w, Reference(w, last, lastUsed, gap)[..|addresses|], txids, transactions)
    ensures NeverFails(w) ==>
              && (FetchesSucceed(w) ==> FetchedAll(w, Reference(w, last, lastUsed, gap), txids, transactions))
    decreases |Above(w.used, last)|
  {
    // The window is empty
    if last + 1 > lastUsed + gap {
      return [], [];
    }
    ghost var window := Range(last + 1, lastUsed + gap + 1);
    var answered, u, gotTransactions;
    addresses, answered, u, gotTransactions, transactions := ScanWindow(w, last, lastUsed, gap, txids);
    if !answered {
      WholeWindow(w.used, last + 1, lastUsed, gap, lastUsed + gap + 1);
      FirstWindow(w, window, Reference(w, last, lastUsed, gap));
      return;
    }
    OneWindow(w, last, lastUsed, gap, u);
    ghost var beyond := Reference(w, lastUsed + gap, u, gap);
    if gotTransactions {
      // Something was used, so the gap starts anew
      var done := txids + set t | t in transactions;
      var deeperAddresses, deeperTransactions := Scan(w, lastUsed + gap, u, gap, done);
      ghost var deeper := beyond[..|deeperAddresses|];
      FetchedAppend(w, window, deeper, txids, transactions, deeperTransactions);
      AddressesAppend(w, window, addresses, beyond, deeperAddresses);
      addresses, transactions := addresses + deeperAddresses, transactions + deeperTransactions;
    } else {
      assert beyond == [] && window + beyond == window;
      FirstWindow(w, window, window);
    }
  }

  /** Addresses of a whole window, followed by those of the first indices beyond it. */
  lemma AddressesAppend(w: World, window: seq<int>, a: seq<ImportAddress>, beyond: seq<int>, b: seq<ImportAddress>)
    requires |a| == |window| && forall k | 0 <= k < |a| :: a[k] == ImportAddress(w.derive(window[k]), window[k])
    requires |b| <= |beyond| && forall k | 0 <= k < |b| :: b[k] == ImportAddress(w.derive(beyond[k]), beyond[k])
    ensures (window + beyond)[..|a + b|] == window + beyond[..|b|]
    ensures forall k | 0 <= k < |a + b| ::
              (a + b)[k] == ImportAddress(w.derive((window + beyond)[k]), (window + beyond)[k])
  {
  }

  lemma FirstWindow(w: World, window: seq<int>, all: seq<int>)
    requires window <= all
    ensures |window| <= |all| && all[..|window|] == window
  {
  }

  /**
   A whole scan from `start`: every index up to the gap past `last` is derived, once and in order. `last` is the
   last used index the gap rule reaches: each used one up to it lies within the gap of one before it, or of the start,
   and no used one lies within the gap beyond it. Exactly the known transactions of the used addresses are returned,
   unless fetching them failed.
   */
  method ScanChain(w: World, start: int, gap: nat)
    returns (addresses: seq<ImportAddress>, transactions: seq<Txid>, ghost last: int)
    requires HonestWorld(w) && NeverFails(w)
    ensures last == start - 1 || (start <= last && last in w.used)
    ensures forall i | i in w.used :: i <= last || i > last + gap
    ensures forall i | i in w.used && start + gap <= i <= last ::
              exists j | j in w.used :: start <= j < i <= j + gap
    ensures |addresses| == last + gap + 1 - start
    ensures forall k | 0 <= k < |addresses| :: addresses[k] == ImportAddress(w.derive(start + k), start + k)
    ensures forall t | t in transactions ::
              w.hasTx(t) && exists i | i in w.used :: start <= i <= last && t in w.txidsOf(i)
    ensures FetchesSucceed(w) ==>
              forall i, t | i in w.used && start <= i <= last && t in w.txidsOf(i) && w.hasTx(t) :: t in transactions
  {
    addresses, transactions := Scan(w, start - 1, start - 1, gap, {});
    last := LastReached(w.used, start, start - 1, gap);
    GapRule(w.used, start, start - 1, gap);
    RangeMembers(start, last + gap + 1);
    ghost var all := Reference(w, start - 1, start - 1, gap);
    assert all[..|addresses|] == all;
    forall i | i in w.used && start + gap <= i <= last
      ensures exists j | j in w.used :: start <= j < i <= j + gap
    {
      var before := LastUsedIn(w.used, start, i, start - 1);
      assert UsedInGap(w.used, before, gap);
    }
  }
}
