/** Validation, shifting, immediate pushes and chained storage of a script of delayed transactions. */
module Scheduler {
  import Orchestrator
  import opened Wrappers
  import opened ScheduledTable
  import opened ScheduleHistory
  import opened ScheduledDb

  datatype Entry = Entry(tx: string, hop: int, nlocktime: int, strictModeVouts: Option<seq<int>>, delta: int)

  datatype Config = Config(maxNbEntries: nat, maxDeltaHeight: nat)

  datatype Decoded = Decoded(txid: Txid, locktime: nat)

  datatype Fault = Fault(txid: Txid, hop: int, vout: int)

  datatype Error =
    | ScriptSize | NoScript | ScheduledTooFar | NLockMismatch | ScheduledBadOrder
    | Vout | Parse | StrictModeViolation(faults: seq<Fault>) | PushFailed | StoreFailed

  /** Block height, transaction parser, strict-mode check and push, as seen during one call. */
  datatype Node = Node(lastHeight: int, decode: string -> Option<Decoded>,
                       strict: (string, seq<int>) -> Result<seq<int>, Error>, push: (nat, string) -> bool)

  // ----- ordering by hop, then by nlocktime (a stable sort)

  predicate AtMost(a: Entry, b: Entry) {
    a.hop < b.hop || (a.hop == b.hop && a.nlocktime <= b.nlocktime)
  }

  ghost predicate Ordered(s: seq<Entry>) {
    forall i, j | 0 <= i < j < |s| :: AtMost(s[i], s[j])
  }

  function Insert(e: Entry, s: seq<Entry>): (r: seq<Entry>)
    ensures multiset(r) == multiset(s) + multiset{e}
  {
    if s == [] || AtMost(e, s[0]) then [e] + s
    else
      assert s == [s[0]] + s[1..];
      [s[0]] + Insert(e, s[1..])
  }

  function SortScript(s: seq<Entry>): (r: seq<Entry>)
    ensures multiset(r) == multiset(s)
  {
    if s == [] then []
    else
      assert s == [s[0]] + s[1..];
      Insert(s[0], SortScript(s[1..]))
  }

  lemma {:induction false} InsertOrdered(e: Entry, s: seq<Entry>)
    requires Ordered(s)
    ensures Ordered(Insert(e, s))
  {
    if s != [] && !AtMost(e, s[0]) {
      InsertOrdered(e, s[1..]);
      var r := Insert(e, s[1..]);
      forall j | 0 <= j < |r|
        ensures AtMost(s[0], r[j])
      {
        assert r[j] in multiset(r) && multiset(r) == multiset(s[1..]) + multiset{e};
        assert r[j] == e || r[j] in s[1..];
      }
    }
  }

  /** The entries with one hop and nlocktime, in their order. */
  function Alike(s: seq<Entry>, hop: int, nlocktime: int): seq<Entry> {
    if s == [] then []
    else (if s[0].hop == hop && s[0].nlocktime == nlocktime then [s[0]] else []) + Alike(s[1..], hop, nlocktime)
  }

  lemma {:induction false} InsertStable(e: Entry, s: seq<Entry>, hop: int, nlocktime: int)
    ensures Alike(Insert(e, s), hop, nlocktime) ==
            (if e.hop == hop && e.nlocktime == nlocktime then [e] else []) + Alike(s, hop, nlocktime)
  {
    if s == [] || AtMost(e, s[0]) {
      assert ([e] + s)[1..] == s;
    } else {
      InsertStable(e, s[1..], hop, nlocktime);
      assert ([s[0]] + Insert(e, s[1..]))[1..] == Insert(e, s[1..]);
    }
  }

  /** The sort keeps the script's entries and orders them by hop, then by nlocktime; ties stay in order. */
  lemma {:induction false} SortedScript(s: seq<Entry>)
    ensures Ordered(SortScript(s)) && multiset(SortScript(s)) == multiset(s)
    ensures |SortScript(s)| == |s|
    ensures var r := SortScript(s);
            forall i, j | 0 <= i < j < |r| ::
              r[i].hop < r[j].hop || (r[i].hop == r[j].hop && r[i].nlocktime <= r[j].nlocktime)
    ensures forall hop, nlocktime :: Alike(SortScript(s), hop, nlocktime) == Alike(s, hop, nlocktime)
  {
    if s != [] {
      SortedScript(s[1..]);
      InsertOrdered(s[0], SortScript(s[1..]));
      forall hop, nlocktime
        ensures Alike(SortScript(s), hop, nlocktime) == Alike(s, hop, nlocktime)
      {
        InsertStable(s[0], SortScript(s[1..]), hop, nlocktime);
      }
    }
    assert |multiset(SortScript(s))| == |SortScript(s)| && |multiset(s)| == |s|;
  }

  // ----- what is promised about a script

  function Max(a: int, b: int): int {
    if a > b then a else b
  }

  function BaseHeight(s: seq<Entry>, lastHeight: int): int
    requires s != []
  {
    Max(lastHeight, s[0].nlocktime)
  }

  function Trigger(s: seq<Entry>, lastHeight: int, i: nat): int
    requires i < |s|
  {
    BaseHeight(s, lastHeight) + (s[i].nlocktime - s[0].nlocktime)
  }

  ghost predicate EntryAccepted(s: seq<Entry>, i: nat, cfg: Config, node: Node)
    requires i < |s|
  {
    var e := s[i];
    var d := node.decode(e.tx);
    && e.nlocktime - s[0].nlocktime <= cfg.maxDeltaHeight
    && d.Some? && d.value.locktime != 0 && d.value.locktime == e.nlocktime
    && (i > 0 && e.hop != s[i - 1].hop ==> s[i - 1].nlocktime <= e.nlocktime)
    && (e.strictModeVouts.Some? && e.strictModeVouts.value != [] ==>
          node.strict(e.tx, e.strictModeVouts.value) == Ok([]))
  }

  /** A sorted script gets through all validations. */
  ghost predicate Accepted(s: seq<Entry>, cfg: Config, node: Node) {
    && 0 < |s| <= cfg.maxNbEntries
    && s[0].nlocktime <= node.lastHeight + cfg.maxDeltaHeight
    && forall i | 0 <= i < |s| :: EntryAccepted(s, i, cfg, node)
  }

  /** The entries pushed at once: a prefix of the script. */
  function ImmediateCount(s: seq<Entry>, lastHeight: int): (k: nat)
    requires s != []
    ensures k <= |s|
  {
    if s[0].nlocktime <= lastHeight then ZeroDeltas(s, s[0].nlocktime) else 0
  }

  function ZeroDeltas(s: seq<Entry>, first: int): (k: nat)
    ensures k <= |s|
    ensures forall i | 0 <= i < k :: s[i].nlocktime == first
    ensures k < |s| ==> s[k].nlocktime != first
  {
    if s == [] || s[0].nlocktime != first then 0 else 1 + ZeroDeltas(s[1..], first)
  }

  ghost predicate Decodable(s: seq<Entry>, node: Node) {
    forall j | 0 <= j < |s| :: node.decode(s[j].tx).Some?
  }

  ghost function TxidBefore(s: seq<Entry>, node: Node, i: nat): Option<Txid>
    requires i <= |s| && Decodable(s, node)
  {
    if i == 0 then None else Some(node.decode(s[i - 1].tx).value.txid)
  }

  /** The height the delay of entry `i` counts from. */
  function HeightBefore(s: seq<Entry>, lastHeight: int, k: nat, i: nat): int
    requires k <= i <= |s| && s != []
  {
    if i == k then BaseHeight(s, lastHeight) else Trigger(s, lastHeight, i - 1)
  }

  /** The delay stored with entry `i` when the first `k` entries were pushed. */
  function Delay(s: seq<Entry>, lastHeight: int, k: nat, i: nat): int
    requires k <= i < |s|
  {
    Trigger(s, lastHeight, i) - HeightBefore(s, lastHeight, k, i)
  }

  lemma {:induction false} NLockTimesRise(s: seq<Entry>, cfg: Config, node: Node, i: nat, j: nat)
    requires Ordered(s) && Accepted(s, cfg, node) && i <= j < |s|
    ensures s[i].nlocktime <= s[j].nlocktime
    decreases j - i
  {
    if i < j {
      NLockTimesRise(s, cfg, node, i, j - 1);
      assert AtMost(s[j - 1], s[j]) && EntryAccepted(s, j, cfg, node);
    }
  }

  /** Triggers of an accepted script rise in hop order and stay within the allowed range of blocks. */
  lemma TriggersInRange(s: seq<Entry>, cfg: Config, node: Node, i: nat, j: nat)
    requires Ordered(s) && Accepted(s, cfg, node) && i <= j < |s|
    ensures var base := BaseHeight(s, node.lastHeight);
            base <= Trigger(s, node.lastHeight, i) <= Trigger(s, node.lastHeight, j) <= base + cfg.maxDeltaHeight
    ensures Trigger(s, node.lastHeight, j) - Trigger(s, node.lastHeight, i) == s[j].nlocktime - s[i].nlocktime
    ensures s[i].nlocktime <= Trigger(s, node.lastHeight, i)
    ensures Trigger(s, node.lastHeight, 0) ==
            if s[0].nlocktime < node.lastHeight then node.lastHeight else s[0].nlocktime
  {
    NLockTimesRise(s, cfg, node, i, j);
    NLockTimesRise(s, cfg, node, 0, i);
    assert EntryAccepted(s, j, cfg, node);
  }

  /** The pushed prefix is exactly the entries without delta, provided the first one is final already. */
  lemma ImmediatePrefix(s: seq<Entry>, cfg: Config, node: Node, i: nat)
    requires Ordered(s) && Accepted(s, cfg, node) && i < |s|
    ensures i < ImmediateCount(s, node.lastHeight) <==>
            s[0].nlocktime <= node.lastHeight && s[i].nlocktime - s[0].nlocktime == 0
  {
    var k := ImmediateCount(s, node.lastHeight);
    if k <= i && s[0].nlocktime <= node.lastHeight {
      NLockTimesRise(s, cfg, node, 0, k);
      NLockTimesRise(s, cfg, node, k, i);
    }
  }

  function SumOfDelays(s: seq<Entry>, lastHeight: int, k: nat, i: nat): int
    requires k <= i < |s|
    decreases i - k
  {
    Delay(s, lastHeight, k, i) + if i == k then 0 else SumOfDelays(s, lastHeight, k, i - 1)
  }

  /** Stored delays are never negative, and those up to an entry add up to its trigger. */
  lemma {:induction false} DelaysTelescope(s: seq<Entry>, cfg: Config, node: Node, i: nat)
    requires Ordered(s) && Accepted(s, cfg, node)
    requires ImmediateCount(s, node.lastHeight) <= i < |s|
    ensures var k, lastHeight := ImmediateCount(s, node.lastHeight), node.lastHeight;
            && 0 <= Delay(s, lastHeight, k, i)
            && Trigger(s, lastHeight, i) == BaseHeight(s, lastHeight) + SumOfDelays(s, lastHeight, k, i)
            && (i > k ==> Delay(s, lastHeight, k, i) == s[i].nlocktime - s[i - 1].nlocktime)
            && (i == k > 0 ==> Delay(s, lastHeight, k, i) == s[i].nlocktime - s[0].nlocktime)
            && (i == k == 0 ==> Delay(s, lastHeight, k, i) == 0)
    decreases i
  {
    if i > ImmediateCount(s, node.lastHeight) {
      TriggersInRange(s, cfg, node, i - 1, i);
      DelaysTelescope(s, cfg, node, i - 1);
    } else {
      TriggersInRange(s, cfg, node, i, i);
    }
  }

  // ----- the validation loop, in the order of its checks

  datatype Scan = Scan(lastHop: int, lastLockTime: int, faults: seq<Fault>)

  function CheckEntry(e: Entry, first: int, scan: Scan, cfg: Config, node: Node): Result<Scan, Error> {
    if e.nlocktime - first > cfg.maxDeltaHeight then Err(ScheduledTooFar)
    else match node.decode(e.tx)
         case None => Err(Parse)
         case Some(tx) =>
           if !(tx.locktime != 0 && tx.locktime == e.nlocktime) then Err(NLockMismatch)
           else if e.hop != scan.lastHop && e.nlocktime < scan.lastLockTime then Err(ScheduledBadOrder)
           else if e.strictModeVouts.None? || e.strictModeVouts.value == [] then
             Ok(Scan(e.hop, e.nlocktime, scan.faults))
           else match node.strict(e.tx, e.strictModeVouts.value)
                case Err(error) => Err(error)
                case Ok(vouts) =>
                  Ok(Scan(e.hop, e.nlocktime,
                          scan.faults + seq(|vouts|, i requires 0 <= i < |vouts| => Fault(tx.txid, e.hop, vouts[i]))))
  }

  /** Each error means what it says. */
  lemma EntryErrors(e: Entry, first: int, scan: Scan, cfg: Config, node: Node)
    ensures var r, d := CheckEntry(e, first, scan, cfg, node), node.decode(e.tx);
            && (r == Err(ScheduledTooFar) <== e.nlocktime > first + cfg.maxDeltaHeight)
            && (e.nlocktime <= first + cfg.maxDeltaHeight ==>
                  && (d.None? ==> r == Err(Parse))
                  && (d.Some? && (d.value.locktime == 0 || d.value.locktime != e.nlocktime) ==> r == Err(NLockMismatch))
                  && (d.Some? && 0 != d.value.locktime == e.nlocktime && e.hop != scan.lastHop
                      && e.nlocktime < scan.lastLockTime
                      ==> r == Err(ScheduledBadOrder)))
            && (r.Ok? ==>
                  && r.value.lastHop == e.hop && r.value.lastLockTime == e.nlocktime && scan.faults <= r.value.faults
                  && forall f | f in r.value.faults[|scan.faults|..] ::
                       d.Some? && f.txid == d.value.txid && f.hop == e.hop)
  {
  }

  function CheckUpTo(s: seq<Entry>, n: nat, cfg: Config, node: Node): Result<Scan, Error>
    requires n <= |s|
  {
    if n == 0 then Ok(Scan(-1, -1, []))
    else match CheckUpTo(s, n - 1, cfg, node)
         case Err(error) => Err(error)
         case Ok(scan) => CheckEntry(s[n - 1], s[0].nlocktime, scan, cfg, node)
  }

  /** The error raised for a sorted script before anything is pushed or stored, if any. */
  function Verdict(s: seq<Entry>, cfg: Config, node: Node): Option<Error> {
    if |s| > cfg.maxNbEntries then Some(ScriptSize)
    else if |s| == 0 then Some(NoScript)
    else if s[0].nlocktime > node.lastHeight + cfg.maxDeltaHeight then Some(ScheduledTooFar)
    else match CheckUpTo(s, |s|, cfg, node)
         case Err(error) => Some(error)
         case Ok(scan) => if scan.faults != [] then Some(StrictModeViolation(scan.faults)) else None
  }

  lemma {:induction false} CheckUpToIff(s: seq<Entry>, n: nat, cfg: Config, node: Node)
    requires n <= |s|
    ensures (CheckUpTo(s, n, cfg, node).Ok? && CheckUpTo(s, n, cfg, node).value.faults == [])
            <==> forall i | 0 <= i < n :: EntryAccepted(s, i, cfg, node)
    ensures n > 0 && CheckUpTo(s, n, cfg, node).Ok? ==>
              && CheckUpTo(s, n, cfg, node).value.lastHop == s[n - 1].hop
              && CheckUpTo(s, n, cfg, node).value.lastLockTime == s[n - 1].nlocktime
  {
    if n > 0 {
      CheckUpToIff(s, n - 1, cfg, node);
      var before, after := CheckUpTo(s, n - 1, cfg, node), CheckUpTo(s, n, cfg, node);
      if before.Ok? && after.Ok? {
        assert |after.value.faults| >= |before.value.faults|;
      }
      assert (after.Ok? && after.value.faults == []) <==>
             before.Ok? && before.value.faults == [] && EntryAccepted(s, n - 1, cfg, node);
    }
  }

  /** A script passes exactly when every declared condition holds. */
  lemma VerdictIff(s: seq<Entry>, cfg: Config, node: Node)
    ensures Verdict(s, cfg, node).None? <==> Accepted(s, cfg, node)
  {
    CheckUpToIff(s, |s|, cfg, node);
  }

  // ----- the scheduler itself

  class Script {
    var entries: seq<Entry>

    constructor (entries: seq<Entry>)
      ensures this.entries == entries
    {
      this.entries := entries;
    }
  }

  function Shifted(s: seq<Entry>, lastHeight: int, i: nat): Entry
    requires i < |s|
  {
    s[i].(delta := s[i].nlocktime - s[0].nlocktime, nlocktime := Trigger(s, lastHeight, i))
  }

  /** The first `i` entries are rewritten, the others as they were. */
  ghost predicate Rewritten(entries: seq<Entry>, s: seq<Entry>, lastHeight: int, i: nat) {
    && |entries| == |s|
    && (forall j | 0 <= j < |s| :: entries[j] == if j < i then Shifted(s, lastHeight, j) else s[j])
  }

  lemma CheckStep(s: seq<Entry>, i: nat, scan: Scan, cfg: Config, node: Node)
    requires i < |s| && CheckUpTo(s, i, cfg, node) == Ok(scan)
    ensures CheckUpTo(s, i + 1, cfg, node) == CheckEntry(s[i], s[0].nlocktime, scan, cfg, node)
    ensures CheckEntry(s[i], s[0].nlocktime, scan, cfg, node).Err? ==>
              CheckUpTo(s, |s|, cfg, node) == CheckEntry(s[i], s[0].nlocktime, scan, cfg, node)
  {
    if CheckUpTo(s, i + 1, cfg, node).Err? {
      FailedPrefix(s, i + 1, |s|, cfg, node);
    }
  }

  /** Writes delta and nlocktime of one entry. */
  method RewriteEntry(script: Script, i: nat, nltTx0: int, baseHeight: int, ghost s: seq<Entry>, ghost lastHeight: int)
    requires i < |s| && nltTx0 == s[0].nlocktime && baseHeight == BaseHeight(s, lastHeight)
    requires Rewritten(script.entries, s, lastHeight, i)
    modifies script
    ensures Rewritten(script.entries, s, lastHeight, i + 1)
  {
    var entry := script.entries[i];
    var delta := entry.nlocktime - nltTx0;
    script.entries := script.entries[i := entry.(
      delta := delta,
      nlocktime := if baseHeight != nltTx0 then baseHeight + delta else entry.nlocktime)];
  }

  /** Checks the entries one by one, rewriting delta and nlocktime as it goes. */
  method CheckEntries(script: Script, cfg: Config, node: Node, baseHeight: int) returns (checked: Result<Scan, Error>)
    requires script.entries != [] && baseHeight == BaseHeight(script.entries, node.lastHeight)
    modifies script
    ensures checked == CheckUpTo(old(script.entries), |old(script.entries)|, cfg, node)
    ensures checked.Ok? ==> IsRest(script.entries, old(script.entries), node.lastHeight, 0)
    ensures checked.Ok? ==>
              var s := old(script.entries);
              && |script.entries| == |s|
              && forall j | 0 <= j < |s| ::
                   script.entries[j] == s[j].(delta := s[j].nlocktime - s[0].nlocktime,
                                              nlocktime := s[j].nlocktime +
                                                           if s[0].nlocktime < node.lastHeight
                                                           then node.lastHeight - s[0].nlocktime else 0)
  {
    ghost var s := script.entries;
    var nltTx0 := script.entries[0].nlocktime;
    var scan := Scan(-1, -1, []);
    for i := 0 to |script.entries|
      invariant Rewritten(script.entries, s, node.lastHeight, i)
      invariant CheckUpTo(s, i, cfg, node) == Ok(scan)
    {
      checked := CheckEntry(script.entries[i], nltTx0, scan, cfg, node);
      CheckStep(s, i, scan, cfg, node);
      if checked.Err? {
        return;
      }
      scan := checked.value;
      RewriteEntry(script, i, nltTx0, baseHeight, s, node.lastHeight);
    }
    checked := Ok(scan);
  }

  /** Everything `schedule` does before it pushes or stores: sort, range check, entry checks. */
  method Validate(script: Script, cfg: Config, node: Node) returns (error: Option<Error>, baseHeight: int)
    modifies script
    ensures error == Verdict(SortScript(old(script.entries)), cfg, node)
    ensures error.None? ==>
              && script.entries != [] && IsRest(script.entries, SortScript(old(script.entries)), node.lastHeight, 0)
              && baseHeight == BaseHeight(SortScript(old(script.entries)), node.lastHeight)
  {
    SortedScript(script.entries);
    baseHeight := node.lastHeight;
    if |script.entries| > cfg.maxNbEntries { return Some(ScriptSize), baseHeight; }
    if |script.entries| == 0 { return Some(NoScript), baseHeight; }
    script.entries := SortScript(script.entries);
    var nltTx0 := script.entries[0].nlocktime;
    if nltTx0 > node.lastHeight + cfg.maxDeltaHeight { return Some(ScheduledTooFar), baseHeight; }
    baseHeight := Max(node.lastHeight, nltTx0);
    var checked := CheckEntries(script, cfg, node, baseHeight);
    error := match checked
             case Err(e) => Some(e)
             case Ok(scan) => if scan.faults != [] then Some(StrictModeViolation(scan.faults)) else None;
  }

  lemma {:induction false} FailedPrefix(s: seq<Entry>, n: nat, m: nat, cfg: Config, node: Node)
    requires n <= m <= |s| && CheckUpTo(s, n, cfg, node).Err?
    ensures CheckUpTo(s, m, cfg, node) == CheckUpTo(s, n, cfg, node)
    decreases m - n
  {
    if n < m { FailedPrefix(s, n, m - 1, cfg, node); }
  }

  /** The rewritten script without its first `k` entries. */
  ghost predicate IsRest(entries: seq<Entry>, s: seq<Entry>, lastHeight: int, k: nat) {
    && k <= |s| && |entries| == |s| - k
    && forall j | 0 <= j < |entries| :: entries[j] == Shifted(s, lastHeight, k + j)
  }

  /** The raw transactions of the first `n` entries. */
  function RawTxs(s: seq<Entry>, n: nat): seq<string>
    requires n <= |s|
  {
    if n == 0 then [] else RawTxs(s, n - 1) + [s[n - 1].tx]
  }

  /** Pushes the leading entries that are final already and have no delta, removing them from the script. */
  method PushImmediate(script: Script, ghost s: seq<Entry>, node: Node, baseHeight: int)
    returns (pushed: seq<string>, ok: bool, parentTxid: Option<Txid>, parentNlocktime: int)
    requires s != [] && Decodable(s, node) && IsRest(script.entries, s, node.lastHeight, 0)
    requires baseHeight == BaseHeight(s, node.lastHeight)
    modifies script
    ensures |pushed| <= ImmediateCount(s, node.lastHeight) && pushed == RawTxs(s, |pushed|)
    ensures ok ==>
              && |pushed| == ImmediateCount(s, node.lastHeight)
              && IsRest(script.entries, s, node.lastHeight, |pushed|)
              && parentTxid == TxidBefore(s, node, |pushed|) && parentNlocktime == baseHeight
    ensures !ok ==> |pushed| < ImmediateCount(s, node.lastHeight) && !node.push(|pushed|, s[|pushed|].tx)
  {
    pushed, ok, parentTxid, parentNlocktime := [], true, None, baseHeight;
    ghost var n := 0;
    while |script.entries| > 0 && script.entries[0].nlocktime <= node.lastHeight && script.entries[0].delta == 0
      invariant n == |pushed| <= ImmediateCount(s, node.lastHeight) && pushed == RawTxs(s, n)
      invariant IsRest(script.entries, s, node.lastHeight, n)
      invariant parentTxid == TxidBefore(s, node, n) && parentNlocktime == baseHeight
      decreases |script.entries|
    {
      assert script.entries[0] == Shifted(s, node.lastHeight, n);
      if !node.push(|pushed|, script.entries[0].tx) {
        ok := false;
        return;
      }
      pushed := pushed + [script.entries[0].tx];
      parentTxid := Some(node.decode(script.entries[0].tx).value.txid);
      parentNlocktime := script.entries[0].nlocktime;
      script.entries := script.entries[1..];
      n := n + 1;
    }
    assert n < |s| ==> script.entries[0] == Shifted(s, node.lastHeight, n);
  }

  // ----- storage

  /** What comes in between: a block for the orchestrator, with the node it then asks, or a row of another script. */
  datatype Activity = Block(height: int, node: Orchestrator.Node) | Other(row: Row)

  ghost predicate Quiet(others: nat -> seq<Activity>) {
    forall j :: others(j) == []
  }

  ghost predicate FromOthers(others: nat -> seq<Activity>, row: Row) {
    exists j, i: nat | i < |others(j)| :: others(j)[i] == Other(row)
  }

  /**
   What is going to be stored: the entries of the sorted script `s` from `k` on. `firstId`, `rows` and `run`
   are the next id, the table and the run before.
   */
  datatype Plan = Plan(s: seq<Entry>, node: Node, k: nat, firstId: nat, rows: Table, run: seq<Event>,
                       others: nat -> seq<Activity>)

  ghost predicate Sound(plan: Plan) {
    plan.s != [] && plan.k <= |plan.s| && Decodable(plan.s, plan.node)
  }

  /** Where an entry was stored: the position of the event in the run, and the id of the row. */
  datatype Slot = Slot(at: nat, id: nat)

  /** The predecessor of the entry stored next: its row id if it was stored, its txid and its height. */
  datatype Link = Link(id: Option<nat>, txid: Option<Txid>, nlocktime: int)

  ghost function LinkBefore(plan: Plan, slots: seq<Slot>, j: nat): Link
    requires Sound(plan) && j <= |slots| && plan.k + j <= |plan.s|
  {
    Link(if j == 0 then None else Some(slots[j - 1].id),
         TxidBefore(plan.s, plan.node, plan.k + j), HeightBefore(plan.s, plan.node.lastHeight, plan.k, plan.k + j))
  }

  /** The row planned for the j-th stored entry, below the row of the one before. */
  ghost function PlannedRow(plan: Plan, slots: seq<Slot>, j: nat): Row
    requires Sound(plan) && j <= |slots| && plan.k + j < |plan.s|
  {
    var i, before := plan.k + j, LinkBefore(plan, slots, j);
    Row(plan.node.decode(plan.s[i].tx).value.txid, plan.s[i].tx, before.id, before.txid,
        Delay(plan.s, plan.node.lastHeight, plan.k, i), Trigger(plan.s, plan.node.lastHeight, i))
  }

  /** The planned rows under their ids. */
  ghost function PlannedTable(plan: Plan, slots: seq<Slot>): Table
    requires Sound(plan) && plan.k + |slots| <= |plan.s|
  {
    if slots == [] then map[]
    else
      var m := |slots| - 1;
      PlannedTable(plan, slots[..m])[slots[m].id := PlannedRow(plan, slots[..m], m)]
  }

  /** The j-th slot holds the planned row, and slots come in order. */
  ghost predicate SlotHolds(states: seq<History>, run: seq<Event>, plan: Plan, slots: seq<Slot>, j: nat)
    requires Sound(plan) && j < |slots| && plan.k + |slots| <= |plan.s|
  {
    && |plan.run| <= slots[j].at && (j > 0 ==> slots[j - 1].at < slots[j].at)
    && StoresAs(states, run, slots[j].at, slots[j].id, PlannedRow(plan, slots, j))
  }

  /** A row stored since the beginning is in a slot, or comes from elsewhere. */
  ghost predicate IsAccounted(run: seq<Event>, plan: Plan, slots: seq<Slot>, p: nat)
    requires p < |run|
  {
    run[p].Stored? ==> (exists j | 0 <= j < |slots| :: slots[j].at == p) || FromOthers(plan.others, run[p].row)
  }

  /** Every row stored from position `from` on is triggered its delay after its predecessor. */
  ghost predicate AllExact(states: seq<History>, run: seq<Event>, from: nat) {
    && |states| == |run| + 1
    && forall i | from <= i < |run| && run[i].Stored? :: ParentTriggers(states[i], run[i].row)
  }

  /**
   With nothing in between, table and run have grown by the planned rows alone, under consecutive ids, and
   their delays are exact.
   */
  ghost predicate Undisturbed(rows: Table, run: seq<Event>, states: seq<History>, plan: Plan, slots: seq<Slot>)
    requires Sound(plan) && plan.k + |slots| <= |plan.s|
  {
    && rows == plan.rows + PlannedTable(plan, slots)
    && |run| == |plan.run| + |slots|
    && (forall j | 0 <= j < |slots| :: slots[j] == Slot(|plan.run| + j, plan.firstId + j))
    && AllExact(states, run, |plan.run|)
  }

  ghost predicate Grown(states: seq<History>, run: seq<Event>, plan: Plan, slots: seq<Slot>)
    requires Sound(plan)
  {
    && plan.run <= run && plan.k + |slots| <= |plan.s|
    && (forall j {:trigger SlotHolds(states, run, plan, slots, j)} | 0 <= j < |slots| ::
          SlotHolds(states, run, plan, slots, j))
    && (forall p {:trigger IsAccounted(run, plan, slots, p)} | |plan.run| <= p < |run| ::
          IsAccounted(run, plan, slots, p))
  }

  /** The first entries of the plan are stored in the slots; every other row stored since comes from elsewhere. */
  ghost predicate HoldsPlan(db: Db, plan: Plan, slots: seq<Slot>)
    requires Sound(plan)
    reads db
  {
    && db.Valid() && Grown(db.states, db.run, plan, slots)
    && (Quiet(plan.others) ==>
          Undisturbed(db.rows, db.run, db.states, plan, slots) && db.nextId == plan.firstId + |slots|)
  }

  /** Every row stored between the two runs is one of the given ones. */
  ghost predicate StoresOnly(before: seq<Event>, after: seq<Event>, acts: seq<Activity>) {
    && before <= after
    && forall p | |before| <= p < |after| && after[p].Stored? :: Other(after[p].row) in acts
  }

  /** The orchestrator handles the blocks, and other scripts store their rows, as far as the table accepts them. */
  method RunOthers(db: Db, acts: seq<Activity>)
    requires db.Valid()
    modifies db
    ensures db.Valid() && StoresOnly(old(db.run), db.run, acts)
    ensures acts == [] ==> db.View() == old(db.View())
  {
    for i := 0 to |acts|
      invariant db.Valid() && StoresOnly(old(db.run), db.run, acts)
      invariant i == 0 ==> db.View() == old(db.View())
    {
      ghost var run := db.run;
      match acts[i]
      case Block(height, node) =>
        var rpcConnOk := Orchestrator.OnBlockHash(db, height, node);
        assert StoresOnly(run, db.run, acts);
      case Other(row) =>
        var id := db.AddScheduledTransaction(row);
        assert Other(row) in acts && StoresOnly(run, db.run, acts);
    }
  }

  lemma OthersKeepGrown(states: seq<History>, run: seq<Event>, more: seq<History>, longer: seq<Event>, plan: Plan,
                        slots: seq<Slot>, j: nat)
    requires IsRun(states, run) && IsRun(more, longer) && Sound(plan) && Grown(states, run, plan, slots)
    requires StoresOnly(run, longer, plan.others(j))
    ensures Grown(more, longer, plan, slots)
  {
    forall l | 0 <= l < |slots|
      ensures SlotHolds(more, longer, plan, slots, l)
    {
      assert SlotHolds(states, run, plan, slots, l);
      StatesDecided(states, run, more, longer, slots[l].at);
    }
    forall p | |plan.run| <= p < |longer|
      ensures IsAccounted(longer, plan, slots, p)
    {
      if p < |run| {
        assert IsAccounted(run, plan, slots, p);
      } else if longer[p].Stored? {
        var i :| 0 <= i < |plan.others(j)| && plan.others(j)[i] == Other(longer[p].row);
      }
    }
  }

  /** Whatever comes before the j-th insert leaves the plan where it is. */
  method LetOthersPass(db: Db, others: nat -> seq<Activity>, j: nat, ghost plan: Plan, ghost slots: seq<Slot>)
    requires Sound(plan) && HoldsPlan(db, plan, slots) && plan.others == others
    modifies db
    ensures HoldsPlan(db, plan, slots)
  {
    ghost var states, run := db.states, db.run;
    RunOthers(db, others(j));
    OthersKeepGrown(states, run, db.states, db.run, plan, slots, j);
  }

  lemma StoreGrows(states: seq<History>, run: seq<Event>, h: History, plan: Plan, slots: seq<Slot>)
    requires Sound(plan) && Grown(states, run, plan, slots) && plan.k + |slots| < |plan.s|
    requires |states| == |run| + 1 && Storable(states[|run|].rows, PlannedRow(plan, slots, |slots|))
    ensures Grown(states + [h], run + [Stored(PlannedRow(plan, slots, |slots|))], plan,
                  slots + [Slot(|run|, states[|run|].nextId)])
  {
    var row := PlannedRow(plan, slots, |slots|);
    var all, more, longer := slots + [Slot(|run|, states[|run|].nextId)], states + [h], run + [Stored(row)];
    forall j | 0 <= j < |all|
      ensures SlotHolds(more, longer, plan, all, j)
    {
      if j < |slots| { assert SlotHolds(states, run, plan, slots, j); }
      if 0 < j == |slots| { assert SlotHolds(states, run, plan, slots, j - 1); }
    }
    forall p | |plan.run| <= p < |longer|
      ensures IsAccounted(longer, plan, all, p)
    {
      if p < |run| {
        assert IsAccounted(run, plan, slots, p);
        if j :| 0 <= j < |slots| && slots[j].at == p { assert all[j].at == p; }
      } else {
        assert all[|slots|].at == p;
      }
    }
  }

  lemma ExactMore(states: seq<History>, run: seq<Event>, from: nat, row: Row, n: History)
    requires from <= |run| && AllExact(states, run, from) && ParentTriggers(states[|run|], row)
    ensures AllExact(states + [n], run + [Stored(row)], from)
  {
  }

  lemma UndisturbedStep(rows: Table, run: seq<Event>, states: seq<History>, h: History, plan: Plan, slots: seq<Slot>)
    requires Sound(plan) && plan.k + |slots| < |plan.s| && Undisturbed(rows, run, states, plan, slots)
    requires states[|run|].rows == rows && states[|run|].pending.None?
    ensures var row, slot := PlannedRow(plan, slots, |slots|), Slot(|run|, plan.firstId + |slots|);
            Undisturbed(rows[slot.id := row], run + [Stored(row)], states + [h], plan, slots + [slot])
  {
    var m, row, slot := |slots|, PlannedRow(plan, slots, |slots|), Slot(|run|, plan.firstId + |slots|);
    assert (slots + [slot])[..m] == slots;
    if m > 0 {
      assert rows[slots[m - 1].id] == PlannedRow(plan, slots[..m - 1], m - 1);
    }
    ExactMore(states, run, |plan.run|, row, h);
  }

  /** Stores one entry below the previous one; fails only if the table refuses the row. */
  method StoreEntry(db: Db, entry: Entry, node: Node, parent: Link, ghost plan: Plan, ghost slots: seq<Slot>)
    returns (next: Option<Link>, ghost more: seq<Slot>)
    requires Sound(plan) && plan.node == node && plan.k + |slots| < |plan.s| && HoldsPlan(db, plan, slots)
    requires entry == Shifted(plan.s, node.lastHeight, plan.k + |slots|)
    requires parent == LinkBefore(plan, slots, |slots|)
    modifies db
    ensures next.Some? ==>
              && HoldsPlan(db, plan, more) && |more| == |slots| + 1 && slots <= more
              && next.value == LinkBefore(plan, more, |more|)
    ensures next.None? ==>
              more == slots && HoldsPlan(db, plan, slots) && !Storable(db.rows, PlannedRow(plan, slots, |slots|))
  {
    var txid := node.decode(entry.tx).value.txid;
    // The delay counts from the previous transaction
    var row := Row(txid, entry.tx, parent.id, parent.txid, entry.nlocktime - parent.nlocktime, entry.nlocktime);
    assert row == PlannedRow(plan, slots, |slots|);
    ghost var rows, run, states := db.rows, db.run, db.states;
    more := slots;
    var id := db.AddScheduledTransaction(row);
    if id.None? {
      return None, slots;
    }
    more := slots + [Slot(|run|, id.value)];
    StoreHolds(db, rows, run, states, plan, slots, id.value);
    next := Some(Link(id, Some(txid), entry.nlocktime));
    NextLink(plan, slots, Slot(|run|, id.value));
  }

  /** The table and the run after the insert, against those before it. */
  lemma StoreHolds(db: Db, rows: Table, run: seq<Event>, states: seq<History>, plan: Plan, slots: seq<Slot>, id: nat)
    requires Sound(plan) && plan.k + |slots| < |plan.s| && Grown(states, run, plan, slots) && IsRun(states, run)
    requires Quiet(plan.others) ==> Undisturbed(rows, run, states, plan, slots) && id == plan.firstId + |slots|
    requires var h := states[|run|];
             h.rows == rows && h.nextId == id && h.pending.None? && Storable(rows, PlannedRow(plan, slots, |slots|))
    requires db.Valid() && |db.states| == |states| + 1 && db.states[..|states|] == states && db.nextId == id + 1
    requires db.run == run + [Stored(PlannedRow(plan, slots, |slots|))]
    requires db.rows == rows[id := PlannedRow(plan, slots, |slots|)]
    ensures HoldsPlan(db, plan, slots + [Slot(|run|, id)])
  {
    var h := db.states[|states|];
    assert db.states == states + [h];
    StoreGrows(states, run, h, plan, slots);
    if Quiet(plan.others) {
      UndisturbedStep(rows, run, states, h, plan, slots);
    }
  }

  lemma NextLink(plan: Plan, slots: seq<Slot>, slot: Slot)
    requires Sound(plan) && plan.k + |slots| < |plan.s|
    ensures var i := plan.k + |slots|;
            LinkBefore(plan, slots + [slot], |slots| + 1) ==
            Link(Some(slot.id), Some(plan.node.decode(plan.s[i].tx).value.txid),
                 Trigger(plan.s, plan.node.lastHeight, i))
  {
  }

  /**
   Stores the remaining entries as a chain of rows, each below the previous one, up to the first row the
   table refuses. Before the j-th of them `others(j)` happens.
   */
  method StoreChain(db: Db, script: Script, node: Node, first: Link, others: nat -> seq<Activity>, ghost plan: Plan)
    returns (ok: bool, ghost slots: seq<Slot>)
    requires Sound(plan) && plan.node == node && plan.others == others && HoldsPlan(db, plan, [])
    requires IsRest(script.entries, plan.s, node.lastHeight, plan.k) && first == LinkBefore(plan, [], 0)
    modifies db
    ensures HoldsPlan(db, plan, slots) && (ok <==> plan.k + |slots| == |plan.s|)
    ensures !ok ==> !Storable(db.rows, PlannedRow(plan, slots, |slots|))
  {
    var parent := first;
    slots, ok := [], true;
    for j := 0 to |script.entries|
      invariant ok && |slots| == j && HoldsPlan(db, plan, slots) && parent == LinkBefore(plan, slots, j)
    {
      LetOthersPass(db, others, j, plan, slots);
      assert script.entries[j] == Shifted(plan.s, node.lastHeight, plan.k + j);
      var next;
      next, slots := StoreEntry(db, script.entries[j], node, parent, plan, slots);
      if next.None? {
        ok := false;
        return;
      }
      parent := next.value;
    }
  }

  /**
   Entry `k + j` of the sorted script as stored, spelt out: triggered the larger of last height and first
   nlocktime plus its distance to the first entry, below the row of the entry before.
   */
  ghost predicate StoresEntry(s: seq<Entry>, node: Node, k: nat, run: seq<Event>, slots: seq<Slot>, j: nat)
    requires j < |slots| && k + j < |s|
  {
    var e, first, at := s[k + j], s[0].nlocktime, slots[j].at;
    && at < |run| && run[at].Stored? && node.decode(e.tx).Some?
    && var row := run[at].row;
    && row.txid == node.decode(e.tx).value.txid && row.raw == e.tx
    && row.trigger == e.nlocktime + (if first < node.lastHeight then node.lastHeight - first else 0)
    && row.trigger >= e.nlocktime
    && row.parentId == (if j == 0 then None else Some(slots[j - 1].id))
    && (if k + j == 0 then row.parentTxid == None && row.delay == 0
        else
          && node.decode(s[k + j - 1].tx).Some?
          && row.parentTxid == Some(node.decode(s[k + j - 1].tx).value.txid)
          && row.delay == e.nlocktime - (if j == 0 then first else s[k + j - 1].nlocktime))
  }

  lemma SlotSpeltOut(states: seq<History>, run: seq<Event>, plan: Plan, slots: seq<Slot>, j: nat)
    requires Sound(plan) && Grown(states, run, plan, slots) && j < |slots|
    ensures StoresEntry(plan.s, plan.node, plan.k, run, slots, j)
  {
    assert SlotHolds(states, run, plan, slots, j);
  }

  /** The immediate prefix, spelt out: the leading entries at the first nlocktime, once that is reached. */
  ghost predicate IsImmediate(s: seq<Entry>, lastHeight: int, k: nat)
    requires s != []
  {
    forall i | 0 <= i < |s| :: i < k <==> s[0].nlocktime <= lastHeight && s[i].nlocktime == s[0].nlocktime
  }

  lemma {:induction false} RawTxsAt(s: seq<Entry>, n: nat, i: nat)
    requires i < n <= |s|
    ensures |RawTxs(s, n)| == n && RawTxs(s, n)[i] == s[i].tx
  {
    if i < n - 1 { RawTxsAt(s, n - 1, i); } else if n > 1 { RawTxsAt(s, n - 1, 0); }
  }

  /** What a schedule has done, spelt out. */
  lemma ScheduleSpeltOut(db: Db, plan: Plan, slots: seq<Slot>, cfg: Config, pushed: seq<string>)
    requires Sound(plan) && HoldsPlan(db, plan, slots) && plan.k == ImmediateCount(plan.s, plan.node.lastHeight)
    requires Ordered(plan.s) && Accepted(plan.s, cfg, plan.node)
    requires |pushed| <= plan.k && pushed == RawTxs(plan.s, |pushed|)
    ensures IsImmediate(plan.s, plan.node.lastHeight, plan.k)
    ensures forall i | 0 <= i < |pushed| :: pushed[i] == plan.s[i].tx
    ensures forall j | 0 <= j < |slots| :: StoresEntry(plan.s, plan.node, plan.k, db.run, slots, j)
  {
    forall i | 0 <= i < |plan.s|
      ensures i < plan.k <==>
              plan.s[0].nlocktime <= plan.node.lastHeight && plan.s[i].nlocktime == plan.s[0].nlocktime
    {
      ImmediatePrefix(plan.s, cfg, plan.node, i);
    }
    forall i | 0 <= i < |pushed|
      ensures pushed[i] == plan.s[i].tx
    {
      RawTxsAt(plan.s, |pushed|, i);
    }
    forall j | 0 <= j < |slots|
      ensures StoresEntry(plan.s, plan.node, plan.k, db.run, slots, j)
    {
      SlotSpeltOut(db.states, db.run, plan, slots, j);
    }
  }

  /** Pushes the immediate prefix of an accepted script, then stores the rest of it. */
  method PushAndStore(db: Db, script: Script, cfg: Config, node: Node, baseHeight: int, others: nat -> seq<Activity>,
                      ghost s: seq<Entry>)
    returns (result: Result<(), Error>, pushed: seq<string>, ghost plan: Plan, ghost slots: seq<Slot>)
    requires db.Valid() && Ordered(s) && Accepted(s, cfg, node)
    requires IsRest(script.entries, s, node.lastHeight, 0) && baseHeight == BaseHeight(s, node.lastHeight)
    modifies db, script
    ensures db.Valid() && Sound(plan)
    ensures plan == Plan(s, node, ImmediateCount(s, node.lastHeight), old(db.nextId), old(db.rows), old(db.run), others)
    ensures |pushed| <= plan.k && pushed == RawTxs(s, |pushed|) && HoldsPlan(db, plan, slots)
    ensures |pushed| < plan.k ==> slots == [] && !node.push(|pushed|, s[|pushed|].tx) && result == Err(PushFailed)
    ensures |pushed| == plan.k && plan.k + |slots| < |s| ==>
              !Storable(db.rows, PlannedRow(plan, slots, |slots|)) && result == Err(StoreFailed)
    ensures |pushed| == plan.k && plan.k + |slots| == |s| ==> result == Ok(())
  {
    AllDecodable(s, cfg, node);
    plan := Plan(s, node, ImmediateCount(s, node.lastHeight), db.nextId, db.rows, db.run, others);
    slots := [];
    var ok, parentTxid, parentNlocktime;
    pushed, ok, parentTxid, parentNlocktime := PushImmediate(script, s, node, baseHeight);
    if !ok {
      return Err(PushFailed), pushed, plan, [];
    }
    ok, slots := StoreChain(db, script, node, Link(None, parentTxid, parentNlocktime), others, plan);
    result := if ok then Ok(()) else Err(StoreFailed);
  }

  /**
   Schedules a script, while blocks arrive and other scripts are stored. A rejected script has no effect. An
   accepted one pushes its immediate prefix in order, stopping at the first failed push, and then stores the
   rest as one chain of planned rows, stopping at the first row the table refuses. If nothing comes in
   between, every stored row is triggered exactly its delay after its predecessor.
   */
  method Schedule(db: Db, script: Script, cfg: Config, node: Node, others: nat -> seq<Activity>)
    returns (result: Result<(), Error>, pushed: seq<string>, ghost plan: Plan, ghost slots: seq<Slot>)
    requires db.Valid()
    modifies db, script
    ensures db.Valid()
    ensures var s := SortScript(old(script.entries));
            match Verdict(s, cfg, node)
            case Some(error) => result == Err(error) && pushed == [] && db.run == old(db.run) && db.rows == old(db.rows)
            case None =>
              && s != [] && Sound(plan)
              && plan == Plan(s, node, ImmediateCount(s, node.lastHeight), old(db.nextId), old(db.rows), old(db.run),
                              others)
              && |pushed| <= plan.k && pushed == RawTxs(s, |pushed|) && HoldsPlan(db, plan, slots)
              && (|pushed| < plan.k ==>
                    slots == [] && !node.push(|pushed|, s[|pushed|].tx) && result == Err(PushFailed))
              && (|pushed| == plan.k && plan.k + |slots| < |s| ==>
                    !Storable(db.rows, PlannedRow(plan, slots, |slots|)) && result == Err(StoreFailed))
              && (|pushed| == plan.k && plan.k + |slots| == |s| ==> result == Ok(()))
              && IsImmediate(s, node.lastHeight, plan.k) && (forall i | 0 <= i < |pushed| :: pushed[i] == s[i].tx)
              && (forall j | 0 <= j < |slots| :: StoresEntry(s, node, plan.k, db.run, slots, j))
    ensures |old(script.entries)| > cfg.maxNbEntries ==> result == Err(ScriptSize)
    ensures |old(script.entries)| == 0 ==> result == Err(NoScript)
  {
    ghost var s := SortScript(script.entries);
    SortedScript(script.entries);
    VerdictIff(s, cfg, node);
    pushed, slots := [], [];
    plan := Plan(s, node, 0, db.nextId, db.rows, db.run, others);
    var error, baseHeight := Validate(script, cfg, node);
    if error.Some? {
      return Err(error.value), [], plan, [];
    }
    result, pushed, plan, slots := PushAndStore(db, script, cfg, node, baseHeight, others, s);
    ScheduleSpeltOut(db, plan, slots, cfg, pushed);
  }

  lemma AllDecodable(s: seq<Entry>, cfg: Config, node: Node)
    requires Accepted(s, cfg, node)
    ensures Decodable(s, node)
  {
    forall j | 0 <= j < |s|
      ensures node.decode(s[j].tx).Some?
    {
      assert EntryAccepted(s, j, cfg, node);
    }
  }
}
