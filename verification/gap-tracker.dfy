/**
 The tracker's derivation of new addresses: when a transaction pays a known address of an account, the
 chain is extended to the gap limit past it, and again past every newly derived address that the same
 transaction pays. Addresses are (chain, index) pairs, one address per index.
 */
module GapTracker {
  import opened GapScan

  // ----- the account's rows as sets of indices

  ghost predicate IsMax(s: set<nat>, m: int) {
    && m >= -1 && (m == -1 <==> s == {})
    && (m >= 0 ==> m in s)
    && forall i | i in s :: i <= m
  }

  /** SELECT MAX over an indexed column, -1 when there is no row. */
  method Highest(s: set<nat>) returns (m: int)
    ensures IsMax(s, m)
  {
    m := -1;
    var rest := s;
    while rest != {}
      invariant rest <= s && m >= -1
      invariant m == -1 ==> rest == s
      invariant m >= 0 ==> m in s
      invariant forall i | i in s && i !in rest :: i <= m
      decreases |rest|
    {
      var i :| i in rest;
      rest := rest - {i};
      if i > m { m := i; }
    }
  }

  ghost function Top(s: set<nat>): (m: int)
    ensures IsMax(s, m)
  {
    MaxExists(s);
    var m :| IsMax(s, m);
    m
  }

  lemma MaxExists(s: set<nat>)
    ensures exists m :: IsMax(s, m)
  {
    var m := FindMax(s);
  }

  lemma {:induction false} FindMax(s: set<nat>) returns (m: int)
    ensures IsMax(s, m)
    decreases |s|
  {
    if s == {} {
      m := -1;
    } else {
      var i :| i in s;
      m := FindMax(s - {i});
      assert s == (s - {i}) + {i};
      if i > m { m := i; }
    }
  }

  function Between(s: set<nat>, lo: int, hi: int): set<nat> {
    set i | i in s && lo <= i <= hi
  }

  ghost predicate Complete(s: set<nat>, lo: int, hi: int) {
    forall i: nat | lo <= i <= hi :: i in s
  }

  /** Counting rows finds holes: the count is full exactly when every index is there. */
  lemma {:induction false} CountIsFull(s: set<nat>, lo: nat, hi: int)
    requires lo <= hi + 1
    ensures |Between(s, lo, hi)| <= hi - lo + 1
    ensures |Between(s, lo, hi)| == hi - lo + 1 <==> Complete(s, lo, hi)
    decreases hi - lo
  {
    if lo > hi {
      assert Between(s, lo, hi) == {};
    } else {
      CountIsFull(s, lo, hi - 1);
      var rest := Between(s, lo, hi - 1);
      if hi in s {
        assert Between(s, lo, hi) == rest + {hi};
      } else {
        assert Between(s, lo, hi) == rest;
      }
    }
  }

  // ----- what one transaction does to one chain

  /**
   The indices derived for a transaction paying `paid`: nothing when no known address is paid, when the
   highest paid one does not advance the last used index, or when its gap is complete; otherwise the
   reference scan, continued past every paid index it meets.
   */
  ghost function NewIndices(derived: set<nat>, used: set<nat>, known: set<nat>, paid: set<int>, gap: nat): seq<int> {
    var m, last := Top(known), Top(derived);
    if known == {} || m < Top(used) + 1 then []
    else if last < m + gap then OneByOne(paid, last + 1, m, gap)
    else if Complete(derived, m, m + gap) then []
    else OneByOne(paid, m + 1, m, gap)
  }

  function PaidIn(indices: seq<int>, paid: set<nat>): set<nat> {
    set i: nat | i in paid && i in indices
  }

  /** Looks for outputs of the transaction among freshly derived addresses. */
  method CheckDerived(lo: int, indices: seq<int>, paid: set<nat>, maxUsedIndex: int)
    returns (done: bool, highest: int, usedNew: set<nat>)
    requires 0 <= lo && forall k | 0 <= k < |indices| :: indices[k] == lo + k
    ensures usedNew == PaidIn(indices, paid) && (done <==> usedNew == {})
    ensures highest == LastUsedIn(paid, lo, lo + |indices|, maxUsedIndex)
  {
    done, highest, usedNew := true, maxUsedIndex, {};
    for k := 0 to |indices|
      invariant usedNew == PaidIn(indices[..k], paid) && (done <==> usedNew == {})
      invariant highest == LastUsedIn(paid, lo, lo + k, maxUsedIndex)
    {
      var index := indices[k];
      LastUsedInStep(paid, lo, lo + k, maxUsedIndex);
      PaidInStep(indices, k, paid);
      if index in paid {
        // Paid, though it was not derived before
        highest, usedNew, done := index, usedNew + {index}, false;
      }
    }
    assert indices[..|indices|] == indices;
  }

  lemma PaidInStep(indices: seq<int>, k: nat, paid: set<nat>)
    requires k < |indices|
    ensures PaidIn(indices[..k + 1], paid)
         == PaidIn(indices[..k], paid) + (if indices[k] in paid then {indices[k]} else {})
  {
  }

  lemma PaidInAppend(a: seq<int>, b: seq<int>, paid: set<nat>)
    ensures PaidIn(a + b, paid) == PaidIn(a, paid) + PaidIn(b, paid)
  {
  }

  /** What the reference scan still has to derive above `d`. */
  ghost function StillToDerive(done: bool, paid: set<nat>, d: int, m: int, gap: nat): seq<int> {
    if done then [] else OneByOne(paid, d + 1, m, gap)
  }

  /** One round of the do/while loop: derive up to the gap and look for paid addresses among the new ones. */
  method Round(paid: set<nat>, d: nat, m: nat, gap: nat)
    returns (done: bool, indices: seq<int>, highest: nat, found: set<nat>)
    requires m <= d <= m + gap
    ensures OneByOne(paid, d + 1, m, gap) == indices + StillToDerive(done, paid, m + gap, highest, gap)
    ensures highest <= m + gap <= highest + gap
    ensures found == PaidIn(indices, paid)
    ensures !done ==> |Above(paid, m + gap)| < |Above(paid, d)|
  {
    var minIndex, maxIndex := d + 1, m + gap + 1;
    indices := Range(minIndex, maxIndex);
    var h;
    done, h, found := CheckDerived(minIndex, indices, paid, m);
    RoundEnds(paid, d, m, gap, indices, found, h);
    highest := h;
  }

  /** The do/while loop: derive up to the gap, look for paid addresses among the new ones, repeat. */
  method Extend(paid: set<nat>, derivedIndex: nat, maxUsedIndex: nat, gap: nat)
    returns (newIndices: seq<int>, usedNew: set<nat>)
    requires maxUsedIndex <= derivedIndex <= maxUsedIndex + gap
    ensures newIndices == OneByOne(paid, derivedIndex + 1, maxUsedIndex, gap)
    ensures usedNew == PaidIn(newIndices, paid)
  {
    newIndices, usedNew := [], {};
    var d: nat, m: nat := derivedIndex, maxUsedIndex;
    var done := false;
    ghost var all := OneByOne(paid, d + 1, m, gap);
    while !done
      invariant m <= d <= m + gap
      invariant all == newIndices + StillToDerive(done, paid, d, m, gap)
      invariant usedNew == PaidIn(newIndices, paid)
      decreases !done, |Above(paid, d)|
    {
      var indices, highest, found;
      done, indices, highest, found := Round(paid, d, m, gap);
      PaidInAppend(newIndices, indices, paid);
      Regroup(newIndices, indices, StillToDerive(done, paid, m + gap, highest, gap));
      newIndices, usedNew := newIndices + indices, usedNew + found;
      // The rows now reach this far
      d, m := m + gap, highest;
    }
  }

  lemma Regroup(a: seq<int>, b: seq<int>, c: seq<int>)
    ensures a + (b + c) == (a + b) + c
  {
  }

  lemma RoundEnds(paid: set<nat>, d: int, m: int, gap: nat, indices: seq<int>, found: set<nat>, highest: int)
    requires 0 <= m <= d <= m + gap && indices == Range(d + 1, m + gap + 1) && found == PaidIn(indices, paid)
    requires highest == LastUsedIn(paid, d + 1, m + gap + 1, m)
    ensures m <= highest <= m + gap <= highest + gap
    ensures found != {} ==> |Above(paid, m + gap)| < |Above(paid, d)|
    ensures OneByOne(paid, d + 1, m, gap) == indices + StillToDerive(found == {}, paid, m + gap, highest, gap)
  {
    WholeWindow(paid, d + 1, m, gap, m + gap + 1);
    FoundAbove(paid, d, m + gap, indices, found, highest, m);
    AboveShrinks(paid, d, m + gap);
  }

  lemma FoundAbove(paid: set<nat>, d: int, e: int, indices: seq<int>, found: set<nat>, highest: int, m: int)
    requires 0 <= m <= d <= e && indices == Range(d + 1, e + 1) && found == PaidIn(indices, paid)
    requires highest == LastUsedIn(paid, d + 1, e + 1, m)
    ensures if found == {} then highest == m else exists i :: i in paid && d < i <= e
  {
    RangeMembers(d + 1, e + 1);
    assert highest != m ==> highest in found;
    if i :| i in found {
      assert i in paid && d < i <= e;
    }
  }

  /** One chain of `_deriveNewAddresses`; `known` are the paid addresses already in the account. */
  method DeriveChain(derived: set<nat>, used: set<nat>, known: set<nat>, paid: set<nat>, gap: nat)
    returns (newIndices: seq<int>, usedNew: set<nat>)
    requires known <= derived
    ensures newIndices == NewIndices(derived, used, known, paid, gap)
    ensures usedNew == PaidIn(newIndices, paid)
  {
    newIndices, usedNew := [], {};
    var derivedIndex := Highest(derived);
    var lastUsed := Highest(used);
    var unusedIndex := lastUsed + 1;
    TopIs(derived, derivedIndex); TopIs(used, lastUsed);
    if |known| == 0 {
      return;
    }
    // How far up the chain the transaction pays
    var chainMaxUsedIndex := Highest(known);
    TopIs(known, chainMaxUsedIndex);
    // Nothing new is used
    if chainMaxUsedIndex < unusedIndex {
      return;
    }
    // The gap is there already, unless rows are missing in it
    if derivedIndex >= chainMaxUsedIndex + gap {
      // Counting the rows tells
      var nbDerivedIndicesForward := |Between(derived, chainMaxUsedIndex, chainMaxUsedIndex + gap)|;
      CountIsFull(derived, chainMaxUsedIndex, chainMaxUsedIndex + gap);
      if nbDerivedIndicesForward < gap + 1 {
        derivedIndex := chainMaxUsedIndex;
      } else {
        return;
      }
    }
    newIndices, usedNew := Extend(paid, derivedIndex, chainMaxUsedIndex, gap);
  }

  lemma TopIs(s: set<nat>, m: int)
    requires IsMax(s, m)
    ensures Top(s) == m
  {
  }

  // ----- the chain after a transaction

  /** Derived indices, and those with a stored output. */
  datatype Chain = Chain(derived: set<nat>, used: set<nat>)

  ghost function AfterTx(c: Chain, paid: set<nat>, gap: nat): Chain {
    var known := paid * c.derived;
    var news := NewIndices(c.derived, c.used, known, paid, gap);
    Chain(c.derived + (set i: nat | i in news), c.used + known + PaidIn(news, paid))
  }

  /** Derived indices form a gap-free prefix that reaches at least `gap` past the last used one. */
  ghost predicate GapInv(c: Chain, gap: nat) {
    && c.used <= c.derived
    && Complete(c.derived, 0, Top(c.derived))
    && Top(c.used) + gap <= Top(c.derived)
  }

  function NewChain(gap: nat): Chain {
    Chain(set i: nat | i in Range(0, gap), {})
  }

  /** Account creation derives the first `gap` indices. */
  lemma CreationHasGap(gap: nat)
    ensures GapInv(NewChain(gap), gap)
    ensures NewChain(gap).used == {} && forall i: nat :: i in NewChain(gap).derived <==> i < gap
  {
    var all := NewChain(gap).derived;
    TopIs({}, -1);
    RangeMembers(0, gap);
    if gap > 0 { assert gap - 1 in all; }
    TopIs(all, gap - 1);
  }

  /** `last` is where the gap rule stops among the paid indices, starting from `m`. */
  ghost predicate PaidReached(paid: set<nat>, m: int, last: int, gap: nat) {
    && m <= last && (last == m || last in paid)
    && !UsedInGap(paid, last, gap)
    && forall x | m <= x < last :: UsedInGap(paid, x, gap)
  }

  ghost predicate Advances(c: Chain, paid: set<nat>) {
    paid * c.derived != {} && Top(paid * c.derived) > Top(c.used)
  }

  lemma NoPaidBetween(c: Chain, paid: set<nat>, gap: nat)
    requires GapInv(c, gap) && paid * c.derived != {}
    ensures !UsedWithin(paid, Top(paid * c.derived), Top(c.derived))
  {
    forall x: nat | x in paid && x <= Top(c.derived)
      ensures x <= Top(paid * c.derived)
    {
      assert x in paid * c.derived;
    }
  }

  /**
   A transaction that advances a gap-free chain: the new last used index is exactly the one the gap rule
   reaches among the paid indices, and derivation ends `gap` past it (or where it already was).
   */
  lemma AdvanceGapFree(c: Chain, paid: set<nat>, gap: nat) returns (last: int)
    requires GapInv(c, gap) && Advances(c, paid)
    ensures PaidReached(paid, Top(paid * c.derived), last, gap)
    ensures var a := AfterTx(c, paid, gap);
            && Complete(a.derived, 0, Top(a.derived))
            && Top(a.derived) == (if Top(c.derived) > last + gap then Top(c.derived) else last + gap)
            && Top(a.used) == last
  {
    var m, d, a := Top(paid * c.derived), Top(c.derived), AfterTx(c, paid, gap);
    NoPaidBetween(c, paid, gap);
    if d < m + gap {
      last := LastReached(paid, d + 1, m, gap);
      GapRule(paid, d + 1, m, gap);
      var news := OneByOne(paid, d + 1, m, gap);
      RangeMembers(d + 1, last + gap + 1);
      TopIs(a.derived, last + gap);
      TopIs(a.used, last);
    } else {
      last := m;
      assert !UsedInGap(paid, m, gap);
      assert a == Chain(c.derived, c.used + paid * c.derived);
      TopIs(a.used, m);
    }
  }

  /**
   Every transaction keeps the gap invariant, detects every paid address that ends up derived, and leaves
   no paid index undetected within the gap of a detected one.
   */
  lemma TxKeepsGap(c: Chain, paid: set<nat>, gap: nat)
    requires GapInv(c, gap)
    ensures GapInv(AfterTx(c, paid, gap), gap)
    ensures var a := AfterTx(c, paid, gap);
            && a.used == c.used + (paid * a.derived)
            && forall i, u | i in paid && i !in a.used && u in a.used :: u + gap < i
  {
    var a, known := AfterTx(c, paid, gap), paid * c.derived;
    if Advances(c, paid) {
      var last := AdvanceGapFree(c, paid, gap);
    } else {
      assert a == Chain(c.derived, c.used + known);
      TopIs(a.used, Top(c.used));
    }
    NewlyPaid(c, paid, gap);
    forall i, u | i in paid && i !in a.used && u in a.used
      ensures u + gap < i
    {
      assert i !in a.derived && u <= Top(a.used);
    }
  }

  /**
   The chain after a transaction, spelt out for a gap-free one: the paid indices among the derived ones become used,
   every index up to the gap past a used one is derived, nothing else is, and each used index that was not derived
   before lies within the gap past another used one.
   */
  ghost predicate Extended(c: Chain, paid: set<nat>, gap: nat, a: Chain) {
    && (forall i: nat :: i in a.used <==> i in c.used || (i in paid && i in a.derived))
    && (forall i: nat :: i in a.derived <==> i in c.derived || exists u | u in a.used :: i <= u + gap)
    && (forall i | i in a.used && i !in c.derived :: exists u | u in a.used :: u < i <= u + gap)
  }

  lemma TxExtends(c: Chain, paid: set<nat>, gap: nat)
    requires GapInv(c, gap)
    ensures Extended(c, paid, gap, AfterTx(c, paid, gap))
  {
    var a, m := AfterTx(c, paid, gap), Top(paid * c.derived);
    TxKeepsGap(c, paid, gap);
    if Advances(c, paid) {
      var last := AdvanceGapFree(c, paid, gap);
      assert last in a.used;
      forall i | i in a.used && i !in c.derived
        ensures exists u | u in a.used :: u < i <= u + gap
      {
        var u := LastUsedIn(paid, m + 1, i, m);
        assert UsedInGap(paid, u, gap);
        assert u in a.derived;
      }
    } else {
      assert a == Chain(c.derived, c.used + paid * c.derived);
      TopIs(a.used, Top(c.used));
    }
  }

  /**
   On any chain, with or without holes, only a transaction that pays a known index past all used ones derives
   anything, and only within the gap past an index it pays.
   */
  lemma DerivesOnlyInGap(c: Chain, paid: set<nat>, gap: nat)
    ensures var known := paid * c.derived; var news := NewIndices(c.derived, c.used, known, paid, gap);
            && (news != [] ==> exists m | m in known :: forall u | u in c.used :: u < m)
            && (forall i: int | i in news :: exists u: nat | u in paid && (u in c.derived || u in news) :: i <= u + gap)
  {
    var known := paid * c.derived;
    var m, d, news := Top(known), Top(c.derived), NewIndices(c.derived, c.used, known, paid, gap);
    if news != [] {
      var start := if d < m + gap then d + 1 else m + 1;
      var last := LastReached(paid, start, m, gap);
      OneByOneIsRange(paid, start, m, gap);
      RangeMembers(start, last + gap + 1);
      assert m in known && last in paid && (last in c.derived || last in news);
    }
  }

  lemma NewlyPaid(c: Chain, paid: set<nat>, gap: nat)
    ensures var a := AfterTx(c, paid, gap); a.used == c.used + (paid * a.derived)
  {
  }

  /** A transaction, or the deletion of double-spent ones, after which some indices have no output left. */
  datatype Step = Pays(paid: set<nat>) | Frees(gone: set<nat>)

  ghost function AfterStep(c: Chain, step: Step, gap: nat): Chain {
    match step
    case Pays(paid) => AfterTx(c, paid, gap)
    case Frees(gone) => c.(used := c.used - gone)
  }

  /** A deletion takes nothing from the gap. */
  lemma DeletionKeepsGap(c: Chain, gone: set<nat>, gap: nat)
    requires GapInv(c, gap)
    ensures GapInv(c.(used := c.used - gone), gap)
  {
    var top := Top(c.used - gone);
    assert top >= 0 ==> top in c.used - gone;
  }

  /** The chain after a series of steps, from account creation. */
  ghost function AfterAll(steps: seq<Step>, gap: nat): Chain {
    if steps == [] then NewChain(gap) else AfterStep(AfterAll(steps[..|steps| - 1], gap), steps[|steps| - 1], gap)
  }

  lemma {:induction false} GapHoldsAlways(steps: seq<Step>, gap: nat)
    ensures GapInv(AfterAll(steps, gap), gap)
  {
    if steps == [] {
      CreationHasGap(gap);
    } else {
      var c := AfterAll(steps[..|steps| - 1], gap);
      GapHoldsAlways(steps[..|steps| - 1], gap);
      match steps[|steps| - 1]
      case Pays(paid) => TxKeepsGap(c, paid, gap);
      case Frees(gone) => DeletionKeepsGap(c, gone, gap);
    }
  }

  // ----- chains that start with holes (a rescan from a later index leaves some)

  /** The last paid index the derivation of an advancing transaction takes into account. */
  ghost function LastConsidered(c: Chain, paid: set<nat>, gap: nat): int {
    var m, d := Top(paid * c.derived), Top(c.derived);
    if d < m + gap then LastReached(paid, d + 1, m, gap)
    else if Complete(c.derived, m, m + gap) then m
    else LastReached(paid, m + 1, m, gap)
  }

  /**
   Hole repair is only partial. After an advancing transaction the indices from the paid address to the
   gap past the last considered one are all derived if and only if derivation had already reached the gap
   (then the row count reveals holes) or there was no hole between the paid address and the last row.
   */
  lemma HoleRepairIff(c: Chain, paid: set<nat>, gap: nat)
    requires Advances(c, paid)
    ensures var m, d := Top(paid * c.derived), Top(c.derived);
            Complete(AfterTx(c, paid, gap).derived, m, LastConsidered(c, paid, gap) + gap)
            <==> d >= m + gap || Complete(c.derived, m, d)
  {
    var m, d, a := Top(paid * c.derived), Top(c.derived), AfterTx(c, paid, gap);
    var last := LastConsidered(c, paid, gap);
    if d < m + gap {
      OneByOneIsRange(paid, d + 1, m, gap);
      RangeMembers(d + 1, last + gap + 1);
      HoleKept(c, a, m, d, last + gap);
    } else if !Complete(c.derived, m, m + gap) {
      OneByOneIsRange(paid, m + 1, m, gap);
      RangeMembers(m + 1, last + gap + 1);
    }
  }

  /** Deriving only above `d` leaves the indices up to `d` as they were. */
  lemma HoleKept(c: Chain, a: Chain, m: nat, d: nat, end: int)
    requires forall i: nat :: i in a.derived <==> i in c.derived || d < i <= end
    requires m <= d <= end
    ensures Complete(a.derived, m, end) <==> Complete(c.derived, m, d)
  {
  }

  // ----- when a transaction's outputs are all detected

  /** No paid index is left undetected within the gap of a detected one. */
  ghost predicate MissesNothing(c: Chain, paid: set<nat>, gap: nat) {
    var a := AfterTx(c, paid, gap);
    forall i, u | i in paid && i !in a.used && u in a.used :: u + gap < i
  }

  /** Up to where every paid index must have been derived before. */
  ghost function MustBeDerived(c: Chain, paid: set<nat>, gap: nat): int {
    var m, d := Top(paid * c.derived), Top(c.derived);
    if !Advances(c, paid) then (if c.used == {} then -1 else Top(c.used) + gap)
    else if d < m + gap then d
    else m
  }

  /** The indices an advancing transaction adds to the derived ones. */
  ghost predicate Adds(c: Chain, paid: set<nat>, gap: nat, i: nat) {
    var m, d, last := Top(paid * c.derived), Top(c.derived), LastConsidered(c, paid, gap);
    if d < m + gap then d < i <= last + gap else !Complete(c.derived, m, m + gap) && m < i <= last + gap
  }

  lemma AdvanceAdds(c: Chain, paid: set<nat>, gap: nat)
    requires Advances(c, paid)
    ensures forall i: nat :: i in AfterTx(c, paid, gap).derived <==> i in c.derived || Adds(c, paid, gap, i)
    ensures var m, last := Top(paid * c.derived), LastConsidered(c, paid, gap);
            m <= last && (last == m || (last in paid && Adds(c, paid, gap, last)))
    ensures forall i | i in paid && Adds(c, paid, gap, i) :: i <= LastConsidered(c, paid, gap)
  {
    var m, d, last := Top(paid * c.derived), Top(c.derived), LastConsidered(c, paid, gap);
    if d < m + gap || !Complete(c.derived, m, m + gap) {
      var start := if d < m + gap then d + 1 else m + 1;
      OneByOneIsRange(paid, start, m, gap);
      RangeMembers(start, last + gap + 1);
      forall i | i in paid && Adds(c, paid, gap, i)
        ensures i <= last
      {
        NothingBeyond(paid, start, m, gap, i);
      }
    }
  }

  /** An advancing transaction ends with the last considered index as the last used one. */
  lemma LastUsedIsLast(c: Chain, paid: set<nat>, gap: nat)
    requires c.used <= c.derived && Advances(c, paid)
    ensures Top(AfterTx(c, paid, gap).used) == LastConsidered(c, paid, gap)
  {
    AdvanceAdds(c, paid, gap);
    NewlyPaid(c, paid, gap);
    var a, last := AfterTx(c, paid, gap), LastConsidered(c, paid, gap);
    forall i | i in a.used
      ensures i <= last
    {
      if i in paid && i in c.derived { assert i in paid * c.derived; }
    }
    assert last in a.used;
    TopIs(a.used, last);
  }

  /**
   The exact condition. A transaction that finds any used address leaves no paid index undetected within
   the gap of a detected one if and only if every index it pays up to a certain one had been derived before:
   up to the gap past the last used index when it does not advance that, up to the last row when derivation
   had not reached the gap past the highest known paid index, and up to that index otherwise.
   */
  lemma DetectionIff(c: Chain, paid: set<nat>, gap: nat)
    requires c.used <= c.derived
    ensures MissesNothing(c, paid, gap) <==> forall i | i in paid && i <= MustBeDerived(c, paid, gap) :: i in c.derived
  {
    var a, known := AfterTx(c, paid, gap), paid * c.derived;
    NewlyPaid(c, paid, gap);
    if Advances(c, paid) {
      AdvanceAdds(c, paid, gap);
      LastUsedIsLast(c, paid, gap);
    } else {
      assert a == Chain(c.derived, c.used + known);
      TopIs(a.used, Top(c.used));
    }
    var top := Top(a.used);
    assert top >= 0 ==> top in a.used;
    assert MissesNothing(c, paid, gap) <==> forall i | i in paid && top >= 0 && i <= top + gap :: i in a.derived;
  }

  /** Gap-free chains meet the condition whatever is paid. */
  lemma GapFreeMissesNothing(c: Chain, paid: set<nat>, gap: nat)
    requires GapInv(c, gap)
    ensures forall i | i in paid && i <= MustBeDerived(c, paid, gap) :: i in c.derived
  {
  }

  /** A hole that is missed: with gap 5 and rows 0-4 and 7, an output paying index 5 goes undetected. */
  lemma HoleMissesOutput()
    ensures var c, paid := Chain({0, 1, 2, 3, 4, 7}, {}), {4, 5};
            var a := AfterTx(c, paid, 5);
            4 in a.used && 5 !in a.derived && 5 !in a.used
  {
    var c, paid: set<nat> := Chain({0, 1, 2, 3, 4, 7}, {}), {4, 5};
    assert paid * c.derived == {4};
    TopIs({4}, 4); TopIs({}, -1); TopIs(c.derived, 7);
    OneByOneIsRange(paid, 8, 4, 5);
    RangeMembers(8, LastReached(paid, 8, 4, 5) + 6);
  }

  // ----- the account

  class HdAccount {
    // Chain 0 is external, chain 1 internal.
    var chains: seq<Chain>
    const gapLimit: seq<nat>

    ghost predicate Valid()
      reads this
    {
      && |chains| == |gapLimit| == 2
      && forall k | 0 <= k < 2 :: GapInv(chains[k], gapLimit[k])
    }

    constructor (external: nat, internal: nat)
      ensures Valid() && gapLimit == [external, internal]
      ensures chains == [NewChain(external), NewChain(internal)]
      ensures forall k | 0 <= k < 2 ::
                chains[k].used == {} && forall i: nat :: i in chains[k].derived <==> i < gapLimit[k]
    {
      gapLimit := [external, internal];
      chains := [NewChain(external), NewChain(internal)];
      CreationHasGap(external);
      CreationHasGap(internal);
    }

    /** Double-spent transactions were deleted with their outputs: `gone[k]` have none left on chain `k`. */
    method LoseOutputs(gone: seq<set<nat>>)
      requires Valid() && |gone| == 2
      modifies this
      ensures Valid() && chains == Freed(old(chains), gone)
    {
      forall k | 0 <= k < 2
        ensures GapInv(Freed(chains, gone)[k], gapLimit[k])
      {
        DeletionKeepsGap(chains[k], gone[k], gapLimit[k]);
      }
      chains := Freed(chains, gone);
    }

    /** Registers the outputs of a transaction paying `paid[k]` on chain `k`. */
    method ProcessOutputs(paid: seq<set<nat>>)
      requires Valid() && |paid| == 2
      modifies this
      ensures Valid()
      ensures forall k | 0 <= k < 2 :: chains[k] == AfterTx(old(chains)[k], paid[k], gapLimit[k])
      ensures forall k, i, u | 0 <= k < 2 && i in paid[k] && i !in chains[k].used && u in chains[k].used ::
                u + gapLimit[k] < i
      ensures |chains| == 2 && forall k | 0 <= k < 2 :: Extended(old(chains)[k], paid[k], gapLimit[k], chains[k])
    {
      for k := 0 to 2
        invariant |chains| == 2
        invariant forall j | 0 <= j < k :: chains[j] == AfterTx(old(chains)[j], paid[j], gapLimit[j])
        invariant forall j | k <= j < 2 :: chains[j] == old(chains)[j]
      {
        var c := chains[k];
        var known := paid[k] * c.derived;
        var newIndices, usedNew := DeriveChain(c.derived, c.used, known, paid[k], gapLimit[k]);
        NewIndicesNatural(c, paid[k], gapLimit[k]);
        chains := chains[k := Chain(c.derived + ToSet(newIndices), c.used + known + usedNew)];
      }
      forall k | 0 <= k < 2
        ensures GapInv(chains[k], gapLimit[k])
        ensures forall i, u | i in paid[k] && i !in chains[k].used && u in chains[k].used :: u + gapLimit[k] < i
      {
        TxKeepsGap(old(chains)[k], paid[k], gapLimit[k]);
      }
      forall k | 0 <= k < 2
        ensures Extended(old(chains)[k], paid[k], gapLimit[k], chains[k])
      {
        TxExtends(old(chains)[k], paid[k], gapLimit[k]);
      }
    }
  }

  /** The chains once the indices `gone[k]` have no output left. */
  function Freed(chains: seq<Chain>, gone: seq<set<nat>>): (r: seq<Chain>)
    requires |chains| == |gone|
    ensures |r| == |chains| && forall k | 0 <= k < |r| :: r[k] == chains[k].(used := chains[k].used - gone[k])
  {
    seq(|chains|, k requires 0 <= k < |chains| => chains[k].(used := chains[k].used - gone[k]))
  }

  function ToSet(s: seq<int>): set<nat>
    requires forall i | i in s :: i >= 0
  {
    set i: nat | i in s
  }

  lemma NewIndicesNatural(c: Chain, paid: set<nat>, gap: nat)
    ensures forall i | i in NewIndices(c.derived, c.used, paid * c.derived, paid, gap) :: i >= 0
  {
    var m, d := Top(paid * c.derived), Top(c.derived);
    if paid * c.derived != {} {
      if d < m + gap {
        OneByOneIsRange(paid, d + 1, m, gap);
        RangeMembers(d + 1, LastReached(paid, d + 1, m, gap) + gap + 1);
      } else {
        OneByOneIsRange(paid, m + 1, m, gap);
        RangeMembers(m + 1, LastReached(paid, m + 1, m, gap) + gap + 1);
      }
    }
  }
}
