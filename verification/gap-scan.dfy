/**
 The "Address gap limit" rule of BIP44 as a scan of one index at a time: derive an index as long as it
 lies within the gap of the last used one. Both the importer and the tracker refine this scan.
 */
module GapScan {
  /** util.range */
  function Range(start: int, stop: int): (r: seq<int>)
    ensures |r| == if start < stop then stop - start else 0
    ensures forall k | 0 <= k < |r| :: r[k] == start + k
  {
    seq(if start < stop then stop - start else 0, k => start + k)
  }

  lemma InRange(start: int, stop: int, i: int)
    ensures i in Range(start, stop) <==> start <= i < stop
  {
    if start <= i < stop { assert Range(start, stop)[i - start] == i; }
  }

  lemma RangeMembers(start: int, stop: int)
    ensures forall i :: i in Range(start, stop) <==> start <= i < stop
  {
    forall i | start <= i < stop
      ensures i in Range(start, stop)
    {
      InRange(start, stop, i);
    }
  }

  /** The used indices above `d`: what is left to be found. */
  ghost function Above(used: set<int>, d: int): set<int> {
    set i | i in used && i > d
  }

  lemma AboveShrinks(used: set<int>, d: int, e: int)
    requires d <= e
    ensures |Above(used, e)| <= |Above(used, d)|
    ensures (exists i :: i in used && d < i <= e) ==> |Above(used, e)| < |Above(used, d)|
  {
    var a, b := Above(used, e), Above(used, d);
    assert a <= b && b == a + (b - a) && |b| == |a| + |b - a|;
    if i :| i in used && d < i <= e { assert i in b - a; }
  }

  /** Derive `i` if it is within the gap of the last used index `u`, then move on to the next index. */
  ghost function OneByOne(used: set<int>, i: int, u: int, gap: int): seq<int>
    decreases |Above(used, i - 1)|, u + gap - i + 1
  {
    if i > u + gap then []
    else
      AboveShrinks(used, i - 1, i);
      [i] + OneByOne(used, i + 1, if i in used then i else u, gap)
  }

  /** The last used index the reference scan reaches. */
  ghost function LastReached(used: set<int>, i: int, u: int, gap: int): int
    decreases |Above(used, i - 1)|, u + gap - i + 1
  {
    if i > u + gap then u
    else
      AboveShrinks(used, i - 1, i);
      LastReached(used, i + 1, if i in used then i else u, gap)
  }

  ghost predicate UsedWithin(used: set<int>, lo: int, hi: int) {
    exists x | x in used :: lo < x <= hi
  }

  ghost predicate UsedInGap(used: set<int>, m: int, gap: nat) {
    UsedWithin(used, m, m + gap)
  }

  /**
   What the gap rule means. The reference scan derives every index up to `gap` past the last reached
   used one; the `gap` indices after it are unused; and no earlier stop was possible, since every point
   before it still has a used index within the gap.
   */
  lemma {:induction false} GapRule(used: set<int>, i: int, u: int, gap: nat)
    requires u < i <= u + gap + 1 && !UsedWithin(used, u, i - 1)
    ensures var last := LastReached(used, i, u, gap);
            && u <= last && (last == u || last in used)
            && OneByOne(used, i, u, gap) == Range(i, last + gap + 1)
            && !UsedInGap(used, last, gap)
            && forall m | u <= m < last :: UsedInGap(used, m, gap)
    decreases |Above(used, i - 1)|, u + gap - i + 1
  {
    if i <= u + gap {
      AboveShrinks(used, i - 1, i);
      var next := if i in used then i else u;
      GapRule(used, i + 1, next, gap);
      var last := LastReached(used, i, u, gap);
      assert [i] + Range(i + 1, last + gap + 1) == Range(i, last + gap + 1);
      if i in used {
        forall m | u <= m < i
          ensures UsedInGap(used, m, gap)
        {
          assert m < i <= m + gap;
        }
      }
    }
  }

  ghost function LastUsedIn(used: set<int>, i: int, k: int, u: int): (r: int)
    ensures r == u || (r in used && i <= r < k)
    ensures forall x | x in used && i <= x < k :: x <= r || x <= u
    ensures (exists x :: x in used && i <= x < k) ==> r in used && i <= r < k
    decreases k - i
  {
    if i >= k then u else LastUsedIn(used, i + 1, k, if i in used then i else u)
  }

  /** As long as the whole window is within the gap, the reference scan derives all of it. */
  lemma {:induction false} WholeWindow(used: set<int>, i: int, u: int, gap: int, k: int)
    requires u < i <= k <= u + gap + 1
    ensures OneByOne(used, i, u, gap) == Range(i, k) + OneByOne(used, k, LastUsedIn(used, i, k, u), gap)
    decreases k - i
  {
    if i < k {
      var next := if i in used then i else u;
      WholeWindow(used, i + 1, next, gap, k);
      assert [i] + Range(i + 1, k) == Range(i, k);
      assert [i] + (Range(i + 1, k) + OneByOne(used, k, LastUsedIn(used, i, k, u), gap))
          == [i] + Range(i + 1, k) + OneByOne(used, k, LastUsedIn(used, i, k, u), gap);
    } else {
      assert Range(i, k) == [];
    }
  }

  /** The same, read from the other end: the last used index met wins. */
  lemma {:induction false} LastUsedInStep(used: set<int>, i: int, k: int, u: int)
    requires i <= k
    ensures LastUsedIn(used, i, k + 1, u) == if k in used then k else LastUsedIn(used, i, k, u)
    decreases k - i
  {
    if i < k {
      LastUsedInStep(used, i + 1, k, if i in used then i else u);
    }
  }

  /** Whatever lies below `i`, the reference scan derives one unbroken range. */
  lemma {:induction false} OneByOneIsRange(used: set<int>, i: int, u: int, gap: nat)
    requires u < i <= u + gap + 1
    ensures var last := LastReached(used, i, u, gap);
            && OneByOne(used, i, u, gap) == Range(i, last + gap + 1)
            && (last == u || (i <= last && last in used))
    decreases |Above(used, i - 1)|, u + gap - i + 1
  {
    if i <= u + gap {
      AboveShrinks(used, i - 1, i);
      OneByOneIsRange(used, i + 1, if i in used then i else u, gap);
      var last := LastReached(used, i, u, gap);
      assert [i] + Range(i + 1, last + gap + 1) == Range(i, last + gap + 1);
    } else {
      assert Range(i, u + gap + 1) == [];
    }
  }

  /** Nothing used is left within the gap beyond the last used index the reference scan reaches. */
  lemma {:induction false} NothingBeyond(used: set<int>, i: int, u: int, gap: nat, x: int)
    requires u < i <= u + gap + 1 && x in used && i <= x <= LastReached(used, i, u, gap) + gap
    ensures x <= LastReached(used, i, u, gap)
    decreases |Above(used, i - 1)|, u + gap - i + 1
  {
    if i <= u + gap {
      AboveShrinks(used, i - 1, i);
      if i == x {
        OneByOneIsRange(used, i + 1, i, gap);
      } else {
        NothingBeyond(used, i + 1, if i in used then i else u, gap, x);
      }
    }
  }
}
