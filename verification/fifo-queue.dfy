/**
 The single-worker queue. Its synchronous segments are the atomic steps: a push runs up to the first
 await of the worker, a completion resumes the worker after an await, and each wait call either passes
 or registers a waiter. Runs interleave these steps freely.
 */
module Fifo {
  import opened Wrappers

  /**
   `items` may hold undefined entries, which the worker skips. The last four fields are history:
   everything pushed, the calls of the processing function that were begun and those that ended, and
   the calls in progress.
   */
  datatype Queue<T> = Queue(
    items: seq<Option<T>>, isProcessing: bool, isWaterMarkExceeded: bool,
    finishedWaiters: set<nat>, waterMarkWaiters: set<nat>, woken: set<nat>, waited: set<nat>,
    pushed: seq<Option<T>>, started: seq<T>, ended: seq<T>, running: seq<T>)

  datatype Event<T> =
    | Push(xs: seq<Option<T>>)
    | Complete(index: nat)
    | WaitOnFinished(waiter: nat)
    | WaitOnWaterMark(waiter: nat)

  function Empty<T>(): Queue<T> {
    Queue([], false, false, {}, {}, {}, {}, [], [], [], [])
  }

  function Defined<T>(xs: seq<Option<T>>): seq<T> {
    if xs == [] then [] else IfDefined(xs[0]) + Defined(xs[1..])
  }

  function IfDefined<T>(x: Option<T>): seq<T> {
    if x.Some? then [x.value] else []
  }

  /** An absent or zero mark stands for infinity. */
  predicate AtMark(len: nat, mark: Option<int>) {
    mark.Some? && mark.value != 0 && len >= mark.value
  }

  // ----- the synchronous segments

  function Finish<T>(q: Queue<T>): Queue<T> {
    q.(isProcessing := false, woken := q.woken + q.finishedWaiters, finishedWaiters := {})
  }

  function CheckMark<T>(q: Queue<T>, mark: Option<int>): Queue<T> {
    if AtMark(|q.items|, mark) then q
    else q.(isWaterMarkExceeded := false, woken := q.woken + q.waterMarkWaiters, waterMarkWaiters := {})
  }

  /** The worker loop up to its next await: skip undefined items, begin the next one or finish. */
  function Work<T>(q: Queue<T>): Queue<T>
    decreases |q.items|
  {
    if q.items == [] then Finish(q)
    else if q.items[0].None? then Work(q.(items := q.items[1..]))
    else q.(items := q.items[1..], started := q.started + [q.items[0].value], running := q.running + [q.items[0].value])
  }

  /** The queue once the items are appended, before any worker starts. */
  function Appended<T>(q: Queue<T>, xs: seq<Option<T>>, mark: Option<int>): Queue<T> {
    q.(items := q.items + xs, pushed := q.pushed + xs, isWaterMarkExceeded := AtMark(|q.items + xs|, mark))
  }

  function Pushed<T>(q: Queue<T>, xs: seq<Option<T>>, mark: Option<int>): Queue<T> {
    if q.isProcessing then Appended(q, xs, mark) else Work(Appended(q, xs, mark).(isProcessing := true))
  }

  function Ended<T>(q: Queue<T>, index: nat): Queue<T>
    requires index < |q.running|
  {
    q.(running := q.running[..index] + q.running[index + 1..], ended := q.ended + [q.running[index]])
  }

  /** The call `index` of the processing function ends and its worker goes on. */
  function Completed<T>(q: Queue<T>, index: nat, mark: Option<int>): Queue<T>
    requires index < |q.running|
  {
    Work(CheckMark(Ended(q, index), mark))
  }

  function WaitedOnFinished<T>(q: Queue<T>, w: nat): Queue<T> {
    var r := q.(waited := q.waited + {w});
    if q.isProcessing then r.(finishedWaiters := q.finishedWaiters + {w}) else r.(woken := q.woken + {w})
  }

  function WaitedOnWaterMark<T>(q: Queue<T>, w: nat): Queue<T> {
    var r := q.(waited := q.waited + {w});
    if q.isWaterMarkExceeded then r.(waterMarkWaiters := q.waterMarkWaiters + {w}) else r.(woken := q.woken + {w})
  }

  predicate Enabled<T>(q: Queue<T>, e: Event<T>) {
    e.Complete? ==> e.index < |q.running|
  }

  function Next<T>(q: Queue<T>, e: Event<T>, mark: Option<int>): Queue<T>
    requires Enabled(q, e)
  {
    match e
    case Push(xs) => Pushed(q, xs, mark)
    case Complete(index) => Completed(q, index, mark)
    case WaitOnFinished(w) => WaitedOnFinished(q, w)
    case WaitOnWaterMark(w) => WaitedOnWaterMark(q, w)
  }

  // ----- what always holds

  /** Items are begun in push order, one at a time, and each begun call is ended or in progress. */
  ghost predicate InOrder<T>(q: Queue<T>) {
    && Defined(q.pushed) == q.started + Defined(q.items)
    && q.started == q.ended + q.running
    && |q.running| == (if q.isProcessing then 1 else 0)
  }

  /** Nobody waits on an idle worker, and whoever waited was woken or is still registered. */
  ghost predicate NoLostWaiter<T>(q: Queue<T>) {
    && (!q.isProcessing ==>
          q.items == [] && !q.isWaterMarkExceeded && q.finishedWaiters == {} && q.waterMarkWaiters == {})
    && q.waited == q.woken + q.finishedWaiters + q.waterMarkWaiters
  }

  ghost predicate Inv<T>(q: Queue<T>, mark: Option<int>) {
    InOrder(q) && NoLostWaiter(q) && (AtMark(|q.items|, mark) ==> q.isWaterMarkExceeded)
  }

  // ----- lemmas about the segments

  lemma {:induction false} DefinedAppend<T>(a: seq<Option<T>>, b: seq<Option<T>>)
    ensures Defined(a + b) == Defined(a) + Defined(b)
  {
    if a == [] {
      assert a + b == b;
    } else {
      assert (a + b)[1..] == a[1..] + b && (a + b)[0] == a[0];
      DefinedAppend(a[1..], b);
      var first := IfDefined(a[0]);
      assert first + (Defined(a[1..]) + Defined(b)) == (first + Defined(a[1..])) + Defined(b);
    }
  }

  lemma {:induction false} WorkShape<T>(q: Queue<T>)
    ensures var r := Work(q); var d := Defined(q.items);
            if d == [] then r == Finish(q.(items := []))
            else && r == q.(items := r.items, started := q.started + [d[0]], running := q.running + [d[0]])
                 && Defined(r.items) == d[1..] && |r.items| < |q.items|
    decreases |q.items|
  {
    if q.items != [] && q.items[0].None? {
      WorkShape(q.(items := q.items[1..]));
    }
  }

  ghost predicate IsFirstDefined<T>(items: seq<Option<T>>, j: nat) {
    j < |items| && items[j].Some? && forall i | 0 <= i < j :: items[i].None?
  }

  /**
   What the worker does with these items before its next await: if all are undefined it goes idle and wakes the end
   waiters; otherwise it begins the first defined one and leaves those after it.
   */
  ghost predicate WorksOn<T>(items: seq<Option<T>>, q: Queue<T>, r: Queue<T>) {
    && ((forall i | 0 <= i < |items| :: items[i].None?) ==>
          && r.items == [] && !r.isProcessing && r.running == q.running
          && q.finishedWaiters <= r.woken && r.finishedWaiters == {})
    && forall j: nat | IsFirstDefined(items, j) ::
         && r.items == items[j + 1..] && r.isProcessing && r.running == q.running + [items[j].value]
         && r.finishedWaiters == q.finishedWaiters
  }

  lemma {:induction false} WorkIdles<T>(q: Queue<T>)
    requires forall i | 0 <= i < |q.items| :: q.items[i].None?
    ensures Work(q) == Finish(q.(items := []))
    decreases |q.items|
  {
    if q.items != [] { WorkIdles(q.(items := q.items[1..])); }
  }

  lemma {:induction false} WorkBegins<T>(q: Queue<T>, j: nat)
    requires IsFirstDefined(q.items, j)
    ensures var x := q.items[j].value;
            Work(q) == q.(items := q.items[j + 1..], started := q.started + [x], running := q.running + [x])
    decreases |q.items|
  {
    if j > 0 {
      WorkBegins(q.(items := q.items[1..]), j - 1);
      assert q.items[1..][j..] == q.items[j + 1..];
    }
  }

  lemma WorkSpeltOut<T>(q: Queue<T>)
    requires q.isProcessing
    ensures WorksOn(q.items, q, Work(q))
    ensures Work(q).isWaterMarkExceeded == q.isWaterMarkExceeded && Work(q).waterMarkWaiters == q.waterMarkWaiters
    ensures q.woken <= Work(q).woken
  {
    WorkShape(q);
    if forall i | 0 <= i < |q.items| :: q.items[i].None? { WorkIdles(q); }
    forall j: nat | IsFirstDefined(q.items, j)
      ensures Work(q).items == q.items[j + 1..] && Work(q).isProcessing
      ensures Work(q).running == q.running + [q.items[j].value]
    {
      WorkBegins(q, j);
    }
  }

  /** A push sets the flag by the mark; an idle queue goes to work on what it holds then. */
  lemma PushedSpeltOut<T>(q: Queue<T>, xs: seq<Option<T>>, mark: Option<int>)
    ensures var r := Pushed(q, xs, mark);
            && (r.isWaterMarkExceeded <==> mark.Some? && mark.value != 0 && |q.items| + |xs| >= mark.value)
            && r.waterMarkWaiters == q.waterMarkWaiters
            && if q.isProcessing then r.items == q.items + xs && r.running == q.running && r.isProcessing
               else WorksOn(q.items + xs, q, r)
  {
    if !q.isProcessing { WorkSpeltOut(Appended(q, xs, mark).(isProcessing := true)); }
  }

  /** The waiters on the mark pass, and the flag is cleared, below the mark; otherwise both stay. */
  ghost predicate MarkChecked<T>(q: Queue<T>, mark: Option<int>, r: Queue<T>) {
    if mark.None? || mark.value == 0 || |q.items| < mark.value
    then !r.isWaterMarkExceeded && r.waterMarkWaiters == {} && q.waterMarkWaiters <= r.woken
    else r.isWaterMarkExceeded == q.isWaterMarkExceeded && r.waterMarkWaiters == q.waterMarkWaiters
  }

  /** A completion checks the mark, and the worker goes on with what the queue holds. */
  lemma CompletedSpeltOut<T>(q: Queue<T>, index: nat, mark: Option<int>)
    requires q.isProcessing && |q.running| == 1 && index == 0
    ensures MarkChecked(q, mark, Completed(q, index, mark))
    ensures WorksOn(q.items, q.(running := []), Completed(q, index, mark))
  {
    WorkSpeltOut(CheckMark(Ended(q, index), mark));
  }

  /** The one way to go idle with the mark exceeded: nothing but undefined items, and too many of them. */
  predicate OnlyUndefinedAboveMark<T>(items: seq<Option<T>>, mark: Option<int>) {
    Defined(items) == [] && AtMark(|items|, mark)
  }

  predicate Stalls<T>(q: Queue<T>, e: Event<T>, mark: Option<int>) {
    match e
    case Push(xs) => !q.isProcessing && OnlyUndefinedAboveMark(q.items + xs, mark)
    case Complete(_) => OnlyUndefinedAboveMark(q.items, mark)
    case _ => false
  }

  /** A worker that resumes with no call in progress. */
  lemma WorkIff<T>(q: Queue<T>, mark: Option<int>)
    requires q.isProcessing && q.running == [] && q.started == q.ended
    requires Defined(q.pushed) == q.started + Defined(q.items)
    requires q.waited == q.woken + q.finishedWaiters + q.waterMarkWaiters
    requires AtMark(|q.items|, mark) ==> q.isWaterMarkExceeded
    ensures InOrder(Work(q))
    ensures Inv(Work(q), mark) <==>
            Defined(q.items) != [] ||
            (!q.isWaterMarkExceeded && q.waterMarkWaiters == {} && !AtMark(0, mark))
  {
    WorkShape(q);
    var d := Defined(q.items);
    if d != [] {
      assert q.started + d == (q.started + [d[0]]) + d[1..];
    }
  }

  lemma AppendKeepsOrder<T>(q: Queue<T>, xs: seq<Option<T>>, mark: Option<int>)
    requires InOrder(q)
    ensures InOrder(Appended(q, xs, mark))
  {
    DefinedAppend(q.pushed, xs);
    DefinedAppend(q.items, xs);
    assert q.started + Defined(q.items) + Defined(xs) == q.started + (Defined(q.items) + Defined(xs));
  }

  lemma PushKeepsOrder<T>(q: Queue<T>, xs: seq<Option<T>>, mark: Option<int>)
    requires Inv(q, mark)
    ensures InOrder(Pushed(q, xs, mark))
    ensures Inv(Pushed(q, xs, mark), mark) <==> !Stalls(q, Push(xs), mark)
  {
    AppendKeepsOrder(q, xs, mark);
    if !q.isProcessing {
      WorkIff(Appended(q, xs, mark).(isProcessing := true), mark);
    }
  }

  lemma CompleteKeepsOrder<T>(q: Queue<T>, index: nat, mark: Option<int>)
    requires Inv(q, mark) && index < |q.running|
    ensures InOrder(Completed(q, index, mark))
    ensures Inv(Completed(q, index, mark), mark) <==> !Stalls(q, Complete(index), mark)
  {
    var r := Ended(q, index);
    assert q.running == [q.running[0]] && r.running == [] && r.ended == q.started;
    WorkIff(CheckMark(r, mark), mark);
  }

  /**
   The exact condition under which a step keeps the queue sound: order and single processing are kept by
   every step, and a waiter can be lost only through a step that stalls.
   */
  lemma StepIff<T>(q: Queue<T>, e: Event<T>, mark: Option<int>)
    requires Inv(q, mark) && Enabled(q, e)
    ensures InOrder(Next(q, e, mark))
    ensures Inv(Next(q, e, mark), mark) <==> !Stalls(q, e, mark)
  {
    match e
    case Push(xs) => PushKeepsOrder(q, xs, mark);
    case Complete(index) => CompleteKeepsOrder(q, index, mark);
    case WaitOnFinished(w) =>
    case WaitOnWaterMark(w) =>
  }

  // ----- runs

  ghost predicate IsRun<T>(states: seq<Queue<T>>, events: seq<Event<T>>, mark: Option<int>) {
    && |states| == |events| + 1
    && states[0] == Empty()
    && forall i {:trigger StepAt(states, events, mark, i)} | 0 <= i < |events| :: StepAt(states, events, mark, i)
  }

  ghost predicate StepAt<T>(states: seq<Queue<T>>, events: seq<Event<T>>, mark: Option<int>, i: nat)
    requires i < |events| && |states| == |events| + 1
  {
    Enabled(states[i], events[i]) && states[i + 1] == Next(states[i], events[i], mark)
  }

  lemma ExtendRun<T>(states: seq<Queue<T>>, events: seq<Event<T>>, mark: Option<int>, e: Event<T>)
    requires IsRun(states, events, mark) && Enabled(states[|events|], e)
    ensures IsRun(states + [Next(states[|events|], e, mark)], events + [e], mark)
  {
    var more, all := states + [Next(states[|events|], e, mark)], events + [e];
    forall i | 0 <= i < |all|
      ensures StepAt(more, all, mark, i)
    {
      if i < |events| { assert StepAt(states, events, mark, i); }
    }
  }

  /** A usable mark: absent, zero (meaning none) or positive. */
  predicate UsableMark(mark: Option<int>) {
    mark.Some? ==> mark.value >= 0
  }

  ghost predicate PushesDefined<T>(events: seq<Event<T>>) {
    forall i | 0 <= i < |events| && events[i].Push? :: forall x | x in events[i].xs :: x.Some?
  }

  lemma {:induction false} DefinedKeepsAll<T>(xs: seq<Option<T>>)
    requires forall x | x in xs :: x.Some?
    ensures |Defined(xs)| == |xs|
    ensures forall i | 0 <= i < |xs| :: Defined(xs)[i] == xs[i].value
  {
    if xs != [] { DefinedKeepsAll(xs[1..]); }
  }

  /** With defined items and a usable mark, every reachable state is sound, whatever the interleaving. */
  lemma {:induction false} RunInv<T>(states: seq<Queue<T>>, events: seq<Event<T>>, mark: Option<int>, i: nat)
    requires IsRun(states, events, mark) && PushesDefined(events) && UsableMark(mark) && i <= |events|
    ensures Inv(states[i], mark) && forall x | x in states[i].items :: x.Some?
  {
    if i > 0 {
      RunInv(states, events, mark, i - 1);
      assert StepAt(states, events, mark, i - 1);
      var q, e := states[i - 1], events[i - 1];
      DefinedKeepsAll(q.items);
      if e.Push? { DefinedKeepsAll(q.items + e.xs); }
      StepIff(q, e, mark);
      NextItems(q, e, mark);
    }
  }

  lemma NextItems<T>(q: Queue<T>, e: Event<T>, mark: Option<int>)
    requires Enabled(q, e)
    requires forall x | x in q.items :: x.Some?
    requires e.Push? ==> forall x | x in e.xs :: x.Some?
    ensures forall x | x in Next(q, e, mark).items :: x.Some?
  {
  }

  /** With a usable mark a run stays sound throughout if and only if none of its steps stalls. */
  lemma RunIff<T>(states: seq<Queue<T>>, events: seq<Event<T>>, mark: Option<int>)
    requires IsRun(states, events, mark) && UsableMark(mark)
    ensures (forall i | 0 <= i <= |events| :: Inv(states[i], mark))
            <==> (forall i | 0 <= i < |events| :: !Stalls(states[i], events[i], mark))
  {
    if forall i | 0 <= i < |events| :: !Stalls(states[i], events[i], mark) {
      forall i | 0 <= i <= |events|
        ensures Inv(states[i], mark)
      {
        SoundUpTo(states, events, mark, i);
      }
    } else {
      var i :| 0 <= i < |events| && Stalls(states[i], events[i], mark);
      assert StepAt(states, events, mark, i);
      if Inv(states[i], mark) { StepIff(states[i], events[i], mark); }
    }
  }

  lemma {:induction false} SoundUpTo<T>(states: seq<Queue<T>>, events: seq<Event<T>>, mark: Option<int>, i: nat)
    requires IsRun(states, events, mark) && UsableMark(mark) && i <= |events|
    requires forall j | 0 <= j < |events| :: !Stalls(states[j], events[j], mark)
    ensures Inv(states[i], mark)
  {
    if i > 0 {
      SoundUpTo(states, events, mark, i - 1);
      assert StepAt(states, events, mark, i - 1);
      StepIff(states[i - 1], events[i - 1], mark);
    }
  }

  /** Processing follows push order and never overlaps; when the worker is idle all is done and all are woken. */
  lemma OrderedDelivery<T>(states: seq<Queue<T>>, events: seq<Event<T>>, mark: Option<int>, i: nat)
    requires IsRun(states, events, mark) && PushesDefined(events) && UsableMark(mark) && i <= |events|
    ensures var q := states[i];
            && |q.running| <= 1
            && q.ended + q.running <= Defined(q.pushed)
            && (q.finishedWaiters + q.waterMarkWaiters != {} ==> q.isProcessing && |q.running| == 1)
            && (!q.isProcessing ==> q.ended == Defined(q.pushed) && q.waited == q.woken)
  {
    RunInv(states, events, mark, i);
  }

  /** Nobody is registered as a waiter of an idle queue. */
  ghost predicate NobodyAsleep<T>(q: Queue<T>) {
    !q.isProcessing ==> q.finishedWaiters == {} && q.waterMarkWaiters == {}
  }

  /** Exactly the usable marks keep every run of defined items from putting a waiter to sleep for good. */
  lemma NoLostWaiterIff<T(!new)>(mark: Option<int>)
    ensures UsableMark(mark) <==>
            (forall states: seq<Queue<T>>, events: seq<Event<T>>, i: nat |
               IsRun(states, events, mark) && PushesDefined(events) && i <= |events| :: NoLostWaiter(states[i]))
    ensures UsableMark(mark) <==>
            (forall states: seq<Queue<T>>, events: seq<Event<T>>, i: nat |
               IsRun(states, events, mark) && PushesDefined(events) && i <= |events| :: NobodyAsleep(states[i]))
  {
    if UsableMark(mark) {
      forall states: seq<Queue<T>>, events: seq<Event<T>>, i: nat |
        IsRun(states, events, mark) && PushesDefined(events) && i <= |events|
        ensures NoLostWaiter(states[i]) && NobodyAsleep(states[i])
      {
        RunInv(states, events, mark, i);
      }
    } else {
      var states, events := NegativeMarkStrandsWaiter<T>(mark, 0);
      assert !NoLostWaiter(states[2]) && !NobodyAsleep(states[2]);
    }
  }

  /** Pushing nothing leaves the idle queue above a negative mark, and the next waiter on the mark asleep. */
  lemma NegativeMarkStrandsWaiter<T>(mark: Option<int>, w: nat) returns (states: seq<Queue<T>>, events: seq<Event<T>>)
    requires !UsableMark(mark)
    ensures IsRun(states, events, mark) && PushesDefined(events) && |events| == 2
    ensures !states[2].isProcessing && states[2].running == [] && states[2].waterMarkWaiters == {w}
  {
    var none: seq<Option<T>> := [];
    var q := Pushed(Empty<T>(), none, mark);
    events := [Push(none), WaitOnWaterMark(w)];
    states := [Empty<T>(), q, WaitedOnWaterMark(q, w)];
    assert StepAt(states, events, mark, 0) && StepAt(states, events, mark, 1);
  }

  /** Undefined items break it too: one of them on an idle queue with mark 1 strands the next waiter. */
  lemma UndefinedItemStrandsWaiter<T>(w: nat)
    ensures var q := WaitedOnWaterMark(Pushed(Empty<T>(), [None], Some(1)), w);
            !q.isProcessing && q.running == [] && q.waterMarkWaiters == {w}
  {
    var one: seq<Option<T>> := [None];
    WorkShape(Empty<T>().(items := [] + one, pushed := [] + one, isWaterMarkExceeded := true, isProcessing := true));
  }

  // ----- the queue object

  class FifoQueue<T> {
    const highWaterMark: Option<int>
    var items: seq<Option<T>>
    var isProcessing: bool
    var isWaterMarkExceeded: bool
    var finishedEmitterQueue: set<nat>
    var waterMarkQueue: set<nat>
    // Resolved waiters and the call in progress, as the event loop sees them.
    var resolved: set<nat>
    var running: seq<T>
    ghost var waited: set<nat>
    ghost var pushed: seq<Option<T>>
    ghost var started: seq<T>
    ghost var ended: seq<T>
    // The run that led to this state.
    ghost var states: seq<Queue<T>>
    ghost var events: seq<Event<T>>

    ghost predicate Valid()
      reads this
    {
      IsRun(states, events, highWaterMark) && states[|events|] == View()
    }

    ghost function View(): Queue<T>
      reads this
    {
      Queue(items, isProcessing, isWaterMarkExceeded, finishedEmitterQueue, waterMarkQueue, resolved, waited,
            pushed, started, ended, running)
    }

    constructor (highWaterMark: Option<int>)
      ensures Valid() && View() == Empty() && events == [] && this.highWaterMark == highWaterMark
    {
      this.highWaterMark := highWaterMark;
      items, isProcessing, isWaterMarkExceeded := [], false, false;
      finishedEmitterQueue, waterMarkQueue, resolved, running := {}, {}, {}, [];
      waited, pushed, started, ended := {}, [], [], [];
      states, events := [Empty()], [];
    }

    /** The queue's guarantees, for this object: order, single processing, and nobody waiting on an idle queue. */
    lemma Delivers()
      requires Valid() && PushesDefined(events) && UsableMark(highWaterMark)
      ensures |running| <= 1 && ended + running <= Defined(pushed)
      ensures finishedEmitterQueue + waterMarkQueue != {} ==> isProcessing && |running| == 1
      ensures !isProcessing ==> ended == Defined(pushed) && waited == resolved
    {
      OrderedDelivery(states, events, highWaterMark, |events|);
    }

    /** Records a step of the run. */
    ghost method Record(e: Event<T>)
      requires IsRun(states, events, highWaterMark) && Enabled(states[|events|], e)
      requires View() == Next(states[|events|], e, highWaterMark)
      modifies `states, `events
      ensures Valid() && events == old(events) + [e]
    {
      ExtendRun(states, events, highWaterMark, e);
      states, events := states + [View()], events + [e];
    }

    method Push(xs: seq<Option<T>>) returns (len: nat)
      requires Valid()
      modifies this
      ensures Valid() && events == old(events) + [Event.Push(xs)]
      ensures View() == Pushed(old(View()), xs, highWaterMark) && len == |old(items)| + |xs|
      ensures isWaterMarkExceeded <==> highWaterMark.Some? && highWaterMark.value != 0 && len >= highWaterMark.value
      ensures waterMarkQueue == old(waterMarkQueue)
      ensures if old(isProcessing) then items == old(items) + xs && running == old(running) && isProcessing
              else WorksOn(old(items) + xs, old(View()), View())
    {
      PushedSpeltOut(View(), xs, highWaterMark);
      items, pushed := items + xs, pushed + xs;
      len := |items|;
      isWaterMarkExceeded := AtMark(len, highWaterMark);
      if !isProcessing {
        isProcessing := true;
        RunWorker();
      }
      Record(Event.Push(xs));
    }

    /** The `while` loop of the worker, up to the await of the processing function. */
    method RunWorker()
      modifies this
      ensures View() == Work(old(View())) && states == old(states) && events == old(events)
    {
      while |items| > 0
        invariant Work(View()) == Work(old(View())) && states == old(states) && events == old(events)
        decreases |items|
      {
        var item := items[0];
        items := items[1..];
        if item.None? { continue; }
        started, running := started + [item.value], running + [item.value];
        return;
      }
      OnFinished();
    }

    /** The processing function of a call in progress resolves. */
    method Resume(index: nat)
      requires Valid() && index < |running|
      modifies this
      ensures Valid() && events == old(events) + [Complete(index)]
      ensures View() == Completed(old(View()), index, highWaterMark)
      ensures old(isProcessing) && |old(running)| == 1 ==>
                && MarkChecked(old(View()), highWaterMark, View())
                && WorksOn(old(items), old(View()).(running := []), View())
    {
      if isProcessing && |running| == 1 { CompletedSpeltOut(View(), index, highWaterMark); }
      running, ended := running[..index] + running[index + 1..], ended + [running[index]];
      CheckWaterMark();
      RunWorker();
      Record(Complete(index));
    }

    method OnFinished()
      modifies this
      ensures View() == Finish(old(View())) && states == old(states) && events == old(events)
      ensures !isProcessing && resolved == old(resolved) + old(finishedEmitterQueue) && finishedEmitterQueue == {}
    {
      isProcessing := false;
      resolved, finishedEmitterQueue := resolved + finishedEmitterQueue, {};
    }

    method CheckWaterMark()
      modifies this
      ensures View() == CheckMark(old(View()), highWaterMark) && states == old(states) && events == old(events)
      ensures if highWaterMark.None? || highWaterMark.value == 0 || |items| < highWaterMark.value
              then !isWaterMarkExceeded && waterMarkQueue == {} && resolved == old(resolved) + old(waterMarkQueue)
              else isWaterMarkExceeded == old(isWaterMarkExceeded) && waterMarkQueue == old(waterMarkQueue) &&
                   resolved == old(resolved)
    {
      if !AtMark(|items|, highWaterMark) {
        isWaterMarkExceeded := false;
        resolved, waterMarkQueue := resolved + waterMarkQueue, {};
      }
    }

    method AwaitFinished(waiter: nat)
      requires Valid()
      modifies this
      ensures Valid() && events == old(events) + [WaitOnFinished(waiter)]
      ensures View() == WaitedOnFinished(old(View()), waiter)
      ensures resolved == old(resolved) + if old(isProcessing) then {} else {waiter}
      ensures finishedEmitterQueue == old(finishedEmitterQueue) + if old(isProcessing) then {waiter} else {}
    {
      waited := waited + {waiter};
      if !isProcessing {
        resolved := resolved + {waiter};
      } else {
        finishedEmitterQueue := finishedEmitterQueue + {waiter};
      }
      Record(WaitOnFinished(waiter));
    }

    method AwaitWaterMark(waiter: nat)
      requires Valid()
      modifies this
      ensures Valid() && events == old(events) + [WaitOnWaterMark(waiter)]
      ensures View() == WaitedOnWaterMark(old(View()), waiter)
      ensures resolved == old(resolved) + if old(isWaterMarkExceeded) then {} else {waiter}
      ensures waterMarkQueue == old(waterMarkQueue) + if old(isWaterMarkExceeded) then {waiter} else {}
    {
      waited := waited + {waiter};
      if !isWaterMarkExceeded {
        resolved := resolved + {waiter};
      } else {
        waterMarkQueue := waterMarkQueue + {waiter};
      }
      Record(WaitOnWaterMark(waiter));
    }
  }
}
