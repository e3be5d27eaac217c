/**
 processBlockRange: a producer fetches chunks of heights through a bounded pool and feeds the block queue,
 while the queue's worker processes blocks. Every interleaving of producer, fetches and worker is a run.
 */
module BlockPipeline {
  import opened Wrappers
  import opened Fifo

  /** The sizes in use are 50, 10 and 4. */
  datatype Limits = Limits(mark: nat, chunk: nat, pool: nat)

  /** `fetch` turns a height into its block. */
  datatype Job<!B> = Job(heights: seq<nat>, fetch: nat -> B, limits: Limits)

  /** Where the producer stands; `chunk` counts chunks, and waiter ids are chunk numbers. */
  datatype Producer<B> =
    | AtMarkCheck(chunk: nat)
    | BlockedOnMark(chunk: nat)
    | Fetching(chunk: nat, begun: nat, executing: set<nat>, results: map<nat, B>)
    | BlockedOnEnd(chunk: nat)
    | Returned

  datatype State<B> = State(queue: Queue<B>, producer: Producer<B>)

  datatype Event = AskMark | PassMark | Begin | Arrive(i: nat) | Feed | Process | PassEnd

  ghost predicate ValidJob(job: Job) {
    0 < job.limits.mark && 0 < job.limits.chunk && 0 < job.limits.pool
  }

  function Min(a: nat, b: nat): nat {
    if a < b then a else b
  }

  /** splitList cuts the heights into slices of the chunk size. */
  function Offset(job: Job, c: nat): nat {
    Min(c * job.limits.chunk, |job.heights|)
  }

  ghost predicate IsLast(job: Job, c: nat) {
    c * job.limits.chunk >= |job.heights|
  }

  function ChunkSize(job: Job, c: nat): int {
    Offset(job, c + 1) - Offset(job, c)
  }

  function Mark(job: Job): Option<int> {
    Some(job.limits.mark)
  }

  function Init<B>(): State<B> {
    State(Fifo.Empty(), AtMarkCheck(0))
  }

  /** The blocks of a chunk, in the order of its heights, whatever order they arrived in. */
  function Blocks<B>(results: map<nat, B>, n: nat): seq<Option<B>>
    requires forall i | 0 <= i < n :: i in results
  {
    seq(n, i requires 0 <= i < n => Some(results[i]))
  }

  // ----- one scheduling step

  ghost predicate Step<B>(job: Job<B>, s: State<B>, e: Event, t: State<B>)
    requires ValidJob(job)
  {
    var q, p, mark := s.queue, s.producer, Mark(job);
    match e
    case AskMark =>
      && p.AtMarkCheck?
      && t == if IsLast(job, p.chunk) then State(WaitedOnFinished(q, p.chunk), BlockedOnEnd(p.chunk))
              else State(WaitedOnWaterMark(q, p.chunk), BlockedOnMark(p.chunk))
    case PassMark =>
      p.BlockedOnMark? && p.chunk in q.woken && t == State(q, Fetching(p.chunk, 0, {}, map[]))
    case Begin =>
      && p.Fetching? && p.begun < ChunkSize(job, p.chunk) && |p.executing| < job.limits.pool
      && t == State(q, p.(begun := p.begun + 1, executing := p.executing + {p.begun}))
    case Arrive(i) =>
      && p.Fetching? && i in p.executing && Offset(job, p.chunk) + i < |job.heights|
      && t == State(q, p.(executing := p.executing - {i},
                          results := p.results[i := job.fetch(job.heights[Offset(job, p.chunk) + i])]))
    case Feed =>
      && p.Fetching? && p.begun == ChunkSize(job, p.chunk) && p.executing == {}
      && (forall i | 0 <= i < p.begun :: i in p.results)
      && t == State(Pushed(q, Blocks(p.results, p.begun), mark), AtMarkCheck(p.chunk + 1))
    case Process =>
      |q.running| > 0 && t == State(Completed(q, 0, mark), p)
    case PassEnd =>
      p.BlockedOnEnd? && p.chunk in q.woken && t == State(q, Returned)
  }

  // ----- the invariant

  function Fetched<B>(job: Job<B>, n: nat): seq<Option<B>>
    requires n <= |job.heights|
  {
    seq(n, i requires 0 <= i < n => Some(job.fetch(job.heights[i])))
  }

  /** How many heights have been handed to the queue. */
  function Fed<B>(job: Job<B>, p: Producer<B>): nat {
    match p
    case AtMarkCheck(c) => Offset(job, c)
    case BlockedOnMark(c) => Offset(job, c)
    case Fetching(c, _, _, _) => Offset(job, c)
    case _ => |job.heights|
  }

  ghost predicate PoolInv<B>(job: Job<B>, p: Producer<B>)
    requires p.Fetching?
  {
    && !IsLast(job, p.chunk)
    && p.begun <= ChunkSize(job, p.chunk) && |p.executing| <= job.limits.pool
    && (forall i | i in p.executing :: i < p.begun)
    && (forall i: nat :: i in p.results <==> i < p.begun && i !in p.executing)
    && (forall i | i in p.results :: p.results[i] == job.fetch(job.heights[Offset(job, p.chunk) + i]))
  }

  ghost predicate WaitersBelow<B>(q: Queue<B>, c: nat) {
    q.finishedWaiters == {} && forall w | w in q.waited :: w < c
  }

  ghost predicate ProducerInv<B>(job: Job<B>, q: Queue<B>, p: Producer<B>) {
    match p
    case AtMarkCheck(c) => WaitersBelow(q, c)
    case BlockedOnMark(c) =>
      !IsLast(job, c) && WaitersBelow(q, c + 1) && c in q.waited && (c in q.woken ==> |q.items| < job.limits.mark)
    case Fetching(c, _, _, _) => PoolInv(job, p) && WaitersBelow(q, c + 1) && |q.items| < job.limits.mark
    case BlockedOnEnd(c) => c in q.waited && c !in q.waterMarkWaiters && (c in q.woken ==> !q.isProcessing)
    case Returned => !q.isProcessing
  }

  ghost predicate Inv<B>(job: Job<B>, s: State<B>) {
    && ValidJob(job)
    && Fifo.Inv(s.queue, Mark(job))
    && (forall x | x in s.queue.items :: x.Some?)
    && s.queue.pushed == Fetched(job, Fed(job, s.producer))
    && |s.queue.items| <= job.limits.mark - 1 + job.limits.chunk
    && ProducerInv(job, s.queue, s.producer)
  }

  lemma OffsetStep(job: Job, c: nat)
    requires ValidJob(job) && !IsLast(job, c)
    ensures 0 < ChunkSize(job, c) <= job.limits.chunk
    ensures Offset(job, c) == c * job.limits.chunk < Offset(job, c + 1) <= |job.heights|
  {
  }

  /** One step of the queue, with defined items: still sound, and no item appears that was not pushed. */
  lemma QueueStep<B>(job: Job<B>, q: Queue<B>, e: Fifo.Event<B>)
    requires ValidJob(job) && Fifo.Inv(q, Mark(job)) && Enabled(q, e)
    requires forall x | x in q.items :: x.Some?
    requires e.Push? ==> forall x | x in e.xs :: x.Some?
    ensures Fifo.Inv(Next(q, e, Mark(job)), Mark(job))
    ensures forall x | x in Next(q, e, Mark(job)).items :: x.Some?
  {
    DefinedKeepsAll(q.items);
    if e.Push? { DefinedKeepsAll(q.items + e.xs); }
    StepIff(q, e, Mark(job));
    NextItems(q, e, Mark(job));
  }

  lemma CompletedShape<B>(q: Queue<B>, mark: Option<int>)
    requires |q.running| > 0 && q.isProcessing
    ensures var n := Completed(q, 0, mark);
            && |n.items| <= |q.items| && n.pushed == q.pushed && n.waited == q.waited
            && n.ended == q.ended + [q.running[0]]
            && n.finishedWaiters <= q.finishedWaiters && n.waterMarkWaiters <= q.waterMarkWaiters
            && (forall w | w in n.woken :: w in q.woken || (w in q.finishedWaiters && !n.isProcessing) ||
                                           (w in q.waterMarkWaiters && !AtMark(|q.items|, mark)))
  {
    WorkShape(Fifo.CheckMark(Ended(q, 0), mark));
  }

  lemma PushedShape<B>(q: Queue<B>, xs: seq<Option<B>>, mark: Option<int>)
    ensures var n := Pushed(q, xs, mark);
            && |n.items| <= |q.items| + |xs| && n.pushed == q.pushed + xs && n.waited == q.waited
            && n.finishedWaiters <= q.finishedWaiters && n.ended == q.ended
  {
    WorkShape(Appended(q, xs, mark).(isProcessing := true));
  }

  lemma InitInv<B>(job: Job<B>)
    requires ValidJob(job)
    ensures Inv(job, Init<B>())
  {
  }

  lemma ProcessKeepsInv<B>(job: Job<B>, s: State<B>, t: State<B>)
    requires Inv(job, s) && Step(job, s, Process, t)
    ensures Inv(job, t)
  {
    QueueStep(job, s.queue, Complete(0));
    CompletedShape(s.queue, Mark(job));
  }

  lemma FeedKeepsInv<B>(job: Job<B>, s: State<B>, t: State<B>)
    requires Inv(job, s) && Step(job, s, Feed, t)
    ensures Inv(job, t)
  {
    var q, p := s.queue, s.producer;
    OffsetStep(job, p.chunk);
    var xs := Blocks(p.results, p.begun);
    forall x | x in xs
      ensures x.Some?
    {
    }
    QueueStep(job, q, Push(xs));
    PushedShape(q, xs, Mark(job));
    ChunkExtends(job, p);
  }

  /** A complete chunk continues what was fetched before it. */
  lemma ChunkExtends<B>(job: Job<B>, p: Producer<B>)
    requires ValidJob(job) && p.Fetching? && PoolInv(job, p)
    requires p.begun == ChunkSize(job, p.chunk) && p.executing == {}
    ensures Fetched(job, Offset(job, p.chunk)) + Blocks(p.results, p.begun) == Fetched(job, Offset(job, p.chunk + 1))
  {
    OffsetStep(job, p.chunk);
  }

  lemma AskMarkKeepsInv<B>(job: Job<B>, s: State<B>, t: State<B>)
    requires Inv(job, s) && Step(job, s, AskMark, t)
    ensures Inv(job, t)
  {
  }

  lemma BeginKeepsPool<B>(job: Job<B>, p: Producer<B>)
    requires ValidJob(job) && p.Fetching? && PoolInv(job, p)
    requires p.begun < ChunkSize(job, p.chunk) && |p.executing| < job.limits.pool
    ensures PoolInv(job, p.(begun := p.begun + 1, executing := p.executing + {p.begun}))
    ensures |p.executing + {p.begun}| == |p.executing| + 1
  {
  }

  lemma ArriveKeepsPool<B>(job: Job<B>, p: Producer<B>, i: nat)
    requires ValidJob(job) && p.Fetching? && PoolInv(job, p) && i in p.executing
    ensures Offset(job, p.chunk) + i < |job.heights|
    ensures PoolInv(job, p.(executing := p.executing - {i},
                            results := p.results[i := job.fetch(job.heights[Offset(job, p.chunk) + i])]))
    ensures |p.executing - {i}| == |p.executing| - 1
  {
  }

  lemma FetchKeepsInv<B>(job: Job<B>, s: State<B>, e: Event, t: State<B>)
    requires Inv(job, s) && Step(job, s, e, t) && (e.Begin? || e.Arrive?)
    ensures Inv(job, t)
  {
    if e.Arrive? {
      ArriveKeepsPool(job, s.producer, e.i);
    } else {
      BeginKeepsPool(job, s.producer);
    }
  }

  lemma PassKeepsInv<B>(job: Job<B>, s: State<B>, e: Event, t: State<B>)
    requires Inv(job, s) && Step(job, s, e, t) && (e.PassMark? || e.PassEnd?)
    ensures Inv(job, t)
  {
  }

  lemma StepKeepsInv<B>(job: Job<B>, s: State<B>, e: Event, t: State<B>)
    requires Inv(job, s) && Step(job, s, e, t)
    ensures Inv(job, t)
  {
    match e
    case Process => ProcessKeepsInv(job, s, t);
    case Feed => FeedKeepsInv(job, s, t);
    case AskMark => AskMarkKeepsInv(job, s, t);
    case PassMark => PassKeepsInv(job, s, e, t);
    case PassEnd => PassKeepsInv(job, s, e, t);
    case _ => FetchKeepsInv(job, s, e, t);
  }

  // ----- runs

  ghost predicate StepAt<B>(job: Job<B>, states: seq<State<B>>, events: seq<Event>, i: nat)
    requires ValidJob(job) && i < |events| && |states| == |events| + 1
  {
    Step(job, states[i], events[i], states[i + 1])
  }

  ghost predicate IsRun<B>(job: Job<B>, states: seq<State<B>>, events: seq<Event>)
    requires ValidJob(job)
  {
    && |states| == |events| + 1
    && states[0] == Init()
    && forall i {:trigger StepAt(job, states, events, i)} | 0 <= i < |events| :: StepAt(job, states, events, i)
  }

  lemma {:induction false} RunInv<B>(job: Job<B>, states: seq<State<B>>, events: seq<Event>, i: nat)
    requires ValidJob(job) && IsRun(job, states, events) && i <= |events|
    ensures Inv(job, states[i])
  {
    if i == 0 {
      InitInv(job);
    } else {
      RunInv(job, states, events, i - 1);
      assert StepAt(job, states, events, i - 1);
      StepKeepsInv(job, states[i - 1], events[i - 1], states[i]);
    }
  }

  function BlocksOf<B>(job: Job<B>, n: nat): seq<B>
    requires n <= |job.heights|
  {
    seq(n, i requires 0 <= i < n => job.fetch(job.heights[i]))
  }

  lemma DefinedFetched<B>(job: Job<B>, n: nat)
    requires n <= |job.heights|
    ensures Defined(Fetched(job, n)) == BlocksOf(job, n)
  {
    DefinedKeepsAll(Fetched(job, n));
  }

  /**
   In every interleaving the blocks processed so far, and the one in progress, are the blocks of the
   heights in their order; the queue never exceeds mark - 1 + chunk blocks, and at most `pool` fetches
   run at once. When the call returns, every block has been processed.
   */
  lemma OrderAndBounds<B>(job: Job<B>, states: seq<State<B>>, events: seq<Event>, i: nat)
    requires ValidJob(job) && IsRun(job, states, events) && i <= |events|
    ensures var s := states[i];
            && s.queue.ended + s.queue.running <= BlocksOf(job, |job.heights|)
            && |s.queue.running| <= 1
            && |s.queue.items| <= job.limits.mark - 1 + job.limits.chunk
            && (s.producer.Fetching? ==> |s.producer.executing| <= job.limits.pool && |s.queue.items| < job.limits.mark)
            && (s.producer.Returned? ==> s.queue.ended == BlocksOf(job, |job.heights|))
  {
    RunInv(job, states, events, i);
    var n := Fed(job, states[i].producer);
    DefinedFetched(job, n);
    assert BlocksOf(job, n) <= BlocksOf(job, |job.heights|);
  }

  /** The limits of processBlockRange. */
  const BLOCK_RANGE_LIMITS := Limits(50, 10, 4)

  /** With those limits the queue holds at most 59 blocks, even while a chunk is being appended. */
  lemma AtMost59Blocks<B>(job: Job<B>, states: seq<State<B>>, events: seq<Event>, i: nat)
    requires job.limits == BLOCK_RANGE_LIMITS && IsRun(job, states, events) && i < |events|
    ensures |states[i].queue.items| <= 59
    ensures events[i].Feed? ==> states[i].producer.Fetching? && |states[i].queue.items| + states[i].producer.begun <= 59
    ensures states[i].producer.Fetching? ==> |states[i].producer.executing| <= 4
  {
    RunInv(job, states, events, i);
    assert StepAt(job, states, events, i);
    if states[i].producer.Fetching? { OffsetStep(job, states[i].producer.chunk); }
  }

  // ----- progress

  lemma PoolMoves<B>(job: Job<B>, s: State<B>) returns (e: Event, t: State<B>)
    requires Inv(job, s) && s.producer.Fetching?
    ensures Step(job, s, e, t)
  {
    var q, p := s.queue, s.producer;
    var c, begun, executing := p.chunk, p.begun, p.executing;
    OffsetStep(job, c);
    if i :| i in executing {
      e, t := Arrive(i), State(q, p.(executing := executing - {i},
                                     results := p.results[i := job.fetch(job.heights[Offset(job, c) + i])]));
    } else if begun < ChunkSize(job, c) {
      assert executing == {};
      e, t := Begin, State(q, p.(begun := begun + 1, executing := executing + {begun}));
    } else {
      e, t := Feed, State(Pushed(q, Blocks(p.results, begun), Mark(job)), AtMarkCheck(c + 1));
    }
  }

  /** Until the call returns, some step is possible: no waiter sleeps forever. */
  lemma NoDeadlock<B>(job: Job<B>, s: State<B>) returns (e: Event, t: State<B>)
    requires Inv(job, s) && !s.producer.Returned?
    ensures Step(job, s, e, t)
  {
    var q, p, mark := s.queue, s.producer, Mark(job);
    match p
    case AtMarkCheck(c) =>
      e := AskMark;
      t := if IsLast(job, c) then State(WaitedOnFinished(q, c), BlockedOnEnd(c))
           else State(WaitedOnWaterMark(q, c), BlockedOnMark(c));
    case BlockedOnMark(c) =>
      if c in q.woken {
        e, t := PassMark, State(q, Fetching(c, 0, {}, map[]));
      } else {
        e, t := Process, State(Completed(q, 0, mark), p);
      }
    case Fetching(_, _, _, _) =>
      e, t := PoolMoves(job, s);
    case BlockedOnEnd(c) =>
      if c in q.woken {
        e, t := PassEnd, State(q, Returned);
      } else {
        e, t := Process, State(Completed(q, 0, mark), p);
      }
  }

  function ChunksLeft(job: Job, c: nat): nat
    requires ValidJob(job)
    decreases |job.heights| - c * job.limits.chunk
  {
    if c * job.limits.chunk >= |job.heights| then 0
    else
      assert (c + 1) * job.limits.chunk == c * job.limits.chunk + job.limits.chunk;
      1 + ChunksLeft(job, c + 1)
  }

  function ProducerWork<B>(job: Job<B>, p: Producer<B>): int
    requires ValidJob(job)
  {
    match p
    case AtMarkCheck(c) => 3 * ChunksLeft(job, c) + 2 + 2 * (|job.heights| - Offset(job, c))
    case BlockedOnMark(c) => 3 * ChunksLeft(job, c) + 1 + 2 * (|job.heights| - Offset(job, c))
    case Fetching(c, begun, executing, _) =>
      3 * ChunksLeft(job, c) + 2 * (|job.heights| - Offset(job, c) - begun) + |executing|
    case BlockedOnEnd(_) => 1
    case Returned => 0
  }

  /** A bound on the number of steps still to come. */
  function Remaining<B>(job: Job<B>, s: State<B>): int
    requires ValidJob(job)
  {
    ProducerWork(job, s.producer) + |job.heights| - |s.queue.ended|
  }

  lemma RemainingNotNegative<B>(job: Job<B>, s: State<B>)
    requires Inv(job, s)
    ensures 0 <= Remaining(job, s)
  {
    DefinedFetched(job, Fed(job, s.producer));
    assert |s.queue.started| <= |BlocksOf(job, Fed(job, s.producer))| <= |job.heights|;
    if s.producer.Fetching? { OffsetStep(job, s.producer.chunk); }
  }

  lemma ProducerWorkDecreases<B>(job: Job<B>, s: State<B>, e: Event, t: State<B>)
    requires Inv(job, s) && Step(job, s, e, t) && !e.Process? && !e.Feed?
    ensures ProducerWork(job, t.producer) < ProducerWork(job, s.producer)
  {
    var p := s.producer;
    if p.AtMarkCheck? && IsLast(job, p.chunk) {
    } else if !p.BlockedOnEnd? {
      OffsetStep(job, p.chunk);
      match e
      case Arrive(i) => ArriveKeepsPool(job, p, i);
      case Begin => BeginKeepsPool(job, p);
      case _ =>
    }
  }

  lemma StepDecreases<B>(job: Job<B>, s: State<B>, e: Event, t: State<B>)
    requires Inv(job, s) && Step(job, s, e, t)
    ensures Remaining(job, t) < Remaining(job, s)
  {
    match e
    case Process => CompletedShape(s.queue, Mark(job));
    case Feed =>
      OffsetStep(job, s.producer.chunk);
      PushedShape(s.queue, Blocks(s.producer.results, s.producer.begun), Mark(job));
    case _ => ProducerWorkDecreases(job, s, e, t);
  }

  lemma StepAtDecreases<B>(job: Job<B>, states: seq<State<B>>, events: seq<Event>, i: nat)
    requires ValidJob(job) && IsRun(job, states, events) && i < |events|
    ensures Remaining(job, states[i + 1]) < Remaining(job, states[i])
  {
    RunInv(job, states, events, i);
    assert StepAt(job, states, events, i);
    StepDecreases(job, states[i], events[i], states[i + 1]);
  }

  lemma {:induction false} RunsAreFinite<B>(job: Job<B>, states: seq<State<B>>, events: seq<Event>, i: nat)
    requires ValidJob(job) && IsRun(job, states, events) && i <= |events|
    ensures i + Remaining(job, states[i]) <= Remaining(job, Init<B>()) && 0 <= Remaining(job, states[i])
  {
    RunInv(job, states, events, i);
    RemainingNotNegative(job, states[i]);
    if i > 0 {
      RunsAreFinite(job, states, events, i - 1);
      StepAtDecreases(job, states, events, i - 1);
    }
  }

  /** A run that cannot go on has returned, with every block processed in the order of the heights. */
  lemma MaximalRunDelivers<B>(job: Job<B>, states: seq<State<B>>, events: seq<Event>)
    requires ValidJob(job) && IsRun(job, states, events)
    requires forall e, t :: !Step(job, states[|events|], e, t)
    ensures states[|events|].producer.Returned?
    ensures states[|events|].queue.ended == BlocksOf(job, |job.heights|)
    ensures |events| <= Remaining(job, Init<B>())
  {
    RunInv(job, states, events, |events|);
    RunsAreFinite(job, states, events, |events|);
    if !states[|events|].producer.Returned? {
      var e, t := NoDeadlock(job, states[|events|]);
      assert false;
    }
    OrderAndBounds(job, states, events, |events|);
  }
}
