/**
 * The queue of batches between producers and the one sender loop of a target, as a state machine.
 *
 * Every step is a stretch of code that runs under the queue's mutex, from one release of the mutex to the next:
 * push, flush and stop, each with its notification, and what the loop does from getting the mutex until it sleeps on
 * the condition variable, sends a batch, or ends. Steps of any callers interleave freely. The loop also wakes without
 * a notification (Wake), as it does when a notification arrives late.
 */
module BatchQueues {
  import opened Bytes

  /** Where the sender loop is: not started, about to look at the queue, asleep, sending a batch, or ended. */
  datatype Sender<E> = NotStarted | AtTop | Asleep | Sending(batch: seq<E>) | Terminated

  datatype Queue<E> = Queue(batches: seq<seq<E>>, sender: Sender<E>, running: bool, needStop: bool, requestFlush: bool) {
    /** The batch taken off the queue and not yet accounted for. */
    function InFlight(): seq<seq<E>> {
      if sender.Sending? then [sender.batch] else []
    }
  }

  /** BatchSize::Adaptive() */
  const ADAPTIVE: SizeT := SIZE_T_LIMIT - 1

  function Empty<E>(): Queue<E> {
    Queue([], NotStarted, false, false, false)
  }

  function Last<T>(s: seq<T>): T
    requires s != []
  {
    s[|s| - 1]
  }

  /** The queue that push appends to: a batch is added if there is none, or if the last one is full. */
  function Opened<E>(batches: seq<seq<E>>, batchSize: SizeT): (r: seq<seq<E>>)
    ensures r != []
  {
    var some := if batches == [] then [[]] else batches;
    if batchSize != ADAPTIVE && |Last(some)| == batchSize then some + [[]] else some
  }

  function AppendToLast<E>(batches: seq<seq<E>>, e: E): seq<seq<E>>
    requires batches != []
  {
    batches[..|batches| - 1] + [Last(batches) + [e]]
  }

  function Enqueued<E>(batches: seq<seq<E>>, batchSize: SizeT, e: E): seq<seq<E>> {
    AppendToLast(Opened(batches, batchSize), e)
  }

  /** push() notifies the loop if batches are adaptive, or if it adds a batch behind a full one. */
  predicate Notifies<E>(batches: seq<seq<E>>, batchSize: SizeT) {
    batchSize == ADAPTIVE || |if batches == [] then [] else Last(batches)| == batchSize
  }

  /** The predicate the loop waits for. */
  predicate Wakes<E>(q: Queue<E>, batchSize: SizeT) {
    || q.needStop
    || q.requestFlush
    || (q.batches != [] && (batchSize == ADAPTIVE || |q.batches[0]| == batchSize))
  }

  function Notified<E>(q: Queue<E>): Queue<E> {
    if q.sender.Asleep? then q.(sender := AtTop) else q
  }

  function Pushed<E>(q: Queue<E>, batchSize: SizeT, e: E): Queue<E> {
    var q' := q.(batches := Enqueued(q.batches, batchSize, e));
    if Notifies(q.batches, batchSize) then Notified(q') else q'
  }

  /** flush() and stop() return at once while the loop does not run. */
  function Flushed<E>(q: Queue<E>): Queue<E> {
    if q.running then Notified(q.(requestFlush := true)) else q
  }

  function Stopped<E>(q: Queue<E>): Queue<E> {
    if q.running then Notified(q.(needStop := true)) else q
  }

  /** The loop with the mutex: it takes the front batch, ends, or clears the flush request of an empty queue and sleeps. */
  function Look<E>(q: Queue<E>, batchSize: SizeT): Queue<E> {
    if !Wakes(q, batchSize) then q.(sender := Asleep)
    else if q.batches != [] then q.(sender := Sending(q.batches[0]), batches := q.batches[1..])
    else if q.needStop then q.(sender := Terminated, running := false, requestFlush := false)
    else q.(sender := Asleep, requestFlush := false)
  }

  /** sendBatch has returned: the flush request is cleared, and the loop looks again before it lets go of the mutex. */
  function Returned<E>(q: Queue<E>, batchSize: SizeT): Queue<E> {
    Look(q.(requestFlush := false), batchSize)
  }

  lemma LookMoves<E>(q: Queue<E>, batchSize: SizeT)
    ensures Look(q, batchSize).InFlight() + Look(q, batchSize).batches == q.batches
    ensures (if Look(q, batchSize).sender.Sending? then Look(q, batchSize).sender.batch else [])
            + Concat(Look(q, batchSize).batches) == Concat(q.batches)
  {
    assert [] + Concat(q.batches) == Concat(q.batches);
  }

  // ----- Runs -----

  datatype Step<E> = Start | Push(e: E) | Flush | Stop | Wake | LoopPass | Sent

  /** A queue with the history of its calls; late says that a push came after the stop request. */
  datatype Run<E> = Run(q: Queue<E>, pushed: seq<E>, sent: seq<seq<E>>, flushes: nat, late: bool)

  function Initial<E>(): Run<E> {
    Run(Empty(), [], [], 0, false)
  }

  predicate Enabled<E>(r: Run<E>, batchSize: SizeT, step: Step<E>) {
    match step
    case Start => r.q.sender.NotStarted?
    case Wake => r.q.sender.Asleep?
    case LoopPass => r.q.sender.AtTop?
    case Sent => r.q.sender.Sending?
    case _ => true
  }

  function Do<E>(r: Run<E>, batchSize: SizeT, step: Step<E>): Run<E>
    requires Enabled(r, batchSize, step)
  {
    match step
    case Start => r.(q := r.q.(sender := AtTop, running := true))
    case Push(e) => r.(q := Pushed(r.q, batchSize, e),
                       pushed := r.pushed + [e], late := r.late || r.q.needStop)
    case Flush => r.(q := Flushed(r.q), flushes := r.flushes + 1)
    case Stop => r.(q := Stopped(r.q))
    case Wake => r.(q := Notified(r.q))
    case LoopPass => r.(q := Look(r.q, batchSize))
    case Sent => r.(q := Returned(r.q, batchSize), sent := r.sent + [r.q.sender.batch])
  }

  predicate Allowed<E>(r: Run<E>, batchSize: SizeT, steps: seq<Step<E>>)
    decreases |steps|
  {
    steps == [] || (Enabled(r, batchSize, steps[0]) && Allowed(Do(r, batchSize, steps[0]), batchSize, steps[1..]))
  }

  function DoAll<E>(r: Run<E>, batchSize: SizeT, steps: seq<Step<E>>): Run<E>
    requires Allowed(r, batchSize, steps)
    decreases |steps|
  {
    if steps == [] then r else DoAll(Do(r, batchSize, steps[0]), batchSize, steps[1..])
  }

  lemma OneStepFirst<E>(r: Run<E>, batchSize: SizeT, step: Step<E>, rest: seq<Step<E>>)
    requires Enabled(r, batchSize, step) && Allowed(Do(r, batchSize, step), batchSize, rest)
    ensures Allowed(r, batchSize, [step] + rest)
    ensures DoAll(r, batchSize, [step] + rest) == DoAll(Do(r, batchSize, step), batchSize, rest)
  {
    assert ([step] + rest)[1..] == rest;
  }

  lemma {:induction false} OneStepMore<E>(r: Run<E>, batchSize: SizeT, steps: seq<Step<E>>, step: Step<E>)
    requires Allowed(r, batchSize, steps) && Enabled(DoAll(r, batchSize, steps), batchSize, step)
    ensures Allowed(r, batchSize, steps + [step])
    ensures DoAll(r, batchSize, steps + [step]) == Do(DoAll(r, batchSize, steps), batchSize, step)
    decreases |steps|
  {
    if steps == [] {
      OneStepFirst(r, batchSize, step, []);
      assert [] + [step] == [step] + [];
    } else {
      OneStepMore(Do(r, batchSize, steps[0]), batchSize, steps[1..], step);
      OneStepFirst(r, batchSize, steps[0], steps[1..] + [step]);
      assert steps + [step] == [steps[0]] + (steps[1..] + [step]);
    }
  }

  // ----- Conservation: nothing is lost, duplicated or reordered -----

  ghost predicate Conserves<E>(r: Run<E>) {
    Concat(r.sent + r.q.InFlight() + r.q.batches) == r.pushed
  }

  lemma ConcatEnqueued<E>(batches: seq<seq<E>>, batchSize: SizeT, e: E)
    ensures Concat(Enqueued(batches, batchSize, e)) == Concat(batches) + [e]
  {
    var all := Opened(batches, batchSize);
    OpenedAddsNothing(batches, batchSize);
    var front := all[..|all| - 1];
    ConcatSnoc(front, Last(all));
    ConcatSnoc(front, Last(all) + [e]);
    assert all == front + [Last(all)];
    Assoc(Concat(front), Last(all), [e]);
  }

  lemma OpenedAddsNothing<E>(batches: seq<seq<E>>, batchSize: SizeT)
    ensures Concat(Opened(batches, batchSize)) == Concat(batches)
  {
    ConcatOne<E>([]);
    ConcatSnoc<E>(batches, []);
    ConcatSnoc<E>([[]], []);
    assert Concat(batches) + [] == Concat(batches);
  }

  /** A push adds its event behind all others and leaves what is being sent alone. */
  lemma PushedKeeps<E>(q: Queue<E>, batchSize: SizeT, e: E)
    ensures Concat(Pushed(q, batchSize, e).batches) == Concat(q.batches) + [e]
    ensures Pushed(q, batchSize, e).sender.Sending? <==> q.sender.Sending?
    ensures q.sender.Sending? ==> Pushed(q, batchSize, e).sender == q.sender
  {
    ConcatEnqueued(q.batches, batchSize, e);
  }

  lemma PushConserves<E>(before: seq<seq<E>>, batches: seq<seq<E>>, batchSize: SizeT, e: E)
    ensures Concat(before + Enqueued(batches, batchSize, e)) == Concat(before + batches) + [e]
  {
    ConcatEnqueued(batches, batchSize, e);
    ConcatAppend(before, batches);
    ConcatAppend(before, Enqueued(batches, batchSize, e));
    Assoc(Concat(before), Concat(batches), [e]);
  }

  lemma DoConserves<E>(r: Run<E>, batchSize: SizeT, step: Step<E>)
    requires Conserves(r) && Enabled(r, batchSize, step)
    ensures Conserves(Do(r, batchSize, step))
  {
    var r' := Do(r, batchSize, step);
    match step
    case Push(e) =>
      PushConserves(r.sent + r.q.InFlight(), r.q.batches, batchSize, e);
    case LoopPass =>
      LookMoves(r.q, batchSize);
      Assoc(r.sent, r'.q.InFlight(), r'.q.batches);
      assert r.sent + [] == r.sent;
    case Sent =>
      LookMoves(r.q.(requestFlush := false), batchSize);
      Assoc(r'.sent, r'.q.InFlight(), r'.q.batches);
    case _ =>
  }

  /** In every reachable state, what was sent, what is being sent and what is queued is what was pushed, in order. */
  lemma {:induction false} Conservation<E>(r: Run<E>, batchSize: SizeT, steps: seq<Step<E>>)
    requires Conserves(r) && Allowed(r, batchSize, steps)
    ensures Conserves(DoAll(r, batchSize, steps))
    decreases |steps|
  {
    if steps == [] {
    } else {
      DoConserves(r, batchSize, steps[0]);
      Conservation(Do(r, batchSize, steps[0]), batchSize, steps[1..]);
    }
  }

  // ----- Sizes: queued batches are full except the last, sent ones hold 1 to B events -----

  predicate Sized<E>(b: seq<E>, batchSize: SizeT) {
    1 <= |b| && (batchSize != ADAPTIVE ==> |b| <= batchSize)
  }

  predicate Shaped<E>(batches: seq<seq<E>>, batchSize: SizeT) {
    && (forall i :: 0 <= i < |batches| ==> Sized(batches[i], batchSize))
    && (forall i :: 0 <= i < |batches| - 1 ==> |batches[i]| == batchSize)
    && (batchSize == ADAPTIVE ==> |batches| <= 1)
  }

  lemma EnqueuedShaped<E>(batches: seq<seq<E>>, batchSize: SizeT, e: E)
    requires batchSize >= 1 && Shaped(batches, batchSize)
    ensures Shaped(Enqueued(batches, batchSize, e), batchSize)
  {
  }

  predicate SizesOk<E>(r: Run<E>, batchSize: SizeT) {
    && Shaped(r.q.batches, batchSize)
    && (forall i :: 0 <= i < |r.sent| ==> Sized(r.sent[i], batchSize))
    && (r.q.sender.Sending? ==> Sized(r.q.sender.batch, batchSize))
  }

  lemma DoKeepsSizes<E>(r: Run<E>, batchSize: SizeT, step: Step<E>)
    requires batchSize >= 1 && SizesOk(r, batchSize) && Enabled(r, batchSize, step)
    ensures SizesOk(Do(r, batchSize, step), batchSize)
  {
    match step
    case Push(e) => EnqueuedShaped(r.q.batches, batchSize, e);
    case _ =>
  }

  /** A batch size of zero is not refused: the first push then queues an empty batch in front of its own. */
  lemma ZeroBatchSizeQueuesEmptyBatch<E>(e: E)
    ensures Enqueued([], 0, e) == [[], [e]]
  {
    var all := Opened<E>([], 0);
    assert all == [[]] + [[]];
    assert all[..1] == [[]] && Last(all) + [e] == [e];
  }

  // ----- How many batches can be short -----

  function ShortCount<E>(batches: seq<seq<E>>, batchSize: SizeT): nat {
    if batches == [] then 0
    else (if |batches[0]| < batchSize then 1 else 0) + ShortCount(batches[1..], batchSize)
  }

  lemma {:induction false} ShortCountSnoc<E>(batches: seq<seq<E>>, b: seq<E>, batchSize: SizeT)
    ensures ShortCount(batches + [b], batchSize) == ShortCount(batches, batchSize) + (if |b| < batchSize then 1 else 0)
  {
    if batches == [] {
    } else {
      ShortCountSnoc(batches[1..], b, batchSize);
      assert (batches + [b])[1..] == batches[1..] + [b];
    }
  }

  function One(b: bool): nat {
    if b then 1 else 0
  }

  /** A pending flush request, and the last batch of a stopped queue, may each still produce one short batch. */
  predicate ShortsBounded<E>(r: Run<E>, batchSize: SizeT) {
    && (r.q.sender.NotStarted? ==> !r.q.running && !r.q.requestFlush && !r.q.needStop)
    && (r.q.sender.Asleep? ==> !r.q.requestFlush)
    && (!r.late ==>
          ShortCount(r.sent, batchSize)
          + One(r.q.sender.Sending? && |r.q.sender.batch| < batchSize)
          + One(r.q.sender.AtTop? && r.q.requestFlush)
          <= r.flushes + One(r.q.needStop && r.q.batches == []))
  }

  lemma DoBoundsShorts<E>(r: Run<E>, batchSize: SizeT, step: Step<E>)
    requires 1 <= batchSize < ADAPTIVE && SizesOk(r, batchSize)
    requires ShortsBounded(r, batchSize) && Enabled(r, batchSize, step)
    ensures ShortsBounded(Do(r, batchSize, step), batchSize)
  {
    match step
    case Sent => ShortCountSnoc(r.sent, r.q.sender.batch, batchSize);
    case _ =>
  }

  /**
   * With a fixed batch size B >= 1, every batch sent in any run holds 1 to B events, and if no push follows the
   * stop request at most one batch per flush call, and one more, is short.
   */
  lemma {:induction false} SentBatches<E>(r: Run<E>, batchSize: SizeT, steps: seq<Step<E>>)
    requires 1 <= batchSize < ADAPTIVE && SizesOk(r, batchSize) && ShortsBounded(r, batchSize)
    requires Allowed(r, batchSize, steps)
    ensures var r' := DoAll(r, batchSize, steps);
            && SizesOk(r', batchSize) && ShortsBounded(r', batchSize)
            && (!r'.late ==> ShortCount(r'.sent, batchSize) <= r'.flushes + 1)
    decreases |steps|
  {
    if steps == [] {
    } else {
      DoKeepsSizes(r, batchSize, steps[0]);
      DoBoundsShorts(r, batchSize, steps[0]);
      SentBatches(Do(r, batchSize, steps[0]), batchSize, steps[1..]);
    }
  }

  // ----- Where the loop is -----

  /**
   * The loop runs exactly between its start and its end. Before, no request is accepted, and it does not sleep on
   * one; after, a stop was requested, and nothing is left behind but what was pushed since.
   */
  predicate Drainable<E>(r: Run<E>) {
    && (r.q.running <==> r.q.sender.AtTop? || r.q.sender.Asleep? || r.q.sender.Sending?)
    && (r.q.sender.NotStarted? || r.q.sender.Asleep? ==> !r.q.needStop && !r.q.requestFlush)
    && (r.q.sender.Terminated? ==> r.q.needStop && (r.late || r.q.batches == []))
  }

  lemma DoKeepsDrainable<E>(r: Run<E>, batchSize: SizeT, step: Step<E>)
    requires Drainable(r) && Enabled(r, batchSize, step)
    ensures Drainable(Do(r, batchSize, step))
  {
  }

  /** The loop falls asleep, and is left asleep, with at most one batch queued; with none if batches are adaptive. */
  predicate SleepsOnOne<E>(r: Run<E>, batchSize: SizeT) {
    r.q.sender.Asleep? ==> |r.q.batches| <= 1 && (batchSize == ADAPTIVE ==> r.q.batches == [])
  }

  lemma DoKeepsSleepsOnOne<E>(r: Run<E>, batchSize: SizeT, step: Step<E>)
    requires batchSize >= 1 && SizesOk(r, batchSize) && SleepsOnOne(r, batchSize) && Enabled(r, batchSize, step)
    ensures SleepsOnOne(Do(r, batchSize, step), batchSize)
  {
    if step.Push? {
      EnqueuedShaped(r.q.batches, batchSize, step.e);
    }
  }

  // ----- Every run from a new queue -----

  lemma InitialRun<E>(batchSize: SizeT)
    ensures var r := Initial<E>();
            && Conserves(r) && SizesOk(r, batchSize) && ShortsBounded(r, batchSize)
            && Drainable(r) && SleepsOnOne(r, batchSize)
  {
  }

  /** What every run of a new queue keeps. */
  predicate Sound<E>(r: Run<E>, batchSize: SizeT) {
    Drainable(r) && (batchSize >= 1 ==> SizesOk(r, batchSize) && SleepsOnOne(r, batchSize))
  }

  lemma {:induction false} ReachedRun<E>(r: Run<E>, batchSize: SizeT, steps: seq<Step<E>>)
    requires Allowed(r, batchSize, steps) && Conserves(r) && Sound(r, batchSize)
    ensures Conserves(DoAll(r, batchSize, steps)) && Sound(DoAll(r, batchSize, steps), batchSize)
    decreases |steps|
  {
    if steps != [] {
      DoConserves(r, batchSize, steps[0]);
      DoKeepsDrainable(r, batchSize, steps[0]);
      if batchSize >= 1 {
        DoKeepsSizes(r, batchSize, steps[0]);
        DoKeepsSleepsOnOne(r, batchSize, steps[0]);
      }
      ReachedRun(Do(r, batchSize, steps[0]), batchSize, steps[1..]);
    }
  }
}
