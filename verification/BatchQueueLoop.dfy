/**
 * What the sender loop of a batch queue does when no call and no notification comes, and so what a stop(), flush() or
 * push() call that is the last one achieves.
 */
module BatchQueueLoops {
  import opened Bytes
  import opened BatchQueues

  // ----- The loop left to itself -----

  /** A bound on the steps the loop makes besides those for queued batches. */
  function Rank<E>(q: Queue<E>): nat {
    match q.sender
    case NotStarted => 2
    case AtTop => 1
    case Sending(_) => 1
    case _ => 0
  }

  /** The steps of the loop when no call and no notification comes, until it sleeps or has ended. */
  function LoopSteps<E>(q: Queue<E>, batchSize: SizeT): seq<Step<E>>
    decreases |q.batches|, Rank(q)
  {
    match q.sender
    case NotStarted => [Start] + LoopSteps(q.(sender := AtTop, running := true), batchSize)
    case AtTop => [LoopPass] + LoopSteps(Look(q, batchSize), batchSize)
    case Sending(_) => [Sent] + LoopSteps(Returned(q, batchSize), batchSize)
    case _ => []
  }

  predicate LoopCanMove<E>(r: Run<E>, batchSize: SizeT) {
    Enabled(r, batchSize, Start) || Enabled(r, batchSize, LoopPass) || Enabled(r, batchSize, Sent)
  }

  /** A step of the loop, unless it waits or has ended, and what is left to do after it. */
  lemma FirstLoopStep<E>(r: Run<E>, batchSize: SizeT)
    ensures var steps := LoopSteps(r.q, batchSize);
            if steps == [] then !LoopCanMove(r, batchSize)
            else Enabled(r, batchSize, steps[0]) && steps[1..] == LoopSteps(Do(r, batchSize, steps[0]).q, batchSize)
  {
  }

  /** The loop makes only a bounded number of steps before it sleeps or ends, and takes nothing but batches. */
  lemma {:induction false} LoopRests<E>(r: Run<E>, batchSize: SizeT)
    ensures Allowed(r, batchSize, LoopSteps(r.q, batchSize))
    ensures |LoopSteps(r.q, batchSize)| <= |r.q.batches| + Rank(r.q)
    ensures var end := DoAll(r, batchSize, LoopSteps(r.q, batchSize));
            !LoopCanMove(end, batchSize) && end.pushed == r.pushed && (Conserves(r) ==> Conserves(end))
    decreases |r.q.batches|, Rank(r.q)
  {
    var steps := LoopSteps(r.q, batchSize);
    FirstLoopStep(r, batchSize);
    if steps != [] {
      var r' := Do(r, batchSize, steps[0]);
      if Conserves(r) {
        DoConserves(r, batchSize, steps[0]);
      }
      LoopRests(r', batchSize);
    }
  }

  /** Where the loop gets when no call comes. */
  function AtRest<E>(r: Run<E>, batchSize: SizeT): Run<E> {
    LoopRests(r, batchSize);
    DoAll(r, batchSize, LoopSteps(r.q, batchSize))
  }

  lemma AtRestStep<E>(r: Run<E>, batchSize: SizeT)
    ensures var steps := LoopSteps(r.q, batchSize);
            if steps == [] then AtRest(r, batchSize) == r
            else Enabled(r, batchSize, steps[0]) && AtRest(r, batchSize) == AtRest(Do(r, batchSize, steps[0]), batchSize)
  {
    LoopRests(r, batchSize);
    FirstLoopStep(r, batchSize);
  }

  // ----- What the loop sends when no call comes -----

  predicate AllFull<E>(batches: seq<seq<E>>, batchSize: SizeT) {
    forall i :: 0 <= i < |batches| ==> |batches[i]| == batchSize
  }

  /** The batches behind the first. */
  function Behind<E>(batches: seq<seq<E>>): seq<seq<E>> {
    if batches == [] then [] else batches[1..]
  }

  /**
   * An accepted stop request empties the queue; a flush request that the loop finds is good for one batch; a loop that
   * sleeps sends nothing, whatever is queued.
   */
  predicate SendsAll<E>(q: Queue<E>, batchSize: SizeT) {
    || q.batches == []
    || (&& !q.sender.Terminated? && !q.sender.Asleep?
        && (|| q.needStop || batchSize == ADAPTIVE
            || AllFull(if q.sender.AtTop? && q.requestFlush then Behind(q.batches) else q.batches, batchSize)))
  }

  lemma SendsAllStep<E>(r: Run<E>, batchSize: SizeT)
    requires Drainable(r) && LoopSteps(r.q, batchSize) != []
    ensures var step := LoopSteps(r.q, batchSize)[0];
            && Enabled(r, batchSize, step)
            && (SendsAll(r.q, batchSize) <==> SendsAll(Do(r, batchSize, step).q, batchSize))
  {
    FirstLoopStep(r, batchSize);
    if r.q.batches != [] {
      assert r.q.batches == [r.q.batches[0]] + r.q.batches[1..];
    }
  }

  /** From any state, the loop without further calls or notifications empties the queue if and only if SendsAll holds. */
  lemma {:induction false} LoopSendsAllIff<E>(r: Run<E>, batchSize: SizeT)
    requires Drainable(r)
    ensures AtRest(r, batchSize).q.batches == [] <==> SendsAll(r.q, batchSize)
    decreases |r.q.batches|, Rank(r.q)
  {
    AtRestStep(r, batchSize);
    FirstLoopStep(r, batchSize);
    var steps := LoopSteps(r.q, batchSize);
    if steps != [] {
      SendsAllStep(r, batchSize);
      DoKeepsDrainable(r, batchSize, steps[0]);
      LoopSendsAllIff(Do(r, batchSize, steps[0]), batchSize);
    }
  }

  /** Once the loop rests on an empty queue, everything ever pushed has been sent, in order, exactly once. */
  lemma RestOnEmptyQueue<E>(r: Run<E>, batchSize: SizeT)
    requires Conserves(r)
    ensures AtRest(r, batchSize).q.batches == [] ==> Concat(AtRest(r, batchSize).sent) == r.pushed
  {
    LoopRests(r, batchSize);
    var end := AtRest(r, batchSize);
    if end.q.batches == [] {
      assert end.sent + [] + [] == end.sent;
    }
  }

  // ----- Stopping -----

  /**
   * A stop() call, followed by no other, makes the loop end with every event sent if and only if the loop has
   * started before the call, and has not ended before later pushes.
   */
  lemma StopDrainsIff<E>(r: Run<E>, batchSize: SizeT)
    requires Conserves(r) && Drainable(r)
    ensures var end := AtRest(Do(r, batchSize, Stop), batchSize);
            && (end.q.sender.Terminated? && end.q.batches == []
                <==> !r.q.sender.NotStarted? && (r.q.sender.Terminated? ==> r.q.batches == []))
            && (end.q.batches == [] ==> Concat(end.sent) == r.pushed)
  {
    var stopped := Do(r, batchSize, Stop);
    DoConserves(r, batchSize, Stop);
    LoopSendsAllIff(stopped, batchSize);
    RestOnEmptyQueue(stopped, batchSize);
    RestKeepsRequest(stopped, batchSize);
    LoopRests(stopped, batchSize);
  }

  /** No step of the loop makes or drops a stop request; the loop ends, once started, exactly if there is one. */
  lemma {:induction false} RestKeepsRequest<E>(r: Run<E>, batchSize: SizeT)
    requires Drainable(r)
    ensures AtRest(r, batchSize).q.sender.Terminated? <==> r.q.needStop
    decreases |r.q.batches|, Rank(r.q)
  {
    AtRestStep(r, batchSize);
    FirstLoopStep(r, batchSize);
    var steps := LoopSteps(r.q, batchSize);
    if steps != [] {
      DoKeepsDrainable(r, batchSize, steps[0]);
      RestKeepsRequest(Do(r, batchSize, steps[0]), batchSize);
    }
  }

  /** From an accepted request on, the loop ends within one step per queued batch and one more. */
  lemma StopDrains<E>(r: Run<E>, batchSize: SizeT)
    requires Conserves(r) && Drainable(r) && r.q.needStop && (r.q.sender.Terminated? ==> r.q.batches == [])
    ensures |LoopSteps(r.q, batchSize)| <= |r.q.batches| + 1
    ensures var end := AtRest(r, batchSize);
            end.q.sender.Terminated? && Concat(end.sent) == end.pushed == r.pushed
  {
    LoopRests(r, batchSize);
    RestKeepsRequest(r, batchSize);
    LoopSendsAllIff(r, batchSize);
    RestOnEmptyQueue(r, batchSize);
  }

  /** A stop() call between a push and the first step of the loop is lost: with room in the batch, so is the event. */
  lemma StopBeforeStartIsLost<E>(e: E)
    ensures var r := Do(Do(Initial(), 2, Push(e)), 2, Stop);
            !r.q.needStop && AtRest(r, 2).q.sender.Asleep? && AtRest(r, 2).q.batches == [[e]] && AtRest(r, 2).sent == []
  {
    var pushed := Do(Initial<E>(), 2, Push(e));
    assert pushed.q.batches == [[e]] by { EnqueuedFirst(2, e); }
    var r := Do(pushed, 2, Stop);
    AtRestStep(r, 2);
    AtRestStep(Do(r, 2, Start), 2);
  }

  lemma EnqueuedFirst<E>(batchSize: SizeT, e: E)
    requires batchSize >= 1
    ensures Enqueued([], batchSize, e) == [[e]]
  {
    assert Opened<E>([], batchSize) == [[]];
    assert [] + [e] == [e];
  }

  // ----- Pushing to a sleeping loop -----

  /** The number of events in the batch that push() adds to. */
  function Filled<E>(batches: seq<seq<E>>): nat {
    if batches == [] then 0 else |Last(batches)|
  }

  lemma EnqueuedToOne<E>(batches: seq<seq<E>>, batchSize: SizeT, e: E)
    requires |batches| <= 1 && batchSize >= 1
    ensures Enqueued(batches, batchSize, e)
         == if batches == [] then [[e]]
            else if batchSize != ADAPTIVE && |batches[0]| == batchSize then [batches[0], [e]] else [batches[0] + [e]]
  {
    if batches == [] {
      EnqueuedFirst(batchSize, e);
    } else {
      assert batches == [batches[0]];
      assert [] + [e] == [e];
    }
  }

  /**
   * The push that fills the front batch notifies nobody. Of a push to a sleeping loop: it leaves the loop asleep on
   * a batch that it should send if and only if it fills that batch, and, with no further call, what is queued is
   * sent if and only if batches are adaptive, or hold one event and one was left like that before.
   */
  lemma PushToSleepingIff<E>(r: Run<E>, batchSize: SizeT, e: E)
    requires batchSize >= 1 && r.q.sender.Asleep?
    requires Drainable(r) && SizesOk(r, batchSize) && SleepsOnOne(r, batchSize)
    ensures var r' := Do(r, batchSize, Push(e));
            && (r'.q.sender.Asleep? && Wakes(r'.q, batchSize)
                <==> batchSize != ADAPTIVE && Filled(r.q.batches) + 1 == batchSize)
            && (AtRest(r', batchSize).q.batches == []
                <==> batchSize == ADAPTIVE || (batchSize == 1 && r.q.batches != []))
  {
    EnqueuedToOne(r.q.batches, batchSize, e);
    DoKeepsDrainable(r, batchSize, Push(e));
    LoopSendsAllIff(Do(r, batchSize, Push(e)), batchSize);
  }

  /** A batch size of 1, a loop that waits on an empty queue, and one push: the full batch stays. */
  lemma FullBatchIsSleptOn<E>(e: E)
    ensures var steps := [Start] + ([LoopPass] + [Push(e)]);
            && Allowed(Initial(), 1, steps)
            && var r := DoAll(Initial(), 1, steps);
               r.q == Queue([[e]], Asleep, true, false, false) && Wakes(r.q, 1) && AtRest(r, 1) == r
  {
    var atTop: Run<E> := Run(Queue([], AtTop, true, false, false), [], [], 0, false);
    var asleep: Run<E> := Run(Queue([], Asleep, true, false, false), [], [], 0, false);
    EnqueuedFirst(1, e);
    assert [Push(e)][1..] == [];
    OneStepFirst(atTop, 1, LoopPass, [Push(e)]);
    OneStepFirst(Initial(), 1, Start, [LoopPass] + [Push(e)]);
    AtRestStep(Do(asleep, 1, Push(e)), 1);
  }

  // ----- Flushing -----

  predicate Waits<E>(q: Queue<E>) {
    q.sender.AtTop? || q.sender.Asleep?
  }

  /**
   * A flush() call, followed by no other, leaves nothing queued if and only if nothing was, or a loop that has not
   * ended is being stopped, takes batches of any size, or finds every batch full that it does not take because of
   * this call. It takes one because of this call only if it was waiting: a loop that sends a batch clears the request
   * when it is back, and one that has not started does not get it.
   */
  lemma FlushDrainsIff<E>(r: Run<E>, batchSize: SizeT)
    requires Conserves(r) && Drainable(r)
    ensures var end := AtRest(Do(r, batchSize, Flush), batchSize);
            && (end.q.batches == []
                <==> || r.q.batches == []
                     || (&& !r.q.sender.Terminated?
                         && (|| r.q.needStop || batchSize == ADAPTIVE
                             || AllFull(if Waits(r.q) then Behind(r.q.batches) else r.q.batches, batchSize))))
            && (end.q.batches == [] ==> Concat(end.sent) == r.pushed)
  {
    var flushed := Do(r, batchSize, Flush);
    DoConserves(r, batchSize, Flush);
    LoopSendsAllIff(flushed, batchSize);
    RestOnEmptyQueue(flushed, batchSize);
  }

  lemma ShapedAllFull<E>(batches: seq<seq<E>>, batchSize: SizeT)
    requires Shaped(batches, batchSize) && batches != []
    ensures AllFull(batches, batchSize) <==> |Last(batches)| == batchSize
    ensures AllFull(Behind(batches), batchSize) <==> |batches| == 1 || |Last(batches)| == batchSize
  {
    if |batches| > 1 {
      assert Last(Behind(batches)) == Last(batches);
    }
  }

  /** For B >= 1 all batches but the last are full, so that only the last one matters. */
  lemma FlushDrainsShapedIff<E>(r: Run<E>, batchSize: SizeT)
    requires Conserves(r) && Drainable(r) && batchSize >= 1 && SizesOk(r, batchSize)
    requires !r.q.sender.Terminated? && !r.q.needStop
    ensures AtRest(Do(r, batchSize, Flush), batchSize).q.batches == []
       <==> || r.q.batches == [] || batchSize == ADAPTIVE || |Last(r.q.batches)| == batchSize
            || (Waits(r.q) && |r.q.batches| <= 1)
  {
    FlushDrainsIff(r, batchSize);
    if r.q.batches != [] {
      ShapedAllFull(r.q.batches, batchSize);
    }
  }

  /** The state after two pushes that fill a batch, its departure, and one more push. */
  function OneInFlight<E>(d: E, e: E, f: E): Run<E> {
    Run(Queue([[f]], Sending([d, e]), true, false, false), [d, e, f], [], 0, false)
  }

  lemma OneInFlightIsReached<E>(d: E, e: E, f: E)
    ensures var steps := [Start] + ([Push(d)] + ([Push(e)] + ([LoopPass] + [Push(f)])));
            Allowed(Initial(), 2, steps) && DoAll(Initial(), 2, steps) == OneInFlight(d, e, f)
  {
    var r0: Run<E> := Run(Queue([], AtTop, true, false, false), [], [], 0, false);
    var r1 := Run(Queue([[d]], AtTop, true, false, false), [d], [], 0, false);
    var r2 := Run(Queue([[d, e]], AtTop, true, false, false), [d, e], [], 0, false);
    var r3 := Run(Queue([], Sending([d, e]), true, false, false), [d, e], [], 0, false);
    EnqueuedFirst(2, d);
    SecondInBatch(d, e);
    EnqueuedFirst(2, f);
    assert Do(r0, 2, Push(d)) == r1 by { assert [] + [d] == [d]; }
    assert Do(r1, 2, Push(e)) == r2 by { assert [d] + [e] == [d, e]; }
    assert Do(r3, 2, Push(f)) == OneInFlight(d, e, f) by { assert [d, e] + [f] == [d, e, f]; }
    assert [Push(f)][1..] == [];
    OneStepFirst(r2, 2, LoopPass, [Push(f)]);
    OneStepFirst(r1, 2, Push(e), [LoopPass] + [Push(f)]);
    OneStepFirst(r0, 2, Push(d), [Push(e)] + ([LoopPass] + [Push(f)]));
    OneStepFirst(Initial(), 2, Start, [Push(d)] + ([Push(e)] + ([LoopPass] + [Push(f)])));
  }

  lemma SecondInBatch<E>(d: E, e: E)
    ensures Enqueued([[d]], 2, e) == [[d, e]]
  {
    assert Opened([[d]], 2) == [[d]];
    assert [d] + [e] == [d, e];
    assert [[d]][..0] + [[d, e]] == [[d, e]];
  }

  /** A flush() call during a delivery is lost: the one queued event stays. */
  lemma FlushInFlightIsLost<E>(d: E, e: E, f: E)
    ensures var r := Do(OneInFlight(d, e, f), 2, Flush);
            r.q.requestFlush && AtRest(r, 2).q.sender.Asleep? && AtRest(r, 2).q.batches == [[f]]
  {
    var r := Do(OneInFlight(d, e, f), 2, Flush);
    var sent := Do(r, 2, Sent);
    AtRestStep(r, 2);
    AtRestStep(sent, 2);
    assert sent.q == Queue([[f]], Asleep, true, false, false);
  }
}
