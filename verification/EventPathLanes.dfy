/**
 * Each lane of the event path, one producer's queue for one target, is a batch queue: what holds over all runs of
 * module BatchQueues holds there in every reachable state.
 */
module EventPathLanes {
  import opened Bytes
  import opened Wrappers
  import BatchQueueLoops
  import BatchQueues
  import opened EventPath
  import opened EventPathSafety
  import opened EventPathResults

  /** The step of module BatchQueues that an action makes on the queue of its target. */
  function QueueStep<V>(prod: Producer<V>, p: nat, a: Action<V>): Option<BatchQueues.Step<Entry<V>>>
    requires Enabled(prod, a)
  {
    match a
    case EnqueueNext(l) => Some(BatchQueues.Push(Entry(Id(p, l), prod.events[l])))
    case StartLoop(_) => Some(BatchQueues.Start)
    case FlushQueue(_) => Some(BatchQueues.Flush)
    case StopQueue(_) => Some(BatchQueues.Stop)
    case WakeLoop(_) => Some(BatchQueues.Wake)
    case PassLoop(_) => Some(BatchQueues.LoopPass)
    case Settle(_) => Some(BatchQueues.Sent)
    case _ => None
  }

  /** An action leaves the queue of a target alone, or makes one enabled step of it. */
  lemma ActionIsQueueStep<V>(prod: Producer<V>, p: nat, a: Action<V>, n: nat, t: Target, run: BatchQueues.Run<Entry<V>>)
    requires Enabled(prod, a) && run.q == LaneOf(prod, t).q
    ensures var q', step := LaneOf(Act(prod, p, a, n), t).q, QueueStep(prod, p, a);
            if step.Some? && !IsUltAction(a) && t == LaneTarget(prod, a) then
              BatchQueues.Enabled(run, prod.batchSize, step.value)
              && BatchQueues.Do(run, prod.batchSize, step.value).q == q'
            else q' == run.q
  {
    match a
    case EnqueueNext(l) =>
    case _ =>
  }

  /** The queue is where some steps take a new one. */
  ghost predicate IsQueueRun<V(!new)>(q: BatchQueues.Queue<Entry<V>>, batchSize: SizeT) {
    exists qs :: IsRunTo(q, batchSize, qs)
  }

  ghost predicate IsRunTo<V>(q: BatchQueues.Queue<Entry<V>>, batchSize: SizeT, qs: seq<BatchQueues.Step<Entry<V>>>) {
    && BatchQueues.Allowed(BatchQueues.Initial(), batchSize, qs)
    && BatchQueues.DoAll(BatchQueues.Initial(), batchSize, qs).q == q
  }

  ghost predicate LanesRun<V(!new)>(s: System<V>) {
    forall p: nat, t: Target :: p in s.producers ==> IsQueueRun(LaneOf(s.producers[p], t).q, s.producers[p].batchSize)
  }

  lemma ActKeepsLaneRun<V(!new)>(prod: Producer<V>, p: nat, a: Action<V>, n: nat, t: Target)
    requires Enabled(prod, a) && IsQueueRun(LaneOf(prod, t).q, prod.batchSize)
    ensures IsQueueRun(LaneOf(Act(prod, p, a, n), t).q, prod.batchSize)
  {
    var qs :| IsRunTo(LaneOf(prod, t).q, prod.batchSize, qs);
    var run := BatchQueues.DoAll(BatchQueues.Initial(), prod.batchSize, qs);
    ActionIsQueueStep(prod, p, a, n, t, run);
    var step := QueueStep(prod, p, a);
    if step.Some? && !IsUltAction(a) && t == LaneTarget(prod, a) {
      BatchQueues.OneStepMore(BatchQueues.Initial(), prod.batchSize, qs, step.value);
      assert IsRunTo(LaneOf(Act(prod, p, a, n), t).q, prod.batchSize, qs + [step.value]);
    }
  }

  lemma ActKeepsBatchSize<V>(prod: Producer<V>, p: nat, a: Action<V>, n: nat)
    requires Enabled(prod, a)
    ensures Act(prod, p, a, n).batchSize == prod.batchSize
  {
  }

  lemma DoKeepsLaneRuns<V(!new)>(s: System<V>, step: Step<V>)
    requires LanesRun(s) && EnabledStep(s, step)
    ensures LanesRun(Do(s, step))
  {
    var prod, n := s.producers[step.producer], LogLength(s, step.action);
    ActKeepsBatchSize(prod, step.producer, step.action, n);
    forall t: Target ensures IsQueueRun(LaneOf(Act(prod, step.producer, step.action, n), t).q, prod.batchSize) {
      ActKeepsLaneRun(prod, step.producer, step.action, n, t);
    }
  }

  lemma {:induction false} AlwaysLaneRuns<V(!new)>(s: System<V>, steps: seq<Step<V>>)
    requires LanesRun(s) && Allowed(s, steps)
    ensures LanesRun(DoAll(s, steps))
    decreases |steps|
  {
    if steps != [] {
      DoKeepsLaneRuns(s, steps[0]);
      AlwaysLaneRuns(Do(s, steps[0]), steps[1..]);
    }
  }

  lemma InitialLaneRuns<V(!new)>(s: System<V>)
    requires IsInitial(s)
    ensures LanesRun(s)
  {
    forall p: nat, t: Target | p in s.producers
      ensures IsQueueRun(LaneOf(s.producers[p], t).q, s.producers[p].batchSize)
    {
      assert IsRunTo(LaneOf(s.producers[p], t).q, s.producers[p].batchSize, []);
    }
  }

  /**
   * Every run of the event path is, producer by producer and target by target, a run of a batch queue: in every
   * reachable state some enabled steps take a new queue of that batch size to the queue of the lane.
   */
  lemma LanesAreBatchQueues<V(!new)>(s: System<V>, p: nat, t: Target)
    requires Reachable(s) && p in s.producers
    ensures exists qs :: IsRunTo(LaneOf(s.producers[p], t).q, s.producers[p].batchSize, qs)
  {
    var initial, steps :| IsInitial(initial) && Allowed(initial, steps) && s == DoAll(initial, steps);
    InitialLaneRuns(initial);
    AlwaysLaneRuns(initial, steps);
    assert IsQueueRun(LaneOf(s.producers[p], t).q, s.producers[p].batchSize);
  }

  lemma LaneHistory<V(!new)>(s: System<V>, p: nat, t: Target) returns (run: BatchQueues.Run<Entry<V>>)
    requires Reachable(s) && p in s.producers
    ensures run.q == LaneOf(s.producers[p], t).q
    ensures BatchQueues.Conserves(run) && BatchQueues.Sound(run, s.producers[p].batchSize)
  {
    LanesAreBatchQueues(s, p, t);
    var batchSize := s.producers[p].batchSize;
    var qs :| IsRunTo(LaneOf(s.producers[p], t).q, batchSize, qs);
    BatchQueues.InitialRun<Entry<V>>(batchSize);
    BatchQueues.ReachedRun(BatchQueues.Initial(), batchSize, qs);
    run := BatchQueues.DoAll(BatchQueues.Initial(), batchSize, qs);
  }

  /**
   * In every reachable state, with a batch size B >= 1, every batch of every producer, queued or being sent, holds 1
   * to B events, all queued ones but the last are full, and a loop that sleeps leaves at most one queued.
   */
  lemma LaneBatchesAreSized<V(!new)>(s: System<V>, p: nat, t: Target)
    requires Reachable(s) && p in s.producers && s.producers[p].batchSize >= 1
    ensures var q, batchSize := LaneOf(s.producers[p], t).q, s.producers[p].batchSize;
            && BatchQueues.Shaped(q.batches, batchSize)
            && (q.sender.Sending? ==> BatchQueues.Sized(q.sender.batch, batchSize))
            && (q.sender.Asleep? ==> |q.batches| <= 1 && (batchSize == BatchQueues.ADAPTIVE ==> q.batches == []))
  {
    var run := LaneHistory(s, p, t);
  }

  /** The lane with the steps of its loop, from a stop or flush call on, and no other calls. */
  function LaneAtRest<V>(lane: Lane<V>, batchSize: SizeT, call: BatchQueues.Step<Entry<V>>): BatchQueues.Queue<Entry<V>>
    requires call.Stop? || call.Flush?
  {
    var run := BatchQueues.Run(lane.q, [], [], 0, false);
    BatchQueueLoops.AtRest(BatchQueues.Do(run, batchSize, call), batchSize).q
  }

  /** In every reachable state: a stop() call ends the loop of a lane on an empty queue iff the loop has started. */
  lemma LaneStopDrainsIff<V(!new)>(s: System<V>, p: nat, t: Target)
    requires Reachable(s) && p in s.producers
    ensures var lane := LaneOf(s.producers[p], t);
            var end := LaneAtRest(lane, s.producers[p].batchSize, BatchQueues.Stop);
            end.sender.Terminated? && end.batches == []
            <==> !lane.q.sender.NotStarted? && (lane.q.sender.Terminated? ==> lane.q.batches == [])
  {
    var run := LaneHistory(s, p, t);
    var batchSize := s.producers[p].batchSize;
    BatchQueueLoops.StopDrainsIff(run, batchSize);
    RestForgetsHistory(BatchQueues.Do(run, batchSize, BatchQueues.Stop),
                       BatchQueues.Do(BatchQueues.Run(run.q, [], [], 0, false), batchSize, BatchQueues.Stop), batchSize);
  }

  lemma SameQueueSameStep<E>(a: BatchQueues.Run<E>, b: BatchQueues.Run<E>, batchSize: SizeT, step: BatchQueues.Step<E>)
    requires a.q == b.q && BatchQueues.Enabled(a, batchSize, step)
    ensures BatchQueues.Enabled(b, batchSize, step)
    ensures BatchQueues.Do(a, batchSize, step).q == BatchQueues.Do(b, batchSize, step).q
  {
  }

  lemma SameAfterFirst<E>(a: BatchQueues.Run<E>, b: BatchQueues.Run<E>, batchSize: SizeT)
    requires a.q == b.q && BatchQueueLoops.LoopSteps(a.q, batchSize) != []
    ensures var step := BatchQueueLoops.LoopSteps(a.q, batchSize)[0];
            && BatchQueues.Enabled(a, batchSize, step) && BatchQueues.Enabled(b, batchSize, step)
            && var a', b' := BatchQueues.Do(a, batchSize, step), BatchQueues.Do(b, batchSize, step);
               && a'.q == b'.q
               && BatchQueueLoops.AtRest(a, batchSize) == BatchQueueLoops.AtRest(a', batchSize)
               && BatchQueueLoops.AtRest(b, batchSize) == BatchQueueLoops.AtRest(b', batchSize)
  {
    BatchQueueLoops.AtRestStep(a, batchSize);
    BatchQueueLoops.AtRestStep(b, batchSize);
    SameQueueSameStep(a, b, batchSize, BatchQueueLoops.LoopSteps(a.q, batchSize)[0]);
  }

  lemma StepDecreases<E>(a: BatchQueues.Run<E>, batchSize: SizeT)
    requires BatchQueueLoops.LoopSteps(a.q, batchSize) != []
    ensures var step := BatchQueueLoops.LoopSteps(a.q, batchSize)[0];
            && BatchQueues.Enabled(a, batchSize, step)
            && |BatchQueueLoops.LoopSteps(BatchQueues.Do(a, batchSize, step).q, batchSize)|
             < |BatchQueueLoops.LoopSteps(a.q, batchSize)|
  {
    BatchQueueLoops.FirstLoopStep(a, batchSize);
  }

  /** The loop does not look at what was pushed and sent. */
  lemma {:induction false} RestForgetsHistory<E>(a: BatchQueues.Run<E>, b: BatchQueues.Run<E>, batchSize: SizeT)
    requires a.q == b.q
    ensures BatchQueueLoops.AtRest(a, batchSize).q == BatchQueueLoops.AtRest(b, batchSize).q
    decreases |BatchQueueLoops.LoopSteps(a.q, batchSize)|
  {
    var steps := BatchQueueLoops.LoopSteps(a.q, batchSize);
    if steps == [] {
      BatchQueueLoops.AtRestStep(a, batchSize);
      BatchQueueLoops.AtRestStep(b, batchSize);
    } else {
      SameAfterFirst(a, b, batchSize);
      StepDecreases(a, batchSize);
      RestForgetsHistory(BatchQueues.Do(a, batchSize, steps[0]), BatchQueues.Do(b, batchSize, steps[0]), batchSize);
    }
  }
}
