/**
 * What the calls of a run put into the state: the pushed events, the selected targets, the failed pushes and the
 * counters of each producer, said of the steps alone.
 */
module EventPathCalls {
  import opened Bytes
  import BatchQueues
  import opened EventPath
  import opened EventPathSafety

  // ----- Events -----

  /** The arguments of the push() calls of producer p, in order: argument l is that of the call with local id l. */
  function Arguments<V>(steps: seq<Step<V>>, p: nat): seq<V> {
    if steps == [] then []
    else
      var step := steps[0];
      (if step.producer == p && step.action.PushCall? then [step.action.event] else []) + Arguments(steps[1..], p)
  }

  lemma ActKeepsEvents<V>(prod: Producer<V>, p: nat, a: Action<V>, n: nat)
    requires Enabled(prod, a)
    ensures Act(prod, p, a, n).events == prod.events + (if a.PushCall? then [a.event] else [])
  {
  }

  lemma {:induction false} EventsGrow<V>(s: System<V>, steps: seq<Step<V>>, p: nat)
    requires Allowed(s, steps) && p in s.producers
    ensures p in DoAll(s, steps).producers
    ensures DoAll(s, steps).producers[p].events == s.producers[p].events + Arguments(steps, p)
    decreases |steps|
  {
    if steps != [] {
      var step, prod := steps[0], s.producers[p];
      ActKeepsEvents(s.producers[step.producer], step.producer, step.action, LogLength(s, step.action));
      EventsGrow(Do(s, step), steps[1..], p);
      var more := if step.producer == p && step.action.PushCall? then [step.action.event] else [];
      assert Do(s, step).producers[p].events == prod.events + more;
      Assoc(prod.events, more, Arguments(steps[1..], p));
    }
  }

  /** In every run, push l of a producer carries the argument of its push() call number l. */
  lemma EventsAreArguments<V(!new)>(initial: System<V>, steps: seq<Step<V>>, p: nat)
    requires IsInitial(initial) && Allowed(initial, steps) && p in initial.producers
    ensures p in DoAll(initial, steps).producers
    ensures DoAll(initial, steps).producers[p].events == Arguments(steps, p)
  {
    EventsGrow(initial, steps, p);
    assert [] + Arguments(steps, p) == Arguments(steps, p);
  }

  lemma {:induction false} SameProducers<V>(s: System<V>, steps: seq<Step<V>>, p: nat)
    requires Allowed(s, steps)
    ensures p in DoAll(s, steps).producers <==> p in s.producers
    decreases |steps|
  {
    if steps != [] {
      SameProducers(Do(s, steps[0]), steps[1..], p);
    }
  }

  // ----- Targets -----

  /** The target selector answered t for push l of producer p. */
  predicate Selected<V>(steps: seq<Step<V>>, p: nat, l: nat, t: Target) {
    steps != []
    && ((steps[0].producer == p && steps[0].action.Select? && steps[0].action.local == l && steps[0].action.target == t)
        || Selected(steps[1..], p, l, t))
  }

  /** Push l waits to be enqueued for t, or has been. */
  predicate Heads<V>(prod: Producer<V>, l: nat, t: Target) {
    && l < |prod.ults|
    && (prod.ults[l].Waiting? || prod.ults[l].Enqueued?) && prod.ults[l].target == t
  }

  lemma ActKeepsHeads<V>(prod: Producer<V>, p: nat, a: Action<V>, n: nat, l: nat, t: Target)
    requires Enabled(prod, a)
    ensures Heads(Act(prod, p, a, n), l, t) <==> Heads(prod, l, t) || (a.Select? && a.local == l && a.target == t)
  {
  }

  lemma {:induction false} HeadsIff<V>(s: System<V>, steps: seq<Step<V>>, p: nat, l: nat, t: Target)
    requires Allowed(s, steps) && p in s.producers
    ensures p in DoAll(s, steps).producers
    ensures Heads(DoAll(s, steps).producers[p], l, t) <==> Heads(s.producers[p], l, t) || Selected(steps, p, l, t)
    decreases |steps|
  {
    if steps != [] {
      var step := steps[0];
      ActKeepsHeads(s.producers[step.producer], step.producer, step.action, LogLength(s, step.action), l, t);
      HeadsIff(Do(s, step), steps[1..], p, l, t);
    }
  }

  /** In every run, a push waits for a target, or is enqueued for it, if and only if the selector answered it. */
  lemma TargetIsSelected<V(!new)>(initial: System<V>, steps: seq<Step<V>>, p: nat, l: nat, t: Target)
    requires IsInitial(initial) && Allowed(initial, steps) && p in initial.producers
    ensures p in DoAll(initial, steps).producers
    ensures Heads(DoAll(initial, steps).producers[p], l, t) <==> Selected(steps, p, l, t)
  {
    HeadsIff(initial, steps, p, l, t);
  }

  // ----- Failures -----

  /** validate() or the selector threw for push l of producer p. */
  predicate Threw<V>(steps: seq<Step<V>>, p: nat, l: nat) {
    steps != []
    && ((steps[0].producer == p && steps[0].action.Reject? && steps[0].action.local == l) || Threw(steps[1..], p, l))
  }

  predicate IsRejected<V>(prod: Producer<V>, l: nat) {
    l < |prod.ults| && prod.ults[l].Rejected?
  }

  lemma ActKeepsRejected<V>(prod: Producer<V>, p: nat, a: Action<V>, n: nat, l: nat)
    requires Enabled(prod, a)
    ensures IsRejected(Act(prod, p, a, n), l) <==> IsRejected(prod, l) || (a.Reject? && a.local == l)
  {
  }

  lemma {:induction false} RejectedIff<V>(s: System<V>, steps: seq<Step<V>>, p: nat, l: nat)
    requires Allowed(s, steps) && p in s.producers
    ensures p in DoAll(s, steps).producers
    ensures IsRejected(DoAll(s, steps).producers[p], l) <==> IsRejected(s.producers[p], l) || Threw(steps, p, l)
    decreases |steps|
  {
    if steps != [] {
      var step := steps[0];
      ActKeepsRejected(s.producers[step.producer], step.producer, step.action, LogLength(s, step.action), l);
      RejectedIff(Do(s, step), steps[1..], p, l);
    }
  }

  /** The promise of a failed push holds the exception. */
  ghost predicate RejectedErr<V>(s: System<V>, p: nat) {
    p in s.producers
    && forall l: nat :: IsRejected(s.producers[p], l) ==>
         l in s.producers[p].outcomes && s.producers[p].outcomes[l] == Errored
  }

  lemma DoKeepsRejectedErr<V>(s: System<V>, step: Step<V>, p: nat)
    requires Inv(s) && EnabledStep(s, step) && RejectedErr(s, p)
    ensures RejectedErr(Do(s, step), p)
  {
    var prod, prod' := s.producers[p], Do(s, step).producers[p];
    if step.producer == p {
      forall l: nat | IsRejected(prod', l) ensures l in prod'.outcomes && prod'.outcomes[l] == Errored {
        ActKeepsRejected(prod, p, step.action, LogLength(s, step.action), l);
        assert ProducerInv(prod, p, s);
        if step.action.Settle? {
          SettleSkipsRejected(prod, p, step.action.target, l, LogOf(s, step.action.target));
        }
      }
    }
  }

  lemma SettleSkipsRejected<V>(prod: Producer<V>, p: nat, t: Target, l: nat, log: seq<Entry<V>>)
    requires Enabled(prod, Action<V>.Settle(t)) && LaneInv(prod, p, t, log) && IsRejected(prod, l) && l in prod.outcomes
    ensures l in Act(prod, p, Settle(t), 0).outcomes && Act(prod, p, Settle(t), 0).outcomes[l] == prod.outcomes[l]
  {
    var batch := prod.lanes[t].q.sender.batch;
    BatchIsOwn(prod, p, t);
    assert InFlight(LaneOf(prod, t)) == batch && batch[..|batch|] == batch;
    FulfilledKeys(prod.outcomes, batch, t, prod.lanes[t].reply, |batch|, l);
  }

  lemma {:induction false} AlwaysRejectedErr<V>(s: System<V>, steps: seq<Step<V>>, p: nat)
    requires Inv(s) && Allowed(s, steps) && RejectedErr(s, p)
    ensures RejectedErr(DoAll(s, steps), p)
    decreases |steps|
  {
    if steps != [] {
      DoKeepsInv(s, steps[0]);
      DoKeepsRejectedErr(s, steps[0], p);
      AlwaysRejectedErr(Do(s, steps[0]), steps[1..], p);
    }
  }

  /** In every run, a push whose validation or selection threw has its future resolved to the exception. */
  lemma FailedPushErrs<V(!new)>(initial: System<V>, steps: seq<Step<V>>, p: nat, l: nat)
    requires IsInitial(initial) && Allowed(initial, steps) && p in initial.producers
    requires Threw(steps, p, l)
    ensures p in DoAll(initial, steps).producers
    ensures var outcomes := DoAll(initial, steps).producers[p].outcomes;
            l in outcomes && outcomes[l] == Errored
  {
    RejectedIff(initial, steps, p, l);
    InitialInv(initial);
    AlwaysRejectedErr(initial, steps, p);
  }

  // ----- Counters -----

  /** The ticket being served: one for every push that was enqueued and for every one that failed. */
  function Served<V>(steps: seq<Step<V>>, p: nat): nat {
    if steps == [] then 0
    else
      var step := steps[0];
      (if step.producer == p && (step.action.EnqueueNext? || step.action.Reject?) then 1 else 0) + Served(steps[1..], p)
  }

  function Posts<V>(steps: seq<Step<V>>, p: nat): nat {
    if steps == [] then 0
    else (if steps[0].producer == p && steps[0].action.Post? then 1 else 0) + Posts(steps[1..], p)
  }

  function Leaves<V>(steps: seq<Step<V>>, p: nat): nat {
    if steps == [] then 0
    else (if steps[0].producer == p && steps[0].action.Leave? then 1 else 0) + Leaves(steps[1..], p)
  }

  lemma ActCounts<V>(prod: Producer<V>, p: nat, a: Action<V>, n: nat)
    requires Enabled(prod, a)
    ensures Act(prod, p, a, n).ready == prod.ready + (if a.EnqueueNext? || a.Reject? then 1 else 0)
    ensures Act(prod, p, a, n).posted == prod.posted + (if a.Post? then 1 else 0) - (if a.Leave? then 1 else 0)
  {
  }

  lemma {:induction false} CountersGrow<V>(s: System<V>, steps: seq<Step<V>>, p: nat)
    requires Allowed(s, steps) && p in s.producers
    ensures p in DoAll(s, steps).producers
    ensures DoAll(s, steps).producers[p].ready == s.producers[p].ready + Served(steps, p)
    ensures DoAll(s, steps).producers[p].posted == s.producers[p].posted + Posts(steps, p) - Leaves(steps, p)
    decreases |steps|
  {
    if steps != [] {
      var step := steps[0];
      ActCounts(s.producers[step.producer], step.producer, step.action, LogLength(s, step.action));
      CountersGrow(Do(s, step), steps[1..], p);
    }
  }

  /** In every run, the ready counter counts enqueued and failed pushes, and the posted counter those in the pool. */
  lemma CountersCount<V(!new)>(initial: System<V>, steps: seq<Step<V>>, p: nat)
    requires IsInitial(initial) && Allowed(initial, steps) && p in initial.producers
    ensures p in DoAll(initial, steps).producers
    ensures DoAll(initial, steps).producers[p].ready == Served(steps, p)
    ensures DoAll(initial, steps).producers[p].posted == Posts(steps, p) - Leaves(steps, p)
  {
    CountersGrow(initial, steps, p);
  }

  // ----- What a batch gets -----

  /**
   * The append puts the batch at the end of the log and tells the sender the length of the log before; a lost one
   * leaves the log as it is, and a lost reply does not. In both cases the sender learns of a failure.
   */
  lemma AppendAddsBatch<V>(s: System<V>, p: nat, a: Action<V>)
    requires EnabledStep(s, Step(p, a)) && (a.Append? || a.Lose?)
    ensures var s', t := Do(s, Step(p, a)), a.target;
            var batch := s.producers[p].lanes[t].q.sender.batch;
            && s'.producers[p].lanes[t] == s.producers[p].lanes[t].(
                 reply := if a.Append? then Accepted(|LogOf(s, t)|) else Failed)
            && LogOf(s', t) == LogOf(s, t) + (if a.Append? || a.appended then batch else [])
            && forall u: Target :: u != t ==> LogOf(s', u) == LogOf(s, u)
  {
    UltLogs(s, Step(p, a));
    assert LogOf(s, a.target) + [] == LogOf(s, a.target);
  }

  /** Settling a batch resolves its pushes to consecutive ids if the reply came, and to the exception if it did not. */
  lemma SettleFulfils<V>(s: System<V>, p: nat, t: Target, i: nat)
    requires Inv(s) && EnabledStep(s, Step(p, Settle(t))) && i < |s.producers[p].lanes[t].q.sender.batch|
    ensures var lane, outcomes := s.producers[p].lanes[t], Do(s, Step(p, Settle(t))).producers[p].outcomes;
            var l := lane.q.sender.batch[i].id.local;
            && l in outcomes
            && (lane.reply.Accepted? ==> outcomes[l] == Resolved(t, lane.reply.firstId + i))
            && (lane.reply.Failed? ==> outcomes[l] == Errored)
  {
    var prod := s.producers[p];
    var batch := prod.lanes[t].q.sender.batch;
    assert ProducerInv(prod, p, s);
    assert LaneInv(prod, p, t, LogOf(s, t));
    FirstPart(prod, p, t, batch, Concat(prod.lanes[t].q.batches));
    FulfilledValue(prod.outcomes, batch, t, prod.lanes[t].reply, |batch|, i);
  }

  /** No promise holds an exception, and none is about to. */
  predicate Unfailing<V>(prod: Producer<V>) {
    && (forall l :: l in prod.outcomes ==> prod.outcomes[l].Resolved?)
    && (forall t :: t in prod.lanes ==> !prod.lanes[t].reply.Failed?)
  }

  lemma {:induction false} FulfilledResolved<V>(outcomes: map<nat, Outcome>, batch: seq<Entry<V>>, t: Target, reply: Reply, n: nat)
    requires n <= |batch| && reply.Accepted? && forall l :: l in outcomes ==> outcomes[l].Resolved?
    ensures forall l :: l in Fulfilled(outcomes, batch, t, reply, n) ==> Fulfilled(outcomes, batch, t, reply, n)[l].Resolved?
  {
    if n > 0 {
      FulfilledResolved(outcomes, batch, t, reply, n - 1);
    }
  }

  lemma ActKeepsUnfailing<V>(prod: Producer<V>, p: nat, a: Action<V>, n: nat)
    requires Enabled(prod, a) && Unfailing(prod) && !a.Reject? && !a.Lose?
    ensures Unfailing(Act(prod, p, a, n))
  {
    if a.Settle? {
      var lane := prod.lanes[a.target];
      FulfilledResolved(prod.outcomes, lane.q.sender.batch, a.target, lane.reply, |lane.q.sender.batch|);
    }
  }

  predicate NoFailure<V>(steps: seq<Step<V>>, p: nat) {
    forall k :: 0 <= k < |steps| && steps[k].producer == p ==> !steps[k].action.Reject? && !steps[k].action.Lose?
  }

  lemma {:induction false} AlwaysUnfailing<V>(s: System<V>, steps: seq<Step<V>>, p: nat)
    requires Allowed(s, steps) && p in s.producers && Unfailing(s.producers[p]) && NoFailure(steps, p)
    ensures p in DoAll(s, steps).producers && Unfailing(DoAll(s, steps).producers[p])
    decreases |steps|
  {
    if steps != [] {
      var step := steps[0];
      if step.producer == p {
        ActKeepsUnfailing(s.producers[p], p, step.action, LogLength(s, step.action));
      }
      AlwaysUnfailing(Do(s, step), steps[1..], p);
    }
  }

  /** In every run in which no push of a producer throws and no batch is lost, none of its futures gets an exception. */
  lemma NoFailureNoException<V(!new)>(initial: System<V>, steps: seq<Step<V>>, p: nat, l: nat)
    requires IsInitial(initial) && Allowed(initial, steps) && p in initial.producers && NoFailure(steps, p)
    ensures p in DoAll(initial, steps).producers
    ensures var outcomes := DoAll(initial, steps).producers[p].outcomes; l in outcomes ==> outcomes[l].Resolved?
  {
    AlwaysUnfailing(initial, steps, p);
  }

  // ----- Turns -----

  /** What may happen to a push next: any target may be selected, or it may fail, and it leaves once it is through. */
  lemma PushMayIff<V>(prod: Producer<V>, l: nat, t: Target)
    requires l < |prod.ults|
    ensures Enabled(prod, Action<V>.Post(l)) <==> prod.ults[l] == Created
    ensures Enabled(prod, Action<V>.Select(l, t)) <==> prod.ults[l] == Posted
    ensures Enabled(prod, Action<V>.Reject(l)) <==> prod.ults[l] == Posted
    ensures Enabled(prod, Action<V>.Leave(l)) <==> prod.ults[l] == Rejected(false) || exists u :: prod.ults[l] == Enqueued(u, false)
  {
    if prod.ults[l].Enqueued? {
      assert prod.ults[l] == Enqueued(prod.ults[l].target, prod.ults[l].left);
    }
  }

  /**
   * What may happen to the queue of a target next: calls come at any time, and a batch that is sent may be appended, or
   * be lost before or after it is appended, and its promises are fulfilled once the sender knows.
   */
  lemma LaneMayIff<V>(prod: Producer<V>, t: Target, appended: bool)
    requires t in prod.lanes
    ensures var lane := prod.lanes[t];
            && Enabled(prod, Action<V>.FlushQueue(t)) && Enabled(prod, Action<V>.StopQueue(t))
            && (Enabled(prod, Action<V>.StartLoop(t)) <==> lane.q.sender == BatchQueues.NotStarted)
            && (Enabled(prod, Action<V>.WakeLoop(t)) <==> lane.q.sender == BatchQueues.Asleep)
            && (Enabled(prod, Action<V>.PassLoop(t)) <==> lane.q.sender == BatchQueues.AtTop)
            && (Enabled(prod, Action<V>.Append(t)) <==> lane.q.sender.Sending? && lane.reply == NoReply)
            && (Enabled(prod, Action<V>.Lose(t, appended)) <==> lane.q.sender.Sending? && lane.reply == NoReply)
            && (Enabled(prod, Action<V>.Settle(t)) <==> lane.q.sender.Sending? && lane.reply != NoReply)
  {
  }

  /** A loose producer never waits for its turn; a strict one waits until all tickets before were served. */
  lemma EnqueueEnabledIff<V>(prod: Producer<V>, l: nat)
    requires |prod.events| == |prod.ults| && l < |prod.ults| && prod.ults[l].Waiting?
    ensures !prod.strict ==> Enabled(prod, EnqueueNext(l))
    ensures prod.strict ==> (Enabled(prod, Action<V>.EnqueueNext(l)) <==> l == prod.ready)
  {
  }
}
