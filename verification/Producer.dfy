/**
 * The producer's counters and queue map, and the stretches of Producer::push that change them. Each method is one
 * atomic stretch, and does to the producer what its step of module EventPath does.
 */
module Producers {
  import opened Bytes
  import opened Wrappers
  import BatchQueues
  import opened EventPath
  import Tickets

  class ProducerImpl<V> {
    /** The number of this producer in the system. */
    const name: nat
    const strict: bool
    const batchSize: SizeT
    var numPushedEvents: nat
    var numReadyEvents: nat
    var numPostedUlts: int
    var batchQueues: map<Target, Lane<V>>

    /** What the ULTs and promises hold: the pushed events, where each ULT is, and the fulfilled promises. */
    ghost var events: seq<V>
    ghost var ults: seq<Ult>
    ghost var outcomes: map<nat, Outcome>

    ghost function View(): Producer<V>
      reads this
    {
      Producer(strict, batchSize, events, ults, numReadyEvents, numPostedUlts, batchQueues, outcomes)
    }

    ghost predicate Valid()
      reads this
    {
      numPushedEvents == |events| == |ults|
    }

    constructor (name: nat, strict: bool, batchSize: SizeT)
      ensures Valid() && View() == NewProducer(strict, batchSize) && this.name == name
    {
      this.name, this.strict, this.batchSize := name, strict, batchSize;
      numPushedEvents, numReadyEvents, numPostedUlts := 0, 0, 0;
      batchQueues, events, ults, outcomes := map[], [], [], map[];
    }

    /** The caller's part of push(): a ticket, then the ULT goes to the pool. */
    method Push(event: V) returns (localEventId: nat)
      requires Valid()
      modifies this
      ensures Valid() && localEventId == |old(events)|
      ensures var called := Act(old(View()), name, PushCall(event), 0);
              View() == Act(called, name, Post(localEventId), 0)
      ensures events == old(events) + [event] && ults == old(ults) + [Posted]
      ensures numReadyEvents == old(numReadyEvents) && numPostedUlts == old(numPostedUlts) + 1
    {
      localEventId := numPushedEvents;
      numPushedEvents := numPushedEvents + 1;
      events, ults := events + [event], ults + [Created];
      numPostedUlts := numPostedUlts + 1;
      ults := ults[localEventId := Posted];
    }

    /** The test under the mutex of the queue map: may the ULT leave its wait? */
    method IsMyTurn(localEventId: nat) returns (b: bool)
      requires Valid() && localEventId < |ults| && ults[localEventId].Waiting?
      ensures b <==> Enabled(View(), EnqueueNext(localEventId))
      ensures b <==> (strict ==> localEventId == numReadyEvents)
    {
      b := !strict || localEventId == numReadyEvents;
    }

    /** Finds or creates the queue of the target, adds the event to it, and serves the next ticket. */
    method Enqueue(localEventId: nat, target: Target, event: V)
      requires Valid() && Enabled(View(), EnqueueNext(localEventId))
      requires ults[localEventId] == Waiting(target) && events[localEventId] == event
      modifies this
      ensures Valid() && View() == Act(old(View()), name, EnqueueNext(localEventId), 0)
    {
      ghost var was := View();
      if target !in batchQueues {
        batchQueues := batchQueues[target := Lane(BatchQueues.Empty(), NoReply)];
      }
      var lane := batchQueues[target];
      var q := BatchQueues.Pushed(lane.q, batchSize, Entry(Id(name, localEventId), event));
      batchQueues := batchQueues[target := lane.(q := q)];
      numReadyEvents := numReadyEvents + 1;
      ults := ults[localEventId := Enqueued(target, false)];
      assert batchQueues == was.lanes[target := batchQueues[target]];
    }

    /** The catch block: serves the next ticket, whichever was served, and fulfils the promise with the exception. */
    method Fail(localEventId: nat)
      requires Valid() && Enabled(View(), Action<V>.Reject(localEventId))
      modifies this
      ensures Valid() && View() == Act(old(View()), name, Reject(localEventId), 0)
    {
      numReadyEvents := numReadyEvents + 1;
      outcomes := outcomes[localEventId := Errored];
      ults := ults[localEventId := Rejected(false)];
    }

    /** The end of the ULT: the last one to leave notifies those who flush. */
    method LeavePool(localEventId: nat) returns (notifyNoPostedUlts: bool)
      requires Valid() && Enabled(View(), Action<V>.Leave(localEventId))
      modifies this
      ensures Valid() && View() == Act(old(View()), name, Leave(localEventId), 0)
      ensures numPostedUlts == old(numPostedUlts) - 1 && (notifyNoPostedUlts <==> numPostedUlts == 0)
      ensures notifyNoPostedUlts <==> MayFlush()
    {
      numPostedUlts := numPostedUlts - 1;
      notifyNoPostedUlts := numPostedUlts == 0;
      ults := ults[localEventId := ults[localEventId].(left := true)];
    }

    /** What flush() waits for. */
    predicate MayFlush()
      reads this
    {
      numPostedUlts == 0
    }
  }

  /**
   * After any calls of a new producer, and any steps of its ULTs and loops: flush() may go on if and only if every push
   * is not posted yet, or has been enqueued or has failed and its ULT has left.
   */
  lemma MayFlushIff<V>(producer: ProducerImpl<V>, calls: seq<Tickets.Call<V>>)
    requires Tickets.Allowed(NewProducer(producer.strict, producer.batchSize), producer.name, calls)
    requires Tickets.ActAll(NewProducer(producer.strict, producer.batchSize), producer.name, calls) == producer.View()
    ensures producer.MayFlush() <==> forall l :: 0 <= l < |producer.ults| ==> Tickets.Outside(producer.ults[l])
  {
    Tickets.CountsAlways(NewProducer(producer.strict, producer.batchSize), producer.name, calls);
    Tickets.CountZeroIff(producer.ults);
  }
}
