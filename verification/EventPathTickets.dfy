/**
 * Each producer of the event path is a run of the ticket protocol: what holds over all runs of module Tickets holds
 * for every producer in every reachable state.
 */
module EventPathTickets {
  import opened Bytes
  import opened EventPath
  import opened EventPathSafety
  import opened EventPathResults
  import Tickets

  ghost predicate IsRunTo<V>(prod: Producer<V>, p: nat, calls: seq<Tickets.Call<V>>) {
    && Tickets.Allowed(NewProducer(prod.strict, prod.batchSize), p, calls)
    && Tickets.ActAll(NewProducer(prod.strict, prod.batchSize), p, calls) == prod
  }

  ghost predicate ProducersRun<V(!new)>(s: System<V>) {
    forall p: nat :: p in s.producers ==> exists calls :: IsRunTo(s.producers[p], p, calls)
  }

  lemma ActKeepsKind<V>(prod: Producer<V>, p: nat, a: Action<V>, n: nat)
    requires Enabled(prod, a)
    ensures Act(prod, p, a, n).strict == prod.strict && Act(prod, p, a, n).batchSize == prod.batchSize
  {
  }

  lemma ActIsOneCallMore<V>(prod: Producer<V>, p: nat, a: Action<V>, n: nat, calls: seq<Tickets.Call<V>>)
    requires Enabled(prod, a) && IsRunTo(prod, p, calls)
    ensures IsRunTo(Act(prod, p, a, n), p, calls + [Tickets.Call(a, n)])
  {
    ActKeepsKind(prod, p, a, n);
    Tickets.OneCallMore(NewProducer(prod.strict, prod.batchSize), p, calls, Tickets.Call(a, n));
  }

  lemma DoKeepsProducersRun<V(!new)>(s: System<V>, step: Step<V>)
    requires ProducersRun(s) && EnabledStep(s, step)
    ensures ProducersRun(Do(s, step))
  {
    var s' := Do(s, step);
    forall p: nat | p in s'.producers ensures exists calls :: IsRunTo(s'.producers[p], p, calls) {
      var calls :| IsRunTo(s.producers[p], p, calls);
      if p == step.producer {
        var n := LogLength(s, step.action);
        ActIsOneCallMore(s.producers[p], p, step.action, n, calls);
        assert IsRunTo(s'.producers[p], p, calls + [Tickets.Call(step.action, n)]);
      } else {
        assert IsRunTo(s'.producers[p], p, calls);
      }
    }
  }

  lemma {:induction false} AlwaysProducersRun<V(!new)>(s: System<V>, steps: seq<Step<V>>)
    requires ProducersRun(s) && Allowed(s, steps)
    ensures ProducersRun(DoAll(s, steps))
    decreases |steps|
  {
    if steps != [] {
      DoKeepsProducersRun(s, steps[0]);
      AlwaysProducersRun(Do(s, steps[0]), steps[1..]);
    }
  }

  /** Every producer of a reachable state is where some calls, and steps of its ULTs and loops, take a new one. */
  lemma ProducersAreTicketRuns<V(!new)>(s: System<V>, p: nat)
    requires Reachable(s) && p in s.producers
    ensures exists calls :: IsRunTo(s.producers[p], p, calls)
  {
    var initial, steps :| IsInitial(initial) && Allowed(initial, steps) && s == DoAll(initial, steps);
    forall q: nat | q in initial.producers ensures exists calls :: IsRunTo(initial.producers[q], q, calls) {
      assert IsRunTo(initial.producers[q], q, []);
    }
    AlwaysProducersRun(initial, steps);
  }

  /** In every reachable state the counter of posted ULTs is the number of ULTs posted and not yet gone. */
  lemma PostedIsCounted<V(!new)>(s: System<V>, p: nat)
    requires Reachable(s) && p in s.producers
    ensures s.producers[p].posted == Tickets.CountInPool(s.producers[p].ults)
  {
    ProducersAreTicketRuns(s, p);
    var prod := s.producers[p];
    var calls :| IsRunTo(prod, p, calls);
    Tickets.CountsAlways(NewProducer(prod.strict, prod.batchSize), p, calls);
  }

  /**
   * In every reachable state in which the first wait of flush() may end, every push that was posted has failed, or
   * is enqueued, and then its promise is fulfilled or its event waits in the queue or batch of its target.
   */
  lemma FlushBarrier<V(!new)>(s: System<V>, p: nat, l: nat)
    requires Reachable(s) && p in s.producers && s.producers[p].posted == 0
    requires l < |s.producers[p].ults| && !s.producers[p].ults[l].Created?
    ensures var prod := s.producers[p];
            || prod.ults[l].Rejected?
            || (&& prod.ults[l].Enqueued? && l < |prod.events|
                && (l in prod.outcomes
                    || Entry(Id(p, l), prod.events[l]) in Pending(LaneOf(prod, prod.ults[l].target))))
  {
    PostedIsCounted(s, p);
    Tickets.CountZero(s.producers[p].ults, l);
    if s.producers[p].ults[l].Enqueued? {
      EnqueuedIsAccountedFor(s, p, l);
    }
  }

  // ----- Turns -----

  predicate NoneRejected(ults: seq<Ult>) {
    forall l :: 0 <= l < |ults| ==> !ults[l].Rejected?
  }

  lemma RejectedStays<V>(prod: Producer<V>, p: nat, a: Action<V>, n: nat)
    requires Enabled(prod, a)
    ensures NoneRejected(Act(prod, p, a, n).ults) ==> NoneRejected(prod.ults) && !a.Reject?
  {
    var ults := Act(prod, p, a, n).ults;
    assert a.Reject? ==> ults[a.local].Rejected?;
    if NoneRejected(ults) {
      forall l | 0 <= l < |prod.ults| ensures !prod.ults[l].Rejected? {
        assert !ults[l].Rejected?;
      }
    }
  }

  /** A run that ends with no push rejected has rejected none. */
  lemma {:induction false} NoRejectBefore<V>(prod: Producer<V>, p: nat, calls: seq<Tickets.Call<V>>)
    requires Tickets.Allowed(prod, p, calls) && NoneRejected(Tickets.ActAll(prod, p, calls).ults)
    ensures Tickets.NoReject(calls) && NoneRejected(prod.ults)
    decreases |calls|
  {
    if calls != [] {
      NoRejectBefore(Act(prod, p, calls[0].action, calls[0].logLength), p, calls[1..]);
      RejectedStays(prod, p, calls[0].action, calls[0].logLength);
      forall k | 0 <= k < |calls| ensures !calls[k].action.Reject? {
        assert k > 0 ==> calls[1..][k - 1] == calls[k];
      }
    }
  }

  /**
   * In every reachable state in which no push of a strict producer has failed, exactly the pushes below the count of
   * ready events are enqueued.
   */
  lemma TicketsAreInTurn<V(!new)>(s: System<V>, p: nat)
    requires Reachable(s) && p in s.producers && s.producers[p].strict && NoneRejected(s.producers[p].ults)
    ensures Tickets.InTurn(s.producers[p])
  {
    ProducersAreTicketRuns(s, p);
    var prod := s.producers[p];
    var calls :| IsRunTo(prod, p, calls);
    NoRejectBefore(NewProducer(true, prod.batchSize), p, calls);
    Tickets.TicketOrder(NewProducer(true, prod.batchSize), p, calls);
  }
}
