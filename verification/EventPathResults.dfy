/** What a caller of push() can rely on, in every state that any interleaving reaches. */
module EventPathResults {
  import opened Bytes
  import opened EventPath
  import opened EventPathCalls
  import opened EventPathSafety

  // ----- Where the entries of one producer are in a log -----

  lemma {:induction false} OwnAppend<V>(p: nat, a: seq<Entry<V>>, b: seq<Entry<V>>)
    ensures Own(p, a + b) == Own(p, a) + Own(p, b)
    decreases |b|
  {
    if b == [] {
      assert a + b == a;
    } else {
      var n := |b| - 1;
      OwnAppend(p, a, b[..n]);
      assert (a + b)[..|a| + n] == a + b[..n];
      var tail := if b[n].id.producer == p then [b[n]] else [];
      Assoc(Own(p, a), Own(p, b[..n]), tail);
    }
  }

  /** Entry n of a log is entry |Own(p, log[..n])| of those of its producer. */
  lemma OwnAt<V>(p: nat, log: seq<Entry<V>>, n: nat)
    requires n < |log| && log[n].id.producer == p
    ensures |Own(p, log[..n + 1])| == |Own(p, log[..n])| + 1
    ensures |Own(p, log[..n])| < |Own(p, log)| && Own(p, log)[|Own(p, log[..n])|] == log[n]
  {
    assert log[..n + 1][..n] == log[..n];
    assert Own(p, log[..n + 1]) == Own(p, log[..n]) + [log[n]];
    OwnAppend(p, log[..n + 1], log[n + 1..]);
    assert log == log[..n + 1] + log[n + 1..];
  }

  /** Later entries of a producer come later among its own. */
  lemma OwnOrder<V>(p: nat, log: seq<Entry<V>>, i: nat, j: nat)
    requires i < j < |log| && log[i].id.producer == p
    ensures |Own(p, log[..i])| < |Own(p, log[..j])|
  {
    OwnAt(p, log, i);
    OwnAppend(p, log[..i + 1], log[i + 1..j]);
    assert log[..j] == log[..i + 1] + log[i + 1..j];
  }

  // ----- Reachable states -----

  /** s is reached from an initial state by some run. */
  ghost predicate Reachable<V(!new)>(s: System<V>) {
    exists initial, steps :: IsInitial(initial) && Allowed(initial, steps) && s == DoAll(initial, steps)
  }

  lemma ReachableInv<V(!new)>(s: System<V>)
    requires Reachable(s)
    ensures Inv(s)
  {
    var initial, steps :| IsInitial(initial) && Allowed(initial, steps) && s == DoAll(initial, steps);
    InitialInv(initial);
    AlwaysInv(initial, steps);
  }

  lemma StoredIsTracked<V>(s: System<V>, p: nat, t: Target, n: nat)
    requires p in s.producers && n < |LogOf(s, t)| && LogOf(s, t)[n].id.producer == p
    ensures var log := LogOf(s, t);
            var track, k := Track(p, LaneOf(s.producers[p], t), log), |Own(p, log[..n])|;
            k < |track| && track[k] == log[n]
  {
    OwnAt(p, LogOf(s, t), n);
  }

  lemma TrackHolds<V>(s: System<V>, p: nat, t: Target)
    requires Inv(s) && p in s.producers
    ensures TrackInv(s.producers[p], p, t, LogOf(s, t))
  {
    assert ProducerInv(s.producers[p], p, s);
    assert LaneInv(s.producers[p], p, t, LogOf(s, t));
  }

  /** Whatever is stored is the event its producer holds under its local id, and that push is enqueued for this target. */
  lemma StoredIsEntry<V(!new)>(s: System<V>, t: Target, n: nat)
    requires Reachable(s) && n < |LogOf(s, t)|
    ensures var e := LogOf(s, t)[n];
            e.id.producer in s.producers && EntryOk(s.producers[e.id.producer], e.id.producer, t, e)
  {
    ReachableInv(s);
    var p := LogOf(s, t)[n].id.producer;
    StoredIsTracked(s, p, t, n);
    TrackHolds(s, p, t);
    var k := |Own(p, LogOf(s, t)[..n])|;
    assert EntryOk(s.producers[p], p, t, Track(p, LaneOf(s.producers[p], t), LogOf(s, t))[k]);
  }

  /** A future that resolves to id n of target t belongs to the event stored at index n of the log of t. */
  lemma FutureNamesItsEntry<V(!new)>(s: System<V>, p: nat, l: nat)
    requires Reachable(s) && p in s.producers && l in s.producers[p].outcomes && s.producers[p].outcomes[l].Resolved?
    ensures var prod := s.producers[p];
            var Resolved(t, n) := prod.outcomes[l];
            && l < |prod.events| && n < |LogOf(s, t)|
            && LogOf(s, t)[n] == Entry(Id(p, l), prod.events[l])
  {
    ReachableInv(s);
    var prod := s.producers[p];
    assert ProducerInv(prod, p, s);
    assert OutcomeOk(prod, p, s, l);
    StoredIsEntry(s, prod.outcomes[l].target, prod.outcomes[l].id);
  }

  // ----- The same, said of the calls of the run -----

  lemma RunReaches<V(!new)>(initial: System<V>, steps: seq<Step<V>>)
    requires IsInitial(initial) && Allowed(initial, steps)
    ensures Reachable(DoAll(initial, steps))
  {
  }

  /** Whatever is stored was pushed: it is the argument of that push() call, and the selector answered this target. */
  lemma StoredWasPushed<V(!new)>(initial: System<V>, steps: seq<Step<V>>, t: Target, n: nat)
    requires IsInitial(initial) && Allowed(initial, steps) && n < |LogOf(DoAll(initial, steps), t)|
    ensures var e := LogOf(DoAll(initial, steps), t)[n];
            var Id(p, l) := e.id;
            && p in initial.producers && l < |Arguments(steps, p)|
            && e.event == Arguments(steps, p)[l] && Selected(steps, p, l, t)
  {
    var s := DoAll(initial, steps);
    var Id(p, l) := LogOf(s, t)[n].id;
    RunReaches(initial, steps);
    StoredIsEntry(s, t, n);
    SameProducers(initial, steps, p);
    EventsAreArguments(initial, steps, p);
    TargetIsSelected(initial, steps, p, l, t);
  }

  /**
   * A future that resolves to id n of target t belongs to the event stored at index n of the log of t: the very
   * argument of push() call l of producer p, for which the selector answered t.
   */
  lemma FutureNamesItsEvent<V(!new)>(initial: System<V>, steps: seq<Step<V>>, p: nat, l: nat)
    requires IsInitial(initial) && Allowed(initial, steps) && p in DoAll(initial, steps).producers
    requires l in DoAll(initial, steps).producers[p].outcomes && DoAll(initial, steps).producers[p].outcomes[l].Resolved?
    ensures var s := DoAll(initial, steps);
            var Resolved(t, n) := s.producers[p].outcomes[l];
            && l < |Arguments(steps, p)| && n < |LogOf(s, t)|
            && LogOf(s, t)[n] == Entry(Id(p, l), Arguments(steps, p)[l]) && Selected(steps, p, l, t)
  {
    var s := DoAll(initial, steps);
    var Resolved(t, n) := s.producers[p].outcomes[l];
    RunReaches(initial, steps);
    FutureNamesItsEntry(s, p, l);
    StoredWasPushed(initial, steps, t, n);
  }

  /** No two futures resolve to the same id of the same target. */
  lemma FuturesAreDistinct<V(!new)>(s: System<V>, p: nat, l: nat, q: nat, k: nat)
    requires Reachable(s) && p in s.producers && q in s.producers
    requires l in s.producers[p].outcomes && s.producers[p].outcomes[l].Resolved?
    requires k in s.producers[q].outcomes && s.producers[q].outcomes[k] == s.producers[p].outcomes[l]
    ensures p == q && l == k
  {
    FutureNamesItsEntry(s, p, l);
    FutureNamesItsEntry(s, q, k);
  }

  /** No push is stored twice, neither in one log nor in two. */
  lemma StoredOnce<V(!new)>(s: System<V>, t: Target, i: nat, u: Target, j: nat)
    requires Reachable(s) && i < |LogOf(s, t)| && j < |LogOf(s, u)|
    requires LogOf(s, t)[i].id == LogOf(s, u)[j].id
    ensures t == u && i == j
  {
    StoredIsEntry(s, t, i);
    StoredIsEntry(s, u, j);
    if i < j {
      StoredTwiceImpossible(s, t, i, j);
    } else if j < i {
      StoredTwiceImpossible(s, t, j, i);
    }
  }

  /** A stored event whose future has resolved has it resolved to the place where it is stored. */
  lemma StoredAtItsId<V(!new)>(s: System<V>, t: Target, n: nat)
    requires Reachable(s) && n < |LogOf(s, t)|
    ensures var e := LogOf(s, t)[n];
            && e.id.producer in s.producers
            && var outcomes := s.producers[e.id.producer].outcomes;
               e.id.local in outcomes && outcomes[e.id.local].Resolved? ==> outcomes[e.id.local] == Resolved(t, n)
  {
    StoredIsEntry(s, t, n);
    var Id(p, l) := LogOf(s, t)[n].id;
    var outcomes := s.producers[p].outcomes;
    if l in outcomes && outcomes[l].Resolved? {
      FutureNamesItsEntry(s, p, l);
      StoredOnce(s, t, n, outcomes[l].target, outcomes[l].id);
    }
  }

  lemma StoredTwiceImpossible<V(!new)>(s: System<V>, t: Target, i: nat, j: nat)
    requires Reachable(s) && i < j < |LogOf(s, t)|
    ensures LogOf(s, t)[i].id != LogOf(s, t)[j].id
  {
    ReachableInv(s);
    var log, p := LogOf(s, t), LogOf(s, t)[i].id.producer;
    if log[j].id.producer == p {
      StoredIsTracked(s, p, t, i);
      StoredIsTracked(s, p, t, j);
      OwnOrder(p, log, i, j);
      TrackHolds(s, p, t);
    }
  }

  /**
   * Under strict ordering each log lists the events of a producer by increasing local id. This needs no hypothesis
   * on failures: a rejected push, or a batch that is lost, leaves a gap but never an inversion.
   */
  lemma StrictLogOrder<V(!new)>(s: System<V>, p: nat, t: Target, i: nat, j: nat)
    requires Reachable(s) && p in s.producers && s.producers[p].strict
    requires i < j < |LogOf(s, t)| && LogOf(s, t)[i].id.producer == p == LogOf(s, t)[j].id.producer
    ensures LogOf(s, t)[i].id.local < LogOf(s, t)[j].id.local
  {
    ReachableInv(s);
    StoredIsTracked(s, p, t, i);
    StoredIsTracked(s, p, t, j);
    OwnOrder(p, LogOf(s, t), i, j);
    TrackHolds(s, p, t);
  }

  /** An enqueued push is never forgotten: its promise is fulfilled, or it waits in the queue or batch of its target. */
  lemma EnqueuedIsAccountedFor<V(!new)>(s: System<V>, p: nat, l: nat)
    requires Reachable(s) && p in s.producers && l < |s.producers[p].ults| && s.producers[p].ults[l].Enqueued?
    ensures var prod := s.producers[p];
            && l < |prod.events|
            && (l in prod.outcomes || Entry(Id(p, l), prod.events[l]) in Pending(LaneOf(prod, prod.ults[l].target)))
  {
    ReachableInv(s);
    var prod, t := s.producers[p], s.producers[p].ults[l].target;
    assert ProducerInv(prod, p, s);
    assert LaneInv(prod, p, t, LogOf(s, t));
    assert EnqueuedAt(prod, l, t);
    if l !in prod.outcomes {
      var pending := Pending(LaneOf(prod, t));
      var i :| 0 <= i < |pending| && pending[i].id.local == l;
      assert EntryOk(prod, p, t, pending[i]);
      assert pending[i] == Entry(Id(p, l), prod.events[l]);
    }
  }

  // ----- Promises are fulfilled once, and what they say stays true -----

  /** No step touches a fulfilled promise: setValue and setException run at most once for each push. */
  lemma OutcomeKept<V>(s: System<V>, step: Step<V>, p: nat, l: nat)
    requires Inv(s) && EnabledStep(s, step) && p in s.producers && l in s.producers[p].outcomes
    ensures l in Do(s, step).producers[p].outcomes
    ensures Do(s, step).producers[p].outcomes[l] == s.producers[p].outcomes[l]
  {
    var prod, a := s.producers[p], step.action;
    assert ProducerInv(prod, p, s);
    assert OutcomeOk(prod, p, s, l);
    if p == step.producer && a.Settle? {
      SettleKeepsOutcome(prod, p, a.target, l, LogOf(s, a.target));
    }
  }

  lemma SettleKeepsOutcome<V>(prod: Producer<V>, p: nat, t: Target, l: nat, log: seq<Entry<V>>)
    requires Enabled(prod, Action<V>.Settle(t)) && LaneInv(prod, p, t, log) && l in prod.outcomes
    ensures l in Act(prod, p, Settle(t), 0).outcomes && Act(prod, p, Settle(t), 0).outcomes[l] == prod.outcomes[l]
  {
    var lane := prod.lanes[t];
    var batch := lane.q.sender.batch;
    forall i | 0 <= i < |batch| ensures batch[i].id.local != l {
      assert Pending(lane)[i] == batch[i];
    }
    assert batch[..|batch|] == batch;
    FulfilledKeys(prod.outcomes, batch, t, lane.reply, |batch|, l);
  }

  /** Logs only grow, and a fulfilled promise keeps its outcome, in every continuation of a run. */
  lemma {:induction false} OutcomesAndLogsLast<V>(s: System<V>, steps: seq<Step<V>>, p: nat, l: nat, t: Target)
    requires Inv(s) && Allowed(s, steps) && p in s.producers && l in s.producers[p].outcomes
    ensures var s' := DoAll(s, steps);
            && p in s'.producers && l in s'.producers[p].outcomes
            && s'.producers[p].outcomes[l] == s.producers[p].outcomes[l]
            && LogOf(s, t) <= LogOf(s', t)
    decreases |steps|
  {
    if steps == [] {
    } else {
      OutcomeKept(s, steps[0], p, l);
      LogsGrow(s, steps[0], t);
      DoKeepsInv(s, steps[0]);
      OutcomesAndLogsLast(Do(s, steps[0]), steps[1..], p, l, t);
    }
  }
}
