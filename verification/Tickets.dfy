/**
 * The ticket protocol of Producer::push: local ids are tickets, m_num_ready_events is the ticket being served, and
 * under strict ordering a ULT enqueues only when its ticket is served. Actions are those of module EventPath; the
 * length n of the log that an append meets is arbitrary here. How ULTs sleep and wake up is in module TurnWaits.
 */
module Tickets {
  import opened Bytes
  import opened EventPath

  /** The ULT has been through the enqueueing part, or through the catch block. */
  predicate Done(u: Ult) {
    u.Enqueued? || u.Rejected?
  }

  /** Exactly the tickets below the one being served are done. */
  predicate InTurn<V>(prod: Producer<V>) {
    && |prod.events| == |prod.ults| && prod.ready <= |prod.ults|
    && forall l :: 0 <= l < |prod.ults| ==> (Done(prod.ults[l]) <==> l < prod.ready)
  }

  datatype Call<V> = Call(action: Action<V>, logLength: nat)

  predicate Allowed<V>(prod: Producer<V>, p: nat, calls: seq<Call<V>>)
    decreases |calls|
  {
    calls == []
    || (Enabled(prod, calls[0].action) && Allowed(Act(prod, p, calls[0].action, calls[0].logLength), p, calls[1..]))
  }

  function ActAll<V>(prod: Producer<V>, p: nat, calls: seq<Call<V>>): Producer<V>
    requires Allowed(prod, p, calls)
    decreases |calls|
  {
    if calls == [] then prod else ActAll(Act(prod, p, calls[0].action, calls[0].logLength), p, calls[1..])
  }

  lemma {:induction false} OneCallMore<V>(prod: Producer<V>, p: nat, calls: seq<Call<V>>, c: Call<V>)
    requires Allowed(prod, p, calls) && Enabled(ActAll(prod, p, calls), c.action)
    ensures Allowed(prod, p, calls + [c])
    ensures ActAll(prod, p, calls + [c]) == Act(ActAll(prod, p, calls), p, c.action, c.logLength)
    decreases |calls|
  {
    if calls == [] {
      assert ([] + [c])[1..] == [];
    } else {
      OneCallMore(Act(prod, p, calls[0].action, calls[0].logLength), p, calls[1..], c);
      assert (calls + [c])[1..] == calls[1..] + [c];
    }
  }

  // ----- What keeps the tickets in turn -----

  /**
   * The catch block counts a failed push as ready whatever ticket is being served. The tickets stay in turn under
   * an action if and only if the action is not a failure of a push whose turn has not come.
   */
  lemma ActKeepsTurnIff<V>(prod: Producer<V>, p: nat, a: Action<V>, n: nat)
    requires prod.strict && InTurn(prod) && Enabled(prod, a)
    ensures InTurn(Act(prod, p, a, n)) <==> !(a.Reject? && a.local != prod.ready)
  {
    var prod' := Act(prod, p, a, n);
    match a
    case Reject(l) =>
      assert Done(prod'.ults[l]) && !Done(prod.ults[l]);
      if l != prod.ready {
        assert !Done(prod.ults[prod.ready]) && prod'.ults[prod.ready] == prod.ults[prod.ready];
      }
    case EnqueueNext(l) =>
    case PushCall(_) =>
    case Post(l) =>
    case Select(l, _) =>
    case Leave(l) =>
    case _ => SameTickets(prod, p, a, n);
  }

  lemma SameTickets<V>(prod: Producer<V>, p: nat, a: Action<V>, n: nat)
    requires Enabled(prod, a)
    requires !(a.PushCall? || a.Post? || a.Select? || a.Reject? || a.EnqueueNext? || a.Leave?)
    ensures var prod' := Act(prod, p, a, n);
            prod'.ults == prod.ults && prod'.events == prod.events && prod'.ready == prod.ready
            && prod'.posted == prod.posted && prod'.strict == prod.strict
  {
  }

  predicate NoReject<V>(calls: seq<Call<V>>) {
    forall i :: 0 <= i < |calls| ==> !calls[i].action.Reject?
  }

  /** The tickets in the order in which they enqueue. */
  function EnqueueOrder<V>(calls: seq<Call<V>>): seq<nat> {
    if calls == [] then []
    else (if calls[0].action.EnqueueNext? then [calls[0].action.local] else []) + EnqueueOrder(calls[1..])
  }

  predicate Consecutive(s: seq<nat>, from: nat) {
    forall i :: 0 <= i < |s| ==> s[i] == from + i
  }

  /** Without failures, tickets enqueue exactly in the order of the push calls: ready, ready + 1, ready + 2, ... */
  lemma {:induction false} TicketOrder<V>(prod: Producer<V>, p: nat, calls: seq<Call<V>>)
    requires prod.strict && InTurn(prod) && Allowed(prod, p, calls) && NoReject(calls)
    ensures InTurn(ActAll(prod, p, calls))
    ensures Consecutive(EnqueueOrder(calls), prod.ready)
    ensures ActAll(prod, p, calls).ready == prod.ready + |EnqueueOrder(calls)|
    decreases |calls|
  {
    if calls == [] {
    } else {
      var prod' := Act(prod, p, calls[0].action, calls[0].logLength);
      ActKeepsTurnIff(prod, p, calls[0].action, calls[0].logLength);
      OneStepOfOrder(prod, p, calls[0].action, calls[0].logLength);
      assert calls[0] in calls;
      TicketOrder(prod', p, calls[1..]);
    }
  }

  lemma OneStepOfOrder<V>(prod: Producer<V>, p: nat, a: Action<V>, n: nat)
    requires prod.strict && Enabled(prod, a) && !a.Reject?
    ensures var prod' := Act(prod, p, a, n);
            prod'.strict && (if a.EnqueueNext? then a.local == prod.ready && prod'.ready == prod.ready + 1
                             else prod'.ready == prod.ready)
  {
  }

  /** A new producer, strict and without failures, enqueues its pushes as 0, 1, 2, ... and has its tickets in turn. */
  lemma EnqueueOrderIsPushOrder<V>(batchSize: SizeT, p: nat, calls: seq<Call<V>>)
    requires Allowed(NewProducer(true, batchSize), p, calls) && NoReject(calls)
    ensures Consecutive(EnqueueOrder(calls), 0) && InTurn(ActAll(NewProducer(true, batchSize), p, calls))
  {
    TicketOrder(NewProducer(true, batchSize), p, calls);
  }

  // ----- A ticket that was passed over -----

  /** Under strict ordering, the served ticket has moved past a ULT that still waits for it. */
  predicate PassedOver<V>(prod: Producer<V>, l: nat) {
    prod.strict && l < |prod.ults| && l < prod.ready && !Done(prod.ults[l])
  }

  lemma PassedOverStays<V>(prod: Producer<V>, p: nat, l: nat, a: Action<V>, n: nat)
    requires PassedOver(prod, l) && Enabled(prod, a) && a != Action<V>.Reject(l)
    ensures PassedOver(Act(prod, p, a, n), l)
    ensures prod.ults[l].Waiting? ==> Act(prod, p, a, n).ults[l] == prod.ults[l]
  {
  }

  lemma WaitingCannotFail<V>(prod: Producer<V>, l: nat, a: Action<V>)
    requires l < |prod.ults| && prod.ults[l].Waiting? && Enabled(prod, a)
    ensures a != Action<V>.Reject(l)
  {
  }

  /** A push that waits for a ticket that was passed over waits forever: no continuation enqueues or fails it. */
  lemma {:induction false} PassedOverWaitsForever<V>(prod: Producer<V>, p: nat, l: nat, calls: seq<Call<V>>)
    requires PassedOver(prod, l) && prod.ults[l].Waiting? && Allowed(prod, p, calls)
    ensures var prod' := ActAll(prod, p, calls); PassedOver(prod', l) && prod'.ults[l] == prod.ults[l]
    decreases |calls|
  {
    if calls == [] {
    } else {
      WaitingCannotFail(prod, l, calls[0].action);
      PassedOverStays(prod, p, l, calls[0].action, calls[0].logLength);
      PassedOverWaitsForever(Act(prod, p, calls[0].action, calls[0].logLength), p, l, calls[1..]);
    }
  }

  /**
   * A failure passes some ticket over if and only if its own turn had not come.
   */
  lemma RejectPassesOverIff<V>(prod: Producer<V>, p: nat, l: nat)
    requires prod.strict && InTurn(prod) && Enabled(prod, Action<V>.Reject(l))
    ensures (exists k :: PassedOver(Act(prod, p, Reject(l), 0), k)) <==> l != prod.ready
  {
    var prod' := Act(prod, p, Reject(l), 0);
    if l != prod.ready {
      assert PassedOver(prod', prod.ready);
    } else {
      forall k ensures !PassedOver(prod', k) {
      }
    }
  }

  /** The ticket that is served belongs to a push that has already been through. */
  predicate Stalled<V>(prod: Producer<V>) {
    prod.strict && prod.ready < |prod.ults| && Done(prod.ults[prod.ready])
  }

  lemma StalledStays<V>(prod: Producer<V>, p: nat, a: Action<V>, n: nat)
    requires Stalled(prod) && Enabled(prod, a) && !a.Reject?
    ensures !a.EnqueueNext? && Stalled(Act(prod, p, a, n))
  {
  }

  /** Then nobody's turn comes any more: until another push fails, no continuation enqueues anything. */
  lemma {:induction false} StalledEnqueuesNothing<V>(prod: Producer<V>, p: nat, calls: seq<Call<V>>)
    requires Stalled(prod) && Allowed(prod, p, calls) && NoReject(calls)
    ensures EnqueueOrder(calls) == [] && Stalled(ActAll(prod, p, calls))
    decreases |calls|
  {
    if calls != [] {
      assert calls[0] in calls;
      StalledStays(prod, p, calls[0].action, calls[0].logLength);
      StalledEnqueuesNothing(Act(prod, p, calls[0].action, calls[0].logLength), p, calls[1..]);
    }
  }

  /** With tickets in turn, a failure stalls the producer if and only if it is that of the very next ticket. */
  lemma RejectStallsIff<V>(prod: Producer<V>, p: nat, l: nat)
    requires prod.strict && InTurn(prod) && Enabled(prod, Action<V>.Reject(l))
    ensures Stalled(Act(prod, p, Reject(l), 0)) <==> l == prod.ready + 1
  {
    var prod' := Act(prod, p, Reject(l), 0);
    if l == prod.ready + 1 {
      assert Done(prod'.ults[l]);
    } else if prod.ready + 1 < |prod.ults| {
      assert !Done(prod.ults[prod.ready + 1]) && prod'.ults[prod.ready + 1] == prod.ults[prod.ready + 1];
    }
  }

  // ----- Progress -----

  /** How many stages the ULT of a push still has ahead. */
  function Stages(u: Ult): nat {
    match u
    case Created => 4
    case Posted => 3
    case Waiting(_) => 2
    case Enqueued(_, left) => if left then 0 else 1
    case Rejected(left) => if left then 0 else 1
  }

  function Work(ults: seq<Ult>): nat {
    if ults == [] then 0 else Work(ults[..|ults| - 1]) + Stages(ults[|ults| - 1])
  }

  lemma {:induction false} WorkUpdate(ults: seq<Ult>, l: nat, u: Ult)
    requires l < |ults|
    ensures Work(ults[l := u]) == Work(ults) - Stages(ults[l]) + Stages(u)
    decreases |ults|
  {
    var n := |ults| - 1;
    if l < n {
      WorkUpdate(ults[..n], l, u);
      assert ults[l := u][..n] == ults[..n][l := u];
    } else {
      assert ults[l := u][..n] == ults[..n];
    }
  }

  predicate MovesUlt<V>(a: Action<V>) {
    a.Post? || a.Select? || a.Reject? || a.EnqueueNext? || a.Leave?
  }

  /** The change of one ULT that an action makes. */
  lemma ActMovesUlt<V>(prod: Producer<V>, p: nat, a: Action<V>, n: nat)
    requires Enabled(prod, a) && MovesUlt(a)
    ensures a.local < |prod.ults|
    ensures exists u :: Act(prod, p, a, n).ults == prod.ults[a.local := u] && Stages(u) < Stages(prod.ults[a.local])
  {
    var l := a.local;
    var u := Act(prod, p, a, n).ults[l];
    assert Act(prod, p, a, n).ults == prod.ults[l := u] && Stages(u) < Stages(prod.ults[l]);
  }

  /** Every action on a ULT brings the remaining work down; nothing but a new push call brings it up. */
  lemma WorkDecreases<V>(prod: Producer<V>, p: nat, a: Action<V>, n: nat)
    requires Enabled(prod, a)
    ensures MovesUlt(a) ==> Work(Act(prod, p, a, n).ults) < Work(prod.ults)
    ensures !MovesUlt(a) && !a.PushCall? ==> Work(Act(prod, p, a, n).ults) == Work(prod.ults)
  {
    if MovesUlt(a) {
      ActMovesUlt(prod, p, a, n);
      var u :| Act(prod, p, a, n).ults == prod.ults[a.local := u] && Stages(u) < Stages(prod.ults[a.local]);
      WorkUpdate(prod.ults, a.local, u);
    } else if !a.PushCall? {
      SameTickets(prod, p, a, n);
    }
  }

  /** The next move of the push whose turn it is; choice is what the selector answers. */
  function NextMove<V>(prod: Producer<V>, choice: Target): Action<V>
    requires InTurn(prod) && prod.ready < |prod.ults|
  {
    match prod.ults[prod.ready]
    case Created => Post(prod.ready)
    case Posted => Select(prod.ready, choice)
    case _ => EnqueueNext(prod.ready)
  }

  /** No deadlock: as long as some push is not enqueued, the one whose turn it is can move, and moving is progress. */
  lemma NoDeadlock<V>(prod: Producer<V>, p: nat, choice: Target)
    requires prod.strict && InTurn(prod) && prod.ready < |prod.ults|
    ensures Enabled(prod, NextMove(prod, choice))
    ensures var prod' := Act(prod, p, NextMove(prod, choice), 0);
            prod'.strict && InTurn(prod') && |prod'.ults| == |prod.ults| && Work(prod'.ults) < Work(prod.ults)
  {
    assert !Done(prod.ults[prod.ready]);
    ActKeepsTurnIff(prod, p, NextMove(prod, choice), 0);
    WorkDecreases(prod, p, NextMove(prod, choice), 0);
  }

  /** The schedule in which the served ticket always moves. */
  function Serve<V>(prod: Producer<V>, p: nat, choice: Target): seq<Call<V>>
    requires prod.strict && InTurn(prod)
    decreases Work(prod.ults)
  {
    if prod.ready == |prod.ults| then []
    else
      NoDeadlock(prod, p, choice);
      var move := NextMove(prod, choice);
      [Call(move, 0)] + Serve(Act(prod, p, move, 0), p, choice)
  }

  /** Every push that was called gets enqueued when the served ticket moves: the schedule ends with all tickets done. */
  lemma {:induction false} EveryTicketIsServed<V>(prod: Producer<V>, p: nat, choice: Target)
    requires prod.strict && InTurn(prod)
    ensures Allowed(prod, p, Serve(prod, p, choice))
    ensures var prod' := ActAll(prod, p, Serve(prod, p, choice));
            |prod'.ults| == |prod.ults| && forall l :: 0 <= l < |prod'.ults| ==> Done(prod'.ults[l])
    decreases Work(prod.ults)
  {
    if prod.ready == |prod.ults| {
    } else {
      NoDeadlock(prod, p, choice);
      var prod' := Act(prod, p, NextMove(prod, choice), 0);
      assert Serve(prod, p, choice)[1..] == Serve(prod', p, choice);
      EveryTicketIsServed(prod', p, choice);
    }
  }

  // ----- The barrier of flush() -----

  predicate InPool(u: Ult) {
    match u
    case Created => false
    case Posted => true
    case Waiting(_) => true
    case Enqueued(_, left) => !left
    case Rejected(left) => !left
  }

  function CountInPool(ults: seq<Ult>): nat {
    if ults == [] then 0 else CountInPool(ults[..|ults| - 1]) + (if InPool(ults[|ults| - 1]) then 1 else 0)
  }

  lemma {:induction false} CountUpdate(ults: seq<Ult>, l: nat, u: Ult)
    requires l < |ults|
    ensures CountInPool(ults[l := u])
         == CountInPool(ults) - (if InPool(ults[l]) then 1 else 0) + (if InPool(u) then 1 else 0)
    decreases |ults|
  {
    var n := |ults| - 1;
    if l < n {
      CountUpdate(ults[..n], l, u);
      assert ults[l := u][..n] == ults[..n][l := u];
    } else {
      assert ults[l := u][..n] == ults[..n];
    }
  }

  lemma {:induction false} CountZero(ults: seq<Ult>, l: nat)
    requires l < |ults| && CountInPool(ults) == 0
    ensures !InPool(ults[l])
    decreases |ults|
  {
    if l < |ults| - 1 {
      CountZero(ults[..|ults| - 1], l);
    }
  }

  predicate Outside(u: Ult) {
    u.Created? || ((u.Enqueued? || u.Rejected?) && u.left)
  }

  /** The count is zero if and only if every ULT is not posted yet, or has left after its push was enqueued or failed. */
  lemma {:induction false} CountZeroIff(ults: seq<Ult>)
    ensures CountInPool(ults) == 0 <==> forall l :: 0 <= l < |ults| ==> Outside(ults[l])
    decreases |ults|
  {
    if ults != [] {
      var n := |ults| - 1;
      CountZeroIff(ults[..n]);
      assert forall l :: 0 <= l < n ==> ults[..n][l] == ults[l];
    }
  }

  /** m_num_posted_ults is the number of ULTs that were posted and have not left. */
  predicate CountsPosted<V>(prod: Producer<V>) {
    prod.posted == CountInPool(prod.ults)
  }

  lemma ActKeepsCount<V>(prod: Producer<V>, p: nat, a: Action<V>, n: nat)
    requires CountsPosted(prod) && Enabled(prod, a)
    ensures CountsPosted(Act(prod, p, a, n))
  {
    match a
    case Post(l) => CountUpdate(prod.ults, l, Posted);
    case Select(l, t) => CountUpdate(prod.ults, l, Waiting(t));
    case Reject(l) => CountUpdate(prod.ults, l, Rejected(false));
    case EnqueueNext(l) => CountUpdate(prod.ults, l, Enqueued(prod.ults[l].target, false));
    case Leave(l) => CountUpdate(prod.ults, l, prod.ults[l].(left := true));
    case PushCall(_) => assert (prod.ults + [Created])[..|prod.ults|] == prod.ults;
    case _ => SameTickets(prod, p, a, n);
  }

  lemma {:induction false} CountsAlways<V>(prod: Producer<V>, p: nat, calls: seq<Call<V>>)
    requires CountsPosted(prod) && Allowed(prod, p, calls)
    ensures CountsPosted(ActAll(prod, p, calls))
    decreases |calls|
  {
    if calls != [] {
      ActKeepsCount(prod, p, calls[0].action, calls[0].logLength);
      CountsAlways(Act(prod, p, calls[0].action, calls[0].logLength), p, calls[1..]);
    }
  }

  /**
   * What flush() has waited for when its first wait ends: in any reachable state where the counter is zero, every
   * push that was posted has been enqueued or has failed.
   */
  lemma {:induction false} FlushBarrier<V>(prod: Producer<V>, p: nat, calls: seq<Call<V>>, l: nat)
    requires CountsPosted(prod) && Allowed(prod, p, calls)
    requires var prod' := ActAll(prod, p, calls);
             prod'.posted == 0 && l < |prod'.ults| && !prod'.ults[l].Created?
    ensures Done(ActAll(prod, p, calls).ults[l])
    decreases |calls|
  {
    if calls == [] {
      CountZero(prod.ults, l);
    } else {
      ActKeepsCount(prod, p, calls[0].action, calls[0].logLength);
      FlushBarrier(Act(prod, p, calls[0].action, calls[0].logLength), p, calls[1..], l);
    }
  }

  /** The first wait of flush() never ends again once a posted push was passed over. */
  lemma {:induction false} FlushHangsAfterPassingOver<V>(prod: Producer<V>, p: nat, l: nat, calls: seq<Call<V>>)
    requires CountsPosted(prod) && PassedOver(prod, l) && prod.ults[l].Waiting? && Allowed(prod, p, calls)
    ensures ActAll(prod, p, calls).posted != 0
    decreases |calls|
  {
    if calls == [] {
      if prod.posted == 0 {
        CountZero(prod.ults, l);
      }
    } else {
      var a, n := calls[0].action, calls[0].logLength;
      ActKeepsCount(prod, p, a, n);
      WaitingCannotFail(prod, l, a);
      PassedOverStays(prod, p, l, a, n);
      FlushHangsAfterPassingOver(Act(prod, p, a, n), p, l, calls[1..]);
    }
  }
}
