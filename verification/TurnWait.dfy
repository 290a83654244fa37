/**
 * How ULTs wait for their turn: the ticket protocol of module Tickets with the wait of Producer::push taken apart.
 *
 * A ULT tests its ticket under the mutex of the queue map, and holds the mutex until it sleeps on the condition
 * variable or has enqueued its event. The catch block raises the count of ready events, and every ULT notifies the
 * sleepers at its end, without that mutex.
 */
module TurnWaits {
  import opened Bytes
  import opened EventPath
  import Tickets

  /** About to test its ticket, if it waits at all; past a test that failed, with the mutex; asleep. */
  datatype Nap = Looking | Tested | Asleep

  /** notified[l] says that ULT l is past its notify_all. */
  datatype Waits<V> = Waits(prod: Producer<V>, naps: seq<Nap>, notified: seq<bool>)

  datatype Step<V> = Move(call: Tickets.Call<V>) | Test(local: nat) | Sleep(local: nat) | Notify(local: nat)

  predicate MutexFree(naps: seq<Nap>) {
    forall l :: 0 <= l < |naps| ==> naps[l] != Tested
  }

  predicate MayMove<V>(s: Waits<V>, a: Action<V>) {
    match a
    case EnqueueNext(l) => l < |s.naps| && s.naps[l] == Looking && MutexFree(s.naps)
    case Leave(l) => l < |s.notified| && s.notified[l]
    case _ => true
  }

  predicate Enabled<V>(s: Waits<V>, step: Step<V>) {
    match step
    case Move(c) => EventPath.Enabled(s.prod, c.action) && MayMove(s, c.action)
    case Test(l) =>
      && l < |s.prod.ults| && s.prod.ults[l].Waiting? && l < |s.naps| && s.naps[l] == Looking
      && MutexFree(s.naps) && l != s.prod.ready
    case Sleep(l) => l < |s.naps| && s.naps[l] == Tested
    case Notify(l) => IsPending(s, l)
  }

  /** ULT l has raised the count of ready events, and has not notified yet. */
  predicate IsPending<V>(s: Waits<V>, l: nat) {
    l < |s.prod.ults| && l < |s.notified| && Tickets.Done(s.prod.ults[l]) && !s.notified[l]
  }

  function WakeAll(naps: seq<Nap>): (r: seq<Nap>)
    ensures |r| == |naps|
    ensures forall l :: 0 <= l < |naps| ==> r[l] == if naps[l] == Asleep then Looking else naps[l]
  {
    if naps == [] then []
    else WakeAll(naps[..|naps| - 1]) + [if naps[|naps| - 1] == Asleep then Looking else naps[|naps| - 1]]
  }

  function Do<V>(s: Waits<V>, p: nat, step: Step<V>): Waits<V>
    requires Enabled(s, step)
  {
    match step
    case Move(c) =>
      Waits(Act(s.prod, p, c.action, c.logLength),
            if c.action.PushCall? then s.naps + [Looking] else s.naps,
            if c.action.PushCall? then s.notified + [false] else s.notified)
    case Test(l) => s.(naps := s.naps[l := Tested])
    case Sleep(l) => s.(naps := s.naps[l := Asleep])
    case Notify(l) => s.(naps := WakeAll(s.naps), notified := s.notified[l := true])
  }

  predicate Allowed<V>(s: Waits<V>, p: nat, steps: seq<Step<V>>)
    decreases |steps|
  {
    steps == [] || (Enabled(s, steps[0]) && Allowed(Do(s, p, steps[0]), p, steps[1..]))
  }

  function DoAll<V>(s: Waits<V>, p: nat, steps: seq<Step<V>>): Waits<V>
    requires Allowed(s, p, steps)
    decreases |steps|
  {
    if steps == [] then s else DoAll(Do(s, p, steps[0]), p, steps[1..])
  }

  function NewWaits<V>(batchSize: SizeT): Waits<V> {
    Waits(NewProducer(true, batchSize), [], [])
  }

  predicate IsReject<V>(step: Step<V>) {
    step.Move? && step.call.action.Reject?
  }

  predicate NoReject<V>(steps: seq<Step<V>>) {
    forall k :: 0 <= k < |steps| ==> !IsReject(steps[k])
  }

  // ----- Every run is one of the ticket protocol -----

  function Calls<V>(steps: seq<Step<V>>): seq<Tickets.Call<V>> {
    if steps == [] then []
    else (if steps[0].Move? then [steps[0].call] else []) + Calls(steps[1..])
  }

  /** Leaving out tests, sleeps and notifications leaves a run of module Tickets. */
  lemma {:induction false} RunsAreTicketRuns<V>(s: Waits<V>, p: nat, steps: seq<Step<V>>)
    requires Allowed(s, p, steps)
    ensures Tickets.Allowed(s.prod, p, Calls(steps)) && Tickets.ActAll(s.prod, p, Calls(steps)) == DoAll(s, p, steps).prod
    ensures NoReject(steps) ==> Tickets.NoReject(Calls(steps))
    decreases |steps|
  {
    if steps != [] {
      RunsAreTicketRuns(Do(s, p, steps[0]), p, steps[1..]);
      assert forall k :: 0 <= k < |steps| - 1 ==> steps[1..][k] == steps[k + 1];
      if steps[0].Move? {
        assert Calls(steps)[1..] == Calls(steps[1..]);
      } else {
        assert Calls(steps) == Calls(steps[1..]);
      }
    }
  }

  // ----- What every step keeps -----

  predicate WellFormed<V>(s: Waits<V>) {
    && s.prod.strict && |s.naps| == |s.notified| == |s.prod.ults|
    && (forall l :: 0 <= l < |s.naps| && s.naps[l] != Looking ==> s.prod.ults[l].Waiting?)
    && (forall l :: 0 <= l < |s.naps| && s.notified[l] ==> Tickets.Done(s.prod.ults[l]))
    && (forall i, j :: 0 <= i < j < |s.naps| ==> s.naps[i] != Tested || s.naps[j] != Tested)
  }

  /** The ULT comes through the enqueueing part, or through the catch block. */
  predicate Finishes<V>(a: Action<V>, l: nat) {
    (a.Reject? || a.EnqueueNext?) && a.local == l
  }

  /** What an action does to tickets. */
  predicate TicketChange<V>(prod: Producer<V>, prod': Producer<V>, a: Action<V>) {
    && prod'.strict == prod.strict
    && |prod'.ults| == |prod.ults| + (if a.PushCall? then 1 else 0)
    && (a.PushCall? ==> prod'.ults[|prod.ults|].Created?)
    && prod'.ready == prod.ready + (if a.Reject? || a.EnqueueNext? then 1 else 0)
    && (forall l :: 0 <= l < |prod.ults| ==>
          && (Tickets.Done(prod'.ults[l]) <==> Tickets.Done(prod.ults[l]) || Finishes(a, l))
          && (prod'.ults[l].Waiting? <==>
                (prod.ults[l].Waiting? && !Finishes(a, l)) || (a.Select? && a.local == l)))
    && (a.Reject? || a.EnqueueNext? ==> a.local < |prod.ults| && !Tickets.Done(prod.ults[a.local]))
    && (a.Reject? ==> !prod.ults[a.local].Waiting?)
    && (a.EnqueueNext? && prod.strict ==> a.local == prod.ready)
  }

  lemma ActChangesTickets<V>(prod: Producer<V>, p: nat, a: Action<V>, n: nat)
    requires EventPath.Enabled(prod, a)
    ensures TicketChange(prod, Act(prod, p, a, n), a)
  {
  }

  lemma DoKeepsWellFormed<V>(s: Waits<V>, p: nat, step: Step<V>)
    requires WellFormed(s) && Enabled(s, step)
    ensures WellFormed(Do(s, p, step))
  {
    if step.Move? {
      MoveKeepsWellFormed(s, p, step.call);
    }
  }

  lemma MoveKeepsWellFormed<V>(s: Waits<V>, p: nat, c: Tickets.Call<V>)
    requires WellFormed(s) && Enabled(s, Move(c))
    ensures WellFormed(Do(s, p, Move(c)))
  {
    ActChangesTickets(s.prod, p, c.action, c.logLength);
    MovedWellFormed(s, Do(s, p, Move(c)), c.action);
  }

  /** The state after a move, told by its tickets alone. */
  predicate Moved<V>(s: Waits<V>, s': Waits<V>, a: Action<V>) {
    && TicketChange(s.prod, s'.prod, a) && MayMove(s, a)
    && s'.naps == (if a.PushCall? then s.naps + [Looking] else s.naps)
    && s'.notified == (if a.PushCall? then s.notified + [false] else s.notified)
  }

  lemma MovedWellFormed<V>(s: Waits<V>, s': Waits<V>, a: Action<V>)
    requires WellFormed(s) && Moved(s, s', a)
    ensures WellFormed(s')
  {
  }

  /**
   * What a ULT that waits may do: whoever has the mutex either finds its ticket served, and enqueues, or any other one,
   * and sleeps. A ULT leaves only after it has notified.
   */
  lemma WaiterMayIff<V>(s: Waits<V>, l: nat, n: nat)
    requires WellFormed(s) && l < |s.prod.events| == |s.prod.ults|
    ensures s.prod.ults[l].Waiting? && s.naps[l] == Looking && MutexFree(s.naps) ==>
              && (Enabled(s, Test(l)) <==> l != s.prod.ready)
              && (Enabled(s, Move(Tickets.Call(EnqueueNext(l), n))) <==> l == s.prod.ready)
    ensures s.naps[l] == Tested ==> Enabled(s, Step<V>.Sleep(l)) && !Enabled(s, Step<V>.Test(l))
    ensures !MutexFree(s.naps) ==> !Enabled(s, Step<V>.Test(l)) && !Enabled(s, Move(Tickets.Call(EnqueueNext(l), n)))
    ensures Enabled(s, Step<V>.Notify(l)) <==> Tickets.Done(s.prod.ults[l]) && !s.notified[l]
    ensures Enabled(s, Move(Tickets.Call(Leave(l), n))) ==> s.notified[l]
  {
  }

  // ----- Oversleeping -----

  predicate HasPending<V>(s: Waits<V>) {
    exists l :: 0 <= l < |s.prod.ults| && IsPending(s, l)
  }

  /** The ULT whose turn it is sleeps, or is about to, and nobody is left who would notify it. */
  predicate Overslept<V>(s: Waits<V>)
    requires WellFormed(s)
  {
    s.prod.ready < |s.prod.ults| && s.naps[s.prod.ready] != Looking && !HasPending(s)
  }

  lemma MoveKeepsPending<V>(s: Waits<V>, s': Waits<V>, a: Action<V>, l: nat)
    requires WellFormed(s) && Moved(s, s', a)
    ensures IsPending(s, l) ==> IsPending(s', l)
    ensures Finishes(a, l) ==> IsPending(s', l)
  {
  }

  /** No move makes the ULT oversleep whose turn it is then: whoever raises the count has yet to notify. */
  lemma MoveIsHarmless<V>(s: Waits<V>, s': Waits<V>, a: Action<V>)
    requires WellFormed(s) && Moved(s, s', a) && WellFormed(s') && Overslept(s')
    ensures Overslept(s)
  {
    if a.Reject? || a.EnqueueNext? {
      MoveKeepsPending(s, s', a, a.local);
      assert HasPending(s');
    }
    forall l | 0 <= l < |s.prod.ults| ensures !IsPending(s, l) {
      MoveKeepsPending(s, s', a, l);
    }
  }

  /** Nobody oversleeps by a test, by falling asleep, or by what another ULT does but its notification. */
  lemma OnlyNotifyOversleeps<V>(s: Waits<V>, p: nat, step: Step<V>)
    requires WellFormed(s) && Enabled(s, step) && !step.Notify? && WellFormed(Do(s, p, step))
    ensures Overslept(Do(s, p, step)) ==> Overslept(s)
  {
    var s' := Do(s, p, step);
    if Overslept(s') {
      match step
      case Move(c) =>
        ActChangesTickets(s.prod, p, c.action, c.logLength);
        MoveIsHarmless(s, s', c.action);
      case Test(l) => SamePending(s, s');
      case Sleep(l) => SamePending(s, s');
    }
  }

  lemma SamePending<V>(s: Waits<V>, s': Waits<V>)
    requires s'.prod == s.prod && s'.notified == s.notified
    ensures HasPending(s') <==> HasPending(s)
  {
    forall l ensures IsPending(s', l) <==> IsPending(s, l) {
    }
  }

  /**
   * The ULT whose turn it is oversleeps if and only if the last pending notification comes between its failed test
   * and its sleep.
   */
  lemma NotifyOversleepsIff<V>(s: Waits<V>, p: nat, k: nat)
    requires WellFormed(s) && IsPending(s, k) && WellFormed(Do(s, p, Notify(k)))
    ensures Overslept(Do(s, p, Notify(k)))
       <==> && s.prod.ready < |s.prod.ults| && s.naps[s.prod.ready] == Tested
            && forall j :: 0 <= j < |s.prod.ults| && IsPending(s, j) ==> j == k
  {
    var s' := Do(s, p, Notify(k));
    forall j | 0 <= j < |s.prod.ults| ensures IsPending(s', j) <==> IsPending(s, j) && j != k {
    }
  }

  /** An overslept turn is never taken: until another push fails, no continuation enqueues that push or any later one. */
  lemma OversleptStays<V>(s: Waits<V>, p: nat, step: Step<V>)
    requires WellFormed(s) && Overslept(s) && Enabled(s, step) && !IsReject(step)
    ensures WellFormed(Do(s, p, step)) && Overslept(Do(s, p, step)) && Do(s, p, step).prod.ready == s.prod.ready
    ensures Do(s, p, step).prod.ults[s.prod.ready].Waiting?
  {
    DoKeepsWellFormed(s, p, step);
    var s' := Do(s, p, step);
    match step
    case Move(c) =>
      ActChangesTickets(s.prod, p, c.action, c.logLength);
      forall l | 0 <= l < |s'.prod.ults| ensures !IsPending(s', l) {
        assert l < |s.prod.ults| ==> !IsPending(s, l);
      }
    case Test(l) => SamePending(s, s');
    case Sleep(l) => SamePending(s, s');
    case Notify(l) => assert false;
  }

  lemma {:induction false} OversleptForever<V>(s: Waits<V>, p: nat, steps: seq<Step<V>>)
    requires WellFormed(s) && Overslept(s) && Allowed(s, p, steps) && NoReject(steps)
    ensures var s' := DoAll(s, p, steps);
            && WellFormed(s') && Overslept(s') && s'.prod.ready == s.prod.ready
            && s'.prod.ults[s.prod.ready].Waiting?
    decreases |steps|
  {
    if steps != [] {
      assert !IsReject(steps[0]);
      OversleptStays(s, p, steps[0]);
      assert forall k :: 0 <= k < |steps| - 1 ==> steps[1..][k] == steps[k + 1];
      OversleptForever(Do(s, p, steps[0]), p, steps[1..]);
    }
  }

  /** flush() then waits for ever: its counter is not zero in any such continuation. */
  lemma FlushHangsAfterOversleeping<V>(s: Waits<V>, p: nat, steps: seq<Step<V>>)
    requires WellFormed(s) && Overslept(s) && Tickets.CountsPosted(s.prod)
    requires Allowed(s, p, steps) && NoReject(steps)
    ensures DoAll(s, p, steps).prod.posted != 0
  {
    OversleptForever(s, p, steps);
    RunsAreTicketRuns(s, p, steps);
    Tickets.CountsAlways(s.prod, p, Calls(steps));
    var prod := DoAll(s, p, steps).prod;
    if prod.posted == 0 {
      Tickets.CountZero(prod.ults, s.prod.ready);
    }
  }

  // ----- A run in which the second of two pushes oversleeps -----

  lemma OneStepFirst<V>(s: Waits<V>, p: nat, step: Step<V>, s': Waits<V>, rest: seq<Step<V>>)
    requires Enabled(s, step) && Do(s, p, step) == s' && Allowed(s', p, rest)
    ensures Allowed(s, p, [step] + rest) && DoAll(s, p, [step] + rest) == DoAll(s', p, rest)
  {
    assert ([step] + rest)[1..] == rest;
  }

  function Call0<V>(a: Action<V>): Step<V> {
    Move(Tickets.Call(a, 0))
  }

  function TwoPushes<V>(batchSize: SizeT, x: V, y: V, ults: seq<Ult>, ready: nat, posted: int,
                        outcomes: map<nat, Outcome>, naps: seq<Nap>, notified: bool): Waits<V> {
    Waits(Producer(true, batchSize, [x, y], ults, ready, posted, map[], outcomes), naps, [notified, false])
  }

  /** Both pushes are called and posted, and the second has a target. */
  function Posting<V>(x: V, y: V, t: Target): seq<Step<V>> {
    [Call0(PushCall(x))] + ([Call0(PushCall(y))] + ([Call0(Post(0))] + ([Call0(Post(1))] + [Call0(Select(1, t))])))
  }

  lemma PostingIsAllowed<V>(batchSize: SizeT, p: nat, x: V, y: V, t: Target)
    ensures Allowed(NewWaits(batchSize), p, Posting(x, y, t))
    ensures DoAll(NewWaits(batchSize), p, Posting(x, y, t))
         == TwoPushes(batchSize, x, y, [Posted, Waiting(t)], 0, 2, map[], [Looking, Looking], false)
  {
    var naps := [Looking, Looking];
    var s1 := Waits(NewProducer<V>(true, batchSize).(events := [x], ults := [Created]), [Looking], [false]);
    var s2 := TwoPushes(batchSize, x, y, [Created, Created], 0, 0, map[], naps, false);
    var s3 := TwoPushes(batchSize, x, y, [Posted, Created], 0, 1, map[], naps, false);
    var s4 := TwoPushes(batchSize, x, y, [Posted, Posted], 0, 2, map[], naps, false);
    var s5 := TwoPushes(batchSize, x, y, [Posted, Waiting(t)], 0, 2, map[], naps, false);
    var last := [Call0(Select(1, t))];
    assert last + [] == last;
    OneStepFirst(s4, p, Call0(Select(1, t)), s5, []);
    OneStepFirst(s3, p, Call0(Post(1)), s4, last);
    OneStepFirst(s2, p, Call0(Post(0)), s3, [Call0(Post(1))] + last);
    OneStepFirst(s1, p, Call0(PushCall(y)), s2, [Call0(Post(0))] + ([Call0(Post(1))] + last));
    OneStepFirst(NewWaits(batchSize), p, Call0(PushCall(x)), s1,
                 [Call0(PushCall(y))] + ([Call0(Post(0))] + ([Call0(Post(1))] + last)));
  }

  /** Where it ends: the first push has failed and notified, and the second, whose turn it is, is asleep. */
  function SleptThrough<V>(batchSize: SizeT, x: V, y: V, t: Target): Waits<V> {
    TwoPushes(batchSize, x, y, [Rejected(false), Waiting(t)], 1, 2, map[0 := Errored], [Looking, Asleep], true)
  }

  lemma SleptThroughIsOverslept<V>(batchSize: SizeT, x: V, y: V, t: Target)
    ensures WellFormed(SleptThrough(batchSize, x, y, t)) && Overslept(SleptThrough(batchSize, x, y, t))
  {
  }

  /** The second tests its ticket; the first fails and notifies; the second sleeps, though its turn has come. */
  lemma FailureIsSleptThrough<V>(batchSize: SizeT, p: nat, x: V, y: V, t: Target)
    ensures var s := TwoPushes(batchSize, x, y, [Posted, Waiting(t)], 0, 2, map[], [Looking, Looking], false);
            var steps := [Test(1)] + ([Call0(Reject(0))] + ([Notify(0)] + [Sleep(1)]));
            Allowed(s, p, steps) && DoAll(s, p, steps) == SleptThrough(batchSize, x, y, t)
  {
    var failed := map[0 := Errored];
    var s0 := TwoPushes(batchSize, x, y, [Posted, Waiting(t)], 0, 2, map[], [Looking, Looking], false);
    var s1 := TwoPushes(batchSize, x, y, [Posted, Waiting(t)], 0, 2, map[], [Looking, Tested], false);
    var s2 := TwoPushes(batchSize, x, y, [Rejected(false), Waiting(t)], 1, 2, failed, [Looking, Tested], false);
    var s3 := TwoPushes(batchSize, x, y, [Rejected(false), Waiting(t)], 1, 2, failed, [Looking, Tested], true);
    assert WakeAll(s2.naps) == s2.naps;
    assert [Step<V>.Sleep(1)] + [] == [Sleep(1)];
    OneStepFirst(s3, p, Sleep(1), SleptThrough(batchSize, x, y, t), []);
    OneStepFirst(s2, p, Notify(0), s3, [Sleep(1)]);
    OneStepFirst(s1, p, Call0(Reject(0)), s2, [Notify(0)] + [Sleep(1)]);
    OneStepFirst(s0, p, Test(1), s1, [Call0(Reject(0))] + ([Notify(0)] + [Sleep(1)]));
  }

  // ----- Without failures nobody oversleeps -----

  /** The ULT whose turn it is has not just seen an old count, and somebody is left to notify it if it sleeps. */
  predicate Attentive<V>(s: Waits<V>)
    requires WellFormed(s)
  {
    s.prod.ready < |s.prod.ults| ==>
      s.naps[s.prod.ready] != Tested && (s.naps[s.prod.ready] == Asleep ==> HasPending(s))
  }

  lemma MoveKeepsAttentive<V>(s: Waits<V>, s': Waits<V>, a: Action<V>)
    requires WellFormed(s) && Moved(s, s', a) && WellFormed(s') && Attentive(s) && !a.Reject?
    ensures Attentive(s')
  {
    if a.EnqueueNext? {
      MoveKeepsPending(s, s', a, a.local);
    } else if HasPending(s) {
      var l :| 0 <= l < |s.prod.ults| && IsPending(s, l);
      MoveKeepsPending(s, s', a, l);
    }
  }

  lemma DoKeepsAttentive<V>(s: Waits<V>, p: nat, step: Step<V>)
    requires WellFormed(s) && Attentive(s) && Enabled(s, step) && !IsReject(step)
    ensures WellFormed(Do(s, p, step)) && Attentive(Do(s, p, step))
  {
    DoKeepsWellFormed(s, p, step);
    var s' := Do(s, p, step);
    match step
    case Move(c) =>
      ActChangesTickets(s.prod, p, c.action, c.logLength);
      MoveKeepsAttentive(s, s', c.action);
    case Notify(l) =>
    case _ => SamePending(s, s');
  }

  /** A failure is harmless exactly if the ULT whose turn comes has not just found that it had not come. */
  lemma RejectKeepsAttentiveIff<V>(s: Waits<V>, p: nat, c: Tickets.Call<V>)
    requires WellFormed(s) && Enabled(s, Move(c)) && c.action.Reject? && WellFormed(Do(s, p, Move(c)))
    ensures Attentive(Do(s, p, Move(c)))
       <==> !(s.prod.ready + 1 < |s.prod.ults| && s.naps[s.prod.ready + 1] == Tested)
  {
    var s' := Do(s, p, Move(c));
    ActChangesTickets(s.prod, p, c.action, c.logLength);
    MoveKeepsPending(s, s', c.action, c.action.local);
    assert HasPending(s');
  }

  /** In no run without failures does anybody oversleep a turn. */
  lemma {:induction false} NobodyOversleeps<V>(s: Waits<V>, p: nat, steps: seq<Step<V>>)
    requires WellFormed(s) && Attentive(s) && Allowed(s, p, steps) && NoReject(steps)
    ensures WellFormed(DoAll(s, p, steps)) && Attentive(DoAll(s, p, steps)) && !Overslept(DoAll(s, p, steps))
    decreases |steps|
  {
    if steps != [] {
      assert !IsReject(steps[0]);
      DoKeepsAttentive(s, p, steps[0]);
      assert forall k :: 0 <= k < |steps| - 1 ==> steps[1..][k] == steps[k + 1];
      NobodyOversleeps(Do(s, p, steps[0]), p, steps[1..]);
    }
  }

  lemma NobodyOversleepsFromNew<V>(batchSize: SizeT, p: nat, steps: seq<Step<V>>)
    requires Allowed(NewWaits(batchSize), p, steps) && NoReject(steps)
    ensures WellFormed(DoAll(NewWaits(batchSize), p, steps)) && !Overslept(DoAll(NewWaits(batchSize), p, steps))
  {
    NobodyOversleeps(NewWaits<V>(batchSize), p, steps);
  }

  // ----- Progress: exactly when all turns can still be taken -----

  /** How far the ULT whose turn it is has to go, and whether somebody else holds the mutex. */
  function Distance<V>(s: Waits<V>): nat
    requires WellFormed(s) && s.prod.ready < |s.prod.ults|
  {
    var r := s.prod.ready;
    (if MutexFree(s.naps) then 0 else 1)
    + match s.prod.ults[r]
      case Created => 5
      case Posted => 4
      case _ => if s.naps[r] == Tested then 3 else if s.naps[r] == Asleep then 2 else 1
  }

  ghost predicate Progresses<V>(s: Waits<V>, s': Waits<V>)
    requires WellFormed(s) && WellFormed(s') && s.prod.ready < |s.prod.ults|
  {
    && |s'.prod.ults| == |s.prod.ults|
    && (|| s'.prod.ready == s.prod.ready + 1
        || (s'.prod.ready == s.prod.ready && Distance(s') < Distance(s)))
  }

  /** A step that brings the push whose turn it is closer to being enqueued. */
  lemma NextStep<V>(s: Waits<V>, choice: Target) returns (step: Step<V>)
    requires WellFormed(s) && Tickets.InTurn(s.prod) && s.prod.ready < |s.prod.ults| && !Overslept(s)
    ensures Enabled(s, step) && !IsReject(step)
    ensures step.Move? ==> step == Move(Tickets.Call(Tickets.NextMove(s.prod, choice), 0))
    ensures step.Move? ==> s.naps[s.prod.ready] == Looking && (s.prod.ults[s.prod.ready].Waiting? ==> MutexFree(s.naps))
    ensures step.Sleep? ==> s.naps[s.prod.ready] != Asleep
    ensures step.Notify? ==> s.naps[s.prod.ready] == Asleep
    ensures !step.Test?
  {
    var r := s.prod.ready;
    assert !Tickets.Done(s.prod.ults[r]);
    if s.naps[r] == Tested {
      step := Sleep(r);
    } else if s.naps[r] == Asleep {
      var k :| 0 <= k < |s.prod.ults| && IsPending(s, k);
      step := Notify(k);
    } else if s.prod.ults[r].Waiting? && !MutexFree(s.naps) {
      var h :| 0 <= h < |s.naps| && s.naps[h] == Tested;
      step := Sleep(h);
    } else {
      step := Move(Tickets.Call(Tickets.NextMove(s.prod, choice), 0));
    }
  }

  lemma MoveProgresses<V>(s: Waits<V>, p: nat, choice: Target)
    requires WellFormed(s) && Tickets.InTurn(s.prod) && s.prod.ready < |s.prod.ults| && s.naps[s.prod.ready] == Looking
    requires s.prod.ults[s.prod.ready].Waiting? ==> MutexFree(s.naps)
    ensures var step := Move(Tickets.Call(Tickets.NextMove(s.prod, choice), 0));
            && Enabled(s, step) && WellFormed(Do(s, p, step)) && Tickets.InTurn(Do(s, p, step).prod)
            && Progresses(s, Do(s, p, step))
  {
    assert !Tickets.Done(s.prod.ults[s.prod.ready]);
    Tickets.NoDeadlock(s.prod, p, choice);
    DoKeepsWellFormed(s, p, Move(Tickets.Call(Tickets.NextMove(s.prod, choice), 0)));
  }

  lemma NapProgresses<V>(s: Waits<V>, p: nat, step: Step<V>)
    requires WellFormed(s) && Tickets.InTurn(s.prod) && s.prod.ready < |s.prod.ults| && Enabled(s, step)
    requires (step.Sleep? && s.naps[s.prod.ready] != Asleep) || (step.Notify? && s.naps[s.prod.ready] == Asleep)
    ensures WellFormed(Do(s, p, step)) && Tickets.InTurn(Do(s, p, step).prod) && Progresses(s, Do(s, p, step))
  {
    DoKeepsWellFormed(s, p, step);
    if step.Sleep? {
      assert MutexFree(Do(s, p, step).naps) && !MutexFree(s.naps);
    } else {
      assert MutexFree(Do(s, p, step).naps) == MutexFree(s.naps) by { WakingKeepsMutex(s.naps); }
    }
  }

  lemma WakingKeepsMutex(naps: seq<Nap>)
    ensures MutexFree(WakeAll(naps)) == MutexFree(naps)
  {
    if !MutexFree(naps) {
      var l :| 0 <= l < |naps| && naps[l] == Tested;
      assert WakeAll(naps)[l] == Tested;
    }
  }

  predicate AllDone<V>(s: Waits<V>) {
    forall l :: 0 <= l < |s.prod.ults| ==> Tickets.Done(s.prod.ults[l])
  }

  /** Steps that end with every push enqueued, none failing. */
  ghost predicate ServesAll<V>(s: Waits<V>, p: nat, steps: seq<Step<V>>) {
    Allowed(s, p, steps) && NoReject(steps) && AllDone(DoAll(s, p, steps))
  }

  lemma {:induction false} Serve<V>(s: Waits<V>, p: nat, choice: Target) returns (steps: seq<Step<V>>)
    requires WellFormed(s) && Tickets.InTurn(s.prod) && !Overslept(s)
    ensures ServesAll(s, p, steps)
    decreases |s.prod.ults| - s.prod.ready, if s.prod.ready < |s.prod.ults| then Distance(s) else 0
  {
    if s.prod.ready == |s.prod.ults| {
      steps := [];
    } else {
      var step := NextStep(s, choice);
      ServeOne(s, p, choice, step);
      var rest := Serve(Do(s, p, step), p, choice);
      steps := [step] + rest;
      assert steps[1..] == rest;
    }
  }

  lemma ServeOne<V>(s: Waits<V>, p: nat, choice: Target, step: Step<V>)
    requires WellFormed(s) && Tickets.InTurn(s.prod) && s.prod.ready < |s.prod.ults| && !Overslept(s)
    requires Enabled(s, step) && !step.Test?
    requires step.Move? ==>
      && step == Move(Tickets.Call(Tickets.NextMove(s.prod, choice), 0))
      && s.naps[s.prod.ready] == Looking && (s.prod.ults[s.prod.ready].Waiting? ==> MutexFree(s.naps))
    requires step.Sleep? ==> s.naps[s.prod.ready] != Asleep
    requires step.Notify? ==> s.naps[s.prod.ready] == Asleep
    ensures var s' := Do(s, p, step);
            WellFormed(s') && Tickets.InTurn(s'.prod) && Progresses(s, s') && !Overslept(s')
  {
    if step.Move? {
      MoveProgresses(s, p, choice);
    } else {
      NapProgresses(s, p, step);
    }
    if step.Notify? {
      NotifyOversleepsIff(s, p, step.local);
    } else {
      OnlyNotifyOversleeps(s, p, step);
    }
  }

  /**
   * Strict producers do not deadlock, and exactly this can stop them: with tickets in turn, all pushes that were called
   * can still be enqueued without any of them failing if and only if the ULT whose turn it is has not overslept it.
   */
  lemma AllServedIff<V(!new)>(s: Waits<V>, p: nat)
    requires WellFormed(s) && Tickets.InTurn(s.prod)
    ensures (exists steps :: ServesAll(s, p, steps)) <==> !Overslept(s)
  {
    if Overslept(s) {
      forall steps | Allowed(s, p, steps) && NoReject(steps) ensures !AllDone(DoAll(s, p, steps)) {
        OversleptForever(s, p, steps);
      }
    } else {
      var steps := Serve(s, p, 0);
    }
  }
}
