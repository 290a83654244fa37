/**
 * How a provider registers, feeds and stops consumers, as a state machine over any interleaving of the handlers of
 * requestEvents and removeConsumer, the feeding loops, and the appends of new events.
 *
 * The map is changed under the provider's mutex; a feeding loop holds the mutex of the log from its look at the stop
 * flag until it sleeps on the condition variable or has fed a batch; the flag is set, and sleepers are notified,
 * without that mutex.
 */
module Handshake {
  import Bytes

  type ConsumerId = nat

  /** Where a feeding loop is: running, past a look that found nothing to send, asleep, past one that did, left, gone. */
  datatype Phase = Running | AboutToSleep | Asleep | AboutToFeed | Left | Gone

  /** One requestEvents call; late counts the batches it fed after its stop flag was set. */
  datatype Request = Request(id: ConsumerId, topic: nat, phase: Phase, shouldStop: bool, late: nat)

  /** One removeConsumer call: looking for its consumer, holding it, flag set, done. */
  datatype Removal = Searching(id: ConsumerId) | Holding(id: ConsumerId, request: nat)
                   | Flagged(id: ConsumerId, request: nat) | Complete(id: ConsumerId, request: nat)

  datatype Provider = Provider(consumers: map<ConsumerId, nat>, requests: seq<Request>, removals: seq<Removal>)

  datatype Step =
    | RequestEvents(id: ConsumerId, topic: nat)
    | Look(request: nat, available: bool)
    | Sleep(request: nat)
    | FeedBatch(request: nat)
    | Erase(request: nat)
    | NewEvents(topic: nat)
    | RemoveConsumer(id: ConsumerId)
    | Take(removal: nat)
    | SetFlag(removal: nat)
    | Notify(removal: nat)

  predicate InPhase(p: Provider, r: nat, phase: Phase) {
    r < |p.requests| && p.requests[r].phase == phase
  }

  predicate Enabled(p: Provider, step: Step) {
    match step
    case RequestEvents(_, _) => true
    case Look(r, _) => InPhase(p, r, Running)
    case Sleep(r) => InPhase(p, r, AboutToSleep)
    case FeedBatch(r) => InPhase(p, r, AboutToFeed)
    case Erase(r) => InPhase(p, r, Left)
    case NewEvents(_) => true
    case RemoveConsumer(_) => true
    case Take(k) => k < |p.removals| && p.removals[k].Searching? && p.removals[k].id in p.consumers
    case SetFlag(k) => k < |p.removals| && p.removals[k].Holding? && p.removals[k].request < |p.requests|
    case Notify(k) => k < |p.removals| && p.removals[k].Flagged? && p.removals[k].request < |p.requests|
  }

  /** notify_all on the condition variable of a topic. */
  function WakeAll(requests: seq<Request>, topic: nat): (r: seq<Request>)
    ensures |r| == |requests|
    ensures forall i :: 0 <= i < |requests| ==>
      r[i] == if requests[i].topic == topic && requests[i].phase == Asleep then requests[i].(phase := Running)
              else requests[i]
  {
    if requests == [] then []
    else
      var q := requests[|requests| - 1];
      WakeAll(requests[..|requests| - 1], topic)
      + [if q.topic == topic && q.phase == Asleep then q.(phase := Running) else q]
  }

  function SetPhase(p: Provider, r: nat, phase: Phase): Provider
    requires r < |p.requests|
  {
    p.(requests := p.requests[r := p.requests[r].(phase := phase)])
  }

  function Do(p: Provider, step: Step): Provider
    requires Enabled(p, step)
  {
    match step
    case RequestEvents(id, topic) =>
      // emplace() leaves an entry that is already there
      p.(consumers := if id in p.consumers then p.consumers else p.consumers[id := |p.requests|],
         requests := p.requests + [Request(id, topic, Running, false, 0)])
    case Look(r, available) =>
      SetPhase(p, r, if p.requests[r].shouldStop then Left else if available then AboutToFeed else AboutToSleep)
    case Sleep(r) => SetPhase(p, r, Asleep)
    case FeedBatch(r) =>
      var q := p.requests[r];
      p.(requests := p.requests[r := q.(phase := Running, late := q.late + if q.shouldStop then 1 else 0)])
    case Erase(r) => SetPhase(p, r, Gone).(consumers := p.consumers - {p.requests[r].id})
    case NewEvents(topic) => p.(requests := WakeAll(p.requests, topic))
    case RemoveConsumer(id) => p.(removals := p.removals + [Searching(id)])
    case Take(k) =>
      var id := p.removals[k].id;
      p.(consumers := p.consumers - {id}, removals := p.removals[k := Holding(id, p.consumers[id])])
    case SetFlag(k) =>
      var m := p.removals[k];
      p.(requests := p.requests[m.request := p.requests[m.request].(shouldStop := true)],
         removals := p.removals[k := Flagged(m.id, m.request)])
    case Notify(k) =>
      var m := p.removals[k];
      p.(requests := WakeAll(p.requests, p.requests[m.request].topic),
         removals := p.removals[k := Complete(m.id, m.request)])
  }

  /** Consumer ids are unique: no two requests carry the same one. */
  predicate FreshRequest(p: Provider, step: Step) {
    step.RequestEvents? ==> forall r :: 0 <= r < |p.requests| ==> p.requests[r].id != step.id
  }

  predicate Allowed(p: Provider, steps: seq<Step>, unique: bool)
    decreases |steps|
  {
    steps == []
    || (Enabled(p, steps[0]) && (unique ==> FreshRequest(p, steps[0])) && Allowed(Do(p, steps[0]), steps[1..], unique))
  }

  function DoAll(p: Provider, steps: seq<Step>, unique: bool): Provider
    requires Allowed(p, steps, unique)
    decreases |steps|
  {
    if steps == [] then p else DoAll(Do(p, steps[0]), steps[1..], unique)
  }

  function NewProvider(): Provider {
    Provider(map[], [], [])
  }

  // ----- What every step keeps -----

  predicate LoopOk(q: Request) {
    && (q.phase.Left? || q.phase.Gone? ==> q.shouldStop)
    && q.late <= 1
    && (q.late == 1 ==> q.shouldStop && !q.phase.AboutToFeed? && !q.phase.AboutToSleep? && !q.phase.Asleep?)
  }

  predicate RemovalOk(p: Provider, m: Removal) {
    m.Searching? ||
    (&& m.request < |p.requests| && p.requests[m.request].id == m.id
     && (p.requests[m.request].shouldStop <==> !m.Holding?))
  }

  /** A request is registered, or some removal has taken it. */
  ghost predicate Traced(p: Provider, r: nat)
    requires r < |p.requests|
  {
    || (p.requests[r].id in p.consumers && p.consumers[p.requests[r].id] == r)
    || exists k :: 0 <= k < |p.removals| && Claims(p.removals[k], r)
  }

  predicate SetBy(m: Removal, r: nat, id: ConsumerId) {
    (m.Flagged? || m.Complete?) && m.request == r && m.id == id
  }

  predicate Claims(m: Removal, r: nat) {
    !m.Searching? && m.request == r
  }

  predicate UniqueIds(requests: seq<Request>) {
    forall i, j :: 0 <= i < j < |requests| ==> requests[i].id != requests[j].id
  }

  predicate MapOk(p: Provider) {
    && (forall id :: id in p.consumers ==>
          p.consumers[id] < |p.requests| && p.requests[p.consumers[id]].id == id && !p.requests[p.consumers[id]].shouldStop)
    && (forall id, k :: id in p.consumers && 0 <= k < |p.removals| ==> !Claims(p.removals[k], p.consumers[id]))
    && (forall i, j :: 0 <= i < j < |p.removals| && !p.removals[i].Searching? ==>
          !Claims(p.removals[j], p.removals[i].request))
  }

  ghost predicate Inv(p: Provider) {
    && UniqueIds(p.requests) && MapOk(p)
    && (forall r :: 0 <= r < |p.requests| ==> LoopOk(p.requests[r]) && Traced(p, r))
    && (forall k :: 0 <= k < |p.removals| ==> RemovalOk(p, p.removals[k]))
  }

  /** The step changes neither removals, map, ids nor flags. */
  predicate LoopStep(step: Step) {
    step.Look? || step.Sleep? || step.FeedBatch? || step.NewEvents?
  }

  lemma LoopStepKeeps(p: Provider, step: Step)
    requires Inv(p) && Enabled(p, step) && LoopStep(step)
    ensures Inv(Do(p, step))
  {
    var p' := Do(p, step);
    assert SameFates(p, p');
    SameFatesKeeps(p, p');
    forall r | 0 <= r < |p'.requests| ensures LoopOk(p'.requests[r]) {
      assert LoopOk(p.requests[r]);
    }
  }

  predicate SameFates(p: Provider, p': Provider) {
    && p'.consumers == p.consumers && p'.removals == p.removals && |p'.requests| == |p.requests|
    && forall r :: 0 <= r < |p.requests| ==>
         p'.requests[r].id == p.requests[r].id && p'.requests[r].shouldStop == p.requests[r].shouldStop
  }

  lemma SameFatesKeeps(p: Provider, p': Provider)
    requires Inv(p) && SameFates(p, p')
    ensures UniqueIds(p'.requests) && MapOk(p')
    ensures forall r :: 0 <= r < |p'.requests| ==> Traced(p', r)
    ensures forall k :: 0 <= k < |p'.removals| ==> RemovalOk(p', p'.removals[k])
  {
    forall r | 0 <= r < |p'.requests| ensures Traced(p', r) {
      assert Traced(p, r);
    }
    forall k | 0 <= k < |p'.removals| ensures RemovalOk(p', p'.removals[k]) {
      assert RemovalOk(p, p.removals[k]);
    }
  }

  lemma RequestKeeps(p: Provider, id: ConsumerId, topic: nat)
    requires Inv(p) && FreshRequest(p, RequestEvents(id, topic))
    ensures Inv(Do(p, RequestEvents(id, topic)))
  {
    var p' := Do(p, RequestEvents(id, topic));
    forall r | 0 <= r < |p'.requests| ensures LoopOk(p'.requests[r]) && Traced(p', r) {
      if r < |p.requests| {
        assert LoopOk(p.requests[r]) && Traced(p, r);
      }
    }
    forall k | 0 <= k < |p'.removals| ensures RemovalOk(p', p'.removals[k]) {
      assert RemovalOk(p, p.removals[k]);
    }
    forall other, k | other in p'.consumers && 0 <= k < |p'.removals|
      ensures !Claims(p'.removals[k], p'.consumers[other])
    {
      assert RemovalOk(p, p.removals[k]);
    }
  }

  lemma RemoveKeeps(p: Provider, id: ConsumerId)
    requires Inv(p)
    ensures Inv(Do(p, RemoveConsumer(id)))
  {
    var p' := Do(p, RemoveConsumer(id));
    forall r | 0 <= r < |p'.requests| ensures LoopOk(p'.requests[r]) && Traced(p', r) {
      MoreRemovalsKeepTrace(p, Searching(id), r);
    }
    forall k | 0 <= k < |p'.removals| ensures RemovalOk(p', p'.removals[k]) {
      assert k < |p.removals| ==> RemovalOk(p, p.removals[k]);
    }
  }

  lemma MoreRemovalsKeepTrace(p: Provider, m: Removal, r: nat)
    requires r < |p.requests| && Traced(p, r)
    ensures Traced(p.(removals := p.removals + [m]), r)
  {
    if k :| 0 <= k < |p.removals| && Claims(p.removals[k], r) {
      assert Claims((p.removals + [m])[k], r);
    }
  }

  /** Removal k moves on: a request that it, or another, has taken stays taken. */
  lemma MovedRemovalKeepsTrace(p: Provider, p': Provider, k: nat, r: nat)
    requires r < |p.requests| == |p'.requests| && Traced(p, r) && p'.requests[r].id == p.requests[r].id
    requires k < |p.removals| == |p'.removals| && p'.removals == p.removals[k := p'.removals[k]] && !p'.removals[k].Searching?
    requires p.removals[k].Searching? || p'.removals[k].request == p.removals[k].request
    requires forall id :: id in p.consumers ==>
      (id in p'.consumers && p'.consumers[id] == p.consumers[id]) || p'.removals[k].request == p.consumers[id]
    ensures Traced(p', r)
  {
    if j :| 0 <= j < |p.removals| && Claims(p.removals[j], r) {
      assert Claims(p'.removals[j], r);
    } else {
      assert p.consumers[p.requests[r].id] == r;
      assert p'.removals[k].request == r ==> Claims(p'.removals[k], r);
    }
  }

  lemma TakeKeeps(p: Provider, k: nat)
    requires Inv(p) && Enabled(p, Take(k))
    ensures Inv(Do(p, Take(k)))
  {
    var p', id := Do(p, Take(k)), p.removals[k].id;
    forall r | 0 <= r < |p'.requests| ensures LoopOk(p'.requests[r]) && Traced(p', r) {
      MovedRemovalKeepsTrace(p, p', k, r);
    }
    forall j | 0 <= j < |p'.removals| ensures RemovalOk(p', p'.removals[j]) {
      assert RemovalOk(p, p.removals[j]);
    }
    TakeKeepsMap(p, k);
  }

  lemma TakeKeepsMap(p: Provider, k: nat)
    requires Inv(p) && Enabled(p, Take(k))
    ensures MapOk(Do(p, Take(k)))
  {
    var p', r := Do(p, Take(k)), p.consumers[p.removals[k].id];
    forall id, j | id in p'.consumers && 0 <= j < |p'.removals|
      ensures !Claims(p'.removals[j], p'.consumers[id])
    {
      assert p.requests[p.consumers[id]].id == id;
    }
  }

  lemma SetFlagKeeps(p: Provider, k: nat)
    requires Inv(p) && Enabled(p, SetFlag(k))
    ensures Inv(Do(p, SetFlag(k)))
  {
    var p', m := Do(p, SetFlag(k)), p.removals[k];
    assert RemovalOk(p, m);
    forall r | 0 <= r < |p'.requests| ensures LoopOk(p'.requests[r]) && Traced(p', r) {
      assert LoopOk(p.requests[r]);
      MovedRemovalKeepsTrace(p, p', k, r);
    }
    forall j | 0 <= j < |p'.removals| ensures RemovalOk(p', p'.removals[j]) {
      assert RemovalOk(p, p.removals[j]);
      assert j != k && !p.removals[j].Searching? ==> p.removals[j].request != m.request;
    }
    forall id | id in p'.consumers ensures p'.consumers[id] != m.request {
      assert !Claims(p.removals[k], p.consumers[id]);
    }
  }

  lemma NotifyKeeps(p: Provider, k: nat)
    requires Inv(p) && Enabled(p, Notify(k))
    ensures Inv(Do(p, Notify(k)))
  {
    var p' := Do(p, Notify(k));
    forall r | 0 <= r < |p'.requests| ensures LoopOk(p'.requests[r]) && Traced(p', r) {
      assert LoopOk(p.requests[r]);
      MovedRemovalKeepsTrace(p, p', k, r);
    }
    NotifyKeepsRemovals(p, k);
  }

  lemma NotifyKeepsRemovals(p: Provider, k: nat)
    requires Inv(p) && Enabled(p, Notify(k))
    ensures MapOk(Do(p, Notify(k)))
    ensures forall j :: 0 <= j < |p.removals| ==> RemovalOk(Do(p, Notify(k)), Do(p, Notify(k)).removals[j])
  {
    var p' := Do(p, Notify(k));
    forall j | 0 <= j < |p.removals| ensures RemovalOk(p', p'.removals[j]) {
      assert RemovalOk(p, p.removals[j]);
    }
  }

  lemma EraseKeeps(p: Provider, r: nat)
    requires Inv(p) && Enabled(p, Erase(r))
    ensures Inv(Do(p, Erase(r))) && Do(p, Erase(r)).consumers == p.consumers
  {
    assert LoopOk(p.requests[r]);
    EraseIsNoOp(p, r);
    assert SameFates(p, Do(p, Erase(r)));
    SameFatesKeeps(p, Do(p, Erase(r)));
    forall q | 0 <= q < |p.requests| ensures LoopOk(Do(p, Erase(r)).requests[q]) {
      assert LoopOk(p.requests[q]);
    }
  }

  lemma EraseIsNoOp(p: Provider, r: nat)
    requires Inv(p) && Enabled(p, Erase(r))
    ensures p.requests[r].id !in p.consumers && p.consumers - {p.requests[r].id} == p.consumers
  {
    assert LoopOk(p.requests[r]);
  }

  lemma DoKeepsInv(p: Provider, step: Step)
    requires Inv(p) && Enabled(p, step) && FreshRequest(p, step)
    ensures Inv(Do(p, step))
  {
    match step
    case RequestEvents(id, topic) => RequestKeeps(p, id, topic);
    case RemoveConsumer(id) => RemoveKeeps(p, id);
    case Take(k) => TakeKeeps(p, k);
    case SetFlag(k) => SetFlagKeeps(p, k);
    case Notify(k) => NotifyKeeps(p, k);
    case Erase(r) => EraseKeeps(p, r);
    case _ => LoopStepKeeps(p, step);
  }

  lemma {:induction false} AlwaysInv(p: Provider, steps: seq<Step>)
    requires Inv(p) && Allowed(p, steps, true)
    ensures Inv(DoAll(p, steps, true))
    decreases |steps|
  {
    if steps == [] {
    } else {
      DoKeepsInv(p, steps[0]);
      AlwaysInv(Do(p, steps[0]), steps[1..]);
    }
  }

  // ----- Results, over every run in which consumer ids are unique -----

  function After(steps: seq<Step>): Provider
    requires Allowed(NewProvider(), steps, true)
  {
    DoAll(NewProvider(), steps, true)
  }

  /** removeConsumer completes only when its consumer was registered and the stop flag of that consumer is set. */
  lemma RemoveCompletesOnlyAfterStop(steps: seq<Step>, k: nat)
    requires Allowed(NewProvider(), steps, true) && k < |After(steps).removals| && After(steps).removals[k].Complete?
    ensures var p := After(steps);
            var m := p.removals[k];
            m.request < |p.requests| && p.requests[m.request].id == m.id && p.requests[m.request].shouldStop
  {
    AlwaysInv(NewProvider(), steps);
    assert RemovalOk(After(steps), After(steps).removals[k]);
  }

  /** A consumer is told to stop only by a removeConsumer call that names it. */
  lemma OnlyTheRemovedIsStopped(steps: seq<Step>, r: nat)
    requires Allowed(NewProvider(), steps, true) && r < |After(steps).requests| && After(steps).requests[r].shouldStop
    ensures exists k :: 0 <= k < |After(steps).removals| && SetBy(After(steps).removals[k], r, After(steps).requests[r].id)
  {
    AlwaysInv(NewProvider(), steps);
    var p := After(steps);
    assert Traced(p, r);
    var k :| 0 <= k < |p.removals| && Claims(p.removals[k], r);
    assert RemovalOk(p, p.removals[k]);
    assert SetBy(p.removals[k], r, p.requests[r].id);
  }

  /**
   * A removal may arrive before its consumer: from the moment that consumer is registered the removal can go on,
   * unless another removal of the same consumer was faster.
   */
  lemma RemovalFindsItsConsumer(steps: seq<Step>, k: nat, r: nat)
    requires Allowed(NewProvider(), steps, true) && k < |After(steps).removals| && r < |After(steps).requests|
    requires After(steps).removals[k] == Searching(After(steps).requests[r].id)
    ensures Enabled(After(steps), Take(k))
       <==> forall j :: 0 <= j < |After(steps).removals| ==> !Claims(After(steps).removals[j], r)
  {
    AlwaysInv(NewProvider(), steps);
    var p := After(steps);
    assert Traced(p, r);
    if Enabled(p, Take(k)) {
      assert p.consumers[p.requests[r].id] == r;
    }
  }

  /** How many batches of request r a run feeds in states in which its stop flag is set. */
  function FedAfterStop(p: Provider, steps: seq<Step>, r: nat): nat
    requires Allowed(p, steps, true)
    decreases |steps|
  {
    if steps == [] then 0
    else
      (if steps[0] == FeedBatch(r) && p.requests[r].shouldStop then 1 else 0)
      + FedAfterStop(Do(p, steps[0]), steps[1..], r)
  }

  lemma {:induction false} LateIsFedAfterStop(p: Provider, steps: seq<Step>, r: nat)
    requires Allowed(p, steps, true) && r < |DoAll(p, steps, true).requests|
    ensures DoAll(p, steps, true).requests[r].late
         == (if r < |p.requests| then p.requests[r].late else 0) + FedAfterStop(p, steps, r)
    decreases |steps|
  {
    if steps != [] {
      LateIsFedAfterStop(Do(p, steps[0]), steps[1..], r);
    }
  }

  /** At most one batch is fed after the stop flag was set. */
  lemma AtMostOneLateBatch(steps: seq<Step>, r: nat)
    requires Allowed(NewProvider(), steps, true) && r < |After(steps).requests|
    ensures FedAfterStop(NewProvider(), steps, r) <= 1
  {
    AlwaysInv(NewProvider(), steps);
    LateIsFedAfterStop(NewProvider(), steps, r);
    assert LoopOk(After(steps).requests[r]);
  }

  // ----- What the calls of a run put into the state -----

  datatype Call = Call(id: ConsumerId, topic: nat)

  /** The requestEvents calls, in order. */
  function RequestCalls(steps: seq<Step>): seq<Call> {
    if steps == [] then []
    else
      (if steps[0].RequestEvents? then [Call(steps[0].id, steps[0].topic)] else []) + RequestCalls(steps[1..])
  }

  /** The ids of the removeConsumer calls, in order. */
  function RemoveCalls(steps: seq<Step>): seq<ConsumerId> {
    if steps == [] then [] else (if steps[0].RemoveConsumer? then [steps[0].id] else []) + RemoveCalls(steps[1..])
  }

  function CallsOf(requests: seq<Request>): (calls: seq<Call>)
    ensures |calls| == |requests|
    ensures forall r :: 0 <= r < |requests| ==> calls[r] == Call(requests[r].id, requests[r].topic)
  {
    seq(|requests|, r requires 0 <= r < |requests| => Call(requests[r].id, requests[r].topic))
  }

  function IdsOf(removals: seq<Removal>): (ids: seq<ConsumerId>)
    ensures |ids| == |removals|
    ensures forall k :: 0 <= k < |removals| ==> ids[k] == removals[k].id
  {
    seq(|removals|, k requires 0 <= k < |removals| => removals[k].id)
  }

  lemma StepAddsCalls(p: Provider, step: Step)
    requires Enabled(p, step)
    ensures CallsOf(Do(p, step).requests)
         == CallsOf(p.requests) + (if step.RequestEvents? then [Call(step.id, step.topic)] else [])
    ensures IdsOf(Do(p, step).removals) == IdsOf(p.removals) + (if step.RemoveConsumer? then [step.id] else [])
  {
  }

  /** In any run there is one request for each requestEvents call and one removal for each removeConsumer call. */
  lemma {:induction false} StateOfCalls(p: Provider, steps: seq<Step>, unique: bool)
    requires Allowed(p, steps, unique)
    ensures CallsOf(DoAll(p, steps, unique).requests) == CallsOf(p.requests) + RequestCalls(steps)
    ensures IdsOf(DoAll(p, steps, unique).removals) == IdsOf(p.removals) + RemoveCalls(steps)
    decreases |steps|
  {
    if steps != [] {
      var step := steps[0];
      StepAddsCalls(p, step);
      StateOfCalls(Do(p, step), steps[1..], unique);
      Bytes.Assoc(CallsOf(p.requests), if step.RequestEvents? then [Call(step.id, step.topic)] else [],
                  RequestCalls(steps[1..]));
      Bytes.Assoc(IdsOf(p.removals), if step.RemoveConsumer? then [step.id] else [], RemoveCalls(steps[1..]));
    }
  }

  // ----- The loop goes on, and comes to an end -----

  predicate IsIn(p: Provider, r: nat, phase: Phase) {
    r < |p.requests| && p.requests[r].phase == phase
  }

  lemma ThreeSteps(p: Provider, a: Step, b: Step, c: Step)
    requires Enabled(p, a) && Enabled(Do(p, a), b) && Enabled(Do(Do(p, a), b), c)
    ensures Allowed(p, [a, b, c], false) && DoAll(p, [a, b, c], false) == Do(Do(Do(p, a), b), c)
  {
    var p1 := Do(p, a);
    var p2 := Do(p1, b);
    assert [a, b, c][1..] == [b, c] && [b, c][1..] == [c] && [c][1..] == [];
    assert Allowed(p2, [c], false) && DoAll(p2, [c], false) == Do(p2, c);
    assert Allowed(p1, [b, c], false) && DoAll(p1, [b, c], false) == DoAll(p2, [c], false);
  }

  /**
   * New events of a topic wake exactly the loops that sleep on it. One that was not told to stop is then fed, and goes
   * on; one that was is not, and leaves.
   */
  lemma NewEventsAreFed(p: Provider, topic: nat, r: nat)
    requires IsIn(p, r, Asleep)
    ensures p.requests[r].topic != topic ==> IsIn(Do(p, NewEvents(topic)), r, Asleep)
    ensures p.requests[r].topic == topic && !p.requests[r].shouldStop ==>
              var steps := [NewEvents(topic), Look(r, true), FeedBatch(r)];
              Allowed(p, steps, false) && IsIn(DoAll(p, steps, false), r, Running)
    ensures p.requests[r].topic == topic && p.requests[r].shouldStop ==>
              var steps := [NewEvents(topic), Look(r, true), Erase(r)];
              Allowed(p, steps, false) && IsIn(DoAll(p, steps, false), r, Gone)
  {
    if p.requests[r].topic == topic {
      ThreeSteps(p, NewEvents(topic), Look(r, true), if p.requests[r].shouldStop then Erase(r) else FeedBatch(r));
    }
  }

  /** New events change nothing else: loops that do not sleep, and loops of other topics, are where they were. */
  lemma NewEventsWakeOnlySleepers(p: Provider, topic: nat, r: nat)
    requires r < |p.requests| && !(p.requests[r].phase.Asleep? && p.requests[r].topic == topic)
    ensures var p' := Do(p, NewEvents(topic));
            |p'.requests| == |p.requests| && p'.requests[r] == p.requests[r]
            && p'.consumers == p.consumers && p'.removals == p.removals
  {
  }

  /** A running loop that finds nothing to send sleeps, unless it was told to stop. */
  lemma NothingToSend(p: Provider, r: nat)
    requires IsIn(p, r, Running)
    ensures Enabled(p, Look(r, false))
    ensures p.requests[r].shouldStop ==> IsIn(Do(p, Look(r, false)), r, Left)
    ensures !p.requests[r].shouldStop ==>
              Enabled(Do(p, Look(r, false)), Sleep(r)) && IsIn(Do(Do(p, Look(r, false)), Sleep(r)), r, Asleep)
  {
  }

  /** requestEvents, removeConsumer and new events come at any time; a search goes on iff its consumer is registered. */
  lemma MayIff(p: Provider, id: ConsumerId, topic: nat, k: nat)
    ensures Enabled(p, RequestEvents(id, topic)) && Enabled(p, RemoveConsumer(id)) && Enabled(p, NewEvents(topic))
    ensures k < |p.removals| && p.removals[k] == Searching(id) ==> (Enabled(p, Take(k)) <==> id in p.consumers)
    ensures k < |p.removals| && p.removals[k].Holding? && RemovalOk(p, p.removals[k]) ==> Enabled(p, SetFlag(k))
    ensures k < |p.removals| && p.removals[k].Flagged? && RemovalOk(p, p.removals[k]) ==> Enabled(p, Notify(k))
  {
  }

  /** The end of requestEvents takes its id out of the map, and nothing else. */
  lemma EraseUnregisters(p: Provider, r: nat)
    requires IsIn(p, r, Left)
    ensures Enabled(p, Erase(r)) && p.requests[r].id !in Do(p, Erase(r)).consumers
    ensures forall id :: id != p.requests[r].id ==>
              (id in Do(p, Erase(r)).consumers <==> id in p.consumers)
              && (id in p.consumers ==> Do(p, Erase(r)).consumers[id] == p.consumers[id])
  {
  }

  /** removeConsumer of a registered consumer whose loop sleeps, to its end and to that of the loop. */
  lemma RemovalStopsTheLoop(p: Provider, id: ConsumerId)
    requires Inv(p) && id in p.consumers && IsIn(p, p.consumers[id], Asleep)
    ensures var r, k := p.consumers[id], |p.removals|;
            && Allowed(p, [RemoveConsumer(id), Take(k), SetFlag(k)], false)
            && var p' := DoAll(p, [RemoveConsumer(id), Take(k), SetFlag(k)], false);
               && Allowed(p', [Notify(k), Look(r, true), Erase(r)], false)
               && var end := DoAll(p', [Notify(k), Look(r, true), Erase(r)], false);
                  && k < |end.removals| && end.removals[k] == Complete(id, r)
                  && IsIn(end, r, Gone) && id !in end.consumers
  {
    var r, k := p.consumers[id], |p.removals|;
    ThreeSteps(p, RemoveConsumer(id), Take(k), SetFlag(k));
    ThreeSteps(Do(Do(Do(p, RemoveConsumer(id)), Take(k)), SetFlag(k)), Notify(k), Look(r, true), Erase(r));
  }

  /** The erase() at the end of requestEvents finds nothing to erase: it never drops another registration. */
  lemma LastEraseDropsNothing(steps: seq<Step>, r: nat)
    requires Allowed(NewProvider(), steps, true) && Enabled(After(steps), Erase(r))
    ensures Do(After(steps), Erase(r)).consumers == After(steps).consumers
  {
    AlwaysInv(NewProvider(), steps);
    EraseKeeps(After(steps), r);
  }

  // ----- Ids that are not unique -----

  /** No entry of the map and no removal leads to the request. */
  predicate Unreachable(p: Provider, r: nat) {
    && r < |p.requests|
    && (forall id :: id in p.consumers ==> p.consumers[id] != r)
    && (forall k :: 0 <= k < |p.removals| ==> !Claims(p.removals[k], r))
  }

  /** A request is registered iff no other one is at that moment registered under its id. */
  lemma RegisteredIff(p: Provider, id: ConsumerId, topic: nat)
    requires forall other :: other in p.consumers ==> p.consumers[other] < |p.requests|
    requires forall k :: 0 <= k < |p.removals| && !p.removals[k].Searching? ==> p.removals[k].request < |p.requests|
    ensures Unreachable(Do(p, RequestEvents(id, topic)), |p.requests|) <==> id in p.consumers
  {
    var p' := Do(p, RequestEvents(id, topic));
    if id !in p.consumers {
      assert p'.consumers[id] == |p.requests|;
    }
  }

  /** A request that was not registered is fed for ever: no continuation, unique ids or not, sets its stop flag. */
  lemma {:induction false} UnregisteredNeverStops(p: Provider, steps: seq<Step>, r: nat)
    requires Unreachable(p, r) && Allowed(p, steps, false)
    ensures var p' := DoAll(p, steps, false);
            Unreachable(p', r) && p'.requests[r].shouldStop == p.requests[r].shouldStop
    decreases |steps|
  {
    if steps == [] {
    } else {
      UnregisteredStays(p, steps[0], r);
      UnregisteredNeverStops(Do(p, steps[0]), steps[1..], r);
    }
  }

  lemma UnregisteredStays(p: Provider, step: Step, r: nat)
    requires Unreachable(p, r) && Enabled(p, step)
    ensures Unreachable(Do(p, step), r) && Do(p, step).requests[r].shouldStop == p.requests[r].shouldStop
  {
    match step
    case Take(k) => assert !Claims(Do(p, step).removals[k], r);
    case SetFlag(k) => assert !Claims(p.removals[k], r) && !Claims(Do(p, step).removals[k], r);
    case Notify(k) => assert !Claims(p.removals[k], r) && !Claims(Do(p, step).removals[k], r);
    case _ =>
  }

  // ----- The wake-up that can be lost -----

  /** The loop will look at its flag again without being notified. */
  predicate WillLook(q: Request) {
    q.shouldStop && (q.phase.Running? || q.phase.AboutToFeed? || q.phase.Left? || q.phase.Gone?)
  }

  lemma WillLookStays(p: Provider, step: Step, r: nat)
    requires r < |p.requests| && WillLook(p.requests[r]) && Enabled(p, step)
    ensures WillLook(Do(p, step).requests[r])
  {
  }

  lemma {:induction false} WillLookForever(p: Provider, steps: seq<Step>, r: nat)
    requires r < |p.requests| && WillLook(p.requests[r]) && Allowed(p, steps, false)
    ensures r < |DoAll(p, steps, false).requests| && WillLook(DoAll(p, steps, false).requests[r])
    decreases |steps|
  {
    if steps == [] {
    } else {
      WillLookStays(p, steps[0], r);
      WillLookForever(Do(p, steps[0]), steps[1..], r);
    }
  }

  ghost predicate CanOversleep(p: Provider, r: nat) {
    exists steps :: Allowed(p, steps, false) && r < |DoAll(p, steps, false).requests|
                    && DoAll(p, steps, false).requests[r].phase.Asleep?
  }

  /**
   * removeConsumer notifies without the mutex of the log. After its notification the stopped loop can still fall
   * asleep, not to wake before the next event or removal, if and only if the notification came between the loop's
   * look at the flag and its sleep.
   */
  lemma WakeUpIsLostIff(p: Provider, k: nat)
    requires Enabled(p, Notify(k)) && p.requests[p.removals[k].request].shouldStop
    ensures CanOversleep(Do(p, Notify(k)), p.removals[k].request)
       <==> p.requests[p.removals[k].request].phase.AboutToSleep?
  {
    var r, p' := p.removals[k].request, Do(p, Notify(k));
    if p.requests[r].phase.AboutToSleep? {
      var steps := [Sleep(r)];
      assert Allowed(p', steps, false) by { assert steps[1..] == []; }
      assert DoAll(p', steps, false) == Do(p', Sleep(r)) by { assert steps[1..] == []; }
    } else if CanOversleep(p', r) {
      var steps :| Allowed(p', steps, false) && r < |DoAll(p', steps, false).requests|
                   && DoAll(p', steps, false).requests[r].phase.Asleep?;
      WillLookForever(p', steps, r);
    }
  }
}
