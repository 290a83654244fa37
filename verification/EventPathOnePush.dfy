/** A run that delivers: one push of a new producer, by steps that are all allowed, reaches the log and its future. */
module EventPathOnePush {
  import opened Bytes
  import BatchQueues
  import opened EventPath

  /** push(), and its ULT up to the queue. */
  function UpToQueue<V>(t: Target, event: V): seq<Action<V>> {
    [PushCall(event), Post(0), Select(0, t), EnqueueNext(0)]
  }

  /** The loop from its start, and a flush() that makes it take the batch. */
  function UpToSending<V>(t: Target): seq<Action<V>> {
    [StartLoop(t), FlushQueue(t), PassLoop(t)]
  }

  /** The producer once its first push is enqueued, with the lane of its target as it is then. */
  function With<V>(prod: Producer<V>, t: Target, event: V, lane: Lane<V>): Producer<V> {
    Producer(prod.strict, prod.batchSize, [event], [Enqueued(t, false)], 1, 1, map[t := lane], map[])
  }

  lemma OneLane<V>(t: Target, a: Lane<V>, b: Lane<V>)
    ensures map[t := a][t := b] == map[t := b] && map[][t := b] == map[t := b]
  {
  }

  lemma UltSteps<V>(prod: Producer<V>, p: nat, t: Target, event: V)
    requires prod == NewProducer(prod.strict, prod.batchSize) && prod.batchSize >= 1
    ensures var prod1 := Act(prod, p, PushCall(event), 0);
            && Enabled(prod1, Action<V>.Post(0))
            && var prod2 := Act(prod1, p, Post(0), 0);
               && Enabled(prod2, Action<V>.Select(0, t))
               && var prod3 := Act(prod2, p, Select(0, t), 0);
                  && Enabled(prod3, Action<V>.EnqueueNext(0))
                  && Act(prod3, p, EnqueueNext(0), 0) == With(prod, t, event, Lane(Queued(Entry(Id(p, 0), event)), NoReply))
  {
    var prod3 := Act(Act(Act(prod, p, PushCall(event), 0), p, Post(0), 0), p, Select(0, t), 0);
    assert prod3 == Producer(prod.strict, prod.batchSize, [event], [Waiting(t)], 0, 1, map[], map[]);
    FirstPushed(prod.batchSize, Entry(Id(p, 0), event));
  }

  function Queued<V>(e: Entry<V>): BatchQueues.Queue<Entry<V>> {
    BatchQueues.Queue([[e]], BatchQueues.NotStarted, false, false, false)
  }

  /** While the batch is sent; the flush request is still set. */
  function Sending<V>(e: Entry<V>): BatchQueues.Queue<Entry<V>> {
    BatchQueues.Queue([], BatchQueues.Sending([e]), true, false, true)
  }

  lemma FirstPushed<V>(batchSize: SizeT, e: Entry<V>)
    requires batchSize >= 1
    ensures BatchQueues.Pushed(BatchQueues.Empty(), batchSize, e) == Queued(e)
  {
    var batches := BatchQueues.Opened<Entry<V>>([], batchSize);
    assert batches == [[]] && BatchQueues.Last(batches) + [e] == [e];
    assert batches[..0] + [[e]] == [[e]];
  }

  lemma LoopSteps<V>(prod: Producer<V>, p: nat, t: Target, event: V)
    ensures var e := Entry(Id(p, 0), event);
            var prod4 := With(prod, t, event, Lane(Queued(e), NoReply));
            && Enabled(prod4, Action<V>.StartLoop(t))
            && var prod5 := Act(prod4, p, StartLoop(t), 0);
               && Enabled(prod5, Action<V>.FlushQueue(t))
               && var prod6 := Act(prod5, p, FlushQueue(t), 0);
                  && Enabled(prod6, Action<V>.PassLoop(t))
                  && Act(prod6, p, PassLoop(t), 0) == With(prod, t, event, Lane(Sending(e), NoReply))
  {
    var e := Entry(Id(p, 0), event);
    var prod5 := Act(With(prod, t, event, Lane(Queued(e), NoReply)), p, StartLoop(t), 0);
    var q5 := prod5.lanes[t].q;
    OneLane(t, Lane(Queued(e), NoReply), Lane(q5, NoReply));
    assert prod5 == With(prod, t, event, Lane(q5, NoReply));
    var prod6 := Act(prod5, p, FlushQueue(t), 0);
    var q6 := prod6.lanes[t].q;
    OneLane(t, Lane(q5, NoReply), Lane(q6, NoReply));
    OneLane(t, Lane(q6, NoReply), Lane(Sending(e), NoReply));
    assert BatchQueues.Look(q6, prod.batchSize) == Sending(e);
  }

  lemma Settles<V>(prod: Producer<V>, p: nat, t: Target, event: V, n: nat)
    ensures var prod7 := With(prod, t, event, Lane(Sending(Entry(Id(p, 0), event)), NoReply));
            && Enabled(prod7, Action<V>.Append(t))
            && var prod8 := Act(prod7, p, Append(t), n);
               && Enabled(prod8, Action<V>.Settle(t))
               && Act(prod8, p, Settle(t), 0).outcomes == map[0 := Resolved(t, n)]
  {
    var e := Entry(Id(p, 0), event);
    var prod7 := With(prod, t, event, Lane(Sending(e), NoReply));
    var prod8 := Act(prod7, p, Append(t), n);
    assert prod8.lanes[t] == Lane(Sending(e), Accepted(n));
    assert Fulfilled(map[], [e], t, Accepted(n), 0) == map[];
    assert Fulfilled(map[], [e], t, Accepted(n), 1) == map[0 := Resolved(t, n)];
  }

  // ----- The same steps in a system -----

  lemma StepFirst<V>(s: System<V>, step: Step<V>, rest: seq<Step<V>>)
    requires EnabledStep(s, step) && Allowed(Do(s, step), rest)
    ensures Allowed(s, [step] + rest) && DoAll(s, [step] + rest) == DoAll(Do(s, step), rest)
  {
    assert ([step] + rest)[1..] == rest;
  }

  /** A step of the producer that appends nothing. */
  lemma OwnStep<V>(s: System<V>, p: nat, a: Action<V>)
    requires p in s.producers && Enabled(s.producers[p], a) && !a.Append? && !a.Lose?
    ensures EnabledStep(s, Step(p, a)) && Do(s, Step(p, a)) == SetProducer(s, p, Act(s.producers[p], p, a, 0))
  {
  }

  function SetProducer<V>(s: System<V>, p: nat, prod: Producer<V>): System<V> {
    System(s.producers[p := prod], s.logs)
  }

  /** Actions that append nothing, one after the other. */
  ghost predicate ActsTo<V>(prod: Producer<V>, p: nat, actions: seq<Action<V>>, end: Producer<V>)
    decreases |actions|
  {
    if actions == [] then prod == end
    else
      var a := actions[0];
      Enabled(prod, a) && !a.Append? && !a.Lose? && ActsTo(Act(prod, p, a, 0), p, actions[1..], end)
  }

  function StepsOf<V>(p: nat, actions: seq<Action<V>>): seq<Step<V>> {
    if actions == [] then [] else [Step(p, actions[0])] + StepsOf(p, actions[1..])
  }

  lemma {:induction false} ActsInSystem<V>(s: System<V>, p: nat, actions: seq<Action<V>>, end: Producer<V>, rest: seq<Step<V>>)
    requires p in s.producers && ActsTo(s.producers[p], p, actions, end)
    requires Allowed(SetProducer(s, p, end), rest)
    ensures Allowed(s, StepsOf(p, actions) + rest)
    ensures DoAll(s, StepsOf(p, actions) + rest) == DoAll(SetProducer(s, p, end), rest)
    decreases |actions|
  {
    if actions == [] {
      assert SetProducer(s, p, end) == s;
      assert [] + rest == rest;
    } else {
      OwnStep(s, p, actions[0]);
      var s' := Do(s, Step(p, actions[0]));
      assert SetProducer(s', p, end) == SetProducer(s, p, end);
      ActsInSystem(s', p, actions[1..], end, rest);
      StepFirst(s, Step(p, actions[0]), StepsOf(p, actions[1..]) + rest);
      Assoc([Step(p, actions[0])], StepsOf(p, actions[1..]), rest);
    }
  }

  lemma ActsFirst<V>(prod: Producer<V>, p: nat, actions: seq<Action<V>>, end: Producer<V>)
    requires actions != [] && Enabled(prod, actions[0]) && !actions[0].Append? && !actions[0].Lose?
    requires ActsTo(Act(prod, p, actions[0], 0), p, actions[1..], end)
    ensures ActsTo(prod, p, actions, end)
  {
  }

  lemma ReachesQueue<V>(prod: Producer<V>, p: nat, t: Target, event: V)
    requires prod == NewProducer(prod.strict, prod.batchSize) && prod.batchSize >= 1
    ensures ActsTo(prod, p, UpToQueue(t, event), With(prod, t, event, Lane(Queued(Entry(Id(p, 0), event)), NoReply)))
  {
    var actions, end := UpToQueue(t, event), With(prod, t, event, Lane(Queued(Entry(Id(p, 0), event)), NoReply));
    UltSteps(prod, p, t, event);
    var prod1 := Act(prod, p, PushCall(event), 0);
    var prod2 := Act(prod1, p, Post(0), 0);
    var prod3 := Act(prod2, p, Select(0, t), 0);
    assert ActsTo(Act(prod3, p, EnqueueNext(0), 0), p, [], end);
    ActsFirst(prod3, p, actions[3..], end);
    ActsFirst(prod2, p, actions[2..], end);
    ActsFirst(prod1, p, actions[1..], end);
    ActsFirst(prod, p, actions, end);
  }

  lemma ReachesSending<V>(prod: Producer<V>, p: nat, t: Target, event: V)
    ensures var e := Entry(Id(p, 0), event);
            ActsTo(With(prod, t, event, Lane(Queued(e), NoReply)), p, UpToSending(t),
                   With(prod, t, event, Lane(Sending(e), NoReply)))
  {
    var actions, e := UpToSending<V>(t), Entry(Id(p, 0), event);
    var end := With(prod, t, event, Lane(Sending(e), NoReply));
    LoopSteps(prod, p, t, event);
    var prod4 := With(prod, t, event, Lane(Queued(e), NoReply));
    var prod5 := Act(prod4, p, StartLoop(t), 0);
    var prod6 := Act(prod5, p, FlushQueue(t), 0);
    assert ActsTo(Act(prod6, p, PassLoop(t), 0), p, [], end);
    ActsFirst(prod6, p, actions[2..], end);
    ActsFirst(prod5, p, actions[1..], end);
    ActsFirst(prod4, p, actions, end);
  }

  lemma SendingIsSettled<V>(s: System<V>, p: nat, t: Target, prod: Producer<V>, event: V)
    requires p in s.producers && s.producers[p] == With(prod, t, event, Lane(Sending(Entry(Id(p, 0), event)), NoReply))
    ensures var steps := [Step(p, Append(t)), Step(p, Settle(t))];
            && Allowed(s, steps)
            && var end := DoAll(s, steps);
               && LogOf(end, t) == LogOf(s, t) + [Entry(Id(p, 0), event)]
               && p in end.producers && end.producers[p].outcomes == map[0 := Resolved(t, |LogOf(s, t)|)]
  {
    Settles(prod, p, t, event, |LogOf(s, t)|);
    var s1 := Do(s, Step(p, Append(t)));
    var s2 := Do(s1, Step(p, Settle(t)));
    StepFirst(s1, Step(p, Settle(t)), []);
    StepFirst(s, Step(p, Append(t)), [Step(p, Settle(t))]);
    assert DoAll(s2, []) == s2;
    assert [Step(p, Settle(t))] + [] == [Step(p, Action<V>.Settle(t))];
    assert [Step(p, Append(t))] + [Step(p, Settle(t))] == [Step(p, Action<V>.Append(t)), Step(p, Settle(t))];
  }

  /**
   * From any state, whatever is in the logs: the first push of a producer that has not pushed, by these allowed steps,
   * is stored behind what the log holds, and its future resolves to its place there.
   */
  lemma OnePushIsDelivered<V>(s: System<V>, p: nat, t: Target, event: V)
    requires p in s.producers && s.producers[p].batchSize >= 1
    requires s.producers[p] == NewProducer(s.producers[p].strict, s.producers[p].batchSize)
    ensures var steps := StepsOf(p, UpToQueue(t, event))
                         + (StepsOf(p, UpToSending(t)) + [Step(p, Append(t)), Step(p, Settle(t))]);
            && Allowed(s, steps)
            && var end := DoAll(s, steps);
               && LogOf(end, t) == LogOf(s, t) + [Entry(Id(p, 0), event)]
               && p in end.producers && end.producers[p].outcomes == map[0 := Resolved(t, |LogOf(s, t)|)]
  {
    var prod, e := s.producers[p], Entry(Id(p, 0), event);
    var queued, sending := With(prod, t, event, Lane(Queued(e), NoReply)), With(prod, t, event, Lane(Sending(e), NoReply));
    var s4 := SetProducer(s, p, queued);
    var settle := [Step(p, Action<V>.Append(t)), Step(p, Settle(t))];
    ReachesQueue(prod, p, t, event);
    ReachesSending(prod, p, t, event);
    SendingIsSettled(SetProducer(s4, p, sending), p, t, prod, event);
    ActsInSystem(s4, p, UpToSending(t), sending, settle);
    ActsInSystem(s, p, UpToQueue(t, event), queued, StepsOf(p, UpToSending(t)) + settle);
  }
}
