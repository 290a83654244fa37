/**
 * The path of events from any number of producers to the logs of any number of targets, as a state machine.
 *
 * A step is an atomic stretch of code: the allocation of a local id, a critical section of the producer, a step of
 * a batch queue (module BatchQueues), the append that the server does under its own mutex, or the fulfilment of the
 * promises of one batch. Any interleaving of the steps of all producers, queues and servers is a run.
 */
module EventPath {
  import opened Bytes
  import opened Wrappers
  import opened BatchQueues

  type Target = nat

  /** Which push() call an event comes from: the producer, and its local event id. */
  datatype Id = Id(producer: nat, local: nat)

  datatype Entry<V> = Entry(id: Id, event: V)

  /** The ULT of one push: created with its local id, posted to the pool, selected a target, enqueued or rejected. */
  datatype Ult = Created | Posted | Waiting(target: Target) | Enqueued(target: Target, left: bool) | Rejected(left: bool)

  /** What the future of a push resolves to. */
  datatype Outcome = Resolved(target: Target, id: nat) | Errored

  /** What the sender knows about the batch it is sending. */
  datatype Reply = NoReply | Accepted(firstId: nat) | Failed

  datatype Lane<V> = Lane(q: Queue<Entry<V>>, reply: Reply)

  datatype Producer<V> = Producer(strict: bool, batchSize: SizeT, events: seq<V>, ults: seq<Ult>,
                                  ready: nat, posted: int,
                                  lanes: map<Target, Lane<V>>, outcomes: map<nat, Outcome>)

  datatype System<V> = System(producers: map<nat, Producer<V>>, logs: map<Target, seq<Entry<V>>>)

  function LaneOf<V>(prod: Producer<V>, t: Target): Lane<V> {
    if t in prod.lanes then prod.lanes[t] else Lane(Empty(), NoReply)
  }

  function LogOf<V>(s: System<V>, t: Target): seq<Entry<V>> {
    if t in s.logs then s.logs[t] else []
  }

  function NewProducer<V>(strict: bool, batchSize: SizeT): Producer<V> {
    Producer(strict, batchSize, [], [], 0, 0, map[], map[])
  }

  // ----- Steps of one producer -----

  datatype Action<V> =
    | PushCall(event: V)
    | Post(local: nat)
    | Select(local: nat, target: Target)
    | Reject(local: nat)
    | EnqueueNext(local: nat)
    | Leave(local: nat)
    | StartLoop(target: Target)
    | FlushQueue(target: Target)
    | StopQueue(target: Target)
    | WakeLoop(target: Target)
    | PassLoop(target: Target)
    | Append(target: Target)
    | Lose(target: Target, appended: bool)
    | Settle(target: Target)

  /** validate() and selectTargetFor() have returned; Strict also waits for its turn. */
  predicate MayEnqueue<V>(prod: Producer<V>, l: nat) {
    l < |prod.ults| && prod.ults[l].Waiting? && (prod.strict ==> l == prod.ready)
  }

  predicate Enabled<V>(prod: Producer<V>, a: Action<V>) {
    match a
    case PushCall(_) => true
    case Post(l) => l < |prod.ults| && prod.ults[l].Created?
    case Select(l, _) => l < |prod.ults| && prod.ults[l].Posted?
    case Reject(l) => l < |prod.ults| && prod.ults[l].Posted?
    case EnqueueNext(l) => MayEnqueue(prod, l) && l < |prod.events|
    case Leave(l) => l < |prod.ults| && (prod.ults[l].Enqueued? || prod.ults[l].Rejected?) && !prod.ults[l].left
    case StartLoop(t) => t in prod.lanes && prod.lanes[t].q.sender.NotStarted?
    case FlushQueue(t) => t in prod.lanes
    case StopQueue(t) => t in prod.lanes
    case WakeLoop(t) => t in prod.lanes && prod.lanes[t].q.sender.Asleep?
    case PassLoop(t) => t in prod.lanes && prod.lanes[t].q.sender.AtTop?
    case Append(t) => Sends(prod, t)
    case Lose(t, _) => Sends(prod, t)
    case Settle(t) => t in prod.lanes && prod.lanes[t].q.sender.Sending? && !prod.lanes[t].reply.NoReply?
  }

  predicate Sends<V>(prod: Producer<V>, t: Target) {
    t in prod.lanes && prod.lanes[t].q.sender.Sending? && prod.lanes[t].reply.NoReply?
  }

  function SetUlt<V>(prod: Producer<V>, l: nat, u: Ult): Producer<V>
    requires l < |prod.ults|
  {
    prod.(ults := prod.ults[l := u])
  }

  function SetLane<V>(prod: Producer<V>, t: Target, lane: Lane<V>): Producer<V> {
    prod.(lanes := prod.lanes[t := lane])
  }

  function SetQueue<V>(prod: Producer<V>, t: Target, q: Queue<Entry<V>>): Producer<V>
    requires t in prod.lanes
  {
    SetLane(prod, t, prod.lanes[t].(q := q))
  }

  /** setPromises for the first n entries of a batch. */
  function Fulfilled<V>(outcomes: map<nat, Outcome>, batch: seq<Entry<V>>, t: Target, reply: Reply, n: nat): map<nat, Outcome>
    requires n <= |batch|
  {
    if n == 0 then outcomes
    else Fulfilled(outcomes, batch, t, reply, n - 1)[batch[n - 1].id.local := OutcomeFor(t, reply, n - 1)]
  }

  function OutcomeFor(t: Target, reply: Reply, i: nat): Outcome {
    if reply.Accepted? then Resolved(t, reply.firstId + i) else Errored
  }

  /** The producer after an action; logLength is the length of the log of the target, for an append. */
  function Act<V>(prod: Producer<V>, p: nat, a: Action<V>, logLength: nat): Producer<V>
    requires Enabled(prod, a)
  {
    match a
    case PushCall(event) => prod.(events := prod.events + [event], ults := prod.ults + [Created])
    case Post(l) => SetUlt(prod, l, Posted).(posted := prod.posted + 1)
    case Select(l, t) => SetUlt(prod, l, Waiting(t))
    case Reject(l) =>
      SetUlt(prod, l, Rejected(false)).(ready := prod.ready + 1, outcomes := prod.outcomes[l := Errored])
    case EnqueueNext(l) =>
      var t := prod.ults[l].target;
      var lane := LaneOf(prod, t);
      var q := Pushed(lane.q, prod.batchSize, Entry(Id(p, l), prod.events[l]));
      SetLane(SetUlt(prod, l, Enqueued(t, false)).(ready := prod.ready + 1), t, lane.(q := q))
    case Leave(l) => SetUlt(prod, l, prod.ults[l].(left := true)).(posted := prod.posted - 1)
    case StartLoop(t) => SetQueue(prod, t, prod.lanes[t].q.(sender := AtTop, running := true))
    case FlushQueue(t) => SetQueue(prod, t, Flushed(prod.lanes[t].q))
    case StopQueue(t) => SetQueue(prod, t, Stopped(prod.lanes[t].q))
    case WakeLoop(t) => SetQueue(prod, t, Notified(prod.lanes[t].q))
    case PassLoop(t) => SetQueue(prod, t, Look(prod.lanes[t].q, prod.batchSize))
    case Append(t) => SetLane(prod, t, prod.lanes[t].(reply := Accepted(logLength)))
    case Lose(t, _) => SetLane(prod, t, prod.lanes[t].(reply := Failed))
    case Settle(t) =>
      var lane := prod.lanes[t];
      var batch := lane.q.sender.batch;
      SetLane(prod, t, Lane(Returned(lane.q, prod.batchSize), NoReply))
      .(outcomes := Fulfilled(prod.outcomes, batch, t, lane.reply, |batch|))
  }

  /** The target whose log an action appends to, and what it appends. */
  function Appended<V>(prod: Producer<V>, a: Action<V>): Option<(Target, seq<Entry<V>>)>
    requires Enabled(prod, a)
  {
    match a
    case Append(t) => Some((t, prod.lanes[t].q.sender.batch))
    case Lose(t, true) => Some((t, prod.lanes[t].q.sender.batch))
    case _ => None
  }

  // ----- Runs of the system -----

  datatype Step<V> = Step(producer: nat, action: Action<V>)

  predicate EnabledStep<V>(s: System<V>, step: Step<V>) {
    step.producer in s.producers && Enabled(s.producers[step.producer], step.action)
  }

  function LogLength<V>(s: System<V>, a: Action<V>): nat {
    if a.Append? then |LogOf(s, a.target)| else 0
  }

  function Do<V>(s: System<V>, step: Step<V>): System<V>
    requires EnabledStep(s, step)
  {
    var prod := s.producers[step.producer];
    var producers := s.producers[step.producer := Act(prod, step.producer, step.action, LogLength(s, step.action))];
    match Appended(prod, step.action)
    case None => System(producers, s.logs)
    case Some((t, batch)) => System(producers, s.logs[t := LogOf(s, t) + batch])
  }

  predicate Allowed<V>(s: System<V>, steps: seq<Step<V>>)
    decreases |steps|
  {
    steps == [] || (EnabledStep(s, steps[0]) && Allowed(Do(s, steps[0]), steps[1..]))
  }

  function DoAll<V>(s: System<V>, steps: seq<Step<V>>): System<V>
    requires Allowed(s, steps)
    decreases |steps|
  {
    if steps == [] then s else DoAll(Do(s, steps[0]), steps[1..])
  }

  /** Any producers, none of which has pushed anything, and empty logs. */
  ghost predicate IsInitial<V(!new)>(s: System<V>) {
    && s.logs == map[]
    && forall p :: p in s.producers ==> exists strict, batchSize :: s.producers[p] == NewProducer(strict, batchSize)
  }
}
