/**
 * From the future of a push to the future of a pull: any interleaving of producers, queues and servers, any
 * interleaving of a target's sessions with its appends, and any interleaving of targets and pull() calls.
 */
module EndToEnd {
  import opened Bytes
  import opened Wrappers
  import opened TopicLog
  import opened ProducerBatches
  import opened Consumers
  import opened Delivery
  import EventPath
  import EventPathCalls
  import EventPathResults
  import Pairing
  import Sessions
  import opened Arrivals
  import opened Streams

  datatype PushArgs = PushArgs(metadata: Blob, segments: seq<Blob>)

  /** What fits into the address space of the producer. */
  predicate Fits(a: PushArgs) {
    SIZE_T_BYTES + |a.metadata| < SIZE_T_LIMIT && |Concat(a.segments)| < SIZE_T_LIMIT
  }

  type Push = a: PushArgs | Fits(a) witness PushArgs([], [])

  /** The log of a target as its topic manager stores it: TopicLog.Stores relates it to the arrays. */
  function Stored(log: seq<EventPath.Entry<Push>>): (events: seq<Event>)
    ensures |events| == |log|
    ensures forall i :: 0 <= i < |log| ==> events[i] == PushedEvent(log[i].event.metadata, log[i].event.segments)
  {
    seq(|log|, i requires 0 <= i < |log| => PushedEvent(log[i].event.metadata, log[i].event.segments))
  }

  /**
   * The append of the state machine is receiveBatch: on arrays that store the log of the target, a call with the
   * batch packed leaves arrays that store the log after the step, and the id it returns is the one the reply holds.
   */
  lemma AppendIsReceiveBatch(s: EventPath.System<Push>, p: nat, t: EventPath.Target, a: Arrays)
    requires EventPath.EnabledStep(s, EventPath.Step(p, EventPath.Append(t))) && Stores(a, Stored(EventPath.LogOf(s, t)))
    requires var events := Stored(s.producers[p].lanes[t].q.sender.batch);
             RoomForBatch(a, |events|, BulkBytes(Metas(events)), BulkBytes(Datas(events)))
    ensures var events := Stored(s.producers[p].lanes[t].q.sender.batch);
            var s' := EventPath.Do(s, EventPath.Step(p, EventPath.Append(t)));
            && Stores(Receive(a, |events|, BulkBytes(Metas(events)), BulkBytes(Datas(events))),
                      Stored(EventPath.LogOf(s', t)))
            && s'.producers[p].lanes[t].reply == EventPath.Accepted(|a.metadata.sizes|)
  {
    var log, batch := EventPath.LogOf(s, t), s.producers[p].lanes[t].q.sender.batch;
    ReceiveStores(a, Stored(log), Stored(batch));
    StoredAppend(log, batch);
  }

  lemma StoredAppend(a: seq<EventPath.Entry<Push>>, b: seq<EventPath.Entry<Push>>)
    ensures Stored(a + b) == Stored(a) + Stored(b)
  {
  }

  /** What the consumer makes of entry n of a log. */
  function Made(options: DataOptions, log: seq<Event>, n: nat): Result<Delivered>
    requires n < |log|
  {
    Outcome(options, n, log[n], IssuedFor(log, n))
  }

  /** It is the pushed event, if the consumer wants no data, or all of it. */
  predicate Right(options: DataOptions, log: seq<Event>, n: nat, push: Push)
    requires n < |log|
  {
    && (options.NoData? ==> Made(options, log, n) == Success(Delivered(n, push.metadata, [])))
    && (WantsAll(options, push.metadata, IssuedFor(log, n)) ==>
          Made(options, log, n) == Success(Delivered(n, push.metadata, Concat(push.segments))))
  }

  lemma StoredIsRight(events: seq<Event>, n: nat, push: Push, options: DataOptions, later: seq<Event>)
    requires n < |events| && events[n] == PushedEvent(push.metadata, push.segments)
    ensures Right(options, events + later, n, push)
  {
    PulledIsPushed(events[..n], push.metadata, push.segments, events[n + 1..] + later, options);
    assert events[..n] + [events[n]] + (events[n + 1..] + later) == events + later;
  }

  /** The future of push l of producer p has resolved to id n of target t. */
  ghost predicate ResolvedTo(s: EventPath.System<Push>, p: nat, l: nat, t: EventPath.Target, n: nat) {
    && p in s.producers && l in s.producers[p].outcomes
    && s.producers[p].outcomes[l] == EventPath.Resolved(t, n)
  }

  /**
   * Any push() call whose future has resolved to id n of a target, in any run of the event path: whoever is fed entry n
   * of that target, now or after any later appends, gets id n, the pushed metadata and the pushed data.
   */
  lemma ResolvedIsDelivered(initial: EventPath.System<Push>, path: seq<EventPath.Step<Push>>,
                            p: nat, l: nat, t: EventPath.Target, n: nat, options: DataOptions, later: seq<Event>)
    requires EventPath.IsInitial(initial) && EventPath.Allowed(initial, path)
    requires ResolvedTo(EventPath.DoAll(initial, path), p, l, t, n)
    ensures var log := Stored(EventPath.LogOf(EventPath.DoAll(initial, path), t)) + later;
            var arguments := EventPathCalls.Arguments(path, p);
            l < |arguments| && n < |log| && Right(options, log, n, arguments[l])
  {
    EventPathResults.FutureNamesItsEvent(initial, path, p, l);
    StoredIsRight(Stored(EventPath.LogOf(EventPath.DoAll(initial, path), t)), n, EventPathCalls.Arguments(path, p)[l],
                  options, later);
  }

  /** The same on any log that goes on from that of the run. */
  lemma ResolvedIsMade(initial: EventPath.System<Push>, path: seq<EventPath.Step<Push>>,
                       p: nat, l: nat, t: EventPath.Target, n: nat, options: DataOptions, log: seq<Event>)
    requires EventPath.IsInitial(initial) && EventPath.Allowed(initial, path)
    requires ResolvedTo(EventPath.DoAll(initial, path), p, l, t, n)
    requires Stored(EventPath.LogOf(EventPath.DoAll(initial, path), t)) <= log
    ensures l < |EventPathCalls.Arguments(path, p)| && n < |log|
    ensures Right(options, log, n, EventPathCalls.Arguments(path, p)[l])
  {
    var stored := Stored(EventPath.LogOf(EventPath.DoAll(initial, path), t));
    assert log == stored + log[|stored|..];
    ResolvedIsDelivered(initial, path, p, l, t, n, options, log[|stored|..]);
  }

  // ----- One session among several targets -----

  /**
   * What a consumer has received from target t so far: the front of the stream of its session there, none of whose
   * feed() calls failed. Nothing is said of what it has received from other targets.
   */
  ghost predicate Receives(options: DataOptions, t: nat, arrivals: seq<Arrival<Result<Delivered>>>,
                           feeds: seq<Sessions.Step<Event>>, i: nat) {
    && Sessions.FromNew(feeds) && i < |Sessions.After(feeds).sessions| && Sessions.AllReached(feeds, i)
    && From(t, arrivals) <= Stream(options, Sessions.NewTopic(), feeds, i)
  }

  /** Arrival m from a target is what the consumer makes of entry start + m of its log, as long as it may have grown. */
  lemma ArrivalIsEntry(options: DataOptions, t: nat, arrivals: seq<Arrival<Result<Delivered>>>,
                       feeds: seq<Sessions.Step<Event>>, i: nat, m: nat)
    requires Receives(options, t, arrivals, feeds, i) && m < |From(t, arrivals)|
    ensures var topic := Sessions.After(feeds);
            var n := topic.sessions[i].start + m;
            n < |topic.log| && From(t, arrivals)[m] == Made(options, topic.log, n)
  {
    SessionStream(options, feeds, i);
    var stream, start := Stream(options, Sessions.NewTopic(), feeds, i), Sessions.After(feeds).sessions[i].start;
    assert From(t, arrivals)[m] == stream[m] == OutcomeAt(options, Sessions.After(feeds).log, start, m);
  }

  lemma MadeHasId(options: DataOptions, log: seq<Event>, n: nat)
    requires n < |log| && Made(options, log, n).Success?
    ensures Made(options, log, n).value.id == n
  {
  }

  /** Pull k returns the result of entry n of target t, and no other pull returns an event of t with that id. */
  ghost predicate OnlyPullOf(credit: bool, steps: seq<Pairing.Step<Arrival<Result<Delivered>>>>, k: nat, t: nat, n: nat,
                             result: Result<Delivered>) {
    var c := Pairing.DoAll(Pairing.Initial(credit), steps);
    && Pairing.Gets(c, k, Arrival(t, result))
    && forall j, d :: 0 <= j < Pairing.Pulls(steps) && Pairing.Gets(c, j, Arrival(t, Success(d))) && d.id == n ==> j == k
  }

  /**
   * For every interleaving of pull() calls with arrivals from any targets: entry n of the log of target t is what the
   * pull of its position returns, and no other pull returns an event of t with that id.
   */
  lemma EntryIsPulledOnce(options: DataOptions, t: nat, feeds: seq<Sessions.Step<Event>>, i: nat, n: nat,
                          credit: bool, steps: seq<Pairing.Step<Arrival<Result<Delivered>>>>)
    requires Receives(options, t, Pairing.Events(steps), feeds, i)
    requires var start := Sessions.After(feeds).sessions[i].start;
             start <= n < start + |From(t, Pairing.Events(steps))|
             && Position(t, Pairing.Events(steps), n - start) < Pairing.Pulls(steps)
    ensures n < |Sessions.After(feeds).log|
    ensures var k := Position(t, Pairing.Events(steps), n - Sessions.After(feeds).sessions[i].start);
            OnlyPullOf(credit, steps, k, t, n, Made(options, Sessions.After(feeds).log, n))
  {
    var arrivals, start, log := Pairing.Events(steps), Sessions.After(feeds).sessions[i].start, Sessions.After(feeds).log;
    var c := Pairing.DoAll(Pairing.Initial(credit), steps);
    ArrivalIsEntry(options, t, arrivals, feeds, i, n - start);
    PullOfTarget(credit, steps, t, n - start);
    forall j, d: Delivered | 0 <= j < Pairing.Pulls(steps) && Pairing.Gets(c, j, Arrival(t, Success(d))) && d.id == n
      ensures j == Position(t, arrivals, n - start)
    {
      OnlyItsPull(options, t, feeds, i, credit, steps, j, d);
    }
  }

  lemma OnlyItsPull(options: DataOptions, t: nat, feeds: seq<Sessions.Step<Event>>, i: nat,
                    credit: bool, steps: seq<Pairing.Step<Arrival<Result<Delivered>>>>, j: nat, d: Delivered)
    requires Receives(options, t, Pairing.Events(steps), feeds, i) && j < Pairing.Pulls(steps)
    requires Pairing.Gets(Pairing.DoAll(Pairing.Initial(credit), steps), j, Arrival(t, Success(d)))
    ensures var start := Sessions.After(feeds).sessions[i].start;
            && start <= d.id < start + |From(t, Pairing.Events(steps))|
            && Position(t, Pairing.Events(steps), d.id - start) == j
  {
    var m := PulledOfTarget(credit, steps, t, j, Success(d));
    ArrivalIsEntry(options, t, Pairing.Events(steps), feeds, i, m);
    MadeHasId(options, Sessions.After(feeds).log, Sessions.After(feeds).sessions[i].start + m);
  }

  // ----- The whole path -----

  /**
   * In a run of the event path, the future of push() call l of a producer has resolved to id n of target t. A consumer
   * of any number of targets has a session at t that started at or before n, has received entry n, whatever was appended
   * and whatever arrived from elsewhere, and has made enough pull() calls: exactly one of them returns an event of t
   * with id n, and it is the argument of that push() call.
   */
  lemma PushedIsPulled(initial: EventPath.System<Push>, path: seq<EventPath.Step<Push>>,
                       p: nat, l: nat, t: EventPath.Target, n: nat,
                       options: DataOptions, feeds: seq<Sessions.Step<Event>>, i: nat,
                       credit: bool, steps: seq<Pairing.Step<Arrival<Result<Delivered>>>>)
    requires EventPath.IsInitial(initial) && EventPath.Allowed(initial, path)
    requires ResolvedTo(EventPath.DoAll(initial, path), p, l, t, n)
    requires Receives(options, t, Pairing.Events(steps), feeds, i)
    requires Stored(EventPath.LogOf(EventPath.DoAll(initial, path), t)) <= Sessions.After(feeds).log
    requires var start := Sessions.After(feeds).sessions[i].start;
             start <= n < start + |From(t, Pairing.Events(steps))|
             && Position(t, Pairing.Events(steps), n - start) < Pairing.Pulls(steps)
    ensures l < |EventPathCalls.Arguments(path, p)| && n < |Sessions.After(feeds).log|
    ensures Right(options, Sessions.After(feeds).log, n, EventPathCalls.Arguments(path, p)[l])
    ensures var k := Position(t, Pairing.Events(steps), n - Sessions.After(feeds).sessions[i].start);
            OnlyPullOf(credit, steps, k, t, n, Made(options, Sessions.After(feeds).log, n))
  {
    ResolvedIsMade(initial, path, p, l, t, n, options, Sessions.After(feeds).log);
    EntryIsPulledOnce(options, t, feeds, i, n, credit, steps);
  }
}
