/**
 * Consumer sessions under one or more names on one topic, as a state machine: appends, new calls of feedConsumer,
 * passes of their feeding loops, and acknowledgements, in any interleaving. The events are those of the log that
 * module TopicLog shows the arrays to store; one pass is MemoryTopicManager.NextFeed.
 */
module Sessions {
  import opened Bytes
  import MemoryTopicManagers

  /**
   * One call of feedConsumer: where it started, where it is, the events that reached the consumer, and the number of
   * events whose feed() call failed. A failure is only logged, and the loop goes on behind the batch.
   */
  datatype Session<E> = Session(name: string, batchSize: SizeT, start: SizeT, next: SizeT, received: seq<E>, missed: nat)

  /** reach is history: the end of the furthest range fed under a name. */
  datatype Topic<E> = Topic(log: seq<E>, cursors: map<string, SizeT>, sessions: seq<Session<E>>, reach: map<string, nat>)

  function CursorOf<E>(t: Topic<E>, name: string): SizeT {
    if name in t.cursors then t.cursors[name] else 0
  }

  function ReachOf<E>(t: Topic<E>, name: string): nat {
    if name in t.reach then t.reach[name] else 0
  }

  function NewTopic<E>(): Topic<E> {
    Topic([], map[], [], map[])
  }

  datatype Step<E> =
    | Append(batch: seq<E>)
    | Open(name: string, batchSize: SizeT)
    | Feed(session: nat, reached: bool)
    | Acknowledge(name: string, id: SizeT)

  function ToSend<E>(t: Topic<E>, i: nat): SizeT
    requires i < |t.sessions| && |t.log| < SIZE_T_LIMIT
  {
    MemoryTopicManagers.EventsToSend(t.sessions[i].batchSize, |t.log|, t.sessions[i].next)
  }

  /** A range that is not in the log would be read from beyond the arrays; runs stop there. */
  predicate Enabled<E>(t: Topic<E>, step: Step<E>) {
    match step
    case Append(batch) => |t.log| + |batch| < SIZE_T_LIMIT
    case Feed(i, _) =>
      i < |t.sessions| && |t.log| < SIZE_T_LIMIT && ToSend(t, i) > 0 && t.sessions[i].next + ToSend(t, i) <= |t.log|
    case _ => true
  }

  function Advanced<E>(t: Topic<E>, i: nat, reached: bool): Session<E>
    requires Enabled(t, Feed(i, reached))
  {
    var s, n := t.sessions[i], ToSend(t, i);
    s.(next := s.next + n,
       received := s.received + (if reached then t.log[s.next..s.next + n] else []),
       missed := s.missed + (if reached then 0 else n))
  }

  function Do<E>(t: Topic<E>, step: Step<E>): Topic<E>
    requires Enabled(t, step)
  {
    match step
    case Append(batch) => t.(log := t.log + batch)
    case Open(name, batchSize) =>
      var first := CursorOf(t, name);
      t.(cursors := t.cursors[name := first],
         sessions := t.sessions + [Session(name, batchSize, first, first, [], 0)])
    case Feed(i, reached) =>
      var s := Advanced(t, i, reached);
      t.(sessions := t.sessions[i := s],
         reach := t.reach[s.name := if ReachOf(t, s.name) < s.next then s.next else ReachOf(t, s.name)])
    case Acknowledge(name, id) => t.(cursors := t.cursors[name := Add(id, 1)])
  }

  predicate InRange<E>(s: Session<E>, name: string, id: nat) {
    s.name == name && s.start <= id < s.next
  }

  /** Event id was sent in some session under the name. */
  predicate Fed<E>(t: Topic<E>, name: string, id: nat) {
    exists i :: 0 <= i < |t.sessions| && InRange(t.sessions[i], name, id)
  }

  predicate Allowed<E>(t: Topic<E>, steps: seq<Step<E>>)
    decreases |steps|
  {
    steps == [] || (Enabled(t, steps[0]) && Allowed(Do(t, steps[0]), steps[1..]))
  }

  function DoAll<E>(t: Topic<E>, steps: seq<Step<E>>): Topic<E>
    requires Allowed(t, steps)
    decreases |steps|
  {
    if steps == [] then t else DoAll(Do(t, steps[0]), steps[1..])
  }

  /**
   * What clients acknowledge: events that were sent to them, or any events in the log. The largest size_t is an
   * acknowledgement of nothing: the id after it is 0.
   */
  datatype Policy = OfFed | InLog

  predicate Acceptable<E>(t: Topic<E>, step: Step<E>, policy: Policy) {
    step.Acknowledge? ==>
      match policy
      case OfFed => Fed(t, step.name, step.id)
      case InLog => step.id < |t.log| || step.id == SIZE_T_LIMIT - 1
  }

  predicate Follows<E>(t: Topic<E>, steps: seq<Step<E>>, policy: Policy)
    requires Allowed(t, steps)
    decreases |steps|
  {
    steps == [] || (Acceptable(t, steps[0], policy) && Follows(Do(t, steps[0]), steps[1..], policy))
  }

  // ----- What holds if acknowledged events are in the log -----

  ghost predicate SessionOk<E>(t: Topic<E>, s: Session<E>) {
    && s.start <= s.next <= |t.log|
    && |s.received| + s.missed == s.next - s.start
    && (s.missed == 0 ==> s.received == t.log[s.start..s.next])
  }

  ghost predicate LogInv<E>(t: Topic<E>) {
    && |t.log| < SIZE_T_LIMIT
    && (forall i :: 0 <= i < |t.sessions| ==> SessionOk(t, t.sessions[i]))
    && forall name: string :: CursorOf(t, name) <= |t.log|
  }

  lemma SessionOfLongerLog<E>(t: Topic<E>, t': Topic<E>, s: Session<E>)
    requires SessionOk(t, s) && t.log <= t'.log
    ensures SessionOk(t', s)
  {
    assert t'.log[s.start..s.next] == t.log[s.start..s.next];
  }

  lemma AdvancedOk<E>(t: Topic<E>, i: nat, reached: bool)
    requires Enabled(t, Feed(i, reached)) && SessionOk(t, t.sessions[i])
    ensures SessionOk(Do(t, Feed(i, reached)), Advanced(t, i, reached))
  {
    var s, n := t.sessions[i], ToSend(t, i);
    assert t.log[s.start..s.next] + t.log[s.next..s.next + n] == t.log[s.start..s.next + n];
  }

  lemma DoKeepsSession<E>(t: Topic<E>, step: Step<E>, i: nat)
    requires LogInv(t) && Enabled(t, step) && i < |Do(t, step).sessions|
    ensures SessionOk(Do(t, step), Do(t, step).sessions[i])
  {
    if i < |t.sessions| {
      if step.Feed? && step.session == i {
        AdvancedOk(t, i, step.reached);
      } else {
        SessionOfLongerLog(t, Do(t, step), t.sessions[i]);
      }
    }
  }

  lemma DoKeepsLogInv<E>(t: Topic<E>, step: Step<E>)
    requires LogInv(t) && Enabled(t, step) && Acceptable(t, step, InLog)
    ensures LogInv(Do(t, step))
  {
    var t' := Do(t, step);
    forall i | 0 <= i < |t'.sessions| ensures SessionOk(t', t'.sessions[i]) {
      DoKeepsSession(t, step, i);
    }
    forall name: string ensures CursorOf(t', name) <= |t'.log| {
      assert CursorOf(t, name) <= |t.log|;
    }
  }

  lemma {:induction false} AlwaysLogInv<E>(t: Topic<E>, steps: seq<Step<E>>)
    requires LogInv(t) && Allowed(t, steps) && Follows(t, steps, InLog)
    ensures LogInv(DoAll(t, steps))
    decreases |steps|
  {
    if steps != [] {
      DoKeepsLogInv(t, steps[0]);
      AlwaysLogInv(Do(t, steps[0]), steps[1..]);
    }
  }

  // ----- What holds if acknowledged events were fed -----

  ghost predicate NameOk<E>(t: Topic<E>, name: string) {
    && CursorOf(t, name) <= ReachOf(t, name) <= |t.log|
    && forall id: nat :: Fed(t, name, id) <==> id < ReachOf(t, name)
  }

  ghost predicate FedInv<E>(t: Topic<E>) {
    && (forall i :: 0 <= i < |t.sessions| ==> t.sessions[i].next <= ReachOf(t, t.sessions[i].name))
    && forall name: string :: NameOk(t, name)
  }

  lemma OpenFeedsNothing<E>(t: Topic<E>, name: string, batchSize: SizeT, other: string, id: nat)
    ensures Fed(Do(t, Open(name, batchSize)), other, id) <==> Fed(t, other, id)
  {
    var t' := Do(t, Open(name, batchSize));
    if Fed(t, other, id) {
      var i :| 0 <= i < |t.sessions| && InRange(t.sessions[i], other, id);
      assert InRange(t'.sessions[i], other, id);
    }
    if Fed(t', other, id) {
      var i :| 0 <= i < |t'.sessions| && InRange(t'.sessions[i], other, id);
      assert InRange(t.sessions[i], other, id);
    }
  }

  /** The events of one pass, and nothing else, become fed. */
  lemma FeedFeeds<E>(t: Topic<E>, i: nat, reached: bool, name: string, id: nat)
    requires Enabled(t, Feed(i, reached)) && t.sessions[i].start <= t.sessions[i].next
    ensures Fed(Do(t, Feed(i, reached)), name, id)
       <==> Fed(t, name, id)
            || (t.sessions[i].name == name && t.sessions[i].next <= id < t.sessions[i].next + ToSend(t, i))
  {
    var t', s := Do(t, Feed(i, reached)), t.sessions[i];
    if Fed(t, name, id) {
      var j :| 0 <= j < |t.sessions| && InRange(t.sessions[j], name, id);
      assert InRange(t'.sessions[j], name, id);
    }
    if s.name == name && s.next <= id < s.next + ToSend(t, i) {
      assert InRange(t'.sessions[i], name, id);
    }
    if Fed(t', name, id) {
      var j :| 0 <= j < |t'.sessions| && InRange(t'.sessions[j], name, id);
      assert j != i ==> InRange(t.sessions[j], name, id);
      assert j == i && id < s.next ==> InRange(t.sessions[i], name, id);
    }
  }

  lemma DoKeepsName<E>(t: Topic<E>, step: Step<E>, name: string)
    requires LogInv(t) && FedInv(t) && Enabled(t, step) && Acceptable(t, step, OfFed)
    ensures NameOk(Do(t, step), name)
  {
    var t' := Do(t, step);
    assert NameOk(t, name);
    forall id: nat ensures Fed(t', name, id) <==> id < ReachOf(t', name) {
      match step
      case Open(other, batchSize) => OpenFeedsNothing(t, other, batchSize, name, id);
      case Feed(i, reached) =>
        assert SessionOk(t, t.sessions[i]);
        FeedFeeds(t, i, reached, name, id);
      case _ => assert Fed(t', name, id) <==> Fed(t, name, id);
    }
  }

  lemma DoKeepsFedInv<E>(t: Topic<E>, step: Step<E>)
    requires LogInv(t) && FedInv(t) && Enabled(t, step) && Acceptable(t, step, OfFed)
    ensures FedInv(Do(t, step)) && Acceptable(t, step, InLog)
  {
    var t' := Do(t, step);
    forall name: string ensures NameOk(t', name) {
      DoKeepsName(t, step, name);
    }
    if step.Open? || step.Acknowledge? {
      assert NameOk(t, step.name);
    }
  }

  lemma {:induction false} AlwaysFedInv<E>(t: Topic<E>, steps: seq<Step<E>>)
    requires LogInv(t) && FedInv(t) && Allowed(t, steps) && Follows(t, steps, OfFed)
    ensures LogInv(DoAll(t, steps)) && FedInv(DoAll(t, steps)) && Follows(t, steps, InLog)
    decreases |steps|
  {
    if steps != [] {
      DoKeepsFedInv(t, steps[0]);
      DoKeepsLogInv(t, steps[0]);
      AlwaysFedInv(Do(t, steps[0]), steps[1..]);
    }
  }

  // ----- Results, over every run from a new topic -----

  predicate FromNew<E>(steps: seq<Step<E>>) {
    Allowed(NewTopic(), steps)
  }

  function After<E>(steps: seq<Step<E>>): Topic<E>
    requires FromNew(steps)
  {
    DoAll(NewTopic(), steps)
  }

  /** All clients acknowledge what the policy says. */
  predicate Clients<E>(steps: seq<Step<E>>, policy: Policy)
    requires FromNew(steps)
  {
    Follows(NewTopic(), steps, policy)
  }

  lemma AfterInv<E>(steps: seq<Step<E>>)
    requires FromNew(steps) && Clients(steps, OfFed)
    ensures LogInv(After(steps)) && FedInv(After(steps))
  {
    AlwaysFedInv(NewTopic(), steps);
  }

  /** Clients that acknowledge what they were fed acknowledge events of the log. */
  lemma FedIsInLog<E>(steps: seq<Step<E>>)
    requires FromNew(steps) && Clients(steps, OfFed)
    ensures Clients(steps, InLog)
  {
    AlwaysFedInv(NewTopic(), steps);
  }

  /** The ids ever sent under a name are a gap-free prefix of the log, and the cursor lies in it. */
  lemma FedIsPrefix<E>(steps: seq<Step<E>>, name: string, id: nat)
    requires FromNew(steps) && Clients(steps, OfFed)
    ensures var t := After(steps);
            && CursorOf(t, name) <= ReachOf(t, name) <= |t.log|
            && (Fed(t, name, id) <==> id < ReachOf(t, name))
  {
    AfterInv(steps);
    assert NameOk(After(steps), name);
  }

  /**
   * Over any run in which clients acknowledge only events of the log, fed to them or not, the subtraction of the
   * feeding loop wraps in no session, nor would it in one opened now.
   */
  lemma NeverWraps<E>(steps: seq<Step<E>>, i: nat, name: string)
    requires FromNew(steps) && Clients(steps, InLog)
    ensures var t := After(steps);
            && |t.log| < SIZE_T_LIMIT
            && (i < |t.sessions| ==>
                  && Minus(|t.log|, t.sessions[i].next) == |t.log| - t.sessions[i].next
                  && t.sessions[i].next + ToSend(t, i) <= |t.log|)
            && Minus(|t.log|, CursorOf(t, name)) == |t.log| - CursorOf(t, name)
  {
    AlwaysLogInv(NewTopic(), steps);
    var t := After(steps);
    assert CursorOf(t, name) <= |t.log|;
    assert i < |t.sessions| ==> SessionOk(t, t.sessions[i]);
  }

  /** In any state, an acknowledgement lets a session opened next subtract without wrapping iff its id is of the log. */
  lemma AnyAcknowledgementIff<E>(t: Topic<E>, name: string, id: SizeT, batchSize: SizeT)
    requires |t.log| < SIZE_T_LIMIT
    ensures var t' := Do(Do(t, Acknowledge(name, id)), Open(name, batchSize));
            var s := t'.sessions[|t.sessions|];
            (Minus(|t'.log|, s.next) == |t'.log| - s.next <==> Acceptable(t, Acknowledge(name, id), InLog))
  {
  }

  /** None of the feed() calls of session i failed. */
  predicate AllReached<E>(steps: seq<Step<E>>, i: nat) {
    forall k :: 0 <= k < |steps| ==> steps[k] != Feed(i, false)
  }

  lemma MissedStep<E>(t: Topic<E>, step: Step<E>, i: nat)
    requires Enabled(t, step) && i < |Do(t, step).sessions|
    ensures Do(t, step).sessions[i].missed == 0
       <==> (i < |t.sessions| ==> t.sessions[i].missed == 0) && step != Feed(i, false)
  {
  }

  /** A session has missed events if and only if one of its feed() calls failed. */
  lemma {:induction false} MissedIff<E>(t: Topic<E>, steps: seq<Step<E>>, i: nat)
    requires Allowed(t, steps) && i < |DoAll(t, steps).sessions|
    ensures DoAll(t, steps).sessions[i].missed == 0
       <==> (i < |t.sessions| ==> t.sessions[i].missed == 0) && AllReached(steps, i)
    decreases |steps|
  {
    if steps != [] {
      var t' := Do(t, steps[0]);
      MissedIff(t', steps[1..], i);
      if i < |t'.sessions| {
        MissedStep(t, steps[0], i);
      }
      assert steps == [steps[0]] + steps[1..];
      assert i >= |t'.sessions| ==> steps[0] != Feed(i, false);
    }
  }

  /** A session has delivered exactly the log from its start on, in order, iff none of its feed() calls failed. */
  lemma SessionIsSliceIff<E>(steps: seq<Step<E>>, i: nat)
    requires FromNew(steps) && Clients(steps, InLog) && i < |After(steps).sessions|
    ensures var t := After(steps);
            var s := t.sessions[i];
            s.start <= s.next <= |t.log| && (s.received == t.log[s.start..s.next] <==> AllReached(steps, i))
  {
    AlwaysLogInv(NewTopic(), steps);
    MissedIff(NewTopic(), steps, i);
    assert SessionOk(After(steps), After(steps).sessions[i]);
  }

  // ----- What the calls of a run put into the state -----

  /** The batches appended, one after the other. */
  function Appends<E>(steps: seq<Step<E>>): seq<E> {
    if steps == [] then [] else (if steps[0].Append? then steps[0].batch else []) + Appends(steps[1..])
  }

  datatype Call = Call(name: string, batchSize: SizeT)

  /** The calls of feedConsumer. */
  function Calls<E>(steps: seq<Step<E>>): seq<Call> {
    if steps == [] then []
    else (if steps[0].Open? then [Call(steps[0].name, steps[0].batchSize)] else []) + Calls(steps[1..])
  }

  function CallsOf<E>(sessions: seq<Session<E>>): (calls: seq<Call>)
    ensures |calls| == |sessions|
    ensures forall i :: 0 <= i < |sessions| ==> calls[i] == Call(sessions[i].name, sessions[i].batchSize)
  {
    seq(|sessions|, i requires 0 <= i < |sessions| => Call(sessions[i].name, sessions[i].batchSize))
  }

  lemma StepAddsCall<E>(t: Topic<E>, step: Step<E>)
    requires Enabled(t, step)
    ensures CallsOf(Do(t, step).sessions)
         == CallsOf(t.sessions) + (if step.Open? then [Call(step.name, step.batchSize)] else [])
    ensures Do(t, step).log == t.log + (if step.Append? then step.batch else [])
  {
  }

  /** The log is what was appended, and there is one session for each call, with the name and batch size of the call. */
  lemma {:induction false} StateOfCalls<E>(t: Topic<E>, steps: seq<Step<E>>)
    requires Allowed(t, steps)
    ensures DoAll(t, steps).log == t.log + Appends(steps)
    ensures CallsOf(DoAll(t, steps).sessions) == CallsOf(t.sessions) + Calls(steps)
    decreases |steps|
  {
    if steps != [] {
      StepAddsCall(t, steps[0]);
      StateOfCalls(Do(t, steps[0]), steps[1..]);
      Assoc(t.log, if steps[0].Append? then steps[0].batch else [], Appends(steps[1..]));
      Assoc(CallsOf(t.sessions), if steps[0].Open? then [Call(steps[0].name, steps[0].batchSize)] else [],
            Calls(steps[1..]));
    }
  }

  // ----- Sessions are fed until they are at the end of the log -----

  lemma SessionOfCall<E>(steps: seq<Step<E>>, i: nat)
    requires FromNew(steps) && i < |After(steps).sessions|
    ensures i < |Calls(steps)|
    ensures After(steps).sessions[i].name == Calls(steps)[i].name
    ensures After(steps).sessions[i].batchSize == Calls(steps)[i].batchSize
  {
    StateOfCalls(NewTopic(), steps);
    assert CallsOf(After(steps).sessions) == [] + Calls(steps) == Calls(steps);
    assert CallsOf(After(steps).sessions)[i] == Calls(steps)[i];
  }

  /**
   * What one pass may do to the position of a session: with batch size 0, which every Consumer asks for, it goes to
   * the end of the log; with batch size B > 0 it sends B events, or fewer if it gets to the end.
   */
  predicate GoesOn(next: nat, next': nat, end: nat, batchSize: SizeT) {
    && next < next' <= end
    && (batchSize == 0 ==> next' == end)
    && (batchSize > 0 ==> next' - next <= batchSize && (next' - next == batchSize || next' == end))
  }

  lemma PassSends<E>(t: Topic<E>, i: nat)
    requires LogInv(t) && i < |t.sessions|
    ensures var s, n := t.sessions[i], ToSend(t, i);
            && s.next + n <= |t.log| && (n == 0 <==> s.next == |t.log|)
            && (n > 0 ==> GoesOn(s.next, s.next + n, |t.log|, s.batchSize))
  {
    assert SessionOk(t, t.sessions[i]);
  }

  /** In any run, a session behind the end of the log can always be fed, and one at the end never. */
  lemma FeedEnabledIff<E>(steps: seq<Step<E>>, i: nat, reached: bool)
    requires FromNew(steps) && Clients(steps, InLog) && i < |After(steps).sessions|
    ensures i < |Calls(steps)| && After(steps).sessions[i].next <= |After(steps).log|
    ensures var t := After(steps);
            var next := t.sessions[i].next;
            && (Enabled(t, Feed(i, reached)) <==> next < |t.log|)
            && (next < |t.log| ==>
                  GoesOn(next, Do(t, Feed(i, reached)).sessions[i].next, |t.log|, Calls(steps)[i].batchSize))
  {
    SessionOfCall(steps, i);
    AlwaysLogInv(NewTopic(), steps);
    PassSends(After(steps), i);
  }

  /** Passes of session i whose feed() calls succeed, up to the end of the log. */
  function Passes<E>(t: Topic<E>, i: nat): (steps: seq<Step<E>>)
    requires LogInv(t) && i < |t.sessions|
    decreases |t.log| - t.sessions[i].next
  {
    PassSends(t, i);
    assert SessionOk(t, t.sessions[i]);
    if t.sessions[i].next == |t.log| then []
    else
      DoKeepsLogInv(t, Feed(i, true));
      [Feed(i, true)] + Passes(Do(t, Feed(i, true)), i)
  }

  lemma OnePass<E>(t: Topic<E>, i: nat)
    requires LogInv(t) && i < |t.sessions| && t.sessions[i].next < |t.log|
    ensures Enabled(t, Feed(i, true)) && LogInv(Do(t, Feed(i, true)))
    ensures var t', next := Do(t, Feed(i, true)), t.sessions[i].next;
            && t'.log == t.log && |t'.sessions| == |t.sessions| && next < t'.sessions[i].next <= |t.log|
            && t'.sessions[i].received == t.sessions[i].received + t.log[next..t'.sessions[i].next]
            && Passes(t, i) == [Feed(i, true)] + Passes(t', i)
  {
    PassSends(t, i);
    DoKeepsLogInv(t, Feed(i, true));
  }

  lemma ReceivedUpTo<E>(received: seq<E>, log: seq<E>, next: nat, next': nat)
    requires next <= next' <= |log|
    ensures received + log[next..next'] + log[next'..] == received + log[next..]
  {
  }

  /**
   * Without appends, passes bring a session to the end of the log, in no more passes than there are events left, and
   * deliver all of these.
   */
  lemma {:induction false} PassesReachEnd<E>(t: Topic<E>, i: nat)
    requires LogInv(t) && i < |t.sessions|
    ensures Allowed(t, Passes(t, i)) && t.sessions[i].next + |Passes(t, i)| <= |t.log|
    ensures var t' := DoAll(t, Passes(t, i));
            && t'.log == t.log && |t'.sessions| == |t.sessions| && t'.sessions[i].next == |t.log|
            && t'.sessions[i].received == t.sessions[i].received + t.log[t.sessions[i].next..]
    decreases |t.log| - t.sessions[i].next
  {
    var s := t.sessions[i];
    assert SessionOk(t, s);
    if s.next < |t.log| {
      OnePass(t, i);
      var t' := Do(t, Feed(i, true));
      PassesReachEnd(t', i);
      assert Passes(t, i)[1..] == Passes(t', i);
      ReceivedUpTo(s.received, t.log, s.next, t'.sessions[i].next);
    } else {
      assert s.received + [] == s.received;
    }
  }

  /** The last acknowledgement under a name, if any. */
  function LastAck<E>(steps: seq<Step<E>>, name: string, none: SizeT): SizeT {
    if steps == [] then none
    else
      var step := steps[|steps| - 1];
      if step.Acknowledge? && step.name == name then Add(step.id, 1) else LastAck(steps[..|steps| - 1], name, none)
  }

  lemma {:induction false} LastAckOfRest<E>(steps: seq<Step<E>>, name: string, none: SizeT)
    requires steps != []
    ensures LastAck(steps, name, none) == LastAck(steps[1..], name, LastAck(steps[..1], name, none))
    decreases |steps|
  {
    var n := |steps| - 1;
    if n == 0 {
      assert steps[..1] == steps;
    } else {
      LastAckOfRest(steps[..n], name, none);
      assert steps[1..][..n - 1] == steps[..n][1..] && steps[..n][..1] == steps[..1];
    }
  }

  lemma {:induction false} CursorIsLastAck<E>(t: Topic<E>, steps: seq<Step<E>>, name: string)
    requires Allowed(t, steps)
    ensures CursorOf(DoAll(t, steps), name) == LastAck(steps, name, CursorOf(t, name))
    decreases |steps|
  {
    if steps == [] {
    } else {
      LastAckOfRest(steps, name, CursorOf(t, name));
      CursorIsLastAck(Do(t, steps[0]), steps[1..], name);
    }
  }

  /** A session starts right after the last acknowledged event, not after the furthest one; at 0 without any. */
  lemma SessionStartsAfterLastAck<E>(steps: seq<Step<E>>, name: string, batchSize: SizeT)
    requires FromNew(steps)
    ensures var t' := Do(After(steps), Open(name, batchSize));
            t'.sessions[|After(steps).sessions|].start == LastAck(steps, name, 0)
  {
    CursorIsLastAck<E>(NewTopic(), steps, name);
  }

  /**
   * Events are meant to be fed once. A pass feeds an event that was fed before under the same name if and only if
   * another session of that name is, or has been, ahead of this one.
   */
  lemma FedTwiceIff<E>(steps: seq<Step<E>>, i: nat, reached: bool)
    requires FromNew(steps) && Clients(steps, OfFed) && Enabled(After(steps), Feed(i, reached))
    ensures var t := After(steps);
            var s := t.sessions[i];
            ((exists id: nat :: s.next <= id < s.next + ToSend(t, i) && Fed(t, s.name, id))
             <==> s.next < ReachOf(t, s.name))
  {
    AfterInv(steps);
    var t := After(steps);
    var s := t.sessions[i];
    assert NameOk(t, s.name);
    if s.next < ReachOf(t, s.name) {
      var id: nat := s.next;
      assert Fed(t, s.name, id);
    }
  }
}
