/** What every step of the event path keeps, and what holds in every reachable state of it. */
module EventPathSafety {
  import opened Bytes
  import opened Wrappers
  import BatchQueues
  import opened EventPath

  // ----- The invariant, lane by lane -----

  predicate EnqueuedAt<V>(prod: Producer<V>, l: nat, t: Target) {
    l < |prod.ults| && prod.ults[l].Enqueued? && prod.ults[l].target == t
  }

  /** The entry is the event that push l of producer p brought, and that push selected target t. */
  ghost predicate EntryOk<V>(prod: Producer<V>, p: nat, t: Target, e: Entry<V>) {
    && e.id.producer == p && EnqueuedAt(prod, e.id.local, t)
    && e.id.local < |prod.events| && e.event == prod.events[e.id.local]
  }

  ghost predicate AllOk<V>(prod: Producer<V>, p: nat, t: Target, es: seq<Entry<V>>) {
    forall i :: 0 <= i < |es| ==> EntryOk(prod, p, t, es[i])
  }

  predicate DistinctIds<V>(es: seq<Entry<V>>) {
    forall i, j :: 0 <= i < j < |es| ==> es[i].id.local != es[j].id.local
  }

  predicate IncreasingIds<V>(es: seq<Entry<V>>) {
    forall i, j :: 0 <= i < j < |es| ==> es[i].id.local < es[j].id.local
  }

  predicate Below<V>(es: seq<Entry<V>>, bound: nat) {
    forall i :: 0 <= i < |es| ==> es[i].id.local < bound
  }

  function InFlight<V>(lane: Lane<V>): seq<Entry<V>> {
    if lane.q.sender.Sending? then lane.q.sender.batch else []
  }

  /** Entries whose promise is not fulfilled yet. */
  function Pending<V>(lane: Lane<V>): seq<Entry<V>> {
    InFlight(lane) + Concat(lane.q.batches)
  }

  /** Entries that have not reached the server. */
  function Unsent<V>(lane: Lane<V>): seq<Entry<V>> {
    (if lane.reply.NoReply? then InFlight(lane) else []) + Concat(lane.q.batches)
  }

  /** The entries of a log that producer p pushed. */
  function Own<V>(p: nat, log: seq<Entry<V>>): seq<Entry<V>> {
    if log == [] then []
    else
      var e := log[|log| - 1];
      Own(p, log[..|log| - 1]) + (if e.id.producer == p then [e] else [])
  }

  /** All entries of producer p for a target, in the order in which they are, or will get, in its log. */
  function Track<V>(p: nat, lane: Lane<V>, log: seq<Entry<V>>): seq<Entry<V>> {
    Own(p, log) + Unsent(lane)
  }

  ghost predicate TrackInv<V>(prod: Producer<V>, p: nat, t: Target, log: seq<Entry<V>>) {
    var track := Track(p, LaneOf(prod, t), log);
    && AllOk(prod, p, t, track) && DistinctIds(track)
    && (prod.strict ==> IncreasingIds(track) && Below(track, prod.ready))
  }

  /** None of the promises is fulfilled. */
  predicate AllOpen<V>(outcomes: map<nat, Outcome>, es: seq<Entry<V>>) {
    forall i :: 0 <= i < |es| ==> es[i].id.local !in outcomes
  }

  ghost predicate PendingInv<V>(prod: Producer<V>, p: nat, t: Target) {
    var pending := Pending(LaneOf(prod, t));
    AllOk(prod, p, t, pending) && DistinctIds(pending) && AllOpen(prod.outcomes, pending)
  }

  ghost predicate ReplyInv<V>(prod: Producer<V>, t: Target, log: seq<Entry<V>>) {
    var lane := LaneOf(prod, t);
    && (!lane.q.sender.Sending? ==> lane.reply.NoReply?)
    && (lane.reply.Accepted? ==>
          && lane.reply.firstId + |InFlight(lane)| <= |log|
          && forall i :: 0 <= i < |InFlight(lane)| ==> log[lane.reply.firstId + i] == InFlight(lane)[i])
  }

  predicate HasLocal<V>(es: seq<Entry<V>>, l: nat) {
    exists i :: 0 <= i < |es| && es[i].id.local == l
  }

  /** No enqueued push is forgotten. */
  ghost predicate CompleteInv<V>(prod: Producer<V>, t: Target) {
    forall l: nat :: EnqueuedAt(prod, l, t) ==> l in prod.outcomes || HasLocal(Pending(LaneOf(prod, t)), l)
  }

  ghost predicate LaneInv<V>(prod: Producer<V>, p: nat, t: Target, log: seq<Entry<V>>) {
    TrackInv(prod, p, t, log) && PendingInv(prod, p, t) && ReplyInv(prod, t, log) && CompleteInv(prod, t)
  }

  ghost predicate OutcomeOk<V>(prod: Producer<V>, p: nat, s: System<V>, l: nat)
    requires l in prod.outcomes
  {
    match prod.outcomes[l]
    case Resolved(t, n) => EnqueuedAt(prod, l, t) && n < |LogOf(s, t)| && LogOf(s, t)[n].id == Id(p, l)
    case Errored => l < |prod.ults| && (prod.ults[l].Rejected? || prod.ults[l].Enqueued?)
  }

  ghost predicate ProducerInv<V>(prod: Producer<V>, p: nat, s: System<V>) {
    && |prod.events| == |prod.ults|
    && (forall l: nat :: l in prod.outcomes ==> OutcomeOk(prod, p, s, l))
    && (forall t: Target :: LaneInv(prod, p, t, LogOf(s, t)))
  }

  ghost predicate KnownProducers<V>(s: System<V>) {
    forall t: Target, n: nat :: n < |LogOf(s, t)| ==> LogOf(s, t)[n].id.producer in s.producers
  }

  ghost predicate Inv<V>(s: System<V>) {
    KnownProducers(s) && forall p: nat :: p in s.producers ==> ProducerInv(s.producers[p], p, s)
  }

  // ----- What does not touch a lane keeps its invariant -----

  /** Nothing that the invariant of lane t speaks of differs between the two producers. */
  ghost predicate SameLane<V>(prod: Producer<V>, prod': Producer<V>, t: Target) {
    && LaneOf(prod', t) == LaneOf(prod, t) && prod'.strict == prod.strict && prod'.ready >= prod.ready
    && prod.events <= prod'.events
    && (forall l: nat :: EnqueuedAt(prod', l, t) <==> EnqueuedAt(prod, l, t))
    && (forall l: nat :: EnqueuedAt(prod, l, t) ==> (l in prod'.outcomes <==> l in prod.outcomes))
  }

  lemma SameLaneKeeps<V>(prod: Producer<V>, prod': Producer<V>, p: nat, t: Target, log: seq<Entry<V>>)
    requires LaneInv(prod, p, t, log) && SameLane(prod, prod', t)
    ensures LaneInv(prod', p, t, log)
  {
    SameLaneKeepsOk(prod, prod', p, t, Track(p, LaneOf(prod, t), log));
    SameLaneKeepsOk(prod, prod', p, t, Pending(LaneOf(prod, t)));
  }

  lemma SameLaneKeepsOk<V>(prod: Producer<V>, prod': Producer<V>, p: nat, t: Target, es: seq<Entry<V>>)
    requires AllOk(prod, p, t, es) && SameLane(prod, prod', t)
    ensures AllOk(prod', p, t, es)
  {
    forall i | 0 <= i < |es| ensures EntryOk(prod', p, t, es[i]) {
      assert EntryOk(prod, p, t, es[i]);
    }
  }

  predicate NoneOf<V>(p: nat, es: seq<Entry<V>>) {
    forall i :: 0 <= i < |es| ==> es[i].id.producer != p
  }

  predicate OnlyOf<V>(p: nat, es: seq<Entry<V>>) {
    forall i :: 0 <= i < |es| ==> es[i].id.producer == p
  }

  lemma OwnSnoc<V>(p: nat, log: seq<Entry<V>>, e: Entry<V>)
    ensures Own(p, log + [e]) == Own(p, log) + (if e.id.producer == p then [e] else [])
  {
    assert (log + [e])[..|log|] == log;
  }

  /** Taking the last entry off what is appended to a log. */
  lemma LastAppended<V>(log: seq<Entry<V>>, more: seq<Entry<V>>)
    requires more != []
    ensures log + more == (log + more[..|more| - 1]) + [more[|more| - 1]]
  {
  }

  lemma {:induction false} OwnOfOthers<V>(p: nat, log: seq<Entry<V>>, more: seq<Entry<V>>)
    requires NoneOf(p, more)
    ensures Own(p, log + more) == Own(p, log)
    decreases |more|
  {
    if more == [] {
      assert log + more == log;
    } else {
      var n := |more| - 1;
      OwnOfOthers(p, log, more[..n]);
      LastAppended(log, more);
      OwnSnoc(p, log + more[..n], more[n]);
    }
  }

  lemma {:induction false} OwnOfOwn<V>(p: nat, log: seq<Entry<V>>, more: seq<Entry<V>>)
    requires OnlyOf(p, more)
    ensures Own(p, log + more) == Own(p, log) + more
    decreases |more|
  {
    if more == [] {
      assert log + more == log;
    } else {
      var n := |more| - 1;
      OwnOfOwn(p, log, more[..n]);
      LastAppended(log, more);
      OwnSnoc(p, log + more[..n], more[n]);
      LastAppended(Own(p, log), more);
    }
  }

  /** A log that grows by entries of others. */
  lemma OthersKeepLane<V>(prod: Producer<V>, p: nat, t: Target, log: seq<Entry<V>>, more: seq<Entry<V>>)
    requires LaneInv(prod, p, t, log) && NoneOf(p, more)
    ensures LaneInv(prod, p, t, log + more)
  {
    OwnOfOthers(p, log, more);
  }

  // ----- The lane an action works on -----

  /** An enqueued push adds its entry at the end of what is on its way, and nothing of it was there before. */
  lemma EnqueueExtends<V>(prod: Producer<V>, p: nat, l: nat, log: seq<Entry<V>>)
    requires MayEnqueue(prod, l) && l < |prod.events|
    ensures var t, e := prod.ults[l].target, Entry(Id(p, l), prod.events[l]);
            var lane, lane' := LaneOf(prod, t), LaneOf(Act(prod, p, EnqueueNext(l), 0), t);
            && Pending(lane') == Pending(lane) + [e]
            && Track(p, lane', log) == Track(p, lane, log) + [e]
            && lane'.reply == lane.reply && InFlight(lane') == InFlight(lane)
            && (lane'.q.sender.Sending? <==> lane.q.sender.Sending?)
  {
    var t, e := prod.ults[l].target, Entry(Id(p, l), prod.events[l]);
    var lane := LaneOf(prod, t);
    BatchQueues.PushedKeeps(lane.q, prod.batchSize, e);
    Assoc(InFlight(lane), Concat(lane.q.batches), [e]);
    var sent := if lane.reply.NoReply? then InFlight(lane) else [];
    Assoc(sent, Concat(lane.q.batches), [e]);
    Assoc(Own(p, log), Unsent(lane), [e]);
  }

  lemma EnqueueKeepsOk<V>(prod: Producer<V>, p: nat, l: nat, es: seq<Entry<V>>)
    requires MayEnqueue(prod, l) && |prod.events| == |prod.ults| && AllOk(prod, p, prod.ults[l].target, es)
    ensures var prod', e := Act(prod, p, EnqueueNext(l), 0), Entry(Id(p, l), prod.events[l]);
            && AllOk(prod', p, prod.ults[l].target, es + [e])
            && forall i :: 0 <= i < |es| ==> es[i].id.local != l
  {
    var t := prod.ults[l].target;
    var prod', e := Act(prod, p, EnqueueNext(l), 0), Entry(Id(p, l), prod.events[l]);
    forall i | 0 <= i < |es| ensures EntryOk(prod', p, t, es[i]) && es[i].id.local != l {
      assert EntryOk(prod, p, t, es[i]);
    }
    assert EntryOk(prod', p, t, e);
  }

  lemma OneMoreInOrder<V>(es: seq<Entry<V>>, e: Entry<V>)
    requires forall i :: 0 <= i < |es| ==> es[i].id.local != e.id.local
    ensures DistinctIds(es) ==> DistinctIds(es + [e])
    ensures IncreasingIds(es) && Below(es, e.id.local) ==> IncreasingIds(es + [e]) && Below(es + [e], e.id.local + 1)
  {
  }

  lemma EnqueueKeepsTrack<V>(prod: Producer<V>, p: nat, l: nat, log: seq<Entry<V>>)
    requires MayEnqueue(prod, l) && |prod.events| == |prod.ults|
    requires TrackInv(prod, p, prod.ults[l].target, log)
    ensures TrackInv(Act(prod, p, EnqueueNext(l), 0), p, prod.ults[l].target, log)
  {
    EnqueueExtends(prod, p, l, log);
    var track := Track(p, LaneOf(prod, prod.ults[l].target), log);
    EnqueueKeepsOk(prod, p, l, track);
    OneMoreInOrder(track, Entry(Id(p, l), prod.events[l]));
  }

  lemma OneMoreOpen<V>(outcomes: map<nat, Outcome>, es: seq<Entry<V>>, e: Entry<V>)
    requires AllOpen(outcomes, es) && e.id.local !in outcomes
    ensures AllOpen(outcomes, es + [e])
  {
  }

  lemma EnqueueKeepsPending<V>(prod: Producer<V>, p: nat, l: nat, log: seq<Entry<V>>)
    requires MayEnqueue(prod, l) && |prod.events| == |prod.ults| && l !in prod.outcomes
    requires PendingInv(prod, p, prod.ults[l].target)
    ensures PendingInv(Act(prod, p, EnqueueNext(l), 0), p, prod.ults[l].target)
  {
    var t, e := prod.ults[l].target, Entry(Id(p, l), prod.events[l]);
    var prod' := Act(prod, p, EnqueueNext(l), 0);
    var pending := Pending(LaneOf(prod, t));
    assert Pending(LaneOf(prod', t)) == pending + [e] by { EnqueueExtends(prod, p, l, log); }
    EnqueueKeepsOk(prod, p, l, pending);
    assert DistinctIds(pending + [e]) by { OneMoreInOrder(pending, e); }
    OneMoreOpen(prod.outcomes, pending, e);
  }

  lemma EnqueueKeepsComplete<V>(prod: Producer<V>, p: nat, l: nat, log: seq<Entry<V>>)
    requires MayEnqueue(prod, l) && |prod.events| == |prod.ults| && CompleteInv(prod, prod.ults[l].target)
    ensures CompleteInv(Act(prod, p, EnqueueNext(l), 0), prod.ults[l].target)
  {
    var t, e := prod.ults[l].target, Entry(Id(p, l), prod.events[l]);
    var prod' := Act(prod, p, EnqueueNext(l), 0);
    EnqueueExtends(prod, p, l, log);
    var pending := Pending(LaneOf(prod, t));
    forall k: nat | EnqueuedAt(prod', k, t) ensures k in prod'.outcomes || HasLocal(Pending(LaneOf(prod', t)), k) {
      if k == l {
        assert (pending + [e])[|pending|].id.local == l;
      } else {
        assert EnqueuedAt(prod, k, t);
        HasLocalPrefix(pending, [e], k);
      }
    }
  }

  lemma HasLocalPrefix<V>(a: seq<Entry<V>>, b: seq<Entry<V>>, l: nat)
    ensures HasLocal(a + b, l) <==> HasLocal(a, l) || HasLocal(b, l)
  {
    if HasLocal(a, l) {
      var i :| 0 <= i < |a| && a[i].id.local == l;
      assert (a + b)[i].id.local == l;
    }
    if HasLocal(b, l) {
      var i :| 0 <= i < |b| && b[i].id.local == l;
      assert (a + b)[|a| + i].id.local == l;
    }
  }

  lemma EnqueueKeepsReply<V>(prod: Producer<V>, p: nat, l: nat, log: seq<Entry<V>>)
    requires MayEnqueue(prod, l) && l < |prod.events| && ReplyInv(prod, prod.ults[l].target, log)
    ensures ReplyInv(Act(prod, p, EnqueueNext(l), 0), prod.ults[l].target, log)
  {
    EnqueueExtends(prod, p, l, log);
  }

  lemma EnqueueKeepsLane<V>(prod: Producer<V>, p: nat, l: nat, log: seq<Entry<V>>)
    requires MayEnqueue(prod, l) && |prod.events| == |prod.ults| && l !in prod.outcomes
    requires LaneInv(prod, p, prod.ults[l].target, log)
    ensures LaneInv(Act(prod, p, EnqueueNext(l), 0), p, prod.ults[l].target, log)
  {
    EnqueueKeepsTrack(prod, p, l, log);
    EnqueueKeepsPending(prod, p, l, log);
    EnqueueKeepsComplete(prod, p, l, log);
    EnqueueKeepsReply(prod, p, l, log);
  }

  /** A lane that holds the same entries in another arrangement. */
  lemma RearrangedLaneKeeps<V>(prod: Producer<V>, lane': Lane<V>, p: nat, t: Target, log: seq<Entry<V>>, log': seq<Entry<V>>)
    requires LaneInv(prod, p, t, log)
    requires Pending(lane') == Pending(LaneOf(prod, t)) && Track(p, lane', log') == Track(p, LaneOf(prod, t), log)
    requires ReplyInv(SetLane(prod, t, lane'), t, log')
    ensures LaneInv(SetLane(prod, t, lane'), p, t, log')
  {
    var prod' := SetLane(prod, t, lane');
    RearrangedOk(prod, lane', p, t, Track(p, lane', log'));
    RearrangedOk(prod, lane', p, t, Pending(lane'));
    assert forall l: nat :: EnqueuedAt(prod', l, t) <==> EnqueuedAt(prod, l, t);
  }

  lemma RearrangedOk<V>(prod: Producer<V>, lane': Lane<V>, p: nat, t: Target, es: seq<Entry<V>>)
    requires AllOk(prod, p, t, es)
    ensures AllOk(SetLane(prod, t, lane'), p, t, es)
  {
    forall i | 0 <= i < |es| ensures EntryOk(SetLane(prod, t, lane'), p, t, es[i]) {
      assert EntryOk(prod, p, t, es[i]);
    }
  }

  predicate IsQueueAction<V>(a: Action<V>) {
    a.StartLoop? || a.FlushQueue? || a.StopQueue? || a.WakeLoop? || a.PassLoop?
  }

  lemma QueueActionRearranges<V>(prod: Producer<V>, p: nat, a: Action<V>, log: seq<Entry<V>>)
    requires IsQueueAction(a) && Enabled(prod, a) && ReplyInv(prod, a.target, log)
    ensures var lane, lane' := prod.lanes[a.target], LaneOf(Act(prod, p, a, 0), a.target);
            && Act(prod, p, a, 0) == SetLane(prod, a.target, lane') && lane'.reply == lane.reply
            && Pending(lane') == Pending(lane) && Unsent(lane') == Unsent(lane)
            && (lane.reply.Accepted? ==> InFlight(lane') == InFlight(lane) && lane'.q.sender == lane.q.sender)
            && (!lane'.q.sender.Sending? ==> lane'.reply.NoReply?)
  {
    var lane := prod.lanes[a.target];
    if a.PassLoop? {
      BatchQueues.LookMoves(lane.q, prod.batchSize);
      assert [] + Concat(lane.q.batches) == Concat(lane.q.batches);
    }
  }

  lemma QueueActionKeepsLane<V>(prod: Producer<V>, p: nat, a: Action<V>, log: seq<Entry<V>>)
    requires IsQueueAction(a) && Enabled(prod, a) && LaneInv(prod, p, a.target, log)
    ensures LaneInv(Act(prod, p, a, 0), p, a.target, log)
  {
    QueueActionRearranges(prod, p, a, log);
    RearrangedLaneKeeps(prod, LaneOf(Act(prod, p, a, 0), a.target), p, a.target, log, log);
  }

  /** The server appends the batch, whether or not the sender hears of it. */
  lemma AppendKeepsTrack<V>(prod: Producer<V>, p: nat, t: Target, log: seq<Entry<V>>, reply: Reply)
    requires Sends(prod, t) && PendingInv(prod, p, t) && !reply.NoReply?
    ensures var lane := prod.lanes[t];
            Track(p, lane.(reply := reply), log + lane.q.sender.batch) == Track(p, lane, log)
  {
    var lane := prod.lanes[t];
    var batch, rest := lane.q.sender.batch, Concat(lane.q.batches);
    BatchIsOwn(prod, p, t);
    OwnOfOwn(p, log, batch);
    Assoc(Own(p, log), batch, rest);
    assert [] + rest == rest;
  }

  lemma AppendKeepsReply<V>(prod: Producer<V>, t: Target, log: seq<Entry<V>>, reply: Reply)
    requires Sends(prod, t) && (reply == Accepted(|log|) || reply == Failed)
    ensures ReplyInv(SetLane(prod, t, prod.lanes[t].(reply := reply)), t, log + prod.lanes[t].q.sender.batch)
  {
    var lane := prod.lanes[t].(reply := reply);
    var batch := lane.q.sender.batch;
    assert LaneOf(SetLane(prod, t, lane), t) == lane && InFlight(lane) == batch;
    forall i | 0 <= i < |batch| ensures (log + batch)[|log| + i] == batch[i] {
    }
  }

  lemma ReplyKeepsPending<V>(lane: Lane<V>, reply: Reply)
    ensures Pending(lane.(reply := reply)) == Pending(lane)
  {
  }

  lemma AppendKeepsLane<V>(prod: Producer<V>, p: nat, t: Target, log: seq<Entry<V>>, reply: Reply)
    requires Sends(prod, t) && LaneInv(prod, p, t, log) && (reply == Accepted(|log|) || reply == Failed)
    ensures LaneInv(SetLane(prod, t, prod.lanes[t].(reply := reply)), p, t, log + prod.lanes[t].q.sender.batch)
  {
    var lane := prod.lanes[t];
    AppendKeepsTrack(prod, p, t, log, reply);
    AppendKeepsReply(prod, t, log, reply);
    ReplyKeepsPending(lane, reply);
    RearrangedLaneKeeps(prod, lane.(reply := reply), p, t, log, log + lane.q.sender.batch);
  }

  lemma BatchIsOwn<V>(prod: Producer<V>, p: nat, t: Target)
    requires PendingInv(prod, p, t)
    ensures forall i :: 0 <= i < |InFlight(LaneOf(prod, t))| ==> EntryOk(prod, p, t, InFlight(LaneOf(prod, t))[i])
  {
    var lane := LaneOf(prod, t);
    forall i | 0 <= i < |InFlight(lane)| ensures EntryOk(prod, p, t, InFlight(lane)[i]) {
      assert Pending(lane)[i] == InFlight(lane)[i];
    }
  }

  /** A batch that never reaches the server leaves a gap in the track, and no disorder. */
  lemma LoseKeepsTrack<V>(prod: Producer<V>, p: nat, t: Target, log: seq<Entry<V>>)
    requires Sends(prod, t) && TrackInv(prod, p, t, log)
    ensures TrackInv(SetLane(prod, t, prod.lanes[t].(reply := Failed)), p, t, log)
  {
    var lane := prod.lanes[t];
    var a, b, c := Own(p, log), lane.q.sender.batch, Concat(lane.q.batches);
    assert [] + c == c;
    WithoutMiddle(prod, p, t, a, b, c, prod.ready);
    RearrangedOk(prod, lane.(reply := Failed), p, t, a + c);
  }

  lemma LoseKeepsPending<V>(prod: Producer<V>, p: nat, t: Target)
    requires Sends(prod, t) && PendingInv(prod, p, t) && CompleteInv(prod, t)
    ensures PendingInv(SetLane(prod, t, prod.lanes[t].(reply := Failed)), p, t)
    ensures CompleteInv(SetLane(prod, t, prod.lanes[t].(reply := Failed)), t)
  {
    var prod' := SetLane(prod, t, prod.lanes[t].(reply := Failed));
    RearrangedOk(prod, prod.lanes[t].(reply := Failed), p, t, Pending(prod.lanes[t]));
    assert forall l: nat :: EnqueuedAt(prod', l, t) <==> EnqueuedAt(prod, l, t);
  }

  lemma LoseKeepsLane<V>(prod: Producer<V>, p: nat, t: Target, log: seq<Entry<V>>)
    requires Sends(prod, t) && LaneInv(prod, p, t, log)
    ensures LaneInv(SetLane(prod, t, prod.lanes[t].(reply := Failed)), p, t, log)
  {
    LoseKeepsTrack(prod, p, t, log);
    LoseKeepsPending(prod, p, t);
  }

  lemma WithoutMiddle<V>(prod: Producer<V>, p: nat, t: Target,
                         a: seq<Entry<V>>, b: seq<Entry<V>>, c: seq<Entry<V>>, bound: nat)
    requires AllOk(prod, p, t, a + (b + c)) && DistinctIds(a + (b + c))
    ensures AllOk(prod, p, t, a + c) && DistinctIds(a + c)
    ensures IncreasingIds(a + (b + c)) ==> IncreasingIds(a + c)
    ensures Below(a + (b + c), bound) ==> Below(a + c, bound)
  {
    var whole := a + (b + c);
    forall i | 0 <= i < |a + c| ensures (a + c)[i] == whole[if i < |a| then i else i + |b|] {
    }
  }

  // ----- Fulfilling promises -----

  lemma {:induction false} FulfilledKeys<V>(outcomes: map<nat, Outcome>, batch: seq<Entry<V>>, t: Target, reply: Reply, n: nat, l: nat)
    requires n <= |batch|
    ensures l in Fulfilled(outcomes, batch, t, reply, n) <==> l in outcomes || HasLocal(batch[..n], l)
    ensures l in outcomes && !HasLocal(batch[..n], l) ==> Fulfilled(outcomes, batch, t, reply, n)[l] == outcomes[l]
  {
    if n > 0 {
      FulfilledKeys(outcomes, batch, t, reply, n - 1, l);
      assert batch[..n] == batch[..n - 1] + [batch[n - 1]];
      HasLocalPrefix(batch[..n - 1], [batch[n - 1]], l);
      assert HasLocal([batch[n - 1]], l) <==> batch[n - 1].id.local == l by {
        assert [batch[n - 1]][0] == batch[n - 1];
      }
    }
  }

  lemma {:induction false} FulfilledValue<V>(outcomes: map<nat, Outcome>, batch: seq<Entry<V>>, t: Target, reply: Reply, n: nat, i: nat)
    requires i < n <= |batch| && DistinctIds(batch)
    ensures batch[i].id.local in Fulfilled(outcomes, batch, t, reply, n)
    ensures var outcome := Fulfilled(outcomes, batch, t, reply, n)[batch[i].id.local];
            outcome == if reply.Accepted? then Resolved(t, reply.firstId + i) else Errored
  {
    if i < n - 1 {
      FulfilledValue(outcomes, batch, t, reply, n - 1, i);
    }
  }

  lemma SettleRearranges<V>(prod: Producer<V>, p: nat, t: Target, log: seq<Entry<V>>)
    requires Enabled(prod, Action<V>.Settle(t))
    ensures var lane, lane' := prod.lanes[t], LaneOf(Act(prod, p, Settle(t), 0), t);
            && Pending(lane) == lane.q.sender.batch + Pending(lane')
            && Track(p, lane', log) == Track(p, lane, log)
  {
    var lane := prod.lanes[t];
    BatchQueues.LookMoves(lane.q.(requestFlush := false), prod.batchSize);
    assert [] + Concat(lane.q.batches) == Concat(lane.q.batches);
  }

  lemma SettleKeepsTrack<V>(prod: Producer<V>, p: nat, t: Target, log: seq<Entry<V>>)
    requires Enabled(prod, Action<V>.Settle(t)) && TrackInv(prod, p, t, log)
    ensures TrackInv(Act(prod, p, Settle(t), 0), p, t, log)
  {
    SettleRearranges(prod, p, t, log);
    SettleOk(prod, p, t, Track(p, prod.lanes[t], log));
  }

  lemma SettleOk<V>(prod: Producer<V>, p: nat, t: Target, es: seq<Entry<V>>)
    requires Enabled(prod, Action<V>.Settle(t)) && AllOk(prod, p, t, es)
    ensures AllOk(Act(prod, p, Settle(t), 0), p, t, es)
  {
    forall i | 0 <= i < |es| ensures EntryOk(Act(prod, p, Settle(t), 0), p, t, es[i]) {
      assert EntryOk(prod, p, t, es[i]);
    }
  }

  /** Promises are fulfilled once: those of the settled batch were open, and the pending ones stay open. */
  lemma SettleKeepsPending<V>(prod: Producer<V>, p: nat, t: Target, log: seq<Entry<V>>)
    requires Enabled(prod, Action<V>.Settle(t)) && PendingInv(prod, p, t)
    ensures PendingInv(Act(prod, p, Settle(t), 0), p, t)
  {
    var lane, prod' := prod.lanes[t], Act(prod, p, Settle(t), 0);
    var batch, rest := lane.q.sender.batch, Pending(LaneOf(prod', t));
    SettleRearranges(prod, p, t, log);
    SecondPart(prod, p, t, batch, rest);
    SettleOk(prod, p, t, rest);
    forall i | 0 <= i < |rest| ensures rest[i].id.local !in prod'.outcomes {
      FulfilledKeys(prod.outcomes, batch, t, lane.reply, |batch|, rest[i].id.local);
      assert batch[..|batch|] == batch;
      assert Pending(lane)[|batch| + i] == rest[i];
    }
  }

  lemma SecondPart<V>(prod: Producer<V>, p: nat, t: Target, a: seq<Entry<V>>, b: seq<Entry<V>>)
    requires AllOk(prod, p, t, a + b) && DistinctIds(a + b)
    ensures AllOk(prod, p, t, b) && DistinctIds(a) && DistinctIds(b)
    ensures forall i :: 0 <= i < |b| ==> !HasLocal(a, b[i].id.local)
  {
    forall i | 0 <= i < |b| ensures b[i] == (a + b)[|a| + i] {
    }
    forall i | 0 <= i < |a| ensures a[i] == (a + b)[i] {
    }
  }

  lemma SettleKeepsComplete<V>(prod: Producer<V>, p: nat, t: Target, log: seq<Entry<V>>)
    requires Enabled(prod, Action<V>.Settle(t)) && CompleteInv(prod, t)
    ensures CompleteInv(Act(prod, p, Settle(t), 0), t)
  {
    var lane, prod' := prod.lanes[t], Act(prod, p, Settle(t), 0);
    var batch, rest := lane.q.sender.batch, Pending(LaneOf(prod', t));
    SettleRearranges(prod, p, t, log);
    forall l: nat | EnqueuedAt(prod', l, t) ensures l in prod'.outcomes || HasLocal(rest, l) {
      assert EnqueuedAt(prod, l, t);
      FulfilledKeys(prod.outcomes, batch, t, lane.reply, |batch|, l);
      assert batch[..|batch|] == batch;
      HasLocalPrefix(batch, rest, l);
    }
  }

  lemma SettleKeepsLane<V>(prod: Producer<V>, p: nat, t: Target, log: seq<Entry<V>>)
    requires Enabled(prod, Action<V>.Settle(t)) && LaneInv(prod, p, t, log)
    ensures LaneInv(Act(prod, p, Settle(t), 0), p, t, log)
  {
    SettleKeepsTrack(prod, p, t, log);
    SettleKeepsPending(prod, p, t, log);
    SettleKeepsComplete(prod, p, t, log);
  }

  // ----- One step of the system -----

  predicate IsUltAction<V>(a: Action<V>) {
    a.PushCall? || a.Post? || a.Select? || a.Reject? || a.Leave?
  }

  /** The target whose lane an action works on. */
  function LaneTarget<V>(prod: Producer<V>, a: Action<V>): Target
    requires Enabled(prod, a) && !IsUltAction(a)
  {
    if a.EnqueueNext? then prod.ults[a.local].target else a.target
  }

  lemma UltActionSameLane<V>(prod: Producer<V>, p: nat, a: Action<V>, n: nat, t: Target)
    requires IsUltAction(a) && Enabled(prod, a)
    ensures SameLane(prod, Act(prod, p, a, n), t)
  {
  }

  lemma OtherLaneSame<V>(prod: Producer<V>, p: nat, a: Action<V>, n: nat, t: Target)
    requires !IsUltAction(a) && !a.Settle? && Enabled(prod, a) && t != LaneTarget(prod, a)
    ensures SameLane(prod, Act(prod, p, a, n), t)
  {
  }

  lemma OtherLaneSameSettle<V>(prod: Producer<V>, p: nat, u: Target, t: Target)
    requires Enabled(prod, Action<V>.Settle(u)) && t != u && PendingInv(prod, p, u)
    ensures SameLane(prod, Act(prod, p, Settle(u), 0), t)
  {
    var lane := prod.lanes[u];
    var batch := lane.q.sender.batch;
    forall l: nat | EnqueuedAt(prod, l, t)
      ensures l in Act(prod, p, Settle(u), 0).outcomes <==> l in prod.outcomes
    {
      FulfilledKeys(prod.outcomes, batch, u, lane.reply, |batch|, l);
      assert batch[..|batch|] == batch;
      FirstPart(prod, p, u, batch, Concat(lane.q.batches));
      NotOfOtherLane(prod, p, u, batch, l);
    }
  }

  lemma NotOfOtherLane<V>(prod: Producer<V>, p: nat, u: Target, es: seq<Entry<V>>, l: nat)
    requires AllOk(prod, p, u, es) && !EnqueuedAt(prod, l, u)
    ensures !HasLocal(es, l)
  {
    forall i | 0 <= i < |es| ensures es[i].id.local != l {
      assert EntryOk(prod, p, u, es[i]);
    }
  }

  lemma UltLogs<V>(s: System<V>, step: Step<V>)
    requires EnabledStep(s, step)
    ensures var prod := s.producers[step.producer];
            match Appended(prod, step.action)
            case None => forall t: Target :: LogOf(Do(s, step), t) == LogOf(s, t)
            case Some((u, batch)) =>
              && LogOf(Do(s, step), u) == LogOf(s, u) + batch
              && forall t: Target :: t != u ==> LogOf(Do(s, step), t) == LogOf(s, t)
  {
  }

  /** The acting producer keeps the invariant of each of its lanes. */
  lemma ActKeepsLane<V>(s: System<V>, step: Step<V>, t: Target)
    requires EnabledStep(s, step) && ProducerInv(s.producers[step.producer], step.producer, s)
    ensures LaneInv(Do(s, step).producers[step.producer], step.producer, t, LogOf(Do(s, step), t))
  {
    var p, a := step.producer, step.action;
    var prod := s.producers[p];
    var log := LogOf(s, t);
    UltLogs(s, step);
    assert LaneInv(prod, p, t, log);
    if IsUltAction(a) {
      UltActionSameLane(prod, p, a, LogLength(s, a), t);
      SameLaneKeeps(prod, Act(prod, p, a, LogLength(s, a)), p, t, log);
    } else if t != LaneTarget(prod, a) {
      if a.Settle? {
        assert LaneInv(prod, p, a.target, LogOf(s, a.target));
        OtherLaneSameSettle(prod, p, a.target, t);
      } else {
        OtherLaneSame(prod, p, a, LogLength(s, a), t);
      }
      SameLaneKeeps(prod, Act(prod, p, a, LogLength(s, a)), p, t, log);
    } else {
      OwnLaneKeeps(prod, p, a, log, s);
    }
  }

  lemma OwnLaneKeeps<V>(prod: Producer<V>, p: nat, a: Action<V>, log: seq<Entry<V>>, s: System<V>)
    requires Enabled(prod, a) && !IsUltAction(a) && ProducerInv(prod, p, s)
    requires log == LogOf(s, LaneTarget(prod, a))
    ensures LaneInv(Act(prod, p, a, if a.Append? then |log| else 0), p, LaneTarget(prod, a),
                    match Appended(prod, a) case None => log case Some((_, batch)) => log + batch)
  {
    var t := LaneTarget(prod, a);
    assert LaneInv(prod, p, t, log);
    match a
    case EnqueueNext(l) =>
      assert l in prod.outcomes ==> OutcomeOk(prod, p, s, l);
      EnqueueKeepsLane(prod, p, l, log);
    case Append(_) => AppendKeepsLane(prod, p, t, log, Accepted(|log|));
    case Lose(_, appended) =>
      if appended { AppendKeepsLane(prod, p, t, log, Failed); } else { LoseKeepsLane(prod, p, t, log); }
    case Settle(_) => SettleKeepsLane(prod, p, t, log);
    case _ => QueueActionKeepsLane(prod, p, a, log);
  }

  /** An outcome stays right when logs grow and no enqueued or rejected push changes its fate. */
  lemma OutcomeStays<V>(prod: Producer<V>, prod': Producer<V>, p: nat, s: System<V>, s': System<V>, l: nat)
    requires l in prod.outcomes && OutcomeOk(prod, p, s, l)
    requires l in prod'.outcomes && prod'.outcomes[l] == prod.outcomes[l]
    requires l < |prod.ults| ==> l < |prod'.ults|
    requires l < |prod.ults| && prod.ults[l].Rejected? ==> prod'.ults[l].Rejected?
    requires l < |prod.ults| && prod.ults[l].Enqueued? ==> prod'.ults[l].Enqueued? && prod'.ults[l].target == prod.ults[l].target
    requires forall t: Target :: LogOf(s, t) <= LogOf(s', t)
    ensures OutcomeOk(prod', p, s', l)
  {
  }

  lemma LogsGrow<V>(s: System<V>, step: Step<V>, t: Target)
    requires EnabledStep(s, step)
    ensures LogOf(s, t) <= LogOf(Do(s, step), t)
  {
    UltLogs(s, step);
  }

  lemma ActKeepsOutcomes<V>(s: System<V>, step: Step<V>, l: nat)
    requires EnabledStep(s, step) && ProducerInv(s.producers[step.producer], step.producer, s)
    requires l in Do(s, step).producers[step.producer].outcomes
    ensures OutcomeOk(Do(s, step).producers[step.producer], step.producer, Do(s, step), l)
  {
    var p, a, s' := step.producer, step.action, Do(s, step);
    var prod, prod' := s.producers[p], s'.producers[p];
    forall t: Target ensures LogOf(s, t) <= LogOf(s', t) { LogsGrow(s, step, t); }
    if a.Settle? {
      SettleOutcome(s, step, l);
    } else if a.Reject? && l == a.local {
    } else {
      assert OutcomeOk(prod, p, s, l);
      OutcomeStays(prod, prod', p, s, s', l);
    }
  }

  lemma SettleOutcome<V>(s: System<V>, step: Step<V>, l: nat)
    requires EnabledStep(s, step) && ProducerInv(s.producers[step.producer], step.producer, s) && step.action.Settle?
    requires l in Do(s, step).producers[step.producer].outcomes
    ensures OutcomeOk(Do(s, step).producers[step.producer], step.producer, Do(s, step), l)
  {
    var p, t := step.producer, step.action.target;
    var prod := s.producers[p];
    var lane := prod.lanes[t];
    var batch := lane.q.sender.batch;
    assert LaneInv(prod, p, t, LogOf(s, t));
    FulfilledKeys(prod.outcomes, batch, t, lane.reply, |batch|, l);
    assert batch[..|batch|] == batch;
    if HasLocal(batch, l) {
      FirstPart(prod, p, t, batch, Concat(lane.q.batches));
      var i :| 0 <= i < |batch| && batch[i].id.local == l;
      FulfilledValue(prod.outcomes, batch, t, lane.reply, |batch|, i);
      SettledEntryOk(prod, p, t, s, i);
    } else {
      assert OutcomeOk(prod, p, s, l);
    }
  }

  /** What entry i of the settled batch gets is right for its push. */
  lemma SettledEntryOk<V>(prod: Producer<V>, p: nat, t: Target, s: System<V>, i: nat)
    requires t in prod.lanes && prod.lanes[t].q.sender.Sending? && !prod.lanes[t].reply.NoReply?
    requires i < |prod.lanes[t].q.sender.batch| && AllOk(prod, p, t, prod.lanes[t].q.sender.batch)
    requires ReplyInv(prod, t, LogOf(s, t))
    ensures var e := prod.lanes[t].q.sender.batch[i];
            match OutcomeFor(t, prod.lanes[t].reply, i)
            case Resolved(_, n) => EnqueuedAt(prod, e.id.local, t) && n < |LogOf(s, t)| && LogOf(s, t)[n].id == Id(p, e.id.local)
            case Errored => e.id.local < |prod.ults| && prod.ults[e.id.local].Enqueued?
  {
    var lane := prod.lanes[t];
    assert EntryOk(prod, p, t, lane.q.sender.batch[i]);
    assert lane.reply.Accepted? ==> LogOf(s, t)[lane.reply.firstId + i] == InFlight(lane)[i];
  }

  lemma FirstPart<V>(prod: Producer<V>, p: nat, t: Target, a: seq<Entry<V>>, b: seq<Entry<V>>)
    requires AllOk(prod, p, t, a + b) && DistinctIds(a + b)
    ensures AllOk(prod, p, t, a) && DistinctIds(a)
  {
    forall i | 0 <= i < |a| ensures a[i] == (a + b)[i] {
    }
  }

  /** A step of one producer, seen from another. */
  lemma OtherProducerKeeps<V>(s: System<V>, step: Step<V>, p: nat)
    requires Inv(s) && EnabledStep(s, step) && p in s.producers && p != step.producer
    ensures ProducerInv(s.producers[p], p, Do(s, step))
  {
    var prod, s' := s.producers[p], Do(s, step);
    assert ProducerInv(prod, p, s);
    forall l: nat | l in prod.outcomes ensures OutcomeOk(prod, p, s', l) {
      forall t: Target ensures LogOf(s, t) <= LogOf(s', t) { LogsGrow(s, step, t); }
      OutcomeStays(prod, prod, p, s, s', l);
    }
    forall t: Target ensures LaneInv(prod, p, t, LogOf(s', t)) {
      OtherProducerKeepsLane(s, step, p, t);
    }
  }

  lemma OtherProducerKeepsLane<V>(s: System<V>, step: Step<V>, p: nat, t: Target)
    requires EnabledStep(s, step) && p in s.producers && p != step.producer
    requires ProducerInv(s.producers[step.producer], step.producer, s)
    requires LaneInv(s.producers[p], p, t, LogOf(s, t))
    ensures LaneInv(s.producers[p], p, t, LogOf(Do(s, step), t))
  {
    UltLogs(s, step);
    var actor, a := s.producers[step.producer], step.action;
    if Appended(actor, a).Some? && t == a.target {
      assert LaneInv(actor, step.producer, t, LogOf(s, t));
      BatchIsOwn(actor, step.producer, t);
      OthersKeepLane(s.producers[p], p, t, LogOf(s, t), actor.lanes[t].q.sender.batch);
    }
  }

  lemma DoKeepsKnown<V>(s: System<V>, step: Step<V>)
    requires KnownProducers(s) && EnabledStep(s, step)
    requires ProducerInv(s.producers[step.producer], step.producer, s)
    ensures KnownProducers(Do(s, step))
  {
    UltLogs(s, step);
    forall t: Target, n: nat | n < |LogOf(Do(s, step), t)|
      ensures LogOf(Do(s, step), t)[n].id.producer in Do(s, step).producers
    {
      KnownAt(s, step, t, n);
    }
  }

  lemma KnownAt<V>(s: System<V>, step: Step<V>, t: Target, n: nat)
    requires KnownProducers(s) && EnabledStep(s, step) && n < |LogOf(Do(s, step), t)|
    requires ProducerInv(s.producers[step.producer], step.producer, s)
    ensures LogOf(Do(s, step), t)[n].id.producer in s.producers
  {
    UltLogs(s, step);
    var log := LogOf(s, t);
    if n < |log| {
      assert LogOf(Do(s, step), t)[n] == log[n];
    } else {
      var actor := s.producers[step.producer];
      assert LaneInv(actor, step.producer, t, log);
      BatchIsOwn(actor, step.producer, t);
    }
  }

  lemma DoKeepsInv<V>(s: System<V>, step: Step<V>)
    requires Inv(s) && EnabledStep(s, step)
    ensures Inv(Do(s, step))
  {
    var s' := Do(s, step);
    DoKeepsKnown(s, step);
    forall p: nat | p in s'.producers ensures ProducerInv(s'.producers[p], p, s') {
      if p != step.producer {
        OtherProducerKeeps(s, step, p);
      } else {
        ActingProducerKeeps(s, step);
      }
    }
  }

  lemma ActingProducerKeeps<V>(s: System<V>, step: Step<V>)
    requires EnabledStep(s, step) && ProducerInv(s.producers[step.producer], step.producer, s)
    ensures ProducerInv(Do(s, step).producers[step.producer], step.producer, Do(s, step))
  {
    var p, s' := step.producer, Do(s, step);
    forall l: nat | l in s'.producers[p].outcomes ensures OutcomeOk(s'.producers[p], p, s', l) {
      ActKeepsOutcomes(s, step, l);
    }
    forall t: Target ensures LaneInv(s'.producers[p], p, t, LogOf(s', t)) {
      ActKeepsLane(s, step, t);
    }
  }

  lemma InitialInv<V(!new)>(s: System<V>)
    requires IsInitial(s)
    ensures Inv(s)
  {
    forall p: nat | p in s.producers ensures ProducerInv(s.producers[p], p, s) {
      var strict, batchSize :| s.producers[p] == NewProducer(strict, batchSize);
      forall t: Target ensures LaneInv(s.producers[p], p, t, LogOf(s, t)) {
        assert Own(p, LogOf(s, t)) == [];
      }
    }
  }

  lemma {:induction false} AlwaysInv<V>(s: System<V>, steps: seq<Step<V>>)
    requires Inv(s) && Allowed(s, steps)
    ensures Inv(DoAll(s, steps))
    decreases |steps|
  {
    if steps == [] {
    } else {
      DoKeepsInv(s, steps[0]);
      AlwaysInv(Do(s, steps[0]), steps[1..]);
    }
  }
}
