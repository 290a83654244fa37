/**
 * The order of a log: each producer's events lie in the log of a target in the order in which it enqueued them for
 * that target, strict or loose, and all of them do if no batch was lost.
 */
module EventPathOrder {
  import opened Bytes
  import opened EventPath
  import opened EventPathSafety
  import opened EventPathCalls

  /** The pushes of producer p that selected t, in the order in which the steps enqueue them; all is the whole run. */
  function EnqueuedFor<V>(steps: seq<Step<V>>, all: seq<Step<V>>, p: nat, t: Target): seq<nat> {
    if steps == [] then []
    else
      var step := steps[0];
      (if step.producer == p && step.action.EnqueueNext? && Selected(all, p, step.action.local, t)
       then [step.action.local] else [])
      + EnqueuedFor(steps[1..], all, p, t)
  }

  /** No batch of producer p for t fails to reach the server. */
  predicate NoneLost<V>(steps: seq<Step<V>>, p: nat, t: Target) {
    forall k :: 0 <= k < |steps| ==> !IsLoss(steps[k], p, t)
  }

  predicate IsLoss<V>(step: Step<V>, p: nat, t: Target) {
    step.producer == p && step.action.Lose? && step.action.target == t && !step.action.appended
  }

  function Locals<V>(es: seq<Entry<V>>): (ids: seq<nat>)
    ensures |ids| == |es|
    ensures forall i :: 0 <= i < |es| ==> ids[i] == es[i].id.local
  {
    seq(|es|, i requires 0 <= i < |es| => es[i].id.local)
  }

  /** Element i of a is element f[i] of b, and f ascends. */
  predicate Embeds(a: seq<nat>, b: seq<nat>, f: seq<nat>) {
    && |f| == |a|
    && (forall i :: 0 <= i < |f| ==> f[i] < |b| && b[f[i]] == a[i])
    && (forall i, j :: 0 <= i < j < |f| ==> f[i] < f[j])
  }

  /** a is b with elements left out. */
  ghost predicate Follows(a: seq<nat>, b: seq<nat>) {
    exists f :: Embeds(a, b, f)
  }

  lemma LocalsAppend<V>(a: seq<Entry<V>>, b: seq<Entry<V>>)
    ensures Locals(a + b) == Locals(a) + Locals(b)
  {
  }

  lemma EmbedsOneMore(a: seq<nat>, b: seq<nat>, f: seq<nat>, l: nat)
    requires Embeds(a, b, f)
    ensures Embeds(a + [l], b + [l], f + [|b|])
  {
  }

  lemma EmbedsWithoutMiddle(a: seq<nat>, gone: seq<nat>, c: seq<nat>, b: seq<nat>, f: seq<nat>)
    requires Embeds(a + (gone + c), b, f)
    ensures Embeds(a + c, b, f[..|a|] + f[|a| + |gone|..])
  {
    var whole, f' := a + (gone + c), f[..|a|] + f[|a| + |gone|..];
    forall i | 0 <= i < |f'| ensures f'[i] < |b| && b[f'[i]] == (a + c)[i] {
      var k := if i < |a| then i else i + |gone|;
      assert f'[i] == f[k] && (a + c)[i] == whole[k];
    }
  }

  // ----- One step -----

  /** The entries of producer p for t, as they lie in its log and on their way there. */
  function TrackOf<V>(s: System<V>, p: nat, t: Target): seq<Entry<V>>
    requires p in s.producers
  {
    Track(p, LaneOf(s.producers[p], t), LogOf(s, t))
  }

  predicate EnqueuesFor<V>(s: System<V>, step: Step<V>, p: nat, t: Target)
    requires EnabledStep(s, step)
  {
    step.producer == p && step.action.EnqueueNext? && s.producers[p].ults[step.action.local].target == t
  }

  /** What a step enqueues for t. */
  ghost function Added<V>(s: System<V>, step: Step<V>, p: nat, t: Target): seq<Entry<V>>
    requires Inv(s) && EnabledStep(s, step)
  {
    if EnqueuesFor(s, step, p, t) then [Entry(Id(p, step.action.local), s.producers[p].events[step.action.local])] else []
  }

  lemma OthersKeepTrack<V>(s: System<V>, step: Step<V>, p: nat, t: Target)
    requires Inv(s) && EnabledStep(s, step) && p in s.producers && step.producer != p
    ensures TrackOf(Do(s, step), p, t) == TrackOf(s, p, t)
  {
    UltLogs(s, step);
    var actor, a := s.producers[step.producer], step.action;
    if Appended(actor, a).Some? && t == a.target {
      assert ProducerInv(actor, step.producer, s);
      assert LaneInv(actor, step.producer, t, LogOf(s, t));
      BatchIsOwn(actor, step.producer, t);
      OwnOfOthers(p, LogOf(s, t), actor.lanes[t].q.sender.batch);
    }
  }

  lemma OtherLaneKeepsTrack<V>(s: System<V>, step: Step<V>, t: Target)
    requires EnabledStep(s, step)
    requires var prod := s.producers[step.producer]; IsUltAction(step.action) || t != LaneTarget(prod, step.action)
    ensures TrackOf(Do(s, step), step.producer, t) == TrackOf(s, step.producer, t)
  {
    UltLogs(s, step);
  }

  /** A loss takes a part out of the entries of its lane. */
  lemma LossTakesBatch<V>(s: System<V>, step: Step<V>, t: Target) returns (a: seq<nat>, gone: seq<nat>, c: seq<nat>)
    requires EnabledStep(s, step) && IsLoss(step, step.producer, t)
    ensures Locals(TrackOf(s, step.producer, t)) == a + (gone + c)
    ensures Locals(TrackOf(Do(s, step), step.producer, t)) == a + c
  {
    UltLogs(s, step);
    var lane := s.producers[step.producer].lanes[t];
    var x, y, z := Own(step.producer, LogOf(s, t)), lane.q.sender.batch, Concat(lane.q.batches);
    assert TrackOf(s, step.producer, t) == x + (y + z);
    assert TrackOf(Do(s, step), step.producer, t) == x + z by {
      assert [] + z == z;
    }
    LocalsAppend(x, y + z);
    LocalsAppend(y, z);
    LocalsAppend(x, z);
    a, gone, c := Locals(x), Locals(y), Locals(z);
  }

  /** Every other step of a lane keeps its entries in their order, or adds one at the end. */
  lemma StepKeepsTrack<V>(s: System<V>, step: Step<V>, t: Target)
    requires Inv(s) && EnabledStep(s, step) && !IsLoss(step, step.producer, t)
    requires var prod := s.producers[step.producer]; !IsUltAction(step.action) && t == LaneTarget(prod, step.action)
    ensures TrackOf(Do(s, step), step.producer, t) == TrackOf(s, step.producer, t) + Added(s, step, step.producer, t)
  {
    var p, a, prod, log := step.producer, step.action, s.producers[step.producer], LogOf(s, t);
    UltLogs(s, step);
    assert ProducerInv(prod, p, s);
    assert LaneInv(prod, p, t, log);
    assert TrackOf(s, p, t) + [] == TrackOf(s, p, t);
    match a
    case EnqueueNext(l) => EnqueueExtends(prod, p, l, log);
    case Append(_) => AppendKeepsTrack(prod, p, t, log, Accepted(|log|));
    case Lose(_, _) => AppendKeepsTrack(prod, p, t, log, Failed);
    case Settle(_) => SettleRearranges(prod, p, t, log);
    case _ => QueueActionRearranges(prod, p, a, log);
  }

  lemma StepTrack<V>(s: System<V>, step: Step<V>, p: nat, t: Target)
    requires Inv(s) && EnabledStep(s, step) && p in s.producers && !IsLoss(step, p, t)
    ensures TrackOf(Do(s, step), p, t) == TrackOf(s, p, t) + Added(s, step, p, t)
  {
    assert TrackOf(s, p, t) + [] == TrackOf(s, p, t);
    if step.producer != p {
      OthersKeepTrack(s, step, p, t);
    } else if IsUltAction(step.action) || t != LaneTarget(s.producers[p], step.action) {
      OtherLaneKeepsTrack(s, step, t);
    } else {
      StepKeepsTrack(s, step, t);
    }
  }

  // ----- Runs -----

  /** What the rest of the run enqueues for t is what its steps say, when targets are those of the whole run. */
  ghost predicate TargetsOf<V>(s: System<V>, steps: seq<Step<V>>, all: seq<Step<V>>, p: nat, t: Target)
    requires p in s.producers
  {
    forall l: nat :: Heads(s.producers[p], l, t) || Selected(steps, p, l, t) <==> Selected(all, p, l, t)
  }

  lemma TargetsStep<V>(s: System<V>, steps: seq<Step<V>>, all: seq<Step<V>>, p: nat, t: Target)
    requires Inv(s) && Allowed(s, steps) && steps != [] && p in s.producers && TargetsOf(s, steps, all, p, t)
    ensures TargetsOf(Do(s, steps[0]), steps[1..], all, p, t)
    ensures EnqueuedFor(steps, all, p, t) == Locals(Added(s, steps[0], p, t)) + EnqueuedFor(steps[1..], all, p, t)
  {
    var step := steps[0];
    var actor := s.producers[step.producer];
    forall l: nat ensures Heads(Do(s, step).producers[p], l, t) || Selected(steps[1..], p, l, t) <==> Selected(all, p, l, t) {
      ActKeepsHeads(actor, step.producer, step.action, LogLength(s, step.action), l, t);
    }
    if step.producer == p && step.action.EnqueueNext? {
      WaitingIsSelected(s, steps, p, step.action.local, t);
      assert EnqueuesFor(s, step, p, t) <==> Selected(all, p, step.action.local, t);
    }
  }

  /** A push that waits, or is enqueued, has been given its target, and no later step gives it another. */
  lemma {:induction false} WaitingIsSelected<V>(s: System<V>, steps: seq<Step<V>>, p: nat, l: nat, t: Target)
    requires Allowed(s, steps) && p in s.producers && l < |s.producers[p].ults|
    requires s.producers[p].ults[l].Waiting? || s.producers[p].ults[l].Enqueued?
    ensures !Selected(steps, p, l, t)
    decreases |steps|
  {
    if steps != [] {
      WaitingIsSelected(Do(s, steps[0]), steps[1..], p, l, t);
    }
  }

  lemma {:induction false} TrackFollows<V>(s: System<V>, steps: seq<Step<V>>, all: seq<Step<V>>, p: nat, t: Target,
                                           before: seq<nat>, f: seq<nat>) returns (f': seq<nat>)
    requires Inv(s) && Allowed(s, steps) && p in s.producers && TargetsOf(s, steps, all, p, t)
    requires Embeds(Locals(TrackOf(s, p, t)), before, f)
    ensures p in DoAll(s, steps).producers
    ensures Embeds(Locals(TrackOf(DoAll(s, steps), p, t)), before + EnqueuedFor(steps, all, p, t), f')
    ensures NoneLost(steps, p, t) && Locals(TrackOf(s, p, t)) == before ==>
              Locals(TrackOf(DoAll(s, steps), p, t)) == before + EnqueuedFor(steps, all, p, t)
    decreases |steps|
  {
    if steps == [] {
      f' := f;
      assert before + [] == before;
    } else {
      var step, s' := steps[0], Do(s, steps[0]);
      DoKeepsInv(s, step);
      TargetsStep(s, steps, all, p, t);
      var g := FollowStep(s, step, p, t, before, f);
      var more := Locals(Added(s, step, p, t));
      NoneLostStep(steps, p, t);
      f' := TrackFollows(s', steps[1..], all, p, t, before + more, g);
      Assoc(before, more, EnqueuedFor(steps[1..], all, p, t));
    }
  }

  lemma NoneLostStep<V>(steps: seq<Step<V>>, p: nat, t: Target)
    requires steps != []
    ensures NoneLost(steps, p, t) ==> !IsLoss(steps[0], p, t) && NoneLost(steps[1..], p, t)
  {
  }

  lemma FollowStep<V>(s: System<V>, step: Step<V>, p: nat, t: Target, before: seq<nat>, f: seq<nat>) returns (f': seq<nat>)
    requires Inv(s) && EnabledStep(s, step) && p in s.producers
    requires Embeds(Locals(TrackOf(s, p, t)), before, f)
    ensures Embeds(Locals(TrackOf(Do(s, step), p, t)), before + Locals(Added(s, step, p, t)), f')
    ensures !IsLoss(step, p, t) && Locals(TrackOf(s, p, t)) == before ==>
              Locals(TrackOf(Do(s, step), p, t)) == before + Locals(Added(s, step, p, t))
  {
    if IsLoss(step, p, t) {
      var a, gone, c := LossTakesBatch(s, step, t);
      EmbedsWithoutMiddle(a, gone, c, before, f);
      f' := f[..|a|] + f[|a| + |gone|..];
      assert before + Locals(Added(s, step, p, t)) == before;
    } else {
      StepTrack(s, step, p, t);
      LocalsAppend(TrackOf(s, p, t), Added(s, step, p, t));
      f' := AddedEmbeds(Locals(TrackOf(s, p, t)), Locals(Added(s, step, p, t)), before, f);
    }
  }

  lemma AddedEmbeds(a: seq<nat>, more: seq<nat>, b: seq<nat>, f: seq<nat>) returns (f': seq<nat>)
    requires Embeds(a, b, f) && |more| <= 1
    ensures Embeds(a + more, b + more, f')
  {
    if more == [] {
      assert a + more == a && b + more == b;
      f' := f;
    } else {
      assert more == [more[0]];
      EmbedsOneMore(a, b, f, more[0]);
      f' := f + [|b|];
    }
  }

  lemma InitialTrack<V(!new)>(initial: System<V>, steps: seq<Step<V>>, p: nat, t: Target)
    requires IsInitial(initial) && Allowed(initial, steps) && p in initial.producers
    ensures TrackOf(initial, p, t) == [] && TargetsOf(initial, steps, steps, p, t)
  {
    var strict, batchSize :| initial.producers[p] == NewProducer(strict, batchSize);
    assert Own(p, LogOf(initial, t)) == [];
  }

  /**
   * In every run, strict or loose: the events of a producer that are in the log of a target, and behind them those on
   * their way there, are among the pushes enqueued for that target, in the order in which they were enqueued.
   */
  lemma LogFollowsEnqueueOrder<V(!new)>(initial: System<V>, steps: seq<Step<V>>, p: nat, t: Target)
    requires IsInitial(initial) && Allowed(initial, steps) && p in initial.producers
    ensures p in DoAll(initial, steps).producers
    ensures var s := DoAll(initial, steps);
            var ids := Locals(Own(p, LogOf(s, t))) + Locals(Unsent(LaneOf(s.producers[p], t)));
            && Follows(ids, EnqueuedFor(steps, steps, p, t))
            && (NoneLost(steps, p, t) ==> ids == EnqueuedFor(steps, steps, p, t))
  {
    InitialInv(initial);
    InitialTrack(initial, steps, p, t);
    var f := TrackFollows(initial, steps, steps, p, t, [], []);
    var s := DoAll(initial, steps);
    LocalsAppend(Own(p, LogOf(s, t)), Unsent(LaneOf(s.producers[p], t)));
    assert [] + EnqueuedFor(steps, steps, p, t) == EnqueuedFor(steps, steps, p, t);
  }
}
