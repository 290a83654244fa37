/**
 * The pool that runs ULTs by priority. std::priority_queue is taken at its contract: top() is an element that no
 * other exceeds under operator<, and pop() takes that element out.
 */
module PrioPools {
  import opened Wrappers

  /** A thread: its address, and the priority in its argument block if it has one. */
  datatype Unit = Unit(address: int, args: Option<nat>) {
    function Priority(): nat {
      if args.Some? then args.value else 0
    }

    /** operator<: a unit is less if its priority value is greater; addresses break ties. */
    predicate Less(other: Unit) {
      if Priority() < other.Priority() then false
      else if Priority() > other.Priority() then true
      else address < other.address
    }
  }

  /** A thread has one argument block. */
  ghost predicate OneArgs(units: multiset<Unit>) {
    forall u, v :: u in units && v in units && u.address == v.address ==> u == v
  }

  /** operator< orders units strictly, and any two different threads one way or the other. */
  lemma LessIsStrictTotalOrder(u: Unit, v: Unit, w: Unit)
    requires OneArgs(multiset{u, v, w})
    ensures !u.Less(u) && !(u.Less(v) && v.Less(u))
    ensures u.Less(v) && v.Less(w) ==> u.Less(w)
    ensures u.Less(v) || v.Less(u) || u == v
  {
    assert u in multiset{u, v, w} && v in multiset{u, v, w};
  }

  ghost predicate IsTop(queue: multiset<Unit>, top: Unit) {
    top in queue && forall u :: u in queue ==> !top.Less(u)
  }

  lemma {:induction false} TopExists(queue: multiset<Unit>) returns (top: Unit)
    requires |queue| > 0
    ensures IsTop(queue, top)
    decreases |queue|
  {
    var u :| u in queue;
    var rest := queue - multiset{u};
    if |rest| == 0 {
      top := u;
      assert queue == rest + multiset{u};
    } else {
      var best := TopExists(rest);
      assert queue == rest + multiset{u};
      top := if best.Less(u) then u else best;
    }
  }

  /** Taken off the pool one after the other: each was on top of what was left. */
  ghost predicate TakenInOrder(queue: multiset<Unit>, taken: seq<Unit>)
    decreases |taken|
  {
    taken == [] || (IsTop(queue, taken[0]) && TakenInOrder(queue - multiset{taken[0]}, taken[1..]))
  }

  lemma LessOneMore(queue: multiset<Unit>, taken: seq<Unit>, u: Unit)
    ensures queue - multiset(taken) - multiset{u} == queue - multiset(taken + [u])
  {
  }

  /** Taking one more. */
  lemma {:induction false} TakeOneMore(queue: multiset<Unit>, taken: seq<Unit>, u: Unit)
    requires TakenInOrder(queue, taken) && IsTop(queue - multiset(taken), u)
    ensures TakenInOrder(queue, taken + [u])
    decreases |taken|
  {
    if taken == [] {
      assert (taken + [u])[1..] == [];
    } else {
      var rest := queue - multiset{taken[0]};
      FirstTaken(queue, taken);
      TakeOneMore(rest, taken[1..], u);
      assert (taken + [u])[1..] == taken[1..] + [u];
    }
  }

  lemma FirstTaken(queue: multiset<Unit>, taken: seq<Unit>)
    requires taken != []
    ensures queue - multiset{taken[0]} - multiset(taken[1..]) == queue - multiset(taken)
    ensures taken[0] in queue && multiset(taken[1..]) <= queue - multiset{taken[0]} ==> multiset(taken) <= queue
  {
    assert taken == [taken[0]] + taken[1..];
  }

  lemma {:induction false} TakenWereIn(queue: multiset<Unit>, taken: seq<Unit>)
    requires TakenInOrder(queue, taken)
    ensures multiset(taken) <= queue
    decreases |taken|
  {
    if taken != [] {
      TakenWereIn(queue - multiset{taken[0]}, taken[1..]);
      FirstTaken(queue, taken);
    }
  }

  /**
   * u may leave the pool before v: values are compared first, where a thread without an argument block counts as one
   * of value 0, and of two equal values the greater address goes first.
   */
  predicate MayPrecede(u: Unit, v: Unit) {
    match (u.args, v.args)
    case (Some(a), Some(b)) => a < b || (a == b && v.address <= u.address)
    case (None, Some(b)) => 0 < b || v.address <= u.address
    case (Some(a), None) => a == 0 && v.address <= u.address
    case (None, None) => v.address <= u.address
  }

  /** The top of the pool is the unit that may precede all others. */
  lemma TopIff(queue: multiset<Unit>, top: Unit)
    ensures IsTop(queue, top) <==> top in queue && forall v :: v in queue ==> MayPrecede(top, v)
  {
  }

  lemma {:induction false} TakenAt(queue: multiset<Unit>, taken: seq<Unit>, i: nat, v: Unit)
    requires TakenInOrder(queue, taken) && i < |taken|
    requires v in taken[i..] || v in queue - multiset(taken)
    ensures taken[i] in queue && MayPrecede(taken[i], v)
    decreases |taken|
  {
    TakenWereIn(queue, taken);
    FirstTaken(queue, taken);
    if i == 0 {
      TopIff(queue, taken[0]);
      assert taken[0..] == taken;
      assert v in taken ==> v in multiset(taken);
    } else {
      assert taken[1..][i - 1..] == taken[i..];
      TakenAt(queue - multiset{taken[0]}, taken[1..], i - 1, v);
    }
  }

  /**
   * Units leave the pool by ascending value of their argument blocks, and none of smaller value is left behind. One
   * without a block leaves before all of positive value, and among equal ones the greater address leaves first.
   */
  lemma TakenAscend(queue: multiset<Unit>, taken: seq<Unit>, i: nat, v: Unit)
    requires TakenInOrder(queue, taken) && i < |taken|
    requires v in taken[i..] || v in queue - multiset(taken)
    ensures multiset(taken) <= queue
    ensures taken[i].args.Some? && v.args.Some? ==> taken[i].args.value <= v.args.value
    ensures v.args.None? ==> taken[i].args.None? || taken[i].args.value == 0
    ensures taken[i].args == v.args ==> v.address <= taken[i].address
  {
    TakenWereIn(queue, taken);
    TakenAt(queue, taken, i, v);
  }

  lemma TakenPrecede(queue: multiset<Unit>, taken: seq<Unit>)
    requires TakenInOrder(queue, taken)
    ensures forall i, j :: 0 <= i < j < |taken| ==> MayPrecede(taken[i], taken[j])
    ensures forall i, v :: 0 <= i < |taken| && v in queue - multiset(taken) ==> MayPrecede(taken[i], v)
  {
    forall i, j | 0 <= i < j < |taken| ensures MayPrecede(taken[i], taken[j]) {
      assert taken[i..][j - i] == taken[j];
      TakenAt(queue, taken, i, taken[j]);
    }
    forall i, v | 0 <= i < |taken| && v in queue - multiset(taken) ensures MayPrecede(taken[i], v) {
      TakenAt(queue, taken, i, v);
    }
  }

  /** Whatever the queue does inside, the units that leave it and their order are determined. */
  lemma {:induction false} OrderIsDetermined(queue: multiset<Unit>, taken: seq<Unit>, others: seq<Unit>)
    requires OneArgs(queue) && TakenInOrder(queue, taken) && TakenInOrder(queue, others) && |taken| == |others|
    ensures taken == others
    decreases |taken|
  {
    if taken != [] {
      TopIsUnique(queue, taken[0], others[0]);
      OrderIsDetermined(queue - multiset{taken[0]}, taken[1..], others[1..]);
      assert taken == [taken[0]] + taken[1..] && others == [others[0]] + others[1..];
    }
  }

  lemma TopIsUnique(queue: multiset<Unit>, u: Unit, v: Unit)
    requires OneArgs(queue) && IsTop(queue, u) && IsTop(queue, v)
    ensures u == v
  {
    assert !u.Less(v) && !v.Less(u);
  }

  class PrioPool {
    var queue: multiset<Unit>
    /** What all calls have put in, and what they have given out. */
    ghost var pushed: multiset<Unit>
    ghost var popped: multiset<Unit>

    ghost predicate Conserves()
      reads this
    {
      pushed == popped + queue
    }

    constructor ()
      ensures queue == multiset{} && pushed == multiset{} && Conserves()
    {
      queue, pushed, popped := multiset{}, multiset{}, multiset{};
    }

    method Push(unit: Unit)
      requires Conserves()
      modifies this
      ensures Conserves() && popped == old(popped) && pushed == old(pushed) + multiset{unit}
      ensures queue == old(queue) + multiset{unit}
    {
      queue := queue + multiset{unit};
      pushed := pushed + multiset{unit};
    }

    method PushMany(units: seq<Unit>)
      requires Conserves()
      modifies this
      ensures Conserves() && popped == old(popped) && pushed == old(pushed) + multiset(units)
      ensures queue == old(queue) + multiset(units)
    {
      for i := 0 to |units|
        invariant Conserves() && popped == old(popped) && pushed == old(pushed) + multiset(units[..i])
        invariant queue == old(queue) + multiset(units[..i])
      {
        assert units[..i + 1] == units[..i] + [units[i]];
        Push(units[i]);
      }
      assert units[..|units|] == units;
    }

    /** top() and pop(). */
    method TakeTop() returns (unit: Unit)
      requires Conserves() && |queue| > 0
      modifies this
      ensures Conserves() && pushed == old(pushed) && popped == old(popped) + multiset{unit}
      ensures IsTop(old(queue), unit) && queue == old(queue) - multiset{unit} && |queue| == |old(queue)| - 1
    {
      ghost var top := TopExists(queue);
      unit :| unit in queue && forall u :: u in queue ==> !unit.Less(u);
      queue := queue - multiset{unit};
      popped := popped + multiset{unit};
    }

    method Pop() returns (unit: Option<Unit>)
      requires Conserves()
      modifies this
      ensures Conserves() && pushed == old(pushed)
      ensures unit.None? <==> |old(queue)| == 0
      ensures unit.None? ==> queue == old(queue)
      ensures unit.Some? ==> unit.value in old(queue) && queue == old(queue) - multiset{unit.value}
      ensures unit.Some? ==> forall v :: v in old(queue) ==> MayPrecede(unit.value, v)
    {
      unit := None;
      if |queue| > 0 {
        var top := TakeTop();
        TopIff(old(queue), top);
        unit := Some(top);
      }
    }

    method PopMany(maxThreads: nat) returns (threads: seq<Unit>)
      requires Conserves()
      modifies this
      ensures Conserves() && pushed == old(pushed)
      ensures |threads| == Min(maxThreads, |old(queue)|)
      ensures TakenInOrder(old(queue), threads) && queue == old(queue) - multiset(threads)
      ensures forall i, j :: 0 <= i < j < |threads| ==> MayPrecede(threads[i], threads[j])
      ensures forall i, v :: 0 <= i < |threads| && v in queue ==> MayPrecede(threads[i], v)
    {
      var numPopped := Min(maxThreads, |queue|);
      threads := [];
      ghost var all := queue;
      for i := 0 to numPopped
        invariant |threads| == i && Conserves() && pushed == old(pushed)
        invariant |queue| == |all| - i
        invariant TakenInOrder(all, threads) && queue == all - multiset(threads)
      {
        var top := TakeTop();
        TakeOneMore(all, threads, top);
        LessOneMore(all, threads, top);
        threads := threads + [top];
      }
      TakenPrecede(all, threads);
    }
  }
}
