/**
 * A consumer of several targets: the events of all of them meet its pull() calls in one deque. Each target's events
 * arrive in the order in which that target feeds them, and the targets' events interleave in any way.
 */
module Arrivals {
  import opened Pairing

  /** An event knows the target it comes from. */
  datatype Arrival<R> = Arrival(target: nat, result: R)

  /** The arrivals from one target. */
  function From<R>(t: nat, arrivals: seq<Arrival<R>>): seq<R> {
    if arrivals == [] then []
    else
      var n := |arrivals| - 1;
      From(t, arrivals[..n]) + (if arrivals[n].target == t then [arrivals[n].result] else [])
  }

  /** Where arrival m of target t is among all arrivals. */
  function Position<R>(t: nat, arrivals: seq<Arrival<R>>, m: nat): (k: nat)
    requires m < |From(t, arrivals)|
    ensures k < |arrivals| && arrivals[k] == Arrival(t, From(t, arrivals)[m])
  {
    var n := |arrivals| - 1;
    if m < |From(t, arrivals[..n])| then Position(t, arrivals[..n], m) else n
  }

  /** Every arrival of the target is at the position of one of its events. */
  lemma {:induction false} EveryArrivalHasPosition<R>(t: nat, arrivals: seq<Arrival<R>>, j: nat) returns (m: nat)
    requires j < |arrivals| && arrivals[j].target == t
    ensures m < |From(t, arrivals)| && Position(t, arrivals, m) == j
    decreases |arrivals|
  {
    var n := |arrivals| - 1;
    if j < n {
      m := EveryArrivalHasPosition(t, arrivals[..n], j);
    } else {
      m := |From(t, arrivals[..n])|;
    }
  }

  /** Later events of a target have later positions. */
  lemma {:induction false} PositionsIncrease<R>(t: nat, arrivals: seq<Arrival<R>>, m: nat, m': nat)
    requires m < m' < |From(t, arrivals)|
    ensures Position(t, arrivals, m) < Position(t, arrivals, m')
    decreases |arrivals|
  {
    var n := |arrivals| - 1;
    if m' < |From(t, arrivals[..n])| {
      PositionsIncrease(t, arrivals[..n], m, m');
    }
  }

  /** For every interleaving: pull j, if it was made, returns exactly arrival j. */
  lemma PullIsArrivalIff<R>(credit: bool, steps: seq<Step<Arrival<R>>>, j: nat, a: Arrival<R>)
    requires j < Pulls(steps)
    ensures Gets(DoAll(Initial(credit), steps), j, a) <==> j < |Events(steps)| && Events(steps)[j] == a
  {
    KthPullGetsKthEvent(credit, steps, j);
  }

  /** Event m of target t is returned by the pull of its position, and nothing of t is returned otherwise. */
  lemma PullOfTarget<R>(credit: bool, steps: seq<Step<Arrival<R>>>, t: nat, m: nat)
    requires m < |From(t, Events(steps))| && Position(t, Events(steps), m) < Pulls(steps)
    ensures Gets(DoAll(Initial(credit), steps), Position(t, Events(steps), m), Arrival(t, From(t, Events(steps))[m]))
  {
    PullIsArrivalIff(credit, steps, Position(t, Events(steps), m), Arrival(t, From(t, Events(steps))[m]));
  }

  lemma PulledOfTarget<R>(credit: bool, steps: seq<Step<Arrival<R>>>, t: nat, j: nat, r: R) returns (m: nat)
    requires j < Pulls(steps) && Gets(DoAll(Initial(credit), steps), j, Arrival(t, r))
    ensures m < |From(t, Events(steps))| && Position(t, Events(steps), m) == j && From(t, Events(steps))[m] == r
  {
    PullIsArrivalIff(credit, steps, j, Arrival(t, r));
    m := EveryArrivalHasPosition(t, Events(steps), j);
  }
}
