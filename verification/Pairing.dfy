/**
 * How pull() calls meet events: one deque of promise/future cells and one credit flag, as a state machine.
 *
 * Each step is a critical section under the mutex of the deque: a pull() call, or the part of recvBatch that finds
 * the promise of one event. Steps of any number of callers and of any number of recvBatch calls interleave freely.
 */
module Pairing {
  import Bytes

  /** Cells are numbered in order of creation; held says which event the promise of a cell was given. */
  datatype Pairing<E> = Pairing(deque: seq<nat>, credit: bool, next: nat,
                                pulled: seq<nat>, received: seq<nat>, events: seq<E>, held: map<nat, E>)

  /** The flag is not initialised. */
  function Initial<E>(credit: bool): Pairing<E> {
    Pairing([], credit, 0, [], [], [], map[])
  }

  datatype Step<E> = Pull | Receive(event: E)

  function Do<E>(s: Pairing<E>, step: Step<E>): Pairing<E> {
    match step
    case Pull =>
      if s.credit || s.deque == [] then
        s.(deque := s.deque + [s.next], credit := true, next := s.next + 1, pulled := s.pulled + [s.next])
      else
        s.(deque := s.deque[1..], credit := false, pulled := s.pulled + [s.deque[0]])
    case Receive(event) =>
      var cell := if !s.credit || s.deque == [] then s.next else s.deque[0];
      var s' := s.(received := s.received + [cell], events := s.events + [event], held := s.held[cell := event]);
      if !s.credit || s.deque == [] then
        s'.(deque := s.deque + [cell], credit := false, next := s.next + 1)
      else
        s'.(deque := s.deque[1..], credit := true)
  }

  function DoAll<E>(s: Pairing<E>, steps: seq<Step<E>>): Pairing<E>
    decreases |steps|
  {
    if steps == [] then s else DoAll(Do(s, steps[0]), steps[1..])
  }

  predicate Counts(cells: seq<nat>, from: nat) {
    forall i :: 0 <= i < |cells| ==> cells[i] == from + i
  }

  function Lesser(a: nat, b: nat): nat {
    if a <= b then a else b
  }

  /**
   * The k-th pull and the k-th event meet in cell k, and in no other. The deque holds exactly the cells by which
   * one side is ahead, and then the flag names that side; the promise of a cell is given one event at most.
   */
  ghost predicate Paired<E>(s: Pairing<E>) {
    var p, r := |s.pulled|, |s.received|;
    && Counts(s.pulled, 0) && Counts(s.received, 0) && Counts(s.deque, Lesser(p, r))
    && s.next == Lesser(p, r) + |s.deque| && s.next >= p && s.next >= r
    && (s.next == p || s.next == r)
    && (p > r ==> s.credit) && (r > p ==> !s.credit)
    && |s.events| == r
    && (forall k :: 0 <= k < r ==> k in s.held && s.held[k] == s.events[k])
    && (forall c :: c in s.held ==> c < r)
  }

  /** The future that pull number k returned holds the event. */
  ghost predicate Gets<E>(s: Pairing<E>, k: nat, event: E) {
    k < |s.pulled| && s.pulled[k] in s.held && s.held[s.pulled[k]] == event
  }

  lemma DoKeepsPaired<E>(s: Pairing<E>, step: Step<E>)
    requires Paired(s)
    ensures Paired(Do(s, step))
  {
  }

  lemma {:induction false} AlwaysPaired<E>(s: Pairing<E>, steps: seq<Step<E>>)
    requires Paired(s)
    ensures Paired(DoAll(s, steps))
    decreases |steps|
  {
    if steps == [] {
    } else {
      DoKeepsPaired(s, steps[0]);
      AlwaysPaired(Do(s, steps[0]), steps[1..]);
    }
  }

  /** The events received in a run, and the number of its pulls. */
  function Events<E>(steps: seq<Step<E>>): seq<E> {
    if steps == [] then [] else EventOf(steps[0]) + Events(steps[1..])
  }

  function EventOf<E>(step: Step<E>): seq<E> {
    match step case Pull => [] case Receive(e) => [e]
  }

  function Pulls<E>(steps: seq<Step<E>>): nat {
    if steps == [] then 0 else (if steps[0].Pull? then 1 else 0) + Pulls(steps[1..])
  }

  lemma DoHistory<E>(s: Pairing<E>, step: Step<E>)
    ensures Do(s, step).events == s.events + EventOf(step)
    ensures |Do(s, step).pulled| == |s.pulled| + (if step.Pull? then 1 else 0)
  {
  }

  lemma {:induction false} RunHistory<E>(s: Pairing<E>, steps: seq<Step<E>>)
    ensures DoAll(s, steps).events == s.events + Events(steps)
    ensures |DoAll(s, steps).pulled| == |s.pulled| + Pulls(steps)
    decreases |steps|
  {
    if steps == [] {
      assert s.events + [] == s.events;
    } else {
      DoHistory(s, steps[0]);
      RunHistory(Do(s, steps[0]), steps[1..]);
      Bytes.Assoc(s.events, EventOf(steps[0]), Events(steps[1..]));
    }
  }

  lemma PairedGets<E>(s: Pairing<E>, k: nat)
    requires Paired(s) && k < |s.pulled|
    ensures k < |s.events| ==> Gets(s, k, s.events[k])
    ensures |s.events| <= k ==> s.pulled[k] !in s.held
    ensures forall j :: 0 <= j < |s.pulled| && j != k ==> s.pulled[j] != s.pulled[k]
    ensures |s.deque| == if |s.pulled| >= |s.events| then |s.pulled| - |s.events| else |s.events| - |s.pulled|
  {
  }

  /**
   * For every interleaving and any initial flag: the future of the k-th pull holds the k-th event as soon as that
   * event has been received, and nothing before; no other pull gets it; the deque holds the difference.
   */
  lemma KthPullGetsKthEvent<E>(credit: bool, steps: seq<Step<E>>, k: nat)
    requires k < Pulls(steps)
    ensures var s := DoAll(Initial<E>(credit), steps);
            && |s.pulled| == Pulls(steps)
            && (k < |Events(steps)| ==> Gets(s, k, Events(steps)[k]))
            && (|Events(steps)| <= k ==> s.pulled[k] !in s.held)
            && (forall j :: 0 <= j < Pulls(steps) && j != k ==> s.pulled[j] != s.pulled[k])
            && |s.deque| == if Pulls(steps) >= |Events(steps)| then Pulls(steps) - |Events(steps)|
                            else |Events(steps)| - Pulls(steps)
  {
    AlwaysPaired(Initial<E>(credit), steps);
    RunHistory(Initial<E>(credit), steps);
    assert [] + Events(steps) == Events(steps);
    PairedGets(DoAll(Initial<E>(credit), steps), k);
  }
}
