/** What one session sends, as the consumer receives it: the results of its passes, one after the other. */
module Streams {
  import opened Bytes
  import opened Wrappers
  import opened TopicLog
  import opened Consumers
  import opened Sessions

  /** The results of the batch that a step feeds in session i: those of Consumer.RecvBatch on the log of that moment. */
  function PassResults(options: DataOptions, t: Topic<Event>, step: Step<Event>, i: nat): seq<Result<Delivered>>
    requires Enabled(t, step)
  {
    if step == Feed(i, true) then Outcomes(options, t.log, t.sessions[i].next, ToSend(t, i)) else []
  }

  /** All results of session i over a run. */
  function Stream(options: DataOptions, t: Topic<Event>, steps: seq<Step<Event>>, i: nat): seq<Result<Delivered>>
    requires Allowed(t, steps)
    decreases |steps|
  {
    if steps == [] then []
    else PassResults(options, t, steps[0], i) + Stream(options, Do(t, steps[0]), steps[1..], i)
  }

  /** The results so far are those of the entries that the session has gone through. */
  ghost predicate UpToDate(options: DataOptions, t: Topic<Event>, i: nat, results: seq<Result<Delivered>>) {
    if i < |t.sessions| then
      var s := t.sessions[i];
      s.start <= s.next && |results| == s.next - s.start && AreOutcomes(results, options, t.log, s.start)
    else results == []
  }

  /** How a step changes the log. */
  function AppendedBy<E>(step: Step<E>): seq<E> {
    if step.Append? then step.batch else []
  }

  lemma LogAfter<E>(t: Topic<E>, step: Step<E>)
    requires Enabled(t, step)
    ensures Do(t, step).log == t.log + AppendedBy(step)
  {
    assert t.log + [] == t.log;
  }

  lemma PassKeepsUpToDate(options: DataOptions, t: Topic<Event>, i: nat, before: seq<Result<Delivered>>,
                          more: seq<Result<Delivered>>)
    requires Enabled(t, Feed(i, true)) && UpToDate(options, t, i, before)
    requires |more| == ToSend(t, i) && AreOutcomes(more, options, t.log, t.sessions[i].next)
    ensures UpToDate(options, Do(t, Feed(i, true)), i, before + more)
  {
    SameLogJoin(options, t.log, t.sessions[i].start, before, more);
  }

  lemma StepKeepsUpToDate(options: DataOptions, t: Topic<Event>, step: Step<Event>, i: nat, before: seq<Result<Delivered>>)
    requires Enabled(t, step) && step != Feed(i, false) && UpToDate(options, t, i, before)
    ensures UpToDate(options, Do(t, step), i, before + PassResults(options, t, step, i))
  {
    if step == Feed(i, true) {
      OutcomesAre(options, t.log, t.sessions[i].next, ToSend(t, i));
      PassKeepsUpToDate(options, t, i, before, PassResults(options, t, step, i));
    } else {
      assert before + [] == before;
      LogAfter(t, step);
      if i < |t.sessions| {
        OutcomesStay(before, options, t.log, AppendedBy(step), t.sessions[i].start);
      }
    }
  }

  lemma {:induction false} StreamUpToDate(options: DataOptions, t: Topic<Event>, steps: seq<Step<Event>>, i: nat,
                                          before: seq<Result<Delivered>>)
    requires Allowed(t, steps) && AllReached(steps, i) && UpToDate(options, t, i, before)
    ensures UpToDate(options, DoAll(t, steps), i, before + Stream(options, t, steps, i))
    decreases |steps|
  {
    if steps == [] {
      assert before + [] == before;
    } else {
      var pass := PassResults(options, t, steps[0], i);
      StepKeepsUpToDate(options, t, steps[0], i, before);
      assert forall k :: 0 <= k < |steps| - 1 ==> steps[1..][k] == steps[k + 1];
      StreamUpToDate(options, Do(t, steps[0]), steps[1..], i, before + pass);
      Assoc(before, pass, Stream(options, Do(t, steps[0]), steps[1..], i));
    }
  }

  /**
   * Over any run of a topic, with any appends and any other sessions in between: the results of a session whose feed()
   * calls all succeeded are those of the entries of the final log from its start on, without a gap.
   */
  lemma SessionStream(options: DataOptions, steps: seq<Step<Event>>, i: nat)
    requires FromNew(steps) && i < |After(steps).sessions| && AllReached(steps, i)
    ensures var stream, s := Stream(options, NewTopic(), steps, i), After(steps).sessions[i];
            && s.start <= s.next && |stream| == s.next - s.start
            && AreOutcomes(stream, options, After(steps).log, s.start)
  {
    StreamUpToDate(options, NewTopic(), steps, i, []);
    assert [] + Stream(options, NewTopic(), steps, i) == Stream(options, NewTopic(), steps, i);
  }
}
