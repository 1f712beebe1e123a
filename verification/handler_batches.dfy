/** A stream of records handled one after another by the same handler, sharing one
    detector: what reaches Wonolog's action hook, and what each call returns. */
module HandlerBatches {
  import opened Wrappers
  import opened Host
  import opened WonologDetector
  import opened WonologHandler

  /** What handling a sequence of records produces: the value each `handle` call
      returned, the shared detector at the end, and the `do_action` calls in order. */
  datatype Batch = Batch(decisions: seq<bool>, detector: Detector, log: seq<Emission>)

  /** Handles `recs` in order, threading the shared detector through the calls. */
  function HandleAll(h: Handler, d: Detector, env: Env, recs: seq<LogRecord>): (b: Batch)
    ensures |b.decisions| == |recs|
    ensures |b.log| <= |recs|
    ensures forall i :: 0 <= i < |b.log| ==> b.log[i].action == h.action
    ensures forall i :: 0 <= i < |recs| && b.decisions[i] ==> h.stopPropagation && IsHandling(h, recs[i])
    decreases |recs|
  {
    if recs == [] then
      Batch([], d, [])
    else
      var first := Handle(h, d, env, recs[0]);
      var rest := HandleAll(h, first.detector, env, recs[1..]);
      var emitted := if first.emitted.Some? then [first.emitted.value] else [];
      Batch([first.handled] + rest.decisions, rest.detector, emitted + rest.log)
  }

  /** Reference: the emissions Wonolog should receive when it is active, one per
      record that passes the level threshold, in order. */
  function Forwarded(h: Handler, recs: seq<LogRecord>): seq<Emission>
    decreases |recs|
  {
    if recs == [] then []
    else
      (if IsHandling(h, recs[0]) then [Emission(h.action, Payload(recs[0]))] else [])
      + Forwarded(h, recs[1..])
  }

  /** With Wonolog active and a coherent detector, every record that passes the
      threshold is forwarded exactly once, in order, and each call returns the
      `stop_propagation` setting exactly for those records. */
  lemma {:induction false} ActiveSinkForwardsHandledRecords(h: Handler, d: Detector, env: Env, recs: seq<LogRecord>)
    requires Coherent(d, env) && FreshActive(env)
    ensures HandleAll(h, d, env, recs).log == Forwarded(h, recs)
    ensures forall i :: 0 <= i < |recs| ==>
      (HandleAll(h, d, env, recs).decisions[i] <==> IsHandling(h, recs[i]) && h.stopPropagation)
    decreases |recs|
  {
    if recs != [] {
      var first := Handle(h, d, env, recs[0]);
      IsActiveOnCoherent(d, env);
      assert Coherent(first.detector, env);
      ActiveSinkForwardsHandledRecords(h, first.detector, env, recs[1..]);
      var b := HandleAll(h, d, env, recs);
      var rest := HandleAll(h, first.detector, env, recs[1..]);
      assert b.decisions == [first.handled] + rest.decisions;
      forall i | 0 <= i < |recs|
        ensures b.decisions[i] <==> IsHandling(h, recs[i]) && h.stopPropagation
      {
        if i > 0 {
          assert b.decisions[i] == rest.decisions[i - 1];
          assert recs[1..][i - 1] == recs[i];
        }
      }
    }
  }

  /** With Wonolog inactive and a coherent detector, nothing is ever forwarded and
      every call returns false, whatever the records' levels and whatever the
      `stop_propagation` setting. */
  lemma {:induction false} InactiveSinkNeverForwards(h: Handler, d: Detector, env: Env, recs: seq<LogRecord>)
    requires Coherent(d, env) && !FreshActive(env)
    ensures HandleAll(h, d, env, recs).log == []
    ensures forall i :: 0 <= i < |recs| ==> !HandleAll(h, d, env, recs).decisions[i]
    decreases |recs|
  {
    if recs != [] {
      var first := Handle(h, d, env, recs[0]);
      IsActiveOnCoherent(d, env);
      assert Coherent(first.detector, env);
      InactiveSinkNeverForwards(h, first.detector, env, recs[1..]);
      var b := HandleAll(h, d, env, recs);
      var rest := HandleAll(h, first.detector, env, recs[1..]);
      assert b.decisions == [first.handled] + rest.decisions;
      forall i | 0 < i < |recs|
        ensures !b.decisions[i]
      {
        assert b.decisions[i] == rest.decisions[i - 1];
      }
    }
  }

  /** When the host has no `did_action` function, a detector that has not already
      cached "active" makes every call decline: nothing is forwarded and every call
      returns false. */
  lemma {:induction false} SilentWithoutDidAction(h: Handler, d: Detector, env: Env, recs: seq<LogRecord>)
    requires !env.hasDidAction && d.activeCache != Some(true)
    ensures HandleAll(h, d, env, recs).log == []
    ensures forall i :: 0 <= i < |recs| ==> !HandleAll(h, d, env, recs).decisions[i]
    decreases |recs|
  {
    if recs != [] {
      var first := Handle(h, d, env, recs[0]);
      assert first.detector.activeCache != Some(true);
      SilentWithoutDidAction(h, first.detector, env, recs[1..]);
      var b := HandleAll(h, d, env, recs);
      var rest := HandleAll(h, first.detector, env, recs[1..]);
      assert b.decisions == [first.handled] + rest.decisions;
      forall i | 0 < i < |recs|
        ensures !b.decisions[i]
      {
        assert b.decisions[i] == rest.decisions[i - 1];
      }
    }
  }
}
