/** Properties of a single `handle` call that relate several calls or fix concrete
    inputs: what the handler ignores, what it captures once, and worked examples. */
module HandlerProperties {
  import opened Wrappers
  import opened Levels
  import opened PhpValues
  import opened Host
  import opened WonologDetector
  import opened WonologHandler

  /** The record's Monolog channel is never used as the Wonolog channel: records that
      differ only in their Monolog channel produce the same payload and outcome. */
  lemma RoutingChannelIgnored(h: Handler, d: Detector, env: Env, rec: LogRecord, routing: string)
    ensures Payload(rec.(channel := routing)) == Payload(rec)
    ensures Handle(h, d, env, rec.(channel := routing)) == Handle(h, d, env, rec)
  {
  }

  /** Monolog's bubble flag plays no part in `handle`: the value returned is the
      `stop_propagation` setting, whatever the flag. */
  lemma BubbleIgnored(h: Handler, d: Detector, env: Env, rec: LogRecord, bubble: bool)
    ensures Handle(h.(bubble := bubble), d, env, rec) == Handle(h, d, env, rec)
  {
  }

  /** The action name is captured when the handler is built: every later emission
      uses it, even after the detector is reset or the host's filters change. */
  lemma ActionFixedAtConstruction(level: Level, bubble: bool, shared: Detector, built: Env,
                                  later: Detector, now: Env, rec: LogRecord)
    requires built.hasConfig
    ensures NewHandler(level, bubble, Some(shared), built).Success?
    ensures var h := NewHandler(level, bubble, Some(shared), built).value.0;
            Handle(h, later, now, rec).emitted.Some? ==>
              Handle(h, later, now, rec).emitted.value.action == GetAction(shared, built).value
  {
  }

  /** A record whose context names the channel `SECURITY`: the channel moves from
      the context to the payload, and the rest of the context is kept. */
  lemma ChannelMovesToPayload(h: Handler, d: Detector, env: Env, instant: int)
    requires IsActive(d, env).value
    ensures var rec := LogRecord(Warning, "Login failed", map["channel" := Str("SECURITY"), "x" := Int(1)],
                                 map[], instant, "stack");
            IsHandling(h, rec) ==>
              && Handle(h, d, env, rec).emitted.Some?
              && var p := Handle(h, d, env, rec).emitted.value.payload;
                 && p["channel"] == Str("SECURITY")
                 && p["context"] == Array(map["x" := Int(1), "datetime" := DateTime(instant)])
  {
    var rec := LogRecord(Warning, "Login failed", map["channel" := Str("SECURITY"), "x" := Int(1)],
                         map[], instant, "stack");
    var expected := map["x" := Int(1), "datetime" := DateTime(instant)];
    var fwd := ForwardedContext(rec);
    assert IsSet(rec.context, ChannelKey);
    assert fwd.Keys == expected.Keys;
  }

  /** A null `channel` entry is not a channel (PHP's `isset` is false for it): it
      stays in the forwarded context and the payload gets no `channel` key. */
  lemma NullChannelStaysInContext(rec: LogRecord)
    requires ChannelKey in rec.context && rec.context[ChannelKey] == Null
    ensures ChannelKey !in Payload(rec)
    ensures ChannelKey in ForwardedContext(rec) && ForwardedContext(rec)[ChannelKey] == Null
  {
  }

  /** The end-to-end example: an `ERROR` record for channel `PAYMENT`, with no extra
      data, through a debug-level handler that lets records propagate. */
  lemma PaymentFailureExample(action: string, d: Detector, env: Env, instant: int)
    requires IsActive(d, env).value
    ensures
      var h := Handler(Debug, true, false, action);
      var rec := LogRecord(Error, "Payment failed", map["channel" := Str("PAYMENT"), "order_id" := Int(42)],
                           map[], instant, "single");
      Handle(h, d, env, rec) == Outcome(false, IsActive(d, env).detector, Some(Emission(action, map[
        "level" := Int(400),
        "message" := Str("Payment failed"),
        "context" := Array(map["order_id" := Int(42), "datetime" := DateTime(instant)]),
        "channel" := Str("PAYMENT")])))
  {
    var rec := LogRecord(Error, "Payment failed", map["channel" := Str("PAYMENT"), "order_id" := Int(42)],
                         map[], instant, "single");
    var context := map["order_id" := Int(42), "datetime" := DateTime(instant)];
    assert IsSet(rec.context, ChannelKey);
    assert rec.context - {ChannelKey} == map["order_id" := Int(42)];
    assert ForwardedContext(rec) == context;
    assert WonologChannel(rec) == Some(Str("PAYMENT"));
    assert Payload(rec) == Assemble(400, "Payment failed", context, Some(Str("PAYMENT")));
  }

  /** A debug record below an info threshold is declined before the detector is
      consulted: false, nothing emitted, detector unchanged. */
  lemma DebugBelowInfoThreshold(h: Handler, d: Detector, env: Env, rec: LogRecord)
    requires h.level == Info && rec.level == Debug
    ensures Handle(h, d, env, rec) == Outcome(false, d, None)
  {
  }
}
