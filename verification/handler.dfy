/** The Monolog handler that forwards records to Wonolog's action hook
    (src/Handler/WonologHandler.php).

    `handle` is a pure function of the handler, the current state of the shared
    detector, the host environment and the record; it returns the propagation
    signal, the detector after the availability check, and the `do_action` call it
    made, if any. */
module WonologHandler {
  import opened Wrappers
  import opened Levels
  import opened PhpValues
  import opened Host
  import opened WonologDetector

  /** A Monolog log record. `channel` is Monolog's own routing channel (the Laravel
      logging channel), distinct from the Wonolog channel a caller may put in the
      context; `datetime` is the record's timestamp, an opaque instant. */
  datatype LogRecord = LogRecord(
    level: Level,
    message: string,
    context: Context,
    extra: Context,
    datetime: int,
    channel: string)

  /** The handler's state, fixed at construction: the level threshold, Monolog's
      bubble flag, the `stop_propagation` setting and the action hook name. */
  datatype Handler = Handler(level: Level, bubble: bool, stopPropagation: bool, action: string)

  /** One `do_action($action, $payload)` call. */
  datatype Emission = Emission(action: string, payload: Context)

  /** The result of `handle`: the value returned (true stops propagation to the
      other handlers), the shared detector afterwards, and the emission, if any. */
  datatype Outcome = Outcome(handled: bool, detector: Detector, emitted: Option<Emission>)

  /** The configuration key holding the `stop_propagation` setting. */
  const StopPropagationKey: string := "wonolog.stop_propagation"

  const ChannelKey: string := "channel"
  const ExtraKey: string := "extra"
  const DatetimeKey: string := "datetime"
  const LevelKey: string := "level"
  const MessageKey: string := "message"
  const ContextKey: string := "context"

  /** Why a construction can fail: the global function `config` does not exist. */
  const UndefinedConfig: string := "Call to undefined function config()"

  /** The constructor: `detector` is the injected detector, `None` when a new one is
      created. It reads `stop_propagation` (default false) through `config`, which it
      calls without checking that it exists, and captures the action name from the
      detector once. Returns the handler and the detector as the construction leaves it. */
  function NewHandler(level: Level, bubble: bool, detector: Option<Detector>, env: Env)
    : (r: Result<(Handler, Detector), string>)
    ensures r.Failure? <==> !env.hasConfig
    ensures r.Success? ==>
      var (h, after) := r.value;
      var before := detector.GetOr(Fresh);
      && h.level == level && h.bubble == bubble
      && (h.stopPropagation <==> env.configFlag(StopPropagationKey) == Some(true))
      && h.action == GetAction(before, env).value
      && after == before.(actionCache := Some(h.action))
  {
    var d := detector.GetOr(Fresh);
    if !env.hasConfig then
      Failure(UndefinedConfig)
    else
      var stopPropagation := env.configFlag(StopPropagationKey).GetOr(false);
      var action := GetAction(d, env);
      Success((Handler(level, bubble, stopPropagation, action.value), action.detector))
  }

  /** The constructor called with its defaults, `Level::Debug` and `bubble = true`, as
      the service provider does when it injects only the shared detector. Such a
      handler accepts records of every level. */
  function DefaultHandler(detector: Option<Detector>, env: Env)
    : (r: Result<(Handler, Detector), string>)
    ensures r.Failure? <==> !env.hasConfig
    ensures r.Success? ==> r.value.0.level == Debug && r.value.0.bubble
    ensures r.Success? ==> forall rec: LogRecord :: IsHandling(r.value.0, rec)
    ensures r.Success? ==> r.value.0.action == GetAction(detector.GetOr(Fresh), env).value
  {
    NewHandler(Debug, true, detector, env)
  }

  /** Monolog's `isHandling`: the record's level is at least the handler's. */
  predicate IsHandling(h: Handler, rec: LogRecord) {
    rec.level.AtLeast(h.level)
  }

  /** The Wonolog channel a caller asked for: the context's `channel` entry when it
      is set and not null. */
  function WonologChannel(rec: LogRecord): Option<Value> {
    if IsSet(rec.context, ChannelKey) then Some(rec.context[ChannelKey]) else None
  }

  /** The context forwarded to Wonolog: the record's context without a non-null
      `channel` entry, with the record's extra data under `extra` when there is any,
      and with the record's timestamp under `datetime`. */
  function ForwardedContext(rec: LogRecord): (c: Context)
    ensures ChannelKey in c <==> ChannelKey in rec.context && rec.context[ChannelKey].Null?
    ensures ChannelKey in c ==> c[ChannelKey] == Null
    ensures |rec.extra| > 0 ==> ExtraKey in c && c[ExtraKey] == Array(rec.extra)
    ensures |rec.extra| == 0 ==> (ExtraKey in c <==> ExtraKey in rec.context)
    ensures |rec.extra| == 0 && ExtraKey in c ==> c[ExtraKey] == rec.context[ExtraKey]
    ensures DatetimeKey in c && c[DatetimeKey] == DateTime(rec.datetime)
    ensures forall k :: k != ChannelKey && k != ExtraKey && k != DatetimeKey ==>
      (k in c <==> k in rec.context)
    ensures forall k :: k in c && k != ChannelKey && k != ExtraKey && k != DatetimeKey ==>
      k in rec.context && c[k] == rec.context[k]
  {
    var withoutChannel :=
      if IsSet(rec.context, ChannelKey) then rec.context - {ChannelKey} else rec.context;
    var withExtra :=
      if |rec.extra| != 0 then withoutChannel[ExtraKey := Array(rec.extra)] else withoutChannel;
    withExtra[DatetimeKey := DateTime(rec.datetime)]
  }

  /** The payload's four keys are pairwise distinct. */
  lemma PayloadKeysDistinct()
    ensures LevelKey != MessageKey && LevelKey != ContextKey && LevelKey != ChannelKey
    ensures MessageKey != ContextKey && MessageKey != ChannelKey && ContextKey != ChannelKey
  {
    assert |LevelKey| != |MessageKey| && |LevelKey| != |ContextKey| && |LevelKey| != |ChannelKey|;
    assert MessageKey[0] != ContextKey[0] && MessageKey[0] != ChannelKey[0];
    assert ContextKey[1] != ChannelKey[1];
  }

  /** The PHP array literal `['level' => …, 'message' => …, 'context' => …]`, with
      `'channel' => …` appended when a channel is given. */
  function Assemble(level: int, message: string, context: Context, channel: Option<Value>): (p: Context)
    ensures p.Keys == {LevelKey, MessageKey, ContextKey} + (if channel.Some? then {ChannelKey} else {})
    ensures p[LevelKey] == Int(level) && p[MessageKey] == Str(message) && p[ContextKey] == Array(context)
    ensures channel.Some? ==> p[ChannelKey] == channel.value
  {
    PayloadKeysDistinct();
    var base := map[LevelKey := Int(level), MessageKey := Str(message), ContextKey := Array(context)];
    assert base.Keys == {LevelKey, MessageKey, ContextKey};
    match channel
    case Some(v) =>
      assert ChannelKey !in base;
      base[ChannelKey := v]
    case None => base
  }

  /** The array passed to `do_action`: level number, message and forwarded context,
      plus `channel` exactly when the caller set a non-null Wonolog channel; the
      record's own Monolog channel plays no part. */
  function Payload(rec: LogRecord): (p: Context)
    ensures p.Keys == {LevelKey, MessageKey, ContextKey}
                      + (if IsSet(rec.context, ChannelKey) then {ChannelKey} else {})
    ensures p[LevelKey] == Int(rec.level.Value())
    ensures p[MessageKey] == Str(rec.message)
    ensures p[ContextKey] == Array(ForwardedContext(rec))
    ensures ChannelKey in p <==> IsSet(rec.context, ChannelKey)
    ensures ChannelKey in p ==> p[ChannelKey] == rec.context[ChannelKey]
  {
    Assemble(rec.level.Value(), rec.message, ForwardedContext(rec), WonologChannel(rec))
  }

  /** `handle($record)`: declines (false, nothing emitted) below the threshold, where
      the detector is not even consulted, and when the detector reports Wonolog
      inactive; otherwise emits the payload once under the action captured at
      construction and returns the `stop_propagation` setting. */
  function Handle(h: Handler, d: Detector, env: Env, rec: LogRecord): (r: Outcome)
    ensures !IsHandling(h, rec) ==> r == Outcome(false, d, None)
    ensures IsHandling(h, rec) ==> r.detector == IsActive(d, env).detector
    ensures r.emitted.Some? <==> IsHandling(h, rec) && IsActive(d, env).value
    ensures r.emitted.Some? ==> r.emitted.value == Emission(h.action, Payload(rec))
    ensures r.handled <==> r.emitted.Some? && h.stopPropagation
  {
    if !IsHandling(h, rec) then
      Outcome(false, d, None)
    else
      var active := IsActive(d, env);
      if !active.value then
        Outcome(false, active.detector, None)
      else
        Outcome(h.stopPropagation, active.detector, Some(Emission(h.action, Payload(rec))))
  }
}
