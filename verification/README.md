# Wonolog handler — a Dafny model

This project models the core of `wp-spaghetti/wonolog-handler`, a Monolog handler for
Laravel applications running inside WordPress. The handler forwards each log record to
Wonolog's WordPress action hook (`do_action('wonolog.log', $payload)`), but only when a
detector finds Wonolog installed and set up. The model has two parts:

- **The availability detector** (`WonologDetector`, file `detector.dfy`). It keeps three
  caches: the active flag, the Wonolog namespace and the action hook name.
  `getNamespace` and `getAction` resolve a setting in three steps:
  the literal default, then the Laravel `config` value if `config` exists, then the
  WordPress filter if `apply_filters` exists.
  `isActive` runs a capability chain that stops at the first failing check:
  `did_action` exists, then the class `<namespace>\Configurator` exists, then its
  `ACTION_SETUP` constant is defined, then the setup action has fired at least once.
  `resetCache` empties all three caches.
  The host is an immutable record of oracles (`Host.Env`). PHP mutates the caches in
  place; here each operation returns its value, the detector after the call, and the
  host queries it made, in order. "Answered from the cache" is therefore visible as an
  empty query list. `DetectorSessions` (file `detector_sessions.dfy`) runs sequences of
  calls on one detector and proves the memoisation and reset properties over them.
- **The forwarding handler** (`WonologHandler`, file `handler.dfy`). The constructor
  captures the `stop_propagation` setting and the action name once. `handle` works in
  this order:
  1. It declines below the level threshold, without consulting the detector.
  2. It declines when the detector reports Wonolog inactive.
  3. Otherwise it rewrites the context. A non-null `channel` entry is moved out of the
     context. The record's extra data goes under `extra`, but only when there is some.
     The timestamp always goes under `datetime`.
  4. It builds the payload array, emits it once, and returns the `stop_propagation`
     setting.

  `HandlerBatches` (file `handler_batches.dfy`) handles a stream of records through one
  shared detector. `HandlerProperties` (file `handler_properties.dfy`) holds cross-call
  properties and worked examples.

Supporting modules:

- `Wrappers`: `Option` and `Result`.
- `Levels`: Monolog's severities and their numeric scale, 100 to 600.
- `PhpValues`: PHP values, string-keyed arrays, and PHP's `isset` on an array offset. Floats, objects and resources are opaque values identified by an integer, since the handler only copies them.
- `Host`: the environment oracles and the probe alphabet.

Points where the code's behaviour is easy to misread, as the model states it:

- The defaults are `Inpsyde\Wonolog` and `wonolog.log`.
- The filter always receives the configured default and always wins when
  `apply_filters` exists.
- A `channel` entry counts only when it is non-null, because PHP's `isset` is false for
  null.
- Monolog's bubble flag has no effect on `handle`'s result.
- `isActive` uses the cached namespace, so a namespace cached earlier is used even if a
  fresh resolution would now give a different one.

## Model

| member | source | states |
|---|---|---|
| `WonologDetector.Resolve` | src/Support/WonologDetector.php:52-61 | The resolved setting is the filter applied to the configured default when `apply_filters` exists. Otherwise it is the configured value, falling back to the literal, when `config` exists. With neither function it is the literal. `config` is read exactly when it exists, and the filter is applied exactly when `apply_filters` exists. |
| `WonologDetector.GetNamespace` | src/Support/WonologDetector.php:46-66 | With the cache set, the call returns the cached namespace, leaves the detector unchanged and queries nothing. With the cache empty, it returns the freshly resolved namespace, caches it, changes no other cache, and queries the host. Afterwards the cache holds the returned value. |
| `WonologDetector.GetAction` | src/Support/WonologDetector.php:74-94 | The same as `GetNamespace`, with default `wonolog.log`, its own config key and filter hook, and its own cache. The namespace and active caches are untouched. |
| `WonologDetector.IsActive` | src/Support/WonologDetector.php:101-140 | With the active flag cached, the call returns it and queries nothing. Otherwise the result is "`did_action` exists, the configurator class exists, its `ACTION_SETUP` constant is defined, and the action it names has fired", under the namespace `getNamespace` gives. The result is cached. The namespace cache is filled exactly when `did_action` exists, and the action cache is never touched. Without `did_action` the only query is `function_exists('did_action')` and `false` is cached. The fire count is consulted iff the first three checks pass, and the setup constant is looked up iff `did_action` and the configurator class exist, so a failed class check stops the chain. |
| `WonologDetector.IsActiveOnCoherent` | src/Support/WonologDetector.php:101-140 | If every set cache agrees with a fresh computation, `isActive` returns the fresh answer and keeps the caches in agreement. |
| `WonologDetector.ResetCache` | src/Support/WonologDetector.php:145-150 | All three caches are empty afterwards. |
| `DetectorSessions.CachedCallAnswersFromCache` | src/Support/WonologDetector.php:46-140 | A getter whose cache is set returns the cached value, leaves the detector as it was and queries nothing. |
| `DetectorSessions.CallFillsItsCache` | src/Support/WonologDetector.php:63-65 | After any getter call, that getter's cache holds exactly the value it returned. |
| `DetectorSessions.CallKeepsSetCaches` | src/Support/WonologDetector.php:101-140 | No getter call clears or changes a cache that is already set. |
| `DetectorSessions.CacheSurvivesUntilReset` | src/Support/WonologDetector.php:46-140 | Once a getter's cache is set, every later call of that getter, up to the next reset, returns the cached value and queries nothing, whatever other calls come between. |
| `DetectorSessions.RepeatedCallIsMemoised` | tests/WonologDetectorTest.php:27-35 | Two calls of the same getter with no reset between them return the identical value, and the second queries nothing. |
| `DetectorSessions.PerformOnCoherent` | src/Support/WonologDetector.php:46-150 | On a detector whose set caches agree with a fresh computation, every call returns the fresh answer and keeps the caches in agreement. |
| `DetectorSessions.CoherentRunAnswersFresh` | src/Support/WonologDetector.php:46-150 | In an unchanged environment, every answer in a run started from a coherent detector (a new one in particular) equals the answer a fresh detector would give. Caching never changes a result. |
| `DetectorSessions.ResetForcesRecomputation` | src/Support/WonologDetector.php:145-150 | From any detector, stale caches included, the getter call after a reset queries the host and returns what a fresh detector gives in the current environment. |
| `DetectorSessions.ResetRecomputesSameValue` | tests/WonologDetectorTest.php:37-46 | When the caches agree with an unchanged environment, the value recomputed after a reset equals the value the getter gave before it. |
| `DetectorSessions.ResetClearsStaleInactive` | src/Support/WonologDetector.php:145-150 | A detector that cached "inactive" before Wonolog's setup fired keeps answering false, and after a reset answers true once the setup has happened. |
| `DetectorSessions.DefaultNamespaceWithoutHost` | tests/WonologDetectorTest.php:21-46 | Without `config` and `apply_filters`, a new detector's namespace is `Inpsyde\Wonolog`, both before and after a reset. |
| `DetectorSessions.InactiveWithoutDidAction` | tests/WonologDetectorTest.php:48-54 | Without `did_action`, a new detector reports inactive and caches `false`. |
| `WonologHandler.NewHandler` | src/Handler/WonologHandler.php:39-52 | Construction fails iff `config` does not exist, because it is called unguarded. Otherwise the handler keeps the level and bubble flag given. `stopPropagation` is true iff the configured setting is true (default false). The action is the detector's `getAction` answer, and the shared detector then has that action cached. |
| `WonologHandler.DefaultHandler` | src/Handler/WonologHandler.php:39-52 | Constructed with only a detector, the handler has the defaults `Debug` and bubble on, so it accepts records of every level. Construction fails iff `config` does not exist, and the action is the detector's `getAction` answer. |
| `WonologHandler.ForwardedContext` | src/Handler/WonologHandler.php:70-98 | A `channel` key remains iff it held null. `extra` is the record's extra data when that is non-empty; otherwise the original `extra` entry is untouched, present iff it was. `datetime` is always the record's timestamp. Every other key is present iff it was, with its original value. |
| `WonologHandler.Payload` | src/Handler/WonologHandler.php:111-122 | The payload's keys are `level`, `message`, `context`, plus `channel` iff the context had a non-null `channel`. `level` is the level's number, `message` the record's message and `context` the forwarded context. `channel`, when present, is the context's entry. |
| `WonologHandler.Handle` | src/Handler/WonologHandler.php:57-131 | Below the threshold: returns false, emits nothing, and leaves the detector unchanged. Otherwise the detector is as `isActive` leaves it. It emits iff the record passes the threshold and the detector reports active. An emission is exactly one payload, under the action captured at construction. The call returns true iff it emitted and `stop_propagation` is set. |
| `HandlerBatches.HandleAll` | src/Handler/WonologHandler.php:57-131 | Over a stream of records, at most one emission per record, every emission under the handler's action, and a call returns true only for a record that passed the threshold when `stop_propagation` is set. |
| `HandlerBatches.ActiveSinkForwardsHandledRecords` | src/Handler/WonologHandler.php:57-131 | With Wonolog active and a coherent detector, the emissions are exactly the payloads of the records that pass the threshold, in order. Each call returns `stop_propagation` for those records and false for the rest. |
| `HandlerBatches.InactiveSinkNeverForwards` | src/Handler/WonologHandler.php:63-67 | With Wonolog inactive and a coherent detector, nothing is emitted and every call returns false, whatever the levels and the `stop_propagation` setting. |
| `HandlerBatches.SilentWithoutDidAction` | src/Support/WonologDetector.php:108-112 | Without `did_action`, a detector that has not cached "active" makes every call of a stream decline: nothing is emitted and every call returns false. |
| `HandlerProperties.RoutingChannelIgnored` | src/Handler/WonologHandler.php:84-89 | The record's own Monolog channel never affects the payload or the outcome. |
| `HandlerProperties.BubbleIgnored` | src/Handler/WonologHandler.php:128-131 | Monolog's bubble flag does not affect `handle`. The value returned comes from `stop_propagation` alone. |
| `HandlerProperties.ActionFixedAtConstruction` | src/Handler/WonologHandler.php:50-51 | Every emission of a constructed handler uses the action resolved at construction. This holds whatever the detector's later state and the host's later filters. |
| `HandlerProperties.ChannelMovesToPayload` | src/Handler/WonologHandler.php:78-82 | With context `{channel: SECURITY, x: 1}` and Wonolog active, the payload's channel is `SECURITY` and its context is `{x: 1, datetime: T}`. |
| `HandlerProperties.NullChannelStaysInContext` | src/Handler/WonologHandler.php:79-82 | A null `channel` entry stays in the forwarded context, and the payload gets no `channel` key. |
| `HandlerProperties.PaymentFailureExample` | src/Handler/WonologHandler.php:57-131 | An `ERROR` record "Payment failed" with context `{channel: PAYMENT, order_id: 42}` goes through a debug-level handler with propagation allowed. It emits `{level: 400, message, context: {order_id: 42, datetime: T}, channel: PAYMENT}` and returns false. |
| `HandlerProperties.DebugBelowInfoThreshold` | src/Handler/WonologHandler.php:59-61 | A debug record at an info-level handler returns false, emits nothing and leaves the detector unchanged. |
| `Levels.ScaleIsStrictlyIncreasing` | src/Handler/WonologHandler.php:125 | The numeric level scale rises strictly with severity. Distinct levels are forwarded as distinct numbers, and the threshold check on numbers is the severity order. |

## Left out

- Service-provider registration, the configuration file and the usage examples: they are framework wiring and data with no logic. The configuration is modelled only as the `configValue` and `configFlag` oracles.
- The bodies of `do_action`, `did_action`, `apply_filters`, `class_exists`, `defined`, `constant` and `config`: each is an oracle of `Host.Env`. The `do_action` call is the returned `Emission`; what the hooked callbacks do, including raising, is not modelled.
- Monolog's conversion of an `int` or `string` level argument in the constructor: the model takes a `Level` directly. Monolog's `isHandling` is modelled as "record level number at least the handler's".
- Non-string configuration or filter results, and a non-boolean `stop_propagation` value: PHP would raise a type error on the typed property or return type. The oracles return strings and booleans only.
- PHP array key order, and integer array keys: contexts are maps from strings to values.
- The datetime object: it is an opaque instant.
- The placeholder substitution of `PsrLogMessageProcessor`: it runs before `handle` and is not part of this code.
- Sharing the detector by reference: the model passes the detector state in and out of each call explicitly. The batch and session lemmas thread one detector through a sequence of calls.
- Changes to the host environment between calls: each call takes any environment. The session and batch lemmas fix one environment for the whole sequence.
