/** Sequences of calls on one shared detector instance: what the caches guarantee
    across calls, and what `resetCache()` undoes. */
module DetectorSessions {
  import opened Wrappers
  import opened Host
  import opened WonologDetector

  /** One public call on the detector. */
  datatype Call = NamespaceCall | ActionCall | ActiveCall | ResetCall

  /** What a call returns: a string, a flag, or nothing (`resetCache()` is `void`). */
  datatype Reply = Name(name: string) | Flag(flag: bool) | Done

  /** Performs one call. */
  function Perform(d: Detector, env: Env, c: Call): (r: Answer<Reply>)
    ensures c == ResetCall ==> r == Answer(Done, Fresh, [])
  {
    match c
    case NamespaceCall =>
      var a := GetNamespace(d, env);
      Answer(Name(a.value), a.detector, a.probes)
    case ActionCall =>
      var a := GetAction(d, env);
      Answer(Name(a.value), a.detector, a.probes)
    case ActiveCall =>
      var a := IsActive(d, env);
      Answer(Flag(a.value), a.detector, a.probes)
    case ResetCall =>
      Answer(Done, ResetCache(d), [])
  }

  /** Performs `calls` in order on one detector in an unchanging environment; the
      i-th answer carries the detector as it is after the i-th call. */
  function Run(d: Detector, env: Env, calls: seq<Call>): (t: seq<Answer<Reply>>)
    ensures |t| == |calls|
    ensures forall i :: 0 <= i < |calls| && calls[i] == ResetCall ==> t[i] == Answer(Done, Fresh, [])
    decreases |calls|
  {
    if calls == [] then []
    else
      var first := Perform(d, env, calls[0]);
      [first] + Run(first.detector, env, calls[1..])
  }

  /** The cache slot a getter call reads, as a reply. */
  function Cached(d: Detector, c: Call): Option<Reply>
    requires c != ResetCall
  {
    match c
    case NamespaceCall => if d.namespaceCache.Some? then Some(Name(d.namespaceCache.value)) else None
    case ActionCall => if d.actionCache.Some? then Some(Name(d.actionCache.value)) else None
    case ActiveCall => if d.activeCache.Some? then Some(Flag(d.activeCache.value)) else None
  }

  /** The reply a fresh detector gives to `c` in `env`. */
  function FreshReply(env: Env, c: Call): Reply {
    match c
    case NamespaceCall => Name(FreshValue(env, NamespaceSetting))
    case ActionCall => Name(FreshValue(env, ActionSetting))
    case ActiveCall => Flag(FreshActive(env))
    case ResetCall => Done
  }

  /** A getter whose cache is set answers from it and queries nothing. */
  lemma CachedCallAnswersFromCache(d: Detector, env: Env, c: Call)
    requires c != ResetCall && Cached(d, c).Some?
    ensures Perform(d, env, c) == Answer(Cached(d, c).value, d, [])
  {
  }

  /** After a getter call its cache holds exactly the value it returned. */
  lemma CallFillsItsCache(d: Detector, env: Env, c: Call)
    requires c != ResetCall
    ensures Cached(Perform(d, env, c).detector, c) == Some(Perform(d, env, c).value)
  {
  }

  /** A getter call never clears or changes a cache that is already set. */
  lemma CallKeepsSetCaches(d: Detector, env: Env, c: Call, slot: Call)
    requires c != ResetCall && slot != ResetCall && Cached(d, slot).Some?
    ensures Cached(Perform(d, env, c).detector, slot) == Cached(d, slot)
  {
  }

  /** Once a getter's cache is set, every later call of that getter, up to the next
      `resetCache()`, returns the cached value and makes no host query. */
  lemma {:induction false} CacheSurvivesUntilReset(d: Detector, env: Env, calls: seq<Call>, c: Call, j: int)
    requires c != ResetCall && Cached(d, c).Some?
    requires 0 <= j < |calls| && calls[j] == c
    requires forall k :: 0 <= k <= j ==> calls[k] != ResetCall
    ensures Run(d, env, calls)[j].value == Cached(d, c).value
    ensures Run(d, env, calls)[j].probes == []
    decreases j
  {
    var first := Perform(d, env, calls[0]);
    assert Run(d, env, calls) == [first] + Run(first.detector, env, calls[1..]);
    if j == 0 {
      CachedCallAnswersFromCache(d, env, c);
    } else {
      CallKeepsSetCaches(d, env, calls[0], c);
      CacheSurvivesUntilReset(first.detector, env, calls[1..], c, j - 1);
    }
  }

  /** Calling a getter twice with no `resetCache()` in between returns the identical
      value both times, and the second call makes no host query, whatever other
      calls come between them. */
  lemma {:induction false} RepeatedCallIsMemoised(d: Detector, env: Env, calls: seq<Call>, i: int, j: int)
    requires 0 <= i < j < |calls|
    requires calls[i] == calls[j] != ResetCall
    requires forall k :: i < k < j ==> calls[k] != ResetCall
    ensures Run(d, env, calls)[j].value == Run(d, env, calls)[i].value
    ensures Run(d, env, calls)[j].probes == []
    decreases i
  {
    var first := Perform(d, env, calls[0]);
    var rest := calls[1..];
    assert Run(d, env, calls) == [first] + Run(first.detector, env, rest);
    if i == 0 {
      CallFillsItsCache(d, env, calls[0]);
      CacheSurvivesUntilReset(first.detector, env, rest, calls[0], j - 1);
    } else {
      RepeatedCallIsMemoised(first.detector, env, rest, i - 1, j - 1);
    }
  }

  /** Every call on a coherent detector answers what a fresh detector would, and
      leaves the detector coherent. */
  lemma PerformOnCoherent(d: Detector, env: Env, c: Call)
    requires Coherent(d, env)
    ensures Perform(d, env, c).value == FreshReply(env, c)
    ensures Coherent(Perform(d, env, c).detector, env)
  {
  }

  /** In an unchanging environment, a run started on a coherent detector (a new one,
      in particular) answers every call exactly as a fresh detector would: the caches
      never make an answer differ from recomputation. */
  lemma {:induction false} CoherentRunAnswersFresh(d: Detector, env: Env, calls: seq<Call>)
    requires Coherent(d, env)
    ensures forall k :: 0 <= k < |calls| ==> Run(d, env, calls)[k].value == FreshReply(env, calls[k])
    decreases |calls|
  {
    if calls != [] {
      var first := Perform(d, env, calls[0]);
      PerformOnCoherent(d, env, calls[0]);
      CoherentRunAnswersFresh(first.detector, env, calls[1..]);
      assert Run(d, env, calls) == [first] + Run(first.detector, env, calls[1..]);
    }
  }

  /** After `resetCache()` the next getter call recomputes, whatever the caches held
      before, stale ones included: it queries the host and returns what a fresh
      detector would give in the current environment. */
  lemma ResetForcesRecomputation(d: Detector, env: Env, c: Call)
    requires c != ResetCall
    ensures Run(d, env, [c, ResetCall, c])[2].probes != []
    ensures Run(d, env, [c, ResetCall, c])[2].value == FreshReply(env, c)
  {
    var first := Perform(d, env, c);
    var again := Perform(Fresh, env, c);
    assert Run(Fresh, env, [c]) == [again] + Run(again.detector, env, []);
    assert [ResetCall, c][1..] == [c];
    assert Run(first.detector, env, [ResetCall, c]) == [Answer(Done, Fresh, [])] + Run(Fresh, env, [c]);
    assert [c, ResetCall, c][1..] == [ResetCall, c];
    assert Run(d, env, [c, ResetCall, c]) == [first] + Run(first.detector, env, [ResetCall, c]);
    PerformOnCoherent(Fresh, env, c);
  }

  /** When the caches agree with an unchanged environment, the value recomputed after
      `resetCache()` is the value the getter gave before the reset. */
  lemma ResetRecomputesSameValue(d: Detector, env: Env, c: Call)
    requires Coherent(d, env) && c != ResetCall
    ensures Run(d, env, [c, ResetCall, c])[2].value == Run(d, env, [c, ResetCall, c])[0].value
  {
    ResetForcesRecomputation(d, env, c);
    PerformOnCoherent(d, env, c);
    assert Run(d, env, [c, ResetCall, c])[0] == Perform(d, env, c);
  }

  /** A detector that cached "inactive" before Wonolog's setup action fired keeps
      answering false until `resetCache()`; after the reset it answers true once the
      setup has happened. */
  lemma ResetClearsStaleInactive(d: Detector, env: Env)
    requires d.activeCache == Some(false) && FreshActive(env)
    ensures Run(d, env, [ActiveCall, ResetCall, ActiveCall])[0].value == Flag(false)
    ensures Run(d, env, [ActiveCall, ResetCall, ActiveCall])[2].value == Flag(true)
  {
    ResetForcesRecomputation(d, env, ActiveCall);
    assert Run(d, env, [ActiveCall, ResetCall, ActiveCall])[0] == Perform(d, env, ActiveCall);
  }

  /** Without host functions, a new detector's namespace is the literal default, also
      after a reset. */
  lemma DefaultNamespaceWithoutHost(env: Env)
    requires !env.hasConfig && !env.hasApplyFilters
    ensures Run(Fresh, env, [NamespaceCall])[0].value == Name("Inpsyde\\Wonolog")
    ensures Run(Fresh, env, [NamespaceCall, ResetCall, NamespaceCall])[2].value == Name("Inpsyde\\Wonolog")
  {
    ResetRecomputesSameValue(Fresh, env, NamespaceCall);
  }

  /** Without `did_action`, a new detector reports Wonolog inactive and caches that. */
  lemma InactiveWithoutDidAction(env: Env)
    requires !env.hasDidAction
    ensures Run(Fresh, env, [ActiveCall])[0].value == Flag(false)
    ensures Run(Fresh, env, [ActiveCall])[0].detector.activeCache == Some(false)
  {
  }
}
