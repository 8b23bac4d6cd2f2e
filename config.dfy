/** Hook configuration: the options a caller may leave unset and the
    defaults that NewHookForLevels puts in their place. */
module Config {

  import opened Wrappers
  import opened Logrus

  type Positive = n: int | n > 0 witness 1

  /** runtime.NumCPU(): fixed by the host, positive, otherwise unknown. */
  const NumCPU: Positive

  const DefaultNumWorkers: Positive := 8 * NumCPU

  const DefaultBufferSize: Positive := 2 * DefaultNumWorkers

  /** The levels a hook reports when none are configured. */
  const DefaultTriggerLevels: seq<Level> := [ErrorLevel, FatalLevel, PanicLevel]

  /** A buffer implementation: the channel-backed default of a given capacity,
      or one the caller supplies (told apart only by identity). */
  datatype BufferImpl = ChannelBuffer(capacity: nat) | CustomBuffer(id: nat)

  /** RollrusConfig: `buffer` None is a nil Buffer; an empty `logLevels`
      stands for both a nil and an empty slice, which the code treats alike. */
  datatype RollrusConfig = RollrusConfig(buffer: Option<BufferImpl>, numWorkers: int, logLevels: seq<Level>)

  /** Every option is set. */
  predicate Complete(c: RollrusConfig) {
    |c.logLevels| > 0 && c.buffer.Some? && c.numWorkers > 0
  }

  /** The configuration after NewHookForLevels has filled in missing options;
      a negative worker count is excluded because `make` would panic on it. */
  function Defaulted(c: RollrusConfig): (d: RollrusConfig)
    requires c.numWorkers >= 0
    ensures Complete(d)
    ensures |c.logLevels| == 0 ==> d.logLevels == DefaultTriggerLevels
    ensures |c.logLevels| != 0 ==> d.logLevels == c.logLevels
    ensures c.buffer.None? ==> d.buffer == Some(ChannelBuffer(DefaultBufferSize))
    ensures c.buffer.Some? ==> d.buffer == c.buffer
    ensures c.numWorkers == 0 ==> d.numWorkers == DefaultNumWorkers
    ensures c.numWorkers != 0 ==> d.numWorkers == c.numWorkers
  {
    RollrusConfig(
      if c.buffer.None? then Some(ChannelBuffer(DefaultBufferSize)) else c.buffer,
      if c.numWorkers == 0 then DefaultNumWorkers else c.numWorkers,
      if |c.logLevels| == 0 then DefaultTriggerLevels else c.logLevels)
  }

  /** Defaulting changes a configuration exactly when some option is unset. */
  lemma DefaultedFixedPoint(c: RollrusConfig)
    requires c.numWorkers >= 0
    ensures Defaulted(c) == c <==> Complete(c)
  {
  }

  /** Defaulting twice is defaulting once. */
  lemma DefaultedIdempotent(c: RollrusConfig)
    requires c.numWorkers >= 0
    ensures Defaulted(Defaulted(c)) == Defaulted(c)
  {
  }

  /** The empty configuration NewHook passes gets every default. */
  lemma EmptyConfigDefaults()
    ensures Defaulted(RollrusConfig(None, 0, []))
            == RollrusConfig(Some(ChannelBuffer(DefaultBufferSize)), DefaultNumWorkers, DefaultTriggerLevels)
  {
  }

  /** The default trigger set is exactly the error-or-worse levels. */
  lemma DefaultTriggersAreErrorOrWorse(l: Level)
    ensures l in DefaultTriggerLevels <==> l == ErrorLevel || l == FatalLevel || l == PanicLevel
  {
  }
}
