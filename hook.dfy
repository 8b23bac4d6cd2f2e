/** The Rollbar hook for logrus: construction with defaults, Fire, Close,
    Levels, and the token-gated entry points setupLogging and ReportPanic. */
module Rollrus {

  import opened Wrappers
  import opened Logrus
  import opened Config
  import opened Lifecycle

  /** roll.New(token, env): a Rollbar client; only its settings are modelled. */
  datatype Client = Client(token: string, environment: string)

  /** Hook. The buffer `entries` is kept as what has been pushed to it and
      whether it was closed; the worker pool as its size and the WaitGroup's
      counter. The dispatcher and the workers themselves are not modelled. */
  class Hook {
    const client: Client
    const triggers: Option<seq<Level>> // None is a nil slice
    const buffer: BufferImpl           // the implementation behind `entries`
    var queue: seq<Entry>              // everything pushed to `entries`, in order
    var bufferClosed: bool             // entries.Close() has run
    var closed: bool                   // the `closed` channel is closed
    var onceDone: bool                 // `once` has run its function
    ghost var bodyRuns: nat            // how many times that function has run
    var liveWorkers: nat               // the counter of `wg`
    const numWorkers: nat              // the capacity of `pool`: one slot per worker

    ghost function State(): HookState
      reads this
    {
      HookState(queue, bufferClosed, closed, onceDone, bodyRuns, liveWorkers)
    }

    /** A hook built by NewHookForLevels: all options set, every worker alive until Close. */
    ghost predicate Valid()
      reads this
    {
      && Consistent(State())
      && (!closed ==> liveWorkers == numWorkers)
      && numWorkers > 0
      && triggers.Some? && |triggers.value| > 0
    }

    /** NewHookForLevels: fill in the missing options, then start the workers,
        adding one to the WaitGroup for each. */
    constructor NewHookForLevels(token: string, env: string, config: RollrusConfig)
      requires config.numWorkers >= 0
      ensures Valid()
      ensures State() == Started(Defaulted(config).numWorkers)
      ensures client == Client(token, env)
      ensures triggers == Some(Defaulted(config).logLevels)
      ensures Some(buffer) == Defaulted(config).buffer
      ensures numWorkers == Defaulted(config).numWorkers
    {
      var c := config;
      if |c.logLevels| == 0 {
        c := c.(logLevels := DefaultTriggerLevels);
      }
      if c.buffer.None? {
        c := c.(buffer := Some(ChannelBuffer(DefaultBufferSize)));
      }
      if c.numWorkers == 0 {
        c := c.(numWorkers := DefaultNumWorkers);
      }
      var started := 0;
      for i := 0 to c.numWorkers
        invariant started == i
      {
        started := started + 1;
      }
      client := Client(token, env);
      triggers := Some(c.logLevels);
      buffer := c.buffer.value;
      queue, bufferClosed, closed, onceDone := [], false, false, false;
      bodyRuns := 0;
      liveWorkers := started;
      numWorkers := c.numWorkers;
    }

    /** Levels: the configured triggers, or the default set when they are nil. */
    function Levels(): (r: seq<Level>)
      ensures triggers.None? ==> r == DefaultTriggerLevels
      ensures triggers.Some? ==> r == triggers.value
      ensures |r| == 0 <==> triggers == Some([])
    {
      if triggers.None? then DefaultTriggerLevels else triggers.value
    }

    /** Fire: push the entry to the buffer; never fails. */
    method Fire(entry: Entry) returns (err: Option<Error>)
      requires Valid()
      modifies this
      ensures Valid()
      ensures err == None
      ensures State() == FireStep(old(State()), entry)
    {
      queue := queue + [entry];
      err := None;
    }

    /** Close: run the guarded body (close `closed`, close the buffer) if it
        has not run yet, then wait for every worker; never fails. */
    method Close() returns (err: Option<Error>)
      requires Valid()
      modifies this
      ensures Valid()
      ensures err == None
      ensures State() == CloseStep(old(State()))
    {
      if !onceDone {
        closed := true;
        bufferClosed := true;
        bodyRuns := bodyRuns + 1;
        onceDone := true;
      }
      // wg.Wait(): each worker observes `closed` and calls Done before Wait returns.
      liveWorkers := 0;
      err := None;
    }
  }

  /** A hook built by NewHookForLevels reports the configured levels, or the
      default set when none were configured, and never an empty set. */
  lemma NewHookLevels(h: Hook, config: RollrusConfig)
    requires config.numWorkers >= 0
    requires h.triggers == Some(Defaulted(config).logLevels)
    ensures h.Levels() == if |config.logLevels| == 0 then DefaultTriggerLevels else config.logLevels
    ensures |h.Levels()| > 0
  {
  }

  /** Closing a hook twice: both calls return nil, the hook stays valid, and
      the body has run exactly once, whether or not the hook was closed before. */
  method CloseTwice(h: Hook) returns (first: Option<Error>, second: Option<Error>)
    requires h.Valid()
    modifies h
    ensures first == None && second == None
    ensures h.Valid() && h.State() == CloseStep(old(h.State()))
    ensures h.bodyRuns == 1
    ensures !old(h.onceDone) ==> h.bodyRuns == old(h.bodyRuns) + 1
    ensures h.closed && h.bufferClosed && h.liveWorkers == 0
  {
    first := h.Close();
    second := h.Close();
  }

  /** The io.Closer that setupLogging returns. */
  datatype Closer = NoopCloser | HookCloser(hook: Hook)

  /** noopCloser.Close. */
  function NoopClose(): (err: Option<Error>)
    ensures err == None
  {
    None
  }

  /** The unexported setupLogging(token, env, config), to which the exported
      SetupLogging (with an empty config) and SetupLoggingForLevels forward:
      with a token, build and register a hook and return it; with an empty
      token, return the no-op closer. */
  method SetupLogging(token: string, env: string, config: RollrusConfig) returns (closer: Closer)
    requires token != "" ==> config.numWorkers >= 0
    ensures closer.NoopCloser? <==> token == ""
    ensures closer.HookCloser? ==> fresh(closer.hook) && closer.hook.Valid()
    ensures closer.HookCloser? ==> closer.hook.client == Client(token, env)
    ensures closer.HookCloser? ==> closer.hook.State() == Started(Defaulted(config).numWorkers)
    ensures closer.HookCloser? ==> closer.hook.triggers == Some(Defaulted(config).logLevels)
    ensures closer.HookCloser? ==> Some(closer.hook.buffer) == Defaulted(config).buffer
    ensures closer.HookCloser? ==> closer.hook.numWorkers == Defaulted(config).numWorkers
  {
    if token != "" {
      var h := new Hook.NewHookForLevels(token, env, config);
      closer := HookCloser(h);
    } else {
      closer := NoopCloser;
    }
  }

  /** A property of SetupLoggingForLevels (and of SetupLogging, whose config
      has no levels), not a function of the package: the hook it returns
      reports the configured levels, or the default set when none are given. */
  method SetupLoggingForLevelsReportsLevels(token: string, env: string, config: RollrusConfig) returns (closer: Closer)
    requires config.numWorkers >= 0 && token != ""
    ensures closer.HookCloser? && fresh(closer.hook)
    ensures closer.hook.Levels() == if |config.logLevels| == 0 then DefaultTriggerLevels else config.logLevels
    ensures |closer.hook.Levels()| > 0
  {
    closer := SetupLogging(token, env, config);
    NewHookLevels(closer.hook, config);
  }

  /** Close on the closer setupLogging returned: nil in every case. */
  method CloseCloser(closer: Closer) returns (err: Option<Error>)
    requires closer.HookCloser? ==> closer.hook.Valid()
    modifies if closer.HookCloser? then {closer.hook} else {}
    ensures err == None
    ensures closer.HookCloser? ==> closer.hook.Valid() && closer.hook.closed
    ensures closer.HookCloser? ==> closer.hook.State() == CloseStep(old(closer.hook.State()))
  {
    match closer
    case NoopCloser => err := NoopClose();
    case HookCloser(h) => err := h.Close();
  }

  /** With an empty token, setting up and closing touch nothing and return nil,
      whatever the configuration: it is never read. */
  method SetupAndCloseWithoutToken(env: string, config: RollrusConfig) returns (err: Option<Error>)
    ensures err == None
  {
    var closer := SetupLogging("", env, config);
    assert closer == NoopCloser;
    err := CloseCloser(closer);
  }

  // ---- Panic reporting ----

  /** A value passed to panic. */
  type PanicValue(==)

  /** How the function that calls recover() was itself invoked. */
  datatype Caller = DeferredDirectly | CalledFromDeferred

  /** Go's recover(): the value of the panic in flight, but only when called
      directly by a deferred function; anywhere else it returns nil. */
  function Recover(caller: Caller, panicking: Option<PanicValue>): (p: Option<PanicValue>)
    ensures p.Some? <==> caller == DeferredDirectly && panicking.Some?
    ensures p.Some? ==> p == panicking
  {
    if caller == DeferredDirectly then panicking else None
  }

  /** What a panic-reporting call did: the panic value sent to Client.Critical
      (if any), the error printed to stderr (if any), and the panic still
      propagating when the call returns. */
  datatype PanicOutcome = PanicOutcome(reported: Option<PanicValue>, stderr: Option<Error>, propagating: Option<PanicValue>)

  /** (*Hook).ReportPanic invoked as `caller`, while `panicking` is in flight;
      `criticalErr` is what Client.Critical returns. A recovered panic is
      reported, a failed report printed, and the panic raised again. */
  function HookReportPanic(caller: Caller, panicking: Option<PanicValue>, criticalErr: Option<Error>): (o: PanicOutcome)
    ensures o.propagating == panicking
    ensures o.reported == Recover(caller, panicking)
    ensures o.stderr.Some? <==> o.reported.Some? && criticalErr.Some?
    ensures o.stderr.Some? ==> o.stderr == criticalErr
  {
    var p := Recover(caller, panicking);
    if p.Some? then
      PanicOutcome(p, criticalErr, p)
    else
      PanicOutcome(None, None, panicking)
  }

  /** The effect of the package-level ReportPanic: the client it created (if
      any) and what the panic report did. */
  datatype PanicCall = PanicCall(created: Option<Client>, outcome: PanicOutcome)

  /** ReportPanic(token, env) as written, used as `defer ReportPanic(token, env)`:
      with a token it creates a client and calls (*Hook).ReportPanic from
      inside the deferred function, so recover() there is one frame too deep. */
  function ReportPanic(token: string, env: string, panicking: Option<PanicValue>, criticalErr: Option<Error>): (r: PanicCall)
    ensures r.created.None? <==> token == ""
    ensures r.created.Some? ==> r.created == Some(Client(token, env))
    ensures r.outcome.propagating == panicking
    ensures token == "" ==> r.outcome == PanicOutcome(None, None, panicking)
  {
    if token != "" then
      PanicCall(Some(Client(token, env)), HookReportPanic(CalledFromDeferred, panicking, criticalErr))
    else
      PanicCall(None, PanicOutcome(None, None, panicking))
  }

  /** As written, ReportPanic never reports anything: with a token set and a
      panic in flight, nothing reaches Rollbar. */
  lemma ReportPanicMissesPanic(token: string, env: string, p: PanicValue, criticalErr: Option<Error>)
    requires token != ""
    ensures ReportPanic(token, env, Some(p), criticalErr).created.Some?
    ensures ReportPanic(token, env, Some(p), criticalErr).outcome.reported == None
  {
  }

  /** ReportPanic with recover() moved into the deferred function itself:
      with a token, the panic in flight is reported, a failed report is
      printed, and the panic propagates unchanged. */
  function ReportPanicRecovering(token: string, env: string, panicking: Option<PanicValue>, criticalErr: Option<Error>): (r: PanicCall)
    ensures r.created.None? <==> token == ""
    ensures r.created.Some? ==> r.created == Some(Client(token, env))
    ensures r.outcome.propagating == panicking
    ensures token == "" ==> r.outcome == PanicOutcome(None, None, panicking)
    ensures token != "" ==> r.outcome.reported == panicking
    ensures token != "" && panicking.Some? ==> r.outcome.stderr == criticalErr
  {
    if token != "" then
      PanicCall(Some(Client(token, env)), HookReportPanic(DeferredDirectly, panicking, criticalErr))
    else
      PanicCall(None, PanicOutcome(None, None, panicking))
  }
}
