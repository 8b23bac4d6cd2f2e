/** The hook's lifecycle seen from a single caller: Fire pushes to the
    buffer, Close runs its guarded body once and then waits for the workers.
    The class Hook is proved to take exactly these steps. */
module Lifecycle {

  import opened Logrus

  /** What Fire and Close change in a hook. */
  datatype HookState = HookState(
    queue: seq<Entry>,  // every entry pushed to the buffer, in push order
    bufferClosed: bool, // entries.Close() has run
    closed: bool,       // the `closed` channel has been closed
    onceDone: bool,     // the sync.Once has run its function
    bodyRuns: nat,      // how many times Close's guarded body has run
    liveWorkers: nat)   // the WaitGroup's counter: workers not yet finished

  /** A hook just built, with `workers` workers started. */
  function Started(workers: nat): HookState {
    HookState([], false, false, false, 0, workers)
  }

  /** The relations between the fields that every reachable state keeps. */
  predicate Consistent(s: HookState) {
    && s.bodyRuns == (if s.onceDone then 1 else 0)
    && s.closed == s.onceDone
    && s.bufferClosed == s.onceDone
    && (s.closed ==> s.liveWorkers == 0)
  }

  /** Fire: push the entry and change nothing else. */
  function FireStep(s: HookState, e: Entry): (t: HookState)
    ensures t.queue == s.queue + [e] && |t.queue| == |s.queue| + 1
    ensures t.(queue := s.queue) == s
  {
    s.(queue := s.queue + [e])
  }

  /** Close: the body behind the once-guard (close `closed`, close the
      buffer) runs only if it has not run before; then Wait returns once
      every worker has called Done. */
  function CloseStep(s: HookState): (t: HookState)
    ensures t.onceDone && t.liveWorkers == 0 && t.queue == s.queue
    ensures !s.onceDone ==> t.closed && t.bufferClosed && t.bodyRuns == s.bodyRuns + 1
    ensures s.onceDone ==> t.closed == s.closed && t.bufferClosed == s.bufferClosed && t.bodyRuns == s.bodyRuns
  {
    var afterOnce :=
      if s.onceDone then s
      else s.(closed := true, bufferClosed := true, bodyRuns := s.bodyRuns + 1, onceDone := true);
    afterOnce.(liveWorkers := 0)
  }

  /** A call a single caller can make on the hook. */
  datatype Call = FireCall(e: Entry) | CloseCall

  function Step(s: HookState, c: Call): HookState {
    match c
    case FireCall(e) => FireStep(s, e)
    case CloseCall => CloseStep(s)
  }

  /** The state after making the calls in order. */
  function Run(s: HookState, calls: seq<Call>): HookState
    decreases |calls|
  {
    if calls == [] then s else Run(Step(s, calls[0]), calls[1..])
  }

  /** The entries the calls fire, in order. */
  function Fired(calls: seq<Call>): seq<Entry>
    decreases |calls|
  {
    if calls == [] then []
    else (if calls[0].FireCall? then [calls[0].e] else []) + Fired(calls[1..])
  }

  lemma StepKeepsConsistent(s: HookState, c: Call)
    requires Consistent(s)
    ensures Consistent(Step(s, c))
  {
  }

  /** Every sequence of calls keeps the state consistent, and the once-guard
      has fired exactly when it had before or some call was a Close. */
  lemma {:induction false} RunConsistent(s: HookState, calls: seq<Call>)
    requires Consistent(s)
    ensures Consistent(Run(s, calls))
    ensures Run(s, calls).onceDone <==> s.onceDone || CloseCall in calls
    decreases |calls|
  {
    if calls != [] {
      StepKeepsConsistent(s, calls[0]);
      RunConsistent(Step(s, calls[0]), calls[1..]);
      assert CloseCall in calls <==> calls[0] == CloseCall || CloseCall in calls[1..] by {
        assert calls == [calls[0]] + calls[1..];
      }
    }
  }

  /** Close's body runs at most once however many times Close is called:
      once if there was a Close, never otherwise. */
  lemma CloseBodyAtMostOnce(workers: nat, calls: seq<Call>)
    ensures Run(Started(workers), calls).bodyRuns <= 1
    ensures Run(Started(workers), calls).bodyRuns == 1 <==> CloseCall in calls
  {
    RunConsistent(Started(workers), calls);
  }

  /** After any Close the shutdown is complete: the signal is raised, the
      buffer is closed and no worker is left. */
  lemma CloseIsBarrier(workers: nat, calls: seq<Call>)
    requires CloseCall in calls
    ensures var t := Run(Started(workers), calls); t.closed && t.bufferClosed && t.liveWorkers == 0
  {
    RunConsistent(Started(workers), calls);
  }

  /** The buffer holds exactly the fired entries, in the order they were
      fired, whatever Close calls are interleaved. */
  lemma {:induction false} RunQueue(s: HookState, calls: seq<Call>)
    ensures Run(s, calls).queue == s.queue + Fired(calls)
    decreases |calls|
  {
    if calls != [] {
      RunQueue(Step(s, calls[0]), calls[1..]);
      assert Step(s, calls[0]).queue == s.queue + (if calls[0].FireCall? then [calls[0].e] else []);
    }
  }

  /** Without a Close, nothing but the queue moves: no shutdown, every worker alive. */
  lemma {:induction false} FireOnly(s: HookState, calls: seq<Call>)
    requires CloseCall !in calls
    ensures Run(s, calls) == s.(queue := s.queue + Fired(calls))
    decreases |calls|
  {
    if calls != [] {
      assert calls[0] != CloseCall by { assert calls[0] in calls; }
      assert CloseCall !in calls[1..] by {
        forall c | c in calls[1..] ensures c != CloseCall { assert c in calls; }
      }
      FireOnly(Step(s, calls[0]), calls[1..]);
    }
  }
}
