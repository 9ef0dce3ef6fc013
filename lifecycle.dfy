/**
 * The lifecycle of the cluster manager: the `WorkerState` cell and what
 * `start()` and `stop()` do to it and to the worker, as functions on values,
 * with the laws that hold over any sequence of calls.
 *
 * A compare-and-set that another thread wins first is modelled by a
 * `lostRace` flag: the losing call sees its transition fail and, from its
 * own point of view, nothing changes.
 */
module Lifecycle {

  datatype WorkerState = New | Initializing | Started | Destroying | Stopped | IllegalState

  /** Position in the forward order NEW, INITIALIZING, STARTED, DESTROYING, STOPPED; ILLEGAL_STATE last. */
  function Rank(s: WorkerState): nat
  {
    match s
    case New => 0
    case Initializing => 1
    case Started => 2
    case Destroying => 3
    case Stopped => 4
    case IllegalState => 5
  }

  /** A state from which the manager can never run again: DESTROYING, STOPPED or ILLEGAL_STATE. */
  predicate ShutDown(s: WorkerState)
  {
    Rank(s) > Rank(Started)
  }

  /** The `IllegalStateException`s that `start()` throws. */
  datatype LifecycleError = AlreadyDestroying | AlreadyStopped | InvalidState

  datatype Outcome = Pass | Fail(error: LifecycleError)

  /** What the lifecycle methods see and change: the state cell and whether the worker runs. */
  datatype Lifecycle = Lifecycle(state: WorkerState, workerRunning: bool)

  datatype StartResult = StartResult(after: Lifecycle, outcome: Outcome)

  /** The worker runs exactly when the manager reports STARTED. */
  predicate Coherent(l: Lifecycle)
  {
    l.workerRunning <==> l.state == Started
  }

  /**
   * `start()`: the caller that wins NEW -> INITIALIZING starts the worker and
   * moves on to STARTED; a loser falls through to the INITIALIZING case.
   */
  function StartSpec(l: Lifecycle, lostRace: bool): (r: StartResult)
    ensures r.outcome.Fail? <==> ShutDown(l.state)
    ensures r.after != l ==> l.state == New && !lostRace
    ensures l.state == New && !lostRace ==> r.after == Lifecycle(Started, true) && r.outcome == Pass
  {
    match l.state
    case New =>
      if !lostRace then StartResult(Lifecycle(Started, true), Pass)
      else StartResult(l, Pass)
    case Initializing => StartResult(l, Pass)
    case Started => StartResult(l, Pass)
    case Destroying => StartResult(l, Fail(AlreadyDestroying))
    case Stopped => StartResult(l, Fail(AlreadyStopped))
    case IllegalState => StartResult(l, Fail(InvalidState))
  }

  /**
   * `stop()`: the caller that wins STARTED -> DESTROYING stops the worker and
   * moves on to STOPPED; every other call returns and changes nothing.
   */
  function StopSpec(l: Lifecycle, lostRace: bool): (r: Lifecycle)
    ensures r != l ==> l.state == Started && !lostRace
    ensures l.state == Started && !lostRace ==> r.state == Stopped && !r.workerRunning
  {
    if l.state == Started && !lostRace then Lifecycle(Stopped, false) else l
  }

  /** One call of `start()` or `stop()`, with the outcome of its race. */
  datatype Call = StartCall(lostRace: bool) | StopCall(lostRace: bool)

  function Step(l: Lifecycle, c: Call): Lifecycle
  {
    match c
    case StartCall(lost) => StartSpec(l, lost).after
    case StopCall(lost) => StopSpec(l, lost)
  }

  function Run(l: Lifecycle, calls: seq<Call>): Lifecycle
    decreases |calls|
  {
    if calls == [] then l else Run(Step(l, calls[0]), calls[1..])
  }

  /** The call runs the initialisation sequence (starts the worker). */
  predicate Initializes(l: Lifecycle, c: Call)
  {
    c.StartCall? && l.state == New && Step(l, c).state == Started
  }

  /** The call runs the teardown sequence (stops the worker). */
  predicate TearsDown(l: Lifecycle, c: Call)
  {
    c.StopCall? && l.state == Started && Step(l, c).state == Stopped
  }

  function Initializations(l: Lifecycle, calls: seq<Call>): nat
    decreases |calls|
  {
    if calls == [] then 0
    else (if Initializes(l, calls[0]) then 1 else 0) + Initializations(Step(l, calls[0]), calls[1..])
  }

  function Teardowns(l: Lifecycle, calls: seq<Call>): nat
    decreases |calls|
  {
    if calls == [] then 0
    else (if TearsDown(l, calls[0]) then 1 else 0) + Teardowns(Step(l, calls[0]), calls[1..])
  }

  /** The state only moves forward, whatever the calls and races. */
  lemma {:induction false} RunIsMonotone(l: Lifecycle, calls: seq<Call>)
    ensures Rank(l.state) <= Rank(Run(l, calls).state)
    decreases |calls|
  {
    if calls != [] {
      RunIsMonotone(Step(l, calls[0]), calls[1..]);
    }
  }

  /** No sequence of calls leaves the worker running while the state is not STARTED, nor the reverse. */
  lemma {:induction false} RunKeepsCoherent(l: Lifecycle, calls: seq<Call>)
    requires Coherent(l)
    ensures Coherent(Run(l, calls))
    decreases |calls|
  {
    if calls != [] {
      RunKeepsCoherent(Step(l, calls[0]), calls[1..]);
    }
  }

  /** Once DESTROYING, STOPPED or ILLEGAL_STATE, no call changes anything (and every `start()` fails). */
  lemma {:induction false} ShutDownIsFinal(l: Lifecycle, calls: seq<Call>)
    requires ShutDown(l.state)
    ensures Run(l, calls) == l
    decreases |calls|
  {
    if calls != [] {
      ShutDownIsFinal(Step(l, calls[0]), calls[1..]);
    }
  }

  /** However `start()` calls race, the worker is started at most once, and only from NEW. */
  lemma {:induction false} InitializesAtMostOnce(l: Lifecycle, calls: seq<Call>)
    ensures Initializations(l, calls) <= if l.state == New then 1 else 0
    decreases |calls|
  {
    if calls != [] {
      InitializesAtMostOnce(Step(l, calls[0]), calls[1..]);
    }
  }

  /** However `stop()` calls race, the worker is stopped at most once, and never after a teardown. */
  lemma {:induction false} TearsDownAtMostOnce(l: Lifecycle, calls: seq<Call>)
    ensures Teardowns(l, calls) <= if ShutDown(l.state) then 0 else 1
    decreases |calls|
  {
    if calls != [] {
      TearsDownAtMostOnce(Step(l, calls[0]), calls[1..]);
    }
  }
}
